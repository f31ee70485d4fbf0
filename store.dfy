/**
 * The tables the two write endpoints of server.js change, held as one object:
 * `itens_doacao` (the lots), `doacoes`, `saidas` and `itens_saida`, with the
 * next AUTO_INCREMENT value of each table that hands out ids here. A
 * transaction that rolls back restores the rows it touched but, as in InnoDB,
 * not the counters.
 */
module Store {
  import opened Wrappers
  import opened Text
  import opened Sorting
  import opened Allocation
  import opened AllocationProperties

  /** A row of `doacoes`. */
  datatype Donation = Donation(id: nat, donor: Option<int>, date: Option<int>, notes: Option<string>)

  /** A row of `saidas`: the header of one distribution. */
  datatype Outflow = Outflow(id: nat, institution: Option<int>, date: Option<int>, notes: Option<string>)

  /** One element of the `itens` array of a donation request. */
  datatype DonationItem = DonationItem(descricao: string, quantidade: int, unidade: Option<string>, validade: Option<int>)

  /** One element of the `itens` array of a distribution request; absent fields are `None`. */
  datatype RequestLine = RequestLine(descricao: Option<string>, quantidade: Option<int>, unidade: Option<string>)

  /** The tables and counters a distribution's line loop does not touch. */
  datatype OtherTables = OtherTables(donations: seq<Donation>, outflows: seq<Outflow>, received: int,
                                     nextLotId: nat, nextDonationId: nat, nextOutflowId: nat)

  datatype DonationError = NoItems | Refused
  datatype OutflowError = NoLines | InsufficientStock(descricao: string, missing: int)

  /** `x || null` on an id: 0 is falsy and becomes NULL. */
  function IdOrNull(x: Option<int>): (r: Option<int>)
    ensures r.Some? <==> x.Some? && x.value != 0
    ensures r.Some? ==> r == x
  {
    if x == Some(0) then None else x
  }

  /** `x || null` on a text: the empty string is falsy and becomes NULL. */
  function TextOrNull(x: Option<string>): (r: Option<string>)
    ensures r.Some? <==> x.Some? && x.value != ""
    ensures r.Some? ==> r == x
  {
    if x == Some("") then None else x
  }

  // ---------------------------------------------------------------------------
  // POST /api/doacoes

  /** The `itens_doacao` row one donated item becomes (server.js:186-191). */
  function LotOf(id: nat, donationId: nat, item: DonationItem): Lot {
    Lot(id, donationId, item.descricao, item.quantidade, TextOrNull(item.unidade), item.validade)
  }

  /** The lots one donation inserts, one per item in order, with consecutive ids from `firstId`. */
  function NewLots(firstId: nat, donationId: nat, items: seq<DonationItem>): (r: seq<Lot>)
    ensures |r| == |items|
    decreases |items|
  {
    if items == [] then [] else [LotOf(firstId, donationId, items[0])] + NewLots(firstId + 1, donationId, items[1..])
  }

  /** What a donation's items declare, in hundredths. */
  function ItemsTotal(items: seq<DonationItem>): int {
    if items == [] then 0 else items[0].quantidade + ItemsTotal(items[1..])
  }

  /** Ids strictly increase along a table and stay below the table's counter. */
  ghost predicate IdsOrdered(ids: seq<nat>, next: nat) {
    && (forall i, j :: 0 <= i < j < |ids| ==> ids[i] < ids[j])
    && (forall i :: 0 <= i < |ids| ==> ids[i] < next)
  }

  /** The ids of a table's rows, in row order. */
  ghost function Ids<T>(rows: seq<T>, id: T -> nat): (r: seq<nat>)
    ensures |r| == |rows|
  {
    seq(|rows|, i requires 0 <= i < |rows| => id(rows[i]))
  }

  /** Appending a row appends its id. */
  lemma IdsAppend<T>(rows: seq<T>, x: T, id: T -> nat)
    ensures Ids(rows + [x], id) == Ids(rows, id) + [id(x)]
  {
    var a, b := Ids(rows + [x], id), Ids(rows, id) + [id(x)];
    forall i | 0 <= i < |a| ensures a[i] == b[i] {
      if i < |rows| {
        assert (rows + [x])[i] == rows[i];
      }
    }
  }

  function LotId(l: Lot): nat { l.id }
  function DonationId(d: Donation): nat { d.id }
  function OutflowId(o: Outflow): nat { o.id }

  ghost predicate LotIdsOrdered(lots: seq<Lot>, next: nat) {
    IdsOrdered(Ids(lots, LotId), next)
  }

  ghost predicate DonationIdsOrdered(ds: seq<Donation>, next: nat) {
    IdsOrdered(Ids(ds, DonationId), next)
  }

  ghost predicate OutflowIdsOrdered(os: seq<Outflow>, next: nat) {
    IdsOrdered(Ids(os, OutflowId), next)
  }

  lemma {:induction false} TotalQtyConcat(a: seq<Lot>, b: seq<Lot>)
    ensures TotalQty(a + b) == TotalQty(a) + TotalQty(b)
    decreases |b|
  {
    if b != [] {
      assert (a + b)[..|a + b| - 1] == a + b[..|b| - 1];
      TotalQtyConcat(a, b[..|b| - 1]);
    } else {
      assert a + b == a;
    }
  }

  lemma {:induction false} TotalItemsConcat(a: seq<OutflowItem>, b: seq<OutflowItem>)
    ensures TotalItems(a + b) == TotalItems(a) + TotalItems(b)
    decreases |b|
  {
    if b != [] {
      assert (a + b)[..|a + b| - 1] == a + b[..|b| - 1];
      TotalItemsConcat(a, b[..|b| - 1]);
    } else {
      assert a + b == a;
    }
  }

  /** The `k`-th lot a donation inserts is its `k`-th item, under id `firstId + k`. */
  lemma {:induction false} NewLotsAt(firstId: nat, donationId: nat, items: seq<DonationItem>, k: nat)
    requires k < |items|
    ensures NewLots(firstId, donationId, items)[k] == LotOf(firstId + k, donationId, items[k])
    decreases k
  {
    if k > 0 {
      NewLotsAt(firstId + 1, donationId, items[1..], k - 1);
    }
  }

  /** The lots a donation inserts hold exactly what its items declare. */
  lemma {:induction false} NewLotsTotal(firstId: nat, donationId: nat, items: seq<DonationItem>)
    ensures TotalQty(NewLots(firstId, donationId, items)) == ItemsTotal(items)
    decreases |items|
  {
    if items != [] {
      var lot := LotOf(firstId, donationId, items[0]);
      NewLotsTotal(firstId + 1, donationId, items[1..]);
      TotalQtyConcat([lot], NewLots(firstId + 1, donationId, items[1..]));
      assert [lot][..0] == [];
    }
  }

  /** Inserting the lot of item `k` leaves the lots of the items after it to insert. */
  lemma NewLotsStep(next: nat, donationId: nat, items: seq<DonationItem>, k: nat)
    requires k < |items|
    ensures NewLots(next, donationId, items[k..]) == [LotOf(next, donationId, items[k])] + NewLots(next + 1, donationId, items[k + 1..])
  {
    assert items[k..][1..] == items[k + 1..];
  }

  /** One turn of the insert loop of server.js:186-191, as a step over the lots still to insert. */
  lemma InsertStep(lots0: seq<Lot>, firstId: nat, donationId: nat, items: seq<DonationItem>, lots: seq<Lot>, next: nat, k: nat)
    requires k < |items|
    requires lots0 + NewLots(firstId, donationId, items) == lots + NewLots(next, donationId, items[k..])
    ensures lots0 + NewLots(firstId, donationId, items)
         == (lots + [LotOf(next, donationId, items[k])]) + NewLots(next + 1, donationId, items[k + 1..])
  {
    NewLotsStep(next, donationId, items, k);
    assert lots + NewLots(next, donationId, items[k..])
        == (lots + [LotOf(next, donationId, items[k])]) + NewLots(next + 1, donationId, items[k + 1..]);
  }

  /** A lot with the counter's id keeps the lot ids ordered, and adds its quantity to the stock. */
  lemma AppendLot(lots: seq<Lot>, next: nat, lot: Lot)
    requires LotIdsOrdered(lots, next) && lot.id == next
    ensures LotIdsOrdered(lots + [lot], next + 1)
    ensures TotalQty(lots + [lot]) == TotalQty(lots) + lot.quantidade
  {
    IdsAppend(lots, lot, LotId);
    assert (lots + [lot])[..|lots|] == lots;
  }

  // ---------------------------------------------------------------------------
  // POST /api/saidas

  /** A demand line after `(descricao || '').trim()`, `unidade || null` and `Number(quantidade || 0)`. */
  datatype Demand = Demand(descricao: string, unidade: Option<string>, need: int)

  function Normalize(line: RequestLine): (d: Demand)
    ensures d.unidade.Some? ==> d.unidade.value != ""
  {
    Demand(Trim(line.descricao.GetOr("")), TextOrNull(line.unidade), line.quantidade.GetOr(0))
  }

  /** The `continue` of server.js:438: a blank description or a need that is not positive. */
  predicate Skipped(d: Demand) {
    d.descricao == [] || d.need <= 0
  }

  /** What running the lines of one request does: the new lots and the records, or the first line left short. */
  datatype Outcome = Done(lots: seq<Lot>, records: seq<OutflowItem>) | Short(descricao: string, missing: int)

  function Prepend(records: seq<OutflowItem>, o: Outcome): Outcome {
    match o
    case Done(lots, rs) => Done(lots, records + rs)
    case Short(_, _) => o
  }

  /** The lines of server.js:434-472 in request order, stopping at the first one that cannot be covered. */
  function RunLines(lots: seq<Lot>, saidaId: nat, lines: seq<RequestLine>): Outcome
    decreases |lines|, 1
  {
    if lines == [] then Done(lots, [])
    else RunLine(lots, saidaId, Normalize(lines[0]), lines[1..])
  }

  /** One demand line, then the lines after it. */
  function RunLine(lots: seq<Lot>, saidaId: nat, d: Demand, rest: seq<RequestLine>): Outcome
    decreases |rest| + 1, 0
  {
    if Skipped(d) then RunLines(lots, saidaId, rest)
    else
      var r := AllocateLine(lots, saidaId, d.descricao, d.unidade, d.need);
      if r.shortfall > 0 then Short(d.descricao, r.shortfall)
      else Prepend(r.records, RunLines(r.lots, saidaId, rest))
  }

  lemma PrependTwice(a: seq<OutflowItem>, b: seq<OutflowItem>, o: Outcome)
    ensures Prepend(a, Prepend(b, o)) == Prepend(a + b, o)
  {
    if o.Done? {
      assert a + (b + o.records) == (a + b) + o.records;
    }
  }

  /** One turn of the draw loop lowers the need by what it draws. */
  lemma NeedStep(drawn: seq<int>, need: int, missing: int, use: int)
    requires missing == need - Sum(drawn)
    ensures missing - use == need - Sum(drawn + [use])
  {
    SumSnoc(drawn + [use]);
    assert (drawn + [use])[..|drawn|] == drawn;
  }

  /** Recording the next draw extends the records by one. */
  lemma RecordsStep(saidaId: nat, descricao: string, unidade: Option<string>, rows: seq<Candidate>, drawn: seq<int>, use: int)
    requires |drawn| < |rows|
    ensures DrawRecords(saidaId, descricao, unidade, rows, drawn + [use])
         == DrawRecords(saidaId, descricao, unidade, rows, drawn) + [OutflowItem(saidaId, descricao, use, unidade, rows[|drawn|].validade)]
  {
  }

  /** A donation with the counter's id keeps the donation ids ordered. */
  lemma AppendDonation(ds: seq<Donation>, next: nat, d: Donation)
    requires DonationIdsOrdered(ds, next) && d.id == next
    ensures DonationIdsOrdered(ds + [d], next + 1)
  {
    IdsAppend(ds, d, DonationId);
  }

  /** A distribution with the counter's id keeps the distribution ids ordered. */
  /** Raising a table's counter keeps its ids below it. */
  lemma OutflowIdsRaise(os: seq<Outflow>, next: nat, next': nat)
    requires OutflowIdsOrdered(os, next) && next <= next'
    ensures OutflowIdsOrdered(os, next')
  {
  }

  lemma AppendOutflow(os: seq<Outflow>, next: nat, o: Outflow)
    requires OutflowIdsOrdered(os, next) && o.id == next
    ensures OutflowIdsOrdered(os + [o], next + 1)
  {
    IdsAppend(os, o, OutflowId);
  }

  /** Allocating a line loses no stock and leaves the lot ids as they were. */
  lemma AllocateKeeps(lots0: seq<Lot>, items0: seq<OutflowItem>, saidaId: nat, descricao: string, unidade: Option<string>, need: int)
    ensures var r := AllocateLine(lots0, saidaId, descricao, unidade, need);
      && TotalQty(r.lots) + TotalItems(items0 + r.records) == TotalQty(lots0) + TotalItems(items0)
      && Ids(r.lots, LotId) == Ids(lots0, LotId)
  {
    var r := AllocateLine(lots0, saidaId, descricao, unidade, need);
    LineConserves(lots0, saidaId, descricao, unidade, need);
    LineFrame(lots0, saidaId, descricao, unidade, need);
    TotalItemsConcat(items0, r.records);
    assert Ids(r.lots, LotId) == Ids(lots0, LotId);
  }

  /** The draw loop of server.js:449-466 from row `i` on, given the lots, the records and the need as they stand. */
  function DrawLoop(lots: seq<Lot>, records: seq<OutflowItem>, saidaId: nat, descricao: string, unidade: Option<string>,
                    rows: seq<Candidate>, i: nat, missing: int): (r: LineResult)
    requires forall k :: 0 <= k < |rows| ==> rows[k].pos < |lots|
    ensures |r.lots| == |lots|
    decreases |rows| - i
  {
    if i >= |rows| || missing <= 0 then LineResult(lots, records, missing)
    else
      var use := Min(rows[i].quantidade, missing);
      var p := rows[i].pos;
      DrawLoop(lots[p := lots[p].(quantidade := rows[i].quantidade - use)],
               records + [OutflowItem(saidaId, descricao, use, unidade, rows[i].validade)],
               saidaId, descricao, unidade, rows, i + 1, missing - use)
  }

  /**
   * The lots the draw loop leaves: once the first `|drawn|` draws of the
   * greedy draw `t` are settled, it settles the others.
   */
  lemma {:induction false} DrawLoopLots(lots0: seq<Lot>, records: seq<OutflowItem>, saidaId: nat, descricao: string, unidade: Option<string>,
                                        rows: seq<Candidate>, t: seq<int>, drawn: seq<int>, missing: int)
    requires forall k :: 0 <= k < |rows| ==> rows[k].pos < |lots0| && rows[k].quantidade > 0
    requires |drawn| <= |rows|
    requires t == drawn + Draws(rows[|drawn|..], missing)
    ensures DrawLoop(Settle(lots0, rows, drawn), records, saidaId, descricao, unidade, rows, |drawn|, missing).lots == Settle(lots0, rows, t)
    decreases |rows| - |drawn|
  {
    var i := |drawn|;
    if i >= |rows| || missing <= 0 {
      assert Draws(rows[i..], missing) == [];
      assert t == drawn;
    } else {
      var use := Min(rows[i].quantidade, missing);
      var next := drawn + [use];
      var lots := Settle(lots0, rows, drawn);
      var p := rows[i].pos;
      var record := OutflowItem(saidaId, descricao, use, unidade, rows[i].validade);
      DrawLoopUnfold(lots, records, saidaId, descricao, unidade, rows, i, missing);
      assert lots[p := lots[p].(quantidade := rows[i].quantidade - use)] == Settle(lots0, rows, next) by {
        SettleStep(lots0, rows, next);
        assert next[..i] == drawn;
      }
      DrawsNext(rows, t, drawn, missing);
      DrawLoopLots(lots0, records + [record], saidaId, descricao, unidade, rows, t, next, missing - use);
    }
  }

  /** The records the draw loop writes: once those of the first `|drawn|` draws are written, it writes the others. */
  lemma {:induction false} DrawLoopRecords(lots: seq<Lot>, records0: seq<OutflowItem>, saidaId: nat, descricao: string, unidade: Option<string>,
                                           rows: seq<Candidate>, t: seq<int>, drawn: seq<int>, missing: int)
    requires forall k :: 0 <= k < |rows| ==> rows[k].pos < |lots| && rows[k].quantidade > 0
    requires |drawn| <= |rows|
    requires t == drawn + Draws(rows[|drawn|..], missing)
    ensures DrawLoop(lots, records0 + DrawRecords(saidaId, descricao, unidade, rows, drawn), saidaId, descricao, unidade, rows, |drawn|, missing).records
         == records0 + DrawRecords(saidaId, descricao, unidade, rows, t)
    decreases |rows| - |drawn|
  {
    var i := |drawn|;
    if i >= |rows| || missing <= 0 {
      assert Draws(rows[i..], missing) == [];
      assert t == drawn;
    } else {
      var use := Min(rows[i].quantidade, missing);
      var p := rows[i].pos;
      DrawsNext(rows, t, drawn, missing);
      DrawLoopRecords(lots[p := lots[p].(quantidade := rows[i].quantidade - use)], records0, saidaId, descricao, unidade, rows, t, drawn + [use], missing - use);
      RecordsTurn(lots, records0, saidaId, descricao, unidade, rows, drawn, missing);
    }
  }

  /** One turn of the draw loop writes the record of the next draw. */
  lemma RecordsTurn(lots: seq<Lot>, records0: seq<OutflowItem>, saidaId: nat, descricao: string, unidade: Option<string>,
                    rows: seq<Candidate>, drawn: seq<int>, missing: int)
    requires forall k :: 0 <= k < |rows| ==> rows[k].pos < |lots|
    requires |drawn| < |rows| && missing > 0
    ensures var i := |drawn|;
      var use := Min(rows[i].quantidade, missing);
      DrawLoop(lots, records0 + DrawRecords(saidaId, descricao, unidade, rows, drawn), saidaId, descricao, unidade, rows, i, missing)
      == DrawLoop(lots[rows[i].pos := lots[rows[i].pos].(quantidade := rows[i].quantidade - use)],
                  records0 + DrawRecords(saidaId, descricao, unidade, rows, drawn + [use]),
                  saidaId, descricao, unidade, rows, i + 1, missing - use)
  {
    var i := |drawn|;
    var use := Min(rows[i].quantidade, missing);
    var records := records0 + DrawRecords(saidaId, descricao, unidade, rows, drawn);
    var record := OutflowItem(saidaId, descricao, use, unidade, rows[i].validade);
    DrawLoopUnfold(lots, records, saidaId, descricao, unidade, rows, i, missing);
    RecordsStep(saidaId, descricao, unidade, rows, drawn, use);
    assert records + [record] == records0 + DrawRecords(saidaId, descricao, unidade, rows, drawn + [use]);
  }

  /** What the draw loop leaves unmet: the need less everything the greedy draw takes. */
  lemma {:induction false} DrawLoopMissing(lots: seq<Lot>, records: seq<OutflowItem>, saidaId: nat, descricao: string, unidade: Option<string>,
                                           rows: seq<Candidate>, need: int, t: seq<int>, drawn: seq<int>, missing: int)
    requires forall k :: 0 <= k < |rows| ==> rows[k].pos < |lots| && rows[k].quantidade > 0
    requires |drawn| <= |rows|
    requires t == drawn + Draws(rows[|drawn|..], missing)
    requires missing == need - Sum(drawn)
    ensures DrawLoop(lots, records, saidaId, descricao, unidade, rows, |drawn|, missing).shortfall == need - Sum(t)
    decreases |rows| - |drawn|
  {
    var i := |drawn|;
    if i >= |rows| || missing <= 0 {
      assert Draws(rows[i..], missing) == [];
      assert t == drawn;
    } else {
      var use := Min(rows[i].quantidade, missing);
      var p := rows[i].pos;
      var record := OutflowItem(saidaId, descricao, use, unidade, rows[i].validade);
      DrawLoopUnfold(lots, records, saidaId, descricao, unidade, rows, i, missing);
      DrawsNext(rows, t, drawn, missing);
      NeedStep(drawn, need, missing, use);
      DrawLoopMissing(lots[p := lots[p].(quantidade := rows[i].quantidade - use)], records + [record],
                      saidaId, descricao, unidade, rows, need, t, drawn + [use], missing - use);
    }
  }

  /** One more step of the greedy draw. */
  lemma DrawsNext(rows: seq<Candidate>, t: seq<int>, drawn: seq<int>, missing: int)
    requires forall k :: 0 <= k < |rows| ==> rows[k].quantidade > 0
    requires |drawn| < |rows| && missing > 0
    requires t == drawn + Draws(rows[|drawn|..], missing)
    ensures var use := Min(rows[|drawn|].quantidade, missing);
      t == (drawn + [use]) + Draws(rows[|drawn| + 1..], missing - use)
  {
    var i := |drawn|;
    assert rows[i..][1..] == rows[i + 1..];
  }

  /** One turn of the draw loop. */
  lemma DrawLoopUnfold(lots: seq<Lot>, records: seq<OutflowItem>, saidaId: nat, descricao: string, unidade: Option<string>,
                       rows: seq<Candidate>, i: nat, missing: int)
    requires forall k :: 0 <= k < |rows| ==> rows[k].pos < |lots|
    requires i < |rows| && missing > 0
    ensures var use := Min(rows[i].quantidade, missing);
      DrawLoop(lots, records, saidaId, descricao, unidade, rows, i, missing)
      == DrawLoop(lots[rows[i].pos := lots[rows[i].pos].(quantidade := rows[i].quantidade - use)],
                  records + [OutflowItem(saidaId, descricao, use, unidade, rows[i].validade)],
                  saidaId, descricao, unidade, rows, i + 1, missing - use)
  {
  }

  /** One more draw settles one more lot. */
  lemma SettleStep(lots0: seq<Lot>, rows: seq<Candidate>, t: seq<int>)
    requires forall k :: 0 <= k < |rows| ==> rows[k].pos < |lots0|
    requires 0 < |t| <= |rows|
    ensures var n := |t| - 1;
      Settle(lots0, rows, t)
      == Settle(lots0, rows, t[..n])[rows[n].pos := Settle(lots0, rows, t[..n])[rows[n].pos].(quantidade := rows[n].quantidade - t[n])]
  {
  }

  /** `AllocateLine` spelled out over the rows of its lot query. */
  lemma AllocateLineRows(lots: seq<Lot>, saidaId: nat, descricao: string, unidade: Option<string>, need: int, rows: seq<Candidate>)
    requires rows == LotQuery(lots, descricao, unidade)
    ensures AllocateLine(lots, saidaId, descricao, unidade, need)
         == LineResult(Settle(lots, rows, Draws(rows, need)), DrawRecords(saidaId, descricao, unidade, rows, Draws(rows, need)), need - Sum(Draws(rows, need)))
  {
  }

  /** The draw loop from its first row is the allocation of the line: the lots it leaves, the records it adds and the need it leaves. */
  lemma DrawLoopIsLine(lots: seq<Lot>, records: seq<OutflowItem>, saidaId: nat, descricao: string, unidade: Option<string>,
                       need: int, rows: seq<Candidate>)
    requires rows == LotQuery(lots, descricao, unidade)
    ensures var r := AllocateLine(lots, saidaId, descricao, unidade, need);
      DrawLoop(lots, records, saidaId, descricao, unidade, rows, 0, need) == LineResult(r.lots, records + r.records, r.shortfall)
  {
    AllocateLineRows(lots, saidaId, descricao, unidade, need, rows);
    QueryRowsDrawable(lots, descricao, unidade);
    DrawLoopFrom(lots, records, saidaId, descricao, unidade, need, rows, Draws(rows, need));
  }

  /** The draw loop from the first row settles, records and leaves what the greedy draw `t` says. */
  lemma DrawLoopFrom(lots: seq<Lot>, records: seq<OutflowItem>, saidaId: nat, descricao: string, unidade: Option<string>,
                     need: int, rows: seq<Candidate>, t: seq<int>)
    requires forall k :: 0 <= k < |rows| ==> rows[k].pos < |lots| && rows[k].quantidade > 0
    requires t == Draws(rows, need)
    ensures DrawLoop(lots, records, saidaId, descricao, unidade, rows, 0, need)
         == LineResult(Settle(lots, rows, t), records + DrawRecords(saidaId, descricao, unidade, rows, t), need - Sum(t))
  {
    assert rows[0..] == rows;
    assert t == [] + Draws(rows[0..], need);
    assert Settle(lots, rows, []) == lots;
    assert records + DrawRecords(saidaId, descricao, unidade, rows, []) == records;
    DrawLoopLots(lots, records, saidaId, descricao, unidade, rows, t, [], need);
    DrawLoopRecords(lots, records, saidaId, descricao, unidade, rows, t, [], need);
    DrawLoopMissing(lots, records, saidaId, descricao, unidade, rows, need, t, [], need);
  }

  /** Every row of the lot query points into the lots and has stock. */
  lemma QueryRowsDrawable(lots: seq<Lot>, descricao: string, unidade: Option<string>)
    ensures var rows := LotQuery(lots, descricao, unidade);
      forall k :: 0 <= k < |rows| ==> rows[k].pos < |lots| && rows[k].quantidade > 0
  {
    LotQueryRows(lots, descricao, unidade);
  }

  /** One turn of the line loop of server.js:434-472 follows `RunLines`. */
  lemma RunLinesStep(lots: seq<Lot>, saidaId: nat, lines: seq<RequestLine>, k: nat)
    requires k < |lines|
    ensures var d := Normalize(lines[k]);
      RunLines(lots, saidaId, lines[k..])
      == if Skipped(d) then RunLines(lots, saidaId, lines[k + 1..])
         else
           var r := AllocateLine(lots, saidaId, d.descricao, d.unidade, d.need);
           if r.shortfall > 0 then Short(d.descricao, r.shortfall)
           else Prepend(r.records, RunLines(r.lots, saidaId, lines[k + 1..]))
  {
    assert lines[k..][1..] == lines[k + 1..];
  }

  /**
   * Where the line loop stands before line `k`: the lines before it went
   * through with records `acc` and left `lots`, and running the rest from
   * there completes the run of all lines.
   */
  ghost predicate LinesFrom(lots0: seq<Lot>, saidaId: nat, lines: seq<RequestLine>, k: nat, acc: seq<OutflowItem>, lots: seq<Lot>) {
    k <= |lines| && RunLines(lots0, saidaId, lines) == Prepend(acc, RunLines(lots, saidaId, lines[k..]))
  }

  /** Before the first line, nothing has been run. */
  lemma LinesStart(lots0: seq<Lot>, saidaId: nat, lines: seq<RequestLine>)
    ensures LinesFrom(lots0, saidaId, lines, 0, [], lots0)
  {
    assert lines[0..] == lines;
    PrependNothing(RunLines(lots0, saidaId, lines));
  }

  lemma PrependNothing(o: Outcome)
    ensures Prepend([], o) == o
  {
    if o.Done? {
      assert [] + o.records == o.records;
    }
  }

  /** After the last line, the run is done with the lots and records reached. */
  lemma LinesEnd(lots0: seq<Lot>, saidaId: nat, lines: seq<RequestLine>, acc: seq<OutflowItem>, lots: seq<Lot>)
    requires LinesFrom(lots0, saidaId, lines, |lines|, acc, lots)
    ensures RunLines(lots0, saidaId, lines) == Done(lots, acc)
  {
    RunLinesNone(lots, saidaId, lines[|lines|..]);
    PrependDone(acc, lots);
  }

  lemma RunLinesNone(lots: seq<Lot>, saidaId: nat, rest: seq<RequestLine>)
    requires |rest| == 0
    ensures RunLines(lots, saidaId, rest) == Done(lots, [])
  {
  }

  lemma PrependDone(acc: seq<OutflowItem>, lots: seq<Lot>)
    ensures Prepend(acc, Done(lots, [])) == Done(lots, acc)
  {
    assert acc + [] == acc;
  }

  /** A turn of the line loop that skips its line. */
  lemma LineSkipped(lots0: seq<Lot>, acc: seq<OutflowItem>, lots: seq<Lot>, saidaId: nat, lines: seq<RequestLine>, k: nat)
    requires k < |lines| && Skipped(Normalize(lines[k]))
    requires LinesFrom(lots0, saidaId, lines, k, acc, lots)
    ensures LinesFrom(lots0, saidaId, lines, k + 1, acc, lots)
  {
    RunLinesStep(lots, saidaId, lines, k);
  }

  /** A turn of the line loop whose line is left short ends the run with that line. */
  lemma LineShort(lots0: seq<Lot>, acc: seq<OutflowItem>, lots: seq<Lot>, saidaId: nat, lines: seq<RequestLine>, k: nat, r: LineResult)
    requires k < |lines| && !Skipped(Normalize(lines[k]))
    requires r == AllocateLine(lots, saidaId, Normalize(lines[k]).descricao, Normalize(lines[k]).unidade, Normalize(lines[k]).need)
    requires r.shortfall > 0
    requires LinesFrom(lots0, saidaId, lines, k, acc, lots)
    ensures RunLines(lots0, saidaId, lines) == Short(Normalize(lines[k]).descricao, r.shortfall)
  {
    RunLinesStep(lots, saidaId, lines, k);
  }

  /** A turn of the line loop whose line is covered adds its records and goes on from the lots it leaves. */
  lemma LineCovered(lots0: seq<Lot>, acc: seq<OutflowItem>, lots: seq<Lot>, saidaId: nat, lines: seq<RequestLine>, k: nat, r: LineResult)
    requires k < |lines| && !Skipped(Normalize(lines[k]))
    requires r == AllocateLine(lots, saidaId, Normalize(lines[k]).descricao, Normalize(lines[k]).unidade, Normalize(lines[k]).need)
    requires r.shortfall <= 0
    requires LinesFrom(lots0, saidaId, lines, k, acc, lots)
    ensures LinesFrom(lots0, saidaId, lines, k + 1, acc + r.records, r.lots)
  {
    RunLinesStep(lots, saidaId, lines, k);
    PrependTwice(acc, r.records, RunLines(r.lots, saidaId, lines[k + 1..]));
  }

  /** Appending a line's records after those already written: the stored items keep the shape `items0 + acc`. */
  lemma ItemsAssoc(a: seq<OutflowItem>, b: seq<OutflowItem>, c: seq<OutflowItem>)
    ensures (a + b) + c == a + (b + c)
  {
  }

  class Store {
    var lots: seq<Lot>
    var donations: seq<Donation>
    var outflows: seq<Outflow>
    var outflowItems: seq<OutflowItem>
    var nextLotId: nat
    var nextDonationId: nat
    var nextOutflowId: nat
    /** Everything ever donated, in hundredths. */
    ghost var received: int

    /** Ids ordered and below their counters; stock plus distributed equals received. */
    ghost predicate Valid()
      reads this
    {
      && LotIdsOrdered(lots, nextLotId)
      && DonationIdsOrdered(donations, nextDonationId)
      && OutflowIdsOrdered(outflows, nextOutflowId)
      && TotalQty(lots) + TotalItems(outflowItems) == received
    }

    constructor ()
      ensures Valid()
      ensures lots == [] && donations == [] && outflows == [] && outflowItems == []
      ensures nextLotId == 1 && nextDonationId == 1 && nextOutflowId == 1
    {
      lots, donations, outflows, outflowItems := [], [], [], [];
      nextLotId, nextDonationId, nextOutflowId := 1, 1, 1;
      received := 0;
    }

    /**
     * Records one donation (server.js:170-204). A missing or empty item list is
     * refused before anything is written. Otherwise the header and one lot per
     * item are inserted in one transaction; `failAt` is the statement the
     * database refuses, if any (0 the header, k + 1 the k-th item), and a
     * refusal rolls every row back.
     */
    method ReceiveDonation(donor: Option<int>, date: Option<int>, notes: Option<string>,
                           items: Option<seq<DonationItem>>, failAt: Option<nat>)
      returns (r: Result<nat, DonationError>)
      requires Valid()
      modifies this
      ensures Valid()
      ensures outflows == old(outflows) && outflowItems == old(outflowItems) && nextOutflowId == old(nextOutflowId)
      ensures nextLotId >= old(nextLotId) && nextDonationId >= old(nextDonationId)
      ensures (items.None? || items.value == []) ==> r == Failure(NoItems) && unchanged(this)
      ensures items.Some? && items.value != [] && failAt.Some? && failAt.value <= |items.value| ==>
        r == Failure(Refused) && lots == old(lots) && donations == old(donations)
      ensures items.Some? && items.value != [] && (failAt.None? || failAt.value > |items.value|) ==>
        && r == Success(old(nextDonationId))
        && donations == old(donations) + [Donation(old(nextDonationId), IdOrNull(donor), date, TextOrNull(notes))]
        && lots == old(lots) + NewLots(old(nextLotId), old(nextDonationId), items.value)
        && nextLotId == old(nextLotId) + |items.value| && nextDonationId == old(nextDonationId) + 1
    {
      if items.None? || items.value == [] {
        return Failure(NoItems);
      }
      var list := items.value;
      if failAt == Some(0) {
        return Failure(Refused);
      }
      var lots0, donations0 := lots, donations;
      ghost var received0 := received;
      var id := nextDonationId;
      AppendDonation(donations, id, Donation(id, IdOrNull(donor), date, TextOrNull(notes)));
      nextDonationId := nextDonationId + 1;
      donations := donations + [Donation(id, IdOrNull(donor), date, TextOrNull(notes))];
      // Items before `stop` are inserted; the insert of item `stop`, if any, is refused.
      var stop := if failAt.Some? && failAt.value <= |list| then failAt.value - 1 else |list|;
      InsertLots(id, list[..stop]);
      if stop < |list| {
        Rollback(lots0, donations0, outflows, outflowItems, received0);
        return Failure(Refused);
      }
      assert list[..stop] == list;
      return Success(id);
    }

    /** The lot INSERTs of one donation, one per item in order (server.js:186-191). */
    method InsertLots(donationId: nat, items: seq<DonationItem>)
      requires Valid()
      modifies this
      ensures Valid()
      ensures lots == old(lots) + NewLots(old(nextLotId), donationId, items) && nextLotId == old(nextLotId) + |items|
      ensures donations == old(donations) && nextDonationId == old(nextDonationId)
      ensures outflows == old(outflows) && outflowItems == old(outflowItems) && nextOutflowId == old(nextOutflowId)
    {
      var k := 0;
      assert items[0..] == items;
      while k < |items|
        invariant 0 <= k <= |items|
        invariant old(lots) + NewLots(old(nextLotId), donationId, items) == lots + NewLots(nextLotId, donationId, items[k..])
        invariant nextLotId == old(nextLotId) + k
        invariant donations == old(donations) && nextDonationId == old(nextDonationId)
        invariant outflows == old(outflows) && outflowItems == old(outflowItems) && nextOutflowId == old(nextOutflowId)
        invariant Valid()
      {
        var lot := LotOf(nextLotId, donationId, items[k]);
        InsertStep(old(lots), old(nextLotId), donationId, items, lots, nextLotId, k);
        InsertLot(lot);
        k := k + 1;
      }
      assert lots + [] == lots;
    }

    /** The INSERT of one lot, under the next lot id. */
    method InsertLot(lot: Lot)
      requires Valid() && lot.id == nextLotId
      modifies this
      ensures Valid()
      ensures lots == old(lots) + [lot] && nextLotId == old(nextLotId) + 1 && received == old(received) + lot.quantidade
      ensures donations == old(donations) && nextDonationId == old(nextDonationId)
      ensures outflows == old(outflows) && outflowItems == old(outflowItems) && nextOutflowId == old(nextOutflowId)
    {
      AppendLot(lots, nextLotId, lot);
      lots := lots + [lot];
      nextLotId := nextLotId + 1;
      received := received + lot.quantidade;
    }

    /** ROLLBACK: the rows as they were before the transaction, the counters as they are. */
    method Rollback(lots0: seq<Lot>, donations0: seq<Donation>, outflows0: seq<Outflow>, items0: seq<OutflowItem>, ghost received0: int)
      requires LotIdsOrdered(lots0, nextLotId) && DonationIdsOrdered(donations0, nextDonationId)
      requires OutflowIdsOrdered(outflows0, nextOutflowId)
      requires TotalQty(lots0) + TotalItems(items0) == received0
      modifies this
      ensures Valid()
      ensures lots == lots0 && donations == donations0 && outflows == outflows0 && outflowItems == items0 && received == received0
      ensures nextLotId == old(nextLotId) && nextDonationId == old(nextDonationId) && nextOutflowId == old(nextOutflowId)
    {
      lots, donations, outflows, outflowItems := lots0, donations0, outflows0, items0;
      received := received0;
    }

    /**
     * One demand line of a distribution (server.js:441-466): query the
     * candidate lots in expiry order, then draw from each in turn, recording
     * each draw and lowering the lot, until the need is covered. Returns what
     * is still missing.
     */
    method Allocate(saidaId: nat, descricao: string, unidade: Option<string>, need: int) returns (missing: int, ghost line: LineResult)
      modifies this
      ensures line == AllocateLine(old(lots), saidaId, descricao, unidade, need)
      ensures lots == line.lots && outflowItems == old(outflowItems) + line.records && missing == line.shortfall
      ensures TotalQty(lots) + TotalItems(outflowItems) == old(TotalQty(lots) + TotalItems(outflowItems))
      ensures Ids(lots, LotId) == Ids(old(lots), LotId)
      ensures donations == old(donations) && outflows == old(outflows) && received == old(received)
      ensures nextLotId == old(nextLotId) && nextDonationId == old(nextDonationId) && nextOutflowId == old(nextOutflowId)
    {
      ghost var lots0, items0 := lots, outflowItems;
      var rows := LotQuery(lots, descricao, unidade);
      DrawLoopIsLine(lots, outflowItems, saidaId, descricao, unidade, need, rows);
      missing := DrawFrom(saidaId, descricao, unidade, rows, need);
      line := AllocateLine(lots0, saidaId, descricao, unidade, need);
      AllocateKeeps(lots0, items0, saidaId, descricao, unidade, need);
    }

    /**
     * The draw loop of server.js:449-466 over the rows the lot query returned:
     * take `min(available, need)` from each row's lot in turn, record the draw,
     * write the lot's new quantity, and stop once nothing more is needed.
     */
    method DrawFrom(saidaId: nat, descricao: string, unidade: Option<string>, rows: seq<Candidate>, need: int)
      returns (missing: int)
      requires forall k :: 0 <= k < |rows| ==> rows[k].pos < |lots|
      modifies this
      ensures LineResult(lots, outflowItems, missing) == DrawLoop(old(lots), old(outflowItems), saidaId, descricao, unidade, rows, 0, need)
      ensures donations == old(donations) && outflows == old(outflows) && received == old(received)
      ensures nextLotId == old(nextLotId) && nextDonationId == old(nextDonationId) && nextOutflowId == old(nextOutflowId)
    {
      var i := 0;
      missing := need;
      while i < |rows| && missing > 0
        invariant 0 <= i <= |rows| && |lots| == |old(lots)|
        invariant DrawLoop(lots, outflowItems, saidaId, descricao, unidade, rows, i, missing)
               == DrawLoop(old(lots), old(outflowItems), saidaId, descricao, unidade, rows, 0, need)
        invariant donations == old(donations) && outflows == old(outflows) && received == old(received)
        invariant nextLotId == old(nextLotId) && nextDonationId == old(nextDonationId) && nextOutflowId == old(nextOutflowId)
        decreases |rows| - i
      {
        // The query only returns lots with a positive quantity.
        var available := rows[i].quantidade;
        var use := Min(available, missing);
        outflowItems := outflowItems + [OutflowItem(saidaId, descricao, use, unidade, rows[i].validade)];
        var p := rows[i].pos;
        lots := lots[p := lots[p].(quantidade := available - use)];
        missing := missing - use;
        i := i + 1;
      }
    }

    /** The tables and counters the line loop leaves alone. */
    ghost function Others(): OtherTables
      reads this
    {
      OtherTables(donations, outflows, received, nextLotId, nextDonationId, nextOutflowId)
    }

    /**
     * The state of the line loop before line `k`: the store is valid, the
     * lines before `k` went through with records `acc` as `LinesFrom` says,
     * and nothing else has changed.
     */
    ghost predicate Allocating(saidaId: nat, lines: seq<RequestLine>, k: nat, lots0: seq<Lot>, items0: seq<OutflowItem>,
                               acc: seq<OutflowItem>, others: OtherTables)
      reads this
    {
      && Valid()
      && LinesFrom(lots0, saidaId, lines, k, acc, lots)
      && outflowItems == items0 + acc
      && Others() == others
    }

    /**
     * The loop of server.js:434-472 over the demand lines of one distribution:
     * skip blank or non-positive lines, allocate the others in order, and stop
     * at the first that cannot be covered, returning its description and what
     * it lacks.
     */
    method AllocateLines(saidaId: nat, lines: seq<RequestLine>) returns (failed: Option<string>, missing: int)
      requires Valid()
      modifies this
      ensures Valid()
      ensures donations == old(donations) && outflows == old(outflows)
      ensures nextLotId == old(nextLotId) && nextDonationId == old(nextDonationId) && nextOutflowId == old(nextOutflowId)
      ensures match RunLines(old(lots), saidaId, lines)
        case Done(newLots, records) => failed.None? && lots == newLots && outflowItems == old(outflowItems) + records
        case Short(d, m) => failed == Some(d) && missing == m
    {
      ghost var lots0, items0 := lots, outflowItems;
      ghost var others := Others();
      ghost var acc: seq<OutflowItem> := [];
      assert outflowItems == items0 + acc;
      LinesStart(lots0, saidaId, lines);
      var k := 0;
      while k < |lines|
        invariant Allocating(saidaId, lines, k, lots0, items0, acc, others)
      {
        var short;
        short, missing, acc := AllocateLineAt(saidaId, lines, k, lots0, items0, acc, others);
        if short {
          return Some(Normalize(lines[k]).descricao), missing;
        }
        k := k + 1;
      }
      LinesEnd(lots0, saidaId, lines, acc, lots);
      return None, 0;
    }

    /**
     * Turn `k` of the line loop of server.js:434-472: skip the line if it is
     * blank or its quantity is not positive, otherwise allocate it and report
     * whether it was left short.
     */
    method AllocateLineAt(saidaId: nat, lines: seq<RequestLine>, k: nat, ghost lots0: seq<Lot>, ghost items0: seq<OutflowItem>,
                          ghost acc: seq<OutflowItem>, ghost others: OtherTables)
      returns (short: bool, missing: int, ghost acc': seq<OutflowItem>)
      requires k < |lines|
      requires Allocating(saidaId, lines, k, lots0, items0, acc, others)
      modifies this
      ensures Valid() && Others() == others
      ensures TotalQty(lots) + TotalItems(outflowItems) == old(TotalQty(lots) + TotalItems(outflowItems))
      ensures Ids(lots, LotId) == Ids(old(lots), LotId)
      ensures short ==> RunLines(lots0, saidaId, lines) == Short(Normalize(lines[k]).descricao, missing)
      ensures !short ==> Allocating(saidaId, lines, k + 1, lots0, items0, acc', others)
    {
      var d := Normalize(lines[k]);
      short, missing, acc' := false, 0, acc;
      if Skipped(d) {
        LineSkipped(lots0, acc, lots, saidaId, lines, k);
      } else {
        ghost var before := lots;
        ghost var r;
        missing, r := Allocate(saidaId, d.descricao, d.unidade, d.need);
        if missing > 0 {
          LineShort(lots0, acc, before, saidaId, lines, k, r);
          short := true;
        } else {
          LineCovered(lots0, acc, before, saidaId, lines, k, r);
          ItemsAssoc(items0, acc, r.records);
          acc' := acc + r.records;
        }
      }
    }

    /**
     * Registers a distribution (server.js:418-484). A missing or empty line list
     * is refused before anything is written. Otherwise the header is inserted,
     * the lines are allocated in order, skipping blank or non-positive ones,
     * and the first line that cannot be covered rolls everything back and is
     * named in the error with what it lacks.
     */
    method CreateOutflow(institution: Option<int>, date: Option<int>, notes: Option<string>, lines: Option<seq<RequestLine>>)
      returns (r: Result<nat, OutflowError>)
      requires Valid()
      modifies this
      ensures Valid()
      ensures donations == old(donations) && nextLotId == old(nextLotId) && nextDonationId == old(nextDonationId)
      ensures (lines.None? || lines.value == []) ==> r == Failure(NoLines) && unchanged(this)
      ensures lines.Some? && lines.value != [] ==>
        && nextOutflowId == old(nextOutflowId) + 1
        && match RunLines(old(lots), old(nextOutflowId), lines.value)
           case Done(newLots, records) =>
             && r == Success(old(nextOutflowId))
             && lots == newLots
             && outflows == old(outflows) + [Outflow(old(nextOutflowId), IdOrNull(institution), date, TextOrNull(notes))]
             && outflowItems == old(outflowItems) + records
           case Short(d, missing) =>
             && r == Failure(InsufficientStock(d, missing))
             && lots == old(lots) && outflows == old(outflows) && outflowItems == old(outflowItems)
    {
      if lines.None? || lines.value == [] {
        return Failure(NoLines);
      }
      r := RecordOutflow(Outflow(nextOutflowId, IdOrNull(institution), date, TextOrNull(notes)), lines.value);
    }

    /**
     * The transaction of server.js:425-476: the header is inserted with the
     * next id, the lines are allocated in order, and the first line that
     * cannot be covered rolls everything back, the counter excepted.
     */
    method RecordOutflow(header: Outflow, lines: seq<RequestLine>) returns (r: Result<nat, OutflowError>)
      requires Valid() && header.id == nextOutflowId
      modifies this
      ensures Valid()
      ensures donations == old(donations) && nextLotId == old(nextLotId) && nextDonationId == old(nextDonationId)
      ensures nextOutflowId == old(nextOutflowId) + 1
      ensures match RunLines(old(lots), header.id, lines)
        case Done(newLots, records) =>
          && r == Success(header.id)
          && lots == newLots && outflows == old(outflows) + [header] && outflowItems == old(outflowItems) + records
        case Short(d, missing) =>
          && r == Failure(InsufficientStock(d, missing))
          && lots == old(lots) && outflows == old(outflows) && outflowItems == old(outflowItems)
    {
      var lots0, outflows0, items0 := lots, outflows, outflowItems;
      ghost var received0 := received;
      var id := nextOutflowId;
      AppendOutflow(outflows, id, header);
      OutflowIdsRaise(outflows0, id, id + 1);
      nextOutflowId := nextOutflowId + 1;
      outflows := outflows + [header];
      ghost var run := RunLines(lots0, id, lines);
      var failed, missing := AllocateLines(id, lines);
      if failed.Some? {
        assert run.Short? && run.descricao == failed.value && run.missing == missing;
        Rollback(lots0, donations, outflows0, items0, received0);
        r := Failure(InsufficientStock(failed.value, missing));
      } else {
        assert run.Done? && lots == run.lots && outflowItems == items0 + run.records;
        r := Success(id);
      }
    }
  }
}
