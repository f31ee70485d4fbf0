/**
 * What a whole distribution request does to the stock (server.js:418-484),
 * stated over `RunLines`: stock moves into records without loss, lots change
 * only in quantity and never below zero, a request that goes through records
 * exactly what its lines asked for, a request whose lines are all skipped
 * writes nothing, and a request that fails names the first line it could
 * not cover and exactly what that line still lacks.
 */
module OutflowProperties {
  import opened Wrappers
  import opened Allocation
  import opened AllocationProperties
  import opened Store

  /** What the lines that are not skipped ask for, in hundredths. */
  function Requested(lines: seq<RequestLine>): int
    decreases |lines|
  {
    if lines == [] then 0
    else
      var d := Normalize(lines[0]);
      (if Skipped(d) then 0 else d.need) + Requested(lines[1..])
  }

  /** A lot is unchanged, or was drawn down to somewhere between zero and what it held. */
  predicate DrawnDown(before: Lot, after: Lot) {
    && after == before.(quantidade := after.quantidade)
    && (after.quantidade == before.quantidade || 0 <= after.quantidade < before.quantidade)
  }

  /** Covering a line leaves no shortfall: the stock of its candidates covers the need. */
  lemma CoveredLine(lots: seq<Lot>, saidaId: nat, d: Demand)
    requires !Skipped(d)
    requires AllocateLine(lots, saidaId, d.descricao, d.unidade, d.need).shortfall <= 0
    ensures var r := AllocateLine(lots, saidaId, d.descricao, d.unidade, d.need);
      && r.shortfall == 0 && TotalItems(r.records) == d.need
      && forall k :: 0 <= k < |r.records| ==> r.records[k].saidaId == saidaId && r.records[k].quantidade > 0
  {
    CoveredTotal(lots, saidaId, d);
    LineRecordsPositive(lots, saidaId, d.descricao, d.unidade, d.need);
  }

  lemma CoveredTotal(lots: seq<Lot>, saidaId: nat, d: Demand)
    requires !Skipped(d)
    requires AllocateLine(lots, saidaId, d.descricao, d.unidade, d.need).shortfall <= 0
    ensures var r := AllocateLine(lots, saidaId, d.descricao, d.unidade, d.need);
      r.shortfall == 0 && TotalItems(r.records) == d.need
  {
    var r := AllocateLine(lots, saidaId, d.descricao, d.unidade, d.need);
    LineShortfall(lots, saidaId, d.descricao, d.unidade, d.need);
    LineTotal(lots, saidaId, d.descricao, d.unidade, d.need);
    NoShortfall(r, d.need, Available(lots, d.descricao, d.unidade));
  }

  lemma NoShortfall(r: LineResult, need: int, available: int)
    requires r.shortfall == Max(0, need - available) && r.shortfall <= 0
    requires TotalItems(r.records) == need - r.shortfall
    ensures r.shortfall == 0 && TotalItems(r.records) == need
  {
  }

  /** A request that goes through moves stock from the lots into its records and loses none. */
  lemma {:induction false} RunLinesConserves(lots: seq<Lot>, saidaId: nat, lines: seq<RequestLine>)
    ensures var o := RunLines(lots, saidaId, lines);
      o.Done? ==> TotalQty(o.lots) + TotalItems(o.records) == TotalQty(lots)
    decreases |lines|
  {
    if lines != [] {
      var d := Normalize(lines[0]);
      if Skipped(d) {
        SkipFirst(lots, saidaId, lines);
        RunLinesConserves(lots, saidaId, lines[1..]);
      } else {
        var r := AllocateLine(lots, saidaId, d.descricao, d.unidade, d.need);
        if r.shortfall <= 0 {
          var rest := RunLines(r.lots, saidaId, lines[1..]);
          TakeFirst(lots, saidaId, lines, r);
          RunLinesConserves(r.lots, saidaId, lines[1..]);
          LineConserves(lots, saidaId, d.descricao, d.unidade, d.need);
          if rest.Done? {
            TotalItemsConcat(r.records, rest.records);
          }
        }
      }
    }
  }

  /**
   * A request that goes through changes the lots only in quantity, and each
   * lot it draws from ends between zero and what it held (server.js:451-463).
   */
  lemma {:induction false} RunLinesFrame(lots: seq<Lot>, saidaId: nat, lines: seq<RequestLine>)
    ensures var o := RunLines(lots, saidaId, lines);
      o.Done? ==> |o.lots| == |lots| && forall j :: 0 <= j < |lots| ==> DrawnDown(lots[j], o.lots[j])
    decreases |lines|
  {
    if lines != [] {
      var d := Normalize(lines[0]);
      if Skipped(d) {
        RunLinesFrame(lots, saidaId, lines[1..]);
      } else {
        var r := AllocateLine(lots, saidaId, d.descricao, d.unidade, d.need);
        if r.shortfall <= 0 {
          var o := RunLines(lots, saidaId, lines);
          var rest := RunLines(r.lots, saidaId, lines[1..]);
          RunLinesStep(lots, saidaId, lines, 0);
          assert lines[0..] == lines;
          assert o == Prepend(r.records, rest);
          RunLinesFrame(r.lots, saidaId, lines[1..]);
          LineFrame(lots, saidaId, d.descricao, d.unidade, d.need);
          if rest.Done? {
            assert o.lots == rest.lots;
            forall j | 0 <= j < |lots| ensures DrawnDown(lots[j], o.lots[j]) {
              assert DrawnDown(lots[j], r.lots[j]);
              assert DrawnDown(r.lots[j], rest.lots[j]);
            }
          }
        }
      }
    }
  }

  /**
   * A request that goes through records, under its own distribution id,
   * exactly the quantity its lines that are not skipped ask for.
   */
  lemma {:induction false} RunLinesDelivers(lots: seq<Lot>, saidaId: nat, lines: seq<RequestLine>)
    ensures var o := RunLines(lots, saidaId, lines);
      o.Done? ==>
        && TotalItems(o.records) == Requested(lines)
        && forall k :: 0 <= k < |o.records| ==> o.records[k].saidaId == saidaId && o.records[k].quantidade > 0
    decreases |lines|
  {
    if lines != [] {
      var d := Normalize(lines[0]);
      if Skipped(d) {
        SkipFirst(lots, saidaId, lines);
        RunLinesDelivers(lots, saidaId, lines[1..]);
      } else {
        var r := AllocateLine(lots, saidaId, d.descricao, d.unidade, d.need);
        if r.shortfall <= 0 {
          var rest := RunLines(r.lots, saidaId, lines[1..]);
          TakeFirst(lots, saidaId, lines, r);
          RunLinesDelivers(r.lots, saidaId, lines[1..]);
          CoveredLine(lots, saidaId, d);
          if rest.Done? {
            assert RunLines(lots, saidaId, lines) == Done(rest.lots, r.records + rest.records);
            assert Requested(lines) == d.need + Requested(lines[1..]);
            DeliversCons(r.records, rest.records, saidaId);
          }
        }
      }
    }
  }

  /** The records of a covered line followed by those of the lines after it. */
  lemma DeliversCons(a: seq<OutflowItem>, b: seq<OutflowItem>, saidaId: nat)
    requires forall k :: 0 <= k < |a| ==> a[k].saidaId == saidaId && a[k].quantidade > 0
    requires forall k :: 0 <= k < |b| ==> b[k].saidaId == saidaId && b[k].quantidade > 0
    ensures TotalItems(a + b) == TotalItems(a) + TotalItems(b)
    ensures forall k :: 0 <= k < |a + b| ==> (a + b)[k].saidaId == saidaId && (a + b)[k].quantidade > 0
  {
    TotalItemsConcat(a, b);
    RecordsOf(a, b, saidaId);
  }

  /** Records that all belong to one distribution and are positive still do once concatenated. */
  lemma RecordsOf(a: seq<OutflowItem>, b: seq<OutflowItem>, saidaId: nat)
    requires forall k :: 0 <= k < |a| ==> a[k].saidaId == saidaId && a[k].quantidade > 0
    requires forall k :: 0 <= k < |b| ==> b[k].saidaId == saidaId && b[k].quantidade > 0
    ensures forall k :: 0 <= k < |a + b| ==> (a + b)[k].saidaId == saidaId && (a + b)[k].quantidade > 0
  {
    forall k | 0 <= k < |a + b| ensures (a + b)[k].saidaId == saidaId && (a + b)[k].quantidade > 0 {
      if k >= |a| {
        assert (a + b)[k] == b[k - |a|];
      }
    }
  }

  /** A request whose every line is skipped goes through with the lots as they were and no records (server.js:434-438, 475-476). */
  lemma {:induction false} RunLinesAllSkipped(lots: seq<Lot>, saidaId: nat, lines: seq<RequestLine>)
    requires forall k :: 0 <= k < |lines| ==> Skipped(Normalize(lines[k]))
    ensures RunLines(lots, saidaId, lines) == Done(lots, [])
    decreases |lines|
  {
    if lines != [] {
      var tail := lines[1..];
      forall k | 0 <= k < |tail| ensures Skipped(Normalize(tail[k])) {
        assert tail[k] == lines[k + 1];
      }
      RunLinesAllSkipped(lots, saidaId, tail);
      SkipFirst(lots, saidaId, lines);
    }
  }

  /** A first line the server skips leaves the request to the lines after it. */
  lemma SkipFirst(lots: seq<Lot>, saidaId: nat, lines: seq<RequestLine>)
    requires lines != [] && Skipped(Normalize(lines[0]))
    ensures RunLines(lots, saidaId, lines) == RunLines(lots, saidaId, lines[1..])
  {
  }

  /** A first line that is covered puts its records ahead of those of the lines after it. */
  lemma TakeFirst(lots: seq<Lot>, saidaId: nat, lines: seq<RequestLine>, r: LineResult)
    requires lines != [] && !Skipped(Normalize(lines[0]))
    requires r == AllocateLine(lots, saidaId, Normalize(lines[0]).descricao, Normalize(lines[0]).unidade, Normalize(lines[0]).need)
    requires r.shortfall <= 0
    ensures RunLines(lots, saidaId, lines) == Prepend(r.records, RunLines(r.lots, saidaId, lines[1..]))
  {
  }

  /**
   * Line `k` is where the request stops: the lines before it all went
   * through, it is not skipped, it carries description `descricao`, and
   * `missing` is what is left of its need once the stock its candidates hold
   * after the earlier lines is drawn, a positive amount no larger than the need.
   */
  predicate FailsAt(lots: seq<Lot>, saidaId: nat, lines: seq<RequestLine>, k: int, descricao: string, missing: int) {
    && 0 <= k < |lines|
    && RunLines(lots, saidaId, lines[..k]).Done?
    && !Skipped(Normalize(lines[k]))
    && descricao == Normalize(lines[k]).descricao
    && missing == Normalize(lines[k]).need
                  - Available(RunLines(lots, saidaId, lines[..k]).lots, Normalize(lines[k]).descricao, Normalize(lines[k]).unidade)
    && 0 < missing <= Normalize(lines[k]).need
  }

  /**
   * A request that fails names the first line it cannot cover and the
   * `qtdNeeded` left on it: the lines before that line went through, and
   * `missing` is that line's need less the stock its candidates then hold
   * (server.js:434-471).
   */
  lemma {:induction false} RunLinesShort(lots: seq<Lot>, saidaId: nat, lines: seq<RequestLine>)
    ensures var o := RunLines(lots, saidaId, lines);
      o.Short? ==> exists k :: FailsAt(lots, saidaId, lines, k, o.descricao, o.missing)
    decreases |lines|
  {
    if lines != [] {
      var d := Normalize(lines[0]);
      var o := RunLines(lots, saidaId, lines);
      if Skipped(d) {
        RunLinesShort(lots, saidaId, lines[1..]);
        if o.Short? {
          SkipFirst(lots, saidaId, lines);
          var k :| FailsAt(lots, saidaId, lines[1..], k, o.descricao, o.missing);
          SkipPrefix(lots, saidaId, lines, k);
          assert FailsAt(lots, saidaId, lines, k + 1, o.descricao, o.missing);
        }
      } else {
        var r := AllocateLine(lots, saidaId, d.descricao, d.unidade, d.need);
        if r.shortfall > 0 {
          FailsFirst(lots, saidaId, lines, r);
        } else {
          RunLinesShort(r.lots, saidaId, lines[1..]);
          if o.Short? {
            TakeFirst(lots, saidaId, lines, r);
            var k :| FailsAt(r.lots, saidaId, lines[1..], k, o.descricao, o.missing);
            TakePrefix(lots, saidaId, lines, r, k);
            assert FailsAt(lots, saidaId, lines, k + 1, o.descricao, o.missing);
          }
        }
      }
    }
  }

  /** A first line left short is where the request stops. */
  lemma FailsFirst(lots: seq<Lot>, saidaId: nat, lines: seq<RequestLine>, r: LineResult)
    requires lines != [] && !Skipped(Normalize(lines[0]))
    requires r == AllocateLine(lots, saidaId, Normalize(lines[0]).descricao, Normalize(lines[0]).unidade, Normalize(lines[0]).need)
    requires r.shortfall > 0
    ensures RunLines(lots, saidaId, lines) == Short(Normalize(lines[0]).descricao, r.shortfall)
    ensures FailsAt(lots, saidaId, lines, 0, Normalize(lines[0]).descricao, r.shortfall)
  {
    var d := Normalize(lines[0]);
    ShortLine(lots, saidaId, d);
    LineShortfall(lots, saidaId, d.descricao, d.unidade, d.need);
    assert lines[..0] == [];
  }

  /** The first `k + 1` lines, less the first, are the first `k` lines after it. */
  lemma PrefixTail(lines: seq<RequestLine>, k: nat)
    requires k < |lines| - 1
    ensures lines[..k + 1] != [] && lines[..k + 1][0] == lines[0] && lines[..k + 1][1..] == lines[1..][..k]
    ensures lines[1..][k] == lines[k + 1]
  {
  }

  /** With a skipped first line, a prefix runs as the same prefix of the lines after it. */
  lemma SkipPrefix(lots: seq<Lot>, saidaId: nat, lines: seq<RequestLine>, k: nat)
    requires k < |lines| - 1 && Skipped(Normalize(lines[0]))
    ensures RunLines(lots, saidaId, lines[..k + 1]) == RunLines(lots, saidaId, lines[1..][..k])
    ensures lines[1..][k] == lines[k + 1]
  {
    PrefixTail(lines, k);
    SkipFirst(lots, saidaId, lines[..k + 1]);
  }

  /** With a covered first line, a prefix runs as its records ahead of the same prefix of the lines after it. */
  lemma TakePrefix(lots: seq<Lot>, saidaId: nat, lines: seq<RequestLine>, r: LineResult, k: nat)
    requires k < |lines| - 1 && !Skipped(Normalize(lines[0]))
    requires r == AllocateLine(lots, saidaId, Normalize(lines[0]).descricao, Normalize(lines[0]).unidade, Normalize(lines[0]).need)
    requires r.shortfall <= 0
    requires RunLines(r.lots, saidaId, lines[1..][..k]).Done?
    ensures RunLines(lots, saidaId, lines[..k + 1]).Done?
    ensures RunLines(lots, saidaId, lines[..k + 1]).lots == RunLines(r.lots, saidaId, lines[1..][..k]).lots
    ensures lines[1..][k] == lines[k + 1]
  {
    PrefixTail(lines, k);
    TakeFirst(lots, saidaId, lines[..k + 1], r);
  }

  /** A line left short lacks no more than it asked for. */
  lemma ShortLine(lots: seq<Lot>, saidaId: nat, d: Demand)
    requires !Skipped(d)
    ensures AllocateLine(lots, saidaId, d.descricao, d.unidade, d.need).shortfall <= d.need
  {
    var r := AllocateLine(lots, saidaId, d.descricao, d.unidade, d.need);
    LineShortfall(lots, saidaId, d.descricao, d.unidade, d.need);
    AvailableNonNegative(lots, d.descricao, d.unidade);
    ShortfallAtMost(r.shortfall, d.need, Available(lots, d.descricao, d.unidade));
  }

  lemma ShortfallAtMost(shortfall: int, need: int, available: int)
    requires need > 0 && available >= 0 && shortfall == Max(0, need - available)
    ensures shortfall <= need
  {
  }

  /** The stock a line can draw on is never negative: it sums positive quantities. */
  lemma {:induction false} AvailableNonNegative(lots: seq<Lot>, descricao: string, unidade: Option<string>)
    ensures Available(lots, descricao, unidade) >= 0
  {
    if lots != [] {
      AvailableNonNegative(lots[..|lots| - 1], descricao, unidade);
    }
  }
}
