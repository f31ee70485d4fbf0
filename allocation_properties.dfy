/**
 * Properties of the allocation of one demand line (server.js:441-471): the
 * draws never exceed a lot, they add up to the request or to all the stock
 * there is, earlier-expiring lots are emptied first, and every hundredth taken
 * from a lot appears in exactly one `itens_saida` record.
 */
module AllocationProperties {
  import opened Wrappers
  import opened Sorting
  import opened Allocation

  // ---------------------------------------------------------------------------
  // Sums

  lemma {:induction false} SumSnoc(s: seq<int>)
    requires s != []
    ensures Sum(s) == Sum(s[..|s| - 1]) + s[|s| - 1]
  {
    if |s| > 1 {
      assert s[1..][..|s[1..]| - 1] == s[..|s| - 1][1..];
      SumSnoc(s[1..]);
    }
  }

  lemma {:induction false} SumQtyPositive(rows: seq<Candidate>)
    requires forall k :: 0 <= k < |rows| ==> rows[k].quantidade > 0
    ensures SumQty(rows) >= 0
  {
    if rows != [] {
      SumQtyPositive(rows[1..]);
    }
  }

  lemma {:induction false} SumQtyConcat(a: seq<Candidate>, b: seq<Candidate>)
    ensures SumQty(a + b) == SumQty(a) + SumQty(b)
  {
    if a != [] {
      assert (a + b)[1..] == a[1..] + b;
      SumQtyConcat(a[1..], b);
    } else {
      assert a + b == b;
    }
  }

  /** Reordering the rows of the lot query does not change their total. */
  lemma {:induction false} SumQtyPermutation(a: seq<Candidate>, b: seq<Candidate>)
    requires multiset(a) == multiset(b)
    ensures SumQty(a) == SumQty(b)
    decreases |a|
  {
    if a != [] {
      var x := a[0];
      assert x in multiset(b);
      var j :| 0 <= j < |b| && b[j] == x;
      var rest := b[..j] + b[j + 1..];
      assert b == b[..j] + ([x] + b[j + 1..]);
      assert a == [x] + a[1..];
      assert multiset(b) == multiset(b[..j]) + multiset{x} + multiset(b[j + 1..]);
      assert multiset(a) == multiset{x} + multiset(a[1..]);
      assert multiset(rest) == multiset(b[..j]) + multiset(b[j + 1..]);
      assert multiset(a[1..]) == multiset(a) - multiset{x};
      assert multiset(rest) == multiset(b) - multiset{x};
      SumQtyPermutation(a[1..], rest);
      SumQtyConcat(b[..j], [x] + b[j + 1..]);
      SumQtyConcat(b[..j], b[j + 1..]);
      assert ([x] + b[j + 1..])[1..] == b[j + 1..];
      assert SumQty([x] + b[j + 1..]) == x.quantidade + SumQty(b[j + 1..]);
      assert SumQty(b) == SumQty(b[..j]) + x.quantidade + SumQty(b[j + 1..]);
      assert SumQty(a) == x.quantidade + SumQty(a[1..]);
    }
  }

  lemma {:induction false} CandidatesSum(lots: seq<Lot>, descricao: string, unidade: Option<string>)
    ensures SumQty(CandidatesOf(lots, descricao, unidade)) == Available(lots, descricao, unidade)
  {
    if lots != [] {
      var n := |lots| - 1;
      CandidatesSum(lots[..n], descricao, unidade);
      var p := CandidatesOf(lots[..n], descricao, unidade);
      SumQtyConcat(p, [RowOf(lots, n)]);
    }
  }

  /** The lot query returns exactly the stock that `Available` counts. */
  lemma LotQuerySum(lots: seq<Lot>, descricao: string, unidade: Option<string>)
    ensures SumQty(LotQuery(lots, descricao, unidade)) == Available(lots, descricao, unidade)
  {
    SumQtyPermutation(LotQuery(lots, descricao, unidade), CandidatesOf(lots, descricao, unidade));
    CandidatesSum(lots, descricao, unidade);
  }

  // ---------------------------------------------------------------------------
  // The greedy draw

  /** The draws add up to what was asked for, or to everything there is if that is less. */
  lemma {:induction false} DrawsTotal(rows: seq<Candidate>, need: int)
    requires forall k :: 0 <= k < |rows| ==> rows[k].quantidade > 0
    requires need > 0
    ensures Sum(Draws(rows, need)) == Min(need, SumQty(rows))
  {
    if rows != [] {
      SumQtyPositive(rows[1..]);
      var use := Min(rows[0].quantidade, need);
      if use < need {
        DrawsTotal(rows[1..], need - use);
      }
    }
  }

  /** Each draw is positive and takes no more than its row holds. */
  lemma {:induction false} DrawsBounds(rows: seq<Candidate>, need: int)
    requires forall k :: 0 <= k < |rows| ==> rows[k].quantidade > 0
    ensures var t := Draws(rows, need);
      forall k :: 0 <= k < |t| ==> 0 < t[k] <= rows[k].quantidade
  {
    if rows != [] && need > 0 {
      var use := Min(rows[0].quantidade, need);
      DrawsBounds(rows[1..], need - use);
    }
  }

  /** Every lot drawn from, except possibly the last one, is drawn down to nothing. */
  lemma {:induction false} DrawsDrainInOrder(rows: seq<Candidate>, need: int)
    requires forall k :: 0 <= k < |rows| ==> rows[k].quantidade > 0
    ensures var t := Draws(rows, need);
      forall k :: 0 <= k < |t| - 1 ==> t[k] == rows[k].quantidade
  {
    if rows != [] && need > 0 {
      var use := Min(rows[0].quantidade, need);
      DrawsDrainInOrder(rows[1..], need - use);
    }
  }

  /** The loop only stops before the last row once the need is met. */
  lemma {:induction false} DrawsStopWhenMet(rows: seq<Candidate>, need: int)
    requires forall k :: 0 <= k < |rows| ==> rows[k].quantidade > 0
    requires need > 0
    ensures var t := Draws(rows, need);
      |t| == |rows| || Sum(t) == need
  {
    if rows != [] {
      var use := Min(rows[0].quantidade, need);
      if use < need {
        DrawsStopWhenMet(rows[1..], need - use);
      }
    }
  }

  // ---------------------------------------------------------------------------
  // Settling the lots

  lemma {:induction false} TotalQtyUpdate(lots: seq<Lot>, p: nat, x: Lot)
    requires p < |lots|
    ensures TotalQty(lots[p := x]) == TotalQty(lots) - lots[p].quantidade + x.quantidade
  {
    var n := |lots| - 1;
    if p < n {
      assert lots[p := x][..n] == lots[..n][p := x];
      TotalQtyUpdate(lots[..n], p, x);
    } else {
      assert lots[p := x][..n] == lots[..n];
    }
  }

  /** The rows of a lot query name distinct lots and carry their quantities. */
  predicate RowsOf(lots: seq<Lot>, rows: seq<Candidate>) {
    && (forall k :: 0 <= k < |rows| ==> rows[k].pos < |lots| && rows[k] == RowOf(lots, rows[k].pos))
    && (forall k, l :: 0 <= k < l < |rows| ==> rows[k].pos != rows[l].pos)
  }

  /** Whether one of the first `n` rows names the lot at position `j`. */
  predicate Drawn(rows: seq<Candidate>, n: nat, j: nat)
    requires n <= |rows|
  {
    exists k :: 0 <= k < n && rows[k].pos == j
  }

  /** Settling leaves every lot that none of the drawn rows names as it was. */
  lemma {:induction false} SettleUntouched(lots: seq<Lot>, rows: seq<Candidate>, t: seq<int>)
    requires |t| <= |rows| && forall k :: 0 <= k < |t| ==> rows[k].pos < |lots|
    ensures var r := Settle(lots, rows, t);
      forall j :: 0 <= j < |lots| && !Drawn(rows, |t|, j) ==> r[j] == lots[j]
  {
    if t != [] {
      SettleUntouched(lots, rows, t[..|t| - 1]);
    }
  }

  /** Settling sets each drawn lot to its row's quantity less the draw, and changes nothing else about it. */
  lemma {:induction false} SettleDrawnLots(lots: seq<Lot>, rows: seq<Candidate>, t: seq<int>)
    requires |t| <= |rows| && forall k :: 0 <= k < |t| ==> rows[k].pos < |lots|
    requires forall k, l :: 0 <= k < l < |t| ==> rows[k].pos != rows[l].pos
    ensures var r := Settle(lots, rows, t);
      forall k :: 0 <= k < |t| ==> r[rows[k].pos] == lots[rows[k].pos].(quantidade := rows[k].quantidade - t[k])
  {
    if t != [] {
      var n := |t| - 1;
      var l := Settle(lots, rows, t[..n]);
      var j := rows[n].pos;
      var l2 := l[j := l[j].(quantidade := rows[n].quantidade - t[n])];
      assert Settle(lots, rows, t) == l2;
      SettleDrawnLots(lots, rows, t[..n]);
      SettleUntouched(lots, rows, t[..n]);
      assert !Drawn(rows, n, j);
      forall k | 0 <= k < |t|
        ensures l2[rows[k].pos] == lots[rows[k].pos].(quantidade := rows[k].quantidade - t[k])
      {
        if k < n {
          assert rows[k].pos != j;
          assert t[..n][k] == t[k];
        }
      }
    }
  }

  /** Settling touches only the lots of the rows drawn from, each ending at its row's quantity less the draw. */
  lemma SettleFrame(lots: seq<Lot>, rows: seq<Candidate>, t: seq<int>)
    requires |t| <= |rows| && forall k :: 0 <= k < |t| ==> rows[k].pos < |lots|
    requires forall k, l :: 0 <= k < l < |t| ==> rows[k].pos != rows[l].pos
    ensures var r := Settle(lots, rows, t);
      && (forall k :: 0 <= k < |t| ==> r[rows[k].pos] == lots[rows[k].pos].(quantidade := rows[k].quantidade - t[k]))
      && (forall j :: 0 <= j < |lots| && !Drawn(rows, |t|, j) ==> r[j] == lots[j])
  {
    SettleDrawnLots(lots, rows, t);
    SettleUntouched(lots, rows, t);
  }

  /** What settling takes from the lots is exactly the sum of the draws. */
  lemma {:induction false} SettleTotal(lots: seq<Lot>, rows: seq<Candidate>, t: seq<int>)
    requires RowsOf(lots, rows) && |t| <= |rows|
    ensures TotalQty(Settle(lots, rows, t)) + Sum(t) == TotalQty(lots)
  {
    if t != [] {
      var n := |t| - 1;
      var l := Settle(lots, rows, t[..n]);
      var j := rows[n].pos;
      var l2 := l[j := l[j].(quantidade := rows[n].quantidade - t[n])];
      assert Settle(lots, rows, t) == l2;
      SettleTotal(lots, rows, t[..n]);
      SettleUntouched(lots, rows, t[..n]);
      assert !Drawn(rows, n, j);
      assert l[j].quantidade == rows[n].quantidade;
      TotalQtyUpdate(l, j, l2[j]);
      SumSnoc(t);
      assert TotalQty(l2) == TotalQty(l) - t[n];
    }
  }

  lemma {:induction false} RecordsTotal(records: seq<OutflowItem>, t: seq<int>)
    requires |records| == |t| && forall k :: 0 <= k < |t| ==> records[k].quantidade == t[k]
    ensures TotalItems(records) == Sum(t)
  {
    if t != [] {
      var n := |t| - 1;
      RecordsTotal(records[..n], t[..n]);
      SumSnoc(t);
    }
  }

  // ---------------------------------------------------------------------------
  // One demand line

  /** A less-than on expiries: dated before undated, earlier dates first. */
  predicate ExpiresBefore(a: Option<int>, b: Option<int>) {
    ExpiryLe(a, b) && !ExpiryLe(b, a)
  }

  /** What the draws leave unmet, as a function of the total stock. */
  lemma DrawsShortfall(rows: seq<Candidate>, need: int, stock: int)
    requires forall k :: 0 <= k < |rows| ==> rows[k].quantidade > 0
    requires need > 0 && SumQty(rows) == stock
    ensures need - Sum(Draws(rows, need)) == Max(0, need - stock)
  {
    DrawsTotal(rows, need);
  }

  /**
   * The unmet need after one line is what the request exceeds its candidates'
   * total stock by, and nothing when the stock suffices (server.js:468).
   */
  lemma LineShortfall(lots: seq<Lot>, saidaId: nat, descricao: string, unidade: Option<string>, need: int)
    requires need > 0
    ensures AllocateLine(lots, saidaId, descricao, unidade, need).shortfall
         == Max(0, need - Available(lots, descricao, unidade))
  {
    var rows := LotQuery(lots, descricao, unidade);
    LotQuerySum(lots, descricao, unidade);
    DrawsShortfall(rows, need, Available(lots, descricao, unidade));
  }

  /** Every record of one line is a positive draw carrying the request's description and unit. */
  lemma DrawRecordsShape(saidaId: nat, descricao: string, unidade: Option<string>, rows: seq<Candidate>, t: seq<int>)
    requires |t| <= |rows| && forall k :: 0 <= k < |t| ==> t[k] > 0
    ensures var r := DrawRecords(saidaId, descricao, unidade, rows, t);
      && TotalItems(r) == Sum(t)
      && forall k :: 0 <= k < |r| ==>
           && r[k].quantidade > 0 && r[k].saidaId == saidaId
           && r[k].descricao == descricao && r[k].unidade == unidade
           && r[k].validade == rows[k].validade
  {
    RecordsTotal(DrawRecords(saidaId, descricao, unidade, rows, t), t);
  }

  /**
   * The records of one line are positive draws carrying the request's
   * description and unit and, each, the expiry of a distinct candidate lot; they
   * add up to what was requested less the shortfall (server.js:453-465).
   */
  lemma LineRecords(lots: seq<Lot>, saidaId: nat, descricao: string, unidade: Option<string>, need: int)
    ensures var r := AllocateLine(lots, saidaId, descricao, unidade, need);
      && TotalItems(r.records) == need - r.shortfall
      && (forall k :: 0 <= k < |r.records| ==>
            && r.records[k].quantidade > 0
            && r.records[k].saidaId == saidaId
            && r.records[k].descricao == descricao
            && r.records[k].unidade == unidade)
      && exists src: seq<nat> ::
           && |src| == |r.records|
           && Distinct(src)
           && forall k :: 0 <= k < |src| ==>
                src[k] < |lots| && IsCandidate(lots[src[k]], descricao, unidade) && r.records[k].validade == lots[src[k]].validade
  {
    var rows := LotQuery(lots, descricao, unidade);
    LotQueryRows(lots, descricao, unidade);
    DrawsBounds(rows, need);
    RowsRecords(lots, saidaId, descricao, unidade, rows, Draws(rows, need));
  }

  /** The records of one line add up to what it asked for less its shortfall. */
  lemma LineTotal(lots: seq<Lot>, saidaId: nat, descricao: string, unidade: Option<string>, need: int)
    ensures var r := AllocateLine(lots, saidaId, descricao, unidade, need);
      TotalItems(r.records) == need - r.shortfall
  {
    var rows := LotQuery(lots, descricao, unidade);
    var t := Draws(rows, need);
    DrawsBounds(rows, need);
    RecordsTotal(DrawRecords(saidaId, descricao, unidade, rows, t), t);
  }

  /** Every record of one line is a positive draw for the distribution. */
  lemma LineRecordsPositive(lots: seq<Lot>, saidaId: nat, descricao: string, unidade: Option<string>, need: int)
    ensures var r := AllocateLine(lots, saidaId, descricao, unidade, need);
      forall k :: 0 <= k < |r.records| ==> r.records[k].quantidade > 0 && r.records[k].saidaId == saidaId
  {
    var rows := LotQuery(lots, descricao, unidade);
    var t := Draws(rows, need);
    DrawsBounds(rows, need);
    DrawRecordsShape(saidaId, descricao, unidade, rows, t);
  }

  /** `LineRecords` over any draws from rows that are a lot query's. */
  lemma RowsRecords(lots: seq<Lot>, saidaId: nat, descricao: string, unidade: Option<string>, rows: seq<Candidate>, t: seq<int>)
    requires RowsOf(lots, rows) && |t| <= |rows|
    requires forall k :: 0 <= k < |rows| ==> IsCandidate(lots[rows[k].pos], descricao, unidade)
    requires forall k :: 0 <= k < |t| ==> t[k] > 0
    ensures var records := DrawRecords(saidaId, descricao, unidade, rows, t);
      && TotalItems(records) == Sum(t)
      && (forall k :: 0 <= k < |records| ==>
            && records[k].quantidade > 0
            && records[k].saidaId == saidaId
            && records[k].descricao == descricao
            && records[k].unidade == unidade)
      && exists src: seq<nat> ::
           && |src| == |records|
           && Distinct(src)
           && forall k :: 0 <= k < |src| ==>
                src[k] < |lots| && IsCandidate(lots[src[k]], descricao, unidade) && records[k].validade == lots[src[k]].validade
  {
    DrawRecordsShape(saidaId, descricao, unidade, rows, t);
    DrawSources(lots, descricao, unidade, DrawRecords(saidaId, descricao, unidade, rows, t), rows);
  }

  /** Records whose expiries follow the rows of a lot query come from distinct candidate lots. */
  lemma DrawSources(lots: seq<Lot>, descricao: string, unidade: Option<string>, records: seq<OutflowItem>, rows: seq<Candidate>)
    requires RowsOf(lots, rows) && |records| <= |rows|
    requires forall k :: 0 <= k < |rows| ==> IsCandidate(lots[rows[k].pos], descricao, unidade)
    requires forall k :: 0 <= k < |records| ==> records[k].validade == rows[k].validade
    ensures exists src: seq<nat> ::
      && |src| == |records|
      && Distinct(src)
      && forall k :: 0 <= k < |src| ==>
           src[k] < |lots| && IsCandidate(lots[src[k]], descricao, unidade) && records[k].validade == lots[src[k]].validade
  {
    var src := seq(|records|, k requires 0 <= k < |records| => rows[k].pos);
    assert forall k :: 0 <= k < |src| ==> src[k] == rows[k].pos;
  }

  /** Allocating one line moves quantity from the lots into the records and loses none. */
  lemma LineConserves(lots: seq<Lot>, saidaId: nat, descricao: string, unidade: Option<string>, need: int)
    ensures var r := AllocateLine(lots, saidaId, descricao, unidade, need);
      TotalQty(r.lots) + TotalItems(r.records) == TotalQty(lots)
  {
    var rows := LotQuery(lots, descricao, unidade);
    LotQueryRows(lots, descricao, unidade);
    var t := Draws(rows, need);
    DrawsBounds(rows, need);
    SettleTotal(lots, rows, t);
    DrawRecordsShape(saidaId, descricao, unidade, rows, t);
  }

  /** Settling a draw changes only quantities, only of drawn lots, and never below zero. */
  lemma SettleDrawsFrame(lots: seq<Lot>, rows: seq<Candidate>, t: seq<int>)
    requires RowsOf(lots, rows) && |t| <= |rows|
    requires forall k :: 0 <= k < |t| ==> 0 <= t[k] <= rows[k].quantidade
    ensures var r := Settle(lots, rows, t);
      forall j :: 0 <= j < |lots| ==>
        && r[j] == lots[j].(quantidade := r[j].quantidade)
        && (Drawn(rows, |t|, j) ==> 0 <= r[j].quantidade <= lots[j].quantidade)
        && (!Drawn(rows, |t|, j) ==> r[j] == lots[j])
  {
    SettleFrame(lots, rows, t);
    forall j | 0 <= j < |lots| && Drawn(rows, |t|, j)
      ensures var r := Settle(lots, rows, t); r[j] == lots[j].(quantidade := r[j].quantidade) && 0 <= r[j].quantidade <= lots[j].quantidade
    {
      var k :| 0 <= k < |t| && rows[k].pos == j;
      assert rows[k] == RowOf(lots, j);
    }
  }

  /**
   * Only candidate lots change, only in quantity, and a lot drawn from ends
   * between zero and what it held: no lot goes negative (server.js:451-463).
   */
  lemma LineFrame(lots: seq<Lot>, saidaId: nat, descricao: string, unidade: Option<string>, need: int)
    ensures var r := AllocateLine(lots, saidaId, descricao, unidade, need);
      && |r.lots| == |lots|
      && forall j :: 0 <= j < |lots| ==>
           && r.lots[j] == lots[j].(quantidade := r.lots[j].quantidade)
           && (IsCandidate(lots[j], descricao, unidade) ==> 0 <= r.lots[j].quantidade <= lots[j].quantidade)
           && (!IsCandidate(lots[j], descricao, unidade) ==> r.lots[j] == lots[j])
  {
    var rows := LotQuery(lots, descricao, unidade);
    LotQueryRows(lots, descricao, unidade);
    var t := Draws(rows, need);
    DrawsBounds(rows, need);
    SettleDrawsFrame(lots, rows, t);
    forall j | 0 <= j < |lots| && Drawn(rows, |t|, j)
      ensures IsCandidate(lots[j], descricao, unidade)
    {
      var k :| 0 <= k < |t| && rows[k].pos == j;
    }
  }

  /** Within a draw sorted by expiry, a row left with stock precedes every row drawn from. */
  lemma DrawsFefo(rows: seq<Candidate>, need: int, ki: nat, kj: nat)
    requires forall k :: 0 <= k < |rows| ==> rows[k].quantidade > 0
    requires ki < |rows| && kj < |rows| && ki < kj
    requires var t := Draws(rows, need); ki < |t| ==> t[ki] < rows[ki].quantidade
    ensures kj >= |Draws(rows, need)|
  {
    DrawsDrainInOrder(rows, need);
  }

  /**
   * First-expired-first-out: while a candidate lot still holds stock after the
   * line is allocated, no candidate lot expiring strictly later has been drawn
   * from (server.js:445, 449-450).
   */
  lemma LineFefo(lots: seq<Lot>, saidaId: nat, descricao: string, unidade: Option<string>, need: int, i: nat, j: nat)
    requires i < |lots| && j < |lots|
    requires IsCandidate(lots[i], descricao, unidade) && IsCandidate(lots[j], descricao, unidade)
    requires ExpiresBefore(lots[i].validade, lots[j].validade)
    requires AllocateLine(lots, saidaId, descricao, unidade, need).lots[i].quantidade > 0
    ensures AllocateLine(lots, saidaId, descricao, unidade, need).lots[j] == lots[j]
  {
    var rows := LotQuery(lots, descricao, unidade);
    LotQueryRows(lots, descricao, unidade);
    assert RowOf(lots, i) in rows && RowOf(lots, j) in rows;
    var ki :| 0 <= ki < |rows| && rows[ki] == RowOf(lots, i);
    var kj :| 0 <= kj < |rows| && rows[kj] == RowOf(lots, j);
    SortedFefo(lots, rows, need, ki, kj);
  }

  /** `LineFefo` over any rows that are a lot query's: distinct positive candidate rows in expiry order. */
  lemma SortedFefo(lots: seq<Lot>, rows: seq<Candidate>, need: int, ki: nat, kj: nat)
    requires RowsOf(lots, rows)
    requires forall k :: 0 <= k < |rows| ==> rows[k].quantidade > 0
    requires forall k, l :: 0 <= k < l < |rows| ==> ExpiryLe(rows[k].validade, rows[l].validade)
    requires ki < |rows| && kj < |rows|
    requires ExpiresBefore(rows[ki].validade, rows[kj].validade)
    requires Settle(lots, rows, Draws(rows, need))[rows[ki].pos].quantidade > 0
    ensures Settle(lots, rows, Draws(rows, need))[rows[kj].pos] == lots[rows[kj].pos]
  {
    var t := Draws(rows, need);
    DrawsBounds(rows, need);
    SettleFrame(lots, rows, t);
    assert ki < kj;
    DrawsFefo(rows, need, ki, kj);
  }
}
