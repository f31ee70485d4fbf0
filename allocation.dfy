/**
 * What one demand line of `POST /api/saidas` (server.js) does to the lots:
 * which lots are candidates, the first-expired-first-out order the lot query
 * returns them in, how much is drawn from each, and the lots and `itens_saida`
 * records that result. Quantities are integers in hundredths (the columns are
 * DECIMAL(10,2)); expiry dates are day numbers.
 */
module Allocation {
  import opened Wrappers
  import opened Sorting

  /** A row of `itens_doacao`: one donated lot. */
  datatype Lot = Lot(
    id: nat,
    donationId: nat,
    descricao: string,
    quantidade: int,
    unidade: Option<string>,
    validade: Option<int>)

  /** A row of `itens_saida`: one draw from one lot for one distribution. */
  datatype OutflowItem = OutflowItem(
    saidaId: nat,
    descricao: string,
    quantidade: int,
    unidade: Option<string>,
    validade: Option<int>)

  /** A row of the lot query: the lot's position in the store, its quantity and its expiry. */
  datatype Candidate = Candidate(pos: nat, quantidade: int, validade: Option<int>)

  /**
   * `(unidade = ? OR ? IS NULL OR ? = '')`: a missing or empty requested unit
   * matches every lot; otherwise the lot's unit must equal it, and a lot with
   * no unit (SQL NULL) does not.
   */
  predicate UnitMatches(lotUnit: Option<string>, requested: Option<string>) {
    requested.None? || requested == Some("") || lotUnit == requested
  }

  /** The WHERE clause of the lot query. */
  predicate IsCandidate(lot: Lot, descricao: string, unidade: Option<string>) {
    lot.descricao == descricao && lot.quantidade > 0 && UnitMatches(lot.unidade, unidade)
  }

  /** `ORDER BY (validade IS NULL), validade ASC`: dated lots by date, then undated ones. */
  predicate ExpiryLe(a: Option<int>, b: Option<int>) {
    if a.Some? && b.Some? then a.value <= b.value else b.None?
  }

  function CandidateLe(a: Candidate, b: Candidate): bool {
    ExpiryLe(a.validade, b.validade)
  }

  lemma CandidateLeIsTotalPreorder()
    ensures TotalPreorder(CandidateLe)
  {
  }

  function RowOf(lots: seq<Lot>, i: nat): Candidate
    requires i < |lots|
  {
    Candidate(i, lots[i].quantidade, lots[i].validade)
  }

  /** The candidate lots in store order. */
  function CandidatesOf(lots: seq<Lot>, descricao: string, unidade: Option<string>): (r: seq<Candidate>)
    ensures forall k :: 0 <= k < |r| ==> r[k].pos < |lots| && r[k].quantidade > 0
  {
    if lots == [] then []
    else
      var n := |lots| - 1;
      var p := CandidatesOf(lots[..n], descricao, unidade);
      if IsCandidate(lots[n], descricao, unidade) then p + [RowOf(lots, n)] else p
  }

  /**
   * The lot query of server.js:441-447: the candidate lots, dated ones by
   * ascending expiry and undated ones last. Lots with equal expiry come in an
   * order the database chooses; the model fixes one. `LotQueryRows` states
   * what the rows are.
   */
  function LotQuery(lots: seq<Lot>, descricao: string, unidade: Option<string>): (r: seq<Candidate>)
    ensures forall k :: 0 <= k < |r| ==> r[k].pos < |lots| && r[k].quantidade > 0
  {
    var c := CandidatesOf(lots, descricao, unidade);
    var r := SortBy(c, CandidateLe);
    forall k | 0 <= k < |r| ensures r[k].pos < |lots| && r[k].quantidade > 0 {
      assert r[k] in multiset(r);
    }
    r
  }

  /** Every row is the row of a candidate lot. */
  predicate RowsSound(lots: seq<Lot>, descricao: string, unidade: Option<string>, r: seq<Candidate>) {
    forall k :: 0 <= k < |r| ==>
      r[k].pos < |lots| && IsCandidate(lots[r[k].pos], descricao, unidade) && r[k] == RowOf(lots, r[k].pos)
  }

  /** The rows come in store order. */
  predicate RowsOrdered(r: seq<Candidate>) {
    forall k, l :: 0 <= k < l < |r| ==> r[k].pos < r[l].pos
  }

  lemma {:induction false} CandidatesSound(lots: seq<Lot>, descricao: string, unidade: Option<string>)
    ensures RowsSound(lots, descricao, unidade, CandidatesOf(lots, descricao, unidade))
  {
    if lots != [] {
      var n := |lots| - 1;
      var p := CandidatesOf(lots[..n], descricao, unidade);
      CandidatesSound(lots[..n], descricao, unidade);
      forall k | 0 <= k < |p|
        ensures p[k].pos < n && IsCandidate(lots[p[k].pos], descricao, unidade) && p[k] == RowOf(lots, p[k].pos)
      {
        var j := p[k].pos;
        assert lots[..n][j] == lots[j];
      }
      assert CandidatesOf(lots, descricao, unidade) ==
        if IsCandidate(lots[n], descricao, unidade) then p + [RowOf(lots, n)] else p;
    }
  }

  /** Every candidate lot has its row among the candidate rows. */
  lemma {:induction false} CandidatesComplete(lots: seq<Lot>, descricao: string, unidade: Option<string>, i: nat)
    requires i < |lots| && IsCandidate(lots[i], descricao, unidade)
    ensures RowOf(lots, i) in CandidatesOf(lots, descricao, unidade)
  {
    var n := |lots| - 1;
    if i < n {
      CandidatesComplete(lots[..n], descricao, unidade, i);
      assert lots[..n][i] == lots[i];
      assert RowOf(lots[..n], i) == RowOf(lots, i);
    }
  }

  lemma {:induction false} CandidatesOrdered(lots: seq<Lot>, descricao: string, unidade: Option<string>)
    ensures RowsOrdered(CandidatesOf(lots, descricao, unidade))
  {
    if lots != [] {
      var n := |lots| - 1;
      var p := CandidatesOf(lots[..n], descricao, unidade);
      CandidatesOrdered(lots[..n], descricao, unidade);
      assert forall k :: 0 <= k < |p| ==> p[k].pos < n;
      assert CandidatesOf(lots, descricao, unidade) ==
        if IsCandidate(lots[n], descricao, unidade) then p + [RowOf(lots, n)] else p;
    }
  }

  /**
   * The rows of the lot query: every candidate lot exactly once, with its
   * quantity and expiry, dated lots by ascending expiry and undated lots last.
   */
  lemma LotQueryRows(lots: seq<Lot>, descricao: string, unidade: Option<string>)
    ensures var r := LotQuery(lots, descricao, unidade);
      && (forall k :: 0 <= k < |r| ==>
           r[k].pos < |lots| && IsCandidate(lots[r[k].pos], descricao, unidade) && r[k] == RowOf(lots, r[k].pos))
      && (forall i :: 0 <= i < |lots| && IsCandidate(lots[i], descricao, unidade) ==> RowOf(lots, i) in r)
      && (forall k, l :: 0 <= k < l < |r| ==> r[k].pos != r[l].pos)
      && (forall k, l :: 0 <= k < l < |r| ==> ExpiryLe(r[k].validade, r[l].validade))
  {
    var c := CandidatesOf(lots, descricao, unidade);
    var r := SortBy(c, CandidateLe);
    CandidatesSound(lots, descricao, unidade);
    CandidatesOrdered(lots, descricao, unidade);
    CandidateLeIsTotalPreorder();
    SortBySorted(c, CandidateLe);
    PermutedRows(lots, descricao, unidade, c, r);
    forall i | 0 <= i < |lots| && IsCandidate(lots[i], descricao, unidade) ensures RowOf(lots, i) in r {
      CandidatesComplete(lots, descricao, unidade, i);
    }
  }

  /** A reordering of the candidate rows holds the same rows, each sound, no lot twice. */
  lemma PermutedRows(lots: seq<Lot>, descricao: string, unidade: Option<string>, c: seq<Candidate>, r: seq<Candidate>)
    requires multiset(r) == multiset(c)
    requires RowsSound(lots, descricao, unidade, c) && RowsOrdered(c)
    ensures RowsSound(lots, descricao, unidade, r)
    ensures forall x :: x in r <==> x in c
    ensures forall k, l :: 0 <= k < l < |r| ==> r[k].pos != r[l].pos
  {
    forall x ensures x in r <==> x in c { SameMembers(r, c, x); }
    assert Distinct(c) by {
      forall i, j | 0 <= i < j < |c| ensures c[i] != c[j] {
        assert c[i].pos < c[j].pos;
      }
    }
    DistinctPermutation(c, r);
    forall k | 0 <= k < |r|
      ensures r[k].pos < |lots| && IsCandidate(lots[r[k].pos], descricao, unidade) && r[k] == RowOf(lots, r[k].pos)
    {
      assert r[k] in c;
    }
    forall k, l | 0 <= k < l < |r| ensures r[k].pos != r[l].pos {
      assert r[k] == RowOf(lots, r[k].pos) && r[l] == RowOf(lots, r[l].pos);
    }
  }

  function SumQty(rows: seq<Candidate>): int {
    if rows == [] then 0 else rows[0].quantidade + SumQty(rows[1..])
  }

  function Sum(s: seq<int>): int {
    if s == [] then 0 else s[0] + Sum(s[1..])
  }

  /** Total quantity of a list of lots. */
  function TotalQty(lots: seq<Lot>): int {
    if lots == [] then 0 else TotalQty(lots[..|lots| - 1]) + lots[|lots| - 1].quantidade
  }

  /** Total quantity of a list of `itens_saida` records. */
  function TotalItems(items: seq<OutflowItem>): int {
    if items == [] then 0 else TotalItems(items[..|items| - 1]) + items[|items| - 1].quantidade
  }

  /** The stock a demand line can draw on: the summed quantity of its candidate lots. */
  function Available(lots: seq<Lot>, descricao: string, unidade: Option<string>): int {
    if lots == [] then 0
    else
      var n := |lots| - 1;
      Available(lots[..n], descricao, unidade) + (if IsCandidate(lots[n], descricao, unidade) then lots[n].quantidade else 0)
  }

  function Min(a: int, b: int): int {
    if a <= b then a else b
  }

  function Max(a: int, b: int): int {
    if a >= b then a else b
  }

  /**
   * The greedy draw of server.js:449-466 over the rows of the lot query: take
   * `min(available, need)` from each row in turn and stop as soon as nothing
   * more is needed. One entry per row visited.
   */
  function Draws(rows: seq<Candidate>, need: int): (t: seq<int>)
    requires forall k :: 0 <= k < |rows| ==> rows[k].quantidade > 0
    ensures |t| <= |rows|
  {
    if rows == [] || need <= 0 then []
    else
      var use := Min(rows[0].quantidade, need);
      [use] + Draws(rows[1..], need - use)
  }

  /**
   * The UPDATEs of server.js:463 for the first `|t|` rows of the lot query:
   * the lot of row `k` is set to that row's quantity less `t[k]`, for each `k`
   * in turn.
   */
  function Settle(lots: seq<Lot>, rows: seq<Candidate>, t: seq<int>): (r: seq<Lot>)
    requires |t| <= |rows| && forall k :: 0 <= k < |t| ==> rows[k].pos < |lots|
    ensures |r| == |lots|
  {
    if t == [] then lots
    else
      var n := |t| - 1;
      var l := Settle(lots, rows, t[..n]);
      l[rows[n].pos := l[rows[n].pos].(quantidade := rows[n].quantidade - t[n])]
  }

  /** The `itens_saida` records of the draws: the request's description and unit, the lot's expiry. */
  function DrawRecords(saidaId: nat, descricao: string, unidade: Option<string>, rows: seq<Candidate>, t: seq<int>): (r: seq<OutflowItem>)
    requires |t| <= |rows|
    ensures |r| == |t|
    ensures forall k :: 0 <= k < |t| ==> r[k] == OutflowItem(saidaId, descricao, t[k], unidade, rows[k].validade)
  {
    if t == [] then []
    else
      var n := |t| - 1;
      DrawRecords(saidaId, descricao, unidade, rows, t[..n]) + [OutflowItem(saidaId, descricao, t[n], unidade, rows[n].validade)]
  }

  /** What allocating one demand line proposes: the lots afterwards, the records written, and the unmet need. */
  datatype LineResult = LineResult(lots: seq<Lot>, records: seq<OutflowItem>, shortfall: int)

  /** One pass of the inner loop of server.js:441-466 for one demand line. */
  function AllocateLine(lots: seq<Lot>, saidaId: nat, descricao: string, unidade: Option<string>, need: int): LineResult
  {
    var rows := LotQuery(lots, descricao, unidade);
    var t := Draws(rows, need);
    LineResult(
      Settle(lots, rows, t),
      DrawRecords(saidaId, descricao, unidade, rows, t),
      need - Sum(t))
  }
}
