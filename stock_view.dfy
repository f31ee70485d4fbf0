/**
 * The two read endpoints over the lots in server.js: `GET /api/estoque`
 * (206-249), the stock grouped by description and unit with its total and
 * next expiry, filtered and ordered by description; and `GET /api/estoque/lotes`
 * (252-264), the lots of one description ordered by expiry. Dates are day
 * numbers and `today` stands for `CURDATE()`.
 */
module StockView {
  import opened Wrappers
  import opened Text
  import opened Sorting
  import opened Allocation

  // ---------------------------------------------------------------------------
  // WHERE quantidade > 0 AND descricao LIKE ? [AND unidade = ?]

  /** The text searched for: the trimmed `descricao` parameter, or nothing (the pattern `%`) when it is absent or empty. */
  function Needle(descricao: Option<string>): string {
    if descricao.Some? && descricao.value != "" then Trim(descricao.value) else ""
  }

  /** The unit filter: the trimmed `unidade` parameter, or none when it is absent or trims to nothing. */
  function UnitFilter(unidade: Option<string>): (r: Option<string>)
    ensures r.Some? ==> r.value != ""
  {
    if unidade.Some? && unidade.value != "" && Trim(unidade.value) != "" then Some(Trim(unidade.value)) else None
  }

  /**
   * The WHERE clause: positive quantity, the description contains the needle,
   * and, under a unit filter, the unit equals it (a lot without unit never does).
   */
  predicate InStock(l: Lot, needle: string, unit: Option<string>) {
    l.quantidade > 0 && Contains(l.descricao, needle) && (unit.None? || l.unidade == unit)
  }

  function Where(lots: seq<Lot>, needle: string, unit: Option<string>): (r: seq<Lot>)
    ensures |r| <= |lots|
  {
    if lots == [] then []
    else
      var n := |lots| - 1;
      Where(lots[..n], needle, unit) + (if InStock(lots[n], needle, unit) then [lots[n]] else [])
  }

  /** The rows the WHERE clause keeps are the lots that satisfy it. */
  lemma {:induction false} WhereMembers(lots: seq<Lot>, needle: string, unit: Option<string>, l: Lot)
    ensures l in Where(lots, needle, unit) <==> l in lots && InStock(l, needle, unit)
  {
    if lots != [] {
      var n := |lots| - 1;
      WhereMembers(lots[..n], needle, unit, l);
      assert lots == lots[..n] + [lots[n]];
    }
  }

  // ---------------------------------------------------------------------------
  // GROUP BY descricao, unidade with SUM(quantidade) and MIN(validade)

  /** The grouping key. A lot without unit (NULL) forms its own group. */
  datatype Key = Key(descricao: string, unidade: Option<string>)

  function KeyOf(l: Lot): Key {
    Key(l.descricao, l.unidade)
  }

  /** One group: its key, `SUM(quantidade)` and `MIN(validade)`. */
  datatype Group = Group(key: Key, total: int, nextExpiry: Option<int>)

  /** SQL `MIN` over two values: NULL is ignored, and only NULLs give NULL. */
  function MinExpiry(a: Option<int>, b: Option<int>): (r: Option<int>)
    ensures r.None? <==> a.None? && b.None?
    ensures r.Some? ==> r == a || r == b
    ensures r.Some? && a.Some? ==> r.value <= a.value
    ensures r.Some? && b.Some? ==> r.value <= b.value
  {
    if a.None? then b
    else if b.None? then a
    else Some(Min(a.value, b.value))
  }

  /** Adds one lot to the group of its key, opening the group if there is none yet. */
  function AddLot(groups: seq<Group>, l: Lot): (r: seq<Group>)
    decreases |groups|
  {
    if groups == [] then [Group(KeyOf(l), l.quantidade, l.validade)]
    else if groups[0].key == KeyOf(l) then
      [Group(groups[0].key, groups[0].total + l.quantidade, MinExpiry(groups[0].nextExpiry, l.validade))] + groups[1..]
    else [groups[0]] + AddLot(groups[1..], l)
  }

  /** The groups of a list of lots, in order of first appearance. */
  function Aggregate(lots: seq<Lot>): seq<Group> {
    if lots == [] then []
    else AddLot(Aggregate(lots[..|lots| - 1]), lots[|lots| - 1])
  }

  /** The group of a key, if any. */
  function Find(groups: seq<Group>, k: Key): (r: Option<Group>)
    ensures r.Some? ==> r.value in groups && r.value.key == k
    ensures r.None? ==> forall i :: 0 <= i < |groups| ==> groups[i].key != k
  {
    if groups == [] then None
    else if groups[0].key == k then Some(groups[0])
    else Find(groups[1..], k)
  }

  /** `SUM(quantidade)` over the lots of a key. */
  function KeyTotal(lots: seq<Lot>, k: Key): int {
    if lots == [] then 0
    else
      var n := |lots| - 1;
      KeyTotal(lots[..n], k) + (if KeyOf(lots[n]) == k then lots[n].quantidade else 0)
  }

  predicate HasKey(lots: seq<Lot>, k: Key) {
    exists i :: 0 <= i < |lots| && KeyOf(lots[i]) == k
  }

  /** `m` is `MIN(validade)` over the lots of key `k`: the least date among them, NULL when none has a date. */
  predicate IsMinExpiry(lots: seq<Lot>, k: Key, m: Option<int>) {
    && (m.None? <==> forall i :: 0 <= i < |lots| && KeyOf(lots[i]) == k ==> lots[i].validade.None?)
    && (m.Some? ==> exists i :: 0 <= i < |lots| && KeyOf(lots[i]) == k && lots[i].validade == m)
    && (m.Some? ==> forall i :: 0 <= i < |lots| && KeyOf(lots[i]) == k && lots[i].validade.Some? ==> m.value <= lots[i].validade.value)
  }

  /** The group of a key once a lot of that key is added to it (or opens it). */
  function Merge(g: Option<Group>, l: Lot): Group {
    if g.None? then Group(KeyOf(l), l.quantidade, l.validade)
    else Group(g.value.key, g.value.total + l.quantidade, MinExpiry(g.value.nextExpiry, l.validade))
  }

  /** What adding a lot does to the group of each key. */
  lemma {:induction false} FindAddLot(groups: seq<Group>, l: Lot, k: Key)
    ensures Find(AddLot(groups, l), k) == if k == KeyOf(l) then Some(Merge(Find(groups, k), l)) else Find(groups, k)
    decreases |groups|
  {
    var r := AddLot(groups, l);
    if groups == [] {
      assert r == [Group(KeyOf(l), l.quantidade, l.validade)];
    } else if groups[0].key == KeyOf(l) {
      var m := Group(groups[0].key, groups[0].total + l.quantidade, MinExpiry(groups[0].nextExpiry, l.validade));
      assert r == [m] + groups[1..];
      assert r[0] == m && r[1..] == groups[1..];
    } else {
      var rest := AddLot(groups[1..], l);
      assert r == [groups[0]] + rest;
      assert r[0] == groups[0] && r[1..] == rest;
      FindAddLot(groups[1..], l, k);
    }
  }

  /** A lot of another key leaves the least expiry of a key as it was. */
  lemma MinExpiryOther(prev: seq<Lot>, x: Lot, k: Key, m: Option<int>)
    requires IsMinExpiry(prev, k, m) && KeyOf(x) != k
    ensures IsMinExpiry(prev + [x], k, m)
  {
    var lots := prev + [x];
    assert forall i :: 0 <= i < |prev| ==> lots[i] == prev[i];
    if m.Some? {
      var i :| 0 <= i < |prev| && KeyOf(prev[i]) == k && prev[i].validade == m;
      assert lots[i] == prev[i];
    }
  }

  /** The first lot of a key sets its least expiry. */
  lemma MinExpiryFirst(prev: seq<Lot>, x: Lot, k: Key)
    requires !HasKey(prev, k) && KeyOf(x) == k
    ensures IsMinExpiry(prev + [x], k, x.validade)
  {
    var lots := prev + [x];
    assert forall i :: 0 <= i < |prev| ==> lots[i] == prev[i] && KeyOf(prev[i]) != k;
    assert lots[|prev|] == x;
  }

  /** A further lot of a key lowers its least expiry to its own date if that comes first. */
  lemma MinExpiryNext(prev: seq<Lot>, x: Lot, k: Key, m: Option<int>)
    requires IsMinExpiry(prev, k, m) && KeyOf(x) == k
    ensures IsMinExpiry(prev + [x], k, MinExpiry(m, x.validade))
  {
    var lots := prev + [x];
    assert forall i :: 0 <= i < |prev| ==> lots[i] == prev[i];
    assert lots[|prev|] == x;
    var r := MinExpiry(m, x.validade);
    if r.Some? && r == m {
      var i :| 0 <= i < |prev| && KeyOf(prev[i]) == k && prev[i].validade == m;
      assert lots[i] == prev[i];
    }
  }

  /** A key no lot has sums to nothing. */
  lemma {:induction false} KeyTotalAbsent(lots: seq<Lot>, k: Key)
    requires !HasKey(lots, k)
    ensures KeyTotal(lots, k) == 0
  {
    if lots != [] {
      var n := |lots| - 1;
      assert forall i :: 0 <= i < n ==> lots[..n][i] == lots[i];
      KeyTotalAbsent(lots[..n], k);
    }
  }

  /**
   * Each key of the lots has exactly the group the query returns for it:
   * present exactly when some lot has that key, with the sum of their
   * quantities and the least of their expiry dates.
   */
  lemma {:induction false} AggregateFind(lots: seq<Lot>, k: Key)
    ensures var f := Find(Aggregate(lots), k);
      && (f.Some? <==> HasKey(lots, k))
      && (f.Some? ==> f.value.total == KeyTotal(lots, k) && IsMinExpiry(lots, k, f.value.nextExpiry))
  {
    if lots != [] {
      var n := |lots| - 1;
      var prev := lots[..n];
      var x := lots[n];
      assert lots == prev + [x];
      AggregateFind(prev, k);
      FindAddLot(Aggregate(prev), x, k);
      var g := Find(Aggregate(prev), k);
      assert HasKey(lots, k) <==> HasKey(prev, k) || KeyOf(x) == k by {
        if HasKey(lots, k) && KeyOf(x) != k {
          var i :| 0 <= i < |lots| && KeyOf(lots[i]) == k;
          assert prev[i] == lots[i];
        }
        if HasKey(prev, k) {
          var i :| 0 <= i < |prev| && KeyOf(prev[i]) == k;
          assert lots[i] == prev[i];
        }
      }
      if KeyOf(x) != k {
        if g.Some? {
          MinExpiryOther(prev, x, k, g.value.nextExpiry);
        }
      } else if g.None? {
        MinExpiryFirst(prev, x, k);
        KeyTotalAbsent(prev, k);
      } else {
        MinExpiryNext(prev, x, k, g.value.nextExpiry);
      }
    }
  }

  predicate DistinctKeys(groups: seq<Group>) {
    forall i, j :: 0 <= i < j < |groups| ==> groups[i].key != groups[j].key
  }

  /** Every key after adding a lot is the lot's key or a key that was already there. */
  lemma {:induction false} AddLotKeyAt(groups: seq<Group>, l: Lot, j: nat)
    requires j < |AddLot(groups, l)|
    ensures AddLot(groups, l)[j].key == KeyOf(l)
            || exists m :: 0 <= m < |groups| && groups[m].key == AddLot(groups, l)[j].key
    decreases |groups|
  {
    var r := AddLot(groups, l);
    if groups != [] && groups[0].key != KeyOf(l) {
      if j == 0 {
        assert r[0] == groups[0];
      } else {
        AddLotKeyAt(groups[1..], l, j - 1);
        assert r[j] == AddLot(groups[1..], l)[j - 1];
        if r[j].key != KeyOf(l) {
          var m :| 0 <= m < |groups[1..]| && groups[1..][m].key == r[j].key;
          assert groups[m + 1].key == r[j].key;
        }
      }
    } else if groups != [] && j > 0 {
      assert r[j] == groups[j];
    }
  }

  lemma {:induction false} AddLotKeys(groups: seq<Group>, l: Lot)
    requires DistinctKeys(groups)
    ensures DistinctKeys(AddLot(groups, l))
    decreases |groups|
  {
    if groups != [] && groups[0].key != KeyOf(l) {
      AddLotKeys(groups[1..], l);
      var r := AddLot(groups, l);
      var rest := AddLot(groups[1..], l);
      forall i, j | 0 <= i < j < |r| ensures r[i].key != r[j].key {
        assert r[j] == rest[j - 1];
        if i == 0 {
          AddLotKeyAt(groups[1..], l, j - 1);
          if r[j].key != KeyOf(l) {
            var m :| 0 <= m < |groups[1..]| && groups[1..][m].key == r[j].key;
            assert groups[m + 1].key == r[j].key;
          }
        } else {
          assert r[i] == rest[i - 1];
        }
      }
    }
  }

  /** The query returns one group per key. */
  lemma {:induction false} AggregateDistinct(lots: seq<Lot>)
    ensures DistinctKeys(Aggregate(lots))
  {
    if lots != [] {
      AggregateDistinct(lots[..|lots| - 1]);
      AddLotKeys(Aggregate(lots[..|lots| - 1]), lots[|lots| - 1]);
    }
  }

  /** With one group per key, each group is the one found for its key. */
  lemma FindMember(groups: seq<Group>, g: Group)
    requires DistinctKeys(groups) && g in groups
    ensures Find(groups, g.key) == Some(g)
  {
    var f := Find(groups, g.key);
    var i :| 0 <= i < |groups| && groups[i] == g;
    var j :| 0 <= j < |groups| && groups[j] == f.value;
  }

  // ---------------------------------------------------------------------------
  // HAVING on MIN(validade)

  /** How the `venc` parameter filters the groups; a day bound is kept in hundredths of a day. */
  datatype ExpiryFilter = Any | Expired | Within(hundredths: int)

  /**
   * The `venc` parameter, trimmed: absent or blank keeps every group,
   * `expired` keeps groups already past their next expiry, a number N keeps
   * groups expiring within N days, and text `Number` reads as NaN is ignored.
   */
  function ParseVenc(venc: Option<string>): ExpiryFilter {
    if venc.None? || venc.value == "" || Trim(venc.value) == "" then Any
    else if Trim(venc.value) == "expired" then Expired
    else match ParseHundredths(Trim(venc.value))
      case Some(n) => Within(n)
      case None => Any
  }

  /**
   * The HAVING clause: `MIN(validade)` is set and before today, or
   * `DATEDIFF(MIN(validade), CURDATE())`, a whole number of days, is at most N.
   */
  predicate Having(f: ExpiryFilter, g: Group, today: int) {
    match f
    case Any => true
    case Expired => g.nextExpiry.Some? && g.nextExpiry.value < today
    case Within(n) => g.nextExpiry.Some? && (g.nextExpiry.value - today) * 100 <= n
  }

  function KeepGroups(groups: seq<Group>, f: ExpiryFilter, today: int): (r: seq<Group>)
    ensures |r| <= |groups|
  {
    if groups == [] then []
    else
      var n := |groups| - 1;
      KeepGroups(groups[..n], f, today) + (if Having(f, groups[n], today) then [groups[n]] else [])
  }

  lemma {:induction false} KeepGroupsMembers(groups: seq<Group>, f: ExpiryFilter, today: int, g: Group)
    ensures g in KeepGroups(groups, f, today) <==> g in groups && Having(f, g, today)
  {
    if groups != [] {
      var n := |groups| - 1;
      KeepGroupsMembers(groups[..n], f, today, g);
      assert groups == groups[..n] + [groups[n]];
    }
  }

  lemma {:induction false} KeepGroupsDistinct(groups: seq<Group>, f: ExpiryFilter, today: int)
    requires DistinctKeys(groups)
    ensures DistinctKeys(KeepGroups(groups, f, today))
  {
    if groups != [] {
      var n := |groups| - 1;
      var prev := KeepGroups(groups[..n], f, today);
      KeepGroupsDistinct(groups[..n], f, today);
      if Having(f, groups[n], today) {
        forall i | 0 <= i < |prev| ensures prev[i].key != groups[n].key {
          KeepGroupsMembers(groups[..n], f, today, prev[i]);
          var j :| 0 <= j < n && groups[..n][j] == prev[i];
          assert groups[j] == prev[i];
        }
      }
    }
  }

  // ---------------------------------------------------------------------------
  // ORDER BY descricao

  /** Code-point order on text; the database's collation is not part of this model. */
  predicate TextLe(a: string, b: string)
    decreases |a|
  {
    a == [] || (b != [] && (a[0] < b[0] || (a[0] == b[0] && TextLe(a[1..], b[1..]))))
  }

  lemma {:induction false} TextLeTotal(a: string, b: string)
    ensures TextLe(a, b) || TextLe(b, a)
    decreases |a|
  {
    if a != [] && b != [] && a[0] == b[0] {
      TextLeTotal(a[1..], b[1..]);
    }
  }

  lemma {:induction false} TextLeTransitive(a: string, b: string, c: string)
    requires TextLe(a, b) && TextLe(b, c)
    ensures TextLe(a, c)
    decreases |a|
  {
    if a != [] && b != [] && c != [] && a[0] == b[0] && b[0] == c[0] {
      TextLeTransitive(a[1..], b[1..], c[1..]);
    }
  }

  function GroupLe(a: Group, b: Group): bool {
    TextLe(a.key.descricao, b.key.descricao)
  }

  lemma GroupLeIsTotalPreorder()
    ensures TotalPreorder(GroupLe)
  {
    forall a: Group, b: Group ensures GroupLe(a, b) || GroupLe(b, a) {
      TextLeTotal(a.key.descricao, b.key.descricao);
    }
    forall a: Group, b: Group, c: Group | GroupLe(a, b) && GroupLe(b, c) ensures GroupLe(a, c) {
      TextLeTransitive(a.key.descricao, b.key.descricao, c.key.descricao);
    }
  }

  // ---------------------------------------------------------------------------
  // GET /api/estoque

  /** The groups `GET /api/estoque` returns, before the unit is shown through `COALESCE(unidade, '')`. */
  function StockGroups(lots: seq<Lot>, descricao: Option<string>, unidade: Option<string>, venc: Option<string>, today: int): seq<Group> {
    var kept := Where(lots, Needle(descricao), UnitFilter(unidade));
    SortBy(KeepGroups(Aggregate(kept), ParseVenc(venc), today), GroupLe)
  }

  /** One row of the response. */
  datatype StockRow = StockRow(descricao: string, unidade: string, quantidadeTotal: int, proximoVencimento: Option<int>)

  /** `COALESCE(unidade, '')`: the NULL unit and the empty unit show alike but stay separate groups. */
  function RowOf(g: Group): StockRow {
    StockRow(g.key.descricao, g.key.unidade.GetOr(""), g.total, g.nextExpiry)
  }

  function Stock(lots: seq<Lot>, descricao: Option<string>, unidade: Option<string>, venc: Option<string>, today: int): (r: seq<StockRow>)
    ensures |r| == |StockGroups(lots, descricao, unidade, venc, today)|
  {
    var groups := StockGroups(lots, descricao, unidade, venc, today);
    seq(|groups|, i requires 0 <= i < |groups| => RowOf(groups[i]))
  }

  /** Two values that are both the least expiry of a key are the same value. */
  lemma IsMinExpiryUnique(lots: seq<Lot>, k: Key, m1: Option<int>, m2: Option<int>)
    requires IsMinExpiry(lots, k, m1) && IsMinExpiry(lots, k, m2)
    ensures m1 == m2
  {
    if m1.Some? && m2.Some? {
      var i :| 0 <= i < |lots| && KeyOf(lots[i]) == k && lots[i].validade == m1;
      var j :| 0 <= j < |lots| && KeyOf(lots[j]) == k && lots[j].validade == m2;
    }
  }

  /** The group `g` is the summary of key `g.key` over `kept` and passes the filter. */
  predicate Reported(kept: seq<Lot>, f: ExpiryFilter, today: int, g: Group) {
    && HasKey(kept, g.key)
    && g.total == KeyTotal(kept, g.key)
    && IsMinExpiry(kept, g.key, g.nextExpiry)
    && Having(f, g, today)
  }

  /** Reordering groups with distinct keys keeps their keys distinct. */
  lemma DistinctKeysPermutation(a: seq<Group>, b: seq<Group>)
    requires multiset(a) == multiset(b) && DistinctKeys(a)
    ensures DistinctKeys(b)
  {
    assert Distinct(a);
    DistinctPermutation(a, b);
    forall i, j | 0 <= i < j < |b| ensures b[i].key != b[j].key {
      SameMembers(b, a, b[i]);
      SameMembers(b, a, b[j]);
      var p :| 0 <= p < |a| && a[p] == b[i];
      var q :| 0 <= q < |a| && a[q] == b[j];
      assert p != q;
    }
  }

  /** `GET /api/estoque` lists its groups by description, one per key. */
  lemma StockGroupsOrdered(lots: seq<Lot>, descricao: Option<string>, unidade: Option<string>, venc: Option<string>, today: int)
    ensures var r := StockGroups(lots, descricao, unidade, venc, today);
      SortedBy(r, GroupLe) && DistinctKeys(r)
  {
    var kept := Where(lots, Needle(descricao), UnitFilter(unidade));
    var filtered := KeepGroups(Aggregate(kept), ParseVenc(venc), today);
    GroupLeIsTotalPreorder();
    SortBySorted(filtered, GroupLe);
    AggregateDistinct(kept);
    KeepGroupsDistinct(Aggregate(kept), ParseVenc(venc), today);
    DistinctKeysPermutation(filtered, SortBy(filtered, GroupLe));
  }

  /**
   * `GET /api/estoque` lists a group exactly when it summarizes, with the sum
   * and the least expiry of its lots, a key present among the lots the WHERE
   * clause keeps, and the HAVING clause keeps it.
   */
  lemma StockGroupsMembers(lots: seq<Lot>, descricao: Option<string>, unidade: Option<string>, venc: Option<string>, today: int, g: Group)
    ensures g in StockGroups(lots, descricao, unidade, venc, today)
        <==> Reported(Where(lots, Needle(descricao), UnitFilter(unidade)), ParseVenc(venc), today, g)
  {
    var kept := Where(lots, Needle(descricao), UnitFilter(unidade));
    var f := ParseVenc(venc);
    var groups := Aggregate(kept);
    var filtered := KeepGroups(groups, f, today);
    SameMembers(SortBy(filtered, GroupLe), filtered, g);
    KeepGroupsMembers(groups, f, today, g);
    AggregateDistinct(kept);
    AggregateFind(kept, g.key);
    if g in groups {
      FindMember(groups, g);
    }
    if Reported(kept, f, today, g) {
      var h := Find(groups, g.key).value;
      IsMinExpiryUnique(kept, g.key, h.nextExpiry, g.nextExpiry);
      assert h == g;
    }
  }

  // ---------------------------------------------------------------------------
  // GET /api/estoque/lotes

  /** `ORDER BY validade ASC` in MySQL: NULL sorts before every date. */
  predicate NullsFirstLe(a: Option<int>, b: Option<int>) {
    a.None? || (b.Some? && a.value <= b.value)
  }

  function LotLe(a: Lot, b: Lot): bool {
    NullsFirstLe(a.validade, b.validade)
  }

  lemma LotLeIsTotalPreorder()
    ensures TotalPreorder(LotLe)
  {
  }

  function SameDescription(lots: seq<Lot>, descricao: string): (r: seq<Lot>)
    ensures |r| <= |lots|
  {
    if lots == [] then []
    else
      var n := |lots| - 1;
      SameDescription(lots[..n], descricao) + (if lots[n].descricao == descricao then [lots[n]] else [])
  }

  /** The lots of the description given (`descricao || ''`, compared exactly), undated first, then by date. */
  function LotPreview(lots: seq<Lot>, descricao: Option<string>): seq<Lot> {
    SortBy(SameDescription(lots, descricao.GetOr("")), LotLe)
  }

  /** The lots of a description, counted with their repetitions. */
  lemma {:induction false} SameDescriptionCount(lots: seq<Lot>, descricao: string, l: Lot)
    ensures multiset(SameDescription(lots, descricao))[l] == if l.descricao == descricao then multiset(lots)[l] else 0
  {
    if lots != [] {
      var n := |lots| - 1;
      SameDescriptionCount(lots[..n], descricao, l);
      assert lots == lots[..n] + [lots[n]];
    }
  }

  /**
   * `GET /api/estoque/lotes` returns every lot of the description, whatever
   * its quantity, each as often as it is stored, with undated lots first and
   * dated ones by ascending date.
   */
  lemma LotPreviewSpec(lots: seq<Lot>, descricao: Option<string>)
    ensures var r := LotPreview(lots, descricao);
      && SortedBy(r, LotLe)
      && forall l :: multiset(r)[l] == if l.descricao == descricao.GetOr("") then multiset(lots)[l] else 0
  {
    LotLeIsTotalPreorder();
    SortBySorted(SameDescription(lots, descricao.GetOr("")), LotLe);
    forall l ensures multiset(LotPreview(lots, descricao))[l] == if l.descricao == descricao.GetOr("") then multiset(lots)[l] else 0 {
      SameDescriptionCount(lots, descricao.GetOr(""), l);
    }
  }

  /** The preview orders an undated lot before a dated one, where the allocation query puts it after. */
  lemma PreviewOrderDiffers(dated: Option<int>, undated: Option<int>)
    requires dated.Some? && undated.None?
    ensures NullsFirstLe(undated, dated) && !NullsFirstLe(dated, undated)
    ensures ExpiryLe(dated, undated) && !ExpiryLe(undated, dated)
  {
  }
}
