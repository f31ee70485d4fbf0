/**
 * The detailed accountability report (assets/js/relatorio-prestacao.js): the
 * rows of `GET /api/relatorios/prestacao_detalhada`, one per distributed item,
 * are grouped by distribution in order of first appearance, and the CSV export
 * writes an unquoted header and then one quoted line per item, group by group.
 */
module PrestacaoReport {
  import opened Wrappers
  import opened Text
  import opened JsValues
  import opened Csv
  import opened Sorting

  /** One row of the answer: the distribution's fields, then the item's. */
  datatype DetailRow = DetailRow(
    idSaida: JsValue, dataSaida: JsValue, observacoes: JsValue, instituicaoId: JsValue, instituicao: JsValue,
    itemId: JsValue, descricao: JsValue, quantidade: JsValue, unidade: JsValue, validade: JsValue)

  datatype Item = Item(itemId: JsValue, descricao: JsValue, quantidade: JsValue, unidade: JsValue, validade: JsValue)

  /** A distribution with its items, as `groupBySaida` builds it. */
  datatype Saida = Saida(
    idSaida: JsValue, dataSaida: JsValue, observacoes: JsValue, instituicaoId: JsValue, instituicao: JsValue,
    itens: seq<Item>)

  function ItemOf(r: DetailRow): Item {
    Item(r.itemId, r.descricao, r.quantidade, r.unidade, r.validade)
  }

  /** The group a row opens: its distribution fields and no items yet. */
  function HeaderOf(r: DetailRow): Saida {
    Saida(r.idSaida, r.dataSaida, r.observacoes, r.instituicaoId, r.instituicao, [])
  }

  // ---------------------------------------------------------------------------
  // What grouping should give

  /** The distribution ids of the rows, each once, in order of first appearance. */
  function FirstIds(rows: seq<DetailRow>): (ids: seq<JsValue>)
    ensures rows != [] ==> ids != []
    decreases |rows|
  {
    if rows == [] then []
    else
      var ids := FirstIds(rows[..|rows| - 1]);
      var sid := rows[|rows| - 1].idSaida;
      if sid in ids then ids else ids + [sid]
  }

  /** An id is listed exactly when some row carries it. */
  lemma {:induction false} FirstIdsMembers(rows: seq<DetailRow>, sid: JsValue)
    ensures sid in FirstIds(rows) <==> exists k :: 0 <= k < |rows| && rows[k].idSaida == sid
    decreases |rows|
  {
    if rows != [] {
      var p := rows[..|rows| - 1];
      FirstIdsMembers(p, sid);
      if exists k :: 0 <= k < |p| && p[k].idSaida == sid {
        var k :| 0 <= k < |p| && p[k].idSaida == sid;
        assert rows[k].idSaida == sid;
      }
      if exists k :: 0 <= k < |rows| && rows[k].idSaida == sid {
        var k :| 0 <= k < |rows| && rows[k].idSaida == sid;
        if k < |p| {
          assert p[k].idSaida == sid;
        }
      }
    }
  }

  /** No id is listed twice. */
  lemma {:induction false} FirstIdsDistinct(rows: seq<DetailRow>)
    ensures Distinct(FirstIds(rows))
    decreases |rows|
  {
    if rows != [] {
      FirstIdsDistinct(rows[..|rows| - 1]);
    }
  }

  /** The position of the first row with a listed id. */
  function FirstPos(rows: seq<DetailRow>, sid: JsValue): (pos: nat)
    requires sid in FirstIds(rows)
    ensures pos < |rows| && rows[pos].idSaida == sid
    decreases |rows|
  {
    var p := rows[..|rows| - 1];
    if sid in FirstIds(p) then
      var pos := FirstPos(p, sid);
      assert rows[pos] == p[pos];
      pos
    else |rows| - 1
  }

  /** No row before the first one carries its id. */
  lemma {:induction false} FirstPosFirst(rows: seq<DetailRow>, sid: JsValue, k: nat)
    requires sid in FirstIds(rows) && k < FirstPos(rows, sid)
    ensures rows[k].idSaida != sid
    decreases |rows|
  {
    var p := rows[..|rows| - 1];
    if sid in FirstIds(p) {
      FirstPosFirst(p, sid, k);
      assert p[k] == rows[k];
    } else {
      FirstIdsMembers(p, sid);
      assert p[k] == rows[k];
    }
  }

  /** The ids are listed in the order their first rows come in. */
  lemma {:induction false} FirstIdsOrder(rows: seq<DetailRow>, i: nat, j: nat)
    requires i < j < |FirstIds(rows)|
    ensures FirstPos(rows, FirstIds(rows)[i]) < FirstPos(rows, FirstIds(rows)[j])
    decreases |rows|
  {
    var p := rows[..|rows| - 1];
    var ids := FirstIds(p);
    if j < |ids| {
      FirstIdsOrder(p, i, j);
    } else {
      assert FirstPos(rows, FirstIds(rows)[i]) == FirstPos(p, ids[i]);
    }
  }

  /** The items of the rows with one id, in row order. */
  function ItemsWith(rows: seq<DetailRow>, sid: JsValue): (r: seq<Item>)
    ensures |r| <= |rows|
    decreases |rows|
  {
    if rows == [] then []
    else
      var last := rows[|rows| - 1];
      ItemsWith(rows[..|rows| - 1], sid) + (if last.idSaida == sid then [ItemOf(last)] else [])
  }

  lemma {:induction false} ItemsWithAbsent(rows: seq<DetailRow>, sid: JsValue)
    requires sid !in FirstIds(rows)
    ensures ItemsWith(rows, sid) == []
    decreases |rows|
  {
    if rows != [] {
      ItemsWithAbsent(rows[..|rows| - 1], sid);
    }
  }

  /** The group of a listed id: the fields of its first row and the items of all its rows. */
  function GroupOf(rows: seq<DetailRow>, sid: JsValue): Saida
    requires sid in FirstIds(rows)
  {
    HeaderOf(rows[FirstPos(rows, sid)]).(itens := ItemsWith(rows, sid))
  }

  function Grouping(rows: seq<DetailRow>): (r: seq<Saida>)
    ensures |r| == |FirstIds(rows)|
  {
    var ids := FirstIds(rows);
    seq(|ids|, i requires 0 <= i < |ids| => GroupOf(rows, ids[i]))
  }

  function TotalItems(groups: seq<Saida>): nat
    decreases |groups|
  {
    if groups == [] then 0 else TotalItems(groups[..|groups| - 1]) + |groups[|groups| - 1].itens|
  }

  lemma {:induction false} TotalItemsUpdate(groups: seq<Saida>, k: nat, g: Saida)
    requires k < |groups|
    ensures TotalItems(groups[k := g]) == TotalItems(groups) - |groups[k].itens| + |g.itens|
    decreases |groups|
  {
    var u := groups[k := g];
    if k < |groups| - 1 {
      assert u[..|u| - 1] == groups[..|groups| - 1][k := g];
      TotalItemsUpdate(groups[..|groups| - 1], k, g);
    } else {
      assert u[..|u| - 1] == groups[..|groups| - 1];
    }
  }

  lemma TotalItemsAppend(groups: seq<Saida>, g: Saida)
    ensures TotalItems(groups + [g]) == TotalItems(groups) + |g.itens|
  {
    assert (groups + [g])[..|groups|] == groups;
  }

  /** What one more row does to the groups: it joins the group of its id, or opens a new one at the end. */
  lemma GroupStep(p: seq<DetailRow>, r: DetailRow)
    ensures (p + [r])[..|p|] == p
    ensures FirstIds(p + [r]) == if r.idSaida in FirstIds(p) then FirstIds(p) else FirstIds(p) + [r.idSaida]
    ensures forall id :: id in FirstIds(p) && id != r.idSaida ==> GroupOf(p + [r], id) == GroupOf(p, id)
    ensures r.idSaida in FirstIds(p) ==>
      GroupOf(p + [r], r.idSaida) == GroupOf(p, r.idSaida).(itens := GroupOf(p, r.idSaida).itens + [ItemOf(r)])
    ensures r.idSaida !in FirstIds(p) ==> GroupOf(p + [r], r.idSaida) == HeaderOf(r).(itens := [ItemOf(r)])
  {
    var q := p + [r];
    assert q[..|q| - 1] == p;
    forall id | id in FirstIds(p)
      ensures FirstPos(q, id) == FirstPos(p, id) && q[FirstPos(q, id)] == p[FirstPos(p, id)]
    {
    }
    if r.idSaida !in FirstIds(p) {
      ItemsWithAbsent(p, r.idSaida);
    }
  }

  // ---------------------------------------------------------------------------
  // groupBySaida

  /** The state of `groupBySaida` after the rows `p`: the groups so far, and the map from each id to its group's position. */
  ghost predicate Indexed(p: seq<DetailRow>, groups: seq<Saida>, index: map<JsValue, nat>) {
    && groups == Grouping(p)
    && (forall sid :: sid in index <==> sid in FirstIds(p))
    && (forall sid :: sid in index ==> index[sid] < |groups| && FirstIds(p)[index[sid]] == sid)
  }

  /** A row whose id has a group adds its item to that group. */
  lemma JoinStep(p: seq<DetailRow>, groups: seq<Saida>, index: map<JsValue, nat>, r: DetailRow)
    requires Indexed(p, groups, index) && r.idSaida in index
    ensures var k := index[r.idSaida];
      Indexed(p + [r], groups[k := groups[k].(itens := groups[k].itens + [ItemOf(r)])], index)
  {
    GroupStep(p, r);
    var k := index[r.idSaida];
    var ids := FirstIds(p);
    assert FirstIds(p + [r]) == ids;
    var g := groups[k := groups[k].(itens := groups[k].itens + [ItemOf(r)])];
    forall i | 0 <= i < |g| ensures g[i] == Grouping(p + [r])[i] {
      if i != k {
        OtherId(p, i, k);
      }
    }
  }

  /** Two positions of the listed ids hold two different ids. */
  lemma OtherId(p: seq<DetailRow>, i: nat, k: nat)
    requires i < |FirstIds(p)| && k < |FirstIds(p)| && i != k
    ensures FirstIds(p)[i] != FirstIds(p)[k]
  {
    FirstIdsDistinct(p);
  }

  /** A row with a new id opens a group at the end holding its item. */
  lemma OpenStep(p: seq<DetailRow>, groups: seq<Saida>, index: map<JsValue, nat>, r: DetailRow)
    requires Indexed(p, groups, index) && r.idSaida !in index
    ensures Indexed(p + [r], groups + [HeaderOf(r).(itens := [ItemOf(r)])], index[r.idSaida := |groups|])
  {
    GroupStep(p, r);
    var g := groups + [HeaderOf(r).(itens := [ItemOf(r)])];
    var ids := FirstIds(p + [r]);
    forall i | 0 <= i < |g| ensures g[i] == Grouping(p + [r])[i] {
      if i < |groups| {
        assert ids[i] == FirstIds(p)[i];
      }
    }
  }

  /** One row of `groupBySaida`, whichever branch it takes, keeps the state in step with the rows read. */
  lemma RowStep(p: seq<DetailRow>, g0: seq<Saida>, i0: map<JsValue, nat>, r: DetailRow,
                q: seq<DetailRow>, g1: seq<Saida>, i1: map<JsValue, nat>)
    requires Indexed(p, g0, i0) && q == p + [r]
    requires i1 == if r.idSaida in i0 then i0 else i0[r.idSaida := |g0|]
    requires var g := if r.idSaida in i0 then g0 else g0 + [HeaderOf(r)];
      var k := i1[r.idSaida];
      k < |g| && g1 == g[k := g[k].(itens := g[k].itens + [ItemOf(r)])]
    ensures Indexed(q, g1, i1)
    ensures TotalItems(g1) == TotalItems(g0) + 1
  {
    if r.idSaida in i0 {
      var k := i0[r.idSaida];
      JoinStep(p, g0, i0, r);
      TotalItemsUpdate(g0, k, g0[k].(itens := g0[k].itens + [ItemOf(r)]));
    } else {
      var g := g0 + [HeaderOf(r)];
      assert g[|g0|].itens + [ItemOf(r)] == [ItemOf(r)];
      assert g1 == g0 + [HeaderOf(r).(itens := [ItemOf(r)])];
      OpenStep(p, g0, i0, r);
      TotalItemsAppend(g0, HeaderOf(r).(itens := [ItemOf(r)]));
    }
  }

  lemma PrefixStep(rows: seq<DetailRow>, n: nat)
    requires n < |rows|
    ensures rows[..n + 1] == rows[..n] + [rows[n]]
  {
  }

  /**
   * `groupBySaida(rows)`: a `Map` from id to group, filled row by row, read
   * back in insertion order. One group per id in order of first appearance,
   * with the fields of its first row and the items of all its rows in row
   * order; every row lands in exactly one group.
   */
  method GroupBySaida(rows: seq<DetailRow>) returns (groups: seq<Saida>)
    ensures groups == Grouping(rows)
    ensures TotalItems(groups) == |rows|
  {
    var index: map<JsValue, nat> := map[];
    groups := [];
    var n := 0;
    while n < |rows|
      invariant 0 <= n <= |rows|
      invariant Indexed(rows[..n], groups, index)
      invariant TotalItems(groups) == n
    {
      var r := rows[n];
      var sid := r.idSaida;
      ghost var g0 := groups;
      ghost var i0 := index;
      if sid !in index {
        index := index[sid := |groups|];
        groups := groups + [HeaderOf(r)];
      }
      var k := index[sid];
      groups := groups[k := groups[k].(itens := groups[k].itens + [ItemOf(r)])];
      PrefixStep(rows, n);
      RowStep(rows[..n], g0, i0, r, rows[..n + 1], groups, index);
      n := n + 1;
    }
    assert rows[..n] == rows;
  }

  // ---------------------------------------------------------------------------
  // toCsv

  /** The header line: the seven names joined by commas, unquoted. */
  const HeaderNames: seq<string> := ["saida_id", "data_saida", "instituicao", "descricao", "quantidade", "unidade", "validade"]

  /** Names as unquoted fields. */
  function BareCells(names: seq<string>): (r: seq<Cell>)
    ensures |r| == |names| && forall i :: 0 <= i < |r| ==> r[i] == Bare(names[i])
  {
    seq(|names|, i requires 0 <= i < |names| => Bare(names[i]))
  }

  /** `header.join(',')` is the record of the names as unquoted fields, and reads back as the names. */
  lemma BareCellsRecord(names: seq<string>)
    ensures RenderRecord(BareCells(names)) == Join(names, ",")
    ensures Texts(BareCells(names)) == names
  {
    assert Renders(BareCells(names)) == names;
  }

  /** `String(v ?? '')` */
  function Shown(v: JsValue): string {
    ToStr(Coalesce(v, Str("")))
  }

  /** The seven values of an item's line: the distribution id as it is, the other fields with `?? ''`. */
  function DetailValues(s: Saida, it: Item): (r: seq<string>)
    ensures |r| == 7 && r[0] == ToStr(s.idSaida) && r[3] == Shown(it.descricao)
  {
    [ToStr(s.idSaida), Shown(s.dataSaida), Shown(s.instituicao), Shown(it.descricao), Shown(it.quantidade),
     Shown(it.unidade), Shown(it.validade)]
  }

  /** Every value as a quoted field. */
  function QuotedCells(values: seq<string>): (r: seq<Cell>)
    ensures |r| == |values| && forall i :: 0 <= i < |r| ==> r[i] == Quoted(values[i])
  {
    seq(|values|, i requires 0 <= i < |values| => Quoted(values[i]))
  }

  /** The line of one item: each value quoted, inner quotes doubled, joined by commas. */
  function DetailLine(s: Saida, it: Item): string {
    RenderRecord(QuotedCells(DetailValues(s, it)))
  }

  /** The records of one group's items, in item order; a group without items has none. */
  function ItemRecords(s: Saida): (r: seq<seq<Cell>>)
    ensures |r| == |s.itens| && forall i :: 0 <= i < |r| ==> r[i] == QuotedCells(DetailValues(s, s.itens[i]))
  {
    seq(|s.itens|, i requires 0 <= i < |s.itens| => QuotedCells(DetailValues(s, s.itens[i])))
  }

  /** The records of all items, group by group. */
  function Body(saidas: seq<Saida>): (r: seq<seq<Cell>>)
    ensures |r| == TotalItems(saidas)
    ensures forall k :: 0 <= k < |r| ==> |r[k]| == 7 && forall c :: 0 <= c < 7 ==> r[k][c].Quoted?
    decreases |saidas|
  {
    if saidas == [] then []
    else Body(saidas[..|saidas| - 1]) + ItemRecords(saidas[|saidas| - 1])
  }

  /** The values a reader finds, one list per item, group by group. */
  function Table(saidas: seq<Saida>): seq<seq<string>>
    decreases |saidas|
  {
    if saidas == [] then []
    else
      var s := saidas[|saidas| - 1];
      Table(saidas[..|saidas| - 1]) + ItemTable(s)
  }

  lemma RenderRecordsAppend(a: seq<seq<Cell>>, b: seq<seq<Cell>>)
    ensures RenderRecords(a + b) == RenderRecords(a) + RenderRecords(b)
  {
    assert forall k :: 0 <= k < |b| ==> (a + b)[|a| + k] == b[k];
  }

  /** The lines of one group's items. */
  function ItemLines(s: Saida): (r: seq<string>)
    ensures |r| == |s.itens|
  {
    seq(|s.itens|, i requires 0 <= i < |s.itens| => DetailLine(s, s.itens[i]))
  }

  /** The lines of all items, group by group. */
  function BodyLines(saidas: seq<Saida>): seq<string>
    decreases |saidas|
  {
    if saidas == [] then [] else BodyLines(saidas[..|saidas| - 1]) + ItemLines(saidas[|saidas| - 1])
  }

  lemma {:induction false} BodyLinesRender(saidas: seq<Saida>)
    ensures BodyLines(saidas) == RenderRecords(Body(saidas))
    decreases |saidas|
  {
    if saidas != [] {
      var init := saidas[..|saidas| - 1];
      var s := saidas[|saidas| - 1];
      BodyLinesRender(init);
      RenderRecordsAppend(Body(init), ItemRecords(s));
      assert ItemLines(s) == RenderRecords(ItemRecords(s));
    }
  }

  /** One more group appends its item lines after those of the groups before it. */
  lemma BodyLinesStep(lines: seq<string>, saidas: seq<Saida>, i: nat)
    requires i < |saidas|
    ensures lines + BodyLines(saidas[..i + 1]) == (lines + BodyLines(saidas[..i])) + ItemLines(saidas[i])
  {
    assert saidas[..i + 1][..i] == saidas[..i];
  }

  /** One more item appends its line after those of the items before it. */
  lemma ItemLinesStep(lines: seq<string>, s: Saida, j: nat)
    requires j < |s.itens|
    ensures lines + ItemLines(s)[..j + 1] == (lines + ItemLines(s)[..j]) + [DetailLine(s, s.itens[j])]
  {
    assert ItemLines(s)[..j + 1] == ItemLines(s)[..j] + [DetailLine(s, s.itens[j])];
  }

  /** `s.itens.forEach(it => lines.push(...))`: the lines of one group's items, appended in item order. */
  method PushItemLines(lines: seq<string>, s: Saida) returns (r: seq<string>)
    ensures r == lines + ItemLines(s)
  {
    r := lines;
    var j := 0;
    while j < |s.itens|
      invariant 0 <= j <= |s.itens|
      invariant r == lines + ItemLines(s)[..j]
    {
      ItemLinesStep(lines, s, j);
      r := r + [DetailLine(s, s.itens[j])];
      j := j + 1;
    }
    assert ItemLines(s)[..j] == ItemLines(s);
  }

  /** `saidas.forEach(...)`: the lines of every group's items, appended group by group. */
  method PushBodyLines(lines: seq<string>, saidas: seq<Saida>) returns (r: seq<string>)
    ensures r == lines + BodyLines(saidas)
  {
    r := lines;
    var i := 0;
    while i < |saidas|
      invariant 0 <= i <= |saidas|
      invariant r == lines + BodyLines(saidas[..i])
    {
      r := PushItemLines(r, saidas[i]);
      BodyLinesStep(lines, saidas, i);
      i := i + 1;
    }
    assert saidas[..i] == saidas;
  }

  /**
   * `toCsv(saidas)`: the header, then per group and per item one line, all
   * joined by CRLF.
   */
  method DetailCsv(saidas: seq<Saida>) returns (csv: string)
    ensures csv == Join([Join(HeaderNames, ",")] + BodyLines(saidas), "\r\n")
  {
    var lines := PushBodyLines([Join(HeaderNames, ",")], saidas);
    csv := Join(lines, "\r\n");
  }

  /** The names of the header are plain text, so they stand as bare fields. */
  lemma HeaderWellFormed()
    ensures WellFormedRecord(BareCells(HeaderNames))
  {
    var h := BareCells(HeaderNames);
    assert PlainText("saida_id") && PlainText("data_saida") && PlainText("instituicao");
    assert PlainText("descricao") && PlainText("quantidade") && PlainText("unidade") && PlainText("validade");
    WideRecord(h);
  }

  /** The values of one group's items. */
  function ItemTable(s: Saida): (r: seq<seq<string>>)
    ensures |r| == |s.itens|
  {
    seq(|s.itens|, i requires 0 <= i < |s.itens| => DetailValues(s, s.itens[i]))
  }

  lemma TextsAllAppend(a: seq<seq<Cell>>, b: seq<seq<Cell>>)
    ensures TextsAll(a + b) == TextsAll(a) + TextsAll(b)
  {
    assert forall k :: 0 <= k < |b| ==> (a + b)[|a| + k] == b[k];
  }

  lemma ItemTexts(s: Saida)
    ensures TextsAll(ItemRecords(s)) == ItemTable(s)
  {
    var b := ItemRecords(s);
    forall i | 0 <= i < |b| ensures TextsAll(b)[i] == ItemTable(s)[i] {
      assert Texts(b[i]) == DetailValues(s, s.itens[i]);
    }
  }

  lemma {:induction false} TextsOfBody(saidas: seq<Saida>)
    ensures TextsAll(Body(saidas)) == Table(saidas)
    decreases |saidas|
  {
    if saidas != [] {
      var init := saidas[..|saidas| - 1];
      var s := saidas[|saidas| - 1];
      TextsOfBody(init);
      TextsAllAppend(Body(init), ItemRecords(s));
      ItemTexts(s);
    }
  }

  lemma BodyWellFormed(saidas: seq<Saida>)
    ensures forall k :: 0 <= k < |Body(saidas)| ==> WellFormedRecord(Body(saidas)[k])
  {
    var body := Body(saidas);
    forall k | 0 <= k < |body| ensures WellFormedRecord(body[k]) {
      QuotedRecord(body[k]);
    }
  }

  lemma TextsAllCons(h: seq<Cell>, b: seq<seq<Cell>>)
    ensures TextsAll([h] + b) == [Texts(h)] + TextsAll(b)
  {
    var t := TextsAll([h] + b);
    var u := [Texts(h)] + TextsAll(b);
    forall k | 0 <= k < |t| ensures t[k] == u[k] {
      if k > 0 {
        assert ([h] + b)[k] == b[k - 1];
      }
    }
  }

  /** A header of plain names followed by the item lines reads back as the names, then the values of every item. */
  lemma HeaderThenItemsReads(names: seq<string>, saidas: seq<Saida>)
    requires WellFormedRecord(BareCells(names))
    ensures Records(Join([Join(names, ",")] + BodyLines(saidas), "\r\n")) == Some([names] + Table(saidas))
  {
    var h := BareCells(names);
    BareCellsRecord(names);
    var body := Body(saidas);
    BodyLinesRender(saidas);
    RenderRecordsAppend([h], body);
    assert RenderRecords([h]) == [RenderRecord(h)];
    BodyWellFormed(saidas);
    RecordsOf([h] + body);
    TextsAllCons(h, body);
    TextsOfBody(saidas);
  }

  /** Reading the export back gives the seven names, then the values of every item, group by group, each description as it was. */
  lemma DetailCsvReads(saidas: seq<Saida>)
    ensures Records(Join([Join(HeaderNames, ",")] + BodyLines(saidas), "\r\n")) == Some([HeaderNames] + Table(saidas))
  {
    HeaderWellFormed();
    HeaderThenItemsReads(HeaderNames, saidas);
  }

  /**
   * The export button: `groupBySaida(rows || [])`, then an alert and nothing
   * written when there is no group, else the CSV of the groups, one line per
   * row after the header.
   */
  method ExportDetail(rows: Option<seq<DetailRow>>) returns (r: Option<string>)
    ensures r.None? <==> rows.None? || rows.value == []
    ensures r.Some? ==> Records(r.value) == Some([HeaderNames] + Table(Grouping(rows.value)))
    ensures r.Some? ==> |Table(Grouping(rows.value))| == |rows.value|
  {
    var grouped := GroupBySaida(rows.GetOr([]));
    if grouped == [] {
      r := None;
    } else {
      var csv := DetailCsv(grouped);
      DetailCsvReads(grouped);
      TableSize(grouped);
      r := Some(csv);
    }
  }

  lemma TableSize(saidas: seq<Saida>)
    ensures |Table(saidas)| == TotalItems(saidas)
  {
    TextsOfBody(saidas);
  }

  // ---------------------------------------------------------------------------
  // The line as written

  /** The values as the script writes them: the description has its quotes doubled once before the quoting of every field doubles them again. */
  function AsWrittenValues(s: Saida, it: Item): (r: seq<string>)
    ensures |r| == 7 && r[3] == DoubleQuotes(Shown(it.descricao))
  {
    DetailValues(s, it)[3 := DoubleQuotes(Shown(it.descricao))]
  }

  function DetailLineAsWritten(s: Saida, it: Item): string {
    RenderRecord(QuotedCells(AsWrittenValues(s, it)))
  }

  /** A line of quoted fields reads back as its values. */
  lemma LineReads(values: seq<string>)
    requires values != []
    ensures Records(RenderRecord(QuotedCells(values))) == Some([values])
  {
    var cells := QuotedCells(values);
    QuotedRecord(cells);
    RecordsOf([cells]);
    assert RenderRecords([cells]) == [RenderRecord(cells)];
    assert Document([cells]) == RenderRecord(cells);
    assert Texts(cells) == values;
    assert TextsAll([cells]) == [values];
  }

  lemma {:induction false} DoubleQuotesLonger(t: string)
    requires '"' in t
    ensures |DoubleQuotes(t)| > |t|
  {
    if t[0] != '"' {
      DoubleQuotesLonger(t[1..]);
    }
  }

  /** The corrected line gives back every description as it was. */
  lemma DetailLineReads(s: Saida, it: Item)
    ensures Records(DetailLine(s, it)) == Some([DetailValues(s, it)])
    ensures Records(DetailLine(s, it)).value[0][3] == Shown(it.descricao)
  {
    LineReads(DetailValues(s, it));
  }

  /** As written, a description holding a double quote reads back changed: every quote in it comes back doubled. */
  lemma AsWrittenChangesDescription(s: Saida, it: Item)
    requires '"' in Shown(it.descricao)
    ensures Records(DetailLineAsWritten(s, it)) == Some([AsWrittenValues(s, it)])
    ensures Records(DetailLineAsWritten(s, it)).value[0][3] != Shown(it.descricao)
  {
    LineReads(AsWrittenValues(s, it));
    DoubleQuotesLonger(Shown(it.descricao));
  }

  /** Text without a double quote is left as it is by the doubling. */
  lemma {:induction false} DoubleQuotesPlain(t: string)
    requires '"' !in t
    ensures DoubleQuotes(t) == t
  {
    if t != [] {
      DoubleQuotesPlain(t[1..]);
      assert [t[0]] + t[1..] == t;
    }
  }

  /**
   * The line as written and the corrected line are the same text exactly
   * when the description holds no double quote: the corrected export is the
   * script's export on every other item.
   */
  lemma AsWrittenLineAgrees(s: Saida, it: Item)
    ensures DetailLineAsWritten(s, it) == DetailLine(s, it) <==> '"' !in Shown(it.descricao)
  {
    var t := Shown(it.descricao);
    if '"' !in t {
      DoubleQuotesPlain(t);
      assert AsWrittenValues(s, it) == DetailValues(s, it);
    } else {
      DetailLineReads(s, it);
      AsWrittenChangesDescription(s, it);
    }
  }
}
