/**
 * What the report pages share (assets/js/relatorios.js and the three report
 * pages): the period heading, and the CSV export of the reports page, whose
 * cells are every column of every row, quoted, with a missing or null cell
 * written as an empty quoted field. Reading the export back gives the column
 * names and then the rows' values.
 */
module Reports {
  import opened Wrappers
  import opened Text
  import opened JsValues
  import opened Csv

  /**
   * The heading of a report page for the `start` and `end` query parameters
   * (each already `|| ''`): both open ends name the whole history.
   */
  function PeriodText(start: string, end: string): (r: string)
    ensures start == "" && end == "" ==> r == "Período: Todos os registros"
  {
    if start != "" || end != "" then
      "Período: " + (if start != "" then start else "início") + " — " + (if end != "" then end else "fim")
    else "Período: Todos os registros"
  }

  /**
   * The heading shows a range, with its dash, exactly when one of the two
   * ends is given; an open start reads `início` and an open end `fim`.
   */
  lemma PeriodTextRange(start: string, end: string)
    ensures '—' in PeriodText(start, end) <==> start != "" || end != ""
    ensures start != "" && end != "" ==> PeriodText(start, end) == "Período: " + start + " — " + end
    ensures start == "" && end != "" ==> PeriodText(start, end) == "Período: início — " + end
    ensures start != "" && end == "" ==> PeriodText(start, end) == "Período: " + start + " — fim"
  {
    var r := PeriodText(start, end);
    if start != "" || end != "" {
      var s := if start != "" then start else "início";
      assert r == "Período: " + s + " — " + (if end != "" then end else "fim");
      assert r[9 + |s| + 1] == '—';
    } else {
      assert r == "Período: Todos os registros";
      assert forall i :: 0 <= i < |r| ==> r[i] != '—';
    }
  }

  /** A column of a report page's table: the key it reads and the label it shows. */
  datatype Column = Column(key: string, heading: string)

  function Keys(columns: seq<Column>): (r: seq<string>)
    ensures |r| == |columns| && forall i :: 0 <= i < |r| ==> r[i] == columns[i].key
  {
    seq(|columns|, i requires 0 <= i < |columns| => columns[i].key)
  }

  function Labels(columns: seq<Column>): (r: seq<string>)
    ensures |r| == |columns| && forall i :: 0 <= i < |r| ==> r[i] == columns[i].heading
  {
    seq(|columns|, i requires 0 <= i < |columns| => columns[i].heading)
  }

  /** The header record: `escape(c)` of each column name. */
  function HeaderCells(columns: seq<string>): (r: seq<Cell>)
    ensures |r| == |columns| && forall i :: 0 <= i < |r| ==> r[i] == Quoted(columns[i])
  {
    seq(|columns|, i requires 0 <= i < |columns| => EscapeCell(Str(columns[i])))
  }

  /** `String(r[c] ?? '')` */
  function CellValue(row: Row, c: string): string {
    ToStr(Coalesce(Get(row, c), Str("")))
  }

  /** The record of one row: `escape(r[col] ?? '')` of each column, so every cell is quoted and a null one is empty. */
  function BodyCells(row: Row, columns: seq<string>): (r: seq<Cell>)
    ensures |r| == |columns|
    ensures forall i :: 0 <= i < |r| ==> r[i] == Quoted(CellValue(row, columns[i]))
    ensures forall i :: 0 <= i < |r| ==> Nullish(Get(row, columns[i])) ==> Render(r[i]) == "\"\""
  {
    seq(|columns|, i requires 0 <= i < |columns| => EscapeCell(Coalesce(Get(row, columns[i]), Str(""))))
  }

  function BodyRecords(rows: seq<Row>, columns: seq<string>): (r: seq<seq<Cell>>)
    ensures |r| == |rows| && forall j :: 0 <= j < |rows| ==> r[j] == BodyCells(rows[j], columns)
  {
    seq(|rows|, j requires 0 <= j < |rows| => BodyCells(rows[j], columns))
  }

  /** `toCsv(rows, columns)`: the header, CRLF, then one record per row joined by CRLF (no rows leave a trailing CRLF). */
  function ToCsv(rows: seq<Row>, columns: seq<string>): string {
    RenderRecord(HeaderCells(columns)) + "\r\n" + Document(BodyRecords(rows, columns))
  }

  /** The values a reader finds in the body: `String(r[c] ?? '')` for each row and column. */
  function Values(rows: seq<Row>, columns: seq<string>): (r: seq<seq<string>>)
    ensures |r| == |rows|
    ensures forall j :: 0 <= j < |rows| ==> |r[j]| == |columns| && forall i :: 0 <= i < |columns| ==> r[j][i] == CellValue(rows[j], columns[i])
  {
    seq(|rows|, j requires 0 <= j < |rows| => seq(|columns|, i requires 0 <= i < |columns| => CellValue(rows[j], columns[i])))
  }

  /**
   * Reading the export back gives the column names, then for each row, in
   * order, one value per column: nothing is lost, split or merged, whatever
   * commas, quotes or line breaks the values hold.
   */
  lemma ToCsvReads(rows: seq<Row>, columns: seq<string>)
    requires columns != []
    ensures Records(ToCsv(rows, columns)) == Some([columns] + Values(rows, columns))
  {
    var header := HeaderCells(columns);
    var body := BodyRecords(rows, columns);
    QuotedRecord(header);
    forall j | 0 <= j < |body| ensures WellFormedRecord(body[j]) {
      QuotedRecord(body[j]);
    }
    HeaderThenBody(header, body);
    assert Texts(header) == columns;
    forall j | 0 <= j < |body| ensures TextsAll(body)[j] == Values(rows, columns)[j] {
      assert Texts(body[j]) == Values(rows, columns)[j];
    }
    assert TextsAll(body) == Values(rows, columns);
  }

  /** `data.map(r => ({ ... }))`: a copy of the row holding only the given keys. */
  function Project(row: Row, columns: seq<string>): (r: Row)
    ensures forall c :: c in columns ==> Get(r, c) == Get(row, c)
  {
    map c | c in columns :: Get(row, c)
  }

  /** Every row copied to the given keys, in order. */
  function ProjectAll(rows: seq<Row>, columns: seq<string>): (r: seq<Row>)
    ensures |r| == |rows| && forall j :: 0 <= j < |rows| ==> r[j] == Project(rows[j], columns)
  {
    seq(|rows|, j requires 0 <= j < |rows| => Project(rows[j], columns))
  }

  /** Copying the rows to the exported keys first does not change the export. */
  lemma ProjectInvisible(rows: seq<Row>, columns: seq<string>)
    ensures ToCsv(ProjectAll(rows, columns), columns) == ToCsv(rows, columns)
  {
    var projected := ProjectAll(rows, columns);
    forall j | 0 <= j < |rows| ensures BodyCells(projected[j], columns) == BodyCells(rows[j], columns) {
      assert forall i :: 0 <= i < |columns| ==> Get(projected[j], columns[i]) == Get(rows[j], columns[i]);
    }
    assert BodyRecords(projected, columns) == BodyRecords(rows, columns);
  }

  /** The columns of the three exports of the reports page. */
  const EntradasColumns: seq<string> := ["data_doacao", "parceiro", "descricao", "unidade", "total_quantidade"]
  const SaidasColumns: seq<string> := ["data_saida", "instituicao", "descricao", "unidade", "total_quantidade"]
  const PrestacaoColumns: seq<string> := ["instituicao", "descricao", "unidade", "total_quantidade"]

  /** An export of the reports page: nothing but an alert when the data is null or empty, else the CSV of the rows. */
  function Export(data: Option<seq<Row>>, columns: seq<string>): (r: Option<string>)
    ensures r.None? <==> data.None? || data.value == []
  {
    if data.None? || data.value == [] then None else Some(ToCsv(data.value, columns))
  }

  /** The entries export copies each row to its five columns before writing it. */
  function ExportEntradas(data: Option<seq<Row>>): (r: Option<string>)
    ensures r == Export(data, EntradasColumns)
  {
    if data.None? || data.value == [] then None
    else
      var rows := data.value;
      ProjectInvisible(rows, EntradasColumns);
      Some(ToCsv(ProjectAll(rows, EntradasColumns), EntradasColumns))
  }

  /** An export that is written reads back as its header and its rows. */
  lemma ExportReads(data: Option<seq<Row>>, columns: seq<string>)
    requires columns != []
    ensures Export(data, columns).Some? ==> Records(Export(data, columns).value) == Some([columns] + Values(data.value, columns))
  {
    if data.Some? {
      ToCsvReads(data.value, columns);
    }
  }
}
