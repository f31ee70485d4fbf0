/**
 * The entries report page (assets/js/relatorio-entradas.js): its CSV export
 * has the five column labels as header and one record per row, where the
 * donation date is written in the local format when it is set, and a null or
 * missing value is an empty, unquoted field. Nothing is exported for no rows.
 */
module EntradasReport {
  import opened Wrappers
  import opened JsValues
  import opened Csv
  import opened Reports

  /** The five columns of the page, in the order shown. */
  const Columns: seq<Column> := [
    Column("data_doacao", "Data Doação"), Column("parceiro", "Parceiro"), Column("descricao", "Descrição"),
    Column("unidade", "Unidade"), Column("total_quantidade", "Total Quantidade")]

  /**
   * The value written for one cell: `r[c.key]`, except that a set donation
   * date becomes `new Date(v).toLocaleDateString('pt-BR')`, given here as
   * `localDate`.
   */
  function CellOf(row: Row, c: Column, localDate: JsValue -> string): (v: JsValue)
    ensures c.key != "data_doacao" ==> v == Get(row, c.key)
    ensures c.key == "data_doacao" && Falsy(Get(row, c.key)) ==> v == Get(row, c.key)
  {
    var v := Get(row, c.key);
    if c.key == "data_doacao" && !Falsy(v) then Str(localDate(v)) else v
  }

  function LabelCells(cols: seq<Column>): (r: seq<Cell>)
    ensures |r| == |cols| && forall i :: 0 <= i < |r| ==> r[i] == Quoted(cols[i].heading)
  {
    seq(|cols|, i requires 0 <= i < |cols| => EscapeCell(Str(cols[i].heading)))
  }

  /** `escape(v)` of each cell of a row. */
  function RowCells(row: Row, cols: seq<Column>, localDate: JsValue -> string): (r: seq<Cell>)
    ensures |r| == |cols| && forall i :: 0 <= i < |r| ==> WellFormedCell(r[i])
    ensures forall i :: 0 <= i < |r| ==> Render(r[i]) == Escape(CellOf(row, cols[i], localDate))
  {
    seq(|cols|, i requires 0 <= i < |cols| => EscapeCell(CellOf(row, cols[i], localDate)))
  }

  function RowRecords(rows: seq<Row>, cols: seq<Column>, localDate: JsValue -> string): (r: seq<seq<Cell>>)
    ensures |r| == |rows| && forall j :: 0 <= j < |rows| ==> r[j] == RowCells(rows[j], cols, localDate)
  {
    seq(|rows|, j requires 0 <= j < |rows| => RowCells(rows[j], cols, localDate))
  }

  /** `toCsv(rows, cols)`: the escaped labels, CRLF, then one record per row joined by CRLF. */
  function ToCsv(rows: seq<Row>, cols: seq<Column>, localDate: JsValue -> string): string {
    RenderRecord(LabelCells(cols)) + "\r\n" + Document(RowRecords(rows, cols, localDate))
  }

  /** What a reader finds in a cell: the written value, or the empty text for null and undefined. */
  function ReadValue(v: JsValue): (r: string)
    ensures Nullish(v) ==> r == ""
  {
    if Nullish(v) then "" else ToStr(v)
  }

  function Table(rows: seq<Row>, cols: seq<Column>, localDate: JsValue -> string): (r: seq<seq<string>>)
    ensures |r| == |rows|
    ensures forall j :: 0 <= j < |rows| ==> |r[j]| == |cols|
    ensures forall j, i :: 0 <= j < |rows| && 0 <= i < |cols| ==> r[j][i] == ReadValue(CellOf(rows[j], cols[i], localDate))
  {
    seq(|rows|, j requires 0 <= j < |rows| =>
      seq(|cols|, i requires 0 <= i < |cols| => ReadValue(CellOf(rows[j], cols[i], localDate))))
  }

  /**
   * Reading the export back gives the labels, then each row's values in
   * column order. It needs two columns or more: with one, a row whose only
   * value is null would be an empty line.
   */
  lemma ToCsvReads(rows: seq<Row>, cols: seq<Column>, localDate: JsValue -> string)
    requires |cols| >= 2
    ensures Records(ToCsv(rows, cols, localDate)) == Some([Labels(cols)] + Table(rows, cols, localDate))
  {
    var header := LabelCells(cols);
    var body := RowRecords(rows, cols, localDate);
    QuotedRecord(header);
    forall j | 0 <= j < |body| ensures WellFormedRecord(body[j]) {
      WideRecord(body[j]);
    }
    HeaderThenBody(header, body);
    assert Texts(header) == Labels(cols);
    forall j | 0 <= j < |body| ensures TextsAll(body)[j] == Table(rows, cols, localDate)[j] {
      forall i | 0 <= i < |cols| ensures body[j][i].text == ReadValue(CellOf(rows[j], cols[i], localDate)) {
        assert body[j][i] == EscapeCell(CellOf(rows[j], cols[i], localDate));
      }
      assert Texts(body[j]) == Table(rows, cols, localDate)[j];
    }
    assert TextsAll(body) == Table(rows, cols, localDate);
  }

  /** The page's export reads back, per row, the date in local format when it is set, and the other values as they came. */
  lemma TableColumns(rows: seq<Row>, localDate: JsValue -> string)
    ensures var t := Table(rows, Columns, localDate);
      forall j :: 0 <= j < |rows| ==>
        && t[j][0] == (if Falsy(Get(rows[j], "data_doacao")) then ReadValue(Get(rows[j], "data_doacao")) else localDate(Get(rows[j], "data_doacao")))
        && t[j][1] == ReadValue(Get(rows[j], "parceiro"))
        && t[j][2] == ReadValue(Get(rows[j], "descricao"))
        && t[j][3] == ReadValue(Get(rows[j], "unidade"))
        && t[j][4] == ReadValue(Get(rows[j], "total_quantidade"))
  {
    var t := Table(rows, Columns, localDate);
    assert Columns[0].key == "data_doacao" && Columns[1].key == "parceiro" && Columns[2].key == "descricao";
    assert Columns[3].key == "unidade" && Columns[4].key == "total_quantidade";
    forall j | 0 <= j < |rows|
      ensures t[j][0] == (if Falsy(Get(rows[j], "data_doacao")) then ReadValue(Get(rows[j], "data_doacao")) else localDate(Get(rows[j], "data_doacao")))
      ensures t[j][1] == ReadValue(Get(rows[j], "parceiro"))
      ensures t[j][2] == ReadValue(Get(rows[j], "descricao"))
      ensures t[j][3] == ReadValue(Get(rows[j], "unidade"))
      ensures t[j][4] == ReadValue(Get(rows[j], "total_quantidade"))
    {
      assert t[j][0] == ReadValue(CellOf(rows[j], Columns[0], localDate));
      assert t[j][1] == ReadValue(CellOf(rows[j], Columns[1], localDate));
      assert t[j][2] == ReadValue(CellOf(rows[j], Columns[2], localDate));
      assert t[j][3] == ReadValue(CellOf(rows[j], Columns[3], localDate));
      assert t[j][4] == ReadValue(CellOf(rows[j], Columns[4], localDate));
    }
  }

  /** `doExport(rows)`: an alert and nothing written when the rows are null or empty. */
  function DoExport(rows: Option<seq<Row>>, localDate: JsValue -> string): (r: Option<string>)
    ensures r.None? <==> rows.None? || rows.value == []
    ensures r.Some? ==> Records(r.value) == Some([Labels(Columns)] + Table(rows.value, Columns, localDate))
  {
    if rows.None? || rows.value == [] then None
    else
      ToCsvReads(rows.value, Columns, localDate);
      Some(ToCsv(rows.value, Columns, localDate))
  }
}
