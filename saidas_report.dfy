/**
 * The distributions report page (assets/js/relatorio-saidas.js): its CSV
 * export writes the five labels bare as header, then one record per row with
 * every value quoted, a null or missing one as an empty quoted field, and the
 * distribution date as it came from the server.
 */
module SaidasReport {
  import opened Wrappers
  import opened JsValues
  import opened Csv
  import opened Reports

  const Columns: seq<Column> := [
    Column("data_saida", "Data Saída"), Column("instituicao", "Instituição"), Column("descricao", "Descrição"),
    Column("unidade", "Unidade"), Column("total_quantidade", "Quantidade")]

  /** `cols.join(',')`: the labels as bare fields. */
  function HeaderCells(cols: seq<Column>): (r: seq<Cell>)
    ensures |r| == |cols| && forall i :: 0 <= i < |r| ==> r[i] == Bare(cols[i].heading)
  {
    seq(|cols|, i requires 0 <= i < |cols| => Bare(cols[i].heading))
  }

  /** The export of the page: the bare labels, CRLF, then `"${String(row[k] ?? '')}"` per key, records joined by CRLF. */
  function ExportCsv(rows: seq<Row>): string {
    RenderRecord(HeaderCells(Columns)) + "\r\n" + Document(BodyRecords(rows, Keys(Columns)))
  }

  /** None of the labels holds a comma, a double quote or a line break, so each is a valid bare field. */
  lemma LabelsPlain()
    ensures forall i :: 0 <= i < |Columns| ==> PlainText(Columns[i].heading)
  {
    assert PlainText("Data Saída") && PlainText("Instituição") && PlainText("Descrição");
    assert PlainText("Unidade") && PlainText("Quantidade");
  }

  /** Reading the export back gives the labels, then each row's values as sent, the raw `data_saida` first. */
  lemma CsvReads(rows: seq<Row>)
    ensures Records(ExportCsv(rows)) == Some([Labels(Columns)] + Values(rows, Keys(Columns)))
    ensures forall j :: 0 <= j < |rows| ==> Values(rows, Keys(Columns))[j][0] == CellValue(rows[j], "data_saida")
  {
    var header := HeaderCells(Columns);
    var keys := Keys(Columns);
    var body := BodyRecords(rows, keys);
    LabelsPlain();
    WideRecord(header);
    forall j | 0 <= j < |body| ensures WellFormedRecord(body[j]) {
      QuotedRecord(body[j]);
    }
    HeaderThenBody(header, body);
    assert Texts(header) == Labels(Columns);
    forall j | 0 <= j < |body| ensures TextsAll(body)[j] == Values(rows, keys)[j] {
      assert Texts(body[j]) == Values(rows, keys)[j];
    }
    assert TextsAll(body) == Values(rows, keys);
  }
}
