/**
 * The comma-separated text the report exports write, in the style of section
 * 2 of RFC 4180: records separated by CRLF (rule 1), fields enclosed in double
 * quotes (rule 5) with an inner double quote doubled (rule 7). A reader for
 * that format is the partner every writer is proved against: reading back
 * what a writer produced gives the texts it was given.
 */
module Csv {
  import opened Wrappers
  import opened Text
  import opened JsValues

  /** `s.replace(/"/g, '""')`: every double quote doubled (rule 7). */
  function DoubleQuotes(s: string): (r: string)
    ensures |r| >= |s|
  {
    if s == [] then [] else (if s[0] == '"' then "\"\"" else [s[0]]) + DoubleQuotes(s[1..])
  }

  /** A field enclosed in double quotes, inner quotes doubled (rules 5 and 7). */
  function Quote(s: string): (r: string)
    ensures |r| >= 2 && r[0] == '"'
  {
    "\"" + DoubleQuotes(s) + "\""
  }

  /** The `escape` helper of the exports: null and undefined give an empty, unquoted field; any other value is quoted. */
  function Escape(v: JsValue): (r: string)
    ensures r == "" <==> Nullish(v)
  {
    if Nullish(v) then "" else Quote(ToStr(v))
  }

  /** A field as it is written: quoted, or bare. */
  datatype Cell = Quoted(text: string) | Bare(text: string)

  /** Text that can stand as a bare field: no comma, double quote or line break. */
  predicate PlainText(s: string) {
    forall i :: 0 <= i < |s| ==> s[i] != ',' && s[i] != '"' && s[i] != '\r' && s[i] != '\n'
  }

  predicate WellFormedCell(c: Cell) {
    c.Bare? ==> PlainText(c.text)
  }

  function Render(c: Cell): string {
    if c.Quoted? then Quote(c.text) else c.text
  }

  /** The value `escape` is given, as a cell: quoted unless null or undefined. */
  function EscapeCell(v: JsValue): (c: Cell)
    ensures Render(c) == Escape(v) && WellFormedCell(c)
  {
    if Nullish(v) then Bare("") else Quoted(ToStr(v))
  }

  function Renders(cells: seq<Cell>): (r: seq<string>)
    ensures |r| == |cells| && forall i :: 0 <= i < |cells| ==> r[i] == Render(cells[i])
  {
    seq(|cells|, i requires 0 <= i < |cells| => Render(cells[i]))
  }

  function Texts(cells: seq<Cell>): (r: seq<string>)
    ensures |r| == |cells| && forall i :: 0 <= i < |cells| ==> r[i] == cells[i].text
  {
    seq(|cells|, i requires 0 <= i < |cells| => cells[i].text)
  }

  /** One record: its fields joined by commas. */
  function RenderRecord(cells: seq<Cell>): string {
    Join(Renders(cells), ",")
  }

  /** A record that reads back as itself: at least one field, bare fields plain, and not an empty line. */
  predicate WellFormedRecord(cells: seq<Cell>) {
    && cells != []
    && (forall i :: 0 <= i < |cells| ==> WellFormedCell(cells[i]))
    && RenderRecord(cells) != ""
  }

  function RenderRecords(records: seq<seq<Cell>>): (r: seq<string>)
    ensures |r| == |records| && forall i :: 0 <= i < |records| ==> r[i] == RenderRecord(records[i])
  {
    seq(|records|, i requires 0 <= i < |records| => RenderRecord(records[i]))
  }

  function TextsAll(records: seq<seq<Cell>>): (r: seq<seq<string>>)
    ensures |r| == |records| && forall i :: 0 <= i < |records| ==> r[i] == Texts(records[i])
  {
    seq(|records|, i requires 0 <= i < |records| => Texts(records[i]))
  }

  /** A document: its records joined by CRLF (rule 1). */
  function Document(records: seq<seq<Cell>>): string {
    Join(RenderRecords(records), "\r\n")
  }

  // ---------------------------------------------------------------------------
  // Reading

  /** After an opening quote: the text up to the closing quote, with `""` read as `"`, and what follows the closing quote. */
  function QuotedBody(s: string): (r: Option<(string, string)>)
    ensures r.Some? ==> |r.value.1| < |s|
    decreases |s|
  {
    if s == [] then None
    else if s[0] == '"' then
      if |s| > 1 && s[1] == '"' then
        match QuotedBody(s[2..])
        case None => None
        case Some(p) => Some(("\"" + p.0, p.1))
      else Some(("", s[1..]))
    else
      match QuotedBody(s[1..])
      case None => None
      case Some(p) => Some(([s[0]] + p.0, p.1))
  }

  /** A bare field: the text up to the next comma or carriage return, and what follows. */
  function BareField(s: string): (r: (string, string))
    ensures r.0 + r.1 == s
  {
    if s == [] || s[0] == ',' || s[0] == '\r' then ("", s)
    else
      var p := BareField(s[1..]);
      ([s[0]] + p.0, p.1)
  }

  function Field(s: string): (r: Option<(string, string)>)
    ensures r.Some? ==> |r.value.1| <= |s|
  {
    if s != [] && s[0] == '"' then QuotedBody(s[1..]) else Some(BareField(s))
  }

  /** The fields of one record and the text after it, which is empty or starts with a carriage return. */
  function Fields(s: string): (r: Option<(seq<string>, string)>)
    ensures r.Some? ==> |r.value.1| <= |s|
    decreases |s|
  {
    match Field(s)
    case None => None
    case Some(p) =>
      if p.1 != [] && p.1[0] == ',' then
        match Fields(p.1[1..])
        case None => None
        case Some(q) => Some(([p.0] + q.0, q.1))
      else if p.1 == [] || p.1[0] == '\r' then Some(([p.0], p.1))
      else None
  }

  /** A whole document: records separated by CRLF, the last one optionally followed by CRLF (rules 1 and 2); None when malformed. */
  function Records(s: string): (r: Option<seq<seq<string>>>)
    decreases |s|
  {
    if s == [] then Some([])
    else match Fields(s)
      case None => None
      case Some(p) =>
        if p.1 == [] then Some([p.0])
        else if |p.1| >= 2 && p.1[..2] == "\r\n" then
          match Records(p.1[2..])
          case None => None
          case Some(recs) => Some([p.0] + recs)
        else None
  }

  // ---------------------------------------------------------------------------
  // Round trips

  /** Reading a quoted body gives back the text whose quotes were doubled. */
  lemma {:induction false} QuotedBodyOf(t: string, rest: string)
    requires rest == [] || rest[0] != '"'
    ensures QuotedBody(DoubleQuotes(t) + "\"" + rest) == Some((t, rest))
    decreases |t|
  {
    var s := DoubleQuotes(t) + "\"" + rest;
    if t != [] {
      QuotedBodyOf(t[1..], rest);
      if t[0] == '"' {
        assert s == "\"\"" + (DoubleQuotes(t[1..]) + "\"" + rest);
        assert s[2..] == DoubleQuotes(t[1..]) + "\"" + rest;
        assert "\"" + t[1..] == t;
      } else {
        assert s == [t[0]] + (DoubleQuotes(t[1..]) + "\"" + rest);
        assert s[1..] == DoubleQuotes(t[1..]) + "\"" + rest;
        assert [t[0]] + t[1..] == t;
      }
    } else {
      assert s == "\"" + rest;
      assert s[1..] == rest;
    }
  }

  lemma {:induction false} BareFieldOf(t: string, rest: string)
    requires PlainText(t)
    requires rest == [] || rest[0] == ',' || rest[0] == '\r'
    ensures BareField(t + rest) == (t, rest)
    decreases |t|
  {
    if t != [] {
      assert (t + rest)[1..] == t[1..] + rest;
      BareFieldOf(t[1..], rest);
      assert [t[0]] + t[1..] == t;
    } else {
      assert t + rest == rest;
    }
  }

  lemma QuotedFieldOf(t: string, rest: string)
    requires rest == [] || rest[0] == ',' || rest[0] == '\r'
    ensures Field(Quote(t) + rest) == Some((t, rest))
  {
    var s := Quote(t) + rest;
    assert s == "\"" + (DoubleQuotes(t) + "\"" + rest);
    assert s[1..] == DoubleQuotes(t) + "\"" + rest;
    QuotedBodyOf(t, rest);
  }

  lemma BareCellOf(t: string, rest: string)
    requires PlainText(t)
    requires rest == [] || rest[0] == ',' || rest[0] == '\r'
    ensures Field(t + rest) == Some((t, rest))
  {
    BareFieldOf(t, rest);
    assert t != [] ==> (t + rest)[0] == t[0];
  }

  lemma FieldOf(c: Cell, rest: string)
    requires WellFormedCell(c)
    requires rest == [] || rest[0] == ',' || rest[0] == '\r'
    ensures Field(Render(c) + rest) == Some((c.text, rest))
  {
    if c.Quoted? {
      QuotedFieldOf(c.text, rest);
    } else {
      BareCellOf(c.text, rest);
    }
  }

  /** One field followed by a comma: the record goes on with the fields after it. */
  lemma FieldsStep(s: string, f: string, more: string)
    requires Field(s) == Some((f, "," + more))
    ensures Fields(s) == match Fields(more) case None => None case Some(q) => Some(([f] + q.0, q.1))
  {
    assert ("," + more)[1..] == more;
  }

  /** One record followed by CRLF: the document goes on with the records after it. */
  lemma RecordsStep(s: string, fields: seq<string>, tail: string)
    requires s != [] && Fields(s) == Some((fields, "\r\n" + tail))
    ensures Records(s) == match Records(tail) case None => None case Some(recs) => Some([fields] + recs)
  {
    assert ("\r\n" + tail)[2..] == tail;
    assert ("\r\n" + tail)[..2] == "\r\n";
  }

  lemma RecordCons(c: Cell, cells: seq<Cell>)
    requires cells != []
    ensures RenderRecord([c] + cells) == Render(c) + "," + RenderRecord(cells)
  {
    var rs := Renders([c] + cells);
    assert rs[1..] == Renders(cells);
    assert |rs| >= 2 && rs[0] == Render(c);
  }

  /** A record of two or more fields, followed by more text, is its first field, a comma, then the rest of the record and the text. */
  lemma RecordConsRest(c: Cell, cells: seq<Cell>, rest: string)
    requires cells != []
    ensures RenderRecord([c] + cells) + rest == Render(c) + ("," + (RenderRecord(cells) + rest))
  {
    RecordCons(c, cells);
  }

  lemma TextsCons(c: Cell, cells: seq<Cell>)
    ensures Texts([c] + cells) == [c.text] + Texts(cells)
  {
  }

  lemma FieldsCons(c: Cell, cells: seq<Cell>, rest: string)
    requires WellFormedCell(c) && cells != []
    requires rest == [] || rest[0] == '\r'
    requires Fields(RenderRecord(cells) + rest) == Some((Texts(cells), rest))
    ensures Fields(RenderRecord([c] + cells) + rest) == Some((Texts([c] + cells), rest))
  {
    var more := RenderRecord(cells) + rest;
    TextsCons(c, cells);
    RecordConsRest(c, cells, rest);
    FieldOf(c, "," + more);
    FieldsStep(Render(c) + ("," + more), c.text, more);
  }

  /** Reading a record gives back the texts of its fields, and stops where the record ends. */
  lemma {:induction false} FieldsOf(cells: seq<Cell>, rest: string)
    requires cells != [] && forall i :: 0 <= i < |cells| ==> WellFormedCell(cells[i])
    requires rest == [] || rest[0] == '\r'
    ensures Fields(RenderRecord(cells) + rest) == Some((Texts(cells), rest))
    decreases |cells|
  {
    if |cells| == 1 {
      FieldOf(cells[0], rest);
      assert Texts(cells) == [cells[0].text];
    } else {
      FieldsOf(cells[1..], rest);
      assert cells == [cells[0]] + cells[1..];
      FieldsCons(cells[0], cells[1..], rest);
    }
  }

  lemma DocumentCons(r: seq<Cell>, records: seq<seq<Cell>>)
    requires records != []
    ensures Document([r] + records) == RenderRecord(r) + "\r\n" + Document(records)
    ensures TextsAll([r] + records) == [Texts(r)] + TextsAll(records)
  {
    assert RenderRecords([r] + records)[1..] == RenderRecords(records);
  }

  lemma RecordsCons(r: seq<Cell>, records: seq<seq<Cell>>)
    requires WellFormedRecord(r) && records != []
    requires Records(Document(records)) == Some(TextsAll(records))
    ensures Records(Document([r] + records)) == Some(TextsAll([r] + records))
  {
    var tail := Document(records);
    DocumentCons(r, records);
    var s := Document([r] + records);
    assert s == RenderRecord(r) + ("\r\n" + tail);
    FieldsOf(r, "\r\n" + tail);
    RecordsStep(s, Texts(r), tail);
  }

  /** Reading a document gives back the texts of all its records (rules 1, 2, 5 and 7). */
  lemma {:induction false} RecordsOf(records: seq<seq<Cell>>)
    requires forall i :: 0 <= i < |records| ==> WellFormedRecord(records[i])
    ensures Records(Document(records)) == Some(TextsAll(records))
    decreases |records|
  {
    if |records| == 1 {
      RecordsSingle(records);
    } else if |records| > 1 {
      var tail := records[1..];
      forall i | 0 <= i < |tail| ensures WellFormedRecord(tail[i]) {
        assert tail[i] == records[i + 1];
      }
      RecordsOf(tail);
      assert records == [records[0]] + tail;
      RecordsCons(records[0], tail);
    }
  }

  lemma RecordsSingle(records: seq<seq<Cell>>)
    requires |records| == 1 && WellFormedRecord(records[0])
    ensures Records(Document(records)) == Some(TextsAll(records))
  {
    FieldsOf(records[0], "");
    assert RenderRecord(records[0]) + "" == RenderRecord(records[0]);
    assert TextsAll(records) == [Texts(records[0])];
  }

  /**
   * A header record, CRLF, then the body records joined by CRLF reads back as
   * the header followed by the body, also when there is no body and the text
   * ends in the CRLF.
   */
  lemma HeaderThenBody(header: seq<Cell>, body: seq<seq<Cell>>)
    requires WellFormedRecord(header)
    requires forall i :: 0 <= i < |body| ==> WellFormedRecord(body[i])
    ensures Records(RenderRecord(header) + "\r\n" + Document(body)) == Some([Texts(header)] + TextsAll(body))
  {
    if body == [] {
      FieldsOf(header, "\r\n");
      assert RenderRecord(header) + "\r\n" + Document(body) == RenderRecord(header) + "\r\n";
      assert TextsAll(body) == [];
    } else {
      RecordsOf(body);
      DocumentCons(header, body);
      RecordsCons(header, body);
    }
  }

  /** A quoted field is never empty, so a record of quoted fields is never an empty line. */
  lemma QuotedRecord(cells: seq<Cell>)
    requires cells != [] && forall i :: 0 <= i < |cells| ==> cells[i].Quoted?
    ensures WellFormedRecord(cells)
  {
    if |cells| == 1 {
      assert RenderRecord(cells) == Quote(cells[0].text);
    } else {
      assert RenderRecord(cells)[..|Render(cells[0])|] == Render(cells[0]);
    }
  }

  /** A record of two or more well-formed fields is never an empty line: it holds a comma. */
  lemma WideRecord(cells: seq<Cell>)
    requires |cells| >= 2 && forall i :: 0 <= i < |cells| ==> WellFormedCell(cells[i])
    ensures WellFormedRecord(cells)
  {
    assert |RenderRecord(cells)| >= 1;
  }
}
