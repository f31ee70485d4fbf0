/**
 * The stock page (assets/js/estoque.js): each row of `GET /api/estoque`
 * becomes a table row showing the quantity (`Number(...) || 0`), the unit
 * (`|| 'un'`) and the next expiry with an urgency text, and the row is
 * marked `table-danger` when the expiry has passed and `table-warning` when
 * it is at most seven days away. Parsing a date (`new Date`), the current
 * day and `toLocaleDateString` are parameters.
 */
module StockPage {
  import opened Wrappers
  import opened Text
  import opened JsValues
  import opened Html
  import StockView

  /** One row of the JSON answer: the unit and the total as they arrive, the next expiry as ISO text or null. */
  datatype StockItem = StockItem(descricao: string, quantidadeTotal: JsValue, unidade: JsValue, proximoVencimento: Option<string>)

  /** `Number(v)` in hundredths; None is NaN. */
  function NumberOf(v: JsValue): (r: Option<int>)
    ensures v.Undefined? ==> r.None?
    ensures v.Null? ==> r == Some(0)
    ensures v.Int? ==> r == Some(100 * v.i)
  {
    match v
    case Undefined => None
    case Null => Some(0)
    case Str(s) => ParseHundredths(s)
    case Int(i) => Some(100 * i)
  }

  /** `Number(item.quantidade_total) || 0`: NaN shows as zero. */
  function QuantityShown(v: JsValue): (r: int)
    ensures NumberOf(v).None? ==> r == 0
  {
    match NumberOf(v)
    case None => 0
    case Some(x) => x
  }

  /** The text MySQL gives a DECIMAL(10,2) value of `h` hundredths: its integer part, a point and two digits. */
  function DecimalText(h: nat): string {
    NatToDecimal(h / 100) + "." + [DigitChar(h % 100 / 10), DigitChar(h % 10)]
  }

  /** A total sent as decimal text is shown as that total. */
  lemma QuantityOfDecimalText(h: nat)
    ensures QuantityShown(Str(DecimalText(h))) == h
  {
    HundredthsOfDecimal(h / 100, h % 100 / 10, h % 10);
    DecimalParts(h);
  }

  lemma DecimalParts(h: nat)
    ensures 100 * (h / 100) + 10 * (h % 100 / 10) + h % 10 == h
  {
    var q := h / 100;
    var m := h % 100;
    var d := m / 10;
    var e := m % 10;
    assert h == 100 * q + m;
    assert m == 10 * d + e;
    RemainderOf(h, 10 * q + d, e);
  }

  /** The remainder by ten is the only digit that completes a multiple of ten. */
  lemma RemainderOf(h: int, a: int, b: int)
    requires h == 10 * a + b && 0 <= b < 10
    ensures h % 10 == b
  {
  }

  /** `item.unidade || 'un'` */
  function UnitShown(u: JsValue): (r: string)
    ensures Falsy(u) ==> r == "un"
    ensures u.Str? && u.s != "" ==> r == u.s
  {
    ToStr(OrElse(u, Str("un")))
  }

  /** `s.split('T')[0]`: the text before the first `T`, all of it when there is none. */
  function BeforeT(s: string): (r: string)
    ensures |r| <= |s| && r == s[..|r|]
    ensures 'T' !in r
    ensures |r| < |s| ==> s[|r|] == 'T'
  {
    if s == [] || s[0] == 'T' then [] else [s[0]] + BeforeT(s[1..])
  }

  /** The date part of an ISO date-time is what is left before its `T`. */
  lemma {:induction false} BeforeTOf(date: string, rest: string)
    requires 'T' !in date
    ensures BeforeT(date + "T" + rest) == date
  {
    if date != [] {
      assert (date + "T" + rest)[0] == date[0];
      assert (date + "T" + rest)[1..] == date[1..] + "T" + rest;
      BeforeTOf(date[1..], rest);
      assert [date[0]] + date[1..] == date;
    }
  }

  /** `item.proximo_vencimento ? item.proximo_vencimento.split('T')[0] : null` */
  function Validade(pv: Option<string>): (r: Option<string>)
    ensures pv.None? || pv == Some("") ==> r.None?
    ensures r.Some? ==> 'T' !in r.value
  {
    if pv.None? || pv == Some("") then None else Some(BeforeT(pv.value))
  }

  /** What `daysUntil` answers: null for no date, NaN for a date `new Date` cannot read, or a whole number of days. */
  datatype DayCount = NoDate | NaN | Days(n: int)

  /** A date that is missing or empty, the ones `!d` tests. */
  predicate NoText(d: Option<string>) {
    d.None? || d == Some("")
  }

  /**
   * `daysUntil(d)`: null when `d` is falsy, otherwise the days from today to
   * the date, counted from midnight to midnight. `dayOf` is `new Date(d)` as a
   * day number, None when the text is not a date.
   */
  function DaysUntil(d: Option<string>, dayOf: string -> Option<int>, today: int): (r: DayCount)
    ensures r.NoDate? <==> NoText(d)
    ensures r.NaN? <==> !NoText(d) && dayOf(d.value).None?
    ensures r.Days? ==> r.n == dayOf(d.value).value - today
  {
    if NoText(d) then NoDate
    else match dayOf(d.value)
      case None => NaN
      case Some(day) => Days(day - today)
  }

  /** The class a table row gets. */
  datatype RowClass = Plain | Warning | Danger

  /** `dias < 0` gives `table-danger`, otherwise `dias <= 7` gives `table-warning`; NaN passes neither test. */
  function ClassOf(dc: DayCount): RowClass {
    match dc
    case Days(n) => if n < 0 then Danger else if n <= 7 then Warning else Plain
    case _ => Plain
  }

  /** The text after the date: NaN fails `dias < 0` and `dias === 0` and is shown as such. */
  function Urgency(dc: DayCount): string {
    match dc
    case NoDate => ""
    case NaN => " (Vence em NaN dias)"
    case Days(n) =>
      if n < 0 then " (Vencido)"
      else if n == 0 then " (Vence hoje)"
      else " (Vence em " + IntToDecimal(n) + " dias)"
  }

  /** `formatDate(d)`: a dash for no date, the text itself when it is not a date, else the local format `show`. */
  function FormatDate(d: Option<string>, dayOf: string -> Option<int>, show: int -> string): (r: string)
    ensures NoText(d) ==> r == "—"
    ensures !NoText(d) && dayOf(d.value).None? ==> r == d.value
  {
    if NoText(d) then "—"
    else match dayOf(d.value)
      case None => d.value
      case Some(day) => show(day)
  }

  /** The expiry cell: a dash without a date, else the formatted date followed by the urgency text. */
  function ExpiryText(validade: Option<string>, dayOf: string -> Option<int>, today: int, show: int -> string): (r: string)
    ensures NoText(validade) ==> r == "—"
  {
    if NoText(validade) then "—"
    else FormatDate(validade, dayOf, show) + Urgency(DaysUntil(validade, dayOf, today))
  }

  /** One table row: its class, the cells, and the description escaped for the "Ver Lotes" button. */
  datatype ShownRow = ShownRow(cls: RowClass, descricao: string, quantidade: int, unidade: string, vencimento: string, lotKey: string)

  function ShowItem(item: StockItem, dayOf: string -> Option<int>, today: int, show: int -> string): ShownRow {
    var validade := Validade(item.proximoVencimento);
    ShownRow(ClassOf(DaysUntil(validade, dayOf, today)), item.descricao, QuantityShown(item.quantidadeTotal),
             UnitShown(item.unidade), ExpiryText(validade, dayOf, today, show), EscapeHtml(item.descricao))
  }

  /** What the table shows: the single "Nenhum item no estoque." row, or one row per item. */
  datatype Table = Empty | Rows(rows: seq<ShownRow>)

  /** `render(items)`: null and the empty list give the empty-stock row. */
  function Render(items: Option<seq<StockItem>>, dayOf: string -> Option<int>, today: int, show: int -> string): (r: Table)
    ensures r.Empty? <==> items.None? || items.value == []
    ensures r.Rows? ==> |r.rows| == |items.value|
    ensures r.Rows? ==> forall i :: 0 <= i < |r.rows| ==> r.rows[i] == ShowItem(items.value[i], dayOf, today, show)
  {
    if items.None? || items.value == [] then Empty
    else
      var xs := items.value;
      Rows(seq(|xs|, i requires 0 <= i < |xs| => ShowItem(xs[i], dayOf, today, show)))
  }

  /** `s` ends with `t`. */
  predicate EndsWith(s: string, t: string) {
    |t| <= |s| && s[|s| - |t|..] == t
  }

  lemma EndsWithConcat(a: string, b: string, t: string)
    requires EndsWith(b, t)
    ensures EndsWith(a + b, t)
  {
    assert (a + b)[|a + b| - |t|..] == b[|b| - |t|..];
  }

  lemma EndsWithShorter(s: string, t: string, u: string)
    requires EndsWith(s, t) && EndsWith(t, u)
    ensures EndsWith(s, u)
  {
    assert s[|s| - |u|..] == s[|s| - |t|..][|t| - |u|..];
  }

  /** The last characters of an urgency text: only the overdue one ends in "ncido)". */
  lemma UrgencyEnding(dc: DayCount)
    ensures dc != NoDate ==> |Urgency(dc)| >= 6
    ensures dc.Days? && dc.n < 0 ==> Urgency(dc) == " (Vencido)"
    ensures !(dc.Days? && dc.n < 0) && dc != NoDate ==> !EndsWith(Urgency(dc), "ncido)")
  {
    var u := Urgency(dc);
    if dc.Days? && dc.n > 0 {
      var tail := " dias)";
      assert u == (" (Vence em " + IntToDecimal(dc.n)) + tail;
      assert u[|u| - 6..] == tail;
    }
  }

  /** Text ending in " (Vencido)" whose last six characters come from `b` has `b` ending in "ncido)". */
  lemma LongTail(a: string, b: string)
    requires |b| >= 6
    ensures EndsWith(a + b, " (Vencido)") ==> EndsWith(b, "ncido)")
  {
    if EndsWith(a + b, " (Vencido)") {
      EndsWithShorter(a + b, " (Vencido)", "ncido)");
      EndsWithTail(a, b, 6);
    }
  }

  /** A formatted date followed by an urgency text ends with " (Vencido)" exactly when the day count is negative. */
  lemma OverdueText(date: string, dc: DayCount)
    requires dc != NoDate
    ensures EndsWith(date + Urgency(dc), " (Vencido)") <==> dc.Days? && dc.n < 0
  {
    UrgencyEnding(dc);
    var u := Urgency(dc);
    LongTail(date, u);
    if dc.Days? && dc.n < 0 {
      EndsWithConcat(date, u, " (Vencido)");
    }
  }

  /**
   * The row is marked `table-danger` exactly when its expiry text ends with
   * " (Vencido)": the class and the text are chosen from the same day count.
   */
  lemma DangerIffOverdueText(item: StockItem, dayOf: string -> Option<int>, today: int, show: int -> string)
    ensures var row := ShowItem(item, dayOf, today, show);
      row.cls == Danger <==> EndsWith(row.vencimento, " (Vencido)")
  {
    var validade := Validade(item.proximoVencimento);
    var dc := DaysUntil(validade, dayOf, today);
    if !NoText(validade) {
      OverdueText(FormatDate(validade, dayOf, show), dc);
    }
  }

  /** The last `k` characters of `a + b` are those of `b` when `b` is long enough. */
  lemma EndsWithTail(a: string, b: string, k: nat)
    requires k <= |b|
    ensures (a + b)[|a + b| - k..] == b[|b| - k..]
  {
  }

  /**
   * How the day count decides the row (assets/js/estoque.js:37-42): overdue is
   * `table-danger` and " (Vencido)"; today and up to seven days are
   * `table-warning` with " (Vence hoje)" or " (Vence em N dias)"; later dates
   * have no class; no date gives no class and a dash.
   */
  lemma Urgencies(item: StockItem, dayOf: string -> Option<int>, today: int, show: int -> string)
    ensures var validade := Validade(item.proximoVencimento);
      var dc := DaysUntil(validade, dayOf, today);
      var row := ShowItem(item, dayOf, today, show);
      && (NoText(validade) ==> row.cls == Plain && row.vencimento == "—")
      && (dc.NaN? ==> row.cls == Plain && row.vencimento == validade.value + " (Vence em NaN dias)")
      && (dc.Days? && dc.n < 0 ==> row.cls == Danger && row.vencimento == FormatDate(validade, dayOf, show) + " (Vencido)")
      && (dc == Days(0) ==> row.cls == Warning && row.vencimento == FormatDate(validade, dayOf, show) + " (Vence hoje)")
      && (dc.Days? && 0 < dc.n <= 7 ==>
            row.cls == Warning && row.vencimento == FormatDate(validade, dayOf, show) + " (Vence em " + IntToDecimal(dc.n) + " dias)")
      && (dc.Days? && dc.n > 7 ==> row.cls == Plain)
  {
  }

  /** A row of the stock answer as it reaches the page: the total as decimal text, the unit after COALESCE. */
  function Sent(r: StockView.StockRow, pv: Option<string>): StockItem
    requires r.quantidadeTotal >= 0
  {
    StockItem(r.descricao, Str(DecimalText(r.quantidadeTotal)), Str(r.unidade), pv)
  }

  /** The page shows the reported total, and the reported unit, or "un" for the empty unit. */
  lemma ShowsReported(r: StockView.StockRow, pv: Option<string>, dayOf: string -> Option<int>, today: int, show: int -> string)
    requires r.quantidadeTotal >= 0
    ensures var row := ShowItem(Sent(r, pv), dayOf, today, show);
      && row.quantidade == r.quantidadeTotal
      && row.unidade == (if r.unidade == "" then "un" else r.unidade)
      && row.descricao == r.descricao
  {
    QuantityOfDecimalText(r.quantidadeTotal);
  }
}
