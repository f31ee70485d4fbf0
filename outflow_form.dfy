/**
 * The submit handler of the distribution form (registro-saida.js:81-105): each
 * item row becomes a demand line with trimmed fields, lines without a
 * description or a positive quantity are dropped, nothing is sent when none
 * is left, and the request names the institution by number. The filter only
 * drops lines `POST /api/saidas` would skip anyway.
 */
module OutflowForm {
  import opened Wrappers
  import opened Text
  import opened Allocation
  import opened Store

  /** One item row of the form, as typed: description, quantity and unit inputs. */
  datatype FormRow = FormRow(descricao: string, quantidade: string, unidade: string)

  /**
   * The item built from a row: the trimmed description, `Number` of the
   * quantity in hundredths (NaN, which `JSON.stringify` sends as null, is
   * None) and the trimmed unit, or null when that is empty.
   */
  function ItemOf(row: FormRow): (item: RequestLine)
    ensures item.descricao == Some(Trim(row.descricao))
    ensures item.unidade.Some? ==> item.unidade.value != ""
  {
    RequestLine(Some(Trim(row.descricao)), ParseHundredths(row.quantidade),
                if Trim(row.unidade) == "" then None else Some(Trim(row.unidade)))
  }

  /** The filter `it.descricao && it.quantidade > 0`. */
  predicate Sendable(item: RequestLine) {
    item.descricao.Some? && item.descricao.value != "" && item.quantidade.Some? && item.quantidade.value > 0
  }

  /** The items of the rows before filtering, in row order. */
  function AllItems(rows: seq<FormRow>): (r: seq<RequestLine>)
    ensures |r| == |rows| && forall i :: 0 <= i < |rows| ==> r[i] == ItemOf(rows[i])
  {
    seq(|rows|, i requires 0 <= i < |rows| => ItemOf(rows[i]))
  }

  /** The items that pass the filter, in order. */
  function Sendables(items: seq<RequestLine>): (r: seq<RequestLine>)
    ensures |r| <= |items|
    ensures forall i :: 0 <= i < |r| ==> Sendable(r[i])
  {
    if items == [] then []
    else (if Sendable(items[0]) then [items[0]] else []) + Sendables(items[1..])
  }

  /** The items sent for the rows of the form. */
  function Items(rows: seq<FormRow>): seq<RequestLine> {
    Sendables(AllItems(rows))
  }

  /** An item is kept exactly when it is among the items and passes the filter. */
  lemma {:induction false} SendablesMembers(items: seq<RequestLine>, item: RequestLine)
    ensures item in Sendables(items) <==> item in items && Sendable(item)
  {
    if items != [] {
      SendablesMembers(items[1..], item);
      assert items == [items[0]] + items[1..];
    }
  }

  /** Filtering keeps order: the kept items of two runs are those of the first, then those of the second. */
  lemma {:induction false} SendablesAppend(a: seq<RequestLine>, b: seq<RequestLine>)
    ensures Sendables(a + b) == Sendables(a) + Sendables(b)
  {
    if a != [] {
      assert (a + b)[0] == a[0];
      assert (a + b)[1..] == a[1..] + b;
      SendablesAppend(a[1..], b);
    } else {
      assert a + b == b;
    }
  }

  /** An item is sent exactly when some row builds it and it passes the filter. */
  lemma ItemsMembers(rows: seq<FormRow>, item: RequestLine)
    ensures item in Items(rows) <==> (exists i :: 0 <= i < |rows| && ItemOf(rows[i]) == item) && Sendable(item)
  {
    SendablesMembers(AllItems(rows), item);
    AllItemsMembers(rows, item);
  }

  lemma AllItemsMembers(rows: seq<FormRow>, item: RequestLine)
    ensures item in AllItems(rows) <==> exists i :: 0 <= i < |rows| && ItemOf(rows[i]) == item
  {
    var all := AllItems(rows);
    if item in all {
      var i :| 0 <= i < |all| && all[i] == item;
      assert ItemOf(rows[i]) == item;
    } else {
      forall i | 0 <= i < |rows| ensures ItemOf(rows[i]) != item {
        assert all[i] == ItemOf(rows[i]);
      }
    }
  }

  /** What an item built from a row looks like: a trimmed description and a unit that is null or not empty. */
  predicate Built(item: RequestLine) {
    item.descricao.Some? && Trim(item.descricao.value) == item.descricao.value
    && (item.unidade.Some? ==> item.unidade.value != "")
  }

  lemma AllItemsBuilt(rows: seq<FormRow>)
    ensures forall i :: 0 <= i < |rows| ==> Built(AllItems(rows)[i])
  {
    forall i | 0 <= i < |rows| ensures Built(AllItems(rows)[i]) {
      TrimIdempotent(rows[i].descricao);
    }
  }

  /** The server reads a built item as it was built: trimming it again changes nothing. */
  lemma NormalizeBuilt(item: RequestLine)
    requires Built(item)
    ensures Normalize(item) == Demand(item.descricao.value, item.unidade, item.quantidade.GetOr(0))
  {
    var d := Normalize(item);
    assert d.descricao == item.descricao.value;
  }

  /** The skip rule of the server on a line that already has a description. */
  lemma SkippedDemand(item: RequestLine)
    requires item.descricao.Some?
    ensures Skipped(Demand(item.descricao.value, item.unidade, item.quantidade.GetOr(0))) <==> !Sendable(item)
  {
  }

  /** The server skips a built item exactly when the form's filter drops it, and reads a kept one as it was built. */
  lemma SkippedIffDropped(item: RequestLine)
    requires Built(item)
    ensures Skipped(Normalize(item)) <==> !Sendable(item)
    ensures Sendable(item) ==> Normalize(item) == Demand(item.descricao.value, item.unidade, item.quantidade.value)
  {
    NormalizeBuilt(item);
    SkippedDemand(item);
  }

  lemma RunLineSameRest(lots: seq<Lot>, saidaId: nat, d: Demand, a: seq<RequestLine>, b: seq<RequestLine>)
    requires Skipped(d) ==> RunLines(lots, saidaId, a) == RunLines(lots, saidaId, b)
    requires !Skipped(d) ==>
      var r := AllocateLine(lots, saidaId, d.descricao, d.unidade, d.need);
      RunLines(r.lots, saidaId, a) == RunLines(r.lots, saidaId, b)
    ensures RunLine(lots, saidaId, d, a) == RunLine(lots, saidaId, d, b)
  {
  }

  /**
   * Sending only the kept items gives the same outcome as sending them all:
   * whatever the stock, the built items the form drops are exactly those the
   * server would skip.
   */
  lemma {:induction false} FilterInvisible(lots: seq<Lot>, saidaId: nat, items: seq<RequestLine>)
    requires forall i :: 0 <= i < |items| ==> !Sendable(items[i]) ==> Skipped(Normalize(items[i]))
    ensures RunLines(lots, saidaId, Sendables(items)) == RunLines(lots, saidaId, items)
    decreases |items|
  {
    if items != [] {
      var x := items[0];
      var d := Normalize(x);
      var tail := items[1..];
      assert forall i :: 0 <= i < |tail| ==> tail[i] == items[i + 1];
      if Sendable(x) {
        if !Skipped(d) {
          var r := AllocateLine(lots, saidaId, d.descricao, d.unidade, d.need);
          FilterInvisible(r.lots, saidaId, tail);
        } else {
          FilterInvisible(lots, saidaId, tail);
        }
        RunLineSameRest(lots, saidaId, d, Sendables(tail), tail);
        KeptStep(lots, saidaId, items);
      } else {
        FilterInvisible(lots, saidaId, tail);
        DroppedStep(lots, saidaId, items);
      }
    }
  }

  /** A first item that is kept runs first in both requests. */
  lemma KeptStep(lots: seq<Lot>, saidaId: nat, items: seq<RequestLine>)
    requires items != [] && Sendable(items[0])
    ensures RunLines(lots, saidaId, Sendables(items)) == RunLine(lots, saidaId, Normalize(items[0]), Sendables(items[1..]))
    ensures RunLines(lots, saidaId, items) == RunLine(lots, saidaId, Normalize(items[0]), items[1..])
  {
    var sent := Sendables(items);
    assert sent == [items[0]] + Sendables(items[1..]);
    assert sent[1..] == Sendables(items[1..]);
  }

  /** A first item that is dropped and skipped leaves both requests to the items after it. */
  lemma DroppedStep(lots: seq<Lot>, saidaId: nat, items: seq<RequestLine>)
    requires items != [] && !Sendable(items[0]) && Skipped(Normalize(items[0]))
    ensures Sendables(items) == Sendables(items[1..])
    ensures RunLines(lots, saidaId, items) == RunLines(lots, saidaId, items[1..])
  {
  }

  /** The form's filter does not change what a request does: the kept items run as all the rows' items would. */
  lemma FormFilterInvisible(lots: seq<Lot>, saidaId: nat, rows: seq<FormRow>)
    ensures RunLines(lots, saidaId, Items(rows)) == RunLines(lots, saidaId, AllItems(rows))
  {
    var items := AllItems(rows);
    AllItemsBuilt(rows);
    forall i | 0 <= i < |items| ensures !Sendable(items[i]) ==> Skipped(Normalize(items[i])) {
      SkippedIffDropped(items[i]);
    }
    FilterInvisible(lots, saidaId, items);
  }

  /** The body of the request: institution, date, notes and items. */
  datatype Submission = Submission(idInstituicao: Option<int>, dataSaida: Option<string>, observacoes: Option<string>, itens: seq<RequestLine>)

  /** `x || null` on the text of an input. */
  function OrNull(x: string): (r: Option<string>)
    ensures r.None? <==> x == ""
  {
    if x == "" then None else Some(x)
  }

  /**
   * The institution sent for the selected option: null when none is selected,
   * `Number(value)` otherwise, which `JSON.stringify` sends as null when NaN.
   */
  function InstitutionId(select: string): (r: Option<int>)
    ensures select == "" ==> r.None?
  {
    if select == "" then None else JsNumber(select)
  }

  /** The submit handler: no request (only an alert) when no item passes the filter. */
  function Submit(select: string, dataSaida: string, observacoes: string, rows: seq<FormRow>): (r: Option<Submission>)
    ensures r.None? <==> Items(rows) == []
    ensures r.Some? ==> r.value.itens == Items(rows) && r.value.idInstituicao == InstitutionId(select)
    ensures r.Some? ==> r.value.dataSaida == OrNull(dataSaida) && r.value.observacoes == OrNull(observacoes)
  {
    var itens := Items(rows);
    if itens == [] then None
    else Some(Submission(InstitutionId(select), OrNull(dataSaida), OrNull(observacoes), itens))
  }

  /** An option whose value is the decimal text of an id sends that id. */
  lemma InstitutionIdOf(id: int)
    ensures InstitutionId(IntToDecimal(id)) == Some(id)
  {
    NumberOfDecimal(id);
  }
}
