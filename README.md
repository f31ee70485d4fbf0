# Food bank stock: a Dafny model

The system runs a food bank's stock. Donations arrive as lots (`itens_doacao`), each with a description, a quantity, an optional unit and an optional expiry date. Distributions to partner institutions (`saidas`) draw those lots down, first expired first out, and record each draw in `itens_saida`. Browser pages show the stock, send distribution requests and export reports as CSV.

This project models the parts of that system that carry logic:

- **Distribution (`POST /api/saidas`).** Modules `Allocation`, `AllocationProperties`, `Store` and `OutflowProperties`.
  - The handler is a method of the class `Store.Store`, whose fields are the four tables and their next ids.
  - The line loop and the draw loop are `while` loops.
  - Each loop is proved equal to a function: `AllocateLine` for one line, `RunLines` for a whole request.
  - The properties are proved about those functions:
    - which lots are candidates;
    - the order the candidates are drawn in;
    - conservation of stock;
    - the frame (what may change);
    - all-or-nothing rollback;
    - the error naming the line that could not be covered.
- **Donation receipt (`POST /api/doacoes`).** `Store.Store.ReceiveDonation` and its insert loop.
- **Stock queries.**
  - `GET /api/estoque` (module `StockView`) groups lots by description and unit, with a total and the next expiry, applies the expiry filter and orders by description.
  - `GET /api/estoque/lotes` is the lot preview.
- **Front-end cores.**
  - The CSV writers of the four report pages (`Csv`, `Reports`, `EntradasReport`, `SaidasReport`, `PrestacaoReport`):
    - Each writer is paired with a reader in the style of section 2 of RFC 4180, rules 1, 2, 5 and 7.
    - Reading each export back gives its header and its values.
  - The grouping of the detailed accountability report (`PrestacaoReport.GroupBySaida`), a loop over a map from ids to positions.
  - The `escapeHtml` helpers (`Html`), paired with a reader of the five character references.
  - The filter the distribution form applies before sending (`OutflowForm`). It is proved to drop exactly the lines the server would skip.
  - The row class and expiry text of the stock page (`StockPage`).

**How values are represented.**
- Quantities are integers in hundredths, since the columns are DECIMAL(10,2).
- Dates are integer day numbers, and "today" is a parameter.
- JavaScript values that can be null, undefined, a string or a number are the datatype `JsValues.JsValue`.
- A JSON row is a map from keys to such values.
- Parsing a date, formatting it for the locale, and whether the database refuses an INSERT are all parameters.

**Behaviours of the code worth knowing:**
- **The unit filter of the allocation query** (server.js:444). A requested unit that is missing or empty matches every lot. Otherwise the lot's unit must equal it. A lot with no unit (NULL) does *not* match a requested unit.
- **The lot preview** (server.js:256). It sorts only by `validade ASC`, and MySQL puts NULLs first in that order. So undated lots come *first* there, while in the allocation query (server.js:445) they come last. `StockView.PreviewOrderDiffers` states the contrast.
- **Ids after a rollback.** A transaction that rolls back does not return the AUTO_INCREMENT values it used, as in InnoDB.
- **`escapeHtml` in registro-saida.js.** The helper is at line 132, and it uses `||`. So the number 0 becomes the empty string, unlike the `??` helper of relatorio-prestacao.js.

## Model

| member | source | states |
|---|---|---|
| Allocation.CandidateLeIsTotalPreorder | server.js:445 | the allocation order (dated lots by ascending expiry, undated lots last) is total and transitive, so sorting by it is well defined |
| Allocation.CandidatesSound | server.js:441-447 | every row of the candidate scan is a lot with the requested description, a positive quantity and a matching unit, carrying that lot's quantity and expiry |
| Allocation.CandidatesComplete | server.js:441-447 | every lot that satisfies the WHERE clause is among the candidate rows |
| Allocation.CandidatesOrdered | server.js:441-447 | the candidate rows come in store order, so no lot appears twice |
| Allocation.LotQueryRows | server.js:441-447 | the lot query returns exactly the candidate lots, each once, with dated lots by ascending expiry and undated lots after them |
| Allocation.DrawRecords | server.js:456-459 | one `itens_saida` record per draw, with the distribution id, the requested description and unit, the drawn quantity and the lot's expiry |
| AllocationProperties.LotQuerySum | server.js:441-447 | the quantities of the rows add up to the stock available to the line |
| AllocationProperties.DrawsTotal | server.js:449-466 | the draws of one line add up to the smaller of the need and the stock of its candidates |
| AllocationProperties.DrawsBounds | server.js:451-453 | each draw `min(available, need)` is positive and at most the lot's quantity |
| AllocationProperties.DrawsDrainInOrder | server.js:449-465 | every lot drawn from, except the last, is emptied: candidates are consumed in order |
| AllocationProperties.DrawsStopWhenMet | server.js:450 | the draw loop ends only when the rows run out or the need is met |
| AllocationProperties.SettleFrame | server.js:462-463 | each drawn lot is set to its quantity less the draw, and every other lot is left as it was |
| AllocationProperties.SettleTotal | server.js:462-465 | the lots' total falls by exactly the sum of the draws |
| AllocationProperties.DrawsShortfall | server.js:465-468 | what a line still lacks after its draws is max(0, need less the stock of its rows) |
| AllocationProperties.LineShortfall | server.js:468 | a line's shortfall is max(0, need less the stock available to it) |
| AllocationProperties.LineRecords | server.js:453-463 | the records of one line add up to the need less the shortfall, are positive, carry the id, description and unit, and come from distinct candidate lots whose expiry they carry |
| AllocationProperties.LineConserves | server.js:453-465 | one line moves stock from the lots into records: the lots' total plus the records' total is unchanged |
| AllocationProperties.LineFrame | server.js:449-463 | one line changes only candidate lots, only in quantity, to somewhere between zero and what they held |
| AllocationProperties.DrawsFefo | server.js:449-453 | a lot left partly drawn is the last one drawn from |
| AllocationProperties.LineFefo | server.js:445-450 | if a candidate lot that expires earlier keeps stock after a line, no candidate lot that expires later was touched |
| Store.IdOrNull | server.js:430 | an id that is missing or zero is sent as NULL; any other id is kept |
| Store.TextOrNull | server.js:182 | a text that is missing or empty is stored as NULL; any other text is kept |
| Store.Normalize | server.js:435-437 | after normalisation a demand line's unit is NULL or a non-empty text |
| Store.NewLotsAt | server.js:186-191 | the k-th lot inserted for a donation is the k-th item, with the k-th new id and the donation's id |
| Store.NewLotsTotal | server.js:186-191 | the lots inserted for a donation hold exactly the items' total quantity |
| Store.DrawLoopIsLine | server.js:449-466 | the draw loop over the query's rows yields the lots, records and shortfall of `AllocateLine` |
| Store.Store.ReceiveDonation | server.js:170-204 | no items: refused and nothing written; a refused INSERT: every row rolled back; otherwise one header and one lot per item, in order, and the new donation id returned |
| Store.Store.InsertLots | server.js:186-191 | the insert loop appends one lot per item, in order, with consecutive ids |
| Store.Store.InsertLot | server.js:187-190 | one INSERT appends one lot with the next id |
| Store.Store.Rollback | server.js:470 | rollback restores the rows of every table and keeps the id counters |
| Store.Store.Allocate | server.js:440-466 | one demand line changes the lots and appends records as `AllocateLine` says, conserving stock and keeping every lot's id |
| Store.Store.DrawFrom | server.js:449-466 | the draw loop updates the lots and records as the function `DrawLoop` does |
| Store.Store.AllocateLines | server.js:434-473 | the line loop ends as `RunLines` says: all lines covered with its lots and records, or stopped at the first short line with its description and shortfall |
| Store.Store.AllocateLineAt | server.js:435-472 | one turn of the line loop: a skipped, a short or a covered line, keeping stock conserved |
| Store.Store.CreateOutflow | server.js:418-484 | no lines: refused and nothing written; a short line: everything rolled back and that line named; otherwise one header plus the records of all lines committed |
| Store.Store.RecordOutflow | server.js:425-476 | with the header inserted under the next id, the lines end as `RunLines` says: a short line rolls the header, the lots and the records back to their state before the request and names that line, otherwise the new lots and all records are kept and the id is returned |
| OutflowProperties.CoveredLine | server.js:449-468 | a line with no shortfall records exactly its need, as positive draws under the distribution's id |
| OutflowProperties.RunLinesConserves | server.js:434-476 | a request that goes through moves stock from the lots into its records and loses none |
| OutflowProperties.RunLinesFrame | server.js:451-463 | a request that goes through changes lots only in quantity, never below zero or above what they held |
| OutflowProperties.RunLinesDelivers | server.js:434-476 | a request that goes through records exactly what its lines that are not skipped ask for, all under its id and positive |
| OutflowProperties.RunLinesAllSkipped | server.js:434-438 | a request whose every line is skipped goes through with the lots unchanged and no records |
| OutflowProperties.RunLinesShort | server.js:434-471 | a request that fails names the first line it cannot cover: every line before it went through, and the `qtdNeeded` reported is that line's need less the stock its candidates hold after those lines, a positive amount no larger than the need |
| OutflowProperties.ShortLine | server.js:468-471 | a line's shortfall never exceeds its need |
| StockView.UnitFilter | server.js:209 | the strict unit filter is absent, or a unit that is not empty |
| StockView.WhereMembers | server.js:213-224 | a lot enters the aggregation exactly when its quantity is positive, its description contains the search text and its unit equals the filter when one is given |
| StockView.MinExpiry | server.js:216 | `MIN(validade)` ignores NULLs and is NULL only when both are |
| StockView.FindAddLot | server.js:213-226 | adding a lot changes only its own group: it opens it or adds to its total and minimum |
| StockView.AggregateFind | server.js:213-226 | a group exists for a key exactly when some kept lot has it; its total is their sum and its next expiry is their least non-null expiry |
| StockView.AggregateDistinct | server.js:226 | GROUP BY yields one group per (description, unit) |
| StockView.AddLotKeyAt | server.js:226 | adding a lot to the groups introduces no key other than the lot's own |
| StockView.KeepGroupsMembers | server.js:229-239 | a group is kept exactly when it passes the `venc` filter: any, expired before today, or a whole number of days ahead at most N (N read by `Number`, so `2.5` is allowed), with a non-null expiry |
| StockView.GroupLeIsTotalPreorder | server.js:241 | ordering by description is total and transitive |
| StockView.StockGroupsOrdered | server.js:241 | the answer is sorted by description and has one group per key |
| StockView.StockGroupsMembers | server.js:206-244 | a group is in the answer exactly when its key occurs among the kept lots, its total and next expiry are theirs, and it passes the filter |
| StockView.LotLeIsTotalPreorder | server.js:256 | `ORDER BY validade ASC` with NULLs first is total and transitive |
| StockView.SameDescriptionCount | server.js:256 | the preview keeps every lot with the description, as often as it occurs, and no other |
| StockView.LotPreviewSpec | server.js:252-259 | the lot preview is the lots of one description, sorted with undated lots first and then by ascending expiry |
| StockView.PreviewOrderDiffers | server.js:256 | an undated lot sorts before a dated one in the preview but after it in the allocation |
| Text.TrimEmptyIff | server.js:435 | a text trims to empty exactly when it is all white space |
| Text.TrimIdempotent | server.js:435 | trimming twice is trimming once |
| Text.NumberOfDecimal | assets/js/registro-saida.js:105 | `Number` of the decimal text of an integer is that integer |
| Text.HundredthsOfInteger | assets/js/registro-saida.js:90 | a quantity typed as an integer reads as that many hundreds of hundredths |
| Text.HundredthsOfDecimal | assets/js/registro-saida.js:90 | a quantity typed with two decimals reads as the same number of hundredths |
| Csv.Escape | assets/js/relatorios.js:53-56 | `escape` gives the empty string exactly for null and undefined |
| Csv.EscapeCell | assets/js/relatorios.js:53-56 | an escaped value renders as a quoted field or an empty one, and is a well-formed field either way |
| Csv.QuotedFieldOf | assets/js/relatorios.js:55-56 | a quoted field with its quotes doubled reads back as the original text, whatever follows it |
| Csv.RecordsOf | assets/js/relatorios.js:59 | records joined by CRLF read back as the texts of their fields, record by record |
| Csv.HeaderThenBody | assets/js/relatorios.js:58-60 | a header, CRLF, then the body records read back as the header then the body, also with no body and a trailing CRLF |
| Reports.PeriodText | assets/js/relatorio-entradas.js:8-10 | with neither end given, the heading names all records |
| Reports.PeriodTextRange | assets/js/relatorio-saidas.js:6-7 | the heading shows a dash range exactly when one end is given, and is then `Período: ` with the start or `início`, ` — `, and the end or `fim`; relatorio-entradas.js:9 and relatorio-prestacao.js:6 use the same expression |
| Reports.HeaderCells | assets/js/relatorios.js:58 | the header is each column name, quoted |
| Reports.BodyCells | assets/js/relatorios.js:59 | each body cell is `r[col] ?? ''` quoted, so a null or missing cell is `""` |
| Reports.ToCsvReads | assets/js/relatorios.js:52-61 | reading the export back gives the column names, then one value per column for each row in order |
| Reports.ProjectInvisible | assets/js/relatorios.js:88-95 | copying the rows to the five exported keys first does not change the export |
| Reports.Export | assets/js/relatorios.js:82-85 | nothing is exported exactly when the data is null or empty |
| Reports.ExportEntradas | assets/js/relatorios.js:81-95 | the entries export is the generic export over its five columns |
| Reports.ExportReads | assets/js/relatorios.js:126-128 | an export that is written reads back as its header and its rows |
| EntradasReport.CellOf | assets/js/relatorio-entradas.js:71-73 | only a set donation date is reformatted; every other value is written as it came |
| EntradasReport.LabelCells | assets/js/relatorio-entradas.js:70 | the header is the quoted labels, not the keys |
| EntradasReport.RowCells | assets/js/relatorio-entradas.js:71-75 | one well-formed field per column, the escape of that column's value |
| EntradasReport.ToCsvReads | assets/js/relatorio-entradas.js:64-77 | reading the export back gives the labels, then each row's values column by column |
| EntradasReport.TableColumns | assets/js/relatorio-entradas.js:16-22 | the five values of each record are the localised donation date (or the raw value when falsy), partner, description, unit and total |
| EntradasReport.DoExport | assets/js/relatorio-entradas.js:79-84 | nothing is exported exactly for no rows; otherwise the export reads back as labels then values |
| SaidasReport.HeaderCells | assets/js/relatorio-saidas.js:49-51 | the header is the labels, bare, joined by commas |
| SaidasReport.LabelsPlain | assets/js/relatorio-saidas.js:13-19 | no label holds a comma, a quote or a line break, so the bare header reads back unchanged |
| SaidasReport.CsvReads | assets/js/relatorio-saidas.js:49-53 | reading the export back gives the labels, then each row's values in key order, with the raw `data_saida` first |
| PrestacaoReport.FirstIdsMembers | assets/js/relatorio-prestacao.js:22-33 | a distribution id is grouped exactly when some row carries it |
| PrestacaoReport.FirstIdsDistinct | assets/js/relatorio-prestacao.js:24-33 | each id opens one group only |
| PrestacaoReport.FirstPosFirst | assets/js/relatorio-prestacao.js:24-31 | a group's header fields come from the first row with its id: no earlier row has it |
| PrestacaoReport.FirstIdsOrder | assets/js/relatorio-prestacao.js:42 | groups come in order of their first row |
| PrestacaoReport.GroupStep | assets/js/relatorio-prestacao.js:22-40 | one more row opens its group with the row as first item, or appends the item to its group, and leaves other groups alone |
| PrestacaoReport.RowStep | assets/js/relatorio-prestacao.js:23-40 | one turn of the `forEach` keeps the groups and the id map in step with the rows read so far and adds one item |
| PrestacaoReport.GroupBySaida | assets/js/relatorio-prestacao.js:20-43 | the loop builds the grouping by first appearance, and the item count equals the row count |
| PrestacaoReport.BareCellsRecord | assets/js/relatorio-prestacao.js:93 | the header line is the names joined by commas, unquoted, and reads back as the names |
| PrestacaoReport.HeaderWellFormed | assets/js/relatorio-prestacao.js:92 | the seven header names are bare fields a reader reads back unchanged |
| PrestacaoReport.DetailValues | assets/js/relatorio-prestacao.js:96-103 | corrected (see ## Findings): the seven values of an item line, starting with the distribution id, with the description taken as sent, to be escaped once with the others |
| PrestacaoReport.QuotedCells | assets/js/relatorio-prestacao.js:104 | every value is written quoted |
| PrestacaoReport.Body | assets/js/relatorio-prestacao.js:94-106 | corrected (see ## Findings): one record of seven quoted fields per item, so as many records as items |
| PrestacaoReport.BodyLinesRender | assets/js/relatorio-prestacao.js:94-107 | corrected (see ## Findings): the lines pushed, group by group and item by item, are the rendered records of the body |
| PrestacaoReport.PushItemLines | assets/js/relatorio-prestacao.js:95-106 | corrected (see ## Findings): the inner loop appends one line per item of a group, in order |
| PrestacaoReport.PushBodyLines | assets/js/relatorio-prestacao.js:94-107 | corrected (see ## Findings): the outer loop appends the lines of each group in order |
| PrestacaoReport.DetailCsv | assets/js/relatorio-prestacao.js:90-109 | corrected (see ## Findings): `toCsv` is the header line and then the item lines, joined by CRLF |
| PrestacaoReport.TableSize | assets/js/relatorio-prestacao.js:94-106 | the export has one line per item |
| PrestacaoReport.DetailCsvReads | assets/js/relatorio-prestacao.js:90-109 | with the description escaped once, the export reads back as the header names, then each item's seven values |
| PrestacaoReport.ExportDetail | assets/js/relatorio-prestacao.js:111-117 | corrected (see ## Findings): nothing is exported for no rows; otherwise the export of the grouped rows reads back as header then one record per row |
| PrestacaoReport.LineReads | assets/js/relatorio-prestacao.js:104 | a line of quoted values reads back as those values |
| PrestacaoReport.DetailLineReads | assets/js/relatorio-prestacao.js:96-105 | with the description escaped once, an item line reads back with the description as sent |
| PrestacaoReport.AsWrittenValues | assets/js/relatorio-prestacao.js:96-103 | as written, the fourth value is the description with its quotes already doubled |
| PrestacaoReport.DoubleQuotesLonger | assets/js/relatorio-prestacao.js:100 | doubling the quotes of a text that has one makes it longer |
| PrestacaoReport.AsWrittenChangesDescription | assets/js/relatorio-prestacao.js:100-104 | as written, a description holding a quote reads back changed |
| PrestacaoReport.DoubleQuotesPlain | assets/js/relatorio-prestacao.js:100 | doubling the quotes of a text without one leaves it unchanged |
| PrestacaoReport.AsWrittenLineAgrees | assets/js/relatorio-prestacao.js:96-105 | the line as written equals the corrected line exactly when the description holds no double quote |
| Html.Reference | assets/js/relatorio-prestacao.js:88 | each of `& < > " '` becomes a reference starting with `&`; every other character stays |
| Html.EscapeHtml | assets/js/relatorio-prestacao.js:88 | the escaped text is at least as long and is empty only for empty text |
| Html.UnescapeEscape | assets/js/relatorio-prestacao.js:88 | reading the references back gives the original text |
| Html.EscapeHtmlInert | assets/js/estoque.js:55 | the escaped text holds none of `< > " '` |
| Html.EscapeHtmlPlain | assets/js/estoque.js:55 | text without the five characters is left unchanged |
| Html.EscapeHtmlNullish | assets/js/relatorio-prestacao.js:88 | the `??` helper gives empty text exactly for null, undefined and the empty string |
| Html.EscapeHtmlFalsy | assets/js/registro-saida.js:132 | the helper of this page gives empty text exactly for falsy values: null, undefined, the empty string and 0 |
| Html.EscapeVariants | assets/js/registro-saida.js:132 | the two helpers agree on every value except the number 0 |
| OutflowForm.ItemOf | assets/js/registro-saida.js:87-92 | each item has the trimmed description and a unit that is null or non-empty |
| OutflowForm.AllItems | assets/js/registro-saida.js:87-92 | one item per form row, in row order |
| OutflowForm.Sendables | assets/js/registro-saida.js:93 | the filter keeps only items with a description and a positive quantity |
| OutflowForm.SendablesMembers | assets/js/registro-saida.js:93 | an item is kept exactly when it is an item and passes the filter |
| OutflowForm.SendablesAppend | assets/js/registro-saida.js:93 | the filter keeps order |
| OutflowForm.ItemsMembers | assets/js/registro-saida.js:87-93 | an item is sent exactly when some row builds it and it passes the filter |
| OutflowForm.AllItemsBuilt | assets/js/registro-saida.js:89-91 | every built item has a trimmed description and a null or non-empty unit |
| OutflowForm.SkippedIffDropped | assets/js/registro-saida.js:93 | the server skips a built item exactly when the form drops it, and reads a kept one unchanged |
| OutflowForm.FilterInvisible | assets/js/registro-saida.js:93 | sending only the kept items has the same outcome as sending them all |
| OutflowForm.FormFilterInvisible | assets/js/registro-saida.js:87-93 | for any stock, the request the form sends does what the unfiltered rows would |
| OutflowForm.OrNull | assets/js/registro-saida.js:84-85 | an input's text is sent as null exactly when it is empty |
| OutflowForm.InstitutionId | assets/js/registro-saida.js:105 | no selection sends null |
| OutflowForm.Submit | assets/js/registro-saida.js:83-105 | nothing is sent exactly when no item passes the filter; otherwise the kept items, the institution and the other fields |
| OutflowForm.InstitutionIdOf | assets/js/registro-saida.js:105 | an option whose value is an id's decimal text sends that id |
| StockPage.NumberOf | assets/js/estoque.js:33 | `Number` of undefined is NaN, of null 0, of an integer that integer |
| StockPage.QuantityShown | assets/js/estoque.js:33 | a quantity that is not a number shows as 0 |
| StockPage.QuantityOfDecimalText | assets/js/estoque.js:33 | a DECIMAL total sent as text shows as its value |
| StockPage.UnitShown | assets/js/estoque.js:47 | a falsy unit shows as `un`, any other as itself |
| StockPage.BeforeT | assets/js/estoque.js:34 | the expiry is cut before its first `T` |
| StockPage.BeforeTOf | assets/js/estoque.js:34 | a date followed by `T` and a time is cut back to the date |
| StockPage.Validade | assets/js/estoque.js:34 | a missing or empty expiry gives none |
| StockPage.DaysUntil | assets/js/estoque.js:12-21 | no date gives null, an unreadable one NaN, otherwise the days from today |
| StockPage.FormatDate | assets/js/estoque.js:5-10 | a falsy date shows as `—`, an unreadable one as it came |
| StockPage.ExpiryText | assets/js/estoque.js:42 | with no expiry the text is `—` |
| StockPage.Render | assets/js/estoque.js:25-28 | no items gives the single empty-stock row; otherwise one shown row per item, in order |
| StockPage.OverdueText | assets/js/estoque.js:42 | the expiry text ends in ` (Vencido)` exactly for a negative day count |
| StockPage.DangerIffOverdueText | assets/js/estoque.js:38-42 | a row is marked `table-danger` exactly when its text says ` (Vencido)` |
| StockPage.Urgencies | assets/js/estoque.js:37-42 | class and text for each case: no date, NaN, past, today, one to seven days, later |
| StockPage.ShowsReported | assets/js/estoque.js:33-47 | a row of `GET /api/estoque` shows its total, its unit (`un` for none) and its description |

## Left out

- I/O plumbing is not modelled: Express, CORS, static files, the MySQL pool, schema bootstrap, logging and process handlers. It holds no logic to state.
- The report endpoints `/api/relatorios/*` and the `GET /api/saidas` join are not modelled. They are plain SELECTs. The pages take their answers as input.
- Concurrency is not modelled. The lot query takes no row lock, and requests are modelled one at a time.
- `LIKE` is modelled as a substring test. The `%`/`_` wildcards inside the search text are not modelled.
- Collation is not modelled: every text comparison is exact, code point by code point. Neither the schema (server.js:72-79) nor the pool (server.js:21-30) sets a collation, so the server's default collation applies to them all; MySQL's defaults ignore case (and, for `utf8mb4_0900_ai_ci`, accents). This affects:
  - `Allocation.IsCandidate` and its unit test, the `descricao = ?` and `unidade = ?` of server.js:444: a lot `Arroz` is a candidate for a demand `arroz` there, not here;
  - `StockView.InStock` (`LIKE` and `unidade = ?`, server.js:213-224) and `StockView.LotPreview` (`descricao = ?`, server.js:256);
  - `StockView.Aggregate`: `GROUP BY descricao, unidade` (server.js:226) makes one group of `Arroz` and `arroz`, where the model makes two;
  - `StockView.TextLe`: `ORDER BY descricao` (server.js:241) follows the collation, the model code-point order.
- Floating point is not modelled. Quantities are exact hundredths. `Math.ceil` over milliseconds and daylight-saving effects in `daysUntil` become a day difference.
- Date parsing (`new Date`), `toLocaleDateString` and `CURDATE()` are parameters.
- Number syntaxes are partly covered:
  - `Text.ParseHundredths` (quantities typed in the form, totals sent as text, and the `venc` bound of `StockView.ParseVenc`) reads an optional sign, digits, and an optional point with at most two decimals (`5`, `1.5`, `.25`, `2.50`). Text with three or more decimals, an exponent, a hexadecimal prefix or `Infinity` reads as None (NaN) here, while JavaScript reads a number.
  - `Text.JsNumber` (the institution id of `OutflowForm.InstitutionId`) reads only integers with an optional sign. A fraction or any other syntax reads as None (NaN).
- Database refusals are partly covered. Which INSERT the database refuses is the parameter `failAt` of `Store.Store.ReceiveDonation`. Its causes are not modelled: an item whose `descricao` or `quantidade` is missing (`undefined` is refused as a bind parameter), a `id_doador` no donor has (a foreign-key violation), or a value too long for its column. An SQL error inside `POST /api/saidas` (the 500 path) is not modelled.
- Store.Store.ReceiveDonation: an item whose `descricao` or `quantidade` is JSON `null` is not modelled, because `DonationItem` holds a text and a number. server.js:186-190 binds such values unchanged, and both columns accept NULL (server.js:74-75), so the source stores a lot with a NULL description or quantity. A lot with a NULL description fails `descricao = ?` and `LIKE`, so it matches no modelled query. A lot with a NULL quantity fails `quantidade > 0`, so it is outside the stock list (server.js:218) and the allocation (server.js:444). It is still listed by the description preview (server.js:256), which `StockView.LotPreview` cannot show.
- Store.Normalize: a request line whose `quantidade` is JSON text is not modelled, because `RequestLine` holds a number or nothing. server.js:437 reads it with `Number(it.quantidade || 0)`. Numeric text such as `"5"` then behaves like the number 5, which the model can express. Non-numeric text gives NaN, and NaN passes every test of the line loop: `qtdNeeded <= 0` is false, so the line is not skipped (server.js:438) and the draw loop does not stop (server.js:450). Each draw `Math.min(available, NaN)` is NaN, and it is bound into the record and the lot update (server.js:453-463). Then `qtdNeeded > 0` is false, so there is no rollback (server.js:468) and the request commits. `Store.Skipped` and `Store.RunLines` cannot produce this path. What the database does with a NaN bind is outside the model too. The form of registro-saida.js never sends text here: it sends NaN as JSON null, which the model reads as 0.
- PrestacaoReport.DetailCsv, PrestacaoReport.ExportDetail, PrestacaoReport.Body, PrestacaoReport.PushItemLines and PrestacaoReport.PushBodyLines model the corrected export of ## Findings, with the description escaped once. The line as written is `PrestacaoReport.DetailLineAsWritten`, and `PrestacaoReport.AsWrittenLineAgrees` proves it is the corrected line exactly for items whose description holds no double quote.
- SQL ORDER BY is modelled by an insertion sort. Sortedness and permutation are proved. The order among ties, which SQL leaves open, is not claimed.
- Map aliasing is not modelled. The `Map` of `groupBySaida` is a map from ids to positions in a sequence of groups, updated by value. The identity of the group objects shared between the map and the array is not modelled.
- `descricao.trim()` on a value that is not a string throws, and that path is not modelled. Descriptions are strings or absent.
- All DOM work, `fetch`, `Blob` downloads, alerts and modals are not modelled. The on-screen tables of the report pages are not modelled either.
- Reports.ToCsvReads: stated for a non-empty column list, because with none the header is an empty line a reader skips. The page always passes four or five columns.
- EntradasReport.ToCsvReads: stated for at least two columns, because a one-column record whose value is null is an empty line a reader skips. The page has five.
- Store.Store.ReceiveDonation: does not state the counters after a refusal beyond "not decreased". The header id and the ids of the lots inserted before the refusal stay used.

## Findings

| source | as written | input that shows it | evidently intended | confidence | as-written member | corrected member |
|---|---|---|---|---|---|---|
| assets/js/relatorio-prestacao.js:100-104 | the description is quote-escaped at line 100 and again by the map at line 104, so each `"` in it becomes four in the file | an item whose `descricao` is `"`: a CSV reader reads the field back as `""` | each field escaped once, so the reader gets the description as stored | not executed | PrestacaoReport.AsWrittenChangesDescription | PrestacaoReport.DetailCsvReads |
