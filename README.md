# Order export template: field projection and CSV export

This project models the order-export template editor of a Shopify order
sync app (`app/components/OrderExportTemplate/index.tsx`). A merchant picks
export columns from a fixed catalogue of order fields and searches the
catalogue by label. The merchant reorders the columns by drag and drop,
saves or cancels the selection dialog, and downloads the orders as a CSV
file. Each column cell is read from the order record by a dotted path.

The model has these modules:

- `JsValue`: the order record as a closed sum of JavaScript values.
- `JsText`: the string built-ins the component uses, written out over
  `seq<char>`.
- `PathResolver`: `getByPath`. The method `GetByPath` is the source's loop,
  proved equal to the recursive walk `Resolve`.
- `FieldCatalogue`: the 57-entry catalogue, `DEFAULT_FIELDS` and the label
  search.
- `ColumnSet`: the pure column computations, that is drag reordering
  (`findIndex` plus `arrayMove`) and the rebuild on save.
- `Csv`: the quoting of `csvEscape` and an RFC 4180 reader that undoes it.
- `CsvExport`: `csvEscape`, `normalizeCellValue` and `buildCSV`.
- `Download`: the file name and the byte-order-mark prefix of `downloadCSV`.
- `ExportTemplate`: the component state as the class `TemplateEditor`.
  Each event handler is a method that replaces fields as the component's
  `set...` calls do.

The main results:

- `GetByPath` computes `Resolve`.
- Catalogue paths are distinct, and exactly one of them, the export
  timestamp, is synthetic.
- The search returns exactly the matching entries, in catalogue order.
- A drag is a permutation that puts the dragged column at the target's
  index and keeps the other columns in order.
- A save keeps exactly the known draft paths, in draft order. Saving twice
  is saving once. A save from a draft without repeated paths keeps a
  well-formed column list well formed, and the draft the dialog opens with
  has no repeated paths.
- Reading the exported CSV back with an RFC 4180 reader gives the header
  labels, then per order one text per column.

Three facts about the code that a reader might not expect:

- `getByPath` (index.tsx:35-62) does not strip a leading `raw.`. Cells
  walk `order.raw...` (index.tsx:256). The `raw.` stripping happens only
  in the display row (SortableFieldRow.tsx:55), which is not modelled.
- `getByPath` does not rewrite `[]` to `[0]`. A segment `key[]` does not
  match `/^(.+?)\[(\d+)\]$/`, so it is looked up as a plain key.
- The timestamp field is recognised by equality with
  `__static.exportedTimestamp` (index.tsx:255), not by its namespace.

## Model

| member | source | states |
|---|---|---|
| JsText.Trim | app/components/OrderExportTemplate/index.tsx:40 | the result has no whitespace at either end, and it occurs in the input at a position where everything before it and everything after it is whitespace: exactly the surrounding whitespace is cut |
| JsText.TrimEmptyIff | app/components/OrderExportTemplate/index.tsx:276 | `trim` gives the empty string exactly when the input is all whitespace |
| JsText.TrimOfTrimmed | app/components/OrderExportTemplate/index.tsx:40 | `trim` leaves text without surrounding whitespace unchanged |
| JsText.LowerIdempotent | app/components/OrderExportTemplate/index.tsx:148 | lower-casing twice is lower-casing once |
| JsText.ContainsIff | app/components/OrderExportTemplate/index.tsx:148 | `includes` holds exactly when the needle occurs at some position |
| JsText.Split | app/components/OrderExportTemplate/index.tsx:39 | `split` gives at least one part, and no part holds the separator |
| JsText.JoinSplit | app/components/OrderExportTemplate/index.tsx:39 | joining the parts of a split with the separator gives the string back |
| JsText.SplitJoin | app/components/OrderExportTemplate/index.tsx:39 | splitting a join of separator-free parts gives the parts back |
| JsText.NatToDecimal | app/components/OrderExportTemplate/index.tsx:238 | `String(n)` is non-empty ASCII digits with no leading zero |
| JsText.DecimalRoundTrip | app/components/OrderExportTemplate/index.tsx:51 | `Number` of the decimal text of `n` is `n` |
| PathResolver.ParseSegment | app/components/OrderExportTemplate/index.tsx:48-51 | a segment is a plain key exactly when `/^(.+?)\[(\d+)\]$/` does not match; otherwise the key is the text before the bracket and the index is the value of the digits |
| PathResolver.IndexedAtLastBracket | app/components/OrderExportTemplate/index.tsx:48 | the only place the regular expression can split a segment is its last `[` |
| PathResolver.ParseIndexedText | app/components/OrderExportTemplate/index.tsx:48-51 | `key[n]` is read back as key `key` and index `n` |
| PathResolver.NonEmpty | app/components/OrderExportTemplate/index.tsx:41 | `.filter(Boolean)` keeps every non-empty part and only non-empty parts of the input, and never lengthens the list |
| PathResolver.NonEmptyConcat | app/components/OrderExportTemplate/index.tsx:41 | the filter distributes over concatenation, so the kept parts stay in input order |
| PathResolver.Segments | app/components/OrderExportTemplate/index.tsx:38-41 | every segment the loop walks, after `split`, `trim` of each part (`TrimEach`) and `.filter(Boolean)`, is non-empty, trimmed and free of dots |
| PathResolver.GetByPath | app/components/OrderExportTemplate/index.tsx:35-62 | the loop with its early returns computes `Resolve`: `undefined` for the empty path, else the walk over the segments |
| PathResolver.WalkOneStep | app/components/OrderExportTemplate/index.tsx:45-58 | one loop turn on a value that is not nullish takes the step for the next segment |
| PathResolver.WalkFromUndef | app/components/OrderExportTemplate/index.tsx:46 | once the current value is `undefined`, every remaining walk gives `undefined` |
| PathResolver.WalkAppend | app/components/OrderExportTemplate/index.tsx:45-59 | walking a segment list in two pieces is walking it whole |
| PathResolver.ResolveNullish | app/components/OrderExportTemplate/index.tsx:46 | a null or undefined record resolves to `undefined` under any path with a segment |
| PathResolver.ResolveDotsOnly | app/components/OrderExportTemplate/index.tsx:36-41 | a non-empty path made only of dots and whitespace has no segments and returns the record unchanged |
| PathResolver.SegmentsOfJoin | app/components/OrderExportTemplate/index.tsx:38-41 | trimmed, dot-free, non-empty segments joined with `.` split, trim (`TrimEach`) and filter back into exactly those segments |
| PathResolver.WalkIndexed | app/components/OrderExportTemplate/index.tsx:48-55 | `key[n]` reads field `key` of an object (`Get`), then gives `undefined` unless that is an array; an in-range `n` continues from element `n`, an out-of-range one gives `undefined` |
| PathResolver.WalkKey | app/components/OrderExportTemplate/index.tsx:58 | a plain segment (`Get`) continues from the object's field, or gives `undefined` on a non-object or a missing key |
| FieldCatalogue.FindByPath | app/components/OrderExportTemplate/index.tsx:216 | `find` gives the first catalogue entry with that path (no earlier entry has it), or nothing when no entry has it |
| FieldCatalogue.CataloguePathsDistinct | app/components/OrderExportTemplate/index.tsx:63-143 | no two catalogue entries share a path |
| FieldCatalogue.CataloguePathStarts | app/components/OrderExportTemplate/index.tsx:63-143 | entry 50 is the export timestamp; every other path starts with the `r` of `raw.` |
| FieldCatalogue.ExactlyOneStaticField | app/components/OrderExportTemplate/index.tsx:130-131 | exactly one entry, the export timestamp, has a path in the `__static.` namespace, and no other entry has its path |
| FieldCatalogue.DefaultFieldsInCatalogue | app/components/OrderExportTemplate/index.tsx:28-33 | each default column's label and path form a catalogue entry, and the four default ids are distinct |
| FieldCatalogue.IncludesSearchIff | app/components/OrderExportTemplate/index.tsx:146-149 | a label matches exactly when the query is empty or the lower-cased query occurs in the lower-cased label |
| FieldCatalogue.IncludesSearchIgnoresCase | app/components/OrderExportTemplate/index.tsx:146-149 | lower-casing the query does not change the search |
| FieldCatalogue.Search | app/components/OrderExportTemplate/index.tsx:180-184 | the result is no longer than the catalogue, and every entry in it is a matching catalogue entry |
| FieldCatalogue.SearchMembers | app/components/OrderExportTemplate/index.tsx:180-184 | an entry is listed exactly when it is in the catalogue and its label matches |
| FieldCatalogue.SearchConcat | app/components/OrderExportTemplate/index.tsx:180-184 | the filter distributes over concatenation, so the listing keeps catalogue order |
| FieldCatalogue.SearchEmptyQuery | app/components/OrderExportTemplate/index.tsx:147 | an empty query lists the whole catalogue in order |
| ColumnSet.ArrayMove | app/components/OrderExportTemplate/index.tsx:196 | `arrayMove` puts the element at `from` at `to`, and removing it from both lists leaves the same list |
| ColumnSet.ArrayMovePermutation | app/components/OrderExportTemplate/index.tsx:196 | a move is a permutation |
| ColumnSet.ArrayMoveInverse | app/components/OrderExportTemplate/index.tsx:196 | moving back from the target to the source undoes a move |
| ColumnSet.ArrayMoveSame | app/components/OrderExportTemplate/index.tsx:196 | a move onto its own index changes nothing |
| ColumnSet.IndexOfId | app/components/OrderExportTemplate/index.tsx:194-195 | `findIndex` gives the first column with the id, or -1 when none has it |
| ColumnSet.Reorder | app/components/OrderExportTemplate/index.tsx:187-198 | no target or a drop onto itself leaves the columns unchanged; otherwise the result is a permutation with the dragged column at the target's old index and the other columns in their relative order |
| ColumnSet.PathMap | app/components/OrderExportTemplate/index.tsx:209 | every column path is a key, and each key maps to a column with that path |
| ColumnSet.PathMapLastWins | app/components/OrderExportTemplate/index.tsx:209 | when columns share a path, the map holds the last of them |
| ColumnSet.Rebuild | app/components/OrderExportTemplate/index.tsx:211-225 | every rebuilt column comes from a draft path and is what that path resolves to |
| ColumnSet.KnownPaths | app/components/OrderExportTemplate/index.tsx:213-217 | the kept paths are draft paths that are already column paths or catalogue paths |
| ColumnSet.ColumnForKnown | app/components/OrderExportTemplate/index.tsx:213-217 | a draft path yields a column exactly when it is known, and the column carries that path |
| ColumnSet.SavePaths | app/components/OrderExportTemplate/index.tsx:207-226 | the saved columns' paths (`Paths`, `columns.map(c => c.path)`) are exactly the known draft paths, in draft order |
| ColumnSet.SaveColumnOrigin | app/components/OrderExportTemplate/index.tsx:209-223 | a saved column is the last old column with its path, unchanged, or a new column with `id = path` and the catalogue label |
| ColumnSet.ColumnForSaved | app/components/OrderExportTemplate/index.tsx:209-217 | after a save, every draft path resolves as it did before the save |
| ColumnSet.SaveIdempotent | app/components/OrderExportTemplate/index.tsx:207-226 | saving twice with the same draft gives the same columns as saving once |
| ColumnSet.SaveCurrentPaths | app/components/OrderExportTemplate/index.tsx:202-226 | opening the dialog (draft = `Paths` of the columns) and saving it untouched leaves columns with distinct paths unchanged |
| ColumnSet.DefaultFieldsWellFormed | app/components/OrderExportTemplate/index.tsx:28-33 | the default columns are well formed: distinct paths, each a default or catalogue column |
| ColumnSet.WellFormedIdsUnique | app/components/OrderExportTemplate/index.tsx:194-195 | in a well-formed list, the ids that `findIndex` searches by are distinct |
| ColumnSet.SaveWellFormed | app/components/OrderExportTemplate/index.tsx:207-226 | a save from a draft without repeated paths keeps the columns well formed |
| ColumnSet.WellFormedPathsNoRepeats | app/components/OrderExportTemplate/index.tsx:203 | the draft opened from well-formed columns has no repeated path |
| ColumnSet.MovePathsUnique | app/components/OrderExportTemplate/index.tsx:196 | a move keeps column paths distinct |
| ColumnSet.ReorderWellFormed | app/components/OrderExportTemplate/index.tsx:187-198 | a drag keeps the columns well formed |
| Csv.EscapeText | app/components/OrderExportTemplate/index.tsx:239-240 | text without `"`, `,`, CR or LF is unchanged; other text is enclosed in double quotes |
| Csv.ParseQuotedDoubled | app/components/OrderExportTemplate/index.tsx:239 | the body with each `"` doubled, then a closing quote, reads back as the original text |
| Csv.ParseBareText | app/components/OrderExportTemplate/index.tsx:240 | text without a comma, CR or LF reads back unquoted |
| Csv.EscapeRoundTrip | app/components/OrderExportTemplate/index.tsx:239-240 | the RFC 4180 reader reads every escaped field back as its text |
| Csv.ParseRecordEncoded | app/components/OrderExportTemplate/index.tsx:262-263 | a comma-joined line of escaped fields reads back as those fields |
| Csv.ParseCsvEncoded | app/components/OrderExportTemplate/index.tsx:261-266 | CRLF-joined encoded records (`EncodedLines`, one `EncodeRecord` per record), each with a field, read back as the records |
| CsvExport.CsvEscape | app/components/OrderExportTemplate/index.tsx:236-241 | null and undefined give the empty text; a value whose text needs no quoting is written as its text; otherwise the text is enclosed in quotes |
| CsvExport.Normalize | app/components/OrderExportTemplate/index.tsx:243-249 | null and undefined become empty text, strings, numbers and booleans pass through, anything else becomes its JSON text |
| CsvExport.CsvEscapePlainText | app/components/OrderExportTemplate/index.tsx:239-240 | a string without `"`, `,`, CR or LF is written unchanged |
| CsvExport.CsvEscapeRoundTrip | app/components/OrderExportTemplate/index.tsx:236-241 | every value that is not null or undefined reads back as `String(value)` |
| CsvExport.StaticCellIgnoresOrder | app/components/OrderExportTemplate/index.tsx:255 | the timestamp column gives the timestamp for every order, without reading the order |
| CsvExport.PathCellText | app/components/OrderExportTemplate/index.tsx:256-257 | a nullish value at a column path is written as empty text, and a primitive value as itself |
| CsvExport.HeaderLine | app/components/OrderExportTemplate/index.tsx:262 | the header line is the encoding of the column labels |
| CsvExport.RowLine | app/components/OrderExportTemplate/index.tsx:263 | an order's line is the encoding of its cell texts |
| CsvExport.LinesEncodeRecords | app/components/OrderExportTemplate/index.tsx:261-264 | the lines of `buildCSV` (the header line, then `DataLines`) are the encodings of the label record (`Titles`) and of each order's cell texts (`DataRecords` of `RowTexts`), header first |
| CsvExport.RecordsHaveFields | app/components/OrderExportTemplate/index.tsx:252-264 | there are one more records than orders, each with one field per column |
| CsvExport.BuildCsvRoundTrip | app/components/OrderExportTemplate/index.tsx:251-267 | with at least one column, the file reads back as the labels (`Titles`), then per order and in order one text per column (`RowTexts`) |
| Download.TemplateName | app/components/OrderExportTemplate/index.tsx:276 | the template name is non-empty and has no surrounding whitespace |
| Download.TemplateNameDefault | app/components/OrderExportTemplate/index.tsx:276 | a missing, empty or all-whitespace name gives `order-export-template` |
| Download.TemplateNameEntered | app/components/OrderExportTemplate/index.tsx:276 | any other name is used trimmed |
| Download.FilenameParts | app/components/OrderExportTemplate/index.tsx:276-278 | for an ISO time stamp the file name is the template name, `-`, the ten-character date (`DatePart`) and `.csv` |
| ExportTemplate.TemplateEditor.constructor | app/components/OrderExportTemplate/index.tsx:158-174 | the editor starts with the default columns, an empty draft and query, nothing dragged and no name, and its columns are well formed (`Valid`) |
| ExportTemplate.TemplateEditor.AvailableFields | app/components/OrderExportTemplate/index.tsx:180-184 | the listed fields are matching catalogue entries; with an empty query, the whole catalogue |
| ExportTemplate.TemplateEditor.ActiveColumn | app/components/OrderExportTemplate/index.tsx:200 | the first column with the dragged id (no earlier column has it), or nothing when no column has it |
| ExportTemplate.TemplateEditor.DragStart | app/components/OrderExportTemplate/index.tsx:331 | records the dragged id and changes nothing else |
| ExportTemplate.TemplateEditor.DragEnd | app/components/OrderExportTemplate/index.tsx:187-198 | clears the dragged id and sets the columns to `Reorder` of the old ones; well-formed columns stay well formed |
| ExportTemplate.TemplateEditor.OpenAddFieldModal | app/components/OrderExportTemplate/index.tsx:202-204 | the draft becomes the current column paths, with no repeated path when the columns are well formed |
| ExportTemplate.TemplateEditor.SetDraft | app/components/OrderExportTemplate/ModalField.tsx:49 | the dialog's selection replaces the draft and nothing else |
| ExportTemplate.TemplateEditor.SetQuery | app/components/OrderExportTemplate/index.tsx:297 | the search text replaces the query and nothing else |
| ExportTemplate.TemplateEditor.SetStoreName | app/components/OrderExportTemplate/index.tsx:308-309 | the entered template name replaces the stored one and nothing else |
| ExportTemplate.TemplateEditor.SaveFields | app/components/OrderExportTemplate/index.tsx:207-229 | the columns become the rebuild of the draft, carrying exactly the known draft paths; the query is cleared; well-formed columns stay well formed after a save from a draft without repeated paths |
| ExportTemplate.TemplateEditor.CancelFields | app/components/OrderExportTemplate/index.tsx:231-234 | the draft is reset to the column paths, with no repeated path when the columns are well formed, and the query is cleared; the columns are unchanged |
| ExportTemplate.TemplateEditor.Csv | app/components/OrderExportTemplate/index.tsx:251-267 | with at least one column, the CSV of the current columns reads back as labels and cell texts |
| ExportTemplate.TemplateEditor.DownloadName | app/components/OrderExportTemplate/index.tsx:276-278 | for an ISO time stamp, the download name splits into the template name, `-`, the date and `.csv` |

## Left out

- The browser download itself is not modelled: the `Blob`, the object URL, the DOM anchor and its click (index.tsx:270-288). Only the file name and the byte-order-mark prefix of the content are modelled.
- FileContent: the byte-order-mark prefix is written out as a definition; nothing is proved about the concatenation beyond its shape.
- Clocks are not modelled. `buildCSV` reads `new Date().toISOString()` once per timestamp cell; the model takes one `timestamp` parameter for all cells. The date in the file name is also a parameter.
- `JSON.stringify` is the parameter `stringify`. Object key order cannot be observed in a `map`.
- Numbers are integers. `String(number)` is decimal text for integers only; fractions, exponents, NaN and infinities are not modelled.
- PathResolver.ParseSegment: `Number(m[2])` is taken as an unbounded integer. Precision loss beyond 2^53 is not modelled.
- `toLowerCase` is ASCII case folding only. Unicode case mapping is not modelled.
- JsValue.Get: a plain segment only reads object fields. `array["0"]`, `string.length` and other JavaScript property quirks are not modelled.
- ColumnSet.Reorder and ExportTemplate.TemplateEditor.DragEnd require both ids to name columns when a drop acts. `arrayMove` with a `findIndex` result of -1 depends on the drag-and-drop library and is not modelled.
- Csv.EscapeText does not state the quoted text character by character. Its partner Csv.EscapeRoundTrip states that reading the text back gives the original.
- CsvExport.BuildCsvRoundTrip needs at least one column. With no columns every line is empty and reads back as one empty field, so the round trip does not hold.
- React rendering is not modelled: hooks, `DndContext`/`DragOverlay`, the JSX table and `SortableFieldRow.tsx`. `SortableFieldRow.tsx` also calls helpers it does not define, so its display formatting cannot be read.
- The `isOpen` and `selectedPaths` state and the `console.log` effect are unused by the export logic (index.tsx:160-169).
- `ModalField.tsx` is modelled only through what it hands back: the new selection (`SetDraft`) and the search text (`SetQuery`).
- `useChangeData.tsx` is modelled only as an optional text value. Its parse option, checkbox, file and date branches are not used by the name field.
- The services, routes and webhooks (Shopify GraphQL, Prisma) are network and database plumbing, outside the export template.
