/**
 * `csvEscape`, `normalizeCellValue` and `buildCSV`: one header record of
 * column labels, then one record per order whose cells are read by the
 * column paths, all joined with CRLF.
 */
module CsvExport {
  import opened Wrappers
  import opened JsText
  import opened JsValue
  import opened PathResolver
  import opened FieldCatalogue
  import opened Csv

  /**
   * `String(v)`: text as is, integers in decimal, booleans as `true` and
   * `false`, arrays as their elements joined with `,` (null and undefined
   * elements as empty text), other objects as `[object Object]`.
   */
  function JsString(v: Value): string
    decreases v
  {
    match v
    case Null => "null"
    case Undef => "undefined"
    case Str(s) => s
    case Num(n) => IntToDecimal(n)
    case Bool(b) => if b then "true" else "false"
    case Arr(items) =>
      Join(seq(|items|, i requires 0 <= i < |items| => if IsNullish(items[i]) then "" else JsString(items[i])), ",")
    case Obj(_) => "[object Object]"
  }

  /** `csvEscape`: empty for null and undefined, otherwise the RFC 4180 quoting of `String(value)`. */
  function CsvEscape(v: Value): (r: string)
    ensures IsNullish(v) ==> r == ""
    ensures !IsNullish(v) && !NeedsQuoting(JsString(v)) ==> r == JsString(v)
    ensures !IsNullish(v) && NeedsQuoting(JsString(v)) ==> |r| >= 2 && r[0] == '"' && r[|r| - 1] == '"'
  {
    if IsNullish(v) then "" else EscapeText(JsString(v))
  }

  /** A string, number or boolean: what `normalizeCellValue` hands on. */
  predicate IsPrimitive(v: Value) {
    v.Str? || v.Num? || v.Bool?
  }

  /**
   * `normalizeCellValue`: null and undefined become empty text, strings,
   * numbers and booleans pass through, anything else is replaced by its
   * JSON text (`stringify` stands for `JSON.stringify`).
   */
  function Normalize(v: Value, stringify: Value -> string): (r: Value)
    ensures IsPrimitive(r)
    ensures IsNullish(v) ==> r == Str("")
    ensures IsPrimitive(v) ==> r == v
    ensures !IsNullish(v) && !IsPrimitive(v) ==> r == Str(stringify(v))
  {
    if IsNullish(v) then Str("")
    else if IsPrimitive(v) then v
    else Str(stringify(v))
  }

  /**
   * One cell of an order's row: the export timestamp for the synthetic
   * column, otherwise the normalized value at the column path.
   */
  function Cell(col: Column, order: Value, timestamp: string, stringify: Value -> string): Value {
    if col.path == StaticTimestampPath then Str(timestamp)
    else Normalize(Resolve(order, col.path), stringify)
  }

  /** `cells.map(csvEscape).join(",")`. */
  function Line(cells: seq<Value>): string {
    Join(seq(|cells|, i requires 0 <= i < |cells| => CsvEscape(cells[i])), ",")
  }

  /** `columns.map((c) => c.label)`. */
  function Headers(cols: seq<Column>): seq<Value> {
    seq(|cols|, i requires 0 <= i < |cols| => Str(cols[i].title))
  }

  /** The cells of one order, in column order. */
  function Row(cols: seq<Column>, order: Value, timestamp: string, stringify: Value -> string): seq<Value> {
    seq(|cols|, i requires 0 <= i < |cols| => Cell(cols[i], order, timestamp, stringify))
  }

  /** One line per order, in order. */
  function DataLines(cols: seq<Column>, orders: seq<Value>, timestamp: string, stringify: Value -> string): (r: seq<string>)
    ensures |r| == |orders|
    ensures forall k :: 0 <= k < |orders| ==> r[k] == Line(Row(cols, orders[k], timestamp, stringify))
  {
    seq(|orders|, k requires 0 <= k < |orders| => Line(Row(cols, orders[k], timestamp, stringify)))
  }

  /** The header line, then one line per order. */
  function Lines(cols: seq<Column>, orders: seq<Value>, timestamp: string, stringify: Value -> string): seq<string> {
    [Line(Headers(cols))] + DataLines(cols, orders, timestamp, stringify)
  }

  /** `buildCSV`: the header line and one line per order, joined with CRLF. */
  function BuildCsv(cols: seq<Column>, orders: seq<Value>, timestamp: string, stringify: Value -> string): string {
    Join(Lines(cols, orders, timestamp, stringify), "\r\n")
  }

  /** The labels of the columns, as text. */
  function Titles(cols: seq<Column>): (r: seq<string>)
    ensures |r| == |cols| && forall i :: 0 <= i < |cols| ==> r[i] == cols[i].title
  {
    seq(|cols|, i requires 0 <= i < |cols| => cols[i].title)
  }

  /** The text of the cells of one order, as a reader of the file sees them. */
  function RowTexts(cols: seq<Column>, order: Value, timestamp: string, stringify: Value -> string): (r: seq<string>)
    ensures |r| == |cols|
    ensures forall i :: 0 <= i < |cols| ==> r[i] == JsString(Cell(cols[i], order, timestamp, stringify))
  {
    seq(|cols|, i requires 0 <= i < |cols| => JsString(Cell(cols[i], order, timestamp, stringify)))
  }

  /** The cell texts of each order, in order. */
  function DataRecords(cols: seq<Column>, orders: seq<Value>, timestamp: string, stringify: Value -> string): (r: seq<seq<string>>)
    ensures |r| == |orders|
    ensures forall k :: 0 <= k < |orders| ==> r[k] == RowTexts(cols, orders[k], timestamp, stringify)
  {
    seq(|orders|, k requires 0 <= k < |orders| => RowTexts(cols, orders[k], timestamp, stringify))
  }

  /**
   * What a reader of the file gets: a header record holding the column
   * labels, then per order, in order, one record holding the text of each
   * cell in column order.
   */
  function Records(cols: seq<Column>, orders: seq<Value>, timestamp: string, stringify: Value -> string): seq<seq<string>> {
    [Titles(cols)] + DataRecords(cols, orders, timestamp, stringify)
  }

  /** A text without a quote, comma, CR or LF is written as it is. */
  lemma CsvEscapePlainText(s: string)
    requires !NeedsQuoting(s)
    ensures CsvEscape(Str(s)) == s
  {
  }

  /** Every value that is not null or undefined is written so that the reader gets `String(value)` back. */
  lemma CsvEscapeRoundTrip(v: Value)
    requires !IsNullish(v)
    ensures ParseField(CsvEscape(v)) == Some(Scan(JsString(v), []))
  {
    EscapeRoundTrip(JsString(v), []);
    assert CsvEscape(v) + [] == CsvEscape(v);
  }

  /** The timestamp column never reads the order: every order gets the timestamp. */
  lemma StaticCellIgnoresOrder(col: Column, a: Value, b: Value, timestamp: string, stringify: Value -> string)
    requires col.path == StaticTimestampPath
    ensures Cell(col, a, timestamp, stringify) == Cell(col, b, timestamp, stringify) == Str(timestamp)
  {
  }

  /** Null, undefined and primitive values at a column path are written as `String` of themselves, or empty. */
  lemma PathCellText(col: Column, order: Value, timestamp: string, stringify: Value -> string)
    requires col.path != StaticTimestampPath
    ensures IsNullish(Resolve(order, col.path)) ==> JsString(Cell(col, order, timestamp, stringify)) == ""
    ensures IsPrimitive(Resolve(order, col.path)) ==> Cell(col, order, timestamp, stringify) == Resolve(order, col.path)
  {
  }

  lemma LineOfTexts(cells: seq<Value>)
    requires forall i :: 0 <= i < |cells| ==> !IsNullish(cells[i])
    ensures Line(cells) == EncodeRecord(seq(|cells|, i requires 0 <= i < |cells| => JsString(cells[i])))
  {
    var texts := seq(|cells|, i requires 0 <= i < |cells| => JsString(cells[i]));
    assert seq(|cells|, i requires 0 <= i < |cells| => CsvEscape(cells[i]))
        == seq(|texts|, i requires 0 <= i < |texts| => EscapeText(texts[i]));
  }

  lemma HeaderLine(cols: seq<Column>)
    ensures Line(Headers(cols)) == EncodeRecord(Titles(cols))
  {
    var cells := Headers(cols);
    LineOfTexts(cells);
    assert seq(|cells|, i requires 0 <= i < |cells| => JsString(cells[i])) == Titles(cols);
  }

  lemma RowLine(cols: seq<Column>, order: Value, timestamp: string, stringify: Value -> string)
    ensures Line(Row(cols, order, timestamp, stringify)) == EncodeRecord(RowTexts(cols, order, timestamp, stringify))
  {
    var cells := Row(cols, order, timestamp, stringify);
    LineOfTexts(cells);
    assert seq(|cells|, i requires 0 <= i < |cells| => JsString(cells[i])) == RowTexts(cols, order, timestamp, stringify);
  }

  lemma DataLinesEncode(cols: seq<Column>, orders: seq<Value>, timestamp: string, stringify: Value -> string)
    ensures DataLines(cols, orders, timestamp, stringify) == EncodedLines(DataRecords(cols, orders, timestamp, stringify))
  {
    var dataLines := DataLines(cols, orders, timestamp, stringify);
    var dataRecords := DataRecords(cols, orders, timestamp, stringify);
    forall k | 0 <= k < |orders| ensures dataLines[k] == EncodeRecord(dataRecords[k]) {
      RowLine(cols, orders[k], timestamp, stringify);
    }
    EncodedPointwise(dataLines, dataRecords);
  }

  lemma LinesEncodeRecords(cols: seq<Column>, orders: seq<Value>, timestamp: string, stringify: Value -> string)
    ensures Lines(cols, orders, timestamp, stringify) == EncodedLines(Records(cols, orders, timestamp, stringify))
  {
    HeaderLine(cols);
    DataLinesEncode(cols, orders, timestamp, stringify);
    EncodedLinesCons(Titles(cols), DataRecords(cols, orders, timestamp, stringify));
  }

  lemma RecordsHaveFields(cols: seq<Column>, orders: seq<Value>, timestamp: string, stringify: Value -> string)
    ensures var records := Records(cols, orders, timestamp, stringify);
      |records| == |orders| + 1 && forall i :: 0 <= i < |records| ==> |records[i]| == |cols|
  {
    var records := Records(cols, orders, timestamp, stringify);
    var dataRecords := DataRecords(cols, orders, timestamp, stringify);
    forall i | 0 <= i < |records| ensures |records[i]| == |cols| {
      if i > 0 {
        assert records[i] == dataRecords[i - 1];
      }
    }
  }

  /**
   * Reading the exported file back gives one header record holding the
   * column labels and, per order and in order, a record holding one cell
   * text per column, in column order. It needs at least one column: with
   * none, every line is empty and reads back as one empty field.
   */
  lemma BuildCsvRoundTrip(cols: seq<Column>, orders: seq<Value>, timestamp: string, stringify: Value -> string)
    requires |cols| >= 1
    ensures ParseCsv(BuildCsv(cols, orders, timestamp, stringify)) == Some(Records(cols, orders, timestamp, stringify))
  {
    LinesEncodeRecords(cols, orders, timestamp, stringify);
    RecordsHaveFields(cols, orders, timestamp, stringify);
    ParseCsvEncoded(Records(cols, orders, timestamp, stringify));
  }

}
