/**
 * The field quoting of `csvEscape` on text, and a reader for the format of
 * section 2 of RFC 4180 that undoes it: records separated by CRLF, fields
 * separated by commas, and fields that hold a double quote, comma, CR or LF
 * enclosed in double quotes with each inner double quote doubled.
 */
module Csv {
  import opened Wrappers
  import opened JsText

  /** `/[",\n\r]/.test(s)`. */
  predicate NeedsQuoting(s: string) {
    '"' in s || ',' in s || '\n' in s || '\r' in s
  }

  /** `s.replace(/"/g, '""')`. */
  function DoubleQuotes(s: string): (r: string)
    ensures |r| >= |s|
  {
    if s == [] then []
    else (if s[0] == '"' then "\"\"" else [s[0]]) + DoubleQuotes(s[1..])
  }

  /** The text part of `csvEscape`: quote when needed, otherwise leave unchanged. */
  function EscapeText(s: string): (r: string)
    ensures !NeedsQuoting(s) ==> r == s
    ensures NeedsQuoting(s) ==> |r| >= |s| + 2 && r[0] == '"' && r[|r| - 1] == '"'
  {
    if NeedsQuoting(s) then "\"" + DoubleQuotes(s) + "\"" else s
  }

  /** A field read from the front of some text, and the text after it. */
  datatype Scan = Scan(value: string, rest: string)

  /** Puts `c` in front of the value of a successful scan. */
  function Prefixed(c: char, r: Option<Scan>): Option<Scan> {
    match r
    case Some(sc) => Some(Scan([c] + sc.value, sc.rest))
    case None => None
  }

  /** The body of a quoted field, after its opening quote, up to the closing quote. */
  function ParseQuoted(s: string): (r: Option<Scan>)
    ensures r.Some? ==> |r.value.rest| < |s|
    decreases |s|
  {
    if s == [] then None
    else if s[0] == '"' then
      if |s| >= 2 && s[1] == '"' then Prefixed('"', ParseQuoted(s[2..]))
      else Some(Scan([], s[1..]))
    else Prefixed(s[0], ParseQuoted(s[1..]))
  }

  /** An unquoted field: everything up to the next comma, CR or LF. */
  function ParseBare(s: string): (r: Scan)
    ensures r.value + r.rest == s
    decreases |s|
  {
    if s == [] || s[0] == ',' || s[0] == '\r' || s[0] == '\n' then Scan([], s)
    else
      var sc := ParseBare(s[1..]);
      Scan([s[0]] + sc.value, sc.rest)
  }

  function ParseField(s: string): (r: Option<Scan>)
    ensures r.Some? ==> |r.value.rest| <= |s|
  {
    if s != [] && s[0] == '"' then ParseQuoted(s[1..]) else Some(ParseBare(s))
  }

  /** The fields of one record, and the text after it. */
  datatype RecordScan = RecordScan(fields: seq<string>, rest: string)

  function ParseRecord(s: string): (r: Option<RecordScan>)
    ensures r.Some? ==> |r.value.fields| >= 1 && |r.value.rest| <= |s|
    decreases |s|
  {
    match ParseField(s)
    case None => None
    case Some(f) =>
      if f.rest != [] && f.rest[0] == ',' then
        match ParseRecord(f.rest[1..])
        case Some(rec) => Some(RecordScan([f.value] + rec.fields, rec.rest))
        case None => None
      else Some(RecordScan([f.value], f.rest))
  }

  /** A whole document: records separated by CRLF, with no CRLF after the last. */
  function ParseCsv(s: string): Option<seq<seq<string>>>
    decreases |s|
  {
    match ParseRecord(s)
    case None => None
    case Some(rec) =>
      if rec.rest == [] then Some([rec.fields])
      else if |rec.rest| >= 2 && rec.rest[0] == '\r' && rec.rest[1] == '\n' then
        match ParseCsv(rec.rest[2..])
        case Some(rs) => Some([rec.fields] + rs)
        case None => None
      else None
  }

  /** `r.map(csvEscape).join(",")` on text fields. */
  function EncodeRecord(fields: seq<string>): string {
    Join(seq(|fields|, i requires 0 <= i < |fields| => EscapeText(fields[i])), ",")
  }

  /** The line of each record. */
  function EncodedLines(records: seq<seq<string>>): (r: seq<string>)
    ensures |r| == |records| && forall i :: 0 <= i < |records| ==> r[i] == EncodeRecord(records[i])
  {
    seq(|records|, i requires 0 <= i < |records| => EncodeRecord(records[i]))
  }

  /** Lines that each encode the record at their index are the encoded lines of those records. */
  lemma EncodedPointwise(lines: seq<string>, records: seq<seq<string>>)
    requires |lines| == |records|
    requires forall i :: 0 <= i < |records| ==> lines[i] == EncodeRecord(records[i])
    ensures lines == EncodedLines(records)
  {
  }

  lemma EncodedLinesCons(first: seq<string>, later: seq<seq<string>>)
    ensures EncodedLines([first] + later) == [EncodeRecord(first)] + EncodedLines(later)
  {
    EncodedPointwise([EncodeRecord(first)] + EncodedLines(later), [first] + later);
  }

  /** `lines.join("\r\n")` of encoded records. */
  function EncodeCsv(records: seq<seq<string>>): string {
    Join(EncodedLines(records), "\r\n")
  }

  lemma ParseQuotedClose(rest: string)
    requires rest == [] || rest[0] != '"'
    ensures ParseQuoted("\"" + rest) == Some(Scan([], rest))
  {
    assert ("\"" + rest)[1..] == rest;
  }

  lemma ParseQuotedPair(tail: string)
    ensures ParseQuoted("\"\"" + tail) == Prefixed('"', ParseQuoted(tail))
  {
    assert ("\"\"" + tail)[2..] == tail;
  }

  lemma ParseQuotedChar(c: char, tail: string)
    requires c != '"'
    ensures ParseQuoted([c] + tail) == Prefixed(c, ParseQuoted(tail))
  {
    assert ([c] + tail)[1..] == tail;
  }

  /**
   * A doubled-quote body followed by the closing quote reads back as the
   * original text, when what follows the closing quote is not itself a quote.
   */
  lemma {:induction false} ParseQuotedDoubled(t: string, rest: string)
    requires rest == [] || rest[0] != '"'
    ensures ParseQuoted(DoubleQuotes(t) + "\"" + rest) == Some(Scan(t, rest))
  {
    if t == [] {
      assert DoubleQuotes(t) + "\"" + rest == "\"" + rest;
      ParseQuotedClose(rest);
    } else {
      var head: string := if t[0] == '"' then "\"\"" else [t[0]];
      var dq := DoubleQuotes(t[1..]);
      assert DoubleQuotes(t) == head + dq;
      var tail := dq + "\"" + rest;
      assert DoubleQuotes(t) + "\"" + rest == head + tail;
      ParseQuotedDoubled(t[1..], rest);
      if t[0] == '"' {
        ParseQuotedPair(tail);
      } else {
        ParseQuotedChar(t[0], tail);
      }
      assert [t[0]] + t[1..] == t;
    }
  }

  /** Text with no comma, CR or LF, followed by a separator or the end, reads back unquoted. */
  lemma {:induction false} ParseBareText(t: string, rest: string)
    requires ',' !in t && '\r' !in t && '\n' !in t
    requires rest == [] || rest[0] == ',' || rest[0] == '\r'
    ensures ParseBare(t + rest) == Scan(t, rest)
  {
    if t == [] {
      assert t + rest == rest;
    } else {
      assert (t + rest)[1..] == t[1..] + rest;
      ParseBareText(t[1..], rest);
      assert [t[0]] + t[1..] == t;
    }
  }

  /** `csvEscape` on text is undone by the reader: the escaped field reads back as the text. */
  lemma EscapeRoundTrip(t: string, rest: string)
    requires rest == [] || rest[0] == ',' || rest[0] == '\r'
    ensures ParseField(EscapeText(t) + rest) == Some(Scan(t, rest))
  {
    if NeedsQuoting(t) {
      var s := EscapeText(t) + rest;
      assert s[1..] == DoubleQuotes(t) + "\"" + rest;
      ParseQuotedDoubled(t, rest);
    } else {
      ParseBareText(t, rest);
      if t != [] {
        assert (t + rest)[0] == t[0];
      }
    }
  }

  /** Puts `v` in front of the fields of a successful record scan. */
  function PrefixedRecord(v: string, r: Option<RecordScan>): Option<RecordScan> {
    match r
    case Some(rec) => Some(RecordScan([v] + rec.fields, rec.rest))
    case None => None
  }

  lemma ParseRecordLast(s: string, v: string, rest: string)
    requires ParseField(s) == Some(Scan(v, rest))
    requires rest == [] || rest[0] != ','
    ensures ParseRecord(s) == Some(RecordScan([v], rest))
  {
  }

  lemma ParseRecordMore(s: string, v: string, tail: string)
    requires ParseField(s) == Some(Scan(v, "," + tail))
    ensures ParseRecord(s) == PrefixedRecord(v, ParseRecord(tail))
  {
    assert ("," + tail)[1..] == tail;
  }

  lemma EncodeRecordCons(fields: seq<string>)
    requires |fields| >= 2
    ensures EncodeRecord(fields) == EscapeText(fields[0]) + "," + EncodeRecord(fields[1..])
  {
    var escaped := seq(|fields|, i requires 0 <= i < |fields| => EscapeText(fields[i]));
    assert escaped[1..] == seq(|fields[1..]|, i requires 0 <= i < |fields[1..]| => EscapeText(fields[1..][i]));
  }

  /** An encoded record followed by the end or a CR reads back as its fields. */
  lemma {:induction false} ParseRecordEncoded(fields: seq<string>, rest: string)
    requires |fields| >= 1
    requires rest == [] || rest[0] == '\r'
    ensures ParseRecord(EncodeRecord(fields) + rest) == Some(RecordScan(fields, rest))
  {
    if |fields| == 1 {
      assert EncodeRecord(fields) == EscapeText(fields[0]);
      EscapeRoundTrip(fields[0], rest);
      ParseRecordLast(EncodeRecord(fields) + rest, fields[0], rest);
      assert [fields[0]] == fields;
    } else {
      var tail := EncodeRecord(fields[1..]) + rest;
      EncodeRecordCons(fields);
      assert EncodeRecord(fields) + rest == EscapeText(fields[0]) + ("," + tail);
      EscapeRoundTrip(fields[0], "," + tail);
      ParseRecordMore(EncodeRecord(fields) + rest, fields[0], tail);
      ParseRecordEncoded(fields[1..], rest);
      assert [fields[0]] + fields[1..] == fields;
    }
  }

  lemma ParseCsvLast(s: string, fields: seq<string>)
    requires ParseRecord(s) == Some(RecordScan(fields, []))
    ensures ParseCsv(s) == Some([fields])
  {
  }

  lemma ParseCsvMore(s: string, fields: seq<string>, tail: string, later: seq<seq<string>>)
    requires ParseRecord(s) == Some(RecordScan(fields, "\r\n" + tail))
    requires ParseCsv(tail) == Some(later)
    ensures ParseCsv(s) == Some([fields] + later)
  {
    assert ("\r\n" + tail)[2..] == tail;
  }

  lemma EncodeCsvCons(records: seq<seq<string>>)
    requires |records| >= 2
    ensures EncodeCsv(records) == EncodeRecord(records[0]) + "\r\n" + EncodeCsv(records[1..])
  {
    assert EncodedLines(records)[1..] == EncodedLines(records[1..]);
  }

  lemma EncodeCsvSingle(records: seq<seq<string>>)
    requires |records| == 1
    ensures EncodeCsv(records) == EncodeRecord(records[0]) + []
  {
  }

  /** Reading an encoded document gives back its records, provided every record has a field. */
  lemma {:induction false} ParseCsvEncoded(records: seq<seq<string>>)
    requires |records| >= 1
    requires forall i :: 0 <= i < |records| ==> |records[i]| >= 1
    ensures ParseCsv(EncodeCsv(records)) == Some(records)
  {
    var s := EncodeCsv(records);
    if |records| == 1 {
      EncodeCsvSingle(records);
      ParseRecordEncoded(records[0], []);
      ParseCsvLast(s, records[0]);
      assert [records[0]] == records;
    } else {
      var tail := EncodeCsv(records[1..]);
      EncodeCsvCons(records);
      assert s == EncodeRecord(records[0]) + ("\r\n" + tail);
      ParseRecordEncoded(records[0], "\r\n" + tail);
      var later := records[1..];
      ParseCsvEncoded(later);
      ParseCsvMore(s, records[0], tail, later);
      assert [records[0]] + later == records;
    }
  }
}
