/**
 * The records the exporter reads: the parsed JSON of a Shopify order, as a
 * closed sum type. JavaScript's `null` and `undefined` are both present
 * because `getByPath` tells them apart in what it returns.
 */
module JsValue {

  datatype Value =
    | Null
    | Undef
    | Str(s: string)
    | Num(n: int)
    | Bool(b: bool)
    | Arr(items: seq<Value>)
    | Obj(fields: map<string, Value>)

  /** `v == null` in JavaScript: true for both `null` and `undefined`. */
  predicate IsNullish(v: Value) {
    v.Null? || v.Undef?
  }

  /** `v?.[key]` on a value that is not nullish: a property of an object, else `undefined`. */
  function Get(v: Value, key: string): (r: Value)
    ensures v.Obj? && key in v.fields ==> r == v.fields[key]
    ensures !(v.Obj? && key in v.fields) ==> r == Undef
  {
    if v.Obj? && key in v.fields then v.fields[key] else Undef
  }
}

/**
 * `getByPath` (app/components/OrderExportTemplate/index.tsx): resolve a
 * dotted path such as `raw.line_items[0].properties[1].name` against a record.
 */
module PathResolver {
  import opened JsText
  import opened JsValue

  /** One path segment: a plain property name, or `key[n]`. */
  datatype Segment = Key(name: string) | Index(key: string, idx: nat)

  /** The characters that `.` in a JavaScript regular expression does not match. */
  predicate IsLineTerminator(c: char) {
    c == '\n' || c == '\r' || c as int == 0x2028 || c as int == 0x2029
  }

  /**
   * `/^(.+?)\[(\d+)\]$/` matches `part` with the bracket at `j`: `part[..j]`
   * is a non-empty run of non-line-terminators, then `[`, one or more ASCII
   * digits, and `]` as the last character.
   */
  predicate IndexedAt(part: string, j: int) {
    && 1 <= j && j + 2 < |part|
    && part[j] == '[' && part[|part| - 1] == ']'
    && (forall k :: 0 <= k < j ==> !IsLineTerminator(part[k]))
    && AllDigits(part[j + 1..|part| - 1])
  }

  function LastIndexOf(s: string, c: char): (r: int)
    ensures -1 <= r < |s|
    ensures r >= 0 ==> s[r] == c
    ensures forall k :: r < k < |s| ==> s[k] != c
    decreases |s|
  {
    if s == [] then -1
    else if s[|s| - 1] == c then |s| - 1
    else LastIndexOf(s[..|s| - 1], c)
  }

  /**
   * Classifies one trimmed segment. Since the digits contain no `[`, the only
   * place the regular expression can split is the last `[`.
   */
  function ParseSegment(part: string): (seg: Segment)
    ensures seg.Key? ==> seg.name == part && forall j :: !IndexedAt(part, j)
    ensures seg.Index? ==> exists j :: IndexedAt(part, j) && seg.key == part[..j]
                                       && seg.idx == DigitsToNat(part[j + 1..|part| - 1])
  {
    var j := LastIndexOf(part, '[');
    if IndexedAt(part, j) then
      Index(part[..j], DigitsToNat(part[j + 1..|part| - 1]))
    else
      assert forall i :: IndexedAt(part, i) ==> i == j by {
        forall i | IndexedAt(part, i) ensures i == j {
          IndexedAtLastBracket(part, i);
        }
      }
      Key(part)
  }

  /** The bracket the regular expression splits at is the last `[` of the segment. */
  lemma IndexedAtLastBracket(part: string, i: int)
    requires IndexedAt(part, i)
    ensures LastIndexOf(part, '[') == i
  {
    forall k | i < k < |part| ensures part[k] != '[' {
      if k < |part| - 1 {
        assert part[k] == part[i + 1..|part| - 1][k - i - 1];
      }
    }
  }

  /** The text of `key[n]`, as catalogue paths write it. */
  function IndexedText(key: string, n: nat): string {
    key + "[" + NatToDecimal(n) + "]"
  }

  /** Where the parts of `key[n]` sit: the key, the bracket at `|key|`, the digits, the closing bracket. */
  lemma IndexedTextParts(key: string, n: nat)
    requires key != []
    requires forall k :: 0 <= k < |key| ==> !IsLineTerminator(key[k])
    ensures var part := IndexedText(key, n);
      IndexedAt(part, |key|) && part[..|key|] == key && part[|key| + 1..|part| - 1] == NatToDecimal(n)
  {
    var part := IndexedText(key, n);
    var ds := NatToDecimal(n);
    assert |part| == |key| + |ds| + 2;
    assert part[..|key|] == key;
    assert part[|key|] == '[';
    assert part[|part| - 1] == ']';
    assert part[|key| + 1..|part| - 1] == ds;
    forall k | 0 <= k < |key| ensures !IsLineTerminator(part[k]) {
      assert part[k] == key[k];
    }
  }

  /** An indexed segment written out is read back as the same key and index. */
  lemma ParseIndexedText(key: string, n: nat)
    requires key != []
    requires forall k :: 0 <= k < |key| ==> !IsLineTerminator(key[k])
    ensures ParseSegment(IndexedText(key, n)) == Index(key, n)
  {
    var part := IndexedText(key, n);
    IndexedTextParts(key, n);
    IndexedAtLastBracket(part, |key|);
    DecimalRoundTrip(n);
  }

  /** `.filter(Boolean)` on strings: drop the empty ones, keep the order. */
  function NonEmpty(parts: seq<string>): (r: seq<string>)
    ensures |r| <= |parts|
    ensures forall i :: 0 <= i < |r| ==> r[i] != [] && r[i] in parts
    ensures forall p :: p in parts && p != [] ==> p in r
  {
    if parts == [] then []
    else if parts[0] == [] then NonEmpty(parts[1..])
    else [parts[0]] + NonEmpty(parts[1..])
  }

  /** Filtering distributes over concatenation, so the kept parts stay in their order. */
  lemma {:induction false} NonEmptyConcat(a: seq<string>, b: seq<string>)
    ensures NonEmpty(a + b) == NonEmpty(a) + NonEmpty(b)
  {
    if a == [] {
      assert a + b == b;
    } else {
      assert (a + b)[0] == a[0];
      assert (a + b)[1..] == a[1..] + b;
      NonEmptyConcat(a[1..], b);
    }
  }

  /** `.map((p) => p.trim())`. */
  function TrimEach(parts: seq<string>): (r: seq<string>)
    ensures |r| == |parts|
    ensures forall i :: 0 <= i < |r| ==> r[i] == Trim(parts[i])
  {
    seq(|parts|, i requires 0 <= i < |parts| => Trim(parts[i]))
  }

  lemma TrimKeepsOut(s: string, c: char)
    requires c !in s
    ensures c !in Trim(s)
  {
    var i :| TrimmedAt(s, Trim(s), i);
  }

  /** `path.split(".").map(trim).filter(Boolean)`: the segments the loop walks. */
  function Segments(path: string): (segs: seq<string>)
    ensures forall i :: 0 <= i < |segs| ==> segs[i] != [] && IsTrimmed(segs[i]) && '.' !in segs[i]
  {
    var parts := Split(path, '.');
    var trimmed := TrimEach(parts);
    assert forall i :: 0 <= i < |trimmed| ==> IsTrimmed(trimmed[i]) && '.' !in trimmed[i] by {
      forall i | 0 <= i < |trimmed| ensures IsTrimmed(trimmed[i]) && '.' !in trimmed[i] {
        TrimKeepsOut(parts[i], '.');
      }
    }
    NonEmpty(trimmed)
  }

  /** One step of the loop body, on a value that is not nullish. */
  function Step(cur: Value, seg: Segment): Value {
    match seg
    case Key(name) => Get(cur, name)
    case Index(key, idx) =>
      var a := Get(cur, key);
      if a.Arr? && idx < |a.items| then a.items[idx] else Undef
  }

  /** The `for` loop of `getByPath` over the remaining segments. */
  function Walk(cur: Value, parts: seq<string>): Value
    decreases |parts|
  {
    if parts == [] then cur
    else if IsNullish(cur) then Undef
    else Walk(Step(cur, ParseSegment(parts[0])), parts[1..])
  }

  /** `getByPath(input, path)`: `undefined` for the empty path, otherwise the walk. */
  function Resolve(input: Value, path: string): Value {
    if path == "" then Undef else Walk(input, Segments(path))
  }

  /** `getByPath` as the source writes it: a loop that reassigns `cur` and may return early. */
  method GetByPath(input: Value, path: string) returns (r: Value)
    ensures r == Resolve(input, path)
  {
    if path == "" {
      return Undef;
    }
    var parts := Segments(path);
    var cur := input;
    var i := 0;
    while i < |parts|
      invariant 0 <= i <= |parts|
      invariant Walk(cur, parts[i..]) == Walk(input, parts)
    {
      if IsNullish(cur) {
        return Undef;
      }
      var seg := ParseSegment(parts[i]);
      WalkOneStep(cur, parts, i);
      match seg {
        case Index(key, idx) =>
          cur := Get(cur, key);
          if !cur.Arr? {
            WalkFromUndef(parts[i + 1..]);
            return Undef;
          }
          cur := if idx < |cur.items| then cur.items[idx] else Undef;
        case Key(name) =>
          cur := Get(cur, name);
      }
      i := i + 1;
    }
    return cur;
  }

  /** One turn of the loop: a value that is not nullish takes the step for the next segment. */
  lemma WalkOneStep(cur: Value, parts: seq<string>, i: nat)
    requires i < |parts| && !IsNullish(cur)
    ensures Walk(cur, parts[i..]) == Walk(Step(cur, ParseSegment(parts[i])), parts[i + 1..])
  {
    assert parts[i..][0] == parts[i];
    assert parts[i..][1..] == parts[i + 1..];
  }

  /** From `undefined`, every remaining walk ends in `undefined`. */
  lemma WalkFromUndef(parts: seq<string>)
    ensures Walk(Undef, parts) == Undef
  {
  }

  /** Walking a path in two pieces is walking the whole: the loop has no hidden state. */
  lemma {:induction false} WalkAppend(v: Value, a: seq<string>, b: seq<string>)
    ensures Walk(v, a + b) == Walk(Walk(v, a), b)
    decreases |a|
  {
    if a == [] {
      assert a + b == b;
    } else if IsNullish(v) {
      WalkFromUndef(b);
    } else {
      assert (a + b)[1..] == a[1..] + b;
      WalkAppend(Step(v, ParseSegment(a[0])), a[1..], b);
    }
  }

  /** A null or undefined record resolves to `undefined` under any path that has a segment. */
  lemma ResolveNullish(input: Value, path: string)
    requires IsNullish(input) && Segments(path) != []
    ensures Resolve(input, path) == Undef
  {
  }

  /** A path made only of dots and whitespace has no segments; it returns the record itself. */
  lemma {:induction false} ResolveDotsOnly(input: Value, path: string)
    requires path != []
    requires forall k :: 0 <= k < |path| ==> path[k] == '.' || IsWhitespace(path[k])
    ensures Segments(path) == []
    ensures Resolve(input, path) == input
  {
    var parts := Split(path, '.');
    JoinSplit(path, '.');
    forall i | 0 <= i < |parts| ensures Trim(parts[i]) == [] {
      PartOfJoinIsFactor(parts, i, ".");
      var p := parts[i];
      assert AllWhitespace(p) by {
        forall k | 0 <= k < |p| ensures IsWhitespace(p[k]) {
          var o :| OccursAt(Join(parts, "."), p, o);
          assert p[k] == path[o + k];
          assert p[k] != '.';
        }
      }
      TrimEmptyIff(p);
    }
    NonEmptyOfEmpties(TrimEach(parts));
  }

  lemma {:induction false} PartOfJoinIsFactor(parts: seq<string>, i: nat, sep: string)
    requires i < |parts|
    ensures exists o :: OccursAt(Join(parts, sep), parts[i], o)
  {
    var j := Join(parts, sep);
    if |parts| == 1 {
      assert OccursAt(j, parts[0], 0);
    } else if i == 0 {
      assert j[0..|parts[0]|] == parts[0];
      assert OccursAt(j, parts[0], 0);
    } else {
      PartOfJoinIsFactor(parts[1..], i - 1, sep);
      var o :| OccursAt(Join(parts[1..], sep), parts[1..][i - 1], o);
      var off := |parts[0]| + |sep|;
      assert j[off..] == Join(parts[1..], sep);
      assert j[off + o..off + o + |parts[i]|] == parts[i];
      assert OccursAt(j, parts[i], off + o);
    }
  }

  lemma {:induction false} NonEmptyOfEmpties(parts: seq<string>)
    requires forall i :: 0 <= i < |parts| ==> parts[i] == []
    ensures NonEmpty(parts) == []
  {
    if parts != [] {
      NonEmptyOfEmpties(parts[1..]);
    }
  }

  lemma {:induction false} NonEmptyOfNonEmpties(parts: seq<string>)
    requires forall i :: 0 <= i < |parts| ==> parts[i] != []
    ensures NonEmpty(parts) == parts
  {
    if parts != [] {
      NonEmptyOfNonEmpties(parts[1..]);
    }
  }

  /** Well-formed segments joined with `.` are split back into exactly those segments. */
  lemma SegmentsOfJoin(segs: seq<string>)
    requires |segs| >= 1
    requires forall i :: 0 <= i < |segs| ==> segs[i] != [] && IsTrimmed(segs[i]) && '.' !in segs[i]
    ensures Segments(Join(segs, ".")) == segs
  {
    SplitJoin(segs, '.');
    var trimmed := TrimEach(segs);
    forall i | 0 <= i < |segs| ensures trimmed[i] == segs[i] {
      TrimOfTrimmed(segs[i]);
    }
    assert trimmed == segs;
    NonEmptyOfNonEmpties(segs);
  }

  /**
   * A segment `key[n]`: `undefined` unless `key` holds an array; an in-range
   * `n` continues from element `n`, an out-of-range one gives `undefined`.
   */
  lemma WalkIndexed(v: Value, key: string, n: nat, rest: seq<string>)
    requires !IsNullish(v)
    requires key != [] && forall k :: 0 <= k < |key| ==> !IsLineTerminator(key[k])
    ensures Walk(v, [IndexedText(key, n)] + rest) ==
            (var a := Get(v, key);
             if a.Arr? && n < |a.items| then Walk(a.items[n], rest) else Undef)
  {
    ParseIndexedText(key, n);
    assert ([IndexedText(key, n)] + rest)[1..] == rest;
    WalkFromUndef(rest);
  }

  /** A plain segment looks the key up in an object; on anything else it gives `undefined`. */
  lemma WalkKey(v: Value, name: string, rest: seq<string>)
    requires !IsNullish(v)
    requires forall j :: !IndexedAt(name, j)
    ensures Walk(v, [name] + rest) ==
            if v.Obj? && name in v.fields then Walk(v.fields[name], rest) else Undef
  {
    assert ParseSegment(name) == Key(name);
    assert ([name] + rest)[1..] == rest;
    WalkFromUndef(rest);
  }
}
