/**
  The JSONPath subset of the HTTP checker (evaluateSimpleJSONPath, internal/checker/http.go),
  from the parsed document to the value it selects.
*/
module JsonPath {
  import opened Common

  datatype Json =
    | Null | Bool(b: bool) | Number(n: real) | Text(s: string)
    | Array(items: seq<Json>) | Object(fields: map<string, Json>)

  datatype Failure =
    | BadIndex(text: string) | NotAnObject(key: string) | NotFound(key: string)
    | NotAnArray(segment: string) | OutOfRange(index: int)

  datatype Outcome = Value(value: Json) | Failed(failure: Failure)

  const MAX_INT: int := 0x7FFF_FFFF_FFFF_FFFF

  // ----- the string library -----

  /** unicode.IsSpace. */
  predicate IsSpace(c: char) {
    || '\t' <= c <= '\r' || c == ' ' || c == '\U{85}' || c == '\U{A0}' || c == '\U{1680}'
    || '\U{2000}' <= c <= '\U{200A}' || c == '\U{2028}' || c == '\U{2029}' || c == '\U{202F}'
    || c == '\U{205F}' || c == '\U{3000}'
  }

  function TrimLeft(s: string): string {
    if s != "" && IsSpace(s[0]) then TrimLeft(s[1..]) else s
  }

  function TrimRight(s: string): string {
    if s != "" && IsSpace(s[|s| - 1]) then TrimRight(s[..|s| - 1]) else s
  }

  function TrimSpace(s: string): string {
    TrimRight(TrimLeft(s))
  }

  /** strings.TrimPrefix(s, "$."). */
  function TrimRoot(s: string): string {
    if "$." <= s then s[2..] else s
  }

  /** strings.Split(s, "."). */
  function Split(s: string): (parts: seq<string>)
    ensures parts != []
  {
    if s == "" then [""]
    else if s[0] == '.' then [""] + Split(s[1..])
    else var rest := Split(s[1..]); [[s[0]] + rest[0]] + rest[1..]
  }

  /** strings.Index(s, "["). */
  function IndexOfBracket(s: string): (left: int)
    ensures left == -1 || (0 <= left < |s| && s[left] == '[')
  {
    if s == "" then -1
    else if s[0] == '[' then 0
    else
      var rest := IndexOfBracket(s[1..]);
      if rest == -1 then -1 else rest + 1
  }

  predicate AllDigits(s: string) {
    forall i | 0 <= i < |s| :: '0' <= s[i] <= '9'
  }

  function Magnitude(digits: string): nat
    requires AllDigits(digits)
  {
    if digits == "" then 0
    else 10 * Magnitude(digits[..|digits| - 1]) + (digits[|digits| - 1] as int - '0' as int)
  }

  /** strconv.Atoi on a platform with 64-bit integers. */
  function Atoi(s: string): Option<int> {
    var signed := s != "" && (s[0] == '-' || s[0] == '+');
    var digits := if signed then s[1..] else s;
    if digits == "" || !AllDigits(digits) then None
    else
      var n: int := if signed && s[0] == '-' then 0 - Magnitude(digits) else Magnitude(digits);
      if -MAX_INT - 1 <= n <= MAX_INT then Some(n) else None
  }

  // ----- evaluating a path -----

  /** What one segment names: a field, when the key is not empty, then an item, when the index is not negative. */
  datatype Selector = Selector(key: string, index: int) | Malformed(text: string)

  function Select(segment: string): Selector {
    var left := IndexOfBracket(segment);
    if left != -1 && segment[|segment| - 1] == ']' then Indexed(Before(segment, left), Inside(segment, left))
    else Selector(segment, -1)
  }

  /** What comes before the bracket at `left`. */
  function Before(segment: string, left: int): string
    requires 0 <= left <= |segment|
  {
    segment[..left]
  }

  /** What stands between that bracket and the last character. */
  function Inside(segment: string, left: int): string
    requires 0 <= left < |segment| - 1
  {
    segment[left + 1..|segment| - 1]
  }

  function Indexed(key: string, text: string): Selector {
    var i := Atoi(text);
    if i.Some? then Selector(key, i.value) else Malformed(text)
  }

  function SelectField(v: Json, key: string): Outcome {
    if key == "" then Value(v)
    else if !v.Object? then Failed(NotAnObject(key))
    else if key !in v.fields then Failed(NotFound(key))
    else Value(v.fields[key])
  }

  function SelectItem(v: Json, index: int, segment: string): Outcome {
    if index < 0 then Value(v)
    else if !v.Array? then Failed(NotAnArray(segment))
    else if index >= |v.items| then Failed(OutOfRange(index))
    else Value(v.items[index])
  }

  function Visit(v: Json, segment: string): Outcome {
    match Select(segment)
    case Malformed(text) => Failed(BadIndex(text))
    case Selector(key, index) =>
      match SelectField(v, key)
      case Failed(f) => Failed(f)
      case Value(w) => SelectItem(w, index, segment)
  }

  /** The segments visited from left to right, up to the first failure. */
  function Walk(doc: Json, segments: seq<string>): Outcome {
    if segments == [] then Value(doc)
    else
      match Walk(doc, Front(segments))
      case Failed(f) => Failed(f)
      case Value(v) => Visit(v, Last(segments))
  }

  predicate IsWhole(trimmed: string) {
    trimmed == "" || trimmed == "$"
  }

  function Evaluated(doc: Json, path: string): Outcome {
    var trimmed := TrimSpace(path);
    if IsWhole(trimmed) then Value(doc) else Walk(doc, Split(TrimRoot(trimmed)))
  }

  lemma {:induction false} FailureStays(doc: Json, segments: seq<string>, k: nat)
    requires k <= |segments| && Walk(doc, segments[..k]).Failed?
    ensures Walk(doc, segments) == Walk(doc, segments[..k])
  {
    if k == |segments| {
      assert segments[..k] == segments;
    } else {
      assert Front(segments)[..k] == segments[..k];
      FailureStays(doc, Front(segments), k);
    }
  }

  lemma WalkOn(doc: Json, segments: seq<string>, n: nat)
    requires n < |segments| && Walk(doc, segments[..n]).Value?
    ensures var here := Visit(Walk(doc, segments[..n]).value, segments[n]);
            && Walk(doc, segments[..n + 1]) == here
            && (here.Failed? ==> Walk(doc, segments) == here)
  {
    assert Front(segments[..n + 1]) == segments[..n] && Last(segments[..n + 1]) == segments[n];
    if Walk(doc, segments[..n + 1]).Failed? {
      FailureStays(doc, segments, n + 1);
    }
  }

  /** The key and the index that a segment names. */
  method ParseSegment(segment: string) returns (selector: Selector)
    ensures selector == Select(segment)
  {
    var left := IndexOfBracket(segment);
    if left != -1 && segment[|segment| - 1] == ']' {
      var key := Before(segment, left);
      var idxStr := Inside(segment, left);
      var i := Atoi(idxStr);
      if i.None? {
        return Malformed(idxStr);
      }
      return Selector(key, i.value);
    }
    return Selector(segment, -1);
  }

  /** The body of the loop: one segment applied to the value selected so far. */
  method VisitSegment(value: Json, segment: string) returns (r: Outcome)
    ensures r == Visit(value, segment)
  {
    var current := value;
    var selector := ParseSegment(segment);
    if selector.Malformed? {
      return Failed(BadIndex(selector.text));
    }
    var key, index := selector.key, selector.index;
    if key != "" {
      if !current.Object? {
        return Failed(NotAnObject(key));
      }
      if key !in current.fields {
        return Failed(NotFound(key));
      }
      current := current.fields[key];
    }
    if index >= 0 {
      if !current.Array? {
        return Failed(NotAnArray(segment));
      }
      if index >= |current.items| {
        return Failed(OutOfRange(index));
      }
      current := current.items[index];
    }
    return Value(current);
  }

  /** evaluateSimpleJSONPath, up to rendering the selected value as a string. */
  method EvaluateSimpleJSONPath(parsed: Json, path: string) returns (r: Outcome)
    ensures r == Evaluated(parsed, path)
  {
    var trimmed := TrimSpace(path);
    if trimmed == "" || trimmed == "$" {
      return Value(parsed);
    }
    trimmed := TrimRoot(trimmed);
    var current := parsed;
    var segments := Split(trimmed);
    for n := 0 to |segments|
      invariant Walk(parsed, segments[..n]) == Value(current)
    {
      WalkOn(parsed, segments, n);
      var visited := VisitSegment(current, segments[n]);
      if visited.Failed? {
        return visited;
      }
      current := visited.value;
    }
    assert segments[..|segments|] == segments;
    return Value(current);
  }
}
