/**
  What the evaluator's paths mean: a path read as a list of steps, the structural lookup
  of such a list, and the text form that reads back as the list it was printed from.
*/
module JsonPathForms {
  import opened Common
  import opened JsonPath

  /** One step into a document: a field unless the key is empty, then an item if there is an index. */
  datatype PathStep = PathStep(key: string, index: Option<nat>)

  // ----- structural lookup -----

  function FieldOf(v: Json, key: string): Option<Json> {
    if v.Object? && key in v.fields then Some(v.fields[key]) else None
  }

  function ItemOf(v: Json, index: nat): Option<Json> {
    if v.Array? && index < |v.items| then Some(v.items[index]) else None
  }

  function Follow(v: Json, step: PathStep): Option<Json> {
    var field := if step.key == "" then Some(v) else FieldOf(v, step.key);
    if field.Some? && step.index.Some? then ItemOf(field.value, step.index.value) else field
  }

  function LookUp(doc: Json, steps: seq<PathStep>): Option<Json> {
    if steps == [] then Some(doc)
    else
      var v := LookUp(doc, Front(steps));
      if v.Some? then Follow(v.value, Last(steps)) else None
  }

  // ----- reading a path -----

  function ReadSegment(segment: string): Option<PathStep> {
    match Select(segment)
    case Malformed(_) => None
    case Selector(key, index) => Some(PathStep(key, if index >= 0 then Some(index) else None))
  }

  function ReadSegments(segments: seq<string>): Option<seq<PathStep>> {
    if segments == [] then Some([])
    else
      var steps, step := ReadSegments(Front(segments)), ReadSegment(Last(segments));
      if steps.Some? && step.Some? then Some(steps.value + [step.value]) else None
  }

  function ReadPath(path: string): Option<seq<PathStep>> {
    var trimmed := TrimSpace(path);
    if IsWhole(trimmed) then Some([]) else ReadSegments(Split(TrimRoot(trimmed)))
  }

  function Found(r: Outcome): Option<Json> {
    if r.Value? then Some(r.value) else None
  }

  function LookUpRead(doc: Json, steps: Option<seq<PathStep>>): Option<Json> {
    if steps.Some? then LookUp(doc, steps.value) else None
  }

  lemma VisitFollows(v: Json, segment: string)
    ensures Found(Visit(v, segment)) ==
            if ReadSegment(segment).Some? then Follow(v, ReadSegment(segment).value) else None
  {
  }

  lemma {:induction false} WalkLooksUp(doc: Json, segments: seq<string>)
    ensures Found(Walk(doc, segments)) == LookUpRead(doc, ReadSegments(segments))
  {
    if segments != [] {
      var front := Front(segments);
      WalkLooksUp(doc, front);
      if Walk(doc, front).Value? {
        VisitFollows(Walk(doc, front).value, Last(segments));
      }
      if ReadSegments(segments).Some? {
        assert Front(ReadSegments(segments).value) == ReadSegments(front).value;
      }
    }
  }

  /**
    For every document and every path text, interleaving the reading of segments with the
    descent is the same as reading the whole path first and looking it up structurally.
  */
  lemma EvaluationIsLookUp(doc: Json, path: string)
    ensures Found(Evaluated(doc, path)) == LookUpRead(doc, ReadPath(path))
  {
    WalkLooksUp(doc, Split(TrimRoot(TrimSpace(path))));
  }

  // ----- printing -----

  function Decimal(n: nat): string {
    if n < 10 then [(n + '0' as int) as char] else Decimal(n / 10) + [(n % 10 + '0' as int) as char]
  }

  function PrintStep(step: PathStep): string {
    if step.index.Some? then step.key + "[" + Decimal(step.index.value) + "]" else step.key
  }

  function PrintSteps(steps: seq<PathStep>): (segments: seq<string>)
    ensures |segments| == |steps| && forall i | 0 <= i < |steps| :: segments[i] == PrintStep(steps[i])
  {
    if steps == [] then [] else PrintSteps(Front(steps)) + [PrintStep(Last(steps))]
  }

  function Join(parts: seq<string>): string
    requires parts != []
  {
    if |parts| == 1 then parts[0] else Join(Front(parts)) + "." + Last(parts)
  }

  function Print(steps: seq<PathStep>): string {
    if steps == [] then "$" else "$." + Join(PrintSteps(steps))
  }

  /** A key with an index must not hold a bracket; one without must not look as if it had an index. */
  predicate Legible(step: PathStep) {
    && '.' !in step.key
    && match step.index
       case Some(i) => '[' !in step.key && i <= MAX_INT
       case None => '[' in step.key ==> step.key[|step.key| - 1] != ']'
  }

  predicate EndsInSpace(s: string) {
    s != "" && IsSpace(s[|s| - 1])
  }

  /** White space at the end of a key survives everywhere but at the end of the path. */
  predicate Printable(steps: seq<PathStep>) {
    forall i | 0 <= i < |steps| :: Survives(steps[i], i == |steps| - 1)
  }

  predicate Survives(step: PathStep, isLast: bool) {
    Legible(step) && !(isLast && EndsInSpace(PrintStep(step)))
  }

  // ----- the decimal form -----

  lemma {:induction false} DecimalReads(n: nat)
    ensures Decimal(n) != "" && AllDigits(Decimal(n)) && Magnitude(Decimal(n)) == n
  {
    if n >= 10 {
      DecimalReads(n / 10);
      assert Decimal(n)[..|Decimal(n)| - 1] == Decimal(n / 10);
    } else {
      assert Decimal(n)[..0] == "";
    }
  }

  lemma AtoiOfDecimal(n: nat)
    ensures Atoi(Decimal(n)) == if n <= MAX_INT then Some(n) else None
    ensures forall i | 0 <= i < |Decimal(n)| :: '0' <= Decimal(n)[i] <= '9'
  {
    DecimalReads(n);
  }

  // ----- one segment -----

  lemma {:induction false} BracketAfter(key: string, rest: string)
    requires '[' !in key
    ensures IndexOfBracket(key + "[" + rest) == |key|
  {
    var s := key + "[" + rest;
    if key != "" {
      assert s[1..] == key[1..] + "[" + rest;
      BracketAfter(key[1..], rest);
    }
  }

  lemma {:induction false} BracketIn(s: string)
    ensures IndexOfBracket(s) == -1 <==> '[' !in s
    ensures forall k | 0 <= k < |s| && s[k] == '[' :: IndexOfBracket(s) <= k
  {
    if s != "" {
      assert s == [s[0]] + s[1..];
      BracketIn(s[1..]);
      forall k | 0 <= k < |s| && s[k] == '['
        ensures IndexOfBracket(s) <= k
      {
        if k > 0 {
          assert s[1..][k - 1] == '[';
        }
      }
    }
  }

  lemma BracketedSegment(key: string, text: string)
    requires '[' !in key
    ensures Select(key + "[" + text + "]") == Indexed(key, text)
  {
    var s := key + "[" + text + "]";
    assert s == key + "[" + (text + "]");
    BracketAfter(key, text + "]");
    assert s[..|key|] == key;
    assert s[|key| + 1..|s| - 1] == text;
  }

  lemma IndexedSegment(key: string, i: nat)
    requires '[' !in key
    ensures Select(PrintStep(PathStep(key, Some(i)))) ==
            if i <= MAX_INT then Selector(key, i) else Malformed(Decimal(i))
  {
    AtoiOfDecimal(i);
    BracketedSegment(key, Decimal(i));
  }

  /** A step that is not legible reads back as something else. */
  lemma SegmentReadsBack(step: PathStep)
    requires '.' !in step.key
    ensures ReadSegment(PrintStep(step)) == Some(step) <==> Legible(step)
  {
    var s := PrintStep(step);
    BracketIn(s);
    if step.index.Some? {
      if '[' !in step.key {
        IndexedSegment(step.key, step.index.value);
      } else {
        var k :| 0 <= k < |step.key| && step.key[k] == '[';
        assert s[k] == '[';
      }
    }
  }

  // ----- splitting -----

  lemma {:induction false} SplitAt(a: string, b: string)
    ensures Split(a + "." + b) == Split(a) + Split(b)
  {
    var s := a + "." + b;
    if a == "" {
      assert s[1..] == b;
    } else {
      assert s[1..] == a[1..] + "." + b;
      SplitAt(a[1..], b);
    }
  }

  lemma {:induction false} SplitWhole(s: string)
    ensures '.' !in s ==> Split(s) == [s]
    ensures '.' in s ==> |Split(s)| > 1
  {
    if s != "" {
      assert s == [s[0]] + s[1..];
      SplitWhole(s[1..]);
    }
  }

  /** Splitting undoes joining exactly when no part holds a dot; otherwise it gives too many parts. */
  lemma {:induction false} SplitOfJoin(parts: seq<string>)
    requires parts != []
    ensures (forall i | 0 <= i < |parts| :: '.' !in parts[i]) ==> Split(Join(parts)) == parts
    ensures (exists i | 0 <= i < |parts| :: '.' in parts[i]) ==> |Split(Join(parts))| > |parts|
    ensures |Split(Join(parts))| >= |parts|
  {
    SplitWhole(Last(parts));
    if |parts| > 1 {
      SplitOfJoin(Front(parts));
      SplitAt(Join(Front(parts)), Last(parts));
      assert parts == Front(parts) + [Last(parts)];
    }
  }

  // ----- trimming -----

  lemma {:induction false} TrimAfter(a: string, c: char, b: string)
    requires !IsSpace(c)
    ensures TrimRight(a + [c] + b) == a + [c] + TrimRight(b)
  {
    var s := a + [c] + b;
    if b != "" {
      assert s[|s| - 1] == b[|b| - 1];
      assert s[..|s| - 1] == a + [c] + b[..|b| - 1];
      TrimAfter(a, c, b[..|b| - 1]);
    } else {
      assert s[|s| - 1] == c;
      assert s == a + [c];
    }
  }

  lemma {:induction false} TrimmedPart(s: string)
    ensures TrimRight(s) <= s && ('.' in TrimRight(s) <==> '.' in s)
    ensures TrimRight(s) == s <==> !EndsInSpace(s)
  {
    if EndsInSpace(s) {
      assert s == s[..|s| - 1] + [s[|s| - 1]];
      TrimmedPart(s[..|s| - 1]);
    }
  }

  // ----- whole paths -----

  /** The segments of a printed path once its text has been trimmed. */
  function TrimmedSegments(steps: seq<PathStep>): seq<string>
    requires steps != []
  {
    PrintSteps(Front(steps)) + [TrimRight(PrintStep(Last(steps)))]
  }

  lemma RootTrims(rest: string)
    ensures TrimRoot(TrimSpace("$." + rest)) == TrimRight(rest) && !IsWhole(TrimSpace("$." + rest))
  {
    var s := "$." + rest;
    assert s[0] == '$' && TrimLeft(s) == s;
    assert s == "$" + ['.'] + rest;
    TrimAfter("$", '.', rest);
    assert ("$" + ['.'] + TrimRight(rest))[2..] == TrimRight(rest);
  }

  lemma JoinTrims(parts: seq<string>, last: string)
    ensures TrimRight(Join(parts + [last])) == Join(parts + [TrimRight(last)])
  {
    assert Front(parts + [last]) == parts && Front(parts + [TrimRight(last)]) == parts;
    if parts != [] {
      TrimAfter(Join(parts), '.', last);
    }
  }

  lemma PrintedSegments(steps: seq<PathStep>)
    requires steps != []
    ensures TrimRoot(TrimSpace(Print(steps))) == Join(TrimmedSegments(steps)) && !IsWhole(TrimSpace(Print(steps)))
  {
    RootTrims(Join(PrintSteps(steps)));
    JoinTrims(PrintSteps(Front(steps)), PrintStep(Last(steps)));
  }

  ghost predicate ReadsAt(segments: seq<string>, steps: seq<PathStep>, i: nat)
    requires i < |segments| == |steps|
  {
    ReadSegment(segments[i]) == Some(steps[i])
  }

  lemma {:induction false} ReadsAsSteps(segments: seq<string>, steps: seq<PathStep>)
    requires |segments| == |steps|
    ensures ReadSegments(segments) == Some(steps) <==> forall i | 0 <= i < |steps| :: ReadsAt(segments, steps, i)
  {
    if steps != [] {
      var k := |steps| - 1;
      var front, s := segments[..k], steps[..k];
      ReadsAsSteps(front, s);
      assert steps == s + [steps[k]];
      assert ReadSegments(segments) == Some(steps) <==> ReadSegments(front) == Some(s) && ReadsAt(segments, steps, k);
      assert forall i | 0 <= i < k :: ReadsAt(front, s, i) <==> ReadsAt(segments, steps, i);
    }
  }

  lemma {:induction false} ReadLength(segments: seq<string>)
    ensures ReadSegments(segments).Some? ==> |ReadSegments(segments).value| == |segments|
  {
    if segments != [] {
      ReadLength(Front(segments));
    }
  }

  lemma DotsArePrinted(step: PathStep)
    ensures '.' in PrintStep(step) <==> '.' in step.key
  {
    if step.index.Some? {
      AtoiOfDecimal(step.index.value);
    }
  }

  lemma ReadsNoLonger(segment: string)
    ensures ReadSegment(segment).Some? ==> |ReadSegment(segment).value.key| <= |segment|
  {
  }

  /** White space at the end of the path is lost, and with it the end of the last key. */
  lemma LastReadsBack(step: PathStep)
    requires '.' !in step.key
    ensures ReadSegment(TrimRight(PrintStep(step))) == Some(step) <==> Legible(step) && !EndsInSpace(PrintStep(step))
  {
    TrimmedPart(PrintStep(step));
    if EndsInSpace(PrintStep(step)) {
      ReadsNoLonger(TrimRight(PrintStep(step)));
    } else {
      SegmentReadsBack(step);
    }
  }

  lemma DotsBreakPaths(steps: seq<PathStep>, k: nat)
    requires k < |steps| && '.' in steps[k].key
    ensures ReadPath(Print(steps)) != Some(steps)
  {
    var segments := TrimmedSegments(steps);
    PrintedSegments(steps);
    DotsArePrinted(steps[k]);
    TrimmedPart(PrintStep(Last(steps)));
    assert '.' in segments[k];
    SplitOfJoin(segments);
    ReadLength(Split(Join(segments)));
  }

  lemma PathsWithoutDots(steps: seq<PathStep>)
    requires steps != [] && forall i | 0 <= i < |steps| :: '.' !in steps[i].key
    ensures ReadPath(Print(steps)) == ReadSegments(TrimmedSegments(steps))
  {
    var segments := TrimmedSegments(steps);
    PrintedSegments(steps);
    forall i | 0 <= i < |steps|
      ensures '.' !in segments[i]
    {
      DotsArePrinted(steps[i]);
      TrimmedPart(PrintStep(steps[i]));
    }
    SplitOfJoin(segments);
  }

  lemma StepsReadBack(steps: seq<PathStep>)
    requires steps != [] && forall i | 0 <= i < |steps| :: '.' !in steps[i].key
    ensures ReadSegments(TrimmedSegments(steps)) == Some(steps) <==> Printable(steps)
  {
    var segments := TrimmedSegments(steps);
    ReadsAsSteps(segments, steps);
    forall i | 0 <= i < |steps|
      ensures ReadsAt(segments, steps, i) <==> Survives(steps[i], i == |steps| - 1)
    {
      if i == |steps| - 1 {
        LastReadsBack(steps[i]);
      } else {
        SegmentReadsBack(steps[i]);
      }
    }
  }

  /** A printed path reads back as the steps it was printed from exactly when the steps are printable. */
  lemma PrintReadsBack(steps: seq<PathStep>)
    ensures ReadPath(Print(steps)) == Some(steps) <==> Printable(steps)
  {
    if k :| 0 <= k < |steps| && '.' in steps[k].key {
      DotsBreakPaths(steps, k);
      assert !Survives(steps[k], k == |steps| - 1);
    } else if steps != [] {
      PathsWithoutDots(steps);
      StepsReadBack(steps);
    }
  }

  /** So evaluating the text of a printable list of steps is looking the steps up, errors included. */
  lemma PrintedPathsLookUp(doc: Json, steps: seq<PathStep>)
    requires Printable(steps)
    ensures Found(Evaluated(doc, Print(steps))) == LookUp(doc, steps)
  {
    PrintReadsBack(steps);
    EvaluationIsLookUp(doc, Print(steps));
  }

  /** No path sees the value under an empty key: it selects the whole object, or does not depend on that value. */
  lemma {:induction false} EmptyKeyIsOutOfReach(fields: map<string, Json>, v: Json, w: Json, steps: seq<PathStep>)
    ensures var a, b := Object(fields["" := v]), Object(fields["" := w]);
            || LookUp(a, steps) == LookUp(b, steps)
            || (LookUp(a, steps) == Some(a) && LookUp(b, steps) == Some(b))
  {
    if steps != [] {
      EmptyKeyIsOutOfReach(fields, v, w, Front(steps));
    }
  }

  /** The same for every path text. */
  lemma NoPathSeesTheEmptyKey(fields: map<string, Json>, v: Json, w: Json, path: string)
    ensures var a, b := Object(fields["" := v]), Object(fields["" := w]);
            || Found(Evaluated(a, path)) == Found(Evaluated(b, path))
            || (Evaluated(a, path) == Value(a) && Evaluated(b, path) == Value(b))
  {
    var a, b := Object(fields["" := v]), Object(fields["" := w]);
    EvaluationIsLookUp(a, path);
    EvaluationIsLookUp(b, path);
    if ReadPath(path).Some? {
      EmptyKeyIsOutOfReach(fields, v, w, ReadPath(path).value);
    }
  }

  // ----- texts that mean the same -----

  /** The root is optional: a trimmed path means the same with and without "$." before it. */
  lemma RootIsOptional(doc: Json, path: string)
    requires TrimSpace(path) == path && !("$." <= path) && path != "$"
    ensures Evaluated(doc, "$." + path) == Evaluated(doc, path)
  {
    RootTrims(path);
    TrimmedOnBothSides(path);
    EmptySegment(doc);
  }

  lemma EmptySegment(doc: Json)
    ensures Walk(doc, Split("")) == Value(doc)
  {
    assert Select("") == Selector("", -1);
    assert Visit(doc, "") == Value(doc);
    assert Split("") == [""] && |Front([""])| == 0;
    assert Walk(doc, Front([""])) == Value(doc);
  }

  lemma {:induction false} TrimmedOnBothSides(s: string)
    requires TrimSpace(s) == s
    ensures TrimLeft(s) == s && TrimRight(s) == s
  {
    TrimsShorter(s);
    TrimmedPart(TrimLeft(s));
  }

  lemma {:induction false} TrimsShorter(s: string)
    ensures |TrimLeft(s)| <= |s| && (|TrimLeft(s)| == |s| ==> TrimLeft(s) == s)
  {
    if s != "" && IsSpace(s[0]) {
      TrimsShorter(s[1..]);
    }
  }

  /** The characters that count as white space, by code point. */
  predicate IsPadding(c: char) {
    var n := c as int;
    || 0x09 <= n <= 0x0D || n == 0x20 || n == 0x85 || n == 0xA0 || n == 0x1680 || 0x2000 <= n <= 0x200A
    || n == 0x2028 || n == 0x2029 || n == 0x202F || n == 0x205F || n == 0x3000
  }

  /** White space before and after a path, and nothing else, is ignored. */
  lemma PaddingIsIgnored(doc: Json, path: string, c: char)
    ensures IsPadding(c) ==> Evaluated(doc, [c] + path) == Evaluated(doc, path) == Evaluated(doc, path + [c])
    ensures !IsPadding(c) ==> c in TrimSpace(path + [c])
  {
    assert ([c] + path)[1..] == path;
    assert (path + [c])[..|path|] == path;
    if IsPadding(c) {
      assert TrimLeft([c] + path) == TrimLeft(path);
      PadRight(path, c);
    } else {
      EndStays(path, c);
    }
  }

  lemma {:induction false} PadRight(s: string, c: char)
    requires IsSpace(c)
    ensures TrimSpace(s + [c]) == TrimSpace(s)
  {
    var t := s + [c];
    if s == "" {
      assert t == [c] && t[1..] == "";
    } else if IsSpace(s[0]) {
      assert t[1..] == s[1..] + [c];
      PadRight(s[1..], c);
    } else {
      assert t[..|t| - 1] == s;
    }
  }

  lemma {:induction false} EndStays(s: string, c: char)
    requires !IsSpace(c)
    ensures c in TrimSpace(s + [c])
  {
    var t := s + [c];
    if s != "" && IsSpace(s[0]) {
      assert t[1..] == s[1..] + [c];
      EndStays(s[1..], c);
    } else {
      assert TrimLeft(t) == t && t[|t| - 1] == c;
    }
  }

  /** The empty path and the bare root select the whole document. */
  lemma WholeDocument(doc: Json)
    ensures Evaluated(doc, "") == Evaluated(doc, "$") == Evaluated(doc, "$.") == Value(doc)
  {
    RootTrims("");
    assert "$." + "" == "$.";
    EmptySegment(doc);
    assert TrimLeft("$") == "$" && TrimRight("$") == "$";
  }

  lemma SignedDigits(digits: string)
    requires digits != "" && AllDigits(digits)
    ensures var n := Magnitude(digits);
            && Atoi("+" + digits) == (if n <= MAX_INT then Some(n) else None)
            && Atoi("-" + digits) == (if n <= MAX_INT + 1 then Some(0 - n) else None)
  {
    var plus, minus := "+" + digits, "-" + digits;
    assert plus[0] == '+' && plus[1..] == digits && minus[0] == '-' && minus[1..] == digits;
  }

  /** Indexes may carry a sign, and must fit 64 bits. */
  lemma SignedIndexes(n: nat)
    ensures Atoi("+" + Decimal(n)) == if n <= 0x7FFF_FFFF_FFFF_FFFF then Some(n) else None
    ensures Atoi("-" + Decimal(n)) == if n <= 0x8000_0000_0000_0000 then Some(0 - n) else None
  {
    DecimalReads(n);
    SignedDigits(Decimal(n));
  }

  /** An index is an optional sign and at least one digit. */
  lemma IndexesAreDigits(s: string)
    ensures Atoi(s).Some? ==>
              var digits := if s != "" && (s[0] == '+' || s[0] == '-') then s[1..] else s;
              digits != "" && forall i | 0 <= i < |digits| :: digits[i] in "0123456789"
  {
  }

  /** A negative index is ignored: the segment selects its field alone. */
  lemma NegativeIndexIsIgnored(v: Json, key: string, n: nat)
    requires '[' !in key && 1 <= n <= 0x8000_0000_0000_0000
    ensures Visit(v, key + "[" + ("-" + Decimal(n)) + "]") == Visit(v, key)
  {
    SignedIndexes(n);
    BracketedSegment(key, "-" + Decimal(n));
    BracketIn(key);
  }

  // ----- failures -----

  /** How the visit of one segment that names `key` and `index` fails, in terms of the value it is applied to. */
  lemma VisitFailures(v: Json, segment: string)
    requires Select(segment).Selector?
    ensures var key, index := Select(segment).key, Select(segment).index;
            var field := if key == "" then Some(v) else FieldOf(v, key);
            && (Visit(v, segment) == Failed(NotAnObject(key)) <==> key != "" && !v.Object?)
            && (Visit(v, segment) == Failed(NotFound(key)) <==> key != "" && v.Object? && key !in v.fields)
            && (Visit(v, segment) == Failed(NotAnArray(segment)) <==> field.Some? && index >= 0 && !field.value.Array?)
            && (Visit(v, segment) == Failed(OutOfRange(index)) <==>
                  field.Some? && field.value.Array? && index >= |field.value.items|)
  {
  }

  /** A path fails as its first segment fails that cannot be followed from what those before it select. */
  lemma {:induction false} FirstFailure(doc: Json, segments: seq<string>) returns (k: nat)
    requires Walk(doc, segments).Failed?
    ensures k < |segments| && Walk(doc, segments[..k]).Value?
    ensures Walk(doc, segments) == Visit(Walk(doc, segments[..k]).value, segments[k])
  {
    var n := |segments| - 1;
    assert segments[..n] == Front(segments);
    if Walk(doc, segments[..n]).Failed? {
      k := FirstFailure(doc, segments[..n]);
      assert segments[..n][..k] == segments[..k];
    } else {
      k := n;
    }
  }

  /** A segment that ends like an index and does not hold one fails before anything is selected. */
  lemma BadIndexFails(v: Json, key: string, text: string)
    requires '[' !in key && Atoi(text).None?
    ensures Visit(v, key + "[" + text + "]") == Failed(BadIndex(text))
  {
    BracketedSegment(key, text);
  }
}
