/** Masking known secrets in a text. */
module Redaction {
  const MIN_REDACTED_LENGTH := 6
  const MAX_SUBMITTED_SECRETS := 64
  const MARKER := "[REDACTED]"

  // ---- the simple specification ----

  /** `v` stands in `text` at `start`. */
  predicate Occurs(text: string, v: string, start: int) {
    0 <= start <= |text| - |v| && text[start..start + |v|] == v
  }

  /** Position `p` belongs to an occurrence of a known value that is long enough. */
  ghost predicate Covered(text: string, values: seq<string>, p: int) {
    exists v, start :: v in values && |v| >= MIN_REDACTED_LENGTH && Occurs(text, v, start) && start <= p < start + |v|
  }

  /** Characters `i` to `j` of `text` with each maximal run of covered ones replaced by one marker. */
  ghost function Mask(text: string, covered: int -> bool, i: int, j: int): string
    requires 0 <= i <= j <= |text|
    decreases j - i
  {
    if i == j then ""
    else if !covered(i) then [text[i]] + Mask(text, covered, i + 1, j)
    else (if covered(i - 1) then "" else MARKER) + Mask(text, covered, i + 1, j)
  }

  /** Every character of every occurrence is masked, every other one is kept, in order. */
  ghost function Redacted(text: string, values: seq<string>): string {
    Mask(text, (p: int) => Covered(text, values, p), 0, |text|)
  }

  lemma {:induction false} MaskSplit(text: string, covered: int -> bool, i: int, j: int, k: int)
    requires 0 <= i <= j <= k <= |text|
    ensures Mask(text, covered, i, k) == Mask(text, covered, i, j) + Mask(text, covered, j, k)
    decreases j - i
  {
    if i < j { MaskSplit(text, covered, i + 1, j, k); }
  }

  lemma {:induction false} MaskPlain(text: string, covered: int -> bool, i: int, j: int)
    requires 0 <= i <= j <= |text| && forall p | i <= p < j :: !covered(p)
    ensures Mask(text, covered, i, j) == text[i..j]
    decreases j - i
  {
    if i < j {
      MaskPlain(text, covered, i + 1, j);
      assert text[i..j] == [text[i]] + text[i + 1..j];
    }
  }

  lemma {:induction false} MaskInside(text: string, covered: int -> bool, i: int, j: int)
    requires 0 <= i <= j <= |text| && covered(i - 1) && forall p | i <= p < j :: covered(p)
    ensures Mask(text, covered, i, j) == ""
    decreases j - i
  {
    if i < j { MaskInside(text, covered, i + 1, j); }
  }

  /** One whole run gives one marker. */
  lemma MaskRun(text: string, covered: int -> bool, i: int, j: int)
    requires 0 <= i < j <= |text| && !covered(i - 1) && forall p | i <= p < j :: covered(p)
    ensures Mask(text, covered, i, j) == MARKER
  {
    MaskInside(text, covered, i + 1, j);
    assert MARKER + "" == MARKER;
  }

  // ---- the algorithm ----

  datatype Span = Span(start: int, end: int)

  ghost predicate InSpan(spans: seq<Span>, p: int) { exists s :: s in spans && s.start <= p < s.end }

  /** The first occurrence at or after `from`, or -1. */
  method IndexOf(text: string, v: string, from: nat) returns (at: int)
    ensures at >= 0 ==> at >= from && Occurs(text, v, at)
    ensures at >= 0 ==> forall i | from <= i < at :: !Occurs(text, v, i)
    ensures at < 0 ==> forall i | from <= i :: !Occurs(text, v, i)
  {
    at := from;
    while at <= |text| - |v|
      invariant from <= at && forall i | from <= i < at :: !Occurs(text, v, i)
      decreases |text| - |v| - at
    {
      if text[at..at + |v|] == v {
        return;
      }
      at := at + 1;
    }
    at := -1;
  }

  method SpansOf(text: string, v: string) returns (spans: seq<Span>)
    ensures forall s :: s in spans <==> Occurs(text, v, s.start) && s.end == s.start + |v|
  {
    spans := [];
    var start := IndexOf(text, v, 0);
    while start >= 0
      invariant start >= 0 ==> Occurs(text, v, start)
      invariant forall s :: s in spans <==>
                  Occurs(text, v, s.start) && s.end == s.start + |v| && (start >= 0 ==> s.start < start)
      decreases if start >= 0 then |text| - start + 1 else 0
    {
      var was := start;
      spans := spans + [Span(start, start + |v|)];
      start := IndexOf(text, v, start + 1);
      forall s ensures s in spans <==> Occurs(text, v, s.start) && s.end == s.start + |v| && (start >= 0 ==> s.start < start) {
        assert s.start > was && Occurs(text, v, s.start) ==> start >= 0 && s.start >= start;
      }
    }
  }

  predicate ByStart(spans: seq<Span>) { forall i, j | 0 <= i < j < |spans| :: spans[i].start <= spans[j].start }

  function InsertSpan(spans: seq<Span>, s: Span): seq<Span> {
    if spans == [] then [s] else if s.start < spans[0].start then [s] + spans else [spans[0]] + InsertSpan(spans[1..], s)
  }

  lemma {:induction false} InsertSpanKeeps(spans: seq<Span>, s: Span)
    requires ByStart(spans)
    ensures ByStart(InsertSpan(spans, s)) && forall x :: x in InsertSpan(spans, s) <==> x in spans || x == s
    decreases spans
  {
    if spans != [] && s.start >= spans[0].start {
      assert spans == [spans[0]] + spans[1..];
      InsertSpanKeeps(spans[1..], s);
      var rest := InsertSpan(spans[1..], s);
      forall x | x in rest ensures spans[0].start <= x.start {
        if x != s {
          var k :| 0 <= k < |spans| - 1 && spans[1..][k] == x;
          assert spans[k + 1] == x;
        }
      }
      forall i, j | 0 <= i < j < |rest| + 1 ensures ([spans[0]] + rest)[i].start <= ([spans[0]] + rest)[j].start {
        if i == 0 { assert rest[j - 1] in rest; }
      }
    }
  }

  method SortSpans(spans: seq<Span>) returns (sorted: seq<Span>)
    ensures ByStart(sorted) && |sorted| == |spans| && forall s :: s in sorted <==> s in spans
  {
    sorted := [];
    for k := 0 to |spans|
      invariant ByStart(sorted) && |sorted| == k && forall s :: s in sorted <==> s in spans[..k]
    {
      assert spans[..k + 1] == spans[..k] + [spans[k]];
      InsertSpanKeeps(sorted, spans[k]);
      InsertLength(sorted, spans[k]);
      sorted := InsertSpan(sorted, spans[k]);
    }
    assert spans[..|spans|] == spans;
  }

  lemma {:induction false} InsertLength(spans: seq<Span>, s: Span)
    ensures |InsertSpan(spans, s)| == |spans| + 1
    decreases spans
  {
    if spans != [] && s.start >= spans[0].start { InsertLength(spans[1..], s); }
  }

  /** Merges the sorted spans and replaces each merged one. */
  method Replace(text: string, spans: seq<Span>) returns (redacted: string)
    requires spans != [] && ByStart(spans) && forall s | s in spans :: 0 <= s.start < s.end <= |text|
    ensures redacted == Mask(text, (p: int) => InSpan(spans, p), 0, |text|)
  {
    hide InSpan, Mask;
    ghost var covered := (p: int) => InSpan(spans, p);
    MaskPlain(text, covered, 0, 0);
    redacted := "";
    var cursor := 0;
    assert spans[0] in spans;
    var spanStart, spanEnd := spans[0].start, spans[0].end;
    FirstRun(spans);
    for k := 1 to |spans|
      invariant 0 <= cursor <= spanStart < spanEnd <= |text|
      invariant redacted == Mask(text, covered, 0, cursor)
      invariant spanStart <= spans[k - 1].start
      invariant (forall p | cursor <= p < spanStart :: !InSpan(spans, p)) && !InSpan(spans, spanStart - 1)
      invariant forall p | spanStart <= p < spanEnd :: InSpan(spans, p)
      invariant forall j | 0 <= j < k :: spans[j].end <= spanEnd
    {
      var s := spans[k];
      assert s in spans;
      if s.start <= spanEnd {
        SpanCovers(spans, s);
        if s.end > spanEnd { spanEnd := s.end; }
        continue;
      }
      RunEnds(text, spans, k, cursor, spanStart, spanEnd);
      redacted := redacted + (text[cursor..spanStart] + MARKER);
      cursor := spanEnd;
      spanStart, spanEnd := s.start, s.end;
      SpanCovers(spans, s);
    }
    RunEnds(text, spans, |spans|, cursor, spanStart, spanEnd);
    MaskSplit(text, covered, 0, spanEnd, |text|);
    MaskPlain(text, covered, spanEnd, |text|);
    redacted := redacted + (text[cursor..spanStart] + MARKER) + text[spanEnd..];
  }

  lemma SpanCovers(spans: seq<Span>, s: Span)
    requires s in spans
    ensures forall p | s.start <= p < s.end :: InSpan(spans, p)
  {
  }

  lemma FirstRun(spans: seq<Span>)
    requires spans != [] && ByStart(spans)
    ensures forall p | p < spans[0].start :: !InSpan(spans, p)
    ensures forall p | spans[0].start <= p < spans[0].end :: InSpan(spans, p)
  {
    forall p | p < spans[0].start ensures !InSpan(spans, p) {
      forall s | s in spans ensures !(s.start <= p < s.end) {
        var j :| 0 <= j < |spans| && spans[j] == s;
      }
    }
    assert spans[0] in spans;
  }

  /** The run up to `spanEnd` is complete once every span before `k` ends there and every later one starts beyond it. */
  lemma RunEnds(text: string, spans: seq<Span>, k: nat, cursor: int, spanStart: int, spanEnd: int)
    requires 1 <= k <= |spans| && ByStart(spans) && 0 <= cursor <= spanStart < spanEnd <= |text|
    requires forall p | cursor <= p < spanStart :: !InSpan(spans, p)
    requires !InSpan(spans, spanStart - 1) && forall p | spanStart <= p < spanEnd :: InSpan(spans, p)
    requires forall j | 0 <= j < k :: spans[j].end <= spanEnd
    requires k < |spans| ==> spans[k].start > spanEnd
    ensures var covered := (p: int) => InSpan(spans, p);
            Mask(text, covered, 0, spanEnd) == Mask(text, covered, 0, cursor) + (text[cursor..spanStart] + MARKER)
    ensures forall p | spanEnd <= p < (if k < |spans| then spans[k].start else |text|) :: !InSpan(spans, p)
  {
    var covered := (p: int) => InSpan(spans, p);
    MaskSplit(text, covered, 0, cursor, spanEnd);
    MaskSplit(text, covered, cursor, spanStart, spanEnd);
    MaskPlain(text, covered, cursor, spanStart);
    MaskRun(text, covered, spanStart, spanEnd);
    forall p | spanEnd <= p < (if k < |spans| then spans[k].start else |text|) ensures !InSpan(spans, p) {
      forall s | s in spans ensures !(s.start <= p < s.end) {
        var j :| 0 <= j < |spans| && spans[j] == s;
      }
    }
  }

  lemma {:induction false} MaskSame(text: string, a: int -> bool, b: int -> bool, i: int, j: int)
    requires 0 <= i <= j <= |text| && forall p :: a(p) == b(p)
    ensures Mask(text, a, i, j) == Mask(text, b, i, j)
    decreases j - i
  {
    if i < j { MaskSame(text, a, b, i + 1, j); }
  }

  /** Without the first occurrence of `v`. */
  function DropFirst(s: seq<string>, v: string): seq<string> {
    if s == [] then [] else if s[0] == v then s[1..] else [s[0]] + DropFirst(s[1..], v)
  }

  function Newest(s: seq<string>): seq<string> { if |s| > MAX_SUBMITTED_SECRETS then s[1..] else s }

  lemma {:induction false} DropAt(s: seq<string>, v: string, k: nat)
    requires k <= |s| && (forall i | 0 <= i < k :: s[i] != v) && (k < |s| ==> s[k] == v)
    ensures DropFirst(s, v) == if k < |s| then s[..k] + s[k + 1..] else s
    decreases s
  {
    if s != [] && k > 0 {
      DropAt(s[1..], v, k - 1);
      assert s == [s[0]] + s[1..];
      if k < |s| { assert s[..k] + s[k + 1..] == [s[0]] + (s[1..][..k - 1] + s[1..][k..]); }
    }
  }

  lemma {:induction false} DropKeeps(s: seq<string>, v: string)
    requires forall i, j | 0 <= i < j < |s| :: s[i] != s[j]
    ensures var r := DropFirst(s, v);
            && v !in r && |r| <= |s| && (forall x | x in r :: x in s) && (v in s ==> |r| < |s|)
            && forall i, j | 0 <= i < j < |r| :: r[i] != r[j]
    decreases s
  {
    if s != [] {
      assert s == [s[0]] + s[1..];
      forall x | x in s[1..] ensures x != s[0] {
        var k :| 0 <= k < |s| - 1 && s[1..][k] == x;
        assert s[k + 1] == x;
      }
      if s[0] != v {
        DropKeeps(s[1..], v);
        var rest := DropFirst(s[1..], v);
        forall i, j | 0 <= i < j < |rest| + 1 ensures ([s[0]] + rest)[i] != ([s[0]] + rest)[j] {
          assert rest[j - 1] in rest;
        }
      }
    }
  }

  class SecretStore {
    /** Resolved secrets, each once, and values submitted through the panel, oldest first. */
    var values: seq<string>
    var submitted: seq<string>

    constructor ()
      ensures values == [] && submitted == [] && Valid()
    {
      values, submitted := [], [];
    }

    ghost predicate Valid()
      reads this
    {
      |submitted| <= MAX_SUBMITTED_SECRETS && forall i, j | 0 <= i < j < |submitted| :: submitted[i] != submitted[j]
    }

    /** The given value becomes the newest; the oldest goes when there are too many. */
    method Remember(value: string)
      requires Valid()
      modifies this`submitted
      ensures Valid() && submitted == Newest(DropFirst(old(submitted), value) + [value])
    {
      DropKeeps(submitted, value);
      var k := 0;
      while k < |submitted| && submitted[k] != value
        invariant k <= |submitted| && forall i | 0 <= i < k :: submitted[i] != value
      {
        k := k + 1;
      }
      DropAt(submitted, value, k);
      if k < |submitted| { submitted := submitted[..k] + submitted[k + 1..]; }
      submitted := submitted + [value];
      if |submitted| > MAX_SUBMITTED_SECRETS { submitted := submitted[1..]; }
    }

    /** Masks every known value of sufficient length at once. */
    method Redact(text: string) returns (redacted: string)
      ensures redacted == Redacted(text, values + submitted)
    {
      var spans: seq<Span> := [];
      var known := values + submitted;
      for k := 0 to |known|
        invariant forall s :: s in spans <==>
                    exists v :: v in known[..k] && |v| >= MIN_REDACTED_LENGTH && Occurs(text, v, s.start) && s.end == s.start + |v|
      {
        assert known[..k + 1] == known[..k] + [known[k]];
        if |known[k]| < MIN_REDACTED_LENGTH {
          continue;
        }
        var more := SpansOf(text, known[k]);
        spans := spans + more;
      }
      assert known[..|known|] == known;
      ghost var covered := (p: int) => Covered(text, known, p);
      CoveredInSpans(text, known, spans);
      if spans == [] {
        MaskPlain(text, covered, 0, |text|);
        assert text[0..|text|] == text;
        return text;
      }
      var sorted := SortSpans(spans);
      redacted := Replace(text, sorted);
      SameSpans(spans, sorted);
      MaskSame(text, (p: int) => InSpan(sorted, p), covered, 0, |text|);
    }
  }

  lemma CoveredInSpans(text: string, known: seq<string>, spans: seq<Span>)
    requires forall s :: s in spans <==>
               exists v :: v in known && |v| >= MIN_REDACTED_LENGTH && Occurs(text, v, s.start) && s.end == s.start + |v|
    ensures forall p :: Covered(text, known, p) == InSpan(spans, p)
    ensures forall s | s in spans :: 0 <= s.start < s.end <= |text|
  {
    forall p ensures Covered(text, known, p) == InSpan(spans, p) {
      if Covered(text, known, p) {
        var v, start :| v in known && |v| >= MIN_REDACTED_LENGTH && Occurs(text, v, start) && start <= p < start + |v|;
        assert Span(start, start + |v|) in spans;
      }
      if InSpan(spans, p) {
        var s :| s in spans && s.start <= p < s.end;
        var v :| v in known && |v| >= MIN_REDACTED_LENGTH && Occurs(text, v, s.start) && s.end == s.start + |v|;
      }
    }
  }

  lemma SameSpans(a: seq<Span>, b: seq<Span>)
    requires forall s :: s in a <==> s in b
    ensures forall p :: InSpan(a, p) == InSpan(b, p)
  {
  }
}
