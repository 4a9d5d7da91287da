/**
 * `find_json_content`, which both `json_tool_call_parser.py` files define with the same
 * code: a left-to-right scan that counts `{` and `[` as openers and `}` and `]` as closers
 * alike, starts a segment at an opener met at depth 0 and ends it when the depth drops
 * back to 0. Quotes are not looked at, so brackets inside string literals count too, and
 * a closer at depth 0 drives the depth negative, after which openers only climb back
 * towards 0 without starting a segment.
 */
module JsonSegments {
  import opened Wrappers

  predicate IsOpener(c: char) { c == '{' || c == '[' }
  predicate IsCloser(c: char) { c == '}' || c == ']' }

  /** How a character moves the bracket depth. */
  function Delta(c: char): int
  {
    if IsOpener(c) then 1 else if IsCloser(c) then -1 else 0
  }

  /** Openers minus closers in `s`. */
  function BracketDepth(s: string): int
  {
    if s == [] then 0 else BracketDepth(s[..|s| - 1]) + Delta(s[|s| - 1])
  }

  /** The scan's variables after some prefix of the text: the segments found so far, as
      index ranges `[start, end)`, the start of the open segment, and the depth. */
  datatype Scan = Scan(spans: seq<(int, int)>, start: Option<int>, depth: int)

  /** The scan after the first `n` characters of `text`. */
  function ScanState(text: string, n: int): Scan
    requires 0 <= n <= |text|
  {
    if n == 0 then Scan([], None, 0)
    else
      var s := ScanState(text, n - 1);
      var i, c := n - 1, text[n - 1];
      if IsOpener(c) && s.depth == 0 then Scan(s.spans, Some(i), 1)
      else if IsOpener(c) then s.(depth := s.depth + 1)
      else if IsCloser(c) then
        if s.depth - 1 == 0 && s.start.Some? then Scan(s.spans + [(s.start.value, i + 1)], None, 0)
        else s.(depth := s.depth - 1)
      else s
  }

  /** The texts of the given ranges. */
  function Texts(text: string, spans: seq<(int, int)>): (r: seq<string>)
    requires forall k :: 0 <= k < |spans| ==> 0 <= spans[k].0 <= spans[k].1 <= |text|
    ensures |r| == |spans|
    ensures forall k :: 0 <= k < |r| ==> r[k] == text[spans[k].0..spans[k].1]
  {
    seq(|spans|, k requires 0 <= k < |spans| => text[spans[k].0..spans[k].1])
  }

  /** `text[a..b]` is one segment: it opens at `a`, closes at `b - 1`, its depth is
      positive after every proper prefix and zero at its end. */
  ghost predicate Balanced(text: string, a: int, b: int)
  {
    0 <= a < b <= |text| && IsOpener(text[a]) && IsCloser(text[b - 1]) &&
    BracketDepth(text[a..b]) == 0 &&
    forall m :: a < m < b ==> BracketDepth(text[a..m]) > 0
  }

  /** `text[a..n]` is a segment still open at depth `d`. */
  ghost predicate OpenRun(text: string, a: int, n: int, d: int)
  {
    0 <= a < n <= |text| && IsOpener(text[a]) && BracketDepth(text[a..n]) == d &&
    forall m :: a < m <= n ==> BracketDepth(text[a..m]) > 0
  }

  /** Ranges in increasing order, each ending no later than the next starts, all ending by
      `bound`. */
  predicate SpansOrdered(spans: seq<(int, int)>, bound: int)
  {
    forall k :: 0 <= k < |spans| ==>
      0 <= spans[k].0 < spans[k].1 <= bound && (k + 1 < |spans| ==> spans[k].1 <= spans[k + 1].0)
  }

  /** What the scan keeps true: a segment is open exactly when the depth is positive, the
      open one is an open run, the segments found are balanced, in order, and end before
      the open one starts. */
  ghost predicate ScanInv(text: string, n: int, s: Scan)
  {
    (s.depth > 0 <==> s.start.Some?) &&
    (s.start.Some? ==> OpenRun(text, s.start.value, n, s.depth)) &&
    SpansOrdered(s.spans, if s.start.Some? then s.start.value else n) &&
    forall k :: 0 <= k < |s.spans| ==> Balanced(text, s.spans[k].0, s.spans[k].1)
  }

  lemma {:induction false} DepthSnoc(text: string, a: int, n: int)
    requires 0 <= a < n <= |text|
    ensures BracketDepth(text[a..n]) == BracketDepth(text[a..n - 1]) + Delta(text[n - 1])
  {
    assert text[a..n][..n - a - 1] == text[a..n - 1];
  }

  /** The scan keeps `ScanInv` at every prefix. */
  lemma {:induction false} ScanKeepsInv(text: string, n: int)
    requires 0 <= n <= |text|
    ensures ScanInv(text, n, ScanState(text, n))
  {
    if n > 0 {
      ScanKeepsInv(text, n - 1);
      var s := ScanState(text, n - 1);
      if IsOpener(text[n - 1]) && s.depth == 0 {
        OpenerStartsRun(text, n);
      } else if IsCloser(text[n - 1]) && s.depth - 1 == 0 && s.start.Some? {
        CloserEndsRun(text, n);
      } else {
        InsideStep(text, n);
      }
    }
  }

  /** An opener at depth 0 starts a new open run. */
  lemma {:induction false} OpenerStartsRun(text: string, n: int)
    requires 0 < n <= |text| && ScanInv(text, n - 1, ScanState(text, n - 1))
    requires IsOpener(text[n - 1]) && ScanState(text, n - 1).depth == 0
    ensures ScanInv(text, n, ScanState(text, n))
  {
    assert text[n - 1..n][..0] == [];
  }

  /** A closer that brings the depth back to 0 closes the open run into a balanced
      segment. */
  lemma {:induction false} CloserEndsRun(text: string, n: int)
    requires 0 < n <= |text| && ScanInv(text, n - 1, ScanState(text, n - 1))
    requires IsCloser(text[n - 1]) && ScanState(text, n - 1).depth == 1 && ScanState(text, n - 1).start.Some?
    ensures ScanInv(text, n, ScanState(text, n))
  {
    var s := ScanState(text, n - 1);
    var a := s.start.value;
    DepthSnoc(text, a, n);
    assert ScanState(text, n) == Scan(s.spans + [(a, n)], None, 0);
    assert Balanced(text, a, n);
  }

  /** Any other character only moves the depth, and the open run, if any, goes on. */
  lemma {:induction false} InsideStep(text: string, n: int)
    requires 0 < n <= |text| && ScanInv(text, n - 1, ScanState(text, n - 1))
    requires !(IsOpener(text[n - 1]) && ScanState(text, n - 1).depth == 0)
    requires !(IsCloser(text[n - 1]) && ScanState(text, n - 1).depth == 1 && ScanState(text, n - 1).start.Some?)
    ensures ScanInv(text, n, ScanState(text, n))
  {
    var s := ScanState(text, n - 1);
    assert ScanState(text, n).spans == s.spans && ScanState(text, n).start == s.start;
    if s.start.Some? {
      DepthSnoc(text, s.start.value, n);
    }
  }

  /** The segments `find_json_content` returns. */
  function Segments(text: string): (r: seq<string>)
  {
    var s := ScanState(text, |text|);
    ScanKeepsInv(text, |text|);
    Texts(text, s.spans)
  }

  /** Every returned segment is the text between two positions of the input; the
      positions are increasing and no two segments overlap; each segment starts with an
      opener, ends with a closer, has positive depth after each proper prefix and depth
      zero at its end. */
  lemma {:induction false} SegmentsShape(text: string)
    ensures var spans := ScanState(text, |text|).spans;
      SpansOrdered(spans, |text|) &&
      Segments(text) == Texts(text, spans) &&
      forall k :: 0 <= k < |spans| ==> Balanced(text, spans[k].0, spans[k].1)
  {
    ScanKeepsInv(text, |text|);
  }

  /** Ranges ordered consecutively are ordered pairwise: no two segments overlap. */
  lemma {:induction false} OrderedPairwise(spans: seq<(int, int)>, bound: int, i: int, j: int)
    requires SpansOrdered(spans, bound) && 0 <= i < j < |spans|
    ensures spans[i].1 <= spans[j].0
    decreases j - i
  {
    if i + 1 < j {
      OrderedPairwise(spans, bound, i + 1, j);
    }
  }

  /** The scan over the text, with the variables of the source. */
  method FindJsonContent(text: string) returns (results: seq<string>)
    ensures results == Segments(text)
  {
    results := [];
    var start: Option<int> := None;
    var depth := 0;
    var i := 0;
    while i < |text|
      invariant 0 <= i <= |text|
      invariant ScanInv(text, i, ScanState(text, i))
      invariant ScanState(text, i).start == start && ScanState(text, i).depth == depth
      invariant results == Texts(text, ScanState(text, i).spans)
    {
      results, start, depth := ScanChar(text, i, results, start, depth);
      i := i + 1;
    }
  }

  /** One pass of the scan loop, over `text[i]`. */
  method ScanChar(text: string, i: int, results: seq<string>, start: Option<int>, depth: int)
    returns (results': seq<string>, start': Option<int>, depth': int)
    requires 0 <= i < |text|
    requires ScanInv(text, i, ScanState(text, i))
    requires ScanState(text, i).start == start && ScanState(text, i).depth == depth
    requires results == Texts(text, ScanState(text, i).spans)
    ensures ScanInv(text, i + 1, ScanState(text, i + 1))
    ensures ScanState(text, i + 1).start == start' && ScanState(text, i + 1).depth == depth'
    ensures results' == Texts(text, ScanState(text, i + 1).spans)
  {
    ScanKeepsInv(text, i + 1);
    results', start', depth' := results, start, depth;
    var c := text[i];
    if IsOpener(c) && depth == 0 {
      start' := Some(i);
      depth' := depth + 1;
    } else if IsOpener(c) {
      depth' := depth + 1;
    } else if IsCloser(c) {
      depth' := depth - 1;
      if depth' == 0 && start.Some? {
        results' := results + [text[start.value..i + 1]];
        start' := None;
      }
    }
  }

  /** Brackets inside a string literal count: in `{"a": "}"}` the quoted `}` closes the
      object, and the segment found is `{"a": "}`. */
  lemma {:induction false} QuotesIgnored()
    ensures Segments("{\"a\": \"}\"}") == ["{\"a\": \"}"]
  {
    var t := "{\"a\": \"}\"}";
    assert ScanState(t, 1) == Scan([], Some(0), 1);
    assert ScanState(t, 8) == Scan([(0, 8)], None, 0);
    assert ScanState(t, 10) == Scan([(0, 8)], None, -1);
    assert t[0..8] == "{\"a\": \"}";
  }

  /** A closer at depth 0 makes the depth negative, and the object that follows is never
      reported: `]{}` yields nothing. */
  lemma {:induction false} NegativeDepthHidesSegment()
    ensures Segments("]{}") == []
  {
    var t := "]{}";
    assert ScanState(t, 1) == Scan([], None, -1);
    assert ScanState(t, 2) == Scan([], None, 0);
    assert ScanState(t, 3) == Scan([], None, -1);
  }
}
