/**
 * `AhoCorasickBufferedProcessor` of `buffered_processor_standard.py`: exact matching over
 * the held-back tail followed by the new chunk. Without a match it emits all but the last
 * `max_pattern_len - 1` characters; with one it splits the text where the match with the
 * smallest end index starts.
 *
 * The automaton cursor is reset only after a match, so the tail that is searched again
 * continues from where the previous search stopped; the step below is stated for whatever
 * the automaton reports, and `SpuriousMatch` shows what that does.
 */
module BufferedProcessorStandard {
  import opened Wrappers
  import opened PyStr
  import opened TrieSpec
  import opened Streaming
  import opened BaseBufferedProcessor
  import opened AhoCorasick

  /** Python's `max(len(t) for t in texts)`; `None` is the `ValueError` of an empty
      sequence. */
  function MaxTextLength(texts: seq<string>): (r: Option<int>)
    ensures r.None? <==> texts == []
    ensures r.Some? ==> (exists k :: 0 <= k < |texts| && |texts[k]| == r.value)
    ensures r.Some? ==> forall k :: 0 <= k < |texts| ==> |texts[k]| <= r.value
  {
    if texts == [] then None
    else
      var rest := MaxTextLength(texts[1..]);
      if rest.Some? && rest.value > |texts[0]| then
        assert forall k :: 1 <= k < |texts| ==> texts[k] == texts[1..][k - 1];
        var j :| 0 <= j < |texts[1..]| && |texts[1..][j]| == rest.value;
        assert |texts[j + 1]| == rest.value;
        rest
      else
        assert forall k :: 1 <= k < |texts| ==> texts[k] == texts[1..][k - 1];
        Some(|texts[0]|)
  }

  function Min(a: int, b: int): int { if a <= b then a else b }

  /** Python's `min(ms, key=lambda m: m[0])`: the first entry with the smallest position. */
  function Earliest(ms: seq<(int, string)>): (r: (int, string))
    requires ms != []
    ensures exists k :: 0 <= k < |ms| && ms[k] == r && forall j :: 0 <= j < k ==> ms[j].0 > r.0
    ensures forall j :: 0 <= j < |ms| ==> r.0 <= ms[j].0
  {
    if |ms| == 1 then ms[0]
    else
      var e := Earliest(ms[1..]);
      if e.0 < ms[0].0 then
        var k :| 0 <= k < |ms[1..]| && ms[1..][k] == e && forall j :: 0 <= j < k ==> ms[1..][j].0 > e.0;
        assert ms[k + 1] == e;
        assert forall j :: 1 <= j < k + 1 ==> ms[j] == ms[1..][j - 1];
        e
      else
        assert forall j :: 1 <= j < |ms| ==> ms[j] == ms[1..][j - 1];
        ms[0]
  }

  /** Every reported name is the name of a pattern. */
  predicate NamesKnown(pats: seq<Pattern>, found: seq<(int, string)>)
  {
    forall k :: 0 <= k < |found| ==> found[k].1 in Names(pats)
  }

  /** One `process_chunk_impl` step on `combined`, given what the automaton reported for
      it: the result and the new held-back tail. Negative slice bounds behave as in
      Python. */
  function StandardStep(pats: seq<Pattern>, maxLen: int, message: string, combined: string,
                        found: seq<(int, string)>): (PatternMatchResult, string)
    requires NamesKnown(pats, found)
  {
    if found == [] then
      var keepLen := Min(maxLen - 1, |combined|);
      if keepLen > 0 then (Emitted(Take(combined, -keepLen)), Drop(combined, -keepLen))
      else (Emitted(combined), [])
    else
      var e := Earliest(found);
      var start := e.0 - |Lookup(pats, e.1).value| + 1;
      (MatchedAt(e.1, message, Take(combined, start), Drop(combined, start)), [])
  }

  class Processor {
    const base: BufferedBase
    const automaton: Automaton
    const maxPatternLen: int

    ghost predicate Valid()
      reads this, automaton
    {
      automaton.Valid() && NoEmpty(automaton.patterns) && DistinctNames(automaton.patterns) &&
      MaxTextLength(Words(automaton.patterns)) == Some(maxPatternLen)
    }

    /** Builds the automaton over the patterns and records the longest pattern length;
        Python's `max` raises on an empty pattern set, which `MaxTextLength` reports as
        `None`. */
    constructor (patterns: seq<Pattern>, toolCallMessage: string)
      requires patterns != [] && NoEmpty(patterns) && DistinctNames(patterns)
      ensures Valid() && automaton.patterns == patterns && automaton.fed == []
      ensures base.toolCallMessage == toolCallMessage && base.trailingBufferOriginal == []
      ensures fresh(base) && fresh(automaton)
    {
      base := new BufferedBase(toolCallMessage);
      automaton := new Automaton(patterns);
      maxPatternLen := MaxTextLength(Words(patterns)).value;
      new;
      automaton.ResetState();
    }

    /** `process_chunk`: the held-back tail and the chunk are processed together, and
        what the step keeps back becomes the new tail. */
    method ProcessChunk(chunk: string) returns (result: PatternMatchResult)
      requires Valid()
      modifies base, automaton
      ensures Valid()
      ensures var combined := old(base.trailingBufferOriginal) + chunk;
        var found := Matches(automaton.patterns, old(automaton.fed), combined);
        NamesKnown(automaton.patterns, found) &&
        (result, base.trailingBufferOriginal) ==
          StandardStep(automaton.patterns, maxPatternLen, base.toolCallMessage, combined, found)
      ensures automaton.fed ==
        if result.matched then [] else old(automaton.fed) + old(base.trailingBufferOriginal) + chunk
    {
      var combined := base.trailingBufferOriginal + chunk;
      var newTrailing;
      result, newTrailing := ProcessChunkImpl(combined);
      SetTrailing(newTrailing);
    }

    /** Replaces the held-back tail and nothing else. */
    method SetTrailing(t: string)
      requires Valid()
      modifies base
      ensures Valid() && base.trailingBufferOriginal == t
    {
      base.trailingBufferOriginal := t;
    }

    /** `process_chunk_impl`: searches `combinedOriginal` from the current cursor, then
        keeps back a tail or splits at the earliest match and resets the cursor. */
    method ProcessChunkImpl(combinedOriginal: string) returns (result: PatternMatchResult, newTrailing: string)
      requires Valid()
      modifies automaton
      ensures Valid()
      ensures var found := Matches(automaton.patterns, old(automaton.fed), combinedOriginal);
        NamesKnown(automaton.patterns, found) &&
        (result, newTrailing) ==
          StandardStep(automaton.patterns, maxPatternLen, base.toolCallMessage, combinedOriginal, found)
      ensures automaton.fed == if result.matched then [] else old(automaton.fed) + combinedOriginal
    {
      result := Default;
      ghost var history := automaton.fed;
      var matches := automaton.SearchChunk(combinedOriginal);
      MatchesNamesKnown(automaton.patterns, history, combinedOriginal);
      if matches == [] {
        result, newTrailing := HoldBackTail(automaton.patterns, maxPatternLen, base.toolCallMessage, combinedOriginal);
        return;
      }
      result, newTrailing := SplitAtMatch(automaton.patterns, maxPatternLen, base.toolCallMessage, combinedOriginal, matches);
      automaton.ResetState();
    }
  }

  /** The branch of `process_chunk_impl` with a match: splits at the start of the match
      that ends earliest and keeps nothing back. */
  method SplitAtMatch(pats: seq<Pattern>, ghost maxLen: int, message: string, combinedOriginal: string,
                      matches: seq<(int, string)>)
    returns (result: PatternMatchResult, newTrailing: string)
    requires matches != [] && NamesKnown(pats, matches)
    ensures (result, newTrailing) == StandardStep(pats, maxLen, message, combinedOriginal, matches)
  {
    var (earliestEnd, patternName) := Earliest(matches);
    EarliestIn(matches);
    var patternStr := Lookup(pats, patternName).value;
    var matchStart := earliestEnd - |patternStr| + 1;
    result := Default.(matched := true, patternName := Some(patternName),
                       toolCallMessage := Some(message),
                       output := Some(Take(combinedOriginal, matchStart)),
                       textWithToolCall := Some(Drop(combinedOriginal, matchStart)));
    newTrailing := [];
  }

  /** The branch of `process_chunk_impl` without a match: emits all but the last
      `min(max_pattern_len - 1, n)` characters and keeps those back. */
  method HoldBackTail(ghost pats: seq<Pattern>, maxLen: int, message: string, combinedOriginal: string)
    returns (result: PatternMatchResult, newTrailing: string)
    ensures (result, newTrailing) == StandardStep(pats, maxLen, message, combinedOriginal, [])
  {
    var keepLen := Min(maxLen - 1, |combinedOriginal|);
    var safeText;
    if keepLen > 0 {
      safeText := Take(combinedOriginal, -keepLen);
      newTrailing := Drop(combinedOriginal, -keepLen);
    } else {
      safeText := combinedOriginal;
      newTrailing := [];
    }
    result := Default.(output := Some(safeText));
  }

  /** The automaton reports only names of patterns. */
  lemma {:induction false} MatchesNamesKnown(pats: seq<Pattern>, history: string, chunk: string)
    ensures NamesKnown(pats, Matches(pats, history, chunk))
  {
    var found := Matches(pats, history, chunk);
    forall k | 0 <= k < |found| ensures found[k].1 in Names(pats) {
      MatchesMember(pats, history, chunk, found[k].0, found[k].1);
      var j :| 0 <= j < |pats| && pats[j].0 == found[k].1 && pats[j].1 != [] &&
        IsSuffix(pats[j].1, history + chunk[..found[k].0 + 1]);
      assert Names(pats)[j] == found[k].1;
    }
  }

  /** Without a match nothing is lost: the output followed by the new tail is the combined
      text, and the tail is its last `min(max_pattern_len - 1, n)` characters (none when
      that is not positive). */
  lemma {:induction false} NoMatchSplit(pats: seq<Pattern>, maxLen: int, message: string, combined: string)
    ensures var (r, tail) := StandardStep(pats, maxLen, message, combined, []);
      !r.matched && r.output.Some? && r.output.value + tail == combined &&
      |tail| == (if Min(maxLen - 1, |combined|) > 0 then Min(maxLen - 1, |combined|) else 0) &&
      IsSuffix(tail, combined)
  {
    var keepLen := Min(maxLen - 1, |combined|);
    if keepLen > 0 {
      TakeDrop(combined, -keepLen);
    }
  }

  /** With a match the text is split in two with nothing lost, nothing is held back, and
      the match chosen has the smallest end index, the first reported one among equals. */
  lemma {:induction false} MatchSplit(pats: seq<Pattern>, maxLen: int, message: string, combined: string,
                   found: seq<(int, string)>)
    requires NamesKnown(pats, found) && found != []
    ensures var (r, tail) := StandardStep(pats, maxLen, message, combined, found);
      r.matched && tail == [] && r.output.value + r.textWithToolCall.value == combined &&
      r.toolCallMessage == Some(message) &&
      exists k :: 0 <= k < |found| && r.patternName == Some(found[k].1) &&
        (forall j :: 0 <= j < |found| ==> found[k].0 <= found[j].0) &&
        (forall j :: 0 <= j < k ==> found[j].0 > found[k].0)
  {
    var e := Earliest(found);
    var start := e.0 - |Lookup(pats, e.1).value| + 1;
    TakeDrop(combined, start);
  }

  /** Matches are reported in position order, so the earliest is the first reported. */
  lemma {:induction false} EarliestIsFirst(pats: seq<Pattern>, history: string, chunk: string)
    requires Matches(pats, history, chunk) != []
    ensures Earliest(Matches(pats, history, chunk)) == Matches(pats, history, chunk)[0]
  {
    MatchesOrdered(pats, history, chunk);
    var ms := Matches(pats, history, chunk);
    var k :| 0 <= k < |ms| && ms[k] == Earliest(ms) && forall j :: 0 <= j < k ==> ms[j].0 > ms[k].0;
    assert k == 0;
  }

  /** From the root cursor every reported match is genuine: the text handed on as the
      tool call starts with the matched pattern, and no pattern ends anywhere before it. */
  lemma {:induction false} GenuineFromRoot(pats: seq<Pattern>, maxLen: int, message: string, combined: string)
    requires NoEmpty(pats) && DistinctNames(pats)
    requires Matches(pats, [], combined) != []
    ensures var found := Matches(pats, [], combined);
      NamesKnown(pats, found) &&
      var (r, tail) := StandardStep(pats, maxLen, message, combined, found);
      var p := Lookup(pats, r.patternName.value).value;
      r.matched && IsPrefix(p, r.textWithToolCall.value) &&
      r.output.value + r.textWithToolCall.value == combined &&
      |r.output.value| + |p| - 1 == Earliest(found).0
  {
    MatchesNamesKnown(pats, [], combined);
    EarliestOccurs(pats, combined);
    GenuineSplit(pats, maxLen, message, combined, Matches(pats, [], combined));
  }

  /** The report `m` is an occurrence in `combined` of its pattern ending at `m.0`. */
  predicate OccursAt(pats: seq<Pattern>, combined: string, m: (int, string))
  {
    0 <= m.0 < |combined| && Lookup(pats, m.1).Some? && IsSuffix(Lookup(pats, m.1).value, combined[..m.0 + 1])
  }

  /** The earliest of the reports `found` is an occurrence in `combined` of its pattern. */
  predicate EarliestGenuine(pats: seq<Pattern>, combined: string, found: seq<(int, string)>)
    requires found != []
  {
    OccursAt(pats, combined, Earliest(found))
  }

  /** `GenuineFromRoot` for any reports whose earliest entry is an occurrence of its
      pattern. */
  lemma {:induction false} GenuineSplit(pats: seq<Pattern>, maxLen: int, message: string, combined: string, found: seq<(int, string)>)
    requires NamesKnown(pats, found) && found != [] && EarliestGenuine(pats, combined, found)
    ensures var (r, tail) := StandardStep(pats, maxLen, message, combined, found);
      var p := Lookup(pats, r.patternName.value).value;
      r.matched && IsPrefix(p, r.textWithToolCall.value) &&
      r.output.value + r.textWithToolCall.value == combined &&
      |r.output.value| + |p| - 1 == Earliest(found).0
  {
    var e := Earliest(found);
    SplitAtEnd(pats, maxLen, message, combined, found, e, Lookup(pats, e.1).value);
  }

  /** When the earliest match `e` is an occurrence of `p` ending at `e.0`, the step hands
      on as the tool call the text from where that occurrence starts. */
  lemma {:induction false} SplitAtEnd(pats: seq<Pattern>, maxLen: int, message: string, combined: string,
                   found: seq<(int, string)>, e: (int, string), p: string)
    requires NamesKnown(pats, found) && found != [] && e == Earliest(found)
    requires Lookup(pats, e.1) == Some(p) && 0 <= e.0 < |combined| && IsSuffix(p, combined[..e.0 + 1])
    ensures var (r, tail) := StandardStep(pats, maxLen, message, combined, found);
      r.matched && r.patternName == Some(e.1) && IsPrefix(p, r.textWithToolCall.value) &&
      r.output.value + r.textWithToolCall.value == combined && |r.output.value| + |p| - 1 == e.0
  {
    var start := e.0 - |p| + 1;
    var r := MatchedAt(e.1, message, combined[..start], combined[start..]);
    assert StandardStep(pats, maxLen, message, combined, found) == (r, []);
    assert combined[start..][..|p|] == combined[..e.0 + 1][start..];
  }

  /** The earliest reported match, from the root cursor, is an occurrence of its pattern
      ending at the reported index. */
  lemma {:induction false} EarliestOccurs(pats: seq<Pattern>, combined: string)
    requires NoEmpty(pats) && DistinctNames(pats)
    requires Matches(pats, [], combined) != []
    ensures EarliestGenuine(pats, combined, Matches(pats, [], combined))
  {
    var found := Matches(pats, [], combined);
    EarliestIn(found);
    MatchOccurs(pats, combined, Earliest(found));
  }

  /** From the root cursor every report is an occurrence of its pattern. */
  lemma {:induction false} MatchOccurs(pats: seq<Pattern>, combined: string, m: (int, string))
    requires NoEmpty(pats) && DistinctNames(pats)
    requires m in Matches(pats, [], combined)
    ensures OccursAt(pats, combined, m)
  {
    var k := MatchedPattern(pats, [], combined, m.0, m.1);
    assert [] + combined[..m.0 + 1] == combined[..m.0 + 1];
    LookupDistinct(pats, k);
  }

  lemma {:induction false} EarliestIn(found: seq<(int, string)>)
    requires found != []
    ensures Earliest(found) in found
  {
  }

  /** No pattern occurs in `combined` ending before the earliest reported match. */
  lemma {:induction false} NoEarlierOccurrence(pats: seq<Pattern>, combined: string, k: int, n: int)
    requires NoEmpty(pats) && Matches(pats, [], combined) != []
    requires 0 <= k < |pats| && 0 < n <= Earliest(Matches(pats, [], combined)).0 && n <= |combined|
    ensures !IsSuffix(pats[k].1, combined[..n])
  {
    var found := Matches(pats, [], combined);
    MatchesOrdered(pats, [], combined);
    assert [] + combined[..n - 1 + 1] == combined[..n];
    MatchesMember(pats, [], combined, n - 1, pats[k].0);
  }

  /** The single pattern `"abab"`, fed `"ab"` and then `"z"`: the first call holds `"ab"`
      back without a match, and the second searches `"abz"` from the cursor the first left
      at `"ab"`, so it reports `"abab"` ending at index 1. The match starts at -2, and
      Python's negative slicing emits `"a"` and hands on `"bz"` as the tool call, although
      `"abz"` cannot contain the pattern. */
  lemma {:induction false} SpuriousMatch()
    ensures Matches([("p", "abab")], [], "ab") == []
    ensures StandardStep([("p", "abab")], 4, "m", "ab", []) == (Emitted([]), "ab")
    ensures Matches([("p", "abab")], "ab", "abz") == [(1, "p")]
    ensures NamesKnown([("p", "abab")], [(1, "p")]) &&
      var (r, tail) := StandardStep([("p", "abab")], 4, "m", "abz", [(1, "p")]);
      r.matched && r.output == Some("a") && r.textWithToolCall == Some("bz") && tail == []
  {
    SpuriousFirstCall();
    SpuriousSecondCall();
    var pats := [("p", "abab")];
    MatchesNamesKnown(pats, "ab", "abz");
    assert Take("ab", -2) == [] && Drop("ab", -2) == "ab";
    assert Earliest([(1, "p")]) == (1, "p") && Lookup(pats, "p") == Some("abab");
    assert Take("abz", -2) == "a" && Drop("abz", -2) == "bz";
  }

  /** The first call of the example: `"ab"` holds no match. */
  lemma {:induction false} SpuriousFirstCall()
    ensures Matches([("p", "abab")], [], "ab") == []
  {
    var pats := [("p", "abab")];
    SingleSuffixNames(pats, "a");
    SingleSuffixNames(pats, "ab");
    assert "ab"[..1] == "a" && "a"[..0] == [];
    assert [] + "a" == "a" && [] + "ab" == "ab";
    assert Matches(pats, [], "a") == [] + AtPosition(0, SuffixNames(pats, "a"));
    assert Matches(pats, [], "ab") == Matches(pats, [], "a") + AtPosition(1, SuffixNames(pats, "ab"));
  }

  /** The second call of the example: from the cursor at `"ab"`, `"abz"` reports the
      pattern ending at index 1. */
  lemma {:induction false} SpuriousSecondCall()
    ensures Matches([("p", "abab")], "ab", "abz") == [(1, "p")]
  {
    var pats := [("p", "abab")];
    SingleSuffixNames(pats, "aba");
    SingleSuffixNames(pats, "abab");
    SingleSuffixNames(pats, "ababz");
    assert "abz"[..2] == "ab" && "ab"[..1] == "a" && "a"[..0] == [];
    assert "ab" + "a" == "aba" && "ab" + "ab" == "abab" && "ab" + "abz" == "ababz";
    assert Matches(pats, "ab", "a") == [] + AtPosition(0, SuffixNames(pats, "aba"));
    assert Matches(pats, "ab", "ab") == Matches(pats, "ab", "a") + AtPosition(1, SuffixNames(pats, "abab"));
    assert Matches(pats, "ab", "abz") == Matches(pats, "ab", "ab") + AtPosition(2, SuffixNames(pats, "ababz"));
    assert !IsSuffix("abab", "aba") && IsSuffix("abab", "abab") && !IsSuffix("abab", "ababz");
  }

  /** With one pattern, it is reported exactly when it is a non-empty suffix. */
  lemma {:induction false} SingleSuffixNames(pats: seq<Pattern>, w: string)
    requires |pats| == 1
    ensures SuffixNames(pats, w) == if pats[0].1 != [] && IsSuffix(pats[0].1, w) then [pats[0].0] else []
    decreases |w|
  {
    if w != [] {
      assert pats[..0] == [];
      assert NamesOf(pats, w) == if pats[0].1 == w then [pats[0].0] else [];
      SingleSuffixNames(pats, w[1..]);
      var p := pats[0].1;
      if p == w {
        assert !IsSuffix(p, w[1..]);
      } else if IsSuffix(p, w) {
        SuffixOfTail(p, w);
      }
    } else if pats[0].1 != [] {
      assert !IsSuffix(pats[0].1, w);
    }
  }
}
