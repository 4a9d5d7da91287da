/**
 * `AhoCorasickBufferedProcessorNormalized` of `buffered_processor_normalized.py`: matching
 * that ignores whitespace. The held-back tail followed by the new chunk is stripped of
 * whitespace, the stripped text is searched, and every position is mapped back into the
 * original text through the index map, so that the original text is what gets emitted or
 * split.
 *
 * Python raises `KeyError` or `IndexError` out of a step in some cases; a step therefore
 * yields a `Result`, and a failed step leaves the held-back tail as it was.
 */
module BufferedProcessorNormalized {
  import opened Wrappers
  import opened PyStr
  import opened TrieSpec
  import opened PatternUtils
  import opened Streaming
  import opened BaseBufferedProcessor
  import opened AhoCorasick
  import opened AhoCorasickNormalized
  import opened BufferedProcessorStandard

  /** Python's `s[k]` on a list: a negative index counts from the end, and an index out of
      range is the `IndexError`. */
  function PyIndex(s: seq<int>, k: int): (r: Result<int>)
    ensures r.Success? <==> -|s| <= k < |s|
    ensures r.Success? ==> exists j :: 0 <= j < |s| && r.value == s[j]
  {
    if 0 <= k < |s| then Success(s[k])
    else if -|s| <= k < 0 then Success(s[|s| + k])
    else Failure("IndexError")
  }

  /** The length table knows exactly the pattern names, each with the length of its text. */
  ghost predicate LengthsAgree(pats: seq<Pattern>, lens: map<string, int>)
  {
    (forall n :: n in lens <==> Lookup(pats, n).Some?) &&
    (forall n :: n in lens ==> lens[n] == |Lookup(pats, n).value|)
  }

  /** The candidate one reported match `(end, name)` makes: where it ends in the original
      text, its name, and where it starts in the normalized text. */
  datatype Pick = Pick(originalEnd: int, name: string, normStart: int)

  /** The exception, if any, that examining one reported match raises: `KeyError` for a
      name without a length, `IndexError` for an end or start index outside the map. */
  function EntryError(m: (int, string), lens: map<string, int>, im: seq<int>): (r: Option<string>)
    ensures r.None? ==> m.1 in lens && -|im| <= m.0 < |im| && -|im| <= m.0 - lens[m.1] + 1 < |im|
  {
    if m.1 !in lens then Some("KeyError")
    else if PyIndex(im, m.0).Failure? then Some("IndexError")
    else if PyIndex(im, m.0 - lens[m.1] + 1).Failure? then Some("IndexError")
    else None
  }

  /** The candidate of a reported match that raises nothing. */
  function PickOf(m: (int, string), lens: map<string, int>, im: seq<int>): Pick
    requires EntryError(m, lens, im).None?
  {
    Pick(PyIndex(im, m.0).value, m.1, m.0 - lens[m.1] + 1)
  }

  /** The loop over the reported matches: each candidate replaces the one kept so far when
      nothing is kept yet or it ends strictly earlier in the original text; the first
      exception raised ends the loop. */
  function PickEarliest(found: seq<(int, string)>, lens: map<string, int>, im: seq<int>): (r: Result<Option<Pick>>)
    ensures r.Success? <==> forall k :: 0 <= k < |found| ==> EntryError(found[k], lens, im).None?
    ensures r.Success? ==> (r.value.None? <==> found == [])
    ensures r.Success? && r.value.Some? ==>
      exists k :: 0 <= k < |found| && r.value.value == PickOf(found[k], lens, im)
    decreases |found|
  {
    if found == [] then Success(None)
    else
      var init := found[..|found| - 1];
      var m := found[|found| - 1];
      assert forall j :: 0 <= j < |init| ==> init[j] == found[j];
      var prev := PickEarliest(init, lens, im);
      if prev.Failure? then prev
      else if EntryError(m, lens, im).Some? then Failure(EntryError(m, lens, im).value)
      else
        var p := PickOf(m, lens, im);
        if prev.value.None? || p.originalEnd < prev.value.value.originalEnd then Success(Some(p))
        else prev
  }

  /** The exception the loop raises is the one of the first reported match that raises. */
  lemma {:induction false} PickEarliestFailure(found: seq<(int, string)>, lens: map<string, int>, im: seq<int>)
    requires PickEarliest(found, lens, im).Failure?
    ensures
      exists k :: 0 <= k < |found| && EntryError(found[k], lens, im) == Some(PickEarliest(found, lens, im).error) &&
        forall j :: 0 <= j < k ==> EntryError(found[j], lens, im).None?
    decreases |found|
  {
    var init := found[..|found| - 1];
    assert forall j :: 0 <= j < |init| ==> init[j] == found[j];
    if PickEarliest(init, lens, im).Failure? {
      PickEarliestFailure(init, lens, im);
    } else {
      assert EntryError(found[|found| - 1], lens, im) == Some(PickEarliest(found, lens, im).error);
    }
  }

  /** The candidate kept ends no later in the original text than any other, and strictly
      earlier than every candidate before it: the first of the earliest wins. */
  lemma {:induction false} PickEarliestMinimal(found: seq<(int, string)>, lens: map<string, int>, im: seq<int>)
    requires PickEarliest(found, lens, im).Success? && found != []
    ensures exists k :: KeptAt(found, lens, im, k)
    decreases |found|
  {
    var init := found[..|found| - 1];
    var n := |found| - 1;
    var p := PickOf(found[n], lens, im);
    PickEarliestSnoc(found, lens, im);
    if init == [] {
      assert KeptAt(found, lens, im, 0);
    } else {
      PickEarliestMinimal(init, lens, im);
      var k :| KeptAt(init, lens, im, k);
      assert init[k] == found[k];
      if p.originalEnd < PickOf(found[k], lens, im).originalEnd {
        EarliestExtendNew(found, lens, im, k);
        assert KeptAt(found, lens, im, n);
      } else {
        EarliestExtendKeep(found, lens, im, k);
        assert KeptAt(found, lens, im, k);
      }
    }
  }

  /** The loop keeps candidate `k`, and it is the first of the earliest. */
  ghost predicate KeptAt(found: seq<(int, string)>, lens: map<string, int>, im: seq<int>, k: int)
  {
    PickEarliest(found, lens, im).Success? && 0 <= k < |found| &&
    PickEarliest(found, lens, im).value == Some(PickOf(found[k], lens, im)) && EarliestAt(found, lens, im, k)
  }

  /** One more reported match: the loop keeps it when nothing was kept or it ends strictly
      earlier, and otherwise keeps what it had. */
  lemma {:induction false} PickEarliestSnoc(found: seq<(int, string)>, lens: map<string, int>, im: seq<int>)
    requires found != [] && PickEarliest(found, lens, im).Success?
    ensures var init, m := found[..|found| - 1], found[|found| - 1];
      var prev := PickEarliest(init, lens, im);
      prev.Success? && EntryError(m, lens, im).None? &&
      PickEarliest(found, lens, im) ==
        if prev.value.None? || PickOf(m, lens, im).originalEnd < prev.value.value.originalEnd then Success(Some(PickOf(m, lens, im)))
        else prev
  {
  }

  /** A new last candidate ending strictly before the earliest so far becomes the earliest. */
  lemma {:induction false} EarliestExtendNew(found: seq<(int, string)>, lens: map<string, int>, im: seq<int>, k: int)
    requires forall j :: 0 <= j < |found| ==> EntryError(found[j], lens, im).None?
    requires 0 <= k < |found| - 1
    requires EarliestAt(found[..|found| - 1], lens, im, k)
    requires PickOf(found[|found| - 1], lens, im).originalEnd < PickOf(found[k], lens, im).originalEnd
    ensures EarliestAt(found, lens, im, |found| - 1)
  {
    var init := found[..|found| - 1];
    assert forall j :: 0 <= j < |init| ==> init[j] == found[j];
  }

  /** A new last candidate ending no earlier than the earliest so far leaves it earliest. */
  lemma {:induction false} EarliestExtendKeep(found: seq<(int, string)>, lens: map<string, int>, im: seq<int>, k: int)
    requires forall j :: 0 <= j < |found| ==> EntryError(found[j], lens, im).None?
    requires 0 <= k < |found| - 1
    requires EarliestAt(found[..|found| - 1], lens, im, k)
    requires PickOf(found[|found| - 1], lens, im).originalEnd >= PickOf(found[k], lens, im).originalEnd
    ensures EarliestAt(found, lens, im, k)
  {
    var init := found[..|found| - 1];
    assert forall j :: 0 <= j < |init| ==> init[j] == found[j];
  }

  /** Candidate `k` ends no later than any other and strictly earlier than those before it. */
  ghost predicate EarliestAt(found: seq<(int, string)>, lens: map<string, int>, im: seq<int>, k: int)
    requires forall j :: 0 <= j < |found| ==> EntryError(found[j], lens, im).None?
    requires 0 <= k < |found|
  {
    (forall j :: 0 <= j < |found| ==> PickOf(found[k], lens, im).originalEnd <= PickOf(found[j], lens, im).originalEnd) &&
    (forall j :: 0 <= j < k ==> PickOf(found[j], lens, im).originalEnd > PickOf(found[k], lens, im).originalEnd)
  }

  /** One `process_chunk_impl` step on `combined`, given what the automaton reported for its
      normalization. Without a match the tail kept back starts at the original position of
      the first of the last `min(max_pattern_len - 1, n)` normalized characters; with one
      the text is split at the original start of the candidate that ends first. */
  function NormalizedStep(lens: map<string, int>, maxLen: int, message: string, combined: string,
                          found: seq<(int, string)>): Result<(PatternMatchResult, string)>
  {
    var norm, im := Normalized(combined), IndexMap(combined);
    if found == [] then
      var keepLen := Min(maxLen - 1, |norm|);
      if keepLen > 0 then
        var start := im[|norm| - keepLen];
        Success((Emitted(combined[..start]), combined[start..]))
      else Success((Emitted(combined), []))
    else
      var pick := PickEarliest(found, lens, im);
      if pick.Failure? then Failure(pick.error)
      else
        var p := pick.value.value;
        var start := PyIndex(im, p.normStart).value;
        Success((MatchedAt(p.name, message, combined[..start], combined[start..]), []))
  }

  class NormalizedProcessor {
    const base: BufferedBase
    const automaton: AutomatonNormalized
    const maxPatternLen: int

    ghost predicate Valid()
      reads this, automaton, automaton.automaton
    {
      automaton.Valid() && NoEmpty(automaton.normalizedPatterns) &&
      DistinctNames(automaton.normalizedPatterns) &&
      LengthsAgree(automaton.normalizedPatterns, automaton.patternLengths) &&
      MaxTextLength(Words(automaton.normalizedPatterns)) == Some(maxPatternLen)
    }

    /** Builds the normalized automaton and records the longest normalized pattern length;
        Python's `max` raises on an empty pattern set. */
    constructor (patterns: seq<Pattern>, toolCallMessage: string)
      requires patterns != [] && DistinctNames(patterns) && NoEmpty(NormalizePatterns(patterns))
      ensures Valid() && automaton.normalizedPatterns == NormalizePatterns(patterns)
      ensures automaton.patternLengths == Lengths(patterns) && automaton.automaton.fed == []
      ensures base.toolCallMessage == toolCallMessage && base.trailingBufferOriginal == []
      ensures fresh(base) && fresh(automaton) && fresh(automaton.automaton)
    {
      base := new BufferedBase(toolCallMessage);
      var a := new AutomatonNormalized(patterns);
      automaton := a;
      maxPatternLen := MaxTextLength(Words(a.normalizedPatterns)).value;
      NormalizePatternsLookup(patterns, 0);
      forall n | true
        ensures n in a.patternLengths <==> Lookup(a.normalizedPatterns, n).Some?
        ensures n in a.patternLengths ==> a.patternLengths[n] == |Lookup(a.normalizedPatterns, n).value|
      {
        PatternLengthMatchesText(patterns, n);
      }
      new;
      automaton.ResetState();
    }

    /** `process_chunk`: the held-back tail and the chunk are processed together; on
        success what the step keeps back becomes the new tail, and an exception leaves the
        tail as it was. */
    method ProcessChunk(chunk: string) returns (r: Result<PatternMatchResult>)
      requires Valid()
      modifies base, automaton.automaton
      ensures Valid()
      ensures var combined := old(base.trailingBufferOriginal) + chunk;
        var step := NormalizedStep(automaton.patternLengths, maxPatternLen, base.toolCallMessage, combined,
          Matches(automaton.normalizedPatterns, old(automaton.automaton.fed), Normalized(combined)));
        (r.Success? <==> step.Success?) &&
        (r.Success? ==> (r.value, base.trailingBufferOriginal) == step.value) &&
        (r.Failure? ==> r.error == step.error && base.trailingBufferOriginal == old(base.trailingBufferOriginal))
      ensures automaton.automaton.fed ==
        if r.Success? && r.value.matched then []
        else old(automaton.automaton.fed) + Normalized(old(base.trailingBufferOriginal) + chunk)
    {
      var combined := base.trailingBufferOriginal + chunk;
      var step := ProcessChunkImpl(combined);
      if step.Failure? {
        return Failure(step.error);
      }
      var (result, newTrailing) := step.value;
      base.trailingBufferOriginal := newTrailing;
      r := Success(result);
    }

    /** `process_chunk_impl`: normalizes `combinedOriginal`, searches it from the current
        cursor, then keeps back a tail or splits at the candidate ending first in the
        original text and resets the cursor. */
    method ProcessChunkImpl(combinedOriginal: string) returns (r: Result<(PatternMatchResult, string)>)
      requires Valid()
      modifies automaton.automaton
      ensures Valid()
      ensures r == NormalizedStep(automaton.patternLengths, maxPatternLen, base.toolCallMessage, combinedOriginal,
        Matches(automaton.normalizedPatterns, old(automaton.automaton.fed), Normalized(combinedOriginal)))
      ensures automaton.automaton.fed ==
        if r.Success? && r.value.0.matched then [] else old(automaton.automaton.fed) + Normalized(combinedOriginal)
    {
      var result := Default;
      var normCombined, indexMap := NormalizeAndMap(combinedOriginal);
      ghost var history := automaton.automaton.fed;
      var matches := automaton.SearchChunk(normCombined);
      ghost var step := NormalizedStep(automaton.patternLengths, maxPatternLen, base.toolCallMessage,
        combinedOriginal, matches);
      assert matches == Matches(automaton.normalizedPatterns, history, Normalized(combinedOriginal));

      if matches == [] {
        var held := HoldBack(automaton.patternLengths, maxPatternLen, base.toolCallMessage, combinedOriginal,
          normCombined, indexMap);
        return Success(held);
      }

      var pick := FindEarliest(matches, automaton.patternLengths, indexMap);
      if pick.Failure? {
        assert step == Failure(pick.error);
        return Failure(pick.error);
      }
      var Pick(_, earliestMatchPattern, earliestNormStartIdx) := pick.value.value;
      var originalStart := PyIndex(indexMap, earliestNormStartIdx).value;
      result := result.(matched := true, patternName := Some(earliestMatchPattern),
                        toolCallMessage := Some(base.toolCallMessage),
                        output := Some(combinedOriginal[..originalStart]),
                        textWithToolCall := Some(combinedOriginal[originalStart..]));
      assert step == Success((result, []));
      automaton.ResetState();
      return Success((result, []));
    }
  }

  /** The branch of `process_chunk_impl` without a match: emits the text before the
      original position of the tail kept back, and keeps back the rest. */
  method HoldBack(ghost lens: map<string, int>, maxLen: int, message: string, combinedOriginal: string,
                  normCombined: string, indexMap: seq<int>)
    returns (r: (PatternMatchResult, string))
    requires normCombined == Normalized(combinedOriginal) && indexMap == IndexMap(combinedOriginal)
    ensures Success(r) == NormalizedStep(lens, maxLen, message, combinedOriginal, [])
  {
    var keepLen := Min(maxLen - 1, |normCombined|);
    var safeText, newTrailing;
    if keepLen > 0 {
      var origKeepStart := indexMap[|normCombined| - keepLen];
      safeText := combinedOriginal[..origKeepStart];
      newTrailing := combinedOriginal[origKeepStart..];
    } else {
      safeText := combinedOriginal;
      newTrailing := [];
    }
    r := (Default.(output := Some(safeText)), newTrailing);
  }

  /** The loop of `process_chunk_impl` over the reported matches: looks up each pattern's
      length, maps its end and start back through the index map, and keeps the candidate
      ending first in the original text. */
  method FindEarliest(matches: seq<(int, string)>, lens: map<string, int>, indexMap: seq<int>)
    returns (r: Result<Option<Pick>>)
    ensures r == PickEarliest(matches, lens, indexMap)
  {
    var earliestOriginalIndex: Option<int> := None;
    var earliestMatchPattern: Option<string> := None;
    var earliestNormStartIdx: Option<int> := None;
    var i := 0;
    while i < |matches|
      invariant 0 <= i <= |matches|
      invariant earliestOriginalIndex.Some? == earliestMatchPattern.Some? == earliestNormStartIdx.Some? == (i > 0)
      invariant PickEarliest(matches[..i], lens, indexMap) == Success(
        if i == 0 then None
        else Some(Pick(earliestOriginalIndex.value, earliestMatchPattern.value, earliestNormStartIdx.value)))
    {
      var candidate := Candidate(matches[i], lens, indexMap);
      if candidate.Failure? {
        PickEarliestStops(matches, i, lens, indexMap);
        return Failure(candidate.error);
      }
      PickEarliestExtend(matches, i, lens, indexMap);
      var Pick(originalEnd, patternName, normStartIdx) := candidate.value;
      if earliestOriginalIndex.None? || originalEnd < earliestOriginalIndex.value {
        earliestOriginalIndex := Some(originalEnd);
        earliestMatchPattern := Some(patternName);
        earliestNormStartIdx := Some(normStartIdx);
      }
      i := i + 1;
    }
    assert matches[..i] == matches;
    if i == 0 {
      return Success(None);
    }
    return Success(Some(Pick(earliestOriginalIndex.value, earliestMatchPattern.value, earliestNormStartIdx.value)));
  }

  /** The body of that loop for one reported match: its pattern's length, then its end and
      start mapped back to the original text, or the exception the first failing step raises. */
  method Candidate(m: (int, string), lens: map<string, int>, indexMap: seq<int>) returns (r: Result<Pick>)
    ensures r.Failure? <==> EntryError(m, lens, indexMap).Some?
    ensures r.Failure? ==> r.error == EntryError(m, lens, indexMap).value
    ensures r.Success? ==> r.value == PickOf(m, lens, indexMap)
  {
    var (normEndIdx, patternName) := m;
    if patternName !in lens {
      return Failure("KeyError");
    }
    var patLen := lens[patternName];
    var normStartIdx := normEndIdx - patLen + 1;
    var originalEnd := PyIndex(indexMap, normEndIdx);
    if originalEnd.Failure? {
      return Failure(originalEnd.error);
    }
    var originalStart := PyIndex(indexMap, normStartIdx);
    if originalStart.Failure? {
      return Failure(originalStart.error);
    }
    r := Success(Pick(originalEnd.value, patternName, normStartIdx));
  }

  /** One more reported match that raises nothing replaces the candidate kept so far
      exactly when it ends first in the original text. */
  lemma {:induction false} PickEarliestExtend(found: seq<(int, string)>, i: int, lens: map<string, int>, im: seq<int>)
    requires 0 <= i < |found| && PickEarliest(found[..i], lens, im).Success?
    requires EntryError(found[i], lens, im).None?
    ensures var prev, p := PickEarliest(found[..i], lens, im).value, PickOf(found[i], lens, im);
      PickEarliest(found[..i + 1], lens, im) ==
        if prev.None? || p.originalEnd < prev.value.originalEnd then Success(Some(p)) else Success(prev)
  {
    assert found[..i + 1][..i] == found[..i];
  }

  /** Once the loop meets a match that raises, after none that did, it raises that. */
  lemma {:induction false} PickEarliestStops(found: seq<(int, string)>, i: int, lens: map<string, int>, im: seq<int>)
    requires 0 <= i < |found| && PickEarliest(found[..i], lens, im).Success?
    requires EntryError(found[i], lens, im).Some?
    ensures PickEarliest(found, lens, im) == Failure(EntryError(found[i], lens, im).value)
  {
    assert forall j :: 0 <= j < i ==> found[..i][j] == found[j];
    PickEarliestFailure(found, lens, im);
  }

  /** Without a match nothing is lost: the output followed by the new tail is the combined
      text; the tail normalizes to the last `min(max_pattern_len - 1, n)` normalized
      characters (none when that is not positive) and starts at a kept character, so the
      whitespace before it is emitted. */
  lemma {:induction false} NormalizedNoMatchSplit(lens: map<string, int>, maxLen: int, message: string, combined: string)
    ensures var step := NormalizedStep(lens, maxLen, message, combined, []);
      var keepLen := Min(maxLen - 1, |Normalized(combined)|);
      step.Success? && !step.value.0.matched && step.value.0.output.Some? &&
      step.value.0.output.value + step.value.1 == combined &&
      |Normalized(step.value.1)| == (if keepLen > 0 then keepLen else 0) &&
      IsSuffix(Normalized(step.value.1), Normalized(combined)) &&
      (step.value.1 != [] ==> !IsSpace(step.value.1[0]))
  {
    var norm, im := Normalized(combined), IndexMap(combined);
    var keepLen := Min(maxLen - 1, |norm|);
    if keepLen > 0 {
      var a := |norm| - keepLen;
      NormalizedFrom(combined, a);
      IndexMapMapsBack(combined);
      assert combined[..im[a]] + combined[im[a]..] == combined;
    } else {
      assert Normalized([]) == [];
    }
  }

  /** When every reported end lies in the index map and the map is increasing, the loop
      picks exactly the match `min(..., key=end)` would: the first with the smallest end. */
  lemma {:induction false} PickIsEarliest(found: seq<(int, string)>, lens: map<string, int>, im: seq<int>)
    requires found != []
    requires forall k :: 0 <= k < |found| ==> EntryError(found[k], lens, im).None? && 0 <= found[k].0
    requires forall i, j :: 0 <= i < j < |im| ==> im[i] < im[j]
    ensures PickEarliest(found, lens, im) == Success(Some(PickOf(Earliest(found), lens, im)))
  {
    PickEarliestMinimal(found, lens, im);
    var k :| KeptAt(found, lens, im, k);
    var e := Earliest(found);
    var k' :| 0 <= k' < |found| && found[k'] == e && forall j :: 0 <= j < k' ==> found[j].0 > e.0;
    EndOrder(found, lens, im, k, k');
    EndOrder(found, lens, im, k', k);
    assert k == k';
  }

  /** With an increasing map, candidates end in the original text in the order their
      matches end in the normalized text. */
  lemma {:induction false} EndOrder(found: seq<(int, string)>, lens: map<string, int>, im: seq<int>, x: int, y: int)
    requires forall k :: 0 <= k < |found| ==> EntryError(found[k], lens, im).None? && 0 <= found[k].0
    requires forall i, j :: 0 <= i < j < |im| ==> im[i] < im[j]
    requires 0 <= x < |found| && 0 <= y < |found|
    ensures found[x].0 < found[y].0 ==> PickOf(found[x], lens, im).originalEnd < PickOf(found[y], lens, im).originalEnd
    ensures found[x].0 == found[y].0 ==> PickOf(found[x], lens, im).originalEnd == PickOf(found[y], lens, im).originalEnd
  {
    assert PickOf(found[x], lens, im).originalEnd == im[found[x].0];
    assert PickOf(found[y], lens, im).originalEnd == im[found[y].0];
  }

  /** The reported match `m` has a length, and it starts and ends within a normalized text
      of length `n`. */
  predicate InMap(m: (int, string), lens: map<string, int>, n: int)
  {
    m.1 in lens && 0 <= m.0 - lens[m.1] + 1 <= m.0 < n
  }

  /** Every reported match lies in a normalized text of length `n`, stated match by
      match from the front. */
  predicate AllInMap(found: seq<(int, string)>, lens: map<string, int>, n: int)
    decreases |found|
  {
    found == [] || (InMap(found[0], lens, n) && AllInMap(found[1..], lens, n))
  }

  lemma {:induction false} AllInMapAt(found: seq<(int, string)>, lens: map<string, int>, n: int, k: int)
    requires AllInMap(found, lens, n) && 0 <= k < |found|
    ensures InMap(found[k], lens, n)
    decreases k
  {
    if k > 0 {
      AllInMapAt(found[1..], lens, n, k - 1);
    }
  }

  lemma {:induction false} EachInMap(found: seq<(int, string)>, lens: map<string, int>, n: int)
    requires forall k :: 0 <= k < |found| ==> InMap(found[k], lens, n)
    ensures AllInMap(found, lens, n)
    decreases |found|
  {
    if found != [] {
      assert forall k :: 0 <= k < |found[1..]| ==> found[1..][k] == found[k + 1];
      EachInMap(found[1..], lens, n);
    }
  }

  /** From the root cursor no reported match raises: every name has a length, and every
      match lies within the normalized text. */
  lemma {:induction false} FromRootNoError(pats: seq<Pattern>, lens: map<string, int>, combined: string)
    requires NoEmpty(pats) && DistinctNames(pats) && LengthsAgree(pats, lens)
    ensures AllInMap(Matches(pats, [], Normalized(combined)), lens, |IndexMap(combined)|)
  {
    var norm := Normalized(combined);
    var found := Matches(pats, [], norm);
    forall k | 0 <= k < |found| ensures InMap(found[k], lens, |IndexMap(combined)|) {
      var (i, n) := found[k];
      MatchesMember(pats, [], norm, i, n);
      var j :| 0 <= j < |pats| && pats[j].0 == n && pats[j].1 != [] && IsSuffix(pats[j].1, [] + norm[..i + 1]);
      LookupDistinct(pats, j);
    }
    EachInMap(found, lens, |IndexMap(combined)|);
  }

  /** From the root cursor a match is genuine: the step succeeds, picks the first of the
      matches with the smallest end, nothing is lost, and the text handed on as the tool
      call begins with original text that normalizes to the matched pattern. */
  lemma {:induction false} NormalizedGenuineFromRoot(pats: seq<Pattern>, lens: map<string, int>, maxLen: int, message: string,
                                  combined: string)
    requires NoEmpty(pats) && DistinctNames(pats) && LengthsAgree(pats, lens)
    requires Matches(pats, [], Normalized(combined)) != []
    ensures var step := NormalizedStep(lens, maxLen, message, combined, Matches(pats, [], Normalized(combined)));
      step.Success? && step.value.1 == [] && step.value.0.matched &&
      step.value.0.patternName == Some(Earliest(Matches(pats, [], Normalized(combined))).1) &&
      step.value.0.output.value + step.value.0.textWithToolCall.value == combined &&
      BeginsWithNormalized(step.value.0.textWithToolCall.value, Lookup(pats, step.value.0.patternName.value).value)
  {
    var found, norm := Matches(pats, [], Normalized(combined)), Normalized(combined);
    FromRootNoError(pats, lens, combined);
    var p, e := EarliestPattern(pats, norm);
    LengthOf(pats, lens, e.1, p);
    SplitAtEarliest(lens, maxLen, message, combined, found, e, p);
  }

  /** From the root cursor the earliest match `e` is an occurrence of its pattern `p`. */
  lemma {:induction false} EarliestPattern(pats: seq<Pattern>, norm: string) returns (p: string, e: (int, string))
    requires NoEmpty(pats) && DistinctNames(pats)
    requires Matches(pats, [], norm) != []
    ensures e == Earliest(Matches(pats, [], norm)) && Lookup(pats, e.1) == Some(p)
    ensures 0 <= e.0 < |norm| && IsSuffix(p, norm[..e.0 + 1]) && p != []
  {
    e := Earliest(Matches(pats, [], norm));
    EarliestOccurs(pats, norm);
    assert OccursAt(pats, norm, e);
    p := Lookup(pats, e.1).value;
    LookupNonEmpty(pats, e.1);
  }

  /** The length table holds the length of every pattern. */
  lemma {:induction false} LengthOf(pats: seq<Pattern>, lens: map<string, int>, name: string, p: string)
    requires LengthsAgree(pats, lens) && Lookup(pats, name) == Some(p)
    ensures name in lens && lens[name] == |p|
  {
  }

  /** `step` split `combined` under the name `name`, handing on a text that begins with an
      occurrence of `p`. */
  ghost predicate SplitsOff(step: Result<(PatternMatchResult, string)>, name: string, combined: string, p: string)
  {
    step.Success? && step.value.1 == [] && step.value.0.matched &&
    step.value.0.patternName == Some(name) &&
    step.value.0.output.Some? && step.value.0.textWithToolCall.Some? &&
    step.value.0.output.value + step.value.0.textWithToolCall.value == combined &&
    BeginsWithNormalized(step.value.0.textWithToolCall.value, p)
  }

  /** When the earliest match `e` is an occurrence of `p` in the normalized text, the
      step hands on as the tool call the original text from where that occurrence starts. */
  lemma {:induction false} SplitAtEarliest(lens: map<string, int>, maxLen: int, message: string, combined: string,
                        found: seq<(int, string)>, e: (int, string), p: string)
    requires found != [] && e == Earliest(found)
    requires AllInMap(found, lens, |IndexMap(combined)|)
    requires e.1 in lens && lens[e.1] == |p|
    requires p != [] && 0 <= e.0 < |Normalized(combined)| && IsSuffix(p, Normalized(combined)[..e.0 + 1])
    ensures SplitsOff(NormalizedStep(lens, maxLen, message, combined, found), e.1, combined, p)
  {
    var os := OccurrenceStart(combined, e.0 - lens[e.1] + 1, e.0, p);
    SplitAtStart(lens, maxLen, message, combined, found, e, os, p);
  }

  /** When the earliest match starts in the original text at `os`, where an occurrence of
      `p` begins, the step hands on the text from `os` on. */
  lemma {:induction false} SplitAtStart(lens: map<string, int>, maxLen: int, message: string, combined: string,
                     found: seq<(int, string)>, e: (int, string), os: int, p: string)
    requires found != [] && e == Earliest(found)
    requires AllInMap(found, lens, |IndexMap(combined)|)
    requires e.1 in lens && 0 <= e.0 - lens[e.1] + 1 < |IndexMap(combined)|
    requires os == IndexMap(combined)[e.0 - lens[e.1] + 1]
    requires 0 <= os < |combined| && BeginsWithNormalized(combined[os..], p)
    ensures SplitsOff(NormalizedStep(lens, maxLen, message, combined, found), e.1, combined, p)
  {
    var pk := MatchPickIn(found, lens, combined, e);
    assert os == IndexMap(combined)[pk.normStart];
    SplitAtPick(lens, maxLen, message, combined, found, pk, os, p);
    assert pk.name == e.1;
  }

  /** When the kept candidate starts in the original text at `os`, where an occurrence of
      `p` begins, the step hands on the text from `os` on. */
  lemma {:induction false} SplitAtPick(lens: map<string, int>, maxLen: int, message: string, combined: string,
                    found: seq<(int, string)>, pk: Pick, os: int, p: string)
    requires found != [] && Picked(found, lens, IndexMap(combined), pk)
    requires 0 <= pk.normStart < |IndexMap(combined)| && os == IndexMap(combined)[pk.normStart]
    requires 0 <= os < |combined| && BeginsWithNormalized(combined[os..], p)
    ensures SplitsOff(NormalizedStep(lens, maxLen, message, combined, found), pk.name, combined, p)
  {
    StepOfPick(lens, maxLen, message, combined, found, pk);
    SplitResult(NormalizedStep(lens, maxLen, message, combined, found), pk.name, message, combined, os, p);
  }

  /** Where an occurrence of `p` ending at normalized index `end` starts in the original
      text. */
  lemma {:induction false} OccurrenceStart(combined: string, start: int, end: int, p: string) returns (os: int)
    requires p != [] && 0 <= end < |Normalized(combined)| && IsSuffix(p, Normalized(combined)[..end + 1])
    requires start == end - |p| + 1
    ensures 0 <= start <= end < |IndexMap(combined)| && os == IndexMap(combined)[start]
    ensures 0 <= os < |combined| && BeginsWithNormalized(combined[os..], p)
  {
    var norm, im := Normalized(combined), IndexMap(combined);
    SuffixSpan(norm, end, p);
    assert |im| == |norm|;
    OriginalSpan(combined, start, end);
    os := im[start];
  }

  /** A step that split `combined` at `os`, where an occurrence of `p` begins. */
  lemma {:induction false} SplitResult(step: Result<(PatternMatchResult, string)>, name: string, message: string, combined: string,
                    os: int, p: string)
    requires 0 <= os <= |combined| && BeginsWithNormalized(combined[os..], p)
    requires step == Success((MatchedAt(name, message, combined[..os], combined[os..]), []))
    ensures SplitsOff(step, name, combined, p)
  {
    SplitJoin(combined, os);
  }

  /** A suffix of the first `end + 1` characters is the span ending at `end`. */
  lemma {:induction false} SuffixSpan(norm: string, end: int, p: string)
    requires 0 <= end < |norm| && IsSuffix(p, norm[..end + 1])
    ensures 0 <= end + 1 - |p| && norm[end + 1 - |p|..end + 1] == p
  {
    assert norm[..end + 1][end + 1 - |p|..] == norm[end + 1 - |p|..end + 1];
  }

  /** `rest` begins at a character that is not whitespace, and with whitespace removed it
      begins with `p`: an occurrence of `p`, up to whitespace, starts right at its head. */
  ghost predicate BeginsWithNormalized(rest: string, p: string)
  {
    rest != [] && !IsSpace(rest[0]) && IsPrefix(p, Normalized(rest))
  }

  /** `MatchPick` for the index map of `combined`. */
  lemma {:induction false} MatchPickIn(found: seq<(int, string)>, lens: map<string, int>, combined: string,
                                       e: (int, string)) returns (pk: Pick)
    requires found != [] && e == Earliest(found)
    requires AllInMap(found, lens, |IndexMap(combined)|)
    ensures e.1 in lens && pk.name == e.1 && pk.normStart == e.0 - lens[e.1] + 1
    ensures 0 <= pk.normStart < |IndexMap(combined)| && Picked(found, lens, IndexMap(combined), pk)
  {
    forall k | 0 <= k < |found| ensures InMap(found[k], lens, |IndexMap(combined)|) {
      AllInMapAt(found, lens, |IndexMap(combined)|, k);
    }
    IndexMapIncreasing(combined);
    MatchPick(found, lens, IndexMap(combined), e);
    pk := Pick(IndexMap(combined)[e.0], e.1, e.0 - lens[e.1] + 1);
  }

  /** With every match inside an increasing map, the loop keeps the earliest match. */
  lemma {:induction false} MatchPick(found: seq<(int, string)>, lens: map<string, int>, im: seq<int>, e: (int, string))
    requires found != [] && e == Earliest(found)
    requires forall k :: 0 <= k < |found| ==> InMap(found[k], lens, |im|)
    requires forall i, j :: 0 <= i < j < |im| ==> im[i] < im[j]
    ensures InMap(e, lens, |im|)
    ensures Picked(found, lens, im, Pick(im[e.0], e.1, e.0 - lens[e.1] + 1))
  {
    assert InMap(e, lens, |im|) by {
      var k :| 0 <= k < |found| && found[k] == e && forall j :: 0 <= j < k ==> found[j].0 > e.0;
      assert InMap(found[k], lens, |im|);
    }
    assert PickOf(e, lens, im) == Pick(im[e.0], e.1, e.0 - lens[e.1] + 1);
    assert Picked(found, lens, im, PickOf(e, lens, im)) by {
      InMapNoError(found, lens, im);
      PickIsEarliest(found, lens, im);
    }
  }

  /** A match within the normalized text raises nothing. */
  lemma {:induction false} InMapNoError(found: seq<(int, string)>, lens: map<string, int>, im: seq<int>)
    requires forall k :: 0 <= k < |found| ==> InMap(found[k], lens, |im|)
    ensures forall k :: 0 <= k < |found| ==> EntryError(found[k], lens, im).None? && 0 <= found[k].0
  {
  }

  /** The loop over the reports `found` keeps the candidate `pk`. */
  predicate Picked(found: seq<(int, string)>, lens: map<string, int>, im: seq<int>, pk: Pick)
  {
    PickEarliest(found, lens, im) == Success(Some(pk))
  }

  /** With a match the step splits the text where the kept candidate starts. */
  lemma {:induction false} StepOfPick(lens: map<string, int>, maxLen: int, message: string, combined: string, found: seq<(int, string)>,
                    pk: Pick)
    requires found != [] && Picked(found, lens, IndexMap(combined), pk)
    requires 0 <= pk.normStart < |IndexMap(combined)|
    ensures var os := IndexMap(combined)[pk.normStart];
      0 <= os < |combined| &&
      NormalizedStep(lens, maxLen, message, combined, found) ==
        Success((MatchedAt(pk.name, message, combined[..os], combined[os..]), []))
  {
  }

  lemma {:induction false} SplitJoin(s: string, k: int)
    requires 0 <= k <= |s|
    ensures s[..k] + s[k..] == s
  {
  }

  /** The original text from the position of normalized character `a` on begins with the
      normalized characters `a` through `b`. */
  lemma {:induction false} OriginalSpan(text: string, a: int, b: int)
    requires 0 <= a <= b < |IndexMap(text)|
    ensures IndexMap(text)[a] < |text|
    ensures BeginsWithNormalized(text[IndexMap(text)[a]..], Normalized(text)[a..b + 1])
  {
    KeptHead(text, a);
    BeginsAt(text[IndexMap(text)[a]..], Normalized(text), a, b);
  }

  /** The original text from the position of normalized character `a` on starts with
      that character, which is not whitespace, and normalizes to the rest of the
      normalized text. */
  lemma {:induction false} KeptHead(text: string, a: int)
    requires 0 <= a < |IndexMap(text)|
    ensures IndexMap(text)[a] < |text| && !IsSpace(text[IndexMap(text)[a]])
    ensures Normalized(text[IndexMap(text)[a]..]) == Normalized(text)[a..]
  {
    IndexMapMapsBack(text);
    NormalizedFrom(text, a);
  }

  /** A text whose head is kept and which normalizes to `norm[a..]` begins with any
      stretch of `norm` starting at `a`. */
  lemma {:induction false} BeginsAt(rest: string, norm: string, a: int, b: int)
    requires 0 <= a <= b < |norm|
    requires rest != [] && !IsSpace(rest[0]) && Normalized(rest) == norm[a..]
    ensures BeginsWithNormalized(rest, norm[a..b + 1])
  {
    assert norm[a..][..b + 1 - a] == norm[a..b + 1];
  }

  /** Chunks `"a"`, `" "`, `" "` against the single pattern `"aaaa"`: the held-back text
      is `"a"` followed by spaces and normalizes to one character, so each step keeps it
      back whole, while the cursor, fed one `"a"` per step, reports nothing until it has
      seen three. */
  lemma {:induction false} HeldBackStep(h: string, spaces: string)
    requires |h| < 3 && forall i :: 0 <= i < |spaces| ==> spaces[i] == ' '
    ensures Matches([("p", "aaaa")], h, "a") == []
    ensures NormalizedStep(map["p" := 4], 4, "m", "a" + spaces, []) == Success((Emitted([]), "a" + spaces))
  {
    FeedOneA([("p", "aaaa")], h);
    KeptBack(map["p" := 4], "a" + spaces, spaces);
  }

  /** After the three steps of `HeldBackStep` the tail is `"a  "` and the cursor has seen
      `"aaa"`; a fourth chunk `" "` makes the search report the pattern ending at
      normalized index 0, its start -3 lies outside the one-entry index map, and the step
      raises `IndexError`. */
  lemma {:induction false} IndexErrorExample()
    ensures var pats, lens := [("p", "aaaa")], map["p" := 4];
      Matches(pats, "aaa", "a") == [(0, "p")] &&
      NormalizedStep(lens, 4, "m", "a  " + " ", [(0, "p")]) == Failure("IndexError")
  {
    var pats, lens := [("p", "aaaa")], map["p" := 4];
    FeedOneA(pats, "aaa");
    OneKeptCharacter("a  " + " ", "   ");
    assert EntryError((0, "p"), lens, [0]) == Some("IndexError");
  }

  /** Feeding `"a"` after `h` reports `"aaaa"` exactly when `h + "a"` ends with it. */
  lemma {:induction false} FeedOneA(pats: seq<Pattern>, h: string)
    requires pats == [("p", "aaaa")]
    ensures Matches(pats, h, "a") == if IsSuffix("aaaa", h + "a") then [(0, "p")] else []
  {
    assert "a"[..0] == [];
    SingleSuffixNames(pats, h + "a");
  }

  /** A text normalizing to one character is kept back whole when the longest pattern has
      four characters. */
  lemma {:induction false} KeptBack(lens: map<string, int>, text: string, spaces: string)
    requires text == "a" + spaces && forall i :: 0 <= i < |spaces| ==> spaces[i] == ' '
    ensures NormalizedStep(lens, 4, "m", text, []) == Success((Emitted([]), text))
  {
    OneKeptCharacter(text, spaces);
  }

  /** `"a"` followed by whitespace normalizes to `"a"`, kept from index 0. */
  lemma {:induction false} OneKeptCharacter(text: string, spaces: string)
    requires text == "a" + spaces && forall i :: 0 <= i < |spaces| ==> spaces[i] == ' '
    ensures Normalized(text) == "a" && IndexMap(text) == [0]
    decreases |spaces|
  {
    if spaces != [] {
      var init := text[..|text| - 1];
      assert init == "a" + spaces[..|spaces| - 1];
      OneKeptCharacter(init, spaces[..|spaces| - 1]);
    } else {
      assert text[..0] == [];
    }
  }
}
