/**
 * The older, self-contained `aho_corasick_pattern.py`. Its automaton is the same code as
 * `aho_corasick.py` and is modelled by `AhoCorasick.Automaton`. Its buffered processor
 * holds its own tail and differs from the newer standard processor in when it resets the
 * automaton cursor: not after a match, but in `reset_states`, together with the tail.
 * The pattern file it loads is given as the pattern table.
 */
module AhoCorasickPattern {
  import opened Wrappers
  import opened PyStr
  import opened TrieSpec
  import opened Streaming
  import opened BaseBufferedProcessor
  import opened AhoCorasick
  import opened BufferedProcessorStandard

  class LegacyProcessor {
    const automaton: Automaton
    const toolCallMessage: string
    var trailingBuffer: string
    const maxPatternLen: int

    ghost predicate Valid()
      reads this, automaton
    {
      automaton.Valid() && NoEmpty(automaton.patterns) && DistinctNames(automaton.patterns) &&
      MaxTextLength(Words(automaton.patterns)) == Some(maxPatternLen)
    }

    /** Builds the automaton, starts with nothing held back, and records the longest
        pattern length; Python's `max` raises on an empty pattern set. */
    constructor (patterns: seq<Pattern>, toolCallMessage: string)
      requires patterns != [] && NoEmpty(patterns) && DistinctNames(patterns)
      ensures Valid() && automaton.patterns == patterns && automaton.fed == []
      ensures this.toolCallMessage == toolCallMessage && trailingBuffer == []
      ensures fresh(automaton)
    {
      automaton := new Automaton(patterns);
      this.toolCallMessage := toolCallMessage;
      trailingBuffer := [];
      maxPatternLen := MaxTextLength(Words(patterns)).value;
    }

    /** Puts the cursor back at the root and forgets the held-back tail. */
    method ResetStates()
      requires Valid()
      modifies this, automaton
      ensures Valid() && automaton.fed == [] && trailingBuffer == []
    {
      automaton.ResetState();
      trailingBuffer := [];
    }

    /** Searches the held-back tail and the chunk from the current cursor; keeps back a
        tail or splits at the earliest match exactly as the standard step does, but leaves
        the cursor where the search ended even after a match. */
    method ProcessChunk(chunk: string) returns (result: PatternMatchResult)
      requires Valid()
      modifies this, automaton
      ensures Valid()
      ensures var combined := old(trailingBuffer) + chunk;
        var found := Matches(automaton.patterns, old(automaton.fed), combined);
        NamesKnown(automaton.patterns, found) &&
        (result, trailingBuffer) == StandardStep(automaton.patterns, maxPatternLen, toolCallMessage, combined, found)
      ensures automaton.fed == old(automaton.fed) + old(trailingBuffer) + chunk
    {
      var combinedText := trailingBuffer + chunk;
      var newTrailing;
      result, newTrailing := SearchCombined(combinedText);
      SetTrailing(newTrailing);
    }

    /** Replaces the held-back tail and nothing else. */
    method SetTrailing(t: string)
      requires Valid()
      modifies this
      ensures Valid() && trailingBuffer == t
    {
      trailingBuffer := t;
    }

    /** The search and split of `process_chunk` on the held-back tail plus the chunk. */
    method SearchCombined(combinedText: string) returns (result: PatternMatchResult, newTrailing: string)
      requires Valid()
      modifies automaton
      ensures Valid()
      ensures var found := Matches(automaton.patterns, old(automaton.fed), combinedText);
        NamesKnown(automaton.patterns, found) &&
        (result, newTrailing) == StandardStep(automaton.patterns, maxPatternLen, toolCallMessage, combinedText, found)
      ensures automaton.fed == old(automaton.fed) + combinedText
    {
      result := Default;
      ghost var history := automaton.fed;
      var matches := automaton.SearchChunk(combinedText);
      MatchesNamesKnown(automaton.patterns, history, combinedText);
      if matches == [] {
        result, newTrailing := HoldBackTail(automaton.patterns, maxPatternLen, toolCallMessage, combinedText);
        return;
      }
      result, newTrailing := SplitAtMatch(automaton.patterns, maxPatternLen, toolCallMessage, combinedText, matches);
    }

    /** Emits the held-back tail, if any, and holds nothing back afterwards. */
    method FlushBuffer() returns (result: PatternMatchResult)
      modifies this
      ensures result == Flushed(old(trailingBuffer)) && trailingBuffer == []
    {
      result := Default;
      if trailingBuffer != [] {
        result := result.(output := Some(trailingBuffer));
        trailingBuffer := "";
      }
    }
  }

  /** Because a match leaves the cursor where it was, the single pattern `"aa"` fed `"aa"`
      and then `"a"` matches twice: the second call reports the pattern ending at index 0
      of `"a"`, whose start -1 makes Python's slicing emit nothing and hand on `"a"` as the
      tool call. From the root, as the standard processor searches after a match, `"a"`
      holds nothing. */
  lemma {:induction false} RepeatedMatchExample()
    ensures Matches([("p", "aa")], "aa", "a") == [(0, "p")]
    ensures NamesKnown([("p", "aa")], [(0, "p")]) &&
      var (r, tail) := StandardStep([("p", "aa")], 2, "m", "a", [(0, "p")]);
      r.matched && r.output == Some("") && r.textWithToolCall == Some("a") && tail == []
  {
    var pats := [("p", "aa")];
    SingleSuffixNames(pats, "aaa");
    assert "a"[..1] == "a" && "aa" + "a" == "aaa" && IsSuffix("aa", "aaa");
    assert Names(pats) == ["p"];
  }

  /** From the root, `"aa"` matches once, at its end, and `"a"` does not match. */
  lemma {:induction false} FirstMatchExample()
    ensures Matches([("p", "aa")], [], "aa") == [(1, "p")]
    ensures Matches([("p", "aa")], [], "a") == []
  {
    var pats := [("p", "aa")];
    SingleSuffixNames(pats, "a");
    SingleSuffixNames(pats, "aa");
    assert "aa"[..1] == "a" && "aa"[..0] == [] && "a"[..0] == [];
    assert [] + "a" == "a" && [] + "aa" == "aa";
    assert !IsSuffix("aa", "a") && IsSuffix("aa", "aa");
  }
}
