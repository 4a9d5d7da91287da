/**
 * `AhoCorasickAutomatonNormalized`: every pattern is stripped of whitespace, the
 * stripped texts and their lengths are kept per name, and an ordinary automaton is built
 * over the stripped patterns. Searching expects text that the caller normalized already.
 */
module AhoCorasickNormalized {
  import opened Wrappers
  import opened PyStr
  import opened TrieSpec
  import opened PatternUtils
  import opened AhoCorasick

  /** Every pattern text replaced by its normalization, names and order kept. */
  function NormalizePatterns(pats: seq<Pattern>): (r: seq<Pattern>)
    ensures |r| == |pats|
    ensures forall k :: 0 <= k < |r| ==> r[k] == (pats[k].0, Normalized(pats[k].1))
  {
    seq(|pats|, k requires 0 <= k < |pats| => (pats[k].0, Normalized(pats[k].1)))
  }

  /** The length table: each name bound to the length of its normalized text, a later
      entry overwriting an earlier one of the same name. */
  function Lengths(pats: seq<Pattern>): map<string, int>
    decreases |pats|
  {
    if pats == [] then map[]
    else
      var last := pats[|pats| - 1];
      Lengths(pats[..|pats| - 1])[last.0 := |Normalized(last.1)|]
  }

  class AutomatonNormalized {
    const normalizedPatterns: seq<Pattern>
    const patternLengths: map<string, int>
    const automaton: Automaton

    ghost predicate Valid()
      reads this, automaton
    {
      automaton.Valid() && automaton.patterns == normalizedPatterns
    }

    /** Normalizes every pattern, records its length, and builds the automaton over the
        normalized patterns. */
    constructor (patterns: seq<Pattern>)
      requires DistinctNames(patterns)
      ensures normalizedPatterns == NormalizePatterns(patterns)
      ensures patternLengths == Lengths(patterns)
      ensures Valid() && automaton.state == 0 && automaton.fed == [] && fresh(automaton)
    {
      var norm: seq<Pattern> := [];
      var lengths: map<string, int> := map[];
      var k := 0;
      while k < |patterns|
        invariant 0 <= k <= |patterns|
        invariant norm == NormalizePatterns(patterns[..k]) && lengths == Lengths(patterns[..k])
      {
        var (name, pat) := patterns[k];
        var normPat, _ := NormalizeAndMap(pat);
        assert patterns[..k + 1][..k] == patterns[..k];
        norm := norm + [(name, normPat)];
        lengths := lengths[name := |normPat|];
        k := k + 1;
      }
      assert patterns[..k] == patterns;
      normalizedPatterns := norm;
      patternLengths := lengths;
      automaton := new Automaton(norm);
    }

    /** Delegates to the automaton: back to the root. */
    method ResetState()
      requires Valid()
      modifies automaton
      ensures Valid() && automaton.state == 0 && automaton.fed == []
    {
      automaton.ResetState();
    }

    /** Delegates to the automaton: `normChunk` is searched as it is, positions are indices
        into it. */
    method SearchChunk(normChunk: string) returns (found: seq<(int, string)>)
      requires Valid()
      modifies automaton
      ensures Valid() && automaton.fed == old(automaton.fed) + normChunk
      ensures NoEmpty(normalizedPatterns) ==>
        found == Matches(normalizedPatterns, old(automaton.fed), normChunk)
    {
      found := automaton.SearchChunk(normChunk);
    }

    /** The normalized length of the named pattern; `None` is the `KeyError` for an
        unknown name. */
    method GetPatternLength(patternName: string) returns (r: Option<int>)
      ensures r.Some? <==> patternName in patternLengths
      ensures r.Some? ==> r.value == patternLengths[patternName]
    {
      if patternName in patternLengths {
        r := Some(patternLengths[patternName]);
      } else {
        r := None;
      }
    }
  }

  /** The length table has exactly the pattern names as keys, each bound to the length of
      that pattern's normalized text. */
  lemma {:induction false} LengthsSpec(pats: seq<Pattern>)
    requires DistinctNames(pats)
    ensures forall n :: n in Lengths(pats) <==> n in Names(pats)
    ensures forall k :: 0 <= k < |pats| ==>
      pats[k].0 in Lengths(pats) && Lengths(pats)[pats[k].0] == |NormalizePatterns(pats)[k].1|
    decreases |pats|
  {
    if pats != [] {
      var init := pats[..|pats| - 1];
      LengthsSpec(init);
      assert Names(pats) == Names(init) + [pats[|pats| - 1].0];
      forall k | 0 <= k < |pats|
        ensures pats[k].0 in Lengths(pats) && Lengths(pats)[pats[k].0] == |NormalizePatterns(pats)[k].1|
      {
        if k < |init| {
          assert init[k] == pats[k];
          assert NormalizePatterns(init)[k].1 == NormalizePatterns(pats)[k].1;
        }
      }
    }
  }

  /** The normalized pattern table keeps every name and maps it to the whitespace-free
      text of its pattern. */
  lemma {:induction false} NormalizePatternsLookup(pats: seq<Pattern>, k: int)
    requires DistinctNames(pats) && 0 <= k < |pats|
    ensures DistinctNames(NormalizePatterns(pats))
    ensures Names(NormalizePatterns(pats)) == Names(pats)
    ensures Lookup(NormalizePatterns(pats), pats[k].0) == Some(Normalized(pats[k].1))
  {
    var np := NormalizePatterns(pats);
    assert Names(np) == Names(pats);
    LookupDistinct(np, k);
  }

  /** The length lookup agrees with the normalized pattern table. */
  lemma {:induction false} PatternLengthMatchesText(pats: seq<Pattern>, name: string)
    requires DistinctNames(pats)
    ensures name in Lengths(pats) <==> Lookup(NormalizePatterns(pats), name).Some?
    ensures name in Lengths(pats) ==>
      Lengths(pats)[name] == |Lookup(NormalizePatterns(pats), name).value|
  {
    LengthsSpec(pats);
    assert Names(NormalizePatterns(pats)) == Names(pats);
    if name in Names(pats) {
      var k :| 0 <= k < |pats| && Names(pats)[k] == name;
      NormalizePatternsLookup(pats, k);
    }
  }

  /** The documented example: `{'pat1': 'hello world'}` searched on `'helloworld'` from the
      root reports exactly one match, at the last position. */
  lemma {:induction false} HelloWorldExample()
    ensures NormalizePatterns([("pat1", "hello world")]) == [("pat1", "helloworld")]
    ensures Matches([("pat1", "helloworld")], "", "helloworld") == [(9, "pat1")]
  {
    NormalizedHelloWorld();
    OnePatternOnce("pat1", "helloworld");
  }

  lemma {:induction false} NormalizedHelloWorld()
    ensures Normalized("hello world") == "helloworld"
  {
    var a, b := "hello", "world";
    assert Normalized(a) == a by { NoSpaceFixed(a); }
    assert Normalized(b) == b by { NoSpaceFixed(b); }
    assert Normalized(" ") == [] by { assert " "[..0] == []; }
    assert Normalized(a + " ") == a by { NormalizedConcat(a, " "); assert a + [] == a; }
    assert Normalized(a + " " + b) == a + b by { NormalizedConcat(a + " ", b); }
    assert "hello world" == a + " " + b;
    assert a + b == "helloworld";
  }

  /** A single non-empty pattern searched on its own text from the root is reported once,
      at the last position. */
  lemma {:induction false} OnePatternOnce(name: string, w: string)
    requires w != []
    ensures Matches([(name, w)], "", w) == [(|w| - 1, name)]
  {
    var pats := [(name, w)];
    NoMatchBefore(pats, w, |w| - 1);
    assert w[..|w|] == w && w[..|w|][..|w| - 1] == w[..|w| - 1];
    assert "" + w == w;
    assert pats[..0] == [];
    assert NamesOf(pats, w) == [name];
    SuffixNamesShort(pats, w[1..]);
  }

  /** No proper prefix of the only pattern, fed from the root, reports it. */
  lemma {:induction false} NoMatchBefore(pats: seq<Pattern>, w: string, n: int)
    requires |pats| == 1 && pats[0].1 == w && 0 <= n < |w|
    ensures Matches(pats, "", w[..n]) == []
    decreases n
  {
    if n > 0 {
      assert w[..n][..n - 1] == w[..n - 1];
      NoMatchBefore(pats, w, n - 1);
      assert "" + w[..n] == w[..n];
      SuffixNamesShort(pats, w[..n]);
    }
  }

  /** A text shorter than the only pattern reports nothing. */
  lemma {:induction false} SuffixNamesShort(pats: seq<Pattern>, t: string)
    requires |pats| == 1 && |t| < |pats[0].1|
    ensures SuffixNames(pats, t) == []
    decreases |t|
  {
    if t != [] {
      assert pats[..0] == [];
      assert NamesOf(pats, t) == [];
      SuffixNamesShort(pats, t[1..]);
    }
  }
}
