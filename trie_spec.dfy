/**
 * Reference definitions for multi-pattern matching, independent of any automaton:
 * the strings a trie over the patterns spells, the longest suffix of a text that the
 * trie spells, and the names of the patterns that end at each position of a text.
 * The automaton in module AhoCorasick is proved against these.
 */
module TrieSpec {
  import opened Wrappers

  /** A named pattern, as one entry of the source's `Dict[str, str]` (name, text). */
  type Pattern = (string, string)

  predicate IsPrefix(u: string, w: string) { |u| <= |w| && w[..|u|] == u }

  predicate IsSuffix(u: string, w: string) { |u| <= |w| && w[|w| - |u|..] == u }

  /** No pattern is the empty string. */
  predicate NoEmpty(pats: seq<Pattern>)
  {
    forall k :: 0 <= k < |pats| ==> pats[k].1 != []
  }

  /** The pattern names, in dictionary order. */
  function Names(pats: seq<Pattern>): seq<string>
  {
    seq(|pats|, k requires 0 <= k < |pats| => pats[k].0)
  }

  /** No name occurs twice, as in the keys of a dictionary. */
  predicate DistinctNames(pats: seq<Pattern>)
  {
    forall j, k {:trigger pats[j].0, pats[k].0} :: 0 <= j < k < |pats| ==> pats[j].0 != pats[k].0
  }

  /** The text stored under `name`, as the dictionary lookup `pats[name]`; `None` is the
      `KeyError` case. */
  function Lookup(pats: seq<Pattern>, name: string): (r: Option<string>)
    ensures r.Some? <==> name in Names(pats)
    ensures r.Some? ==> exists k :: 0 <= k < |pats| && pats[k] == (name, r.value)
    decreases |pats|
  {
    if pats == [] then None
    else if pats[0].0 == name then assert Names(pats)[0] == name; Some(pats[0].1)
    else
      var r := Lookup(pats[1..], name);
      assert Names(pats) == [pats[0].0] + Names(pats[1..]);
      assert r.Some? ==> exists k :: 0 <= k < |pats| && pats[k] == (name, r.value) by {
        if r.Some? {
          var k :| 0 <= k < |pats[1..]| && pats[1..][k] == (name, r.value);
          assert pats[k + 1] == (name, r.value);
        }
      }
      r
  }

  /** Without empty patterns every lookup that succeeds finds a non-empty text. */
  lemma {:induction false} LookupNonEmpty(pats: seq<Pattern>, name: string)
    requires NoEmpty(pats) && Lookup(pats, name).Some?
    ensures Lookup(pats, name).value != []
  {
  }

  /** With distinct names the lookup finds the one entry carrying the name. */
  lemma {:induction false} LookupDistinct(pats: seq<Pattern>, k: int)
    requires DistinctNames(pats) && 0 <= k < |pats|
    ensures Lookup(pats, pats[k].0) == Some(pats[k].1)
  {
    var r := Lookup(pats, pats[k].0);
    assert pats[k].0 in Names(pats) by { assert Names(pats)[k] == pats[k].0; }
    var j :| 0 <= j < |pats| && pats[j] == (pats[k].0, r.value);
    assert j == k;
  }

  /** The pattern texts, in dictionary order. */
  function Words(pats: seq<Pattern>): seq<string>
  {
    seq(|pats|, k requires 0 <= k < |pats| => pats[k].1)
  }

  /** `w` is a path of the trie over `words`: empty, or a prefix of one of the words. */
  predicate InTrie(words: seq<string>, w: string)
  {
    w == [] || exists k :: 0 <= k < |words| && IsPrefix(w, words[k])
  }

  /** The longest suffix of `w` that the trie spells. */
  function LongestSuffix(words: seq<string>, w: string): (r: string)
    decreases |w|
  {
    if InTrie(words, w) then w else LongestSuffix(words, w[1..])
  }

  /** The longest trie suffix is a suffix of `w` and a path of the trie. */
  lemma {:induction false} LongestSuffixSpec(words: seq<string>, w: string)
    ensures IsSuffix(LongestSuffix(words, w), w) && InTrie(words, LongestSuffix(words, w))
    decreases |w|
  {
    if !InTrie(words, w) {
      LongestSuffixSpec(words, w[1..]);
      SuffixOfTail(LongestSuffix(words, w[1..]), w);
    }
  }

  /** Names of the patterns whose text is exactly `w`, in dictionary order. */
  function NamesOf(pats: seq<Pattern>, w: string): seq<string>
    decreases |pats|
  {
    if pats == [] then []
    else
      var last := pats[|pats| - 1];
      NamesOf(pats[..|pats| - 1], w) + (if last.1 == w then [last.0] else [])
  }

  /** Names of the non-empty patterns that are suffixes of `w`, longest pattern first,
      patterns of equal text in dictionary order. */
  function SuffixNames(pats: seq<Pattern>, w: string): seq<string>
    decreases |w|
  {
    if w == [] then [] else NamesOf(pats, w) + SuffixNames(pats, w[1..])
  }

  /** Every name in `names`, tagged with the position `i`. */
  function AtPosition(i: int, names: seq<string>): (r: seq<(int, string)>)
    ensures |r| == |names|
    ensures forall k :: 0 <= k < |r| ==> r[k] == (i, names[k])
  {
    seq(|names|, k requires 0 <= k < |names| => (i, names[k]))
  }

  /** The matches reported while `chunk` is fed after `history`: for each position `i` of
      `chunk` in increasing order, every pattern that ends there, as `(i, name)`. */
  function Matches(pats: seq<Pattern>, history: string, chunk: string): seq<(int, string)>
    decreases |chunk|
  {
    if chunk == [] then []
    else
      Matches(pats, history, chunk[..|chunk| - 1])
        + AtPosition(|chunk| - 1, SuffixNames(pats, history + chunk))
  }

  /** Every position shifted by `d`. */
  function Shift(ms: seq<(int, string)>, d: int): (r: seq<(int, string)>)
    ensures |r| == |ms|
    ensures forall k :: 0 <= k < |r| ==> r[k] == (ms[k].0 + d, ms[k].1)
  {
    seq(|ms|, k requires 0 <= k < |ms| => (ms[k].0 + d, ms[k].1))
  }

  // ---------------------------------------------------------------- suffix facts

  lemma {:induction false} SuffixOfTail(u: string, w: string)
    requires IsSuffix(u, w) && |u| < |w|
    ensures IsSuffix(u, w[1..])
  {
    assert w[1..][|w| - 1 - |u|..] == w[|w| - |u|..];
  }

  lemma {:induction false} SuffixTrans(u: string, v: string, w: string)
    requires IsSuffix(u, v) && IsSuffix(v, w)
    ensures IsSuffix(u, w)
  {
    assert w[|w| - |u|..] == w[|w| - |v|..][|v| - |u|..];
  }

  lemma {:induction false} SuffixAntisym(u: string, v: string)
    requires IsSuffix(u, v) && IsSuffix(v, u)
    ensures u == v
  {
  }

  /** Two suffixes of one string: the shorter is a suffix of the longer. */
  lemma {:induction false} SuffixOfSuffix(u: string, v: string, w: string)
    requires IsSuffix(u, w) && IsSuffix(v, w) && |u| <= |v|
    ensures IsSuffix(u, v)
  {
    assert v[|v| - |u|..] == w[|w| - |v|..][|v| - |u|..];
  }

  lemma {:induction false} SuffixAppend(u: string, w: string, c: char)
    requires IsSuffix(u, w)
    ensures IsSuffix(u + [c], w + [c])
  {
    assert (w + [c])[|w| - |u|..] == w[|w| - |u|..] + [c];
  }

  /** A non-empty suffix of `w + [c]` is a suffix of `w` followed by `c`. */
  lemma {:induction false} SuffixUnappend(v: string, w: string, c: char)
    requires IsSuffix(v, w + [c]) && v != []
    ensures v[|v| - 1] == c && IsSuffix(v[..|v| - 1], w)
  {
    assert v[..|v| - 1] == (w + [c])[|w| + 1 - |v|..|w|];
    assert (w + [c])[|w| + 1 - |v|..|w|] == w[|w| + 1 - |v|..];
  }

  // ---------------------------------------------------------------- trie facts

  /** The trie is closed under prefixes. */
  lemma {:induction false} InTriePrefix(words: seq<string>, v: string, c: char)
    requires InTrie(words, v + [c])
    ensures InTrie(words, v)
  {
    if v != [] {
      var k :| 0 <= k < |words| && IsPrefix(v + [c], words[k]);
      assert words[k][..|v|] == (v + [c])[..|v|];
      assert IsPrefix(v, words[k]);
    }
  }

  lemma {:induction false} WordInTrie(words: seq<string>, k: int)
    requires 0 <= k < |words|
    ensures InTrie(words, words[k])
  {
    assert IsPrefix(words[k], words[k]);
  }

  /** Every suffix of `w` that the trie spells is a suffix of `LongestSuffix(words, w)`. */
  lemma {:induction false} LongestSuffixIsLongest(words: seq<string>, w: string, u: string)
    requires IsSuffix(u, w) && InTrie(words, u)
    ensures IsSuffix(u, LongestSuffix(words, w))
    decreases |w|
  {
    if !InTrie(words, w) {
      SuffixOfTail(u, w);
      LongestSuffixIsLongest(words, w[1..], u);
    }
  }

  /** The step the automaton takes on one character: the longest trie suffix of
      `x + [c]` depends on `x` only through the longest trie suffix of `x`. */
  lemma {:induction false} LongestSuffixStep(words: seq<string>, x: string, c: char)
    ensures LongestSuffix(words, LongestSuffix(words, x) + [c]) == LongestSuffix(words, x + [c])
  {
    var y := LongestSuffix(words, x);
    StepShorter(words, x, c);
    StepLonger(words, x, c);
    LongestSuffixSpec(words, x + [c]);
    LongestSuffixSpec(words, y + [c]);
    SuffixAntisym(LongestSuffix(words, x + [c]), LongestSuffix(words, y + [c]));
  }

  lemma {:induction false} StepShorter(words: seq<string>, x: string, c: char)
    ensures IsSuffix(LongestSuffix(words, LongestSuffix(words, x) + [c]), LongestSuffix(words, x + [c]))
  {
    var y := LongestSuffix(words, x);
    var z := LongestSuffix(words, y + [c]);
    LongestSuffixSpec(words, x);
    LongestSuffixSpec(words, y + [c]);
    SuffixAppend(y, x, c);
    SuffixTrans(z, y + [c], x + [c]);
    LongestSuffixIsLongest(words, x + [c], z);
  }

  lemma {:induction false} StepLonger(words: seq<string>, x: string, c: char)
    ensures IsSuffix(LongestSuffix(words, x + [c]), LongestSuffix(words, LongestSuffix(words, x) + [c]))
  {
    var y := LongestSuffix(words, x);
    var v := LongestSuffix(words, x + [c]);
    LongestSuffixSpec(words, x);
    LongestSuffixSpec(words, x + [c]);
    if v != [] {
      SuffixUnappend(v, x, c);
      var v' := v[..|v| - 1];
      assert v == v' + [c];
      InTriePrefix(words, v', c);
      LongestSuffixIsLongest(words, x, v');
      SuffixAppend(v', y, c);
      LongestSuffixIsLongest(words, y + [c], v);
    }
  }

  // ---------------------------------------------------------------- names

  lemma {:induction false} NamesOfMember(pats: seq<Pattern>, w: string, n: string)
    ensures n in NamesOf(pats, w) <==> exists k :: 0 <= k < |pats| && pats[k] == (n, w)
    decreases |pats|
  {
    if pats != [] {
      var init := pats[..|pats| - 1];
      NamesOfMember(init, w, n);
      if exists k :: 0 <= k < |init| && init[k] == (n, w) {
        var k :| 0 <= k < |init| && init[k] == (n, w);
        assert pats[k] == (n, w);
      }
      if exists k :: 0 <= k < |pats| && pats[k] == (n, w) {
        var k :| 0 <= k < |pats| && pats[k] == (n, w);
        if k < |init| { assert init[k] == (n, w); }
      }
    }
  }

  /** A text outside the trie is no pattern's text. */
  lemma {:induction false} NamesOfOutsideTrie(pats: seq<Pattern>, w: string)
    requires !InTrie(Words(pats), w)
    ensures NamesOf(pats, w) == []
  {
    if NamesOf(pats, w) != [] {
      var n := NamesOf(pats, w)[0];
      NamesOfMember(pats, w, n);
      var k :| 0 <= k < |pats| && pats[k] == (n, w);
      assert Words(pats)[k] == w;
      WordInTrie(Words(pats), k);
    }
  }

  lemma {:induction false} NamesOfSnoc(pats: seq<Pattern>, p: Pattern, w: string)
    ensures NamesOf(pats + [p], w) == NamesOf(pats, w) + (if p.1 == w then [p.0] else [])
  {
    assert (pats + [p])[..|pats|] == pats;
  }

  /** Names reported for `w` depend only on the longest suffix of `w` the trie spells. */
  lemma {:induction false} SuffixNamesOfLongest(pats: seq<Pattern>, w: string)
    ensures SuffixNames(pats, w) == SuffixNames(pats, LongestSuffix(Words(pats), w))
    decreases |w|
  {
    if !InTrie(Words(pats), w) {
      NamesOfOutsideTrie(pats, w);
      SuffixNamesOfLongest(pats, w[1..]);
    }
  }

  /** `SuffixNames` lists exactly the names of the non-empty patterns that are suffixes of `w`. */
  lemma {:induction false} SuffixNamesMember(pats: seq<Pattern>, w: string, n: string)
    ensures n in SuffixNames(pats, w) <==>
      exists k :: 0 <= k < |pats| && pats[k].0 == n && pats[k].1 != [] && IsSuffix(pats[k].1, w)
    decreases |w|
  {
    if w == [] {
      forall k | 0 <= k < |pats| && pats[k].0 == n && IsSuffix(pats[k].1, w)
        ensures pats[k].1 == []
      {
      }
    } else {
      NamesOfMember(pats, w, n);
      SuffixNamesMember(pats, w[1..], n);
      forall k | 0 <= k < |pats| && pats[k].1 != [] && IsSuffix(pats[k].1, w)
        ensures pats[k].1 == w || IsSuffix(pats[k].1, w[1..])
      {
        if pats[k].1 != w { SuffixOfTail(pats[k].1, w); }
      }
      forall k | 0 <= k < |pats| && IsSuffix(pats[k].1, w[1..])
        ensures IsSuffix(pats[k].1, w)
      {
        assert IsSuffix(w[1..], w);
        SuffixTrans(pats[k].1, w[1..], w);
      }
    }
  }

  // ---------------------------------------------------------------- matches

  /** A reported `(i, n)` names a non-empty pattern that ends at position `i`. */
  lemma {:induction false} MatchedPattern(pats: seq<Pattern>, history: string, chunk: string, i: int, n: string) returns (k: int)
    requires (i, n) in Matches(pats, history, chunk)
    ensures 0 <= i < |chunk| && 0 <= k < |pats| && pats[k].0 == n && pats[k].1 != [] &&
      IsSuffix(pats[k].1, history + chunk[..i + 1])
  {
    MatchesMember(pats, history, chunk, i, n);
    k :| 0 <= k < |pats| && pats[k].0 == n && pats[k].1 != [] && IsSuffix(pats[k].1, history + chunk[..i + 1]);
  }

  /** `(i, n)` is reported exactly when the non-empty pattern named `n` ends at position `i`
      of `chunk`, matching text that may begin in `history`. */
  lemma {:induction false} MatchesMember(pats: seq<Pattern>, history: string, chunk: string, i: int, n: string)
    ensures (i, n) in Matches(pats, history, chunk) <==>
      0 <= i < |chunk| &&
      exists k :: 0 <= k < |pats| && pats[k].0 == n && pats[k].1 != [] &&
        IsSuffix(pats[k].1, history + chunk[..i + 1])
    decreases |chunk|
  {
    if chunk != [] {
      var init := chunk[..|chunk| - 1];
      MatchesMember(pats, history, init, i, n);
      SuffixNamesMember(pats, history + chunk, n);
      assert chunk[..|chunk|] == chunk;
      if 0 <= i < |init| {
        assert init[..i + 1] == chunk[..i + 1];
      }
      var tail := AtPosition(|chunk| - 1, SuffixNames(pats, history + chunk));
      if (i, n) in tail {
        var j :| 0 <= j < |tail| && tail[j] == (i, n);
        assert n == SuffixNames(pats, history + chunk)[j];
      }
      if i == |chunk| - 1 && n in SuffixNames(pats, history + chunk) {
        var j :| 0 <= j < |SuffixNames(pats, history + chunk)| && SuffixNames(pats, history + chunk)[j] == n;
        assert tail[j] == (i, n);
      }
    }
  }

  /** Reported positions are within the chunk and never decrease. */
  lemma {:induction false} MatchesOrdered(pats: seq<Pattern>, history: string, chunk: string)
    ensures forall a :: 0 <= a < |Matches(pats, history, chunk)| ==>
      0 <= Matches(pats, history, chunk)[a].0 < |chunk|
    ensures forall a, b :: 0 <= a <= b < |Matches(pats, history, chunk)| ==>
      Matches(pats, history, chunk)[a].0 <= Matches(pats, history, chunk)[b].0
    decreases |chunk|
  {
    if chunk != [] {
      MatchesOrdered(pats, history, chunk[..|chunk| - 1]);
    }
  }

  /** Chunking invariance: feeding `a` then `b` reports, for `b`, exactly the matches of
      feeding `a + b` at positions from `|a|` on, shifted back by `|a|`. */
  lemma {:induction false} MatchesConcat(pats: seq<Pattern>, history: string, a: string, b: string)
    ensures Matches(pats, history, a + b)
         == Matches(pats, history, a) + Shift(Matches(pats, history + a, b), |a|)
    decreases |b|
  {
    if b == [] {
      assert a + b == a;
    } else {
      var b' := b[..|b| - 1];
      assert (a + b)[..|a + b| - 1] == a + b';
      assert history + (a + b) == (history + a) + b;
      MatchesConcat(pats, history, a, b');
      var names := SuffixNames(pats, history + (a + b));
      assert AtPosition(|a + b| - 1, names) == Shift(AtPosition(|b| - 1, names), |a|);
    }
  }

  /** Matches of a chunk that is fed character by character, one step at a time. */
  lemma {:induction false} MatchesSnoc(pats: seq<Pattern>, history: string, chunk: string, c: char)
    ensures Matches(pats, history, chunk + [c])
         == Matches(pats, history, chunk) + AtPosition(|chunk|, SuffixNames(pats, history + chunk + [c]))
  {
    assert (chunk + [c])[..|chunk|] == chunk;
    assert history + (chunk + [c]) == history + chunk + [c];
  }
}
