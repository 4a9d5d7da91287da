/**
 * Invariants of the automaton's transition table as plain values: state `s` spells
 * `path[s]`, was created as a child of `parent[s]`, and the table holds exactly the
 * paths of the trie over `words`. The insertion and failure-link steps of the
 * automaton are proved against these.
 */
module TrieTables {
  import opened TrieSpec

  function Last(w: string): char
    requires w != []
  {
    w[|w| - 1]
  }

  /** Transitions extend paths by one character, every non-root state hangs off an
      older parent, and no two states spell the same string. */
  ghost predicate TrieShape(next: seq<map<char, int>>, path: seq<string>, parent: seq<int>)
  {
    |next| >= 1 && |path| == |next| && |parent| == |next| && path[0] == [] &&
    TrieEdges(next, path, parent) && TrieParents(next, path, parent) && TrieDistinct(path)
  }

  ghost predicate TrieEdges(next: seq<map<char, int>>, path: seq<string>, parent: seq<int>)
    requires |path| == |next| && |parent| == |next|
  {
    forall s, c {:trigger next[s][c]} :: 0 <= s < |next| && c in next[s] ==>
      0 < next[s][c] < |next| && path[next[s][c]] == path[s] + [c] && parent[next[s][c]] == s
  }

  ghost predicate TrieParents(next: seq<map<char, int>>, path: seq<string>, parent: seq<int>)
    requires |path| == |next| && |parent| == |next|
  {
    (forall s {:trigger parent[s]} :: 0 < s < |next| ==> 0 <= parent[s] < s && path[s] != []) &&
    (forall s {:trigger Last(path[s])} :: 0 < s < |next| && path[s] != [] ==>
      Last(path[s]) in next[parent[s]] && next[parent[s]][Last(path[s])] == s)
  }

  ghost predicate TrieDistinct(path: seq<string>)
  {
    forall s, t :: 0 <= s < |path| && 0 <= t < |path| && path[s] == path[t] ==> s == t
  }

  /** Every state spells a path of the trie over `words`, and every path of the trie
      one character longer than a state's path is a transition of that state. */
  ghost predicate TrieSpells(next: seq<map<char, int>>, path: seq<string>, words: seq<string>)
    requires |path| == |next|
  {
    (forall s :: 0 <= s < |next| ==> InTrie(words, path[s])) &&
    (forall s, c {:trigger InTrie(words, path[s] + [c])} :: 0 <= s < |next| && InTrie(words, path[s] + [c]) ==> c in next[s])
  }

  /** The failure link of `s` leads to the state spelling the longest proper suffix of
      `path[s]` that the trie spells; the root fails to itself. */
  ghost predicate FailLinked(fail: seq<int>, path: seq<string>, words: seq<string>, s: int)
    requires |fail| == |path| && 0 <= s < |path|
  {
    0 <= fail[s] < |path| &&
    if s == 0 then fail[s] == 0
    else path[s] != [] && path[fail[s]] == LongestSuffix(words, path[s][1..])
  }

  /** The output list of `s` names every pattern that is a suffix of `path[s]`, longest
      first (stated for pattern sets without an empty pattern). */
  ghost predicate OutputComplete(output: seq<seq<string>>, path: seq<string>, pats: seq<Pattern>, s: int)
    requires |output| == |path| && 0 <= s < |path|
  {
    NoEmpty(pats) ==> output[s] == SuffixNames(pats, path[s])
  }

  // ---------------------------------------------------------------- words

  lemma {:induction false} InTrieSnoc(words: seq<string>, e: string, w: string)
    ensures InTrie(words + [e], w) <==> InTrie(words, w) || IsPrefix(w, e)
  {
    if InTrie(words, w) && w != [] {
      var k :| 0 <= k < |words| && IsPrefix(w, words[k]);
      assert (words + [e])[k] == words[k];
    }
    if IsPrefix(w, e) && w != [] {
      assert (words + [e])[|words|] == e;
    }
    if InTrie(words + [e], w) && w != [] {
      var k :| 0 <= k < |words + [e]| && IsPrefix(w, (words + [e])[k]);
      if k < |words| { assert words[k] == (words + [e])[k]; }
    }
  }

  lemma {:induction false} WordsSnoc(pats: seq<Pattern>, p: Pattern)
    ensures Words(pats + [p]) == Words(pats) + [p.1]
  {
  }

  lemma {:induction false} WordsPrefix(pats: seq<Pattern>, k: int)
    requires 0 <= k < |pats|
    ensures Words(pats[..k + 1]) == Words(pats[..k]) + [pats[k].1]
    ensures pats[..k + 1] == pats[..k] + [pats[k]]
  {
    assert pats[..k + 1] == pats[..k] + [pats[k]];
    WordsSnoc(pats[..k], pats[k]);
  }

  lemma {:induction false} NamesOfEmpty(pats: seq<Pattern>)
    requires NoEmpty(pats)
    ensures NamesOf(pats, []) == []
  {
    if NamesOf(pats, []) != [] {
      NamesOfMember(pats, [], NamesOf(pats, [])[0]);
    }
  }

  // ---------------------------------------------------------------- insertion

  lemma {:induction false} PrefixSnoc(p: string, i: int)
    requires 0 <= i < |p|
    ensures p[..i + 1] == p[..i] + [p[i]]
  {
  }

  /** Adding the empty word changes nothing the trie spells. */
  lemma {:induction false} SpellsEmptyWord(next: seq<map<char, int>>, path: seq<string>, words: seq<string>)
    requires |path| == |next| && TrieSpells(next, path, words)
    ensures TrieSpells(next, path, words + [[]])
  {
    forall w ensures InTrie(words + [[]], w) <==> InTrie(words, w) {
      InTrieSnoc(words, [], w);
    }
  }

  /** Extending the inserted word by one character adds exactly one path. */
  lemma {:induction false} PathExtend(words: seq<string>, p: string, i: int, w: string)
    requires 0 <= i < |p|
    ensures InTrie(words + [p[..i + 1]], w) <==> InTrie(words + [p[..i]], w) || w == p[..i + 1]
  {
    InTrieSnoc(words, p[..i + 1], w);
    InTrieSnoc(words, p[..i], w);
    if IsPrefix(w, p[..i + 1]) && |w| <= i {
      assert p[..i][..|w|] == p[..i + 1][..|w|];
    }
    if IsPrefix(w, p[..i]) {
      assert p[..i + 1][..|w|] == p[..i][..|w|];
    }
  }

  /** Insertion step when the next character already has a transition to state `t`. */
  lemma {:induction false} InsertExisting(next: seq<map<char, int>>, path: seq<string>, words: seq<string>,
                       p: string, i: int, t: int)
    requires 0 <= i < |p|
    requires |path| == |next| && TrieSpells(next, path, words + [p[..i]])
    requires 0 <= t < |next| && path[t] == p[..i + 1]
    ensures TrieSpells(next, path, words + [p[..i + 1]])
  {
    var ws' := words + [p[..i + 1]];
    forall s | 0 <= s < |next| ensures InTrie(ws', path[s]) {
      PathExtend(words, p, i, path[s]);
    }
    forall s, c | 0 <= s < |next| && InTrie(ws', path[s] + [c]) ensures c in next[s] {
      PathExtend(words, p, i, path[s] + [c]);
    }
  }

  /** The new path `p[..i+1]` is not yet in the trie when its last transition is missing. */
  lemma {:induction false} NewPathOutside(next: seq<map<char, int>>, path: seq<string>, words: seq<string>,
                       p: string, i: int, cur: int)
    requires 0 <= i < |p|
    requires |path| == |next| && TrieSpells(next, path, words + [p[..i]])
    requires 0 <= cur < |next| && path[cur] == p[..i] && p[i] !in next[cur]
    ensures !InTrie(words, p[..i + 1])
    ensures forall c :: !InTrie(words + [p[..i]], p[..i + 1] + [c])
  {
    assert p[..i + 1] == path[cur] + [p[i]];
    InTrieSnoc(words, p[..i], p[..i + 1]);
    forall c ensures !InTrie(words + [p[..i]], p[..i + 1] + [c]) {
      if InTrie(words + [p[..i]], p[..i + 1] + [c]) {
        InTriePrefix(words + [p[..i]], p[..i + 1], c);
      }
    }
  }

  /** Insertion step that creates the state for `p[..i+1]`. */
  lemma {:induction false} InsertNew(next: seq<map<char, int>>, path: seq<string>, parent: seq<int>,
                  words: seq<string>, p: string, i: int, cur: int)
    requires 0 <= i < |p|
    requires TrieShape(next, path, parent) && TrieSpells(next, path, words + [p[..i]])
    requires 0 <= cur < |next| && path[cur] == p[..i] && p[i] !in next[cur]
    ensures var next' := (next + [map[]])[cur := next[cur][p[i] := |next|]];
            var path' := path + [p[..i + 1]];
            TrieShape(next', path', parent + [cur]) && TrieSpells(next', path', words + [p[..i + 1]])
  {
    NewPathOutside(next, path, words, p, i, cur);
    forall s | 0 <= s < |next| ensures path[s] != p[..i + 1] {
      assert InTrie(words + [p[..i]], path[s]);
      InTrieSnoc(words, p[..i], path[s]);
    }
    InsertNewShape(next, path, parent, p, i, cur);
    InsertNewSpells(next, path, words, p, i, cur);
  }

  lemma {:induction false} InsertNewShape(next: seq<map<char, int>>, path: seq<string>, parent: seq<int>,
                       p: string, i: int, cur: int)
    requires 0 <= i < |p|
    requires TrieShape(next, path, parent)
    requires 0 <= cur < |next| && path[cur] == p[..i] && p[i] !in next[cur]
    requires forall s :: 0 <= s < |next| ==> path[s] != p[..i + 1]
    ensures TrieShape((next + [map[]])[cur := next[cur][p[i] := |next|]], path + [p[..i + 1]], parent + [cur])
  {
    PrefixSnoc(p, i);
    InsertNewEdges(next, path, parent, p, i, cur);
    InsertNewParents(next, path, parent, p, i, cur);
    DistinctSnoc(path, p[..i + 1]);
  }

  lemma {:induction false} DistinctSnoc(path: seq<string>, w: string)
    requires TrieDistinct(path) && forall s :: 0 <= s < |path| ==> path[s] != w
    ensures TrieDistinct(path + [w])
  {
    var path' := path + [w];
    forall s, t | 0 <= s < |path'| && 0 <= t < |path'| && path'[s] == path'[t] ensures s == t {
      if s < |path| && t < |path| {
        assert path[s] == path[t];
      }
    }
  }

  lemma {:induction false} InsertNewEdges(next: seq<map<char, int>>, path: seq<string>, parent: seq<int>,
                       p: string, i: int, cur: int)
    requires 0 <= i < |p|
    requires |path| == |next| && |parent| == |next| && TrieEdges(next, path, parent)
    requires 0 <= cur < |next| && path[cur] == p[..i] && p[..i + 1] == p[..i] + [p[i]]
    ensures TrieEdges((next + [map[]])[cur := next[cur][p[i] := |next|]], path + [p[..i + 1]], parent + [cur])
  {
    var n := |next|;
    var next' := (next + [map[]])[cur := next[cur][p[i] := n]];
    var path' := path + [p[..i + 1]];
    var parent' := parent + [cur];
    forall s, c | 0 <= s < |next'| && c in next'[s]
      ensures 0 < next'[s][c] < |next'| && path'[next'[s][c]] == path'[s] + [c] && parent'[next'[s][c]] == s
    {
      if s == cur && c == p[i] {
      } else {
        assert s < n && c in next[s];
      }
    }
  }

  lemma {:induction false} InsertNewParents(next: seq<map<char, int>>, path: seq<string>, parent: seq<int>,
                         p: string, i: int, cur: int)
    requires 0 <= i < |p|
    requires TrieShape(next, path, parent)
    requires 0 <= cur < |next| && path[cur] == p[..i] && p[i] !in next[cur] && p[..i + 1] == p[..i] + [p[i]]
    ensures TrieParents((next + [map[]])[cur := next[cur][p[i] := |next|]], path + [p[..i + 1]], parent + [cur])
  {
    var n := |next|;
    var next' := (next + [map[]])[cur := next[cur][p[i] := n]];
    var path' := path + [p[..i + 1]];
    var parent' := parent + [cur];
    forall s | 0 < s < |next'|
      ensures 0 <= parent'[s] < s && path'[s] != [] &&
              Last(path'[s]) in next'[parent'[s]] && next'[parent'[s]][Last(path'[s])] == s
    {
      if s < n {
        var q := parent[s];
        if q == cur && Last(path[s]) == p[i] {
          assert false;
        }
      }
    }
  }

  lemma {:induction false} InsertNewSpells(next: seq<map<char, int>>, path: seq<string>, words: seq<string>,
                        p: string, i: int, cur: int)
    requires 0 <= i < |p|
    requires |path| == |next| && TrieSpells(next, path, words + [p[..i]])
    requires 0 <= cur < |next| && path[cur] == p[..i] && p[i] !in next[cur]
    requires forall s :: 0 <= s < |next| && path[s] == p[..i] ==> s == cur
    requires forall c :: !InTrie(words + [p[..i]], p[..i + 1] + [c])
    ensures TrieSpells((next + [map[]])[cur := next[cur][p[i] := |next|]], path + [p[..i + 1]], words + [p[..i + 1]])
  {
    var n := |next|;
    var next' := (next + [map[]])[cur := next[cur][p[i] := n]];
    var path' := path + [p[..i + 1]];
    var ws' := words + [p[..i + 1]];
    assert p[..i + 1] == p[..i] + [p[i]];
    forall s | 0 <= s < |next'| ensures InTrie(ws', path'[s]) {
      PathExtend(words, p, i, path'[s]);
    }
    forall s, c | 0 <= s < |next'| && InTrie(ws', path'[s] + [c]) ensures c in next'[s] {
      PathExtend(words, p, i, path'[s] + [c]);
      if s == n {
        assert false;
      } else if path[s] + [c] == p[..i + 1] {
        assert path[s] == p[..i];
      }
    }
  }

  // ---------------------------------------------------------------- failure links

  /** One failure step of the walk: with no transition on `c`, the longest trie suffix
      of `path[t] + [c]` is found from `fail[t]`. */
  lemma {:induction false} FailStep(words: seq<string>, lt: string, lf: string, c: char)
    requires lt != [] && !InTrie(words, lt + [c])
    requires lf == LongestSuffix(words, lt[1..])
    ensures LongestSuffix(words, lt + [c]) == LongestSuffix(words, lf + [c])
  {
    assert (lt + [c])[1..] == lt[1..] + [c];
    LongestSuffixStep(words, lt[1..], c);
  }

  /** A path spells a path of the trie, so it is its own longest trie suffix. */
  lemma {:induction false} LongestOfLabel(words: seq<string>, w: string)
    requires InTrie(words, w)
    ensures LongestSuffix(words, w) == w
  {
  }

  /** Every state of depth 0 or 1 is the root or a child of the root. */
  lemma {:induction false} ShallowStates(next: seq<map<char, int>>, path: seq<string>, parent: seq<int>, s: int)
    requires TrieShape(next, path, parent) && 0 <= s < |next| && |path[s]| <= 1
    ensures s == 0 || (path[s][0] in next[0] && next[0][path[s][0]] == s)
  {
    if s != 0 {
      var q := parent[s];
      assert path[s] == path[q] + [Last(path[s])];
      assert path[q] == path[0];
    }
  }

  /** A state's parent spells its path without the last character. */
  lemma {:induction false} ParentLabel(next: seq<map<char, int>>, path: seq<string>, parent: seq<int>, s: int)
    requires TrieShape(next, path, parent) && 0 < s < |next|
    ensures path[s] == path[parent[s]] + [Last(path[s])]
    ensures |path[parent[s]]| + 1 == |path[s]|
  {
  }
}
