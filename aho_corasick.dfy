/**
 * The Aho-Corasick automaton of `aho_corasick.py`: a trie over the pattern texts held in
 * parallel lists (`next` transitions, `fail` links, `output` names per state), built once
 * and then fed text chunk by chunk from a persistent current state.
 *
 * The ghost fields tie the tables to the reference definitions of module TrieSpec: state
 * `s` spells `path[s]`, and `fed` is all the text searched since the last reset.
 */
module AhoCorasick {
  import opened TrieSpec
  import opened TrieTables
  import opened TrieInsert
  import opened FailureLinks

  class Automaton {
    /** The pattern dictionary, as (name, text) entries in dictionary order. */
    const patterns: seq<Pattern>
    var next: seq<map<char, int>>
    var fail: seq<int>
    var output: seq<seq<string>>
    var state: int
    ghost var path: seq<string>
    ghost var parent: seq<int>
    ghost var fed: string

    /** The built automaton: a trie with final failure links and output lists, and a
        current state spelling the longest suffix of the text fed that the trie spells. */
    ghost predicate Valid()
      reads this
    {
      Built(next, path, parent, patterns, fail, output) &&
      0 <= state < |next| && path[state] == LongestSuffix(Words(patterns), fed)
    }

    constructor (patterns: seq<Pattern>)
      ensures this.patterns == patterns
      ensures Valid() && state == 0 && fed == []
    {
      this.patterns := patterns;
      next := [];
      fail := [];
      output := [];
      state := 0;
      path := [];
      parent := [];
      fed := [];
      new;
      BuildMachine();
    }

    /** Creates the root, inserts every pattern, then links failures breadth first. */
    method BuildMachine()
      requires next == [] && fail == [] && output == [] && path == [] && parent == []
      requires state == 0 && fed == []
      modifies this
      ensures Valid() && state == 0 && fed == []
    {
      next := [map[]];
      fail := [0];
      output := [[]];
      path := [[]];
      parent := [0];
      RootOnly();
      var k := 0;
      while k < |patterns|
        invariant 0 <= k <= |patterns|
        invariant Inserted(next, path, parent, fail, output, patterns[..k])
        invariant state == 0 && fed == []
      {
        WordsPrefix(patterns, k);
        Insert(patterns[k].1, patterns[k].0, patterns[..k]);
        k := k + 1;
      }
      assert patterns[..k] == patterns;
      fail, output := LinkFailures(next, path, parent, patterns, fail, output);
    }

    /** Walks `p` from the root, creating the missing states, and appends `name` to the
        output list of the state that spells `p`. */
    method Insert(p: string, name: string, ghost pre: seq<Pattern>)
      requires Inserted(next, path, parent, fail, output, pre)
      modifies this
      ensures Inserted(next, path, parent, fail, output, pre + [(name, p)])
      ensures state == old(state) && fed == old(fed)
    {
      var cur := 0;
      var i := 0;
      InsertStart(next, path, parent, fail, output, pre, p);
      while i < |p|
        invariant 0 <= i <= |p|
        invariant Inserting(next, path, parent, fail, output, pre, p, i, cur)
        invariant state == old(state) && fed == old(fed)
      {
        var c := p[i];
        if c !in next[cur] {
          AddState(p, pre, i, cur);
        } else {
          InsertOldState(next, path, parent, fail, output, pre, p, i, cur);
        }
        cur := next[cur][c];
        i := i + 1;
      }
      InsertFinish(next, path, parent, fail, output, pre, p, cur, name);
      output := output[cur := output[cur] + [name]];
    }

    /** Creates the state reached from `cur` on `p[i]`, with an empty output list, and
        makes it `cur`'s child on that character. */
    method AddState(p: string, ghost pre: seq<Pattern>, i: int, cur: int)
      requires Inserting(next, path, parent, fail, output, pre, p, i, cur) && i < |p|
      requires p[i] !in next[cur]
      modifies this
      ensures |next| == |old(next)| + 1 && 0 <= cur < |next| && p[i] in next[cur] && next[cur][p[i]] == |old(next)|
      ensures Inserting(next, path, parent, fail, output, pre, p, i + 1, next[cur][p[i]])
      ensures state == old(state) && fed == old(fed)
    {
      var c := p[i];
      InsertNewState(next, path, parent, fail, output, pre, p, i, cur);
      next := next + [map[]];
      fail := fail + [0];
      output := output + [[]];
      next := next[cur := next[cur][c := |next| - 1]];
      path := path + [p[..i + 1]];
      parent := parent + [cur];
    }

    /** Returns the automaton to the root, forgetting the text fed so far. */
    method ResetState()
      requires Valid()
      modifies this
      ensures Valid() && state == 0 && fed == []
      ensures next == old(next) && fail == old(fail) && output == old(output)
    {
      state := 0;
      fed := [];
    }

    /** Feeds `chunk` from the current state. Every pattern ending at position `i` of the
        chunk, including one that began in an earlier chunk, is reported as `(i, name)`,
        positions in increasing order. */
    method SearchChunk(chunk: string) returns (found: seq<(int, string)>)
      requires Valid()
      modifies this
      ensures Valid() && fed == old(fed) + chunk
      ensures next == old(next) && fail == old(fail) && output == old(output)
      ensures NoEmpty(patterns) ==> found == Matches(patterns, old(fed), chunk)
    {
      found := [];
      var i := 0;
      while i < |chunk|
        invariant 0 <= i <= |chunk|
        invariant Valid() && fed == old(fed) + chunk[..i]
        invariant next == old(next) && fail == old(fail) && output == old(output)
        invariant NoEmpty(patterns) ==> found == Matches(patterns, old(fed), chunk[..i])
      {
        var c := chunk[i];
        var s := Goto(next, fail, path, parent, patterns, state, c);
        assert OutputComplete(output, path, patterns, s);
        SearchStep(path, patterns, output, old(fed), chunk, i, state, s, found);
        state := s;
        fed := fed + [c];
        found := found + AtPosition(i, output[state]);
        i := i + 1;
      }
      assert chunk[..i] == chunk;
    }
  }

  /** One automaton move from state `s` on `c`: follow failure links while `c` has no
      transition, then take it or fall back to the root. */
  method Goto(next: seq<map<char, int>>, fail: seq<int>, ghost path: seq<string>, ghost parent: seq<int>,
              ghost pats: seq<Pattern>, s: int, c: char) returns (t: int)
    requires TrieShape(next, path, parent) && TrieSpells(next, path, Words(pats)) && |fail| == |next|
    requires 0 <= s < |next|
    requires forall u {:trigger FailLinked(fail, path, Words(pats), u)} ::
      0 <= u < |next| && |path[u]| <= |path[s]| ==> FailLinked(fail, path, Words(pats), u)
    ensures 0 <= t < |next| && path[t] == LongestSuffix(Words(pats), path[s] + [c])
  {
    ghost var ws := Words(pats);
    t := s;
    while t > 0 && c !in next[t]
      invariant 0 <= t < |next| && |path[t]| <= |path[s]|
      invariant LongestSuffix(ws, path[t] + [c]) == LongestSuffix(ws, path[s] + [c])
      decreases |path[t]|
    {
      assert FailLinked(fail, path, ws, t);
      LongestSuffixSpec(ws, path[t][1..]);
      FailStep(ws, path[t], path[fail[t]], c);
      t := fail[t];
    }
    if c in next[t] {
      LongestOfLabel(ws, path[t] + [c]);
      t := next[t][c];
    } else {
      assert path[t] == [];
      assert !InTrie(ws, path[t] + [c]);
      t := 0;
    }
  }

  /** The breadth-first pass over the inserted trie: root children fail to the root, every
      deeper state fails to where its parent's failure walk leads on its character, and
      inherits that state's output list. */
  method LinkFailures(next: seq<map<char, int>>, ghost path: seq<string>, ghost parent: seq<int>,
                      pats: seq<Pattern>, fail0: seq<int>, output0: seq<seq<string>>)
    returns (fail: seq<int>, output: seq<seq<string>>)
    requires Inserted(next, path, parent, fail0, output0, pats)
    ensures Built(next, path, parent, pats, fail, output)
  {
    var queue: seq<int>;
    ghost var linked: set<int>;
    queue, linked, fail := LinkRootChildren(next, path, parent, pats, fail0, output0);
    output := output0;
    ghost var popped: set<int> := {};
    ghost var unpopped: set<int> := Interval(1, |next|);
    while queue != []
      invariant MainInv(next, path, parent, pats, fail, output, queue, linked, popped)
      invariant forall s :: 0 < s < |next| && s !in popped ==> s in unpopped
      decreases |unpopped|
    {
      var h := queue[0];
      Pop(next, path, parent, pats, fail, output, queue, linked, popped);
      queue := queue[1..];
      popped := popped + {h};
      queue, linked, fail, output := LinkChildren(next, path, parent, pats, fail, output, h, queue, linked, popped);
      unpopped := unpopped - {h};
    }
    AllLinked(next, path, parent, pats, fail, output, linked, popped);
  }

  /** Queues the children of the root; their failure links stay at the root. */
  method LinkRootChildren(next: seq<map<char, int>>, ghost path: seq<string>, ghost parent: seq<int>,
                          ghost pats: seq<Pattern>, fail0: seq<int>, ghost output: seq<seq<string>>)
    returns (queue: seq<int>, ghost linked: set<int>, fail: seq<int>)
    requires Inserted(next, path, parent, fail0, output, pats)
    ensures MainInv(next, path, parent, pats, fail, output, queue, linked, {})
  {
    queue, linked, fail := [], {0}, fail0;
    RootStart(next, path, parent, pats, fail, output);
    var keys := next[0].Keys;
    while keys != {}
      invariant RootInv(next, path, parent, pats, fail, output, queue, linked, keys)
      decreases |keys|
    {
      var c :| c in keys;
      var x := next[0][c];
      RootChild(next, path, parent, pats, fail, output, queue, linked, keys, c);
      fail := fail[x := 0];
      queue := queue + [x];
      linked := linked + {x};
      keys := keys - {c};
    }
    RootDone(next, path, parent, pats, fail, output, queue, linked);
  }

  /** Links every child of the popped state `h` and queues it. */
  method LinkChildren(next: seq<map<char, int>>, ghost path: seq<string>, ghost parent: seq<int>,
                      ghost pats: seq<Pattern>, fail0: seq<int>, output0: seq<seq<string>>,
                      h: int, queue0: seq<int>, ghost linked0: set<int>, ghost popped: set<int>)
    returns (queue: seq<int>, ghost linked: set<int>, fail: seq<int>, output: seq<seq<string>>)
    requires 0 < h < |next|
    requires ChildInv(next, path, parent, pats, fail0, output0, queue0, linked0, popped, h, next[h].Keys)
    ensures MainInv(next, path, parent, pats, fail, output, queue, linked, popped)
  {
    queue, linked, fail, output := queue0, linked0, fail0, output0;
    var ks := next[h].Keys;
    while ks != {}
      invariant ChildInv(next, path, parent, pats, fail, output, queue, linked, popped, h, ks)
      decreases |ks|
    {
      var c :| c in ks;
      queue, linked, fail, output := LinkOneChild(next, path, parent, pats, fail, output, h, queue, linked, popped, ks, c);
      ks := ks - {c};
    }
    ChildrenDone(next, path, parent, pats, fail, output, queue, linked, popped, h);
  }

  /** Links the child of `h` on `c`: its failure link is where the failure walk from
      `h`'s own failure link goes on `c`, its output adds that state's output, and it is
      queued. */
  method LinkOneChild(next: seq<map<char, int>>, ghost path: seq<string>, ghost parent: seq<int>,
                   ghost pats: seq<Pattern>, fail0: seq<int>, output0: seq<seq<string>>,
                   h: int, queue0: seq<int>, ghost linked0: set<int>, ghost popped: set<int>,
                   ghost ks: set<char>, c: char)
    returns (queue: seq<int>, ghost linked: set<int>, fail: seq<int>, output: seq<seq<string>>)
    requires ChildInv(next, path, parent, pats, fail0, output0, queue0, linked0, popped, h, ks) && c in ks
    ensures ChildInv(next, path, parent, pats, fail, output, queue, linked, popped, h, ks - {c})
  {
    var x := next[h][c];
    ShallowerLinked(next, path, parent, pats, fail0, output0, queue0, linked0, popped, h, ks);
    var f := Goto(next, fail0, path, parent, pats, fail0[h], c);
    Child(next, path, parent, pats, fail0, output0, queue0, linked0, popped, h, ks, c, f);
    queue := queue0 + [x];
    fail := fail0[x := f];
    output := output0[x := output0[x] + output0[f]];
    linked := linked0 + {x};
  }

  /** The integers from `lo` up to but excluding `hi`. */
  ghost function Interval(lo: int, hi: int): (r: set<int>)
    ensures forall s :: s in r <==> lo <= s < hi
    decreases hi - lo
  {
    if hi <= lo then {} else Interval(lo, hi - 1) + {hi - 1}
  }

  /** One step of the search: the state reached on `chunk[i]` spells the longest trie suffix
      of the text fed so far, and its output adds exactly the matches ending at `i`. */
  lemma {:induction false} SearchStep(path: seq<string>, pats: seq<Pattern>, output: seq<seq<string>>,
                   history: string, chunk: string, i: int, st: int, s: int, found: seq<(int, string)>)
    requires |output| == |path| && 0 <= i < |chunk|
    requires 0 <= st < |path| && path[st] == LongestSuffix(Words(pats), history + chunk[..i])
    requires 0 <= s < |path| && path[s] == LongestSuffix(Words(pats), path[st] + [chunk[i]])
    requires OutputComplete(output, path, pats, s)
    requires NoEmpty(pats) ==> found == Matches(pats, history, chunk[..i])
    ensures history + chunk[..i] + [chunk[i]] == history + chunk[..i + 1]
    ensures path[s] == LongestSuffix(Words(pats), history + chunk[..i + 1])
    ensures NoEmpty(pats) ==> found + AtPosition(i, output[s]) == Matches(pats, history, chunk[..i + 1])
  {
    var c := chunk[i];
    FedSnoc(history, chunk, i);
    LongestSuffixStep(Words(pats), history + chunk[..i], c);
    if NoEmpty(pats) {
      SuffixNamesOfLongest(pats, history + chunk[..i + 1]);
      MatchesSnoc(pats, history, chunk[..i], c);
    }
  }

  lemma {:induction false} FedSnoc(history: string, chunk: string, i: int)
    requires 0 <= i < |chunk|
    ensures history + chunk[..i] + [chunk[i]] == history + chunk[..i + 1]
    ensures chunk[..i] + [chunk[i]] == chunk[..i + 1]
  {
    PrefixSnoc(chunk, i);
  }

  /** While the children of `h` are linked, every state no deeper than `fail[h]` is. */
  lemma {:induction false} ShallowerLinked(next: seq<map<char, int>>, path: seq<string>, parent: seq<int>,
                        pats: seq<Pattern>, fail: seq<int>, output: seq<seq<string>>,
                        queue: seq<int>, linked: set<int>, popped: set<int>, h: int, keys: set<char>)
    requires ChildInv(next, path, parent, pats, fail, output, queue, linked, popped, h, keys)
    ensures 0 <= fail[h] < |next|
    ensures forall u {:trigger FailLinked(fail, path, Words(pats), u)} ::
      0 <= u < |next| && |path[u]| <= |path[fail[h]]| ==> FailLinked(fail, path, Words(pats), u)
  {
    assert FailLinked(fail, path, Words(pats), h);
    LongestSuffixSpec(Words(pats), path[h][1..]);
    forall u | 0 <= u < |next| && |path[u]| <= |path[fail[h]]| ensures FailLinked(fail, path, Words(pats), u) {
      assert u in linked;
    }
  }

  /** The example in the `search_chunk` documentation: for `{'pat1': 'abc', 'pat2': 'bc'}`
      searched on `'abc'` both patterns end at index 2, the longer reported first, and
      nothing is reported at index 1 (the documentation shows `[(1, 'pat2'), (2, 'pat1')]`). */
  lemma {:induction false} DocumentedExample()
    ensures Matches([("pat1", "abc"), ("pat2", "bc")], [], "abc") == [(2, "pat1"), (2, "pat2")]
  {
    var pats := [("pat1", "abc"), ("pat2", "bc")];
    assert "abc"[..2] == "ab" && "abc"[..1] == "a" && "abc"[..0] == [] && "abc"[..3] == "abc";
    assert "ab"[..1] == "a" && "a"[..0] == [];
    assert "abc"[1..] == "bc" && "bc"[1..] == "c" && "ab"[1..] == "b" && "a"[1..] == [];
    assert [] + "a" == "a" && [] + "ab" == "ab" && [] + "abc" == "abc";
    NamesOfTwo(pats, "a");
    NamesOfTwo(pats, "b");
    NamesOfTwo(pats, "c");
    NamesOfTwo(pats, "ab");
    NamesOfTwo(pats, "bc");
    NamesOfTwo(pats, "abc");
    assert "b"[1..] == [] && "c"[1..] == [];
    assert "ab" != "bc" && "abc" != "bc";
  }

  /** The names of a two-entry table whose text equals `w`, in table order. */
  lemma {:induction false} NamesOfTwo(pats: seq<Pattern>, w: string)
    requires |pats| == 2
    ensures NamesOf(pats, w) == (if pats[0].1 == w then [pats[0].0] else []) + (if pats[1].1 == w then [pats[1].0] else [])
  {
    assert pats[..1][..0] == [] && pats[..1][0] == pats[0];
    assert NamesOf(pats[..1], w) == NamesOf([], w) + (if pats[0].1 == w then [pats[0].0] else []);
  }
}
