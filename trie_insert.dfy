/**
 * Pattern insertion as invariants over plain values: after the patterns `pre` are
 * inserted the tables form the trie over their texts, no failure link is set yet, and each
 * state's output lists the names of the patterns whose text it spells. One lemma per step
 * of the insertion walk.
 */
module TrieInsert {
  import opened TrieSpec
  import opened TrieTables

  /** The tables after inserting the patterns `pre` and before linking failures. */
  ghost predicate Inserted(next: seq<map<char, int>>, path: seq<string>, parent: seq<int>,
                           fail: seq<int>, output: seq<seq<string>>, pre: seq<Pattern>)
  {
    TrieShape(next, path, parent) && TrieSpells(next, path, Words(pre)) &&
    |fail| == |next| && |output| == |next| &&
    forall s :: 0 <= s < |next| ==> fail[s] == 0 && output[s] == NamesOf(pre, path[s])
  }

  /** Midway through inserting `p`: `i` characters walked, `cur` spells them. */
  ghost predicate Inserting(next: seq<map<char, int>>, path: seq<string>, parent: seq<int>,
                            fail: seq<int>, output: seq<seq<string>>, pre: seq<Pattern>,
                            p: string, i: int, cur: int)
  {
    0 <= i <= |p| && TrieShape(next, path, parent) && 0 <= cur < |next| && path[cur] == p[..i] &&
    TrieSpells(next, path, Words(pre) + [p[..i]]) &&
    |fail| == |next| && |output| == |next| &&
    forall s :: 0 <= s < |next| ==> fail[s] == 0 && output[s] == NamesOf(pre, path[s])
  }

  /** The root alone is the trie of no patterns. */
  lemma {:induction false} RootOnly()
    ensures Inserted([map[]], [[]], [0], [0], [[]], [])
  {
  }

  lemma {:induction false} InsertStart(next: seq<map<char, int>>, path: seq<string>, parent: seq<int>,
                    fail: seq<int>, output: seq<seq<string>>, pre: seq<Pattern>, p: string)
    requires Inserted(next, path, parent, fail, output, pre)
    ensures Inserting(next, path, parent, fail, output, pre, p, 0, 0)
  {
    SpellsEmptyWord(next, path, Words(pre));
    assert p[..0] == [];
  }

  /** The walk meets a missing transition: a fresh state for `p[..i+1]` is appended and
      linked from `cur`. */
  lemma {:induction false} InsertNewState(next: seq<map<char, int>>, path: seq<string>, parent: seq<int>,
                       fail: seq<int>, output: seq<seq<string>>, pre: seq<Pattern>,
                       p: string, i: int, cur: int)
    requires Inserting(next, path, parent, fail, output, pre, p, i, cur) && i < |p|
    requires p[i] !in next[cur]
    ensures var n1 := next + [map[]];
      var next' := n1[cur := n1[cur][p[i] := |n1| - 1]];
      next'[cur][p[i]] == |next| &&
      Inserting(next', path + [p[..i + 1]], parent + [cur], fail + [0], output + [[]], pre, p, i + 1, |next|)
  {
    var n1 := next + [map[]];
    assert n1[cur] == next[cur];
    InsertNew(next, path, parent, Words(pre), p, i, cur);
    NewPathOutside(next, path, Words(pre), p, i, cur);
    NamesOfOutsideTrie(pre, p[..i + 1]);
    var path' := path + [p[..i + 1]];
    var output' := output + [[]];
    forall s | 0 <= s < |path'| ensures output'[s] == NamesOf(pre, path'[s]) {
      if s < |path| { assert output'[s] == output[s] && path'[s] == path[s]; }
    }
  }

  /** The walk follows an existing transition. */
  lemma {:induction false} InsertOldState(next: seq<map<char, int>>, path: seq<string>, parent: seq<int>,
                       fail: seq<int>, output: seq<seq<string>>, pre: seq<Pattern>,
                       p: string, i: int, cur: int)
    requires Inserting(next, path, parent, fail, output, pre, p, i, cur) && i < |p|
    requires p[i] in next[cur]
    ensures Inserting(next, path, parent, fail, output, pre, p, i + 1, next[cur][p[i]])
  {
    PrefixSnoc(p, i);
    assert path[next[cur][p[i]]] == path[cur] + [p[i]];
    InsertExisting(next, path, Words(pre), p, i, next[cur][p[i]]);
  }

  /** The walk is over: `name` joins the output of the state spelling `p`. */
  lemma {:induction false} InsertFinish(next: seq<map<char, int>>, path: seq<string>, parent: seq<int>,
                     fail: seq<int>, output: seq<seq<string>>, pre: seq<Pattern>,
                     p: string, cur: int, name: string)
    requires Inserting(next, path, parent, fail, output, pre, p, |p|, cur)
    ensures Inserted(next, path, parent, fail, output[cur := output[cur] + [name]], pre + [(name, p)])
  {
    assert p[..|p|] == p;
    WordsSnoc(pre, (name, p));
    forall s | 0 <= s < |path|
      ensures output[cur := output[cur] + [name]][s] == NamesOf(pre + [(name, p)], path[s])
    {
      NamesOfSnoc(pre, (name, p), path[s]);
    }
  }
}
