/**
 * The breadth-first pass that sets failure links and merges output lists, as a set of
 * invariants over plain values and one lemma per step of the pass. A state is
 * `linked` once its failure link and output list are final; `popped` states have had
 * all their children linked; `queue` is the pass's FIFO queue of linked states.
 */
module FailureLinks {
  import opened TrieSpec
  import opened TrieTables
  import opened TrieInsert

  /** The trie tables after every pattern has been inserted. */
  ghost predicate Tables(next: seq<map<char, int>>, path: seq<string>, parent: seq<int>,
                         pats: seq<Pattern>, fail: seq<int>, output: seq<seq<string>>)
  {
    TrieShape(next, path, parent) && TrieSpells(next, path, Words(pats)) &&
    |fail| == |next| && |output| == |next|
  }

  /** The finished automaton tables: every state's failure link and output list are final. */
  ghost predicate Built(next: seq<map<char, int>>, path: seq<string>, parent: seq<int>,
                        pats: seq<Pattern>, fail: seq<int>, output: seq<seq<string>>)
  {
    Tables(next, path, parent, pats, fail, output) &&
    forall s :: 0 <= s < |next| ==>
      FailLinked(fail, path, Words(pats), s) && OutputComplete(output, path, pats, s)
  }

  ghost predicate LinkedOk(path: seq<string>, pats: seq<Pattern>, fail: seq<int>, output: seq<seq<string>>,
                           linked: set<int>)
    requires |fail| == |path| && |output| == |path|
  {
    (forall s :: s in linked ==> 0 <= s < |path|) &&
    forall s {:trigger FailLinked(fail, path, Words(pats), s)} {:trigger OutputComplete(output, path, pats, s)} ::
      s in linked && 0 <= s < |path| ==>
      FailLinked(fail, path, Words(pats), s) && OutputComplete(output, path, pats, s)
  }

  /** States not yet linked still hold what insertion left: no failure link, own names only. */
  ghost predicate Untouched(path: seq<string>, pats: seq<Pattern>, fail: seq<int>, output: seq<seq<string>>,
                            linked: set<int>)
    requires |fail| == |path| && |output| == |path|
  {
    forall s :: 0 <= s < |path| && s !in linked ==> fail[s] == 0 && output[s] == NamesOf(pats, path[s])
  }

  ghost predicate QueueOk(path: seq<string>, queue: seq<int>, linked: set<int>, popped: set<int>)
  {
    (forall j :: 0 <= j < |queue| ==> 0 < queue[j] < |path| && queue[j] in linked && queue[j] !in popped) &&
    (forall i, j :: 0 <= i < j < |queue| ==> queue[i] != queue[j])
  }

  /** Queue depths never decrease and lie in `[lo, lo + 1]`. */
  ghost predicate QueueSorted(path: seq<string>, queue: seq<int>, lo: int)
    requires forall j :: 0 <= j < |queue| ==> 0 <= queue[j] < |path|
  {
    (forall j :: 0 <= j < |queue| ==> lo <= |path[queue[j]]| <= lo + 1) &&
    (forall i, j :: 0 <= i <= j < |queue| ==> |path[queue[i]]| <= |path[queue[j]]|)
  }

  /** Every state of depth at most `d` is linked. */
  ghost predicate Reached(path: seq<string>, d: int, linked: set<int>)
  {
    forall s :: 0 <= s < |path| && |path[s]| <= d ==> s in linked
  }

  ghost predicate Closed(next: seq<map<char, int>>, parent: seq<int>, queue: seq<int>,
                         linked: set<int>, popped: set<int>)
    requires |next| >= 1 && |parent| == |next|
  {
    0 in linked && popped <= linked && 0 !in popped &&
    (forall s :: s in linked && s != 0 ==> s in popped || s in queue) &&
    (forall s :: s in linked && s != 0 ==> 0 <= s < |parent|) &&
    (forall s {:trigger parent[s]} :: s in linked && s != 0 && 0 <= s < |parent| ==> parent[s] == 0 || parent[s] in popped) &&
    (forall c :: c in next[0] ==> next[0][c] in linked)
  }

  /** All children of popped states other than `h` are linked. */
  ghost predicate PoppedDone(next: seq<map<char, int>>, popped: set<int>, linked: set<int>, h: int)
  {
    forall s, c :: s in popped && s != h && 0 <= s < |next| && c in next[s] ==> next[s][c] in linked
  }

  /** The invariant of the main loop of the pass. */
  ghost predicate MainInv(next: seq<map<char, int>>, path: seq<string>, parent: seq<int>,
                          pats: seq<Pattern>, fail: seq<int>, output: seq<seq<string>>,
                          queue: seq<int>, linked: set<int>, popped: set<int>)
  {
    Tables(next, path, parent, pats, fail, output) &&
    LinkedOk(path, pats, fail, output, linked) && Untouched(path, pats, fail, output, linked) &&
    QueueOk(path, queue, linked, popped) && Closed(next, parent, queue, linked, popped) &&
    PoppedDone(next, popped, linked, -1) &&
    (queue != [] ==> QueueSorted(path, queue, |path[queue[0]]|) && Reached(path, |path[queue[0]]|, linked))
  }

  /** The invariant while the children of the popped state `h`, of depth `d`, are linked;
      `keys` are the characters still to visit. */
  ghost predicate ChildInv(next: seq<map<char, int>>, path: seq<string>, parent: seq<int>,
                           pats: seq<Pattern>, fail: seq<int>, output: seq<seq<string>>,
                           queue: seq<int>, linked: set<int>, popped: set<int>, h: int, keys: set<char>)
  {
    Tables(next, path, parent, pats, fail, output) &&
    0 < h < |next| && h in popped && |path[h]| >= 1 &&
    LinkedOk(path, pats, fail, output, linked) && Untouched(path, pats, fail, output, linked) &&
    QueueOk(path, queue, linked, popped) && Closed(next, parent, queue, linked, popped) &&
    PoppedDone(next, popped, linked, h) &&
    QueueSorted(path, queue, |path[h]|) && Reached(path, |path[h]|, linked) &&
    keys <= next[h].Keys &&
    (forall c :: c in next[h] && c !in keys ==> next[h][c] in linked) &&
    (forall c :: c in keys ==> next[h][c] !in linked)
  }

  /** The invariant while the children of the root are queued. */
  ghost predicate RootInv(next: seq<map<char, int>>, path: seq<string>, parent: seq<int>,
                          pats: seq<Pattern>, fail: seq<int>, output: seq<seq<string>>,
                          queue: seq<int>, linked: set<int>, keys: set<char>)
  {
    Tables(next, path, parent, pats, fail, output) &&
    LinkedOk(path, pats, fail, output, linked) && Untouched(path, pats, fail, output, linked) &&
    QueueOk(path, queue, linked, {}) && 0 in linked &&
    (forall j :: 0 <= j < |queue| ==> |path[queue[j]]| == 1) &&
    (forall s :: s in linked && s != 0 ==> s in queue && 0 <= s < |parent| && parent[s] == 0) &&
    keys <= next[0].Keys &&
    (forall c :: c in next[0] && c !in keys ==> next[0][c] in linked) &&
    (forall c :: c in keys ==> next[0][c] !in linked)
  }

  // ---------------------------------------------------------------- single-conjunct steps

  lemma {:induction false} TailSnoc(w: string, c: char)
    requires w != []
    ensures (w + [c])[1..] == w[1..] + [c]
  {
  }

  lemma {:induction false} LinkOne(path: seq<string>, pats: seq<Pattern>, fail: seq<int>, output: seq<seq<string>>,
                linked: set<int>, x: int, f: int, o: seq<string>)
    requires |fail| == |path| && |output| == |path| && 0 <= x < |path| && x !in linked
    requires LinkedOk(path, pats, fail, output, linked) && Untouched(path, pats, fail, output, linked)
    requires FailLinked(fail[x := f], path, Words(pats), x) && OutputComplete(output[x := o], path, pats, x)
    ensures LinkedOk(path, pats, fail[x := f], output[x := o], linked + {x})
    ensures Untouched(path, pats, fail[x := f], output[x := o], linked + {x})
  {
    var ws := Words(pats);
    forall s | s in linked
      ensures FailLinked(fail[x := f], path, ws, s) && OutputComplete(output[x := o], path, pats, s)
    {
      assert FailLinked(fail, path, ws, s) && OutputComplete(output, path, pats, s);
    }
  }

  lemma {:induction false} ClosedStep(next: seq<map<char, int>>, parent: seq<int>, queue: seq<int>,
                   linked: set<int>, popped: set<int>, x: int)
    requires |next| >= 1 && |parent| == |next| && Closed(next, parent, queue, linked, popped)
    requires 0 < x < |parent| && parent[x] in popped
    ensures Closed(next, parent, queue + [x], linked + {x}, popped)
  {
    forall s | s in linked + {x} && s != 0 ensures s in popped || s in queue + [x] {
      if s != x && s !in popped {
        var j :| 0 <= j < |queue| && queue[j] == s;
        assert (queue + [x])[j] == s;
      }
    }
  }

  /** Visiting character `c` of a state whose children are `m`. */
  lemma {:induction false} KeysStep(m: map<char, int>, keys: set<char>, linked: set<int>, c: char)
    requires keys <= m.Keys && c in keys
    requires forall d :: d in keys - {c} ==> m[d] != m[c]
    requires forall d :: d in m && d !in keys ==> m[d] in linked
    requires forall d :: d in keys ==> m[d] !in linked
    ensures forall d :: d in m && d !in keys - {c} ==> m[d] in linked + {m[c]}
    ensures forall d :: d in keys - {c} ==> m[d] !in linked + {m[c]}
  {
  }

  lemma {:induction false} EnqueueOk(path: seq<string>, queue: seq<int>, linked: set<int>, popped: set<int>, x: int)
    requires QueueOk(path, queue, linked, popped)
    requires 0 < x < |path| && x !in linked && x !in popped
    ensures QueueOk(path, queue + [x], linked + {x}, popped)
    ensures forall s :: s in queue ==> s in queue + [x]
  {
    var q := queue + [x];
    forall j | 0 <= j < |q| ensures 0 < q[j] < |path| && q[j] in linked + {x} && q[j] !in popped {
      if j < |queue| { assert q[j] == queue[j]; }
    }
    forall i, j | 0 <= i < j < |q| ensures q[i] != q[j] {
      assert q[i] == queue[i];
      if j < |queue| { assert q[j] == queue[j]; }
    }
    forall s | s in queue ensures s in q {
      var j :| 0 <= j < |queue| && queue[j] == s;
      assert q[j] == s;
    }
  }

  lemma {:induction false} EnqueueDepthOne(path: seq<string>, queue: seq<int>, x: int)
    requires forall j :: 0 <= j < |queue| ==> 0 <= queue[j] < |path| && |path[queue[j]]| == 1
    requires 0 <= x < |path| && |path[x]| == 1
    ensures forall j :: 0 <= j < |queue + [x]| ==> 0 <= (queue + [x])[j] < |path| && |path[(queue + [x])[j]]| == 1
  {
    forall j | 0 <= j < |queue + [x]|
      ensures 0 <= (queue + [x])[j] < |path| && |path[(queue + [x])[j]]| == 1
    {
      if j < |queue| { assert (queue + [x])[j] == queue[j]; }
    }
  }

  lemma {:induction false} EnqueueSorted(path: seq<string>, queue: seq<int>, lo: int, x: int)
    requires forall j :: 0 <= j < |queue| ==> 0 <= queue[j] < |path|
    requires QueueSorted(path, queue, lo) && 0 <= x < |path| && |path[x]| == lo + 1
    ensures forall j :: 0 <= j < |queue + [x]| ==> 0 <= (queue + [x])[j] < |path|
    ensures QueueSorted(path, queue + [x], lo)
  {
    var q := queue + [x];
    forall j | 0 <= j < |q| ensures 0 <= q[j] < |path| && lo <= |path[q[j]]| <= lo + 1 {
      if j < |queue| { assert q[j] == queue[j]; }
    }
    forall i, j | 0 <= i <= j < |q| ensures |path[q[i]]| <= |path[q[j]]| {
      if j < |queue| { assert q[i] == queue[i] && q[j] == queue[j]; }
      else if i < |queue| { assert q[i] == queue[i]; }
    }
  }

  lemma {:induction false} DequeueOk(path: seq<string>, queue: seq<int>, linked: set<int>, popped: set<int>)
    requires QueueOk(path, queue, linked, popped) && queue != []
    ensures QueueOk(path, queue[1..], linked, popped + {queue[0]})
    ensures forall s :: s in queue && s != queue[0] ==> s in queue[1..]
  {
    var q := queue[1..];
    forall j | 0 <= j < |q| ensures q[j] == queue[j + 1] { }
    forall s | s in queue && s != queue[0] ensures s in q {
      var j :| 0 <= j < |queue| && queue[j] == s;
      assert q[j - 1] == s;
    }
  }

  lemma {:induction false} DequeueSorted(path: seq<string>, queue: seq<int>, lo: int)
    requires forall j :: 0 <= j < |queue| ==> 0 <= queue[j] < |path|
    requires QueueSorted(path, queue, lo) && queue != []
    ensures forall j :: 0 <= j < |queue[1..]| ==> 0 <= queue[1..][j] < |path|
    ensures QueueSorted(path, queue[1..], lo)
  {
    var q := queue[1..];
    forall j | 0 <= j < |q| ensures q[j] == queue[j + 1] { }
  }

  // ---------------------------------------------------------------- root children

  lemma {:induction false} RootStart(next: seq<map<char, int>>, path: seq<string>, parent: seq<int>,
                  pats: seq<Pattern>, fail: seq<int>, output: seq<seq<string>>)
    requires Inserted(next, path, parent, fail, output, pats)
    ensures RootInv(next, path, parent, pats, fail, output, [], {0}, next[0].Keys)
  {
    if NoEmpty(pats) { NamesOfEmpty(pats); }
    forall c | c in next[0] ensures next[0][c] != 0 { }
  }

  lemma {:induction false} RootChild(next: seq<map<char, int>>, path: seq<string>, parent: seq<int>,
                  pats: seq<Pattern>, fail: seq<int>, output: seq<seq<string>>,
                  queue: seq<int>, linked: set<int>, keys: set<char>, c: char)
    requires RootInv(next, path, parent, pats, fail, output, queue, linked, keys) && c in keys
    ensures var x := next[0][c];
      RootInv(next, path, parent, pats, fail[x := 0], output, queue + [x], linked + {x}, keys - {c})
  {
    var x := next[0][c];
    assert path[x] == [c];
    assert path[x][1..] == [];
    assert x !in linked;
    assert output[x := output[x]] == output;
    LinkOne(path, pats, fail, output, linked, x, 0, output[x]);
    EnqueueOk(path, queue, linked, {}, x);
    EnqueueDepthOne(path, queue, x);
    forall d | d in next[0] && d != c ensures next[0][d] != x {
      assert path[next[0][d]] == [d];
    }
  }

  lemma {:induction false} RootDone(next: seq<map<char, int>>, path: seq<string>, parent: seq<int>,
                 pats: seq<Pattern>, fail: seq<int>, output: seq<seq<string>>,
                 queue: seq<int>, linked: set<int>)
    requires RootInv(next, path, parent, pats, fail, output, queue, linked, {})
    ensures MainInv(next, path, parent, pats, fail, output, queue, linked, {})
  {
    if queue != [] {
      forall s | 0 <= s < |path| && |path[s]| <= 1 ensures s in linked {
        ShallowStates(next, path, parent, s);
      }
    }
  }

  // ---------------------------------------------------------------- main loop

  /** Popping the head of the queue starts the visit of its children. */
  lemma {:induction false} Pop(next: seq<map<char, int>>, path: seq<string>, parent: seq<int>,
            pats: seq<Pattern>, fail: seq<int>, output: seq<seq<string>>,
            queue: seq<int>, linked: set<int>, popped: set<int>)
    requires MainInv(next, path, parent, pats, fail, output, queue, linked, popped) && queue != []
    ensures var h := queue[0];
      h !in popped && 0 < h < |next| &&
      ChildInv(next, path, parent, pats, fail, output, queue[1..], linked, popped + {h}, h, next[h].Keys)
  {
    var h := queue[0];
    DequeueOk(path, queue, linked, popped);
    DequeueSorted(path, queue, |path[h]|);
    forall c | c in next[h] ensures next[h][c] !in linked {
      assert parent[next[h][c]] == h;
    }
  }

  /** Linking one child `x` of `h` through the state `f` the failure walk reached. */
  lemma {:induction false} Child(next: seq<map<char, int>>, path: seq<string>, parent: seq<int>,
              pats: seq<Pattern>, fail: seq<int>, output: seq<seq<string>>,
              queue: seq<int>, linked: set<int>, popped: set<int>, h: int, keys: set<char>,
              c: char, f: int)
    requires ChildInv(next, path, parent, pats, fail, output, queue, linked, popped, h, keys) && c in keys
    requires 0 <= fail[h] < |next|
    requires 0 <= f < |next| && path[f] == LongestSuffix(Words(pats), path[fail[h]] + [c])
    ensures var x := next[h][c];
      ChildInv(next, path, parent, pats, fail[x := f], output[x := output[x] + output[f]],
               queue + [x], linked + {x}, popped, h, keys - {c})
  {
    var ws := Words(pats);
    var x := next[h][c];
    assert FailLinked(fail, path, ws, h);
    assert path[x] == path[h] + [c];
    StepDepth(ws, path[h], c, path[fail[h]], path[f]);
    assert f in linked;
    assert OutputComplete(output, path, pats, f);
    LinkChild(path, pats, fail, output, h, x, c, f);
    assert x !in linked;
    LinkOne(path, pats, fail, output, linked, x, f, output[x] + output[f]);
    EnqueueOk(path, queue, linked, popped, x);
    EnqueueSorted(path, queue, |path[h]|, x);
    forall d | d in keys - {c} ensures next[h][d] != x {
      SnocInjective(path[h], c, d);
    }
    assert parent[x] == h;
    ClosedStep(next, parent, queue, linked, popped, x);
    KeysStep(next[h], keys, linked, c);
  }

  lemma {:induction false} StepDepth(ws: seq<string>, w: string, c: char, y: string, z: string)
    requires w != [] && y == LongestSuffix(ws, w[1..]) && z == LongestSuffix(ws, y + [c])
    ensures |z| <= |w|
  {
    LongestSuffixSpec(ws, w[1..]);
    LongestSuffixSpec(ws, y + [c]);
  }

  lemma {:induction false} SnocInjective(w: string, c: char, d: char)
    requires c != d
    ensures w + [c] != w + [d]
  {
    assert (w + [c])[|w|] != (w + [d])[|w|];
  }

  /** The failure link and output list `Child` gives the child `x` of `h` on `c`. */
  lemma {:induction false} LinkChild(path: seq<string>, pats: seq<Pattern>, fail: seq<int>, output: seq<seq<string>>,
                  h: int, x: int, c: char, f: int)
    requires |fail| == |path| && |output| == |path|
    requires 0 < h < |path| && 0 < x < |path| && path[h] != [] && path[x] == path[h] + [c]
    requires 0 <= fail[h] < |path| && path[fail[h]] == LongestSuffix(Words(pats), path[h][1..])
    requires 0 <= f < |path| && path[f] == LongestSuffix(Words(pats), path[fail[h]] + [c])
    requires output[x] == NamesOf(pats, path[x]) && OutputComplete(output, path, pats, f)
    ensures FailLinked(fail[x := f], path, Words(pats), x)
    ensures OutputComplete(output[x := output[x] + output[f]], path, pats, x)
  {
    var ws := Words(pats);
    TailSnoc(path[h], c);
    LongestSuffixStep(ws, path[h][1..], c);
    LongestSuffixSpec(ws, path[x][1..]);
    if NoEmpty(pats) {
      SuffixNamesOfLongest(pats, path[x][1..]);
    }
  }

  /** All children of `h` are linked: the main invariant holds again. */
  lemma {:induction false} ChildrenDone(next: seq<map<char, int>>, path: seq<string>, parent: seq<int>,
                     pats: seq<Pattern>, fail: seq<int>, output: seq<seq<string>>,
                     queue: seq<int>, linked: set<int>, popped: set<int>, h: int)
    requires ChildInv(next, path, parent, pats, fail, output, queue, linked, popped, h, {})
    ensures MainInv(next, path, parent, pats, fail, output, queue, linked, popped)
  {
    var d := |path[h]|;
    if queue != [] && |path[queue[0]]| == d + 1 {
      forall s | 0 <= s < |path| && |path[s]| <= d + 1 ensures s in linked {
        if |path[s]| == d + 1 {
          var q := parent[s];
          ParentLabel(next, path, parent, s);
          assert q in linked;
        }
      }
    }
  }

  /** With the queue empty every state is linked. */
  lemma {:induction false} AllLinked(next: seq<map<char, int>>, path: seq<string>, parent: seq<int>,
                  pats: seq<Pattern>, fail: seq<int>, output: seq<seq<string>>,
                  linked: set<int>, popped: set<int>)
    requires MainInv(next, path, parent, pats, fail, output, [], linked, popped)
    ensures Built(next, path, parent, pats, fail, output)
  {
    var n := 0;
    while n < |next|
      invariant 0 <= n <= |next|
      invariant forall s :: 0 <= s < n ==> s in linked
    {
      if n > 0 {
        var q := parent[n];
        assert next[q][Last(path[n])] == n;
        if q != 0 {
          assert q in linked;
          assert q in popped;
        }
      }
      n := n + 1;
    }
  }
}
