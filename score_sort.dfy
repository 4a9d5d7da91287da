/**
 * Python's stable sort by a numeric score, highest first (`sorted(xs, key=score,
 * reverse=True)` and `list.sort` with the same arguments): elements with equal scores
 * keep their relative order.
 */
module ScoreSort {
  /** `x` placed after every element of `sorted` whose score is at least its own. */
  function Insert<T>(sorted: seq<T>, x: T, score: T -> int): seq<T>
  {
    if sorted == [] then [x]
    else if score(sorted[0]) >= score(x) then [sorted[0]] + Insert(sorted[1..], x, score)
    else [x] + sorted
  }

  function SortDesc<T>(xs: seq<T>, score: T -> int): seq<T>
  {
    if xs == [] then [] else Insert(SortDesc(xs[..|xs| - 1], score), xs[|xs| - 1], score)
  }

  predicate Descending<T>(s: seq<T>, score: T -> int)
  {
    forall i, j :: 0 <= i < j < |s| ==> score(s[i]) >= score(s[j])
  }

  /** The elements whose score is `k`, in order. */
  function WithScore<T>(s: seq<T>, score: T -> int, k: int): seq<T>
  {
    if s == [] then [] else WithScore(s[..|s| - 1], score, k) + (if score(s[|s| - 1]) == k then [s[|s| - 1]] else [])
  }

  lemma {:induction false} WithScoreConcat<T>(a: seq<T>, b: seq<T>, score: T -> int, k: int)
    ensures WithScore(a + b, score, k) == WithScore(a, score, k) + WithScore(b, score, k)
    decreases |b|
  {
    if b == [] {
      assert a + b == a;
    } else {
      assert (a + b)[..|a + b| - 1] == a + b[..|b| - 1];
      WithScoreConcat(a, b[..|b| - 1], score, k);
    }
  }

  lemma {:induction false} WithScoreNone<T>(s: seq<T>, score: T -> int, k: int)
    requires forall i :: 0 <= i < |s| ==> score(s[i]) < k
    ensures WithScore(s, score, k) == []
    decreases |s|
  {
    if s != [] {
      WithScoreNone(s[..|s| - 1], score, k);
    }
  }

  /** Inserting keeps the order descending. */
  lemma {:induction false} InsertDescending<T>(sorted: seq<T>, x: T, score: T -> int)
    requires Descending(sorted, score)
    ensures Descending(Insert(sorted, x, score), score)
    decreases |sorted|
  {
    if sorted != [] {
      HeadBound(sorted, score);
      if score(sorted[0]) >= score(x) {
        var rest := sorted[1..];
        DescendingTail(sorted, score);
        InsertDescending(rest, x, score);
        InsertBelow(rest, x, score, score(sorted[0]));
        DescendingCons(sorted[0], Insert(rest, x, score), score);
      } else {
        DescendingCons(x, sorted, score);
      }
    }
  }

  /** No element of a descending sequence scores above its head. */
  lemma {:induction false} HeadBound<T>(s: seq<T>, score: T -> int)
    requires Descending(s, score) && s != []
    ensures forall j :: 0 <= j < |s| ==> score(s[j]) <= score(s[0])
  {
    forall j | 0 < j < |s| ensures score(s[j]) <= score(s[0]) {
    }
  }

  lemma {:induction false} DescendingTail<T>(s: seq<T>, score: T -> int)
    requires Descending(s, score) && s != []
    ensures Descending(s[1..], score)
  {
    var t := s[1..];
    forall i, j | 0 <= i < j < |t| ensures score(t[i]) >= score(t[j]) {
      assert t[i] == s[i + 1] && t[j] == s[j + 1];
    }
  }

  /** A head scoring at least every element of a descending sequence keeps it descending. */
  lemma {:induction false} DescendingCons<T>(h: T, s: seq<T>, score: T -> int)
    requires Descending(s, score) && forall j :: 0 <= j < |s| ==> score(s[j]) <= score(h)
    ensures Descending([h] + s, score)
  {
    var r := [h] + s;
    forall i, j | 0 <= i < j < |r| ensures score(r[i]) >= score(r[j]) {
      assert r[j] == s[j - 1];
      if i > 0 {
        assert r[i] == s[i - 1];
      }
    }
  }

  /** Inserting an element scoring at most `b` among elements scoring at most `b` leaves
      every element scoring at most `b`. */
  lemma {:induction false} InsertBelow<T>(s: seq<T>, x: T, score: T -> int, b: int)
    requires score(x) <= b && forall j :: 0 <= j < |s| ==> score(s[j]) <= b
    ensures forall j :: 0 <= j < |Insert(s, x, score)| ==> score(Insert(s, x, score)[j]) <= b
  {
    var r := Insert(s, x, score);
    InsertMultiset(s, x, score);
    forall j | 0 <= j < |r| ensures score(r[j]) <= b {
      assert r[j] in multiset(r);
      if r[j] != x {
        assert r[j] in multiset(s);
        var m :| 0 <= m < |s| && s[m] == r[j];
      }
    }
  }

  /** Among elements of score `k`, the inserted one comes after those already there. */
  lemma {:induction false} InsertWithScore<T>(sorted: seq<T>, x: T, score: T -> int, k: int)
    requires Descending(sorted, score)
    ensures WithScore(Insert(sorted, x, score), score, k) ==
      WithScore(sorted, score, k) + (if score(x) == k then [x] else [])
    decreases |sorted|
  {
    var r := Insert(sorted, x, score);
    if sorted == [] {
      assert r[..0] == [];
    } else if score(sorted[0]) >= score(x) {
      var rest := sorted[1..];
      InsertWithScore(rest, x, score, k);
      var ins := Insert(rest, x, score);
      assert r == [sorted[0]] + ins;
      WithScoreConcat([sorted[0]], ins, score, k);
      WithScoreConcat([sorted[0]], rest, score, k);
      assert sorted == [sorted[0]] + rest;
    } else {
      assert r == [x] + sorted;
      InsertFrontWithScore(sorted, x, score, k);
    }
  }

  /** An element scoring above the whole sequence goes in front, and is after every
      element of its score because there is none. */
  lemma {:induction false} InsertFrontWithScore<T>(sorted: seq<T>, x: T, score: T -> int, k: int)
    requires Descending(sorted, score)
    requires sorted != [] && score(sorted[0]) < score(x)
    ensures WithScore([x] + sorted, score, k) ==
      WithScore(sorted, score, k) + (if score(x) == k then [x] else [])
  {
    WithScoreConcat([x], sorted, score, k);
    assert [x][..0] == [];
    if score(x) == k {
      forall i | 0 <= i < |sorted| ensures score(sorted[i]) < k {
        if i > 0 {
          assert score(sorted[0]) >= score(sorted[i]);
        }
      }
      WithScoreNone(sorted, score, k);
    }
  }

  lemma {:induction false} InsertMultiset<T>(sorted: seq<T>, x: T, score: T -> int)
    ensures multiset(Insert(sorted, x, score)) == multiset(sorted) + multiset{x}
    decreases |sorted|
  {
    if sorted != [] && score(sorted[0]) >= score(x) {
      InsertMultiset(sorted[1..], x, score);
      assert sorted == [sorted[0]] + sorted[1..];
    }
  }

  /** The sort is descending by score, and among elements of any one score it keeps the
      input order: it is the stable sort. */
  lemma {:induction false} SortDescProperties<T>(xs: seq<T>, score: T -> int)
    ensures |SortDesc(xs, score)| == |xs|
    ensures Descending(SortDesc(xs, score), score)
    ensures forall k :: WithScore(SortDesc(xs, score), score, k) == WithScore(xs, score, k)
    decreases |xs|
  {
    if xs != [] {
      SortDescProperties(xs[..|xs| - 1], score);
      var init := SortDesc(xs[..|xs| - 1], score);
      InsertDescending(init, xs[|xs| - 1], score);
      InsertMultiset(init, xs[|xs| - 1], score);
      assert |Insert(init, xs[|xs| - 1], score)| == |init| + 1 by {
        assert |multiset(Insert(init, xs[|xs| - 1], score))| == |multiset(init)| + 1;
      }
      forall k ensures WithScore(SortDesc(xs, score), score, k) == WithScore(xs, score, k) {
        InsertWithScore(init, xs[|xs| - 1], score, k);
      }
    }
  }
}
