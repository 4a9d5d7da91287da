/**
 * Python's `s.replace(token, "")` and `s.split(token)`: occurrences are found left to
 * right without overlapping, and replacing them by nothing is joining the pieces that
 * splitting leaves.
 */
module PyReplace {
  import opened Wrappers
  import opened PyStr

  predicate StartsWith(s: string, t: string)
  {
    |t| <= |s| && s[..|t|] == t
  }

  /** `t` occurs in `s`. */
  predicate Contains(s: string, t: string)
  {
    exists i :: 0 <= i <= |s| && StartsWith(s[i..], t)
  }

  /** Python's `s.replace(token, "")`: scanning left to right, every occurrence of a
      non-empty `token` is dropped and scanning resumes after it; an empty token changes
      nothing. */
  function RemoveAll(s: string, token: string): string
    decreases |s|
  {
    if token == [] || s == [] then s
    else if StartsWith(s, token) then RemoveAll(s[|token|..], token)
    else [s[0]] + RemoveAll(s[1..], token)
  }

  /** The index of the leftmost occurrence of `token` in `s`. */
  function Find(s: string, token: string): (r: Option<nat>)
    requires token != []
    ensures r.Some? ==> r.value + |token| <= |s|
    decreases |s|
  {
    if s == [] then None
    else if StartsWith(s, token) then Some(0)
    else
      var r := Find(s[1..], token);
      if r.Some? then Some(r.value + 1) else None
  }

  /** `Find` reports an occurrence, and no occurrence starts earlier. */
  lemma {:induction false} FindSpec(s: string, token: string)
    requires token != []
    ensures var r := Find(s, token);
      (r.Some? ==> s[r.value..r.value + |token|] == token) &&
      (r.Some? ==> forall j :: 0 <= j < r.value ==> !StartsWith(s[j..], token)) &&
      (r.None? ==> forall j :: 0 <= j <= |s| ==> !StartsWith(s[j..], token))
    decreases |s|
  {
    if s != [] && !StartsWith(s, token) {
      FindSpec(s[1..], token);
      var r := Find(s[1..], token);
      assert s[0..] == s;
      if r.Some? {
        FindCons(s, token, r.value);
        assert s[1..][r.value..r.value + |token|] == s[r.value + 1..r.value + 1 + |token|];
        forall j | 1 <= j < r.value + 1 ensures !StartsWith(s[j..], token) {
          assert s[j..] == s[1..][j - 1..];
        }
      } else {
        FindConsNone(s, token);
        forall j | 1 <= j <= |s| ensures !StartsWith(s[j..], token) {
          assert s[j..] == s[1..][j - 1..];
        }
      }
    }
  }

  /** Without an occurrence at the front, the first one is one further on than in `s[1..]`. */
  lemma {:induction false} FindCons(s: string, token: string, k: nat)
    requires token != [] && s != [] && !StartsWith(s, token) && Find(s[1..], token) == Some(k)
    ensures Find(s, token) == Some(k + 1)
  {
  }

  /** Without an occurrence at the front or in `s[1..]`, there is none in `s`. */
  lemma {:induction false} FindConsNone(s: string, token: string)
    requires token != [] && s != [] && !StartsWith(s, token) && Find(s[1..], token).None?
    ensures Find(s, token).None?
  {
  }

  /** Python's `s.split(token)` for a non-empty token: the pieces between the occurrences
      found left to right. */
  function Split(s: string, token: string): (r: seq<string>)
    requires token != []
    ensures r != []
    decreases |s|
  {
    var i := Find(s, token);
    if i.None? then [s] else [s[..i.value]] + Split(s[i.value + |token|..], token)
  }

  /** `sep.join(parts)` written out for the empty separator. */
  function Concat(parts: seq<string>): string
  {
    if parts == [] then [] else parts[0] + Concat(parts[1..])
  }

  /** Splitting loses nothing: joining the pieces with the token gives back the text, and
      no piece contains the token. */
  lemma {:induction false} SplitJoin(s: string, token: string)
    requires token != []
    ensures Join(token, Split(s, token)) == s
    ensures forall k :: 0 <= k < |Split(s, token)| ==> !Contains(Split(s, token)[k], token)
    decreases |s|
  {
    var i := Find(s, token);
    FindSpec(s, token);
    if i.None? {
      NotContains(s, token);
    } else {
      var rest := s[i.value + |token|..];
      SplitJoin(rest, token);
      assert s == s[..i.value] + token + rest;
      assert forall j :: 0 <= j < i.value ==> s[..i.value][j..] == s[j..][..i.value - j];
      NotContainsBefore(s, token, i.value);
    }
  }

  lemma {:induction false} NotContains(s: string, token: string)
    requires token != [] && forall j :: 0 <= j <= |s| ==> !StartsWith(s[j..], token)
    ensures !Contains(s, token)
  {
  }

  lemma {:induction false} NotContainsBefore(s: string, token: string, n: int)
    requires token != [] && 0 <= n <= |s|
    requires forall j :: 0 <= j < n ==> !StartsWith(s[j..], token)
    ensures !Contains(s[..n], token)
  {
    forall i | 0 <= i <= n ensures !StartsWith(s[..n][i..], token) {
      assert s[..n][i..] == s[i..n];
      if i < n && |token| <= n - i {
        assert s[i..n][..|token|] == s[i..][..|token|];
      }
    }
  }

  /** `s.replace(token, "")` is `"".join(s.split(token))`: exactly the occurrences of the
      token are removed. */
  lemma {:induction false} RemoveAllIsSplitConcat(s: string, token: string)
    requires token != []
    ensures RemoveAll(s, token) == Concat(Split(s, token))
    decreases |s|
  {
    var i := Find(s, token);
    FindSpec(s, token);
    if i.None? {
      NotContains(s, token);
      RemoveAllAbsent(s, token);
      ConcatCons(s, []);
      assert s + [] == s;
    } else {
      var rest := s[i.value + |token|..];
      RemoveAllIsSplitConcat(rest, token);
      assert s[i.value..][..|token|] == s[i.value..i.value + |token|];
      RemoveAllUpTo(s, token, i.value);
      ConcatCons(s[..i.value], Split(rest, token));
    }
  }

  /** Joining a first piece and the others is that piece followed by the others joined. */
  lemma {:induction false} ConcatCons(a: string, r: seq<string>)
    ensures Concat([a] + r) == a + Concat(r)
  {
    assert ([a] + r)[1..] == r;
  }

  /** When the first occurrence of the token starts at `i`, removing them all keeps the
      text before it and goes on after it. */
  lemma {:induction false} RemoveAllUpTo(s: string, token: string, i: nat)
    requires token != [] && i + |token| <= |s| && StartsWith(s[i..], token)
    requires forall j :: 0 <= j < i ==> !StartsWith(s[j..], token)
    ensures RemoveAll(s, token) == s[..i] + RemoveAll(s[i + |token|..], token)
    decreases i
  {
    if i == 0 {
      assert s[0..] == s;
      assert s[..0] == [];
    } else {
      var t := s[1..];
      UpToTail(s, token, i);
      RemoveAllUpTo(t, token, i - 1);
      assert RemoveAll(s, token) == [s[0]] + RemoveAll(t, token);
      Regroup(s[0], t[..i - 1], RemoveAll(s[i + |token|..], token));
    }
  }

  /** `RemoveAllUpTo`'s conditions carry over from `s` and `i` to `s[1..]` and `i - 1`. */
  lemma {:induction false} UpToTail(s: string, token: string, i: nat)
    requires token != [] && 0 < i && i + |token| <= |s| && StartsWith(s[i..], token)
    requires forall j :: 0 <= j < i ==> !StartsWith(s[j..], token)
    ensures !StartsWith(s, token)
    ensures StartsWith(s[1..][i - 1..], token)
    ensures forall j :: 0 <= j < i - 1 ==> !StartsWith(s[1..][j..], token)
    ensures s[1..][i - 1 + |token|..] == s[i + |token|..] && s[..i] == [s[0]] + s[1..][..i - 1]
  {
    var t := s[1..];
    assert s[0..] == s;
    forall j | 0 <= j < i - 1 ensures !StartsWith(t[j..], token) {
      assert t[j..] == s[j + 1..];
    }
    assert t[i - 1..] == s[i..];
  }

  lemma {:induction false} Regroup(c: char, a: string, b: string)
    ensures [c] + (a + b) == ([c] + a) + b
  {
  }

  /** Text in which the token never occurs is left alone. */
  lemma {:induction false} RemoveAllAbsent(s: string, token: string)
    requires !Contains(s, token)
    ensures RemoveAll(s, token) == s
    decreases |s|
  {
    if token != [] && s != [] {
      assert s[0..] == s;
      forall i | 0 <= i <= |s[1..]| ensures !StartsWith(s[1..][i..], token) {
        assert s[1..][i..] == s[i + 1..];
      }
      RemoveAllAbsent(s[1..], token);
    }
  }
}
