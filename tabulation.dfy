// Sequences built position by position from a function of the index.
module Tabulation {
  /** `[f(i), f(i + 1), ..., f(n - 1)]`. */
  function Tabulate<T>(f: nat --> T, i: nat, n: nat): seq<T>
    requires i <= n && forall k :: i <= k < n ==> f.requires(k)
    decreases n - i
  {
    if i == n then [] else [f(i)] + Tabulate(f, i + 1, n)
  }

  /** `Tabulate`, position by position. */
  lemma {:induction false} TabulateAt<T>(f: nat --> T, i: nat, n: nat)
    requires i <= n && forall k :: i <= k < n ==> f.requires(k)
    ensures |Tabulate(f, i, n)| == n - i
    ensures forall k :: 0 <= k < n - i ==> Tabulate(f, i, n)[k] == f(i + k)
    decreases n - i
  {
    if i < n {
      TabulateAt(f, i + 1, n);
      forall k | 0 < k < n - i
        ensures Tabulate(f, i, n)[k] == f(i + k)
      {
        assert Tabulate(f, i, n)[k] == Tabulate(f, i + 1, n)[k - 1];
        assert i + 1 + (k - 1) == i + k;
      }
    }
  }
}
