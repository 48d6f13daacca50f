/** Option values, first places and finite sums: what every argument about tables shares. */
module Sums {

  datatype Option<+T> = None | Some(value: T)

  function Min(a: int, b: int): int {
    if a <= b then a else b
  }

  function Max(a: int, b: int): int {
    if a <= b then b else a
  }

  /** The first place among the first n where p holds. */
  function FindFirst<T>(s: seq<T>, p: T -> bool, n: nat): (r: Option<nat>)
    requires n <= |s|
    ensures r.Some? ==> r.value < n && p(s[r.value]) && forall i :: 0 <= i < r.value ==> !p(s[i])
    ensures r.None? ==> forall i :: 0 <= i < n ==> !p(s[i])
  {
    if n == 0 then None
    else
      var r := FindFirst(s, p, n - 1);
      if r.Some? then r else if p(s[n - 1]) then Some(n - 1) else None
  }

  /** The sum of the first k terms. */
  function SumTo(s: seq<int>, k: nat): int
    requires k <= |s|
  {
    if k == 0 then 0 else SumTo(s, k - 1) + s[k - 1]
  }

  function Sum(s: seq<int>): int {
    SumTo(s, |s|)
  }

  ghost predicate NonNegative(s: seq<int>) {
    forall i :: 0 <= i < |s| ==> 0 <= s[i]
  }

  lemma {:induction false} SamePrefix(s: seq<int>, t: seq<int>, k: nat)
    requires k <= |s| && k <= |t|
    requires forall i :: 0 <= i < k ==> s[i] == t[i]
    ensures SumTo(s, k) == SumTo(t, k)
  {
    if k > 0 {
      SamePrefix(s, t, k - 1);
    }
  }

  lemma SumSnoc(s: seq<int>, x: int)
    ensures Sum(s + [x]) == Sum(s) + x
  {
    SamePrefix(s + [x], s, |s|);
  }

  lemma {:induction false} PrefixAtMost(s: seq<int>, t: seq<int>, k: nat)
    requires k <= |s| && k <= |t|
    requires forall i :: 0 <= i < k ==> s[i] <= t[i]
    ensures SumTo(s, k) <= SumTo(t, k)
  {
    if k > 0 {
      PrefixAtMost(s, t, k - 1);
    }
  }

  lemma {:induction false} PrefixMonotone(s: seq<int>, k: nat, n: nat)
    requires k <= n <= |s| && NonNegative(s)
    ensures SumTo(s, k) <= SumTo(s, n)
    decreases n
  {
    if k < n {
      PrefixMonotone(s, k, n - 1);
    }
  }

  /** A sum of non-negative terms is at least each of them. */
  lemma SumAtLeast(s: seq<int>, i: nat)
    requires i < |s| && NonNegative(s)
    ensures s[i] <= Sum(s)
  {
    PrefixMonotone(s, 0, i);
    PrefixMonotone(s, i + 1, |s|);
  }

  // ---------------------------------------------------------------------------------------------
  // Adding up a measure over a list

  /** The measure f of the first n elements. */
  ghost function TallyTo<T(!new)>(s: seq<T>, f: T -> int, n: nat): int
    requires n <= |s|
  {
    if n == 0 then 0 else TallyTo(s, f, n - 1) + f(s[n - 1])
  }

  ghost function Tally<T(!new)>(s: seq<T>, f: T -> int): int {
    TallyTo(s, f, |s|)
  }

  lemma {:induction false} TallyPrefix<T(!new)>(s: seq<T>, t: seq<T>, f: T -> int, n: nat)
    requires n <= |s| && n <= |t|
    requires forall i :: 0 <= i < n ==> s[i] == t[i]
    ensures TallyTo(s, f, n) == TallyTo(t, f, n)
  {
    if n > 0 {
      TallyPrefix(s, t, f, n - 1);
    }
  }

  lemma TallySnoc<T(!new)>(s: seq<T>, x: T, f: T -> int)
    ensures Tally(s + [x], f) == Tally(s, f) + f(x)
  {
    TallyPrefix(s + [x], s, f, |s|);
  }

  lemma {:induction false} TallyUpdateTo<T(!new)>(s: seq<T>, i: nat, x: T, f: T -> int, n: nat)
    requires i < |s| && n <= |s|
    ensures TallyTo(s[i := x], f, n) == TallyTo(s, f, n) + (if i < n then f(x) - f(s[i]) else 0)
  {
    if n > 0 {
      TallyUpdateTo(s, i, x, f, n - 1);
    }
  }

  lemma TallyUpdate<T(!new)>(s: seq<T>, i: nat, x: T, f: T -> int)
    requires i < |s|
    ensures Tally(s[i := x], f) == Tally(s, f) - f(s[i]) + f(x)
  {
    TallyUpdateTo(s, i, x, f, |s|);
  }

  /** If one measure is at most k times another on every element, so it is on the whole. */
  lemma {:induction false} TallyBound<T(!new)>(s: seq<T>, f: T -> int, g: T -> int, k: int, n: nat)
    requires n <= |s| && forall i :: 0 <= i < n ==> f(s[i]) <= k * g(s[i])
    ensures TallyTo(s, f, n) <= k * TallyTo(s, g, n)
  {
    if n > 0 {
      TallyBound(s, f, g, k, n - 1);
      assert f(s[n - 1]) <= k * g(s[n - 1]);
      assert k * TallyTo(s, g, n) == k * TallyTo(s, g, n - 1) + k * g(s[n - 1]);
    }
  }

  lemma {:induction false} TallySame<T(!new)>(s: seq<T>, f: T -> int, g: T -> int, n: nat)
    requires n <= |s| && forall i :: 0 <= i < n ==> f(s[i]) == g(s[i])
    ensures TallyTo(s, f, n) == TallyTo(s, g, n)
  {
    if n > 0 {
      TallySame(s, f, g, n - 1);
    }
  }

  /** Lists that measure alike, element by element, tally alike. */
  lemma {:induction false} TallyAlike<T(!new)>(s: seq<T>, t: seq<T>, f: T -> int, n: nat)
    requires n <= |s| && n <= |t| && forall i :: 0 <= i < n ==> f(s[i]) == f(t[i])
    ensures TallyTo(s, f, n) == TallyTo(t, f, n)
  {
    if n > 0 {
      TallyAlike(s, t, f, n - 1);
    }
  }

  lemma {:induction false} TallyAdd<T(!new)>(s: seq<T>, f: T -> int, g: T -> int, h: T -> int, n: nat)
    requires n <= |s| && forall i :: 0 <= i < n ==> h(s[i]) == f(s[i]) + g(s[i])
    ensures TallyTo(s, h, n) == TallyTo(s, f, n) + TallyTo(s, g, n)
  {
    if n > 0 {
      TallyAdd(s, f, g, h, n - 1);
    }
  }

  /** A tally of a non-negative measure is at least the measure of each element. */
  lemma {:induction false} TallyAtLeast<T(!new)>(s: seq<T>, f: T -> int, i: nat, n: nat)
    requires n <= |s| && forall j :: 0 <= j < n ==> 0 <= f(s[j])
    ensures 0 <= TallyTo(s, f, n) && (i < n ==> f(s[i]) <= TallyTo(s, f, n))
  {
    if n > 0 {
      TallyAtLeast(s, f, i, n - 1);
    }
  }
}
