// Counting and summing over the processes of a system of any size.

module Counting {

  function One(b: bool): nat { if b then 1 else 0 }

  /** `x` processes of a class become `y` when one process moves out of or into it. */
  predicate Shift(x: nat, y: nat, out: bool, into: bool) {
    y + One(out) == x + One(into) && x >= One(out)
  }

  /** The sum of the weights of the first `n` elements of `s`. */
  function SumTo<T>(s: seq<T>, n: nat, w: T -> nat): nat
    requires n <= |s|
  {
    if n == 0 then 0 else SumTo(s, n - 1, w) + w(s[n - 1])
  }

  /** The sum of the weights of the elements of `s`. */
  function Sum<T>(s: seq<T>, w: T -> nat): nat {
    SumTo(s, |s|, w)
  }

  /** How many of the first `n` elements of `s` satisfy `p`. */
  function CountTo<T>(s: seq<T>, n: nat, p: T -> bool): nat
    requires n <= |s|
  {
    if n == 0 then 0 else CountTo(s, n - 1, p) + One(p(s[n - 1]))
  }

  /** How many elements of `s` satisfy `p`. */
  function Count<T>(s: seq<T>, p: T -> bool): nat {
    CountTo(s, |s|, p)
  }

  lemma {:induction false} CountUpdateTo<T>(s: seq<T>, n: nat, i: nat, x: T, p: T -> bool)
    requires i < |s| && n <= |s|
    ensures CountTo(s[i := x], n, p) == CountTo(s, n, p) + (if i < n then One(p(x)) - One(p(s[i])) else 0)
    ensures i < n ==> CountTo(s, n, p) >= One(p(s[i]))
  {
    if n > 0 {
      CountUpdateTo(s, n - 1, i, x, p);
    }
  }

  lemma CountUpdate<T>(s: seq<T>, i: nat, x: T, p: T -> bool)
    requires i < |s|
    ensures Count(s[i := x], p) + One(p(s[i])) == Count(s, p) + One(p(x))
    ensures Count(s, p) >= One(p(s[i]))
  {
    CountUpdateTo(s, |s|, i, x, p);
  }

  lemma {:induction false} SumUpdateTo<T>(s: seq<T>, n: nat, i: nat, x: T, w: T -> nat)
    requires i < |s| && n <= |s|
    ensures SumTo(s[i := x], n, w) == SumTo(s, n, w) + (if i < n then w(x) - w(s[i]) else 0)
    ensures i < n ==> SumTo(s, n, w) >= w(s[i])
  {
    if n > 0 {
      SumUpdateTo(s, n - 1, i, x, w);
    }
  }

  lemma SumUpdate<T>(s: seq<T>, i: nat, x: T, w: T -> nat)
    requires i < |s|
    ensures Sum(s[i := x], w) + w(s[i]) == Sum(s, w) + w(x)
    ensures Sum(s, w) >= w(s[i])
  {
    SumUpdateTo(s, |s|, i, x, w);
  }

  lemma {:induction false} SameTo<T>(s: seq<T>, t: seq<T>, n: nat, p: T -> bool, w: T -> nat)
    requires |s| == |t| && n <= |s|
    requires forall i :: 0 <= i < |s| ==> p(s[i]) == p(t[i]) && w(s[i]) == w(t[i])
    ensures CountTo(s, n, p) == CountTo(t, n, p) && SumTo(s, n, w) == SumTo(t, n, w)
  {
    if n > 0 {
      SameTo(s, t, n - 1, p, w);
    }
  }

  lemma CountPositive<T>(s: seq<T>, i: nat, p: T -> bool)
    requires i < |s| && p(s[i])
    ensures Count(s, p) > 0
  {
    CountUpdate(s, i, s[i], p);
  }

  lemma {:induction false} CountTwoTo<T>(s: seq<T>, n: nat, i: nat, j: nat, p: T -> bool)
    requires i < j < n <= |s| && p(s[i]) && p(s[j])
    ensures CountTo(s, n, p) > 1
  {
    if j == n - 1 {
      CountUpdateTo(s, n - 1, i, s[i], p);
    } else {
      CountTwoTo(s, n - 1, i, j, p);
    }
  }

  lemma CountTwo<T>(s: seq<T>, i: nat, j: nat, p: T -> bool)
    requires i < |s| && j < |s| && i != j && p(s[i]) && p(s[j])
    ensures Count(s, p) > 1
  {
    if i < j {
      CountTwoTo(s, |s|, i, j, p);
    } else {
      CountTwoTo(s, |s|, j, i, p);
    }
  }

  lemma {:induction false} CountZeroTo<T>(s: seq<T>, n: nat, p: T -> bool)
    requires n <= |s| && forall i :: 0 <= i < n ==> !p(s[i])
    ensures CountTo(s, n, p) == 0
  {
    if n > 0 {
      CountZeroTo(s, n - 1, p);
    }
  }

  /** Nothing is counted exactly when nothing satisfies `p`. */
  lemma CountZero<T>(s: seq<T>, p: T -> bool)
    ensures Count(s, p) == 0 <==> forall i :: 0 <= i < |s| ==> !p(s[i])
  {
    if forall i :: 0 <= i < |s| ==> !p(s[i]) {
      CountZeroTo(s, |s|, p);
    } else {
      var i :| 0 <= i < |s| && p(s[i]);
      CountPositive(s, i, p);
    }
  }

  /** Weights that do not grow, one of them going down by `gap`. */
  lemma {:induction false} SumLowersTo<T>(s: seq<T>, t: seq<T>, n: nat, j: nat, gap: nat, w: T -> nat)
    requires |s| == |t| && n <= |s| && j < |s|
    requires forall i :: 0 <= i < |s| ==> w(t[i]) <= w(s[i])
    requires w(t[j]) + gap <= w(s[j])
    ensures SumTo(t, n, w) + (if j < n then gap else 0) <= SumTo(s, n, w)
  {
    if n > 0 {
      SumLowersTo(s, t, n - 1, j, gap, w);
    }
  }

  lemma {:induction false} CountConcat<T>(s: seq<T>, t: seq<T>, p: T -> bool)
    ensures Count(s + t, p) == Count(s, p) + Count(t, p)
    decreases |t|
  {
    if t == [] {
      assert s + t == s;
    } else {
      var front, n := t[..|t| - 1], |t| - 1;
      CountConcat(s, front, p);
      PrefixTo(s + t, s + front, |s| + n, p);
      PrefixTo(t, front, n, p);
    }
  }

  lemma {:induction false} PrefixTo<T>(s: seq<T>, t: seq<T>, n: nat, p: T -> bool)
    requires n <= |s| && n <= |t| && s[..n] == t[..n]
    ensures CountTo(s, n, p) == CountTo(t, n, p)
  {
    if n > 0 {
      assert s[n - 1] == s[..n][n - 1] == t[..n][n - 1];
      assert s[..n - 1] == s[..n][..n - 1] == t[..n][..n - 1];
      PrefixTo(s, t, n - 1, p);
    }
  }

  lemma CountPush<T>(s: seq<T>, x: T, p: T -> bool)
    ensures Count(s + [x], p) == Count(s, p) + One(p(x))
  {
    CountConcat(s, [x], p);
    assert CountTo([x], 1, p) == CountTo([x], 0, p) + One(p(x));
  }

  /** Only the element at `i` can be counted. */
  lemma CountOnly<T>(s: seq<T>, i: nat, p: T -> bool)
    requires i < |s| && forall j :: 0 <= j < |s| && j != i ==> !p(s[j])
    ensures Count(s, p) == One(p(s[i]))
  {
    CountOnlyTo(s, |s|, i, p);
  }

  lemma {:induction false} CountOnlyTo<T>(s: seq<T>, n: nat, i: nat, p: T -> bool)
    requires i < |s| && n <= |s| && forall j :: 0 <= j < |s| && j != i ==> !p(s[j])
    ensures CountTo(s, n, p) == if i < n then One(p(s[i])) else 0
  {
    if n > 0 {
      CountOnlyTo(s, n - 1, i, p);
    }
  }
}
