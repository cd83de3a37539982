/** Sums over sequences and over sets, and what they do not depend on. */
module Sums {

  function SumOf<T>(f: T -> int, xs: seq<T>): int {
    if xs == [] then 0 else SumOf(f, xs[..|xs| - 1]) + f(xs[|xs| - 1])
  }

  lemma {:induction false} SumConcat<T>(f: T -> int, xs: seq<T>, ys: seq<T>)
    ensures SumOf(f, xs + ys) == SumOf(f, xs) + SumOf(f, ys)
    decreases |ys|
  {
    if ys == [] {
      assert xs + ys == xs;
    } else {
      assert (xs + ys)[..|xs + ys| - 1] == xs + ys[..|ys| - 1];
      SumConcat(f, xs, ys[..|ys| - 1]);
    }
  }

  lemma SumSingle<T>(f: T -> int, x: T)
    ensures SumOf(f, [x]) == f(x)
  {
    assert [x][..0] == [];
  }

  /** Taking one element out of a list. */
  lemma SumRemove<T>(f: T -> int, xs: seq<T>, i: nat)
    requires i < |xs|
    ensures SumOf(f, xs) == SumOf(f, xs[..i] + xs[i + 1..]) + f(xs[i])
  {
    hide SumOf;
    assert xs == xs[..i] + ([xs[i]] + xs[i + 1..]);
    SumConcat(f, xs[..i], [xs[i]] + xs[i + 1..]);
    SumConcat(f, [xs[i]], xs[i + 1..]);
    SumConcat(f, xs[..i], xs[i + 1..]);
    SumSingle(f, xs[i]);
  }

  lemma RemoveOne<T>(xs: seq<T>, i: nat)
    requires i < |xs|
    ensures multiset(xs) == multiset(xs[..i] + xs[i + 1..]) + multiset{xs[i]}
  {
    assert xs == xs[..i] + [xs[i]] + xs[i + 1..];
  }

  lemma CancelOne<T>(a: multiset<T>, b: multiset<T>, x: T)
    requires a + multiset{x} == b + multiset{x}
    ensures a == b
  {
    assert a == (a + multiset{x}) - multiset{x};
    assert b == (b + multiset{x}) - multiset{x};
  }

  /** A sum depends on the elements, not on their order. */
  lemma {:induction false} SumPermutation<T>(f: T -> int, xs: seq<T>, ys: seq<T>)
    requires multiset(xs) == multiset(ys)
    ensures SumOf(f, xs) == SumOf(f, ys)
    decreases |xs|
  {
    if xs == [] {
      assert |ys| == |multiset(ys)| == 0;
    } else {
      var init, last := xs[..|xs| - 1], xs[|xs| - 1];
      assert xs == init + [last];
      assert last in multiset(ys);
      var i :| 0 <= i < |ys| && ys[i] == last;
      var rest := ys[..i] + ys[i + 1..];
      RemoveOne(ys, i);
      CancelOne(multiset(init), multiset(rest), last);
      SumPermutation(f, init, rest);
      SumRemove(f, ys, i);
    }
  }

  lemma {:induction false} SumSame<T>(f: T -> int, g: T -> int, xs: seq<T>)
    requires forall x :: x in xs ==> f(x) == g(x)
    ensures SumOf(f, xs) == SumOf(g, xs)
  {
    if xs != [] { SumSame(f, g, xs[..|xs| - 1]); }
  }

  lemma {:induction false} SumAdd<T>(f: T -> int, g: T -> int, h: T -> int, xs: seq<T>)
    requires forall x :: x in xs ==> h(x) == f(x) + g(x)
    ensures SumOf(h, xs) == SumOf(f, xs) + SumOf(g, xs)
  {
    if xs != [] { SumAdd(f, g, h, xs[..|xs| - 1]); }
  }

  lemma {:induction false} SumNonNegative<T>(f: T -> int, xs: seq<T>)
    requires forall x :: x in xs ==> f(x) >= 0
    ensures SumOf(f, xs) >= 0
  {
    if xs != [] { SumNonNegative(f, xs[..|xs| - 1]); }
  }

  lemma {:induction false} SumZero<T>(f: T -> int, xs: seq<T>)
    requires forall x :: x in xs ==> f(x) == 0
    ensures SumOf(f, xs) == 0
  {
    if xs != [] { SumZero(f, xs[..|xs| - 1]); }
  }

  // ----- over sets

  ghost function SumSet<T>(f: T -> int, s: set<T>): int {
    if s == {} then 0
    else
      var x :| x in s;
      f(x) + SumSet(f, s - {x})
  }

  /** Any element can be taken out first. */
  lemma {:induction false} SumSetRemove<T>(f: T -> int, s: set<T>, x: T)
    requires x in s
    ensures SumSet(f, s) == f(x) + SumSet(f, s - {x})
    decreases s
  {
    var y :| y in s && SumSet(f, s) == f(y) + SumSet(f, s - {y});
    if y != x {
      SumSetRemove(f, s - {y}, x);
      SumSetRemove(f, s - {x}, y);
      assert s - {y} - {x} == s - {x} - {y};
    }
  }

  lemma {:induction false} SumSetSame<T>(f: T -> int, g: T -> int, s: set<T>)
    requires forall x :: x in s ==> f(x) == g(x)
    ensures SumSet(f, s) == SumSet(g, s)
    decreases s
  {
    if s != {} {
      var x :| x in s;
      SumSetRemove(f, s, x);
      SumSetRemove(g, s, x);
      SumSetSame(f, g, s - {x});
    }
  }

  lemma {:induction false} SumSetAdd<T>(f: T -> int, g: T -> int, h: T -> int, s: set<T>)
    requires forall x :: x in s ==> h(x) == f(x) + g(x)
    ensures SumSet(h, s) == SumSet(f, s) + SumSet(g, s)
    decreases s
  {
    if s != {} {
      var x :| x in s;
      SumSetRemove(f, s, x);
      SumSetRemove(g, s, x);
      SumSetRemove(h, s, x);
      SumSetAdd(f, g, h, s - {x});
    }
  }

  /** A sum with one term. */
  lemma {:induction false} SumSetOnly<T>(f: T -> int, s: set<T>, only: T)
    requires forall x :: x in s && x != only ==> f(x) == 0
    ensures SumSet(f, s) == if only in s then f(only) else 0
    decreases s
  {
    if s != {} {
      var x :| x in s;
      SumSetRemove(f, s, x);
      SumSetOnly(f, s - {x}, only);
    }
  }

  /** Only the members where `f` is not 0 matter. */
  lemma {:induction false} SumSetSupport<T>(f: T -> int, s: set<T>, t: set<T>)
    requires s <= t && forall x :: x in t && x !in s ==> f(x) == 0
    ensures SumSet(f, s) == SumSet(f, t)
    decreases t
  {
    if s != t {
      var x :| x in t && x !in s;
      SumSetRemove(f, t, x);
      SumSetSupport(f, s, t - {x});
    }
  }

  lemma {:induction false} SumSetNonNegative<T>(f: T -> int, s: set<T>)
    requires forall x :: x in s ==> f(x) >= 0
    ensures SumSet(f, s) >= 0
    decreases s
  {
    if s != {} {
      var x :| x in s;
      SumSetRemove(f, s, x);
      SumSetNonNegative(f, s - {x});
    }
  }

  lemma {:induction false} SumSetBelow<T>(f: T -> int, g: T -> int, s: set<T>, t: set<T>)
    requires s <= t && (forall x :: x in s ==> f(x) <= g(x)) && (forall x :: x in t ==> g(x) >= 0)
    ensures SumSet(f, s) <= SumSet(g, t)
    decreases s
  {
    if s == {} {
      SumSetNonNegative(g, t);
    } else {
      var x :| x in s;
      SumSetRemove(f, s, x);
      SumSetRemove(g, t, x);
      SumSetBelow(f, g, s - {x}, t - {x});
    }
  }
}
