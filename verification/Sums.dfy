/** Sums over sequences, and their indifference to order. */
module Sums {

  function Total<T>(s: seq<T>, f: T -> int): int {
    if s == [] then 0 else Total(s[..|s| - 1], f) + f(s[|s| - 1])
  }

  function Sum<T>(s: seq<T>, f: T -> real): real {
    if s == [] then 0.0 else Sum(s[..|s| - 1], f) + f(s[|s| - 1])
  }

  function SumInts(s: seq<int>): int {
    if s == [] then 0 else SumInts(s[..|s| - 1]) + s[|s| - 1]
  }

  function SumReals(s: seq<real>): real {
    if s == [] then 0.0 else SumReals(s[..|s| - 1]) + s[|s| - 1]
  }

  function MaxInt(s: seq<int>): (m: int)
    requires s != []
    ensures m in s && forall x :: x in s ==> x <= m
  {
    if |s| == 1 then s[0] else
      var m := MaxInt(s[1..]);
      assert s == [s[0]] + s[1..];
      if m < s[0] then s[0] else m
  }

  lemma TotalSnoc<T>(s: seq<T>, x: T, f: T -> int)
    ensures Total(s + [x], f) == Total(s, f) + f(x)
  {
    assert (s + [x])[..|s|] == s;
  }

  lemma SumSnoc<T>(s: seq<T>, x: T, f: T -> real)
    ensures Sum(s + [x], f) == Sum(s, f) + f(x)
  {
    assert (s + [x])[..|s|] == s;
  }

  /** All but the element at `i`. */
  function Without<T>(s: seq<T>, i: nat): seq<T>
    requires i < |s|
  {
    s[..i] + s[i + 1..]
  }

  lemma DropFromFront<T>(s: seq<T>, i: nat)
    requires i < |s| - 1
    ensures Without(s[..|s| - 1], i) == Without(s, i)[..|s| - 2]
    ensures Without(s, i)[|s| - 2] == s[|s| - 1]
  {
  }

  lemma {:induction false} TotalWithout<T>(s: seq<T>, i: nat, f: T -> int)
    requires i < |s|
    ensures Total(s, f) == Total(Without(s, i), f) + f(s[i])
  {
    if i < |s| - 1 {
      TotalWithout(s[..|s| - 1], i, f);
      DropFromFront(s, i);
    } else {
      assert Without(s, i) == s[..|s| - 1];
    }
  }

  lemma {:induction false} SumWithout<T>(s: seq<T>, i: nat, f: T -> real)
    requires i < |s|
    ensures Sum(s, f) == Sum(Without(s, i), f) + f(s[i])
  {
    if i < |s| - 1 {
      SumWithout(s[..|s| - 1], i, f);
      DropFromFront(s, i);
    } else {
      assert Without(s, i) == s[..|s| - 1];
    }
  }

  /** Some occurrence of the last element of `a`, and what is left of `b` without it. */
  lemma Match<T>(a: seq<T>, b: seq<T>) returns (i: nat)
    requires a != [] && multiset(a) == multiset(b)
    ensures i < |b| && b[i] == a[|a| - 1]
    ensures multiset(a[..|a| - 1]) == multiset(Without(b, i))
  {
    var x := a[|a| - 1];
    assert x in multiset(a);
    assert x in b;
    i :| 0 <= i < |b| && b[i] == x;
    Picked(a, |a| - 1);
    assert Without(a, |a| - 1) == a[..|a| - 1];
    Picked(b, i);
    Cancel(multiset(a[..|a| - 1]), multiset(Without(b, i)), x);
  }

  lemma Cancel<T>(m: multiset<T>, n: multiset<T>, x: T)
    requires m + multiset{x} == n + multiset{x}
    ensures m == n
  {
    forall y ensures m[y] == n[y] {
      assert (m + multiset{x})[y] == (n + multiset{x})[y];
    }
  }

  lemma Picked<T>(s: seq<T>, i: nat)
    requires i < |s|
    ensures multiset(s) == multiset(Without(s, i)) + multiset{s[i]}
  {
    assert s == s[..i] + [s[i]] + s[i + 1..];
  }

  lemma {:induction false} TotalIgnoresOrder<T>(a: seq<T>, b: seq<T>, f: T -> int)
    requires multiset(a) == multiset(b)
    ensures Total(a, f) == Total(b, f)
    decreases |a|
  {
    if a == [] {
      assert |multiset(b)| == 0;
    } else {
      var i := Match(a, b);
      TotalIgnoresOrder(a[..|a| - 1], Without(b, i), f);
      TotalWithout(b, i, f);
    }
  }

  lemma {:induction false} SumIgnoresOrder<T>(a: seq<T>, b: seq<T>, f: T -> real)
    requires multiset(a) == multiset(b)
    ensures Sum(a, f) == Sum(b, f)
    decreases |a|
  {
    if a == [] {
      assert |multiset(b)| == 0;
    } else {
      var i := Match(a, b);
      SumIgnoresOrder(a[..|a| - 1], Without(b, i), f);
      SumWithout(b, i, f);
    }
  }

  lemma {:induction false} TotalOfSame<T>(s: seq<T>, f: T -> int, g: T -> int)
    requires forall x :: x in s ==> f(x) == g(x)
    ensures Total(s, f) == Total(s, g)
  {
    if s != [] {
      TotalOfSame(s[..|s| - 1], f, g);
      assert s[|s| - 1] in s;
    }
  }

  lemma {:induction false} SumOfSame<T>(s: seq<T>, f: T -> real, g: T -> real)
    requires forall x :: x in s ==> f(x) == g(x)
    ensures Sum(s, f) == Sum(s, g)
  {
    if s != [] {
      SumOfSame(s[..|s| - 1], f, g);
      assert s[|s| - 1] in s;
    }
  }

  // ---------------------------------------------------------------- values in order

  function Values<T>(s: seq<T>, f: T -> int): (v: seq<int>)
    ensures |v| == |s| && forall k :: 0 <= k < |s| ==> v[k] == f(s[k])
  {
    seq(|s|, k requires 0 <= k < |s| => f(s[k]))
  }

  lemma {:induction false} TotalIsSumOfValues<T>(s: seq<T>, f: T -> int)
    ensures SumInts(Values(s, f)) == Total(s, f)
  {
    if s != [] {
      TotalIsSumOfValues(s[..|s| - 1], f);
      assert Values(s, f)[..|s| - 1] == Values(s[..|s| - 1], f);
    }
  }

  lemma {:induction false} ValuesIgnoreOrder<T>(a: seq<T>, b: seq<T>, f: T -> int)
    requires multiset(a) == multiset(b)
    ensures multiset(Values(a, f)) == multiset(Values(b, f))
    decreases |a|
  {
    hide Values, Without;
    SameSize(a, b);
    if a != [] {
      var i := Match(a, b);
      var front := a[..|a| - 1];
      ValuesIgnoreOrder(front, Without(b, i), f);
      ValuesPicked(a, f, |a| - 1);
      ValuesPicked(b, f, i);
      WithoutLast(a);
    }
  }

  lemma WithoutLast<T>(s: seq<T>)
    requires s != []
    ensures Without(s, |s| - 1) == s[..|s| - 1]
  {
  }

  lemma ValuesPicked<T>(s: seq<T>, f: T -> int, i: nat)
    requires i < |s|
    ensures multiset(Values(s, f)) == multiset(Values(Without(s, i), f)) + multiset{f(s[i])}
  {
    Picked(Values(s, f), i);
    ValuesWithout(s, f, i);
  }

  lemma ValuesWithout<T>(s: seq<T>, f: T -> int, i: nat)
    requires i < |s|
    ensures Without(Values(s, f), i) == Values(Without(s, i), f)
  {
    var v, w := Without(Values(s, f), i), Values(Without(s, i), f);
    forall k | 0 <= k < |v| ensures v[k] == w[k] {
    }
  }

  predicate Falling(s: seq<int>) {
    forall i, j :: 0 <= i < j < |s| ==> s[i] >= s[j]
  }

  /** Sorted, largest first. */
  function Descending(s: seq<int>): (d: seq<int>)
    ensures |d| == |s|
  {
    if s == [] then [] else Place(s[|s| - 1], Descending(s[..|s| - 1]))
  }

  function Place(x: int, s: seq<int>): (r: seq<int>)
    ensures |r| == |s| + 1
  {
    if s == [] || s[0] <= x then [x] + s else [s[0]] + Place(x, s[1..])
  }

  lemma {:induction false} PlaceSorts(x: int, s: seq<int>)
    requires Falling(s)
    ensures Falling(Place(x, s)) && multiset(Place(x, s)) == multiset(s) + multiset{x}
    ensures Place(x, s)[0] == if s == [] || s[0] <= x then x else s[0]
  {
    if s != [] && x < s[0] {
      PlaceSorts(x, s[1..]);
      assert s == [s[0]] + s[1..];
      Ahead(s[0], Place(x, s[1..]));
    } else {
      Ahead(x, s);
    }
  }

  lemma Ahead(x: int, s: seq<int>)
    requires Falling(s) && (s != [] ==> s[0] <= x)
    ensures Falling([x] + s)
  {
    forall i | 0 <= i < |s| ensures s[i] <= x {
      assert i == 0 || s[0] >= s[i];
    }
  }

  lemma {:induction false} DescendingSorts(s: seq<int>)
    ensures Falling(Descending(s)) && multiset(Descending(s)) == multiset(s)
  {
    if s != [] {
      DescendingSorts(s[..|s| - 1]);
      PlaceSorts(s[|s| - 1], Descending(s[..|s| - 1]));
      assert s == s[..|s| - 1] + [s[|s| - 1]];
    }
  }

  /** A multiset has only one order from the largest down. */
  lemma {:induction false} FallingIsUnique(a: seq<int>, b: seq<int>)
    requires Falling(a) && Falling(b) && multiset(a) == multiset(b)
    ensures a == b
  {
    SameSize(a, b);
    if a != [] {
      HeadsAgree(a, b);
      Picked(a, 0);
      Picked(b, 0);
      assert Without(a, 0) == a[1..] && Without(b, 0) == b[1..];
      Cancel(multiset(a[1..]), multiset(b[1..]), a[0]);
      FallingIsUnique(a[1..], b[1..]);
    }
  }

  lemma SameSize<T>(a: seq<T>, b: seq<T>)
    requires multiset(a) == multiset(b)
    ensures |a| == |b|
  {
    assert |multiset(a)| == |a| && |multiset(b)| == |b|;
  }

  lemma HeadsAgree(a: seq<int>, b: seq<int>)
    requires Falling(a) && Falling(b) && multiset(a) == multiset(b) && a != [] && b != []
    ensures a[0] == b[0]
  {
    assert a[0] in multiset(b) && b[0] in multiset(a);
    var i :| 0 <= i < |b| && b[i] == a[0];
    var j :| 0 <= j < |a| && a[j] == b[0];
    assert i == 0 || b[0] >= b[i];
    assert j == 0 || a[0] >= a[j];
  }

  lemma DescendingIgnoresOrder(a: seq<int>, b: seq<int>)
    requires multiset(a) == multiset(b)
    ensures Descending(a) == Descending(b)
  {
    DescendingSorts(a);
    DescendingSorts(b);
    FallingIsUnique(Descending(a), Descending(b));
  }

  function Same(): int -> int { (x: int) => x }

  lemma {:induction false} SumIntsIsTotal(s: seq<int>)
    ensures SumInts(s) == Total(s, Same())
  {
    if s != [] {
      SumIntsIsTotal(s[..|s| - 1]);
    }
  }

  lemma SumIntsIgnoresOrder(a: seq<int>, b: seq<int>)
    requires multiset(a) == multiset(b)
    ensures SumInts(a) == SumInts(b)
  {
    SumIntsIsTotal(a);
    SumIntsIsTotal(b);
    TotalIgnoresOrder(a, b, Same());
  }

  /** Sum of the first `n` elements, or of all if there are fewer. */
  function SumFirst(s: seq<int>, n: nat): int {
    SumInts(if n < |s| then s[..n] else s)
  }

  lemma {:induction false} FirstFewSumToLess(s: seq<int>, n: nat)
    requires forall k :: 0 <= k < |s| ==> 0 <= s[k]
    ensures 0 <= SumFirst(s, n) <= SumInts(s)
    ensures forall m: nat :: m <= n ==> SumFirst(s, m) <= SumFirst(s, n)
  {
    forall m: nat ensures 0 <= SumFirst(s, m) <= SumInts(s) && (m <= n ==> SumFirst(s, m) <= SumFirst(s, n)) {
      Growing(s, if m < |s| then m else |s|, |s|);
      Growing(s, 0, if m < |s| then m else |s|);
      assert s[..|s|] == s && s[..0] == [];
      if m <= n {
        Growing(s, if m < |s| then m else |s|, if n < |s| then n else |s|);
      }
    }
  }

  lemma {:induction false} Growing(s: seq<int>, m: nat, n: nat)
    requires m <= n <= |s| && forall k :: 0 <= k < |s| ==> 0 <= s[k]
    ensures SumInts(s[..m]) <= SumInts(s[..n])
  {
    if m < n {
      Growing(s, m, n - 1);
      assert s[..n][..n - 1] == s[..n - 1];
    }
  }
}
