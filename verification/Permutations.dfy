/** Sequences that differ only in order. */
module Permutations {
  import opened StoreTypes

  lemma EnumerationsPermute<T>(xs: seq<T>, ys: seq<T>, s: set<T>)
    requires Enumerates(xs, s) && multiset(ys) == multiset(xs)
    ensures Enumerates(ys, s)
  {
    forall x ensures x in ys <==> x in s {
      assert x in ys <==> x in multiset(ys);
      assert x in xs <==> x in multiset(xs);
    }
    forall x ensures multiset(xs)[x] <= 1 {
      if multiset(xs)[x] > 1 {
        CountTwice(xs, x);
      }
    }
    forall i, j | 0 <= i < j < |ys| ensures ys[i] != ys[j] {
      assert ys == ys[..j] + [ys[j]] + ys[j + 1..];
      assert ys[..j][i] == ys[i];
      assert multiset(ys)[ys[j]] >= multiset(ys[..j])[ys[j]] + 1;
    }
  }

  lemma {:induction false} CountTwice<T>(xs: seq<T>, x: T)
    requires multiset(xs)[x] > 1
    ensures exists i, j :: 0 <= i < j < |xs| && xs[i] == xs[j]
  {
    var n := |xs| - 1;
    assert xs == xs[..n] + [xs[n]];
    if xs[n] == x {
      assert x in multiset(xs[..n]);
      var i :| 0 <= i < n && xs[..n][i] == x;
      assert xs[i] == xs[n];
    } else {
      CountTwice(xs[..n], x);
      var i, j :| 0 <= i < j < n && xs[..n][i] == xs[..n][j];
      assert xs[i] == xs[j];
    }
  }

  lemma {:induction false} DistinctCount<T>(xs: seq<T>, x: T)
    requires forall i, j :: 0 <= i < j < |xs| ==> xs[i] != xs[j]
    ensures multiset(xs)[x] == if x in xs then 1 else 0
  {
    if xs != [] {
      var n := |xs| - 1;
      assert xs == xs[..n] + [xs[n]];
      DistinctCount(xs[..n], x);
    }
  }

  /** Two enumerations of one set are permutations of each other. */
  lemma EnumerationsAgree<T>(xs: seq<T>, ys: seq<T>, s: set<T>)
    requires Enumerates(xs, s) && Enumerates(ys, s)
    ensures multiset(xs) == multiset(ys) && |xs| == |ys|
  {
    forall x ensures multiset(xs)[x] == multiset(ys)[x] {
      DistinctCount(xs, x);
      DistinctCount(ys, x);
    }
    assert multiset(xs) == multiset(ys);
    assert |multiset(xs)| == |xs| && |multiset(ys)| == |ys|;
  }

  function Map<A, B>(f: A -> B, xs: seq<A>): (ys: seq<B>)
    ensures |ys| == |xs| && forall i :: 0 <= i < |xs| ==> ys[i] == f(xs[i])
  {
    seq(|xs|, i requires 0 <= i < |xs| => f(xs[i]))
  }

  lemma MapConcat<A, B>(f: A -> B, xs: seq<A>, ys: seq<A>)
    ensures Map(f, xs + ys) == Map(f, xs) + Map(f, ys)
  {
  }

  function Without<T>(xs: seq<T>, k: nat): seq<T>
    requires k < |xs|
  {
    xs[..k] + xs[k + 1..]
  }

  lemma WithoutOne<T>(xs: seq<T>, k: nat)
    requires k < |xs|
    ensures multiset(xs) == multiset(Without(xs, k)) + multiset{xs[k]}
  {
    assert xs == xs[..k] + [xs[k]] + xs[k + 1..];
  }

  lemma MapWithout<A, B>(f: A -> B, xs: seq<A>, k: nat)
    requires k < |xs|
    ensures multiset(Map(f, xs)) == multiset(Map(f, Without(xs, k))) + multiset{f(xs[k])}
  {
    assert Map(f, Without(xs, k)) == Without(Map(f, xs), k);
    WithoutOne(Map(f, xs), k);
  }

  /** Mapping both sides of a permutation gives a permutation. */
  lemma {:induction false} MapPermutes<A, B>(f: A -> B, xs: seq<A>, ys: seq<A>)
    requires multiset(xs) == multiset(ys)
    ensures multiset(Map(f, xs)) == multiset(Map(f, ys))
    decreases |xs|
  {
    hide Map, Without;
    if xs == [] {
      assert |multiset(ys)| == |ys|;
    } else {
      assert xs[0] in multiset(ys);
      var k :| 0 <= k < |ys| && ys[k] == xs[0];
      WithoutOne(xs, 0);
      WithoutOne(ys, k);
      ShorterWithout(xs, 0);
      assert multiset(Without(xs, 0)) == multiset(xs) - multiset{xs[0]};
      assert multiset(Without(ys, k)) == multiset(ys) - multiset{xs[0]};
      MapPermutes(f, Without(xs, 0), Without(ys, k));
      MapWithout(f, xs, 0);
      MapWithout(f, ys, k);
    }
  }

  lemma ShorterWithout<T>(xs: seq<T>, k: nat)
    requires k < |xs|
    ensures |Without(xs, k)| == |xs| - 1
  {
  }

  lemma {:induction false} LeastExists<T>(s: set<T>, key: T -> int)
    requires s != {}
    ensures exists x :: x in s && forall y :: y in s ==> key(x) <= key(y)
    decreases |s|
  {
    var z :| z in s;
    if s == {z} {
      assert forall y :: y in s ==> key(z) <= key(y);
    } else {
      LeastExists(s - {z}, key);
      var x :| x in s - {z} && forall y :: y in s - {z} ==> key(x) <= key(y);
      var least := if key(x) <= key(z) then x else z;
      assert forall y :: y in s ==> y == z || y in s - {z};
      assert forall y :: y in s ==> key(least) <= key(y);
    }
  }

  lemma EnumeratesSnoc<T>(xs: seq<T>, s: set<T>, x: T)
    requires Enumerates(xs, s) && x !in s
    ensures Enumerates(xs + [x], s + {x})
  {
    var ys := xs + [x];
    assert ys[|xs|] == x;
    forall y | y in s ensures y in ys {
      var i :| 0 <= i < |xs| && xs[i] == y;
      assert ys[i] == y;
    }
  }

  /** Every finite set can be listed in key order. */
  lemma {:induction false} OrderExists<T>(s: set<T>, key: T -> int)
    ensures exists xs :: Enumerates(xs, s) && OrderedBy(xs, key)
    decreases |s|
  {
    if s == {} {
      assert Enumerates([], s) && OrderedBy([], key);
    } else {
      GreatestExists(s, key);
      var x :| x in s && forall y :: y in s ==> key(y) <= key(x);
      OrderExists(s - {x}, key);
      var xs :| Enumerates(xs, s - {x}) && OrderedBy(xs, key);
      EnumeratesSnoc(xs, s - {x}, x);
      assert s - {x} + {x} == s;
      assert OrderedBy(xs + [x], key);
    }
  }

  ghost predicate OrderedBy<T>(xs: seq<T>, key: T -> int) {
    forall i, j :: 0 <= i < j < |xs| ==> key(xs[i]) <= key(xs[j])
  }

  lemma GreatestExists<T>(s: set<T>, key: T -> int)
    requires s != {}
    ensures exists x :: x in s && forall y :: y in s ==> key(y) <= key(x)
  {
    LeastExists(s, (x: T) => -key(x));
  }
}
