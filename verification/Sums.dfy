/** Finite sums over sets of row ids, and the few facts about them the tables need. */
module Sums {

  ghost predicate IsLeast(s: set<nat>, m: nat) {
    m in s && forall x | x in s :: m <= x
  }

  lemma LeastExists(s: set<nat>)
    requires s != {}
    ensures exists m :: IsLeast(s, m)
    decreases |s|
  {
    var k :| k in s;
    var rest := s - {k};
    if rest == {} {
      assert s == {k};
      assert IsLeast(s, k);
    } else {
      LeastExists(rest);
      var m :| IsLeast(rest, m);
      assert forall x | x in s :: x == k || x in rest;
      assert IsLeast(s, if k < m then k else m);
    }
  }

  function Least(s: set<nat>): (m: nat)
    requires s != {}
    ensures m in s && forall x | x in s :: m <= x
  {
    LeastExists(s);
    assert exists m :: m in s && forall x | x in s :: m <= x by {
      var m :| IsLeast(s, m);
      assert m in s && forall x | x in s :: m <= x;
    }
    var m :| m in s && forall x | x in s :: m <= x;
    m
  }

  /** The sum of f over the ids in s. */
  function Total(s: set<nat>, f: nat -> int): int
    decreases |s|
  {
    if s == {} then 0 else
      var k := Least(s);
      f(k) + Total(s - {k}, f)
  }

  /** A sum may be taken apart at any of its members. */
  lemma {:induction false} TotalRemove(s: set<nat>, f: nat -> int, k: nat)
    requires k in s
    ensures Total(s, f) == f(k) + Total(s - {k}, f)
    decreases |s|
  {
    var m := Least(s);
    if m != k {
      TotalRemove(s - {m}, f, k);
      TotalRemove(s - {k}, f, m);
      assert s - {m} - {k} == s - {k} - {m};
    }
  }

  /** Two summands that agree on s have the same sum over it. */
  lemma {:induction false} TotalAgree(s: set<nat>, f: nat -> int, g: nat -> int)
    requires forall k | k in s :: f(k) == g(k)
    ensures Total(s, f) == Total(s, g)
    decreases |s|
  {
    if s != {} {
      TotalAgree(s - {Least(s)}, f, g);
    }
  }

  lemma {:induction false} TotalBounds(s: set<nat>, f: nat -> int)
    requires forall k | k in s :: f(k) >= 0
    ensures Total(s, f) >= 0
    ensures forall k | k in s :: f(k) <= Total(s, f)
    decreases |s|
  {
    if s != {} {
      var m := Least(s);
      TotalBounds(s - {m}, f);
    }
  }

  lemma {:induction false} TotalUnion(s: set<nat>, t: set<nat>, f: nat -> int)
    requires s !! t
    ensures Total(s + t, f) == Total(s, f) + Total(t, f)
    decreases |s|
  {
    if s == {} {
      assert s + t == t;
    } else {
      var m := Least(s);
      TotalRemove(s + t, f, m);
      assert s + t - {m} == (s - {m}) + t;
      TotalUnion(s - {m}, t, f);
    }
  }

  lemma {:induction false} TotalZero(s: set<nat>, f: nat -> int)
    requires forall k | k in s :: f(k) == 0
    ensures Total(s, f) == 0
    decreases |s|
  {
    if s != {} {
      TotalZero(s - {Least(s)}, f);
    }
  }

  /** When one row of a table is written and the others keep their weight, the
      sum changes by exactly that row's change of weight. */
  lemma TotalPoint(s: set<nat>, f: nat -> int, g: nat -> int, k: nat)
    requires forall j | j in s && j != k :: f(j) == g(j)
    ensures Total(s + {k}, g) == Total(s, f) - (if k in s then f(k) else 0) + g(k)
  {
    var rest := s - {k};
    TotalRemove(s + {k}, g, k);
    assert s + {k} - {k} == rest;
    TotalAgree(rest, f, g);
    if k in s {
      TotalRemove(s, f, k);
    } else {
      assert rest == s;
    }
  }

  /** A list without repeats has as many members as positions. */
  predicate Distinct(xs: seq<nat>) {
    forall i, j | 0 <= i < j < |xs| :: xs[i] != xs[j]
  }

  function Members(xs: seq<nat>): set<nat> {
    set x | x in xs
  }

  lemma {:induction false} DistinctSize(xs: seq<nat>)
    requires Distinct(xs)
    ensures |Members(xs)| == |xs|
  {
    if xs == [] {
      assert Members(xs) == {};
    } else {
      var n := |xs| - 1;
      DistinctSize(xs[..n]);
      assert Members(xs) == Members(xs[..n]) + {xs[n]};
      assert xs[n] !in xs[..n];
    }
  }

  lemma UnionSize(a: set<nat>, b: set<nat>, c: set<nat>)
    requires a == b + c && b !! c
    ensures |a| == |b| + |c|
  {}

  lemma SubsetSize(a: set<nat>, b: set<nat>)
    requires a <= b
    ensures |a| <= |b|
    ensures |a| == |b| ==> a == b
    ensures |b - a| == |b| - |a|
  {
    assert b == a + (b - a);
  }
}
