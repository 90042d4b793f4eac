/** Counting facts about finite sets and sequences without repeats. */
module Counting {

  ghost predicate Distinct<T>(s: seq<T>) {
    forall i, j :: 0 <= i < j < |s| ==> s[i] != s[j]
  }

  function Elems<T>(s: seq<T>): (r: set<T>) {
    set x | x in s
  }

  lemma {:induction false} DistinctCount<T>(s: seq<T>)
    requires Distinct(s)
    ensures |Elems(s)| == |s|
  {
    if s != [] {
      var n := |s| - 1;
      DistinctCount(s[..n]);
      assert s == s[..n] + [s[n]];
      assert Elems(s) == Elems(s[..n]) + {s[n]};
      assert s[n] !in Elems(s[..n]);
    }
  }

  lemma {:induction false} SubsetCount<T>(a: set<T>, b: set<T>)
    requires a <= b
    ensures |a| <= |b|
  {
    if a != {} {
      var x :| x in a;
      SubsetCount(a - {x}, b - {x});
    }
  }

  /** A function gives no more values than it gets arguments. */
  lemma {:induction false} ImageCount<T, U>(s: set<T>, values: set<U>, f: T -> U)
    requires forall y :: y in values ==> exists x :: x in s && f(x) == y
    ensures |values| <= |s|
    decreases |s|
  {
    if values != {} {
      var y :| y in values;
      var x :| x in s && f(x) == y;
      ImageCount(s - {x}, values - {y}, f);
    }
  }

  /** A reordering of a repeat-free sequence is repeat-free. */
  lemma PermutationDistinct<T>(s: seq<T>, p: seq<T>)
    requires multiset(s) == multiset(p) && Distinct(s)
    ensures Distinct(p)
    ensures Elems(p) == Elems(s)
  {
    forall x | x in p ensures x in s { assert x in multiset(p); }
    forall x | x in s ensures x in p { assert x in multiset(s); }
    forall i, j | 0 <= i < j < |p| ensures p[i] != p[j] {
      if p[i] == p[j] {
        CountTwice(p, i, j);
        CountOnce(s, p[i]);
      }
    }
  }

  lemma CountTwice<T>(p: seq<T>, i: nat, j: nat)
    requires i < j < |p| && p[i] == p[j]
    ensures multiset(p)[p[i]] >= 2
  {
    assert p == p[..j] + [p[j]] + p[j + 1..];
    assert p[i] in p[..j];
    assert multiset(p[..j])[p[i]] >= 1;
  }

  lemma {:induction false} CountOnce<T>(s: seq<T>, x: T)
    requires Distinct(s)
    ensures multiset(s)[x] <= 1
  {
    if s != [] {
      var n := |s| - 1;
      CountOnce(s[..n], x);
      assert s == s[..n] + [s[n]];
      if s[n] == x {
        assert x !in s[..n];
      }
    }
  }
}
