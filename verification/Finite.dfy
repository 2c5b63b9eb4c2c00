/** Counting facts about sequences without repetition and finite sets. */
module Finite {
  ghost predicate Distinct<T>(s: seq<T>) {
    forall i, j :: 0 <= i < j < |s| ==> s[i] != s[j]
  }

  lemma {:induction false} DistinctWithin<T>(s: seq<T>, all: set<T>)
    requires Distinct(s)
    requires forall x :: x in s ==> x in all
    ensures |s| <= |all|
  {
    if s != [] {
      DistinctWithin(s[1..], all - {s[0]});
    }
  }

  /** Some number is above every number of a finite set. */
  lemma {:induction false} UnusedNumber(s: set<nat>) returns (n: nat)
    ensures forall k :: k in s ==> k < n
  {
    if s == {} {
      return 0;
    }
    var k :| k in s;
    n := UnusedNumber(s - {k});
    assert forall i :: i in s ==> i == k || i in s - {k};
    if n <= k {
      n := k + 1;
    }
  }

  lemma UnionSize<T>(a: set<T>, b: set<T>)
    ensures |a + b| <= |a| + |b|
  {
    assert a + b == a + (b - a);
    assert |b - a| <= |b| by { SubsetSize(b - a, b); }
  }

  lemma {:induction false} SubsetSize<T>(a: set<T>, b: set<T>)
    requires a <= b
    ensures |a| <= |b|
  {
    if a != {} {
      var x :| x in a;
      SubsetSize(a - {x}, b - {x});
    }
  }
}
