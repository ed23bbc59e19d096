// Options, sender lists and the counting facts behind every threshold of the protocol.

module Options {
  datatype Option<+T> = None | Some(value: T)
}

module Quorum {

  // Peers are numbered 0..n-1, as the transport numbers them.
  function Peers(n: nat): (s: set<int>)
    ensures forall i :: i in s <==> 0 <= i < n
    ensures |s| == n
  {
    if n == 0 then {} else
      var s := Peers(n - 1);
      assert n - 1 !in s;
      s + {n - 1}
  }

  // No entry repeats an earlier one.
  ghost predicate Distinct<T>(s: seq<T>) {
    s == [] || (s[|s| - 1] !in s[..|s| - 1] && Distinct(s[..|s| - 1]))
  }

  lemma DistinctAppend<T>(s: seq<T>, x: T)
    requires Distinct(s) && x !in s
    ensures Distinct(s + [x])
  {
    assert (s + [x])[..|s|] == s;
  }

  // The same, entry by entry.
  lemma {:induction false} DistinctEntries<T>(s: seq<T>, i: nat, j: nat)
    requires Distinct(s) && i < j < |s|
    ensures s[i] != s[j]
  {
    if j < |s| - 1 {
      DistinctEntries(s[..|s| - 1], i, j);
    } else {
      assert s[i] in s[..|s| - 1];
    }
  }

  lemma SomeElement(s: set<int>)
    requires s != {}
    ensures exists x :: x in s
  {
    if forall x :: x !in s {
      SubsetCount(s, {});
    }
  }

  lemma SubsetCount<T>(a: set<T>, b: set<T>)
    requires a <= b
    ensures |a| <= |b|
  {
    assert b == a + (b - a);
  }

  // The fault model: at most f of the n >= 3f+1 peers are faulty.
  ghost predicate FaultModel(n: nat, f: nat, faulty: set<int>) {
    && n >= 3 * f + 1
    && faulty <= Peers(n)
    && |faulty| <= f
  }

  // More than f peers include one that follows the code.
  lemma SomeCorrect(n: nat, f: nat, faulty: set<int>, a: set<int>) returns (x: int)
    requires FaultModel(n, f, faulty)
    requires a <= Peers(n) && |a| >= f + 1
    ensures x in a && x !in faulty
  {
    if a <= faulty {
      SubsetCount(a, faulty);
      assert false;
    }
    x :| x in a && x !in faulty;
  }

  // Two sets of n-f peers share one that follows the code.
  lemma CommonCorrect(n: nat, f: nat, faulty: set<int>, a: set<int>, b: set<int>) returns (x: int)
    requires FaultModel(n, f, faulty)
    requires a <= Peers(n) && b <= Peers(n)
    requires |a| >= n - f && |b| >= n - f
    ensures x in a && x in b && x !in faulty
  {
    SubsetCount(a + b, Peers(n));
    assert |a + b| == |a| + |b| - |a * b|;
    x := SomeCorrect(n, f, faulty, a * b);
  }

  // Two subsets of a set of k with more than k elements together share one.
  lemma Meet(a: set<int>, b: set<int>, all: set<int>, k: int) returns (x: int)
    requires a <= all && b <= all && |all| <= k && |a| + |b| > k
    ensures x in a && x in b
  {
    SubsetCount(a + b, all);
    assert |a + b| == |a| + |b| - |a * b|;
    SomeElement(a * b);
    x :| x in a * b;
  }

  // Among 2f+1 peers at least f+1 follow the code.
  lemma CorrectAmong(n: nat, f: nat, faulty: set<int>, a: set<int>)
    requires FaultModel(n, f, faulty)
    requires a <= Peers(n)
    ensures |a - faulty| >= |a| - f
  {
    assert a == (a - faulty) + (a * faulty);
    SubsetCount(a * faulty, faulty);
  }

  // A set of k naturals that misses some number below k reaches k or beyond.
  lemma {:induction false} Pigeonhole(s: set<int>, k: nat) returns (z: int)
    requires forall x :: x in s ==> x >= 0
    requires |s| >= k
    requires exists i :: 0 <= i < k && i !in s
    ensures z in s && z >= k
  {
    if forall x :: x in s ==> x < k {
      var i :| 0 <= i < k && i !in s;
      assert s <= Peers(k) - {i};
      SubsetCount(s, Peers(k) - {i});
      assert false;
    }
    z :| z in s && z >= k;
  }
}
