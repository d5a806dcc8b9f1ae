/** Strictly increasing lists of numbers: what sorting a list without repetitions yields. */
module Sorted {

  ghost predicate Increasing(s: seq<nat>)
  {
    forall i, j :: 0 <= i < j < |s| ==> s[i] < s[j]
  }

  /** Adds x at its place; nothing happens when it is already there. */
  function InsertNat(s: seq<nat>, x: nat): (t: seq<nat>)
    requires Increasing(s)
    ensures Increasing(t)
    ensures forall y :: y in t <==> y in s || y == x
    ensures |t| <= |s| + 1
  {
    if s == [] || s[|s| - 1] < x then s + [x]
    else if s[|s| - 1] == x then s
    else
      var rest := s[..|s| - 1];
      var t := InsertNat(rest, x);
      assert forall y :: y in s <==> y in rest || y == s[|s| - 1];
      assert forall i :: 0 <= i < |t| ==> t[i] in rest || t[i] == x;
      t + [s[|s| - 1]]
  }

  function SortNats(s: seq<nat>): (t: seq<nat>)
    ensures Increasing(t)
    ensures forall y :: y in t <==> y in s
  {
    if s == [] then []
    else
      assert forall y :: y in s <==> y in s[..|s| - 1] || y == s[|s| - 1];
      InsertNat(SortNats(s[..|s| - 1]), s[|s| - 1])
  }

  /** An increasing list is determined by its elements. */
  lemma {:induction false} IncreasingUnique(s: seq<nat>, t: seq<nat>)
    requires Increasing(s) && Increasing(t)
    requires forall y :: y in s <==> y in t
    ensures s == t
  {
    if s == [] {
      assert forall i :: 0 <= i < |t| ==> t[i] in s;
    } else {
      var x := s[|s| - 1];
      assert x in t;
      var y := t[|t| - 1];
      assert y in s;
      var i :| 0 <= i < |t| && t[i] == x;
      var j :| 0 <= j < |s| && s[j] == y;
      assert x == y;
      var a, b := s[..|s| - 1], t[..|t| - 1];
      forall z ensures z in a <==> z in b {
        assert z in s <==> z in a || z == x;
        assert z in t <==> z in b || z == x;
      }
      IncreasingUnique(a, b);
    }
  }

  /** More elements make a longer list. */
  lemma {:induction false} IncreasingSubset(a: seq<nat>, b: seq<nat>)
    requires Increasing(a) && Increasing(b)
    requires forall y :: y in a ==> y in b
    ensures |a| <= |b|
  {
    if a == [] {
      return;
    }
    assert a[|a| - 1] in b;
    var x, rest := b[|b| - 1], b[..|b| - 1];
    assert forall y :: y in b <==> y in rest || y == x;
    var a' := if x in a then a[..|a| - 1] else a;
    forall y | y in a' ensures y in rest {
      if x in a {
        var i :| 0 <= i < |a| && a[i] == x;
        var j :| 0 <= j < |b| && b[j] == a[|a| - 1];
        assert a[|a| - 1] == x;
        var k :| 0 <= k < |a'| && a'[k] == y;
        assert a[k] < x;
        assert y in a;
      }
    }
    IncreasingSubset(a', rest);
  }
}
