/** Sequence facts shared by the components: multisets, distinctness, permutation. */
module Seqs {

  datatype Option<+T> = None | Some(value: T)

  ghost predicate Distinct<T(!new)>(s: seq<T>)
  {
    forall i, j :: 0 <= i < j < |s| ==> s[i] != s[j]
  }

  /** The sequence without the element at position i. */
  function RemoveAt<T>(s: seq<T>, i: nat): (t: seq<T>)
    requires i < |s|
    ensures |t| == |s| - 1
  {
    s[..i] + s[i + 1..]
  }

  lemma RemoveAtMultiset<T>(s: seq<T>, i: nat)
    requires i < |s|
    ensures multiset(s) == multiset(RemoveAt(s, i)) + multiset{s[i]}
  {
    assert s == s[..i] + [s[i]] + s[i + 1..];
  }

  lemma SnocMultiset<T>(s: seq<T>)
    requires s != []
    ensures multiset(s) == multiset(s[..|s| - 1]) + multiset{s[|s| - 1]}
  {
    assert s == s[..|s| - 1] + [s[|s| - 1]];
  }

  lemma DistinctConcat<T(!new)>(a: seq<T>, b: seq<T>)
    requires Distinct(a) && Distinct(b) && forall x :: x in a ==> x !in b
    ensures Distinct(a + b)
  {
    forall i, j | 0 <= i < j < |a + b| ensures (a + b)[i] != (a + b)[j] {
      if i < |a| <= j {
        assert a[i] in a && b[j - |a|] in b;
      }
    }
  }

  /** A distinct sequence holds each of its elements once. */
  lemma {:induction false} DistinctOnce<T(!new)>(s: seq<T>, x: T)
    requires Distinct(s)
    ensures multiset(s)[x] == if x in s then 1 else 0
  {
    if s != [] {
      var t := s[..|s| - 1];
      DistinctOnce(t, x);
      SnocMultiset(s);
      assert forall y :: y in s <==> y in t || y == s[|s| - 1];
      assert s[|s| - 1] !in t;
    }
  }

  /** A permutation of a distinct sequence is distinct. */
  lemma PermutationDistinct<T(!new)>(s: seq<T>, t: seq<T>)
    requires Distinct(s) && multiset(s) == multiset(t)
    ensures Distinct(t)
  {
    forall i, j | 0 <= i < j < |t| ensures t[i] != t[j] {
      if t[i] == t[j] {
        RemoveAtMultiset(t, j);
        assert t[i] == RemoveAt(t, j)[i];
        assert multiset(t)[t[i]] >= 2;
        DistinctOnce(s, t[i]);
      }
    }
  }

  /** Distinct sequences over the same elements are permutations of each other. */
  lemma DistinctPermutation<T(!new)>(s: seq<T>, t: seq<T>)
    requires Distinct(s) && Distinct(t)
    requires forall x :: x in s <==> x in t
    ensures multiset(s) == multiset(t)
  {
    forall x ensures multiset(s)[x] == multiset(t)[x] {
      DistinctOnce(s, x);
      DistinctOnce(t, x);
    }
  }

  lemma MapRemoveAt<A, B>(f: A -> B, s: seq<A>, i: nat)
    requires i < |s|
    ensures multiset(Map(f, s)) == multiset(Map(f, RemoveAt(s, i))) + multiset{f(s[i])}
  {
    assert RemoveAt(Map(f, s), i) == Map(f, RemoveAt(s, i));
    RemoveAtMultiset(Map(f, s), i);
  }

  /** An occurrence of x in both sides can be removed from a permutation. */
  lemma PermutationRemove<T>(s: seq<T>, t: seq<T>) returns (i: nat)
    requires s != [] && multiset(s) == multiset(t)
    ensures i < |t| && t[i] == s[0] && multiset(RemoveAt(s, 0)) == multiset(RemoveAt(t, i))
  {
    assert s[0] in multiset(t);
    i :| 0 <= i < |t| && t[i] == s[0];
    RemoveAtMultiset(s, 0);
    RemoveAtMultiset(t, i);
    assert multiset(RemoveAt(s, 0)) == multiset(s) - multiset{s[0]};
    assert multiset(RemoveAt(t, i)) == multiset(t) - multiset{s[0]};
  }

  /** Mapping a function keeps permutations permutations. */
  lemma {:induction false} MapPermutation<A, B>(f: A -> B, s: seq<A>, t: seq<A>)
    requires multiset(s) == multiset(t)
    ensures multiset(Map(f, s)) == multiset(Map(f, t))
  {
    if s == [] {
      assert |multiset(t)| == 0;
      assert t == [];
    } else {
      var i := PermutationRemove(s, t);
      MapPermutation(f, RemoveAt(s, 0), RemoveAt(t, i));
      MapRemoveAt(f, s, 0);
      MapRemoveAt(f, t, i);
    }
  }

  function Map<A, B>(f: A -> B, s: seq<A>): (t: seq<B>)
    ensures |t| == |s| && forall i :: 0 <= i < |s| ==> t[i] == f(s[i])
  {
    seq(|s|, i requires 0 <= i < |s| => f(s[i]))
  }

  /** The elements satisfying p, in order. */
  function Filter<T>(p: T -> bool, s: seq<T>): seq<T>
  {
    if s == [] then []
    else
      var t := Filter(p, s[..|s| - 1]);
      if p(s[|s| - 1]) then t + [s[|s| - 1]] else t
  }

  lemma {:induction false} FilterMember<T>(p: T -> bool, s: seq<T>, x: T)
    ensures x in Filter(p, s) <==> x in s && p(x)
  {
    if s != [] {
      FilterMember(p, s[..|s| - 1], x);
      assert x in s <==> x in s[..|s| - 1] || x == s[|s| - 1];
    }
  }

  lemma FilterMembers<T(!new)>(p: T -> bool, s: seq<T>)
    ensures forall x :: x in Filter(p, s) <==> x in s && p(x)
  {
    forall x ensures x in Filter(p, s) <==> x in s && p(x) {
      FilterMember(p, s, x);
    }
  }

  lemma {:induction false} FilterConcat<T(!new)>(p: T -> bool, a: seq<T>, b: seq<T>)
    ensures Filter(p, a + b) == Filter(p, a) + Filter(p, b)
  {
    if b == [] {
      assert a + b == a;
    } else {
      assert (a + b)[..|a + b| - 1] == a + b[..|b| - 1];
      FilterConcat(p, a, b[..|b| - 1]);
    }
  }

  lemma {:induction false} FilterMultiset<T(!new)>(p: T -> bool, s: seq<T>, x: T)
    ensures multiset(Filter(p, s))[x] == if p(x) then multiset(s)[x] else 0
  {
    if s != [] {
      FilterMultiset(p, s[..|s| - 1], x);
      SnocMultiset(s);
    }
  }

  lemma FilterPermutation<T(!new)>(p: T -> bool, s: seq<T>, t: seq<T>)
    requires multiset(s) == multiset(t)
    ensures multiset(Filter(p, s)) == multiset(Filter(p, t))
  {
    forall x ensures multiset(Filter(p, s))[x] == multiset(Filter(p, t))[x] {
      FilterMultiset(p, s, x);
      FilterMultiset(p, t, x);
    }
  }

  lemma {:induction false} FilterDistinct<T(!new)>(p: T -> bool, s: seq<T>)
    requires Distinct(s)
    ensures Distinct(Filter(p, s))
  {
    if s != [] {
      FilterDistinct(p, s[..|s| - 1]);
      FilterMember(p, s[..|s| - 1], s[|s| - 1]);
    }
  }

  lemma {:induction false} FilterAgree<T(!new)>(p: T -> bool, q: T -> bool, s: seq<T>)
    requires forall x :: x in s ==> p(x) == q(x)
    ensures Filter(p, s) == Filter(q, s)
  {
    if s != [] {
      FilterAgree(p, q, s[..|s| - 1]);
    }
  }

  /** Filtering with a weaker condition first changes nothing. */
  lemma {:induction false} FilterTwice<T(!new)>(p: T -> bool, q: T -> bool, s: seq<T>)
    requires forall x :: x in s && p(x) ==> q(x)
    ensures Filter(p, Filter(q, s)) == Filter(p, s)
  {
    if s != [] {
      var rest, last := s[..|s| - 1], s[|s| - 1];
      assert forall x :: x in rest ==> x in s;
      assert last in s;
      FilterTwice(p, q, rest);
      if q(last) {
        assert (Filter(q, rest) + [last])[..|Filter(q, rest)|] == Filter(q, rest);
      }
    }
  }

  /** The concatenation of f over the elements. */
  function Flat<A, B>(f: A -> seq<B>, s: seq<A>): seq<B>
  {
    if s == [] then [] else Flat(f, s[..|s| - 1]) + f(s[|s| - 1])
  }

  lemma FlatSnoc<A, B>(f: A -> seq<B>, s: seq<A>, x: A)
    ensures Flat(f, s + [x]) == Flat(f, s) + f(x)
  {
    assert (s + [x])[..|s|] == s;
  }

  lemma {:induction false} FlatConcat<A, B>(f: A -> seq<B>, a: seq<A>, b: seq<A>)
    ensures Flat(f, a + b) == Flat(f, a) + Flat(f, b)
  {
    if b == [] {
      assert a + b == a;
    } else {
      assert (a + b)[..|a + b| - 1] == a + b[..|b| - 1];
      FlatConcat(f, a, b[..|b| - 1]);
    }
  }

  /** Taking f at one position to the end changes no multiplicity. */
  lemma {:induction false} FlatRemoveAt<A, B>(f: A -> seq<B>, s: seq<A>, i: nat)
    requires i < |s|
    ensures multiset(Flat(f, s)) == multiset(Flat(f, RemoveAt(s, i))) + multiset(f(s[i]))
  {
    var n := |s| - 1;
    if i == n {
      assert RemoveAt(s, i) == s[..n];
    } else {
      FlatRemoveAt(f, s[..n], i);
      assert RemoveAt(s, i)[..n - 1] == RemoveAt(s[..n], i);
    }
  }

  lemma {:induction false} FlatPermutation<A, B>(f: A -> seq<B>, s: seq<A>, t: seq<A>)
    requires multiset(s) == multiset(t)
    ensures multiset(Flat(f, s)) == multiset(Flat(f, t))
  {
    if s == [] {
      assert |multiset(t)| == 0;
      assert t == [];
    } else {
      var i := PermutationRemove(s, t);
      FlatPermutation(f, RemoveAt(s, 0), RemoveAt(t, i));
      FlatRemoveAt(f, s, 0);
      FlatRemoveAt(f, t, i);
    }
  }

  lemma {:induction false} FlatMember<A(!new), B>(f: A -> seq<B>, s: seq<A>, y: B)
    ensures y in Flat(f, s) <==> exists x :: x in s && y in f(x)
  {
    if s != [] {
      FlatMember(f, s[..|s| - 1], y);
      assert forall x :: x in s <==> x in s[..|s| - 1] || x == s[|s| - 1];
    }
  }

  // ---- Sums ----

  function Sum<T>(f: T -> nat, s: seq<T>): nat
  {
    if s == [] then 0 else Sum(f, s[..|s| - 1]) + f(s[|s| - 1])
  }

  lemma SumSnoc<T>(f: T -> nat, s: seq<T>, x: T)
    ensures Sum(f, s + [x]) == Sum(f, s) + f(x)
  {
    assert (s + [x])[..|s|] == s;
  }

  lemma {:induction false} SumConcat<T>(f: T -> nat, a: seq<T>, b: seq<T>)
    ensures Sum(f, a + b) == Sum(f, a) + Sum(f, b)
  {
    if b == [] {
      assert a + b == a;
    } else {
      assert (a + b)[..|a + b| - 1] == a + b[..|b| - 1];
      SumConcat(f, a, b[..|b| - 1]);
    }
  }

  lemma {:induction false} SumRemoveAt<T>(f: T -> nat, s: seq<T>, i: nat)
    requires i < |s|
    ensures Sum(f, s) == Sum(f, RemoveAt(s, i)) + f(s[i])
  {
    var n := |s| - 1;
    if i == n {
      assert RemoveAt(s, i) == s[..n];
    } else {
      SumRemoveAt(f, s[..n], i);
      assert RemoveAt(s, i)[..n - 1] == RemoveAt(s[..n], i);
    }
  }

  lemma {:induction false} SumPermutation<T>(f: T -> nat, s: seq<T>, t: seq<T>)
    requires multiset(s) == multiset(t)
    ensures Sum(f, s) == Sum(f, t)
  {
    if s == [] {
      assert |multiset(t)| == 0;
      assert t == [];
    } else {
      var i := PermutationRemove(s, t);
      SumPermutation(f, RemoveAt(s, 0), RemoveAt(t, i));
      SumRemoveAt(f, s, 0);
      SumRemoveAt(f, t, i);
    }
  }

  /** Summing v over mapped elements is summing w over the elements when v(f(x)) is w(x). */
  lemma {:induction false} SumMap<A, B>(v: B -> nat, f: A -> B, w: A -> nat, s: seq<A>)
    requires forall i :: 0 <= i < |s| ==> v(f(s[i])) == w(s[i])
    ensures Sum(v, Map(f, s)) == Sum(w, s)
  {
    if s != [] {
      var rest := s[..|s| - 1];
      SumMap(v, f, w, rest);
      assert Map(f, s)[..|rest|] == Map(f, rest);
    }
  }

  function RealSum<T>(f: T -> real, s: seq<T>): real
  {
    if s == [] then 0.0 else RealSum(f, s[..|s| - 1]) + f(s[|s| - 1])
  }

  lemma RealSumSnoc<T>(f: T -> real, s: seq<T>, x: T)
    ensures RealSum(f, s + [x]) == RealSum(f, s) + f(x)
  {
    assert (s + [x])[..|s|] == s;
  }

  lemma {:induction false} RealSumRemoveAt<T>(f: T -> real, s: seq<T>, i: nat)
    requires i < |s|
    ensures RealSum(f, s) == RealSum(f, RemoveAt(s, i)) + f(s[i])
  {
    var n := |s| - 1;
    if i == n {
      assert RemoveAt(s, i) == s[..n];
    } else {
      RealSumRemoveAt(f, s[..n], i);
      assert RemoveAt(s, i)[..n - 1] == RemoveAt(s[..n], i);
    }
  }

  lemma {:induction false} RealSumPermutation<T>(f: T -> real, s: seq<T>, t: seq<T>)
    requires multiset(s) == multiset(t)
    ensures RealSum(f, s) == RealSum(f, t)
  {
    if s == [] {
      assert |multiset(t)| == 0;
      assert t == [];
    } else {
      var i := PermutationRemove(s, t);
      RealSumPermutation(f, RemoveAt(s, 0), RemoveAt(t, i));
      RealSumRemoveAt(f, s, 0);
      RealSumRemoveAt(f, t, i);
    }
  }
}
