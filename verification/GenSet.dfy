/** The count-bounded set: two generations, the full one becoming the old one. */
module GenSet {
  import opened Seqs

  datatype Gens = Gens(cur: set<string>, aged: set<string>)

  const EMPTY := Gens({}, {})

  /** The generations after an Add, and whether the key was new. */
  function AddTo(g: Gens, max: nat, key: string): (Gens, bool)
  {
    if key in g.cur || key in g.aged then (g, false)
    else if |g.cur + {key}| >= max then (Gens({}, g.cur + {key}), true)
    else (Gens(g.cur + {key}, g.aged), true)
  }

  // ---- The tracked keys are the most recently accepted ones ----

  function After(max: nat, keys: seq<string>): Gens
  {
    if keys == [] then EMPTY else AddTo(After(max, keys[..|keys| - 1]), max, keys[|keys| - 1]).0
  }

  /** The keys accepted as new, in order. */
  function Accepted(max: nat, keys: seq<string>): seq<string>
  {
    if keys == [] then []
    else
      var rest, key := keys[..|keys| - 1], keys[|keys| - 1];
      Accepted(max, rest) + if AddTo(After(max, rest), max, key).1 then [key] else []
  }

  function Tracked(g: Gens): nat { |g.cur| + |g.aged| }

  function Elems(s: seq<string>): set<string> { set k | k in s }

  function Last(s: seq<string>, n: nat): seq<string>
    requires n <= |s|
  {
    s[|s| - n..]
  }

  /** The accepted keys end with `older` and then `young`, the contents of the two generations. */
  ghost predicate Shape(max: nat, g: Gens, acc: seq<string>, older: seq<string>, young: seq<string>)
  {
    && |young| < max && |older| == (if |acc| < max then 0 else max)
    && (|acc| < max ==> |young| == |acc|)
    && |older + young| <= |acc| && Last(acc, |older + young|) == older + young
    && Distinct(older + young)
    && g.cur == Elems(young) && |g.cur| == |young|
    && g.aged == Elems(older) && |g.aged| == |older|
  }

  lemma ElemsSnoc(s: seq<string>, x: string)
    ensures Elems(s + [x]) == Elems(s) + {x}
  {}

  lemma DistinctSnoc(a: seq<string>, b: seq<string>, key: string)
    requires Distinct(a + b) && key !in Elems(a) && key !in Elems(b)
    ensures Distinct(a + (b + [key])) && Distinct(b + [key])
  {
    var s := a + (b + [key]);
    assert forall i :: 0 <= i < |a + b| ==> s[i] == (a + b)[i];
    assert forall i :: 0 <= i < |b + [key]| ==> s[|a| + i] == (b + [key])[i];
    forall i, j | 0 <= i < j < |s| ensures s[i] != s[j] {
      assert s[i] in a || s[i] in b;
    }
    forall i, j | 0 <= i < j < |b + [key]| ensures (b + [key])[i] != (b + [key])[j] {
      assert s[|a| + i] != s[|a| + j];
    }
  }

  lemma AddKeeps(max: nat, g: Gens, acc: seq<string>, older: seq<string>, young: seq<string>, key: string)
    returns (older': seq<string>, young': seq<string>)
    requires max >= 1 && Shape(max, g, acc, older, young)
    ensures var (g', isNew) := AddTo(g, max, key);
            Shape(max, g', if isNew then acc + [key] else acc, older', young')
  {
    hide Shape;
    older', young' := older, young;
    if AddTo(g, max, key).1 {
      Grow(max, g, acc, older, young, key);
      if |g.cur + {key}| >= max {
        Rotate(max, g, acc, older, young, key);
        older', young' := young + [key], [];
      } else {
        young' := young + [key];
      }
    }
  }

  /** What holds of the two sequences after accepting a key, before any rotation. */
  lemma Grow(max: nat, g: Gens, acc: seq<string>, older: seq<string>, young: seq<string>, key: string)
    requires max >= 1 && Shape(max, g, acc, older, young) && key !in g.cur && key !in g.aged
    ensures |g.cur + {key}| == |young| + 1 && g.cur + {key} == Elems(young + [key])
    ensures |young| + 1 < max ==> Shape(max, Gens(g.cur + {key}, g.aged), acc + [key], older, young + [key])
  {
    hide Distinct, Last, Elems;
    DistinctSnoc(older, young, key);
    ElemsSnoc(young, key);
    LastSnoc(acc, older + young, key);
    assert older + young + [key] == older + (young + [key]);
  }

  lemma LastSnoc(acc: seq<string>, t: seq<string>, key: string)
    requires |t| <= |acc| && Last(acc, |t|) == t
    ensures Last(acc + [key], |t| + 1) == t + [key]
  {
    assert Last(acc + [key], |t| + 1) == Last(acc, |t|) + [key];
  }

  lemma LastSuffix(acc: seq<string>, a: seq<string>, b: seq<string>)
    requires |a + b| <= |acc| && Last(acc, |a + b|) == a + b
    ensures Last(acc, |b|) == b
  {
    assert Last(acc, |b|) == (a + b)[|a|..];
  }

  lemma Rotate(max: nat, g: Gens, acc: seq<string>, older: seq<string>, young: seq<string>, key: string)
    requires max >= 1 && Shape(max, g, acc, older, young) && key !in g.cur && key !in g.aged
    requires |g.cur + {key}| >= max
    ensures Shape(max, Gens({}, g.cur + {key}), acc + [key], young + [key], [])
  {
    hide Distinct, Last, Elems;
    DistinctSnoc(older, young, key);
    ElemsSnoc(young, key);
    LastSuffix(acc, older, young);
    LastSnoc(acc, young, key);
    assert young + [key] + [] == young + [key];
    NoElems();
  }

  lemma NoElems()
    ensures Elems([]) == {}
  {}

  lemma {:induction false} RunKeeps(max: nat, keys: seq<string>) returns (older: seq<string>, young: seq<string>)
    requires max >= 1
    ensures Shape(max, After(max, keys), Accepted(max, keys), older, young)
  {
    hide Shape, AddTo;
    if keys == [] {
      older, young := [], [];
      EmptyHolds(max);
    } else {
      var rest := keys[..|keys| - 1];
      older, young := RunKeeps(max, rest);
      older, young := AddKeeps(max, After(max, rest), Accepted(max, rest), older, young, keys[|keys| - 1]);
      assert Accepted(max, rest) + [] == Accepted(max, rest);
    }
  }

  lemma EmptyHolds(max: nat)
    requires max >= 1
    ensures Shape(max, EMPTY, [], [], [])
  {
    assert Elems([]) == {};
  }

  /** After any run, the tracked keys are exactly the last `Tracked` accepted ones, without repetition. */
  lemma SuffixTracked(max: nat, keys: seq<string>)
    requires max >= 1
    ensures var g, acc := After(max, keys), Accepted(max, keys);
            var n := Tracked(g);
            && (if |acc| < max then |acc| else max) <= n < 2 * max && n <= |acc|
            && g.cur + g.aged == Elems(Last(acc, n))
            && Distinct(Last(acc, n))
  {
    hide After, Accepted, Distinct;
    var older, young := RunKeeps(max, keys);
  }

  /** Between two acceptances of the same key at least `max` other keys were accepted. */
  lemma {:induction false} NoRecentRepeat(max: nat, keys: seq<string>, i: nat, j: nat)
    requires max >= 1 && i < j < |Accepted(max, keys)|
    requires Accepted(max, keys)[i] == Accepted(max, keys)[j]
    ensures j - i > max
  {
    hide After, AddTo;
    var rest, key := keys[..|keys| - 1], keys[|keys| - 1];
    var acc := Accepted(max, rest);
    if j < |acc| {
      NoRecentRepeat(max, rest, i, j);
    } else {
      SuffixTracked(max, rest);
      var n := Tracked(After(max, rest));
      RefusesTracked(After(max, rest), max, key);
      assert key !in Last(acc, n);
      LastMember(acc, n, i);
    }
  }

  lemma LastMember(acc: seq<string>, n: nat, i: nat)
    requires n <= |acc| && i < |acc|
    ensures i >= |acc| - n ==> acc[i] in Last(acc, n)
  {
    if i >= |acc| - n {
      assert Last(acc, n)[i - (|acc| - n)] == acc[i];
    }
  }

  lemma RefusesTracked(g: Gens, max: nat, key: string)
    ensures AddTo(g, max, key).1 <==> key !in g.cur + g.aged
  {}

  // ---- The set ----

  class Set {
    var cur: set<string>
    var aged: set<string>
    const max: nat
    /** The keys accepted so far, and the ends of that list the two generations hold. */
    ghost var accepted: seq<string>
    ghost var older: seq<string>
    ghost var young: seq<string>

    ghost predicate Valid()
      reads this
    {
      max >= 1 && Shape(max, View(), accepted, older, young)
    }

    function View(): Gens
      reads this
    {
      Gens(cur, aged)
    }

    constructor (max: int)
      ensures Valid() && View() == EMPTY && accepted == [] && this.max == if max < 1 then 1 else max
    {
      hide Shape;
      cur, aged := {}, {};
      accepted, older, young := [], [], [];
      this.max := if max < 1 then 1 else max;
      new;
      EmptyHolds(this.max);
    }

    /** New unless tracked; afterwards the key is the latest accepted one. */
    method Add(key: string) returns (isNew: bool)
      requires Valid()
      modifies this
      ensures Valid()
      ensures (View(), isNew) == AddTo(old(View()), max, key)
      ensures isNew <==> key !in old(cur) + old(aged)
      ensures accepted == if isNew then old(accepted) + [key] else old(accepted)
    {
      hide Shape;
      older, young := AddKeeps(max, View(), accepted, older, young, key);
      if key in cur {
        return false;
      }
      if key in aged {
        return false;
      }
      cur := cur + {key};
      accepted := accepted + [key];
      if |cur| >= max {
        aged := cur;
        cur := {};
      }
      isNew := true;
    }

    /** All keys accepted so far while they are at most max, then at least max and fewer than twice that. */
    method Len() returns (n: nat)
      requires Valid()
      ensures |accepted| < max ==> n == |accepted|
      ensures |accepted| >= max ==> max <= n < 2 * max && n <= |accepted|
      ensures n <= |accepted| && cur + aged == Elems(Last(accepted, n))
    {
      hide Distinct;
      n := |cur| + |aged|;
    }
  }
}
