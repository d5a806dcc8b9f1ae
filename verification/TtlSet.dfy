/** The time-bounded set: keys expire after a time-to-live, and a sweep every so often deletes expired ones. */
module TtlSet {

  const SWEEP_EVERY: nat := 512

  /** Each tracked key's expiry, and the accepted adds since the last sweep. */
  datatype Ttl = Ttl(exp: map<string, int>, ops: nat)

  const EMPTY := Ttl(map[], 0)

  function Unexpired(exp: map<string, int>, now: int): map<string, int>
  {
    map k | k in exp && now < exp[k] :: exp[k]
  }

  /** The set after an Add at `now`, and whether the key was new. */
  function AddAt(t: Ttl, ttl: int, key: string, now: int): (Ttl, bool)
  {
    if key in t.exp && now < t.exp[key] then (t, false)
    else
      var exp := t.exp[key := now + ttl];
      if t.ops + 1 < SWEEP_EVERY then (Ttl(exp, t.ops + 1), true)
      else (Ttl(Unexpired(exp, now), 0), true)
  }

  class Set {
    const ttl: int
    var exp: map<string, int>
    var ops: nat

    constructor (ttl: int)
      ensures View() == EMPTY && this.ttl == ttl
    {
      this.ttl := ttl;
      exp, ops := map[], 0;
    }

    function View(): Ttl
      reads this
    {
      Ttl(exp, ops)
    }

    method Add(key: string, now: int) returns (isNew: bool)
      modifies this
      ensures (View(), isNew) == AddAt(old(View()), ttl, key, now)
    {
      if key in exp && now < exp[key] {
        return false;
      }
      exp := exp[key := now + ttl];
      Sweep(now);
      isNew := true;
    }

    method Remove(key: string)
      modifies this
      ensures View() == old(View()).(exp := old(exp) - {key})
    {
      exp := exp - {key};
    }

    /** Deletes the expired keys, every SWEEP_EVERY calls. */
    method Sweep(now: int)
      modifies this
      ensures View() == if old(ops) + 1 < SWEEP_EVERY then Ttl(old(exp), old(ops) + 1) else Ttl(Unexpired(old(exp), now), 0)
    {
      ops := ops + 1;
      if ops < SWEEP_EVERY {
        return;
      }
      ops := 0;
      var todo := exp.Keys;
      while todo != {}
        invariant todo <= exp.Keys && ops == 0
        invariant forall k :: k in exp <==> k in old(exp) && (k in todo || now < old(exp)[k])
        invariant forall k :: k in exp ==> exp[k] == old(exp)[k]
        decreases todo
      {
        var k :| k in todo;
        todo := todo - {k};
        if !(now < exp[k]) {
          exp := exp - {k};
        }
      }
      assert exp == Unexpired(old(exp), now);
    }
  }

  // ---- The meaning: the whole history of calls ----

  datatype Call = Add(key: string, now: int) | Remove(key: string)

  /** When an Add's key expires. */
  function Until(ttl: int, c: Call): int { if c.Add? then c.now + ttl else 0 }

  /** The set after the first n calls. */
  function After(ttl: int, calls: seq<Call>, n: nat): Ttl
    requires n <= |calls|
  {
    if n == 0 then EMPTY
    else
      var t := After(ttl, calls, n - 1);
      match calls[n - 1]
      case Add(key, now) => AddAt(t, ttl, key, now).0
      case Remove(key) => t.(exp := t.exp - {key})
  }

  /** Call i is an accepted Add of `key` that no Remove before call n takes back. */
  ghost predicate Stands(ttl: int, calls: seq<Call>, i: nat, n: nat, key: string)
    requires n <= |calls|
    decreases i, 1
  {
    && i < n && calls[i].Add? && calls[i].key == key && Accepts(ttl, calls, i)
    && forall r :: i < r < n ==> calls[r] != Remove(key)
  }

  /** Call n is an Add and no standing Add of its key is less than ttl ago. */
  ghost predicate Accepts(ttl: int, calls: seq<Call>, n: nat)
    requires n < |calls|
    decreases n, 0
  {
    && calls[n].Add?
    && forall i :: 0 <= i < n && Stands(ttl, calls, i, n, calls[n].key) ==> calls[n].now >= Until(ttl, calls[i])
  }

  ghost predicate ClockOk(calls: seq<Call>)
  {
    forall i, j :: 0 <= i < j < |calls| && calls[i].Add? && calls[j].Add? ==> calls[i].now <= calls[j].now
  }

  /** Some Add before call n was at or after e. */
  ghost predicate Past(calls: seq<Call>, n: nat, e: int)
    requires n <= |calls|
  {
    exists m :: 0 <= m < n && calls[m].Add? && e <= calls[m].now
  }

  /** Every expiry is that of a standing Add; every standing Add is tracked or past. */
  ghost predicate Inv(ttl: int, calls: seq<Call>, n: nat, exp: map<string, int>)
    requires n <= |calls|
  {
    && (forall k :: k in exp ==> exists i :: 0 <= i < n && Stands(ttl, calls, i, n, k) && exp[k] == Until(ttl, calls[i]))
    && (forall i: nat, k :: i < n && Stands(ttl, calls, i, n, k) ==>
      (k in exp && exp[k] >= Until(ttl, calls[i])) || Past(calls, n, Until(ttl, calls[i])))
  }

  lemma StandsNext(ttl: int, calls: seq<Call>, i: nat, n: nat, key: string)
    requires i <= n < |calls|
    ensures Stands(ttl, calls, i, n + 1, key) <==>
            if i < n then Stands(ttl, calls, i, n, key) && calls[n] != Remove(key)
            else calls[n].Add? && calls[n].key == key && Accepts(ttl, calls, n)
  {
    hide Accepts;
  }

  lemma PastNext(calls: seq<Call>, n: nat, e: int)
    requires n < |calls|
    ensures Past(calls, n, e) ==> Past(calls, n + 1, e)
    ensures calls[n].Add? && e <= calls[n].now ==> Past(calls, n + 1, e)
  {}

  lemma AnswerRight(ttl: int, calls: seq<Call>, n: nat, t: Ttl)
    requires ClockOk(calls) && n < |calls| && calls[n].Add? && Inv(ttl, calls, n, t.exp)
    ensures AddAt(t, ttl, calls[n].key, calls[n].now).1 <==> Accepts(ttl, calls, n)
  {
    hide Stands;
    var key, now := calls[n].key, calls[n].now;
    if key in t.exp && now < t.exp[key] {
      var i :| 0 <= i < n && Stands(ttl, calls, i, n, key) && t.exp[key] == Until(ttl, calls[i]);
    } else {
      forall i | 0 <= i < n && Stands(ttl, calls, i, n, key) ensures now >= Until(ttl, calls[i]) {
        assert (key in t.exp && t.exp[key] >= Until(ttl, calls[i])) || Past(calls, n, Until(ttl, calls[i]));
      }
    }
  }

  lemma RemoveKeeps(ttl: int, calls: seq<Call>, n: nat, exp: map<string, int>)
    requires n < |calls| && calls[n].Remove? && Inv(ttl, calls, n, exp)
    ensures Inv(ttl, calls, n + 1, exp - {calls[n].key})
  {
    hide Stands, Past;
    var e := exp - {calls[n].key};
    forall k | k in e ensures exists i :: 0 <= i < n + 1 && Stands(ttl, calls, i, n + 1, k) && e[k] == Until(ttl, calls[i]) {
      var i :| 0 <= i < n && Stands(ttl, calls, i, n, k) && exp[k] == Until(ttl, calls[i]);
      StandsNext(ttl, calls, i, n, k);
    }
    forall i: nat, k | i < n + 1 && Stands(ttl, calls, i, n + 1, k)
      ensures (k in e && e[k] >= Until(ttl, calls[i])) || Past(calls, n + 1, Until(ttl, calls[i]))
    {
      StandsNext(ttl, calls, i, n, k);
      PastNext(calls, n, Until(ttl, calls[i]));
    }
  }

  lemma RefusedKeeps(ttl: int, calls: seq<Call>, n: nat, exp: map<string, int>)
    requires n < |calls| && calls[n].Add? && !Accepts(ttl, calls, n) && Inv(ttl, calls, n, exp)
    ensures Inv(ttl, calls, n + 1, exp)
  {
    hide Stands, Past, Accepts;
    forall k | k in exp ensures exists i :: 0 <= i < n + 1 && Stands(ttl, calls, i, n + 1, k) && exp[k] == Until(ttl, calls[i]) {
      var i :| 0 <= i < n && Stands(ttl, calls, i, n, k) && exp[k] == Until(ttl, calls[i]);
      StandsNext(ttl, calls, i, n, k);
    }
    forall i: nat, k | i < n + 1 && Stands(ttl, calls, i, n + 1, k)
      ensures (k in exp && exp[k] >= Until(ttl, calls[i])) || Past(calls, n + 1, Until(ttl, calls[i]))
    {
      StandsNext(ttl, calls, i, n, k);
      PastNext(calls, n, Until(ttl, calls[i]));
    }
  }

  /** e is what an accepted Add leaves, with any of the keys expired by then swept. */
  lemma AcceptedKeeps(ttl: int, calls: seq<Call>, n: nat, exp: map<string, int>, e: map<string, int>)
    requires n < |calls| && calls[n].Add? && Accepts(ttl, calls, n) && Inv(ttl, calls, n, exp)
    requires var all := exp[calls[n].key := calls[n].now + ttl];
             && (forall k :: k in e ==> k in all && e[k] == all[k])
             && (forall k :: k in all && k !in e ==> all[k] <= calls[n].now)
    ensures Inv(ttl, calls, n + 1, e)
  {
    hide Stands, Past;
    var key, now := calls[n].key, calls[n].now;
    forall k | k in e ensures exists i :: 0 <= i < n + 1 && Stands(ttl, calls, i, n + 1, k) && e[k] == Until(ttl, calls[i]) {
      if k == key {
        StandsNext(ttl, calls, n, n, k);
      } else {
        var i :| 0 <= i < n && Stands(ttl, calls, i, n, k) && exp[k] == Until(ttl, calls[i]);
        StandsNext(ttl, calls, i, n, k);
      }
    }
    forall i: nat, k | i < n + 1 && Stands(ttl, calls, i, n + 1, k)
      ensures (k in e && e[k] >= Until(ttl, calls[i])) || Past(calls, n + 1, Until(ttl, calls[i]))
    {
      StandsNext(ttl, calls, i, n, k);
      PastNext(calls, n, Until(ttl, calls[i]));
      StandsKey(ttl, calls, i, n + 1, k);
    }
  }

  lemma StandsKey(ttl: int, calls: seq<Call>, i: nat, n: nat, key: string)
    requires n <= |calls| && Stands(ttl, calls, i, n, key)
    ensures i < n && calls[i].Add? && calls[i].key == key
  {}

  lemma {:induction false} RunKeeps(ttl: int, calls: seq<Call>, n: nat)
    requires n <= |calls| && ClockOk(calls)
    ensures Inv(ttl, calls, n, After(ttl, calls, n).exp)
  {
    hide Inv, Accepts, ClockOk;
    if n == 0 {
      EmptyHolds(ttl, calls);
    } else {
      var t := After(ttl, calls, n - 1);
      RunKeeps(ttl, calls, n - 1);
      match calls[n - 1]
      case Remove(key) => RemoveKeeps(ttl, calls, n - 1, t.exp);
      case Add(key, now) =>
        AnswerRight(ttl, calls, n - 1, t);
        if Accepts(ttl, calls, n - 1) {
          AcceptedKeeps(ttl, calls, n - 1, t.exp, After(ttl, calls, n).exp);
        } else {
          RefusedKeeps(ttl, calls, n - 1, t.exp);
        }
    }
  }

  lemma EmptyHolds(ttl: int, calls: seq<Call>)
    ensures Inv(ttl, calls, 0, map[])
  {}

  /** With a clock that never steps back, Add answers as the whole history says, whatever was swept. */
  lemma AddMatchesHistory(ttl: int, calls: seq<Call>, n: nat)
    requires ClockOk(calls) && n < |calls| && calls[n].Add?
    ensures AddAt(After(ttl, calls, n), ttl, calls[n].key, calls[n].now).1 <==> Accepts(ttl, calls, n)
  {
    hide Inv, Accepts, ClockOk;
    RunKeeps(ttl, calls, n);
    AnswerRight(ttl, calls, n, After(ttl, calls, n));
  }

  /** One key at time 0, another at 1, 2, … until the sweep at the 512th add, then the first again with the clock back at 0. */
  function BackCalls(): seq<Call>
  {
    seq(513, i => if 0 < i < 512 then Add("x", i) else Add("k", 0))
  }

  lemma {:induction false} BeforeSweep(n: nat)
    requires 2 <= n < 512
    ensures After(1, BackCalls(), n) == Ttl(map["k" := 1, "x" := n], n)
  {
    var calls := BackCalls();
    assert calls[0] == Add("k", 0) && calls[1] == Add("x", 1);
    if n == 2 {
      assert After(1, calls, 0) == EMPTY;
      assert After(1, calls, 1) == Ttl(map["k" := 1], 1);
    } else {
      BeforeSweep(n - 1);
      assert calls[n - 1] == Add("x", n - 1);
    }
  }

  /** With a clock that steps back, a swept key is accepted again within its time-to-live; one add earlier it is not. */
  lemma BackwardClockForgets()
    ensures var calls := BackCalls();
            && !ClockOk(calls) && !Accepts(1, calls, 512)
            && AddAt(After(1, calls, 512), 1, "k", 0).1 && !AddAt(After(1, calls, 511), 1, "k", 0).1
  {
    var calls, n := BackCalls(), 512;
    BeforeSweep(n - 1);
    assert calls[n - 1] == Add("x", n - 1) && calls[n] == Add("k", 0);
    assert "k" !in After(1, calls, n).exp;
    assert calls[n - 1].now > calls[n].now;
    assert calls[0] == Add("k", 0) && Accepts(1, calls, 0);
    assert Stands(1, calls, 0, n, "k");
  }
}
