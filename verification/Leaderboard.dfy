/**
 The leaderboard's side of watchset replication: the stored table with its diffs, and the
 server's bounded per-subscriber queues. Wallets are normalized addresses; a number orders
 them as their fixed-width hex text does.
 */
module Leaderboard {
  import opened Effects
  import opened Seqs
  import opened Sorted

  /** A change of the watchset; also the message a subscriber receives. */
  datatype Delta = Delta(added: seq<nat>, removed: seq<nat>)
  {
    predicate Empty() { added == [] && removed == [] }
  }

  function SetOf(s: seq<nat>): set<nat> { set w | w in s }

  /** The elements in increasing order. */
  ghost function SortedOf(s: set<nat>): (t: seq<nat>)
    ensures Increasing(t)
    ensures forall w :: w in t <==> w in s
  {
    if s == {} then []
    else
      var w :| w in s;
      InsertNat(SortedOf(s - {w}), w)
  }

  ghost function DiffOf(before: set<nat>, after: set<nat>): Delta
  {
    Delta(SortedOf(after - before), SortedOf(before - after))
  }

  lemma DiffEmpty(before: set<nat>, after: set<nat>)
    ensures DiffOf(before, after).Empty() <==> before == after
  {
    var d := DiffOf(before, after);
    if d.Empty() {
      forall w ensures w in before <==> w in after {
        assert w in d.added <==> w in after - before;
        assert w in d.removed <==> w in before - after;
      }
    } else {
      assert d.added != [] ==> d.added[0] in after - before;
      assert d.removed != [] ==> d.removed[0] in before - after;
    }
  }

  lemma SortedUnique(list: seq<nat>, s: set<nat>)
    requires forall w :: w in list <==> w in s
    ensures SortNats(list) == SortedOf(s)
  {
    IncreasingUnique(SortNats(list), SortedOf(s));
  }

  /** The elements of a but not of b, collected in any order. */
  method Missing(a: set<nat>, b: set<nat>) returns (list: seq<nat>)
    ensures forall w :: w in list <==> w in a - b
  {
    list := [];
    var todo := a;
    while todo != {}
      invariant todo <= a
      invariant forall w :: w in list <==> w in a - todo - b
      decreases todo
    {
      var w :| w in todo;
      todo := todo - {w};
      if w !in b {
        list := list + [w];
      }
    }
  }

  /** The order and repetitions of the inputs are irrelevant. */
  method Diff(before: seq<nat>, after: seq<nat>) returns (d: Delta)
    ensures d == DiffOf(SetOf(before), SetOf(after))
  {
    var oldSet, newSet := {}, {};
    for i := 0 to |before|
      invariant forall w :: w in oldSet <==> w in before[..i]
    {
      oldSet := oldSet + {before[i]};
    }
    for i := 0 to |after|
      invariant forall w :: w in newSet <==> w in after[..i]
    {
      newSet := newSet + {after[i]};
    }
    assert oldSet == SetOf(before) && newSet == SetOf(after);
    var added := Missing(newSet, oldSet);
    var removed := Missing(oldSet, newSet);
    SortedUnique(added, newSet - oldSet);
    SortedUnique(removed, oldSet - newSet);
    d := Delta(SortNats(added), SortNats(removed));
  }

  // ---- The stored table ----

  /** How the database behaves in one call. */
  datatype Db = Db(readOk: bool, write: Outcome)

  /** The table after Replace and its answer; None is an error, after which the change may still have been committed. */
  ghost function ReplaceOf(table: set<nat>, wallets: seq<nat>, db: Db): (set<nat>, Option<Delta>)
  {
    if wallets == [] then (table, Some(Delta([], [])))
    else if !db.readOk then (table, None)
    else if SetOf(wallets) == table then (table, Some(Delta([], [])))
    else
      match db.write
      case Done => (SetOf(wallets), Some(DiffOf(table, SetOf(wallets))))
      case Failed => (table, None)
      case Unsure => (SetOf(wallets), None)
  }

  class Store {
    var table: set<nat>

    constructor ()
      ensures table == {}
    {
      table := {};
    }

    /** SELECT wallet … ORDER BY wallet. */
    method List() returns (wallets: seq<nat>)
      ensures Increasing(wallets) && SetOf(wallets) == table
    {
      var list := Missing(table, {});
      wallets := SortNats(list);
    }

    method Replace(wallets: seq<nat>, db: Db) returns (r: Option<Delta>)
      modifies this
      ensures (table, r) == ReplaceOf(old(table), wallets, db)
    {
      if |wallets| == 0 {
        return Some(Delta([], []));
      }
      if !db.readOk {
        return None;
      }
      var current := List();
      var d := Diff(current, wallets);
      DiffEmpty(table, SetOf(wallets));
      if d.Empty() {
        return Some(d);
      }
      var tx := table;
      for i := 0 to |d.added|
        invariant forall w :: w in tx <==> w in table || w in d.added[..i]
      {
        tx := tx + {d.added[i]};
      }
      for i := 0 to |d.removed|
        invariant forall w :: w in tx <==> (w in table || w in d.added) && w !in d.removed[..i]
      {
        tx := tx - {d.removed[i]};
      }
      assert d.added[..|d.added|] == d.added && d.removed[..|d.removed|] == d.removed;
      assert d == DiffOf(table, SetOf(wallets));
      assert forall w :: w in tx <==> w in SetOf(wallets);
      if db.write != Failed {
        table := tx;
        assert table == SetOf(wallets);
      }
      r := if db.write == Done then Some(d) else None;
    }
  }

  // ---- The server's subscribers ----

  const SUB_BUFFER: nat := 16

  /** Every channel made, by subscriber id; the registered subscribers; those whose lost signal is closed. */
  datatype Srv = Srv(chans: seq<seq<Delta>>, subs: set<nat>, lost: set<nat>)

  const NO_SUBSCRIBERS := Srv([], {}, {})

  ghost predicate WellFormed(s: Srv)
  {
    && (forall id :: id in s.subs ==> id < |s.chans|)
    && (forall id :: id in s.lost ==> id < |s.chans| && id !in s.subs)
    && (forall id :: 0 <= id < |s.chans| ==> |s.chans[id]| <= SUB_BUFFER)
  }

  function Subscribed(s: Srv): Srv { Srv(s.chans + [[]], s.subs + {|s.chans|}, s.lost) }

  function Unsubscribed(s: Srv, id: nat): Srv { s.(subs := s.subs - {id}) }

  /** Registered, with room in its queue. */
  predicate Room(s: Srv, id: nat)
  {
    id in s.subs && id < |s.chans| && |s.chans[id]| < SUB_BUFFER
  }

  function Evicted(s: Srv): set<nat> { set id | id in s.subs && !Room(s, id) }

  /** A subscriber without room is evicted and its lost signal closed. */
  function Broadcasted(s: Srv, d: Delta): Srv
  {
    if d.Empty() then s
    else
      Srv(seq(|s.chans|, id requires 0 <= id < |s.chans| => if Room(s, id) then s.chans[id] + [d] else s.chans[id]),
          s.subs - Evicted(s), s.lost + Evicted(s))
  }

  function Taken(s: Srv, id: nat): Srv
    requires id < |s.chans| && s.chans[id] != []
  {
    s.(chans := s.chans[id := s.chans[id][1..]])
  }

  lemma SrvWellFormed(s: Srv, d: Delta, id: nat)
    requires WellFormed(s)
    ensures WellFormed(Subscribed(s)) && WellFormed(Unsubscribed(s, id)) && WellFormed(Broadcasted(s, d))
    ensures id < |s.chans| && s.chans[id] != [] ==> WellFormed(Taken(s, id))
  {}

  function BroadcastAll(s: Srv, ds: seq<Delta>): Srv
  {
    if ds == [] then s else Broadcasted(BroadcastAll(s, ds[..|ds| - 1]), ds[|ds| - 1])
  }

  /** A subscriber that takes nothing keeps the first sixteen deltas, and is evicted and told by the next. */
  lemma {:induction false} SlowSubscriber(s: Srv, ds: seq<Delta>)
    requires WellFormed(s) && forall i :: 0 <= i < |ds| ==> !ds[i].Empty()
    ensures var t, id := BroadcastAll(Subscribed(s), ds), |s.chans|;
            && |t.chans| == |s.chans| + 1
            && t.chans[id] == (if |ds| <= 16 then ds else ds[..16])
            && (id in t.subs <==> |ds| <= 16) && (id in t.lost <==> |ds| > 16)
  {
    if ds != [] {
      var rest := ds[..|ds| - 1];
      SlowSubscriber(s, rest);
      assert rest + [ds[|ds| - 1]] == ds;
      assert |ds| > 16 ==> rest[..16] == ds[..16];
    }
  }

  /** A subscriber's channel and lost signal before or after a broadcast of d in state s. */
  ghost predicate Delivered(s: Srv, d: Delta, id: nat, visited: bool, ch: seq<Delta>, lost: bool)
    requires id < |s.chans|
  {
    && ch == (if visited && Room(s, id) then s.chans[id] + [d] else s.chans[id])
    && (lost <==> id in s.lost || (visited && id in s.subs && !Room(s, id)))
  }

  /** What an offer makes of a registered subscriber not yet visited. */
  lemma OfferDelivers(s: Srv, d: Delta, id: nat, ch: seq<Delta>, lost: bool)
    requires WellFormed(s) && id in s.subs && id < |s.chans| && Delivered(s, d, id, false, ch, lost)
    ensures Room(s, id) <==> |ch| < SUB_BUFFER
    ensures Delivered(s, d, id, true, if Room(s, id) then ch + [d] else ch, lost || !Room(s, id))
  {}

  class Subscriber {
    var ch: seq<Delta>
    var lost: bool

    constructor ()
      ensures ch == [] && !lost
    {
      ch, lost := [], false;
    }

    /** The non-blocking send; without room the lost signal is closed. */
    method Offer(d: Delta) returns (sent: bool)
      modifies this
      ensures sent == (|old(ch)| < SUB_BUFFER)
      ensures ch == if sent then old(ch) + [d] else old(ch)
      ensures lost == (old(lost) || !sent)
    {
      sent := |ch| < SUB_BUFFER;
      if sent {
        ch := ch + [d];
      } else {
        lost := true;
      }
    }
  }

  class Server {
    var subs: map<nat, Subscriber>
    var nextId: nat
    /** Every subscriber made, registered or not: a stream keeps its own after eviction. */
    ghost var made: seq<Subscriber>
    ghost var view: Srv

    ghost predicate Valid()
      reads this, made
    {
      Shows(view)
    }

    ghost predicate Shows(v: Srv)
      reads `subs, `nextId, `made, made
    {
      && Shape(v) && subs.Keys == v.subs
      && (forall i :: 0 <= i < |made| ==> made[i].ch == v.chans[i] && (made[i].lost <==> i in v.lost))
    }

    ghost predicate Shape(s: Srv)
      reads `subs, `nextId, `made
    {
      && WellFormed(s) && nextId == |made| == |s.chans|
      && (forall i, j :: 0 <= i < j < |made| ==> made[i] != made[j])
      && (forall id :: id in subs ==> id < |made| && made[id] == subs[id])
    }

    constructor ()
      ensures Valid() && view == NO_SUBSCRIBERS && made == []
    {
      subs, nextId, made, view := map[], 0, [], NO_SUBSCRIBERS;
    }

    method Subscribe() returns (sub: Subscriber, id: nat)
      requires Valid()
      modifies this
      ensures Valid() && fresh(sub) && id == old(|made|) && made == old(made) + [sub]
      ensures view == Subscribed(old(view))
    {
      sub := new Subscriber();
      id := nextId;
      nextId := nextId + 1;
      subs := subs[id := sub];
      SrvWellFormed(view, Delta([], []), id);
      made, view := made + [sub], Subscribed(view);
    }

    method Unsubscribe(id: nat)
      requires Valid()
      modifies this
      ensures Valid() && made == old(made)
      ensures view == Unsubscribed(old(view), id)
    {
      subs := subs - {id};
      SrvWellFormed(view, Delta([], []), id);
      view := Unsubscribed(view, id);
    }

    /** Broadcast of d in state s has still to visit the subscribers in `todo`. */
    ghost predicate Delivering(s: Srv, d: Delta, todo: set<nat>)
      reads `subs, `nextId, `made, made
    {
      && Shape(s) && todo <= s.subs
      && (forall id :: id in subs <==> id in s.subs && (id in todo || Room(s, id)))
      && (forall i :: 0 <= i < |made| ==> Delivered(s, d, i, i !in todo, made[i].ch, made[i].lost))
    }

    /** One iteration of Broadcast's loop. */
    method Deliver(id: nat, d: Delta, ghost s: Srv, ghost todo: set<nat>)
      requires Delivering(s, d, todo) && id in todo
      modifies `subs, made
      ensures Delivering(s, d, todo - {id})
    {
      hide WellFormed, Delivered, Room;
      OfferDelivers(s, d, id, made[id].ch, made[id].lost);
      var sub := subs[id];
      var sent := sub.Offer(d);
      assert Delivered(s, d, id, true, made[id].ch, made[id].lost);
      forall i | 0 <= i < |made| && i != id ensures Delivered(s, d, i, i !in todo - {id}, made[i].ch, made[i].lost) {
        assert made[i] != sub && old(Delivered(s, d, i, i !in todo, made[i].ch, made[i].lost));
      }
      if !sent {
        subs := subs - {id};
      }
    }

    lemma DeliveryStarts(d: Delta)
      requires Valid()
      ensures Delivering(view, d, subs.Keys)
    {}

    lemma DeliveryEnds(s: Srv, d: Delta)
      requires Delivering(s, d, {}) && !d.Empty()
      ensures Shows(Broadcasted(s, d))
    {
      var b := Broadcasted(s, d);
      SrvWellFormed(s, d, 0);
      forall i | 0 <= i < |made| ensures made[i].ch == b.chans[i] && (made[i].lost <==> i in b.lost) {
        assert Delivered(s, d, i, true, made[i].ch, made[i].lost);
      }
    }

    /** Never blocks: a subscriber with a full queue is evicted instead. */
    method Broadcast(added: seq<nat>, removed: seq<nat>)
      requires Valid()
      modifies this, made
      ensures Valid() && made == old(made)
      ensures view == Broadcasted(old(view), Delta(added, removed))
    {
      hide Shape, Delivering, Shows;
      if |added| == 0 && |removed| == 0 {
        return;
      }
      var d := Delta(added, removed);
      var todo := subs.Keys;
      DeliveryStarts(d);
      while todo != {}
        invariant made == old(made) && view == old(view) && Delivering(view, d, todo)
        decreases todo
      {
        var id :| id in todo;
        Deliver(id, d, view, todo);
        todo := todo - {id};
      }
      DeliveryEnds(view, d);
      view := Broadcasted(view, d);
    }
  }
}
