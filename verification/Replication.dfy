/**
 Watchset replication as a state machine: the syncer replaces the table and then
 broadcasts the change; the watcher's feeder asks for a snapshot, subscribes, receives the
 list and then the queued changes. Any step may come next, including crashes on both
 sides, lost connections, and other subscribers coming, going and falling behind.
 */
module Replication {
  import opened Effects
  import opened Seqs
  import opened Leaderboard
  import Watchset
  import F = Feeder

  /** Where the feeder is. A stream's `wire` is what the server sent and the watcher has not received. */
  datatype Feed =
    | Waiting
    | Asked(reply: set<nat>)
    | Snapped
    | Streaming(id: nat, listed: bool, closed: bool, wire: seq<Delta>)

  /**
   Bookkeeping that no component sees: the broadcasts made so far (a change whose broadcast is
   cut off by a crash, or that is never broadcast because its commit seemed to fail, counts
   when that happens), each wallet's last removal among them, and, for the last subscription,
   when it registered and what the watcher held then. Since then, `lost` are the wallets of
   the table that an unannounced commit added without anything giving them to the watcher, and
   `kept` those that one removed although the watcher has or will have them.
   */
  datatype Log = Log(
    count: nat, lastRemoval: map<nat, nat>, registeredAt: nat, held: set<nat>, lost: set<nat>, kept: set<nat>)

  datatype State = State(
    table: set<nat>, inflight: Option<Delta>, srv: Srv,
    feed: Feed, watched: set<nat>, log: Log)

  const START := State({}, None, NO_SUBSCRIBERS, Waiting, {}, Log(0, map[], 0, {}, {}, {}))

  datatype Step =
    | Replace(wallets: seq<nat>, db: Db)
    | Broadcast
    | LeaderboardCrash
    | Ask
    | SnapshotArrives
    | SnapshotFails
    | OpenStream
    | SendList
    | Forward
    | Receive
    | HandlerEnds
    | StreamFails
    | OtherSubscribes
    | OtherLeaves(other: nat)
    | OtherForwards(other: nat)
    | WatcherCrash

  /** The stream is being served under this id. */
  predicate Serving(s: State, id: nat)
  {
    s.feed.Streaming? && !s.feed.closed && s.feed.id == id
  }

  predicate Enabled(s: State, step: Step)
  {
    match step
    case Replace(_, _) => s.inflight.None?
    case Broadcast => s.inflight.Some?
    case Ask => s.feed.Waiting?
    case SnapshotArrives => s.feed.Asked?
    case SnapshotFails => s.feed.Asked?
    case OpenStream => s.feed.Snapped?
    case SendList => s.feed.Streaming? && !s.feed.closed && !s.feed.listed
    case Forward =>
      && s.feed.Streaming? && !s.feed.closed && s.feed.listed
      && s.feed.id < |s.srv.chans| && s.srv.chans[s.feed.id] != []
    case Receive => s.feed.Streaming? && s.feed.wire != []
    case HandlerEnds => s.feed.Streaming? && !s.feed.closed
    case StreamFails => s.feed.Streaming? || s.feed.Snapped?
    case OtherLeaves(id) => !Serving(s, id)
    case OtherForwards(id) => !Serving(s, id) && id < |s.srv.chans| && s.srv.chans[id] != []
    case LeaderboardCrash => true
    case OtherSubscribes => true
    case WatcherCrash => true
  }

  /** The watcher's set after a message; every text the leaderboard sends is a valid address. */
  function Got(m: set<nat>, d: Delta): set<nat>
  {
    Watchset.Applied(m, Entries(d.added), Entries(d.removed))
  }

  lemma GotMembers(m: set<nat>, d: Delta)
    ensures Got(m, d) == m + SetOf(d.added) - SetOf(d.removed)
  {
    ValidEntries(d.added);
    ValidEntries(d.removed);
  }

  lemma ValidEntries(s: seq<nat>)
    ensures Watchset.Valid(Entries(s)) == SetOf(s)
  {
    var es := Entries(s);
    forall w | w in SetOf(s) ensures w in Watchset.Valid(es) {
      var i :| 0 <= i < |s| && s[i] == w;
      assert es[i].Some? && es[i].value == w;
    }
  }

  /** The removals of a change that is broadcast now, or that never will be. */
  function Logged(log: Log, removed: set<nat>): Log
  {
    log.(count := log.count + 1,
         lastRemoval := map w | w in log.lastRemoval.Keys + removed ::
           if w in removed then log.count + 1 else log.lastRemoval[w])
  }

  /** A committed change that will be broadcast. */
  function Announced(log: Log, d: Delta): Log
  {
    log.(lost := log.lost - SetOf(d.removed), kept := log.kept - SetOf(d.added))
  }

  /** What the path, and the list when it is still to be sent, makes of a wallet that is in the table or not. */
  predicate InTheEnd(s: State, w: nat, inTable: bool)
  {
    var v := Verdict(Path(s), w);
    if v.Some? then v.value else w in s.watched || (!Listed(s) && inTable)
  }

  /** A committed change that no broadcast will follow. */
  function Unannounced(s: State, table: set<nat>): Log
  {
    var added, removed := table - s.table, s.table - table;
    var l := Logged(s.log, removed);
    l.(lost := (l.lost - removed) + (set w | w in added && !InTheEnd(s, w, true)),
       kept := (l.kept - added) + (set w | w in removed && InTheEnd(s, w, false)))
  }

  predicate Listed(s: State) { s.feed.Streaming? && s.feed.listed }

  ghost function Next(s: State, step: Step): State
    requires Enabled(s, step)
  {
    match step
    case Replace(wallets, db) =>
      var (table, r) := ReplaceOf(s.table, wallets, db);
      if table == s.table then s
      else if r.Some? then s.(table := table, inflight := r, log := Announced(s.log, r.value))
      else s.(table := table, log := Unannounced(s, table))
    case Broadcast =>
      s.(srv := Broadcasted(s.srv, s.inflight.value), inflight := None, log := Logged(s.log, SetOf(s.inflight.value.removed)))
    case LeaderboardCrash =>
      var s1 := s.(srv := NO_SUBSCRIBERS, feed := Closed(s.feed), inflight := None);
      if s.inflight.Some? then s1.(log := Logged(s.log, SetOf(s.inflight.value.removed))) else s1
    case Ask => s.(feed := Asked(s.table))
    case SnapshotArrives => s.(watched := s.watched + s.feed.reply, feed := Snapped)
    case SnapshotFails => s.(feed := Waiting)
    case OpenStream =>
      s.(srv := Subscribed(s.srv), feed := Streaming(|s.srv.chans|, false, false, []),
         log := s.log.(registeredAt := s.log.count, held := s.watched, lost := {}, kept := {}))
    case SendList =>
      var list := if s.table == {} then [] else [Delta(SortedOf(s.table), [])];
      s.(feed := s.feed.(listed := true, wire := s.feed.wire + list))
    case Forward =>
      s.(srv := Taken(s.srv, s.feed.id), feed := s.feed.(wire := s.feed.wire + [s.srv.chans[s.feed.id][0]]))
    case Receive =>
      s.(watched := Got(s.watched, s.feed.wire[0]), feed := s.feed.(wire := s.feed.wire[1..]))
    case HandlerEnds => s.(srv := Unsubscribed(s.srv, s.feed.id), feed := Closed(s.feed))
    case StreamFails => s.(feed := Waiting)
    case OtherSubscribes => s.(srv := Subscribed(s.srv))
    case OtherLeaves(id) => s.(srv := Unsubscribed(s.srv, id))
    case OtherForwards(id) => s.(srv := Taken(s.srv, id))
    case WatcherCrash => s.(watched := {}, feed := Waiting)
  }

  function Closed(f: Feed): Feed
  {
    if f.Streaming? then f.(closed := true) else f
  }

  /** The state after a run of steps; a step that is not enabled does nothing. */
  ghost function Run(steps: seq<Step>): State
  {
    if steps == [] then START
    else Do(Run(steps[..|steps| - 1]), steps[|steps| - 1])
  }

  ghost function Do(s: State, step: Step): State
  {
    if Enabled(s, step) then Next(s, step) else s
  }

  // ---- What is still under way to the watcher ----

  function Pending(s: State): seq<Delta> { if s.inflight.Some? then [s.inflight.value] else [] }

  function Queue(s: State): seq<Delta>
  {
    if s.feed.Streaming? && !s.feed.closed && s.feed.id < |s.srv.chans| then s.srv.chans[s.feed.id] else []
  }

  function Wire(s: State): seq<Delta> { if s.feed.Streaming? then s.feed.wire else [] }

  function Path(s: State): seq<Delta> { Wire(s) + Queue(s) + Pending(s) }

  /** What a change does to a wallet: a removal wins, as Apply adds first. */
  function Says(d: Delta, w: nat): Option<bool>
  {
    if w in d.removed then Some(false) else if w in d.added then Some(true) else None
  }

  /** What the changes say about a wallet in the end. */
  function Verdict(ds: seq<Delta>, w: nat): Option<bool>
  {
    if ds == [] then None
    else
      var last := Says(ds[|ds| - 1], w);
      if last.Some? then last else Verdict(ds[..|ds| - 1], w)
  }

  lemma {:induction false} VerdictConcat(a: seq<Delta>, b: seq<Delta>, w: nat)
    ensures Verdict(a + b, w) == if Verdict(b, w).Some? then Verdict(b, w) else Verdict(a, w)
  {
    if b == [] {
      assert a + b == a;
    } else {
      VerdictConcat(a, b[..|b| - 1], w);
      assert (a + b)[..|a + b| - 1] == a + b[..|b| - 1];
    }
  }

  lemma VerdictOne(d: Delta, w: nat)
    ensures Verdict([d], w) == Says(d, w)
  {
    assert [d][..0] == [];
  }

  // ---- The invariant ----

  predicate BeingRemoved(s: State, w: nat)
  {
    s.inflight.Some? && w in s.inflight.value.removed
  }

  /** In the table, or removed from it at some time. */
  predicate Known(s: State, w: nat)
  {
    w in s.table || w in s.log.lastRemoval || BeingRemoved(s, w)
  }

  ghost predicate Base(s: State)
  {
    && WellFormed(s.srv)
    && s.log.registeredAt <= s.log.count
    && (forall w :: w in s.log.lastRemoval ==> s.log.lastRemoval[w] <= s.log.count)
    && (s.inflight.Some? ==> !s.inflight.value.Empty())
    && (forall w :: BeingRemoved(s, w) ==> w !in s.table)
    && (s.inflight.Some? ==> forall w :: w in s.inflight.value.added ==> w in s.table)
    && (forall w :: w in s.watched ==> Known(s, w))
    && (s.feed.Asked? ==> forall w :: w in s.feed.reply ==> Known(s, w))
    && (forall d, w :: d in Wire(s) + Queue(s) && w in d.added ==> Known(s, w))
    && (s.feed.Streaming? && !s.feed.closed ==>
      s.feed.id < |s.srv.chans| && (s.feed.id in s.srv.subs || s.feed.id in s.srv.lost))
  }

  /** The stream is being served and its subscription was not evicted. */
  predicate Live(s: State)
  {
    s.feed.Streaming? && !s.feed.closed && s.feed.id !in s.srv.lost
  }

  /** Held when the subscription registered, and last removed by a broadcast before that. */
  predicate Missed(log: Log, w: nat)
  {
    w in log.held && w in log.lastRemoval && log.lastRemoval[w] <= log.registeredAt
  }

  /**
   What holds of one wallet while the stream is live, v being what the path says of it: the
   watcher ends up with the table except for the lost, and beyond it with the missed and kept.
   */
  predicate Agrees(s: State, listed: bool, v: Option<bool>, w: nat)
  {
    var ends := if v.Some? then v.value else w in s.watched || (!listed && w in s.table);
    && (w in s.table ==> (ends <==> w !in s.log.lost) && w !in s.log.kept)
    && (w !in s.table ==>
          (ends <==> w in s.log.kept || (Missed(s.log, w) && !BeingRemoved(s, w))) && w !in s.log.lost)
  }

  ghost predicate Synced(s: State)
    requires s.feed.Streaming?
  {
    && (!s.feed.listed ==> s.feed.wire == [])
    && (forall w :: Agrees(s, s.feed.listed, Verdict(Path(s), w), w))
  }

  ghost predicate Inv(s: State)
  {
    Base(s) && (Live(s) ==> Synced(s))
  }

  /** A step that leaves the path and what Agrees looks at alone. */
  lemma SameView(s: State, t: State)
    requires Live(t) ==> Live(s) && Synced(s)
    requires Live(t) ==> Path(s) == Path(t) && s.feed.listed == t.feed.listed && (t.feed.wire == [] || t.feed.listed)
    requires s.table == t.table && s.watched == t.watched && s.inflight == t.inflight && s.log == t.log
    ensures Live(t) ==> Synced(t)
  {
    hide Verdict, Path;
    if Live(t) {
      forall w ensures Agrees(t, t.feed.listed, Verdict(Path(t), w), w) {
        assert Agrees(s, s.feed.listed, Verdict(Path(s), w), w);
      }
    }
  }

  lemma ReplaceKeepsBase(s: State, t: State, d: Delta)
    requires Base(s) && d == DiffOf(s.table, t.table) && !d.Empty()
    requires s.inflight.None? && t == s.(table := t.table, inflight := Some(d), log := Announced(s.log, d))
    ensures Base(t)
  {
    hide WellFormed;
    assert forall w :: Known(s, w) ==> Known(t, w);
    assert Wire(t) + Queue(t) == Wire(s) + Queue(s);
  }

  lemma AnnouncedKeeps(s: State, t: State, d: Delta)
    requires Inv(s) && d == DiffOf(s.table, t.table) && !d.Empty()
    requires s.inflight.None? && t == s.(table := t.table, inflight := Some(d), log := Announced(s.log, d))
    ensures Inv(t)
  {
    hide Verdict, WellFormed;
    ReplaceKeepsBase(s, t, d);
    if Live(t) {
      assert Path(t) == Path(s) + [d];
      forall w ensures Agrees(t, t.feed.listed, Verdict(Path(t), w), w) {
        assert Agrees(s, s.feed.listed, Verdict(Path(s), w), w);
        VerdictConcat(Path(s), [d], w);
        VerdictOne(d, w);
      }
    }
  }

  lemma UnannouncedKeepsBase(s: State, t: State)
    requires Base(s) && s.inflight.None? && t == s.(table := t.table, log := Unannounced(s, t.table))
    ensures Base(t)
  {
    hide WellFormed, InTheEnd;
    assert forall w :: Known(s, w) ==> Known(t, w);
    assert Wire(t) + Queue(t) == Wire(s) + Queue(s);
  }

  lemma UnannouncedKeeps(s: State, t: State)
    requires Inv(s) && s.inflight.None? && t == s.(table := t.table, log := Unannounced(s, t.table))
    ensures Inv(t)
  {
    UnannouncedKeepsBase(s, t);
    hide Verdict, WellFormed, Base;
    if Live(t) {
      assert Path(t) == Path(s);
      assert s.log.registeredAt <= s.log.count by { RegisteredBefore(s); }
      forall w ensures Agrees(t, t.feed.listed, Verdict(Path(t), w), w) {
        assert Agrees(s, s.feed.listed, Verdict(Path(s), w), w);
      }
    }
  }

  lemma RegisteredBefore(s: State)
    requires Base(s)
    ensures s.log.registeredAt <= s.log.count
  {}

  lemma ReplaceKeeps(s: State, wallets: seq<nat>, db: Db)
    requires Inv(s) && Enabled(s, Replace(wallets, db))
    ensures Inv(Next(s, Replace(wallets, db)))
  {
    hide Inv, Announced, Unannounced;
    var t := Next(s, Replace(wallets, db));
    if t.table != s.table {
      var d := DiffOf(s.table, t.table);
      DiffEmpty(s.table, t.table);
      if t.inflight == Some(d) {
        AnnouncedKeeps(s, t, d);
      } else {
        UnannouncedKeeps(s, t);
      }
    }
  }

  lemma BroadcastKeeps(s: State)
    requires Inv(s) && Enabled(s, Broadcast)
    ensures Inv(Next(s, Broadcast))
  {
    hide Verdict, Watchset.Applied;
    var t := Next(s, Broadcast);
    var d := s.inflight.value;
    SrvWellFormed(s.srv, d, 0);
    assert forall w :: Known(s, w) ==> Known(t, w);
    if s.feed.Streaming? && !s.feed.closed {
      assert Queue(t) == Queue(s) || Queue(t) == Queue(s) + [d];
      if Live(t) {
        assert Room(s.srv, s.feed.id);
        assert Path(t) == Path(s);
        forall w ensures Agrees(t, t.feed.listed, Verdict(Path(t), w), w) {
          assert Agrees(s, s.feed.listed, Verdict(Path(s), w), w);
          assert Path(s) == (Wire(s) + Queue(s)) + [d];
          VerdictConcat(Wire(s) + Queue(s), [d], w);
          VerdictOne(d, w);
        }
      }
    }
  }

  lemma CrashesKeep(s: State, step: Step)
    requires Inv(s) && (step == LeaderboardCrash || step == WatcherCrash)
    ensures Inv(Next(s, step))
  {
    hide Verdict, Watchset.Applied;
    var t := Next(s, step);
    assert forall w :: Known(s, w) ==> Known(t, w);
    assert forall d :: d in Wire(t) + Queue(t) ==> d in Wire(s) + Queue(s);
  }

  /** Snapshots, failures, and the end of a handler: no live stream before or after. */
  lemma IdleKeeps(s: State, step: Step)
    requires Inv(s) && Enabled(s, step)
    requires step in {Ask, SnapshotArrives, SnapshotFails, HandlerEnds, StreamFails}
    ensures Inv(Next(s, step))
  {
    hide Verdict, Watchset.Applied;
    var t := Next(s, step);
    assert forall w :: Known(s, w) ==> Known(t, w);
    assert forall d :: d in Wire(t) + Queue(t) ==> d in Wire(s) + Queue(s);
  }

  lemma OthersKeep(s: State, step: Step)
    requires Inv(s) && Enabled(s, step)
    requires step.OtherSubscribes? || step.OtherLeaves? || step.OtherForwards?
    ensures Inv(Next(s, step))
  {
    hide Verdict, Watchset.Applied;
    var t := Next(s, step);
    SrvWellFormed(s.srv, Delta([], []), if step.OtherSubscribes? then 0 else step.other);
    assert Queue(t) == Queue(s);
    assert forall w :: Known(s, w) ==> Known(t, w);
    SameView(s, t);
  }

  lemma OpenKeeps(s: State)
    requires Inv(s) && Enabled(s, OpenStream)
    ensures Inv(Next(s, OpenStream))
  {
    hide Verdict, Watchset.Applied;
    var t := Next(s, OpenStream);
    SrvWellFormed(s.srv, Delta([], []), 0);
    assert forall w :: Known(s, w) ==> Known(t, w);
    assert Path(t) == Pending(s);
    forall w ensures Agrees(t, false, Verdict(Path(t), w), w) {
      if s.inflight.Some? {
        VerdictOne(s.inflight.value, w);
      } else {
        VerdictConcat([], [], w);
        VerdictNone(w);
      }
    }
  }

  lemma VerdictNone(w: nat)
    ensures Verdict([], w) == None
  {}

  lemma SendListKeeps(s: State)
    requires Inv(s) && Enabled(s, SendList)
    ensures Inv(Next(s, SendList))
  {
    hide Base, Synced;
    SendListKeepsBase(s);
    if Live(s) {
      SendListKeepsSynced(s);
    }
  }

  lemma SendListPath(s: State)
    requires Enabled(s, SendList) && s.feed.wire == []
    ensures Path(Next(s, SendList)) == (if s.table == {} then [] else [Delta(SortedOf(s.table), [])]) + Path(s)
  {}

  lemma SendListKeepsSynced(s: State)
    requires Enabled(s, SendList) && Synced(s)
    ensures Synced(Next(s, SendList))
  {
    hide Verdict, Agrees, Path, SortedOf;
    var t := Next(s, SendList);
    SendListPath(s);
    forall w ensures Agrees(t, true, Verdict(Path(t), w), w) {
      assert Agrees(s, false, Verdict(Path(s), w), w);
      ListVerdict(s.table, w);
      VerdictConcat(if s.table == {} then [] else [Delta(SortedOf(s.table), [])], Path(s), w);
      ListAgrees(s, t, Verdict(Path(s), w), w);
    }
  }

  lemma ListVerdict(table: set<nat>, w: nat)
    ensures Verdict(if table == {} then [] else [Delta(SortedOf(table), [])], w) == if w in table then Some(true) else None
  {
    hide Verdict;
    VerdictOne(Delta(SortedOf(table), []), w);
    VerdictNone(w);
  }

  /** Sending the list settles nothing that the path had not settled. */
  lemma ListAgrees(s: State, t: State, v: Option<bool>, w: nat)
    requires Agrees(s, false, v, w)
    requires t.table == s.table && t.watched == s.watched && t.log == s.log && t.inflight == s.inflight
    ensures Agrees(t, true, if v.Some? then v else if w in s.table then Some(true) else None, w)
  {}

  lemma SendListKeepsBase(s: State)
    requires Base(s) && Enabled(s, SendList)
    ensures Base(Next(s, SendList))
  {
    hide WellFormed;
    var t := Next(s, SendList);
    var list := Delta(SortedOf(s.table), []);
    assert forall w :: Known(s, w) ==> Known(t, w);
    assert forall d :: d in Wire(t) + Queue(t) ==> d in Wire(s) + Queue(s) || d == list;
  }

  lemma ForwardKeeps(s: State)
    requires Inv(s) && Enabled(s, Forward)
    ensures Inv(Next(s, Forward))
  {
    hide Verdict, Watchset.Applied;
    var t := Next(s, Forward);
    SrvWellFormed(s.srv, Delta([], []), s.feed.id);
    assert Wire(t) + Queue(t) == Wire(s) + Queue(s);
    assert forall w :: Known(s, w) ==> Known(t, w);
    SameView(s, t);
  }

  lemma ReceiveKeeps(s: State)
    requires Inv(s) && Enabled(s, Receive)
    ensures Inv(Next(s, Receive))
  {
    hide Verdict, Watchset.Applied, Got;
    var t := Next(s, Receive);
    var d := s.feed.wire[0];
    GotMembers(s.watched, d);
    assert Wire(s) + Queue(s) == [d] + (Wire(t) + Queue(t));
    assert d in Wire(s) + Queue(s);
    assert forall w :: Known(s, w) ==> Known(t, w);
    if Live(t) {
      assert Path(s) == [d] + Path(t);
      forall w ensures Agrees(t, t.feed.listed, Verdict(Path(t), w), w) {
        assert Agrees(s, s.feed.listed, Verdict(Path(s), w), w);
        VerdictConcat([d], Path(t), w);
        VerdictOne(d, w);
      }
    }
  }

  lemma StepKeeps(s: State, step: Step)
    requires Inv(s)
    ensures Inv(Do(s, step))
  {
    hide Inv, Next;
    if Enabled(s, step) {
      match step
      case Replace(wallets, db) => ReplaceKeeps(s, wallets, db);
      case Broadcast => BroadcastKeeps(s);
      case OpenStream => OpenKeeps(s);
      case SendList => SendListKeeps(s);
      case Forward => ForwardKeeps(s);
      case Receive => ReceiveKeeps(s);
      case LeaderboardCrash => CrashesKeep(s, step);
      case WatcherCrash => CrashesKeep(s, step);
      case OtherSubscribes => OthersKeep(s, step);
      case OtherLeaves(_) => OthersKeep(s, step);
      case OtherForwards(_) => OthersKeep(s, step);
      case Ask => IdleKeeps(s, step);
      case SnapshotArrives => IdleKeeps(s, step);
      case SnapshotFails => IdleKeeps(s, step);
      case HandlerEnds => IdleKeeps(s, step);
      case StreamFails => IdleKeeps(s, step);
    }
  }

  lemma {:induction false} RunKeeps(steps: seq<Step>)
    ensures Inv(Run(steps))
  {
    hide Do;
    if steps != [] {
      RunKeeps(steps[..|steps| - 1]);
      StepKeeps(Run(steps[..|steps| - 1]), steps[|steps| - 1]);
    }
  }

  // ---- What replication guarantees ----

  /** The stream is live and everything sent or committed has been received. */
  predicate Settled(s: State)
  {
    Live(s) && s.feed.listed && Wire(s) == [] && Queue(s) == [] && s.inflight.None?
  }

  /** Wallets beyond the table that nothing will take from the watcher any more. */
  function Stale(s: State): set<nat>
  {
    s.log.kept + (set w | w in s.log.held && w !in s.table && Missed(s.log, w))
  }

  /**
   In every settled state the watcher has exactly the table, less the wallets that unannounced
   commits added, and beyond it the stale ones: those it held when it subscribed whose last
   removal was broadcast before that, and those that unannounced commits removed.
   */
  lemma Replicated(steps: seq<Step>)
    requires Settled(Run(steps))
    ensures var s := Run(steps);
            && s.watched == (s.table - s.log.lost) + Stale(s)
            && s.log.lost <= s.table && Stale(s) !! s.table
  {
    hide Verdict, Run;
    RunKeeps(steps);
    var s := Run(steps);
    assert Path(s) == [];
    forall w
      ensures w in s.watched <==> w in (s.table - s.log.lost) + Stale(s)
      ensures w in s.log.lost ==> w in s.table
      ensures w in Stale(s) ==> w !in s.table
    {
      VerdictNone(w);
      assert Agrees(s, true, Verdict(Path(s), w), w);
    }
  }

  /** The watcher misses nothing exactly when nothing was lost, and has nothing more exactly when nothing is stale. */
  lemma EqualExactly(steps: seq<Step>)
    requires Settled(Run(steps))
    ensures var s := Run(steps);
            && (s.table <= s.watched <==> s.log.lost == {})
            && (s.watched <= s.table <==> Stale(s) == {})
  {
    hide Run;
    Replicated(steps);
    var s := Run(steps);
    if s.table <= s.watched {
      forall w ensures w !in s.log.lost {
        assert w in s.log.lost ==> w in s.table && w in s.watched;
      }
    }
  }

  /** No commit seems to fail although it took effect. */
  ghost predicate AllReported(steps: seq<Step>)
  {
    forall i :: 0 <= i < |steps| && steps[i].Replace? ==> steps[i].db.write != Unsure
  }

  lemma {:induction false} NothingUnannounced(steps: seq<Step>)
    requires AllReported(steps)
    ensures Run(steps).log.lost == {} && Run(steps).log.kept == {}
  {
    hide Do;
    if steps != [] {
      var rest, last := steps[..|steps| - 1], steps[|steps| - 1];
      assert AllReported(rest);
      NothingUnannounced(rest);
      assert last.Replace? ==> last.db.write != Unsure;
      ReportedStep(Run(rest), last);
    }
  }

  lemma ReportedStep(s: State, step: Step)
    requires s.log.lost == s.log.kept == {} && (step.Replace? ==> step.db.write != Unsure)
    ensures Do(s, step).log.lost == Do(s, step).log.kept == {}
  {
    hide Unannounced, Subscribed, Unsubscribed, Broadcasted, Taken, Got;
    if step.Replace? && Enabled(s, step) {
      var r := ReplaceOf(s.table, step.wallets, step.db).1;
      assert r.Some? ==> Announced(s.log, r.value).lost == {} && Announced(s.log, r.value).kept == {};
    }
  }

  /**
   As long as commits are reported as they end, every settled watcher has the whole table, and
   each wallet beyond it was held on subscribing and last removed by a broadcast before that.
   */
  lemma SupersetWhenReported(steps: seq<Step>)
    requires AllReported(steps) && Settled(Run(steps))
    ensures var s := Run(steps);
            && s.table <= s.watched
            && forall w :: w in s.watched && w !in s.table ==> w in s.log.held && Missed(s.log, w)
  {
    hide Run;
    Replicated(steps);
    NothingUnannounced(steps);
  }

  /** A commit that seems to fail leaves a settled state settled, and the watcher as it was. */
  lemma UnreportedCommit(s: State, wallets: seq<nat>)
    requires Settled(s) && wallets != []
    ensures var t := Do(s, Replace(wallets, Db(true, Unsure)));
            Settled(t) && t.table == SetOf(wallets) && t.watched == s.watched
  {
    hide Unannounced;
  }

  /** An open stream that is not evicted is registered: no broadcast passes it by. */
  lemma RegisteredOrTold(steps: seq<Step>, id: nat)
    requires Serving(Run(steps), id)
    ensures id in Run(steps).srv.subs <==> id !in Run(steps).srv.lost
  {
    hide Run;
    RunKeeps(steps);
  }

  // ---- The feeder's turns ----

  function Entries(ws: seq<nat>): seq<Watchset.Entry> { Map(w => Some(w), ws) }

  function MessageOf(d: Delta): F.Message { F.Message(Entries(d.added), Entries(d.removed)) }

  /** How a step continues the feeder's turns: a snapshot begins one, a message received joins the last. */
  ghost function TurnsAfter(turns: seq<F.Turn>, s: State, step: Step): seq<F.Turn>
  {
    if !Enabled(s, step) then turns
    else
      match step
      case SnapshotArrives => turns + [F.Turn(Some(Entries(SortedOf(s.feed.reply))), [])]
      case SnapshotFails => turns + [F.Turn(None, [])]
      case Receive => if turns == [] then turns else WithMessage(turns, MessageOf(s.feed.wire[0]))
      case WatcherCrash => []
      case _ => turns
  }

  function WithMessage(turns: seq<F.Turn>, m: F.Message): seq<F.Turn>
    requires turns != []
  {
    var last := turns[|turns| - 1];
    turns[..|turns| - 1] + [last.(messages := last.messages + [m])]
  }

  /** The turns of the running watcher's feeder. */
  ghost function TurnsOf(steps: seq<Step>): seq<F.Turn>
  {
    if steps == [] then []
    else TurnsAfter(TurnsOf(steps[..|steps| - 1]), Run(steps[..|steps| - 1]), steps[|steps| - 1])
  }

  /** A turn begun by a good snapshot is under way. */
  predicate Fed(feed: Feed, turns: seq<F.Turn>)
  {
    (feed.Snapped? || feed.Streaming?) ==> turns != [] && turns[|turns| - 1].reply.Some?
  }

  lemma ReceivedSnoc(turns: seq<F.Turn>, t: F.Turn)
    ensures F.Received(turns + [t]) ==
            F.Received(turns) + if t.reply.Some? then [F.Message(t.reply.value, [])] + t.messages else []
  {
    assert (turns + [t])[..|turns|] == turns;
  }

  /** Receiving one more message in the last turn. */
  lemma ReceivedMore(rest: seq<F.Turn>, last: F.Turn, m: F.Message)
    requires last.reply.Some?
    ensures F.Received(WithMessage(rest + [last], m)) == F.Received(rest + [last]) + [m]
  {
    var more := last.(messages := last.messages + [m]);
    assert (rest + [last])[..|rest|] == rest;
    ReceivedSnoc(rest, last);
    ReceivedSnoc(rest, more);
    var snap := [F.Message(last.reply.value, [])];
    assert F.Received(rest) + (snap + (last.messages + [m])) == F.Received(rest) + (snap + last.messages) + [m];
  }

  lemma AppliedSnoc(m: set<nat>, ms: seq<F.Message>, x: F.Message)
    ensures F.AppliedAll(m, ms + [x]) == Watchset.Applied(F.AppliedAll(m, ms), x.added, x.removed)
  {
    assert (ms + [x])[..|ms|] == ms;
  }

  lemma SnapshotAdds(m: set<nat>, reply: set<nat>)
    ensures Watchset.Applied(m, Entries(SortedOf(reply)), []) == m + reply
  {
    ValidEntries(SortedOf(reply));
    assert SetOf(SortedOf(reply)) == reply;
    assert Watchset.Valid([]) == {};
  }

  lemma TurnStep(s: State, step: Step, turns: seq<F.Turn>)
    requires Fed(s.feed, turns) && s.watched == F.AppliedAll({}, F.Received(turns))
    ensures var t, more := Do(s, step), TurnsAfter(turns, s, step);
            Fed(t.feed, more) && t.watched == F.AppliedAll({}, F.Received(more))
  {
    hide F.Received, F.AppliedAll, Watchset.Applied, Entries, ReplaceOf, Unannounced, Logged;
    if Enabled(s, step) {
      match step
      case SnapshotArrives =>
        var entries := Entries(SortedOf(s.feed.reply));
        ReceivedSnoc(turns, F.Turn(Some(entries), []));
        AppliedSnoc({}, F.Received(turns), F.Message(entries, []));
        SnapshotAdds(s.watched, s.feed.reply);
        assert [F.Message(entries, [])] + [] == [F.Message(entries, [])];
      case SnapshotFails =>
        ReceivedSnoc(turns, F.Turn(None, []));
        assert F.Received(turns) + [] == F.Received(turns);
      case Receive =>
        var d := s.feed.wire[0];
        var rest, last := turns[..|turns| - 1], turns[|turns| - 1];
        assert turns == rest + [last];
        ReceivedMore(rest, last, MessageOf(d));
        AppliedSnoc({}, F.Received(turns), MessageOf(d));
        GotIs(s.watched, d);
      case WatcherCrash => NoTurns();
      case _ =>
    }
  }

  lemma GotIs(m: set<nat>, d: Delta)
    ensures Got(m, d) == Watchset.Applied(m, MessageOf(d).added, MessageOf(d).removed)
  {}

  lemma NoTurns()
    ensures F.AppliedAll({}, F.Received([])) == {}
  {}

  /**
   In every run the watcher's set is what the feeder's Run makes of the snapshots and messages
   that reached this process, in their turns.
   */
  lemma {:induction false} FeederFollows(steps: seq<Step>)
    ensures Run(steps).watched == F.AppliedAll({}, F.Received(TurnsOf(steps)))
    ensures Fed(Run(steps).feed, TurnsOf(steps))
  {
    hide Do, TurnsAfter, F.AppliedAll, F.Received;
    if steps == [] {
      NoTurns();
    } else {
      var rest := steps[..|steps| - 1];
      FeederFollows(rest);
      TurnStep(Run(rest), steps[|steps| - 1], TurnsOf(rest));
    }
  }

  // ---- Equality can fail: a removal broadcast between the snapshot and the subscription ----

  const WORKS := Db(true, Done)

  function StaleSteps(): seq<Step>
  {
    [Replace([1, 2], WORKS), Broadcast, Ask, SnapshotArrives, Replace([1], WORKS), Broadcast, OpenStream, SendList, Receive]
  }

  lemma RunStep(steps: seq<Step>, n: nat)
    requires n < |steps|
    ensures Run(steps[..n + 1]) == Do(Run(steps[..n]), steps[n])
  {
    assert steps[..n + 1][..n] == steps[..n];
  }

  lemma ReplaceAndBroadcast(s: State, wallets: seq<nat>)
    requires s.inflight.None? && s.srv == NO_SUBSCRIBERS && wallets != [] && SetOf(wallets) != s.table
    ensures var t := Do(Do(s, Replace(wallets, WORKS)), Broadcast);
            && t == s.(table := SetOf(wallets), log := t.log)
            && forall w :: w in s.table && w !in wallets ==> w in t.log.lastRemoval && t.log.lastRemoval[w] <= t.log.count
  {
    DiffEmpty(s.table, SetOf(wallets));
    var d := DiffOf(s.table, SetOf(wallets));
    assert Do(s, Replace(wallets, WORKS)) == s.(table := SetOf(wallets), inflight := Some(d), log := Announced(s.log, d));
    assert Broadcasted(NO_SUBSCRIBERS, d) == NO_SUBSCRIBERS;
  }

  lemma SnapshotThen(s: State)
    requires s.feed.Waiting? && s.inflight.None?
    ensures Do(Do(s, Ask), SnapshotArrives) == s.(watched := s.watched + s.table, feed := Snapped)
  {}

  /** Subscribing with nothing under way and receiving the list settles the state. */
  lemma SubscribeThen(s: State)
    requires s.feed.Snapped? && s.inflight.None? && s.srv == NO_SUBSCRIBERS && s.table != {}
    ensures var t := Do(Do(Do(s, OpenStream), SendList), Receive);
            Settled(t) && t.table == s.table && t.watched == s.watched + s.table
  {
    hide Watchset.Applied, Got;
    var list := Delta(SortedOf(s.table), []);
    var t := Do(Do(s, OpenStream), SendList);
    assert t.feed == Streaming(0, true, false, [list]);
    GotMembers(s.watched, list);
    assert SetOf(list.added) == s.table;
  }

  lemma StaleStepsSettle()
    ensures var s := Run(StaleSteps());
            Settled(s) && s.table == SetOf([1]) && s.watched == SetOf([1, 2])
  {
    hide Run, Do, Settled;
    var steps := StaleSteps();
    assert steps[..0] == [] && steps[..9] == steps;
    assert Run([]) == START by { RunEmpty(); }
    RunStep(steps, 0);
    RunStep(steps, 1);
    RunStep(steps, 2);
    RunStep(steps, 3);
    RunStep(steps, 4);
    RunStep(steps, 5);
    RunStep(steps, 6);
    RunStep(steps, 7);
    RunStep(steps, 8);
    var s2, s4, s6 := Run(steps[..2]), Run(steps[..4]), Run(steps[..6]);
    assert 2 in SetOf([1, 2]);
    ReplaceAndBroadcast(START, [1, 2]);
    assert s2 == Do(Do(START, Replace([1, 2], WORKS)), Broadcast);
    SnapshotThen(s2);
    assert s4 == Do(Do(s2, Ask), SnapshotArrives);
    assert 2 !in SetOf([1]) && 1 in SetOf([1]);
    ReplaceAndBroadcast(s4, [1]);
    assert s6 == Do(Do(s4, Replace([1], WORKS)), Broadcast);
    SubscribeThen(s6);
    assert Run(steps) == Do(Do(Do(s6, OpenStream), SendList), Receive);
    assert {} + SetOf([1, 2]) + SetOf([1]) == SetOf([1, 2]);
  }

  /** A settled state whose watcher still has a removed wallet. */
  lemma EqualityFails()
    ensures Settled(Run(StaleSteps())) && 2 in Run(StaleSteps()).watched && 2 !in Run(StaleSteps()).table
  {
    hide Run, Settled;
    StaleStepsSettle();
  }

  /** And one whose watcher misses a wallet, because the commit that added it seemed to fail. */
  lemma InclusionFails()
    ensures var s := Run(StaleSteps() + [Replace([3], Db(true, Unsure))]);
            Settled(s) && 3 in s.table && 3 !in s.watched
  {
    hide Run, Settled, Do;
    StaleStepsSettle();
    var steps := StaleSteps() + [Replace([3], Db(true, Unsure))];
    RunStep(steps, |StaleSteps()|);
    assert steps[..|StaleSteps()|] == StaleSteps() && steps[..|steps|] == steps;
    UnreportedCommit(Run(StaleSteps()), [3]);
  }

  lemma RunEmpty()
    ensures Run([]) == START
  {}
}