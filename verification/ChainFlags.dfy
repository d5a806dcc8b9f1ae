/**
 What each published trade says of its origin: which wallet, which blocks, and whether it is
 historical. None of this needs writes to work: it holds of whatever reached the bus.
 */
module ChainFlags {
  import opened Effects
  import opened Seqs
  import opened Decode
  import opened Aggregation
  import opened Dedup
  import opened Engine
  import opened ChainWatch
  import opened ChainSafety
  import opened ChainBatching

  /** A published trade: flagged so, of a watched wallet, from a block that p allows. */
  predicate Tagged(e: Env, x: Published, flag: bool, p: nat -> bool)
  {
    x.backfilled == flag && x.trade.wallet in e.watched && p(x.trade.blockNumber)
  }

  /** From st to st1 the bus only grew, by trades tagged so. */
  ghost predicate Adds(e: Env, st: WState, st1: WState, flag: bool, p: nat -> bool)
  {
    st.bus <= st1.bus && forall i :: |st.bus| <= i < |st1.bus| ==> Tagged(e, st1.bus[i], flag, p)
  }

  lemma AddsBoth(e: Env, a: WState, b: WState, c: WState, flag: bool, p: nat -> bool)
    requires Adds(e, a, b, flag, p) && Adds(e, b, c, flag, p)
    ensures Adds(e, a, c, flag, p)
  {
    hide Tagged;
    forall i | |a.bus| <= i < |c.bus| ensures Tagged(e, c.bus[i], flag, p) {
      assert i < |b.bus| ==> c.bus[i] == b.bus[i];
    }
  }

  /** Emitting stops early or not; what it added are trades of the list, flagged so. */
  lemma {:induction false} EmitAllFlags(e: Env, st: WState, ts: seq<Trade>, flag: bool)
    ensures var st1 := EmitAll(e, st, ts, flag).0;
            && st.bus <= st1.bus
            && forall i :: |st.bus| <= i < |st1.bus| ==> st1.bus[i].backfilled == flag && st1.bus[i].trade in ts
    decreases |ts|
  {
    if ts != [] && e.fate(st.ops) == Done {
      EmitAllFlags(e, Sent(st, ts[0], flag), ts[1..], flag);
      var st1 := EmitAll(e, st, ts, flag).0;
      forall i | |st.bus| <= i < |st1.bus| ensures st1.bus[i].backfilled == flag && st1.bus[i].trade in ts {
        assert i == |st.bus| ==> st1.bus[i] == Sent(st, ts[0], flag).bus[i];
        assert i > |st.bus| ==> st1.bus[i].trade in ts[1..];
      }
    }
  }

  /** A trade of a batch has a watched wallet and the block of one of its logs. */
  lemma TradeOrigin(e: Env, logs: seq<Log>, t: Trade)
    requires t in Aggregate(FillsOf(logs, e.watched))
    ensures t.wallet in e.watched && exists l :: l in logs && l.block == t.blockNumber
  {
    hide Aggregate, FillsOf, FillsIn;
    var fills := FillsOf(logs, e.watched);
    var f := FillOfTrade(fills, t);
    FillsOfMember(logs, e.watched, f);
    var l :| l in logs && f in FillsIn(l, e.watched);
    FillCoordinates(l, e.watched, f);
  }

  lemma BatchFlags(e: Env, st: WState, logs: seq<Log>, block: nat, doAdvance: bool, flag: bool, p: nat -> bool)
    requires forall l :: l in logs ==> p(l.block)
    ensures Adds(e, st, Batch(e, st, logs, block, doAdvance, flag).0, flag, p)
  {
    hide EmitAll, Aggregate, FillsOf, Unseen;
    if logs != [] {
      var unseen := Unseen(logs, e.watched, st.seen);
      var ts := Aggregate(FillsOf(unseen, e.watched));
      EmitAllFlags(e, st, ts, flag);
      forall t | t in ts ensures t.wallet in e.watched && p(t.blockNumber) {
        TradeOrigin(e, unseen, t);
        var l :| l in unseen && l.block == t.blockNumber;
        UnseenMember(logs, e.watched, st.seen, l);
      }
    }
  }

  lemma {:induction false} BackfillFlags(e: Env, st: WState, from: nat, to: nat, flag: bool, p: nat -> bool)
    requires ChainOk(e) && forall b :: from <= b <= to ==> p(b)
    ensures Adds(e, st, Backfill(e, st, from, to, flag).0, flag, p)
    decreases if from > to then 0 else to - from + 1
  {
    hide Batch, LogsIn, Tagged, ChainOk;
    ChunkPositive(e);
    if from <= to {
      var end := ChunkEnd(e, from, to);
      var asked := st.(ops := st.ops + 1);
      forall l | l in LogsIn(e.chain, from, end) ensures p(l.block) {
        LogsInMember(e, from, end, l);
      }
      BatchFlags(e, asked, LogsIn(e.chain, from, end), end, true, flag, p);
      var (st1, ok) := Chunk(e, st, from, end, flag);
      if ok {
        BackfillFlags(e, st1, from + e.chunk, to, flag, p);
        AddsBoth(e, st, st1, Backfill(e, st1, from + e.chunk, to, flag).0, flag, p);
      }
    }
  }

  /** Whatever the feed, the live loop flags nothing as historical. */
  lemma {:induction false} RunLiveFlags(e: Env, st: WState, lv: Live, evs: seq<LiveEvent>, p: nat -> bool)
    requires forall l :: l in lv.buf || l in Delivered(evs) ==> p(l.block)
    ensures Adds(e, st, RunLive(e, st, lv, evs).0, false, p)
    decreases |evs|
  {
    hide Batch, Tagged;
    if evs != [] {
      match evs[0]
      case Stop => BatchFlags(e, st, lv.buf, lv.pending, false, false, p);
      case Deliver(l) =>
        if l.removed || (lv.pending > 0 && l.block < lv.pending) {
          RunLiveFlags(e, st, lv, evs[1..], p);
        } else {
          assert l in Delivered(evs);
          var up := if l.block > lv.pending then l.block else lv.pending;
          if lv.buf != [] && l.block > lv.pending {
            BatchFlags(e, st, lv.buf, lv.pending, true, false, p);
            var (st1, ok) := Batch(e, st, lv.buf, lv.pending, true, false);
            if ok {
              RunLiveFlags(e, st1, Live([l], up, true), evs[1..], p);
              AddsBoth(e, st, st1, RunLive(e, st1, Live([l], up, true), evs[1..]).0, false, p);
            }
          } else {
            RunLiveFlags(e, st, Live(lv.buf + [l], up, true), evs[1..], p);
          }
        }
      case Tick =>
        if lv.grew || lv.buf == [] {
          RunLiveFlags(e, st, lv.(grew := false), evs[1..], p);
        } else {
          BatchFlags(e, st, lv.buf, lv.pending, true, false, p);
          var (st1, ok) := Batch(e, st, lv.buf, lv.pending, true, false);
          if ok {
            RunLiveFlags(e, st1, lv.(buf := []), evs[1..], p);
            AddsBoth(e, st, st1, RunLive(e, st1, lv.(buf := []), evs[1..]).0, false, p);
          }
        }
    }
  }

  // ---- Success ----

  /** Every write between two states was reported done. */
  ghost predicate WritesDone(e: Env, st: WState, st1: WState)
  {
    st.ops <= st1.ops && forall n :: st.ops <= n < st1.ops ==> e.fate(n) == Done
  }

  lemma {:induction false} EmitAllOk(e: Env, st: WState, ts: seq<Trade>, flag: bool)
    ensures var (st1, ok) := EmitAll(e, st, ts, flag);
            && st.ops <= st1.ops <= st.ops + |ts| && (ok <==> WritesDone(e, st, st1)) && st1.cursor == st.cursor
            && (ok ==> |st1.bus| == |st.bus| + |ts|)
    decreases |ts|
  {
    if ts != [] && e.fate(st.ops) == Done {
      EmitAllOk(e, Sent(st, ts[0], flag), ts[1..], flag);
    }
  }

  /** A batch succeeds exactly when each of its writes was reported done, and then the cursor stands at its block. */
  lemma BatchOk(e: Env, st: WState, logs: seq<Log>, block: nat, doAdvance: bool, flag: bool)
    ensures var (st1, ok) := Batch(e, st, logs, block, doAdvance, flag);
            && (ok <==> WritesDone(e, st, st1)) && st.ops <= st1.ops
            && (ok ==> st1.cursor == if doAdvance then Some(block) else st.cursor)
            && (st1.cursor == st.cursor || st1.cursor == Some(block))
  {
    hide EmitAll, Aggregate, FillsOf, Unseen, Pruned, MarkAll;
    EmitAllOk(e, st, Aggregate(FillsOf(Unseen(logs, e.watched, st.seen), e.watched)), flag);
  }

  /** So does a backfill, and its cursor then stands at the end of the range; it never stands beyond or goes back. */
  lemma {:induction false} BackfillOk(e: Env, st: WState, from: nat, to: nat, flag: bool)
    requires e.chunk >= 1
    ensures var (st1, ok) := Backfill(e, st, from, to, flag);
            && (ok <==> WritesDone(e, st, st1)) && st.ops <= st1.ops
            && (ok && from <= to ==> st1.cursor == Some(to))
            && (st1.cursor == st.cursor || (st1.cursor.Some? && from <= st1.cursor.value <= to))
    decreases if from > to then 0 else to - from + 1
  {
    hide Batch, LogsIn;
    if from <= to {
      var end := ChunkEnd(e, from, to);
      BatchOk(e, st.(ops := st.ops + 1), LogsIn(e.chain, from, end), end, true, flag);
      var (st1, ok) := Chunk(e, st, from, end, flag);
      if ok {
        BackfillOk(e, st1, from + e.chunk, to, flag);
      }
    }
  }

  // ---- What one live flush commits ----

  /** All in one block, and none withdrawn. */
  ghost predicate OneBlock(logs: seq<Log>)
  {
    forall l, m :: l in logs && m in logs ==> l.block == m.block && !l.removed
  }

  /** From st to st1 the commits only grew, each new one a block's. */
  ghost predicate CommitsBlocks(st: WState, st1: WState)
  {
    st.commits <= st1.commits && forall i :: |st.commits| <= i < |st1.commits| ==> OneBlock(st1.commits[i].logs)
  }

  lemma BatchCommitsBlock(e: Env, st: WState, logs: seq<Log>, block: nat, doAdvance: bool, backfilled: bool, b: nat)
    requires forall l :: l in logs ==> l.block == b && !l.removed
    ensures CommitsBlocks(st, Batch(e, st, logs, block, doAdvance, backfilled).0)
  {
    hide Aggregate, FillsOf, Unseen;
    var unseen := Unseen(logs, e.watched, st.seen);
    forall l | l in unseen ensures l.block == b && !l.removed {
      UnseenMember(logs, e.watched, st.seen, l);
    }
    assert OneBlock(unseen);
    EmitAllCommits(e, st, Aggregate(FillsOf(unseen, e.watched)), backfilled);
  }

  lemma {:induction false} EmitAllCommits(e: Env, st: WState, ts: seq<Trade>, backfilled: bool)
    ensures EmitAll(e, st, ts, backfilled).0.commits == st.commits
    decreases |ts|
  {
    if ts != [] {
      EmitAllCommits(e, Sent(st, ts[0], backfilled), ts[1..], backfilled);
    }
  }

  lemma CommitsBlocksBoth(a: WState, b: WState, c: WState)
    requires CommitsBlocks(a, b) && CommitsBlocks(b, c)
    ensures CommitsBlocks(a, c)
  {
    hide OneBlock;
    forall i | |a.commits| <= i < |c.commits| ensures OneBlock(c.commits[i].logs) {
      assert i < |b.commits| ==> c.commits[i] == b.commits[i];
    }
  }

  /** Whatever the feed delivers, in whatever order, each flush commits logs of one block, and no withdrawn one. */
  lemma {:induction false} RunLiveCommitsBlocks(e: Env, st: WState, lv: Live, evs: seq<LiveEvent>)
    requires forall l :: l in lv.buf ==> l.block == lv.pending && !l.removed
    ensures CommitsBlocks(st, RunLive(e, st, lv, evs).0)
    decreases |evs|
  {
    hide Batch, CommitsBlocks;
    if evs == [] {
      NoNewCommits(st);
    } else {
      BatchCommitsBlock(e, st, lv.buf, lv.pending, evs[0] != Stop, false, lv.pending);
      var (st1, ok) := Batch(e, st, lv.buf, lv.pending, true, false);
      match evs[0]
      case Stop =>
      case Deliver(l) =>
        if l.removed || (lv.pending > 0 && l.block < lv.pending) {
          RunLiveCommitsBlocks(e, st, lv, evs[1..]);
        } else {
          var up := if l.block > lv.pending then l.block else lv.pending;
          if lv.buf != [] && l.block > lv.pending {
            if ok {
              RunLiveCommitsBlocks(e, st1, Live([l], up, true), evs[1..]);
              CommitsBlocksBoth(st, st1, RunLive(e, st1, Live([l], up, true), evs[1..]).0);
            }
          } else {
            RunLiveCommitsBlocks(e, st, Live(lv.buf + [l], up, true), evs[1..]);
          }
        }
      case Tick =>
        if lv.grew || lv.buf == [] {
          RunLiveCommitsBlocks(e, st, lv.(grew := false), evs[1..]);
        } else if ok {
          RunLiveCommitsBlocks(e, st1, lv.(buf := []), evs[1..]);
          CommitsBlocksBoth(st, st1, RunLive(e, st1, lv.(buf := []), evs[1..]).0);
        }
    }
  }

  /** When nothing fails and the loop is not stopped, the cursor stands at the block of the last flush. */
  lemma {:induction false} LiveCursor(e: Env, st: WState, lv: Live, evs: seq<LiveEvent>)
    requires AllDone(e) && Stop !in evs && forall l :: l in lv.buf ==> l.block == lv.pending && !l.removed
    ensures var st1 := RunLive(e, st, lv, evs).0;
            st.commits <= st1.commits
            && (if |st1.commits| == |st.commits| then st1.cursor == st.cursor
                else st1.cursor.Some? && forall l :: l in st1.commits[|st1.commits| - 1].logs ==> l.block == st1.cursor.value)
    decreases |evs|
  {
    hide Batch;
    if evs != [] {
      assert evs[0] in evs && forall x :: x in evs[1..] ==> x in evs;
      FlushDone(e, st, lv.buf, lv.pending);
      var st1 := Batch(e, st, lv.buf, lv.pending, true, false).0;
      match evs[0]
      case Deliver(l) =>
        if l.removed || (lv.pending > 0 && l.block < lv.pending) {
          LiveCursor(e, st, lv, evs[1..]);
        } else {
          var up := if l.block > lv.pending then l.block else lv.pending;
          if lv.buf != [] && l.block > lv.pending {
            LiveCursor(e, st1, Live([l], up, true), evs[1..]);
          } else {
            LiveCursor(e, st, Live(lv.buf + [l], up, true), evs[1..]);
          }
        }
      case Tick =>
        if lv.grew || lv.buf == [] {
          LiveCursor(e, st, lv.(grew := false), evs[1..]);
        } else {
          LiveCursor(e, st1, lv.(buf := []), evs[1..]);
        }
    }
  }

  lemma FlushDone(e: Env, st: WState, logs: seq<Log>, block: nat)
    requires AllDone(e) && forall l :: l in logs ==> l.block == block && !l.removed
    ensures var (st1, ok) := Batch(e, st, logs, block, true, false);
            && ok && st1.cursor == Some(block)
            && (logs == [] ==> st1.commits == st.commits)
            && (logs != [] ==> |st1.commits| == |st.commits| + 1 && st.commits <= st1.commits
                               && forall l :: l in st1.commits[|st.commits|].logs ==> l.block == block)
  {
    hide EmitAll, Aggregate, FillsOf, Unseen, Pruned, MarkAll;
    var unseen := Unseen(logs, e.watched, st.seen);
    var ts := Aggregate(FillsOf(unseen, e.watched));
    EmitAllOk(e, st, ts, false);
    EmitAllCommits(e, st, ts, false);
    forall l | l in unseen ensures l.block == block {
      UnseenMember(logs, e.watched, st.seen, l);
    }
  }

  lemma NoNewCommits(st: WState)
    ensures CommitsBlocks(st, st)
  {}

  // ---- What a cycle publishes ----

  /** The feed delivers nothing at or below the head of the replay. */
  ghost predicate LiveAboveHead(e: Env, s: Script)
  {
    s.head.Some? && s.activation.Some? && s.newHead.Some? ==>
      s.head.value <= s.activation.value && FeedOk(e, s.activation.value, [], false, s.events)
  }

  /** Above the cursor, or above the head; the head itself when nothing was persisted before. */
  predicate New(cursor: Option<nat>, head: nat, b: nat)
  {
    match cursor
    case None => b >= head
    case Some(c) => b > c || b > head
  }

  /**
   Whatever fails in a cycle, it publishes only trades of watched wallets from blocks not
   covered by the cursor before, and flags as historical exactly those at or below the head
   it read first.
   */
  lemma CycleFlags(e: Env, st: WState, s: Script)
    requires ChainOk(e) && LiveAboveHead(e, s)
    ensures var st1 := Cycle(e, st, s).0;
            && st.bus <= st1.bus
            && forall i :: |st.bus| <= i < |st1.bus| ==>
                 var x := st1.bus[i];
                 && s.head.Some? && x.trade.wallet in e.watched && New(st.cursor, s.head.value, x.trade.blockNumber)
                 && (x.backfilled <==> x.trade.blockNumber <= s.head.value)
  {
    hide Backfill, RunLive, ChainOk, FeedOk, Delivered;
    ChunkPositive(e);
    if s.head.None? || !s.readOk {
      return;
    }
    var head := s.head.value;
    var start := StartBlock(st, head);
    var upTo := (b: nat) => b <= head && New(st.cursor, head, b);
    var later := (b: nat) => b > head;
    BackfillFlags(e, st, start, head, true, upTo);
    var (st1, ok1) := Backfill(e, st, start, head, true);
    if !ok1 || s.activation.None? || s.newHead.None? {
      return;
    }
    if s.newHead.value > head {
      BackfillFlags(e, st1, head + 1, s.newHead.value, false, later);
    }
    var (st2, ok2) := CatchUp(e, st1, head, s.newHead.value);
    if ok2 {
      forall l | l in Delivered(s.events) ensures l.block > head {
        DeliveredLater(e, s.activation.value, [], false, s.events, l);
      }
      RunLiveFlags(e, st2, Live([], 0, false), s.events, later);
      AddsBoth(e, st1, st2, RunLive(e, st2, Live([], 0, false), s.events).0, false, later);
    }
  }

  /** In every run, each trade on the bus is historical exactly when its block was at or below the first head of its cycle. */
  lemma {:induction false} RunFlags(e: Env, scripts: seq<Script>)
    requires ChainOk(e) && forall i :: 0 <= i < |scripts| ==> LiveAboveHead(e, scripts[i])
    ensures forall x :: x in Run(e, FRESH, scripts).bus ==>
              x.trade.wallet in e.watched
              && exists i :: 0 <= i < |scripts| && scripts[i].head.Some?
                             && (x.backfilled <==> x.trade.blockNumber <= scripts[i].head.value)
  {
    hide Cycle, ChainOk, LiveAboveHead;
    ChunkPositive(e);
    if scripts != [] {
      var n := |scripts| - 1;
      var rest := scripts[..n];
      RunFlags(e, rest);
      var st := Run(e, FRESH, rest);
      CycleFlags(e, st, scripts[n]);
      var st1 := Cycle(e, st, scripts[n]).0;
      forall x | x in st1.bus
        ensures x.trade.wallet in e.watched
        ensures exists i :: 0 <= i < |scripts| && scripts[i].head.Some?
                            && (x.backfilled <==> x.trade.blockNumber <= scripts[i].head.value)
      {
        var j :| 0 <= j < |st1.bus| && st1.bus[j] == x;
        if j < |st.bus| {
          assert st.bus[j] == x && x in st.bus;
          var i :| 0 <= i < |rest| && rest[i].head.Some? && (x.backfilled <==> x.trade.blockNumber <= rest[i].head.value);
          assert scripts[i] == rest[i];
        }
      }
    }
  }
}
