/**
 What the watcher guarantees over every run: no relevant log at or below the persisted
 cursor is lost, and no log is committed twice by one process.

 `once` selects the second guarantee, which needs more of the environment than the first.
 */
module ChainSafety {
  import opened Effects
  import opened Seqs
  import opened Decode
  import opened Aggregation
  import opened Dedup
  import opened Engine
  import opened ChainWatch

  // ---- The environment ----

  ghost predicate OnChain(e: Env, l: Log) { l in e.chain(l.block) }

  /** No reorgs: log identities are unique, and a transaction lives in one block. */
  ghost predicate ChainOk(e: Env)
  {
    && e.chunk >= 1
    && (forall b, l :: l in e.chain(b) ==> l.block == b && !l.removed)
    && (forall b :: Distinct(e.chain(b)))
    && (forall l, m :: OnChain(e, l) && OnChain(e, m) && l.txHash == m.txHash && l.index == m.index ==> l == m)
    && (forall l, m :: OnChain(e, l) && OnChain(e, m) && l.txHash == m.txHash ==> l.block == m.block)
  }

  /** Everything on the chain above `a` and below block `b` is in `got`. */
  ghost predicate CompleteBelow(e: Env, a: nat, b: nat, got: seq<Log>)
  {
    forall n, m :: a < n < b && m in e.chain(n) ==> m in got
  }

  /** The next live log: above the activation block, in block order, not a repeat, skipping nothing. */
  ghost predicate NextOk(e: Env, a: nat, got: seq<Log>, l: Log)
  {
    && OnChain(e, l) && l.block > a && l !in got
    && (got != [] ==> got[|got| - 1].block <= l.block)
    && CompleteBelow(e, a, l.block, got)
  }

  /**
   The live feed of a subscription that delivers above block `a`, having delivered `got`:
   every log once and in block order, reorg-removed logs anywhere, and a tick that follows
   a tick without a log in between comes only when the last block is complete.
   */
  ghost predicate FeedOk(e: Env, a: nat, got: seq<Log>, recent: bool, evs: seq<LiveEvent>)
    decreases |evs|
  {
    evs == [] ||
    match evs[0]
    case Stop => true
    case Deliver(l) =>
      if l.removed then FeedOk(e, a, got, recent, evs[1..])
      else NextOk(e, a, got, l) && FeedOk(e, a, got + [l], true, evs[1..])
    case Tick =>
      && (!recent && got != [] ==> CompleteBelow(e, a, got[|got| - 1].block + 1, got))
      && FeedOk(e, a, got, false, evs[1..])
  }

  function Max(a: nat, b: nat): nat { if a < b then b else a }

  /** Highest block among the logs delivered. */
  function TopDelivered(evs: seq<LiveEvent>): nat
  {
    if evs == [] then 0
    else Max(if evs[0].Deliver? && !evs[0].log.removed then evs[0].log.block else 0, TopDelivered(evs[1..]))
  }

  function ValueOr0(x: Option<nat>): nat { if x.Some? then x.value else 0 }

  /** The chain tip as far as the scripts have shown it. */
  function Tip(scripts: seq<Script>): nat
  {
    if scripts == [] then 0
    else
      var s := scripts[|scripts| - 1];
      Max(Tip(scripts[..|scripts| - 1]), Max(Max(ValueOr0(s.head), ValueOr0(s.newHead)), TopDelivered(s.events)))
  }

  /**
   The subscription misses nothing above the higher of the two heads read. For `once`,
   moreover, heads never decrease, the subscription activates between the two head reads,
   and the catch-up head is at most REORG_DEPTH + 1 blocks past the activation.
   */
  ghost predicate ScriptOk(e: Env, tip: nat, s: Script, once: bool)
  {
    s.head.Some? ==>
      && (once ==> tip <= s.head.value)
      && (s.activation.Some? && s.newHead.Some? ==>
            && s.activation.value <= Max(s.head.value, s.newHead.value)
            && (once ==> s.head.value <= s.activation.value <= s.newHead.value <= s.activation.value + REORG_DEPTH + 1)
            && FeedOk(e, s.activation.value, [], false, s.events))
  }

  ghost predicate ScriptsOk(e: Env, scripts: seq<Script>, once: bool)
  {
    forall i :: 0 <= i < |scripts| ==> ScriptOk(e, Tip(scripts[..i]), scripts[i], once)
  }

  // ---- The invariant ----

  ghost predicate Committed(commits: seq<Commit>, l: Log)
  {
    exists i :: 0 <= i < |commits| && l in commits[i].logs
  }

  /** The batch's trades are on the bus, in order, where the commit says. */
  ghost predicate OnBus(e: Env, bus: seq<Published>, c: Commit)
  {
    var ts := Aggregate(FillsOf(c.logs, e.watched));
    c.start + |ts| <= |bus| && forall j :: 0 <= j < |ts| ==> bus[c.start + j].trade == ts[j]
  }

  /** Every relevant log from the first persisted block up to, not including, block n is committed. */
  ghost predicate Scanned(e: Env, st: WState, n: nat)
  {
    st.origin.Some? ==>
      forall b, l :: st.origin.value <= b < n && l in e.chain(b) && Relevant(l, e.watched) ==> Committed(st.commits, l)
  }

  ghost predicate NoLoss(e: Env, st: WState)
  {
    && (st.cursor.Some? <==> st.origin.Some?)
    && (st.cursor.Some? ==> Scanned(e, st, st.cursor.value + 1))
    && (forall i :: 0 <= i < |st.commits| ==> OnBus(e, st.bus, st.commits[i]))
  }

  ghost predicate SeenSound(e: Env, st: WState)
  {
    && (forall id :: id in st.seen ==> exists l :: l in st.life && Id(l) == id && l.block == st.seen[id])
    && (forall l :: l in st.life ==> OnChain(e, l) && Committed(st.commits, l))
  }

  ghost predicate Once(st: WState)
  {
    && Distinct(st.life)
    && (forall l :: l in st.life && l.block >= st.floor ==> Id(l) in st.seen)
    && (st.cursor.Some? ==> st.floor <= st.cursor.value + 1)
  }

  ghost predicate Inv(e: Env, st: WState, once: bool)
  {
    NoLoss(e, st) && SeenSound(e, st) && (once ==> Once(st))
  }

  // ---- One batch ----

  lemma {:induction false} EmitAllBus(e: Env, st: WState, ts: seq<Trade>, backfilled: bool)
    ensures var (st1, ok) := EmitAll(e, st, ts, backfilled);
            && st1 == st.(bus := st1.bus, ops := st1.ops)
            && st.bus <= st1.bus
            && (ok ==> |st1.bus| == |st.bus| + |ts|
                       && forall j :: 0 <= j < |ts| ==> st1.bus[|st.bus| + j] == Published(ts[j], backfilled))
    decreases |ts|
  {
    if ts != [] && e.fate(st.ops).Done? {
      var next := Sent(st, ts[0], backfilled);
      EmitAllBus(e, next, ts[1..], backfilled);
      var (st1, ok) := EmitAll(e, next, ts[1..], backfilled);
      if ok {
        forall j | 0 <= j < |ts| ensures st1.bus[|st.bus| + j] == Published(ts[j], backfilled) {
          if j == 0 {
            assert next.bus[|st.bus|] == Published(ts[0], backfilled);
          } else {
            assert ts[1..][j - 1] == ts[j];
          }
        }
      }
    }
  }

  lemma {:induction false} MarkAllEntries(seen: map<LogId, nat>, logs: seq<Log>, id: LogId)
    ensures id in MarkAll(seen, logs) <==> id in seen || exists l :: l in logs && Id(l) == id
    ensures id in seen ==> MarkAll(seen, logs)[id] == seen[id]
    ensures id in MarkAll(seen, logs) && id !in seen ==>
              exists l :: l in logs && Id(l) == id && l.block == MarkAll(seen, logs)[id]
  {
    if logs != [] {
      var rest, last := logs[..|logs| - 1], logs[|logs| - 1];
      MarkAllEntries(seen, rest, id);
      assert forall l :: l in logs <==> l in rest || l == last;
    }
  }

  lemma CommittedGrows(commits: seq<Commit>, c: Commit, l: Log)
    ensures Committed(commits + [c], l) <==> Committed(commits, l) || l in c.logs
  {
    var cs := commits + [c];
    if l in c.logs {
      assert l in cs[|commits|].logs;
    }
    if Committed(commits, l) {
      var i :| 0 <= i < |commits| && l in commits[i].logs;
      assert l in cs[i].logs;
    }
  }

  /** Publishing keeps the invariant, and puts the batch's trades where the bus ended before. */
  lemma EmitKeeps(e: Env, st: WState, logs: seq<Log>, backfilled: bool, once: bool)
    requires Inv(e, st, once)
    ensures var (st1, ok) := EmitAll(e, st, Aggregate(FillsOf(logs, e.watched)), backfilled);
            && Inv(e, st1, once) && st1 == st.(bus := st1.bus, ops := st1.ops)
            && (ok ==> OnBus(e, st1.bus, Commit(logs, |st.bus|)))
  {
    hide EmitAll, Aggregate;
    var ts := Aggregate(FillsOf(logs, e.watched));
    EmitAllBus(e, st, ts, backfilled);
    var (st1, ok) := EmitAll(e, st, ts, backfilled);
    forall i | 0 <= i < |st1.commits| ensures OnBus(e, st1.bus, st1.commits[i]) {
      assert OnBus(e, st.bus, st.commits[i]);
    }
  }

  /** Marking and recording a published batch of unseen logs keeps the invariant. */
  lemma CommitKeeps(e: Env, st: WState, logs: seq<Log>, start: nat, once: bool)
    requires ChainOk(e) && Inv(e, st, once)
    requires OnBus(e, st.bus, Commit(logs, start))
    requires forall l :: l in logs ==> OnChain(e, l) && Id(l) !in st.seen
    requires once ==> Distinct(logs) && forall l :: l in logs ==> st.floor <= l.block
    ensures Inv(e, CommitLogs(st, logs, start), once)
  {
    hide MarkAll, OnBus, Aggregate;
    var c := Commit(logs, start);
    var st1 := CommitLogs(st, logs, start);
    forall l ensures Committed(st1.commits, l) <==> Committed(st.commits, l) || l in logs {
      CommittedGrows(st.commits, c, l);
    }
    forall id | id in st1.seen
      ensures exists l :: l in st1.life && Id(l) == id && l.block == st1.seen[id]
    {
      MarkAllEntries(st.seen, logs, id);
    }
    if once {
      forall i, j | 0 <= i < j < |st1.life| ensures st1.life[i] != st1.life[j] {
        if i < |st.life| && |st.life| <= j {
          var l := st1.life[j];
          assert l == logs[j - |st.life|] && l in logs;
          assert st.life[i] in st.life;
        }
      }
      forall l | l in st1.life && l.block >= st1.floor ensures Id(l) in st1.seen {
        MarkAllEntries(st.seen, logs, Id(l));
        assert l in st.life || l in logs;
      }
    }
  }

  function Lowest(st: WState, block: nat): nat { if st.origin.Some? then st.origin.value else block }

  /** A floor after advancing to `block` at most. */
  function FloorAfter(floor: nat, block: nat): nat { Max(floor, if block > REORG_DEPTH then block - REORG_DEPTH else 0) }

  lemma StampKeeps(e: Env, st: WState, once: bool)
    requires Inv(e, st, once)
    ensures Inv(e, st.(ops := st.ops + 1), once)
  {
    hide OnBus;
  }

  lemma WrittenKeeps(e: Env, st: WState, block: nat, once: bool)
    requires Inv(e, st, once)
    requires forall b, l :: Lowest(st, block) <= b <= block && l in e.chain(b) && Relevant(l, e.watched) ==>
               Committed(st.commits, l)
    requires once ==> st.floor <= block + 1
    ensures Inv(e, Written(st, block), once)
  {
    hide OnBus, Committed, Relevant;
  }

  lemma PruneKeeps(e: Env, st: WState, block: nat, once: bool)
    requires ChainOk(e) && Inv(e, st, once) && st.cursor == Some(block)
    ensures Inv(e, PrunedTo(st, block), once)
  {
    hide NoLoss, Committed;
    var st1 := PrunedTo(st, block);
    assert NoLoss(e, st1) by { NoLossAlone(e, st, st1); }
    if once && block > REORG_DEPTH {
      forall l | l in st1.life && l.block >= st1.floor ensures Id(l) in st1.seen {
        assert l.block >= st.floor && Id(l) in st.seen;
        var m :| m in st.life && Id(m) == Id(l) && m.block == st.seen[Id(l)];
        assert m == l;
      }
    }
  }

  lemma NoLossAlone(e: Env, st: WState, st1: WState)
    requires NoLoss(e, st) && st1 == st.(seen := st1.seen, floor := st1.floor)
    ensures NoLoss(e, st1)
  {
    hide OnBus;
  }

  /** Writing the cursor keeps the invariant when everything up to it is committed. */
  lemma AdvanceKeeps(e: Env, st: WState, block: nat, once: bool)
    requires ChainOk(e) && Inv(e, st, once)
    requires forall b, l :: Lowest(st, block) <= b <= block && l in e.chain(b) && Relevant(l, e.watched) ==>
               Committed(st.commits, l)
    requires once ==> st.floor <= block + 1
    ensures var (st1, ok) := Advance(e, st, block);
            && Inv(e, st1, once)
            && st1.commits == st.commits && st1.life == st.life
            && (st.origin.Some? ==> st1.origin == st.origin)
            && st1.floor <= FloorAfter(st.floor, block)
            && (ok ==> st1.cursor == Some(block))
  {
    hide Inv;
    StampKeeps(e, st, once);
    WrittenKeeps(e, st, block, once);
    PruneKeeps(e, Written(st, block), block, once);
  }

  /** What one batch needs and keeps. */
  lemma BatchKeeps(e: Env, st: WState, logs: seq<Log>, block: nat, doAdvance: bool, backfilled: bool, once: bool)
    requires ChainOk(e) && Inv(e, st, once)
    requires forall l :: l in logs ==> OnChain(e, l)
    requires once ==> Distinct(logs) && forall l :: l in logs ==> st.floor <= l.block
    requires doAdvance && once ==> st.floor <= block + 1
    requires doAdvance ==>
               forall b, l :: Lowest(st, block) <= b <= block && l in e.chain(b) && Relevant(l, e.watched) ==>
                 l in logs || Committed(st.commits, l)
    ensures var (st1, ok) := Batch(e, st, logs, block, doAdvance, backfilled);
            && Inv(e, st1, once)
            && (st.origin.Some? ==> st1.origin == st.origin)
            && (forall l :: Committed(st.commits, l) ==> Committed(st1.commits, l))
            && st1.floor <= (if doAdvance then FloorAfter(st.floor, block) else st.floor)
            && (ok ==> forall l :: l in logs && Relevant(l, e.watched) ==> Committed(st1.commits, l))
            && (ok && doAdvance ==> st1.cursor == Some(block))
  {
    hide EmitAll, Unseen, Aggregate, OnBus, Advance;
    if logs == [] {
      if doAdvance {
        AdvanceKeeps(e, st, block, once);
      }
    } else {
      var unseen := Unseen(logs, e.watched, st.seen);
      forall l ensures l in unseen <==> l in logs && Relevant(l, e.watched) && Id(l) !in st.seen {
        UnseenMember(logs, e.watched, st.seen, l);
      }
      if once {
        UnseenDistinct(logs, e.watched, st.seen);
      }
      EmitKeeps(e, st, unseen, backfilled, once);
      var (st1, ok) := EmitAll(e, st, Aggregate(FillsOf(unseen, e.watched)), backfilled);
      if ok {
        var st2 := CommitLogs(st1, unseen, |st.bus|);
        CommitKeeps(e, st1, unseen, |st.bus|, once);
        forall l ensures Committed(st2.commits, l) <==> Committed(st.commits, l) || l in unseen {
          CommittedGrows(st.commits, Commit(unseen, |st.bus|), l);
        }
        forall l | l in logs && Relevant(l, e.watched) ensures Committed(st2.commits, l) {
          if Id(l) in st.seen {
            var m :| m in st.life && Id(m) == Id(l) && m.block == st.seen[Id(l)];
            assert m == l;
          }
        }
        if doAdvance {
          AdvanceKeeps(e, st2, block, once);
        }
      }
    }
  }

  lemma UnseenDistinct(logs: seq<Log>, watched: set<Address>, seen: map<LogId, nat>)
    requires Distinct(logs)
    ensures Distinct(Unseen(logs, watched, seen))
  {
    FilterDistinct((l: Log) => Relevant(l, watched) && Id(l) !in seen, logs);
  }

  // ---- Backfill ----

  lemma {:induction false} LogsInMember(e: Env, from: nat, to: nat, l: Log)
    requires ChainOk(e)
    ensures l in LogsIn(e.chain, from, to) <==> from <= l.block <= to && OnChain(e, l)
    decreases 0, to
  {
    if from <= to && to > 0 {
      LogsInMember(e, from, to - 1, l);
    }
  }

  lemma {:induction false} LogsInDistinct(e: Env, from: nat, to: nat)
    requires ChainOk(e)
    ensures Distinct(LogsIn(e.chain, from, to))
    decreases 0, to
  {
    if from <= to && to > 0 {
      LogsInDistinct(e, from, to - 1);
      var s := LogsIn(e.chain, from, to - 1);
      forall l | l in s ensures l !in e.chain(to) {
        LogsInMember(e, from, to - 1, l);
      }
      DistinctConcat(s, e.chain(to));
    }
  }

  /** One chunk of a backfill. */
  lemma ChunkKeeps(e: Env, st: WState, from: nat, end: nat, backfilled: bool, once: bool)
    requires ChainOk(e) && Inv(e, st, once) && from <= end
    requires Scanned(e, st, from) && (st.origin.None? ==> from == end)
    requires once ==> st.floor <= from
    ensures var (st1, ok) := Chunk(e, st, from, end, backfilled);
            && Inv(e, st1, once)
            && (st.origin.Some? ==> st1.origin == st.origin)
            && st1.floor <= FloorAfter(st.floor, end)
            && (ok ==> st1.cursor == Some(end) && st1.origin.Some? && Scanned(e, st1, end + 1))
  {
    hide Batch, LogsIn, OnBus;
    StampKeeps(e, st, once);
    var asked := st.(ops := st.ops + 1);
    var logs := LogsIn(e.chain, from, end);
    forall l ensures l in logs <==> from <= l.block <= end && OnChain(e, l) {
      LogsInMember(e, from, end, l);
    }
    LogsInDistinct(e, from, end);
    forall b, l | Lowest(st, end) <= b <= end && l in e.chain(b) && Relevant(l, e.watched)
      ensures l in logs || Committed(st.commits, l)
    {
      if b >= from {
        assert OnChain(e, l);
      }
    }
    BatchKeeps(e, asked, logs, end, true, backfilled, once);
  }

  /** A backfill keeps the invariant, and when it succeeds the cursor stands at its end. */
  lemma {:induction false} BackfillKeeps(e: Env, st: WState, from: nat, to: nat, backfilled: bool, once: bool)
    requires ChainOk(e) && Inv(e, st, once)
    requires Scanned(e, st, from) && (st.origin.None? ==> from >= to)
    requires once ==> st.floor <= from
    ensures var (st1, ok) := Backfill(e, st, from, to, backfilled);
            && Inv(e, st1, once)
            && (st.origin.Some? ==> st1.origin == st.origin)
            && st1.floor <= (if from <= to then FloorAfter(st.floor, to) else st.floor)
            && (ok && from <= to ==> st1.cursor == Some(to) && st1.origin.Some? && Scanned(e, st1, to + 1))
            && (from > to ==> ok && st1 == st)
    decreases if from > to then 0 else to - from + 1
  {
    hide Chunk, NoLoss, SeenSound, Once, Scanned;
    if from <= to {
      var end := ChunkEnd(e, from, to);
      ChunkKeeps(e, st, from, end, backfilled, once);
      var (st1, ok) := Chunk(e, st, from, end, backfilled);
      if ok && end < to {
        BackfillKeeps(e, st1, end + 1, to, backfilled, once);
      }
    }
  }

  // ---- The live loop ----

  /** Between events: everything delivered is committed or buffered, and the buffer is the pending block. */
  ghost predicate LiveInv(e: Env, st: WState, lv: Live, got: seq<Log>, a: nat, h: nat, once: bool)
  {
    && a <= h && st.origin.Some? && Scanned(e, st, h + 1)
    && (forall l :: l in got ==> OnChain(e, l) && a < l.block <= lv.pending)
    && (if got == [] then lv.pending == 0 else lv.pending == got[|got| - 1].block)
    && (forall l :: l in lv.buf ==> l in got && l.block == lv.pending)
    && (forall l :: l in got && Relevant(l, e.watched) ==> l in lv.buf || Committed(st.commits, l))
    && CompleteBelow(e, a, lv.pending, got)
    && (once ==> Distinct(lv.buf) && st.floor <= Max(a + 1, lv.pending))
  }

  /** Flushing the pending block, once it is complete, advances the cursor to it. */
  lemma FlushKeeps(e: Env, st: WState, lv: Live, got: seq<Log>, a: nat, h: nat, doAdvance: bool, once: bool)
    requires ChainOk(e) && Inv(e, st, once) && LiveInv(e, st, lv, got, a, h, once)
    requires lv.buf != []
    requires doAdvance ==> CompleteBelow(e, a, lv.pending + 1, got)
    ensures var (st1, ok) := Batch(e, st, lv.buf, lv.pending, doAdvance, false);
            && Inv(e, st1, once)
            && st1.floor <= FloorAfter(st.floor, lv.pending)
            && (ok ==> LiveInv(e, st1, lv.(buf := []), got, a, h, once))
  {
    hide Batch, NoLoss, SeenSound, Once;
    assert lv.buf[0] in lv.buf;
    if doAdvance {
      forall b, l | Lowest(st, lv.pending) <= b <= lv.pending && l in e.chain(b) && Relevant(l, e.watched)
        ensures l in lv.buf || Committed(st.commits, l)
      {
        if b > h {
          assert l in got;
        }
      }
    }
    BatchKeeps(e, st, lv.buf, lv.pending, doAdvance, false, once);
  }

  /** Buffering the next log of the feed. */
  lemma DeliverKeeps(e: Env, st: WState, lv: Live, got: seq<Log>, l: Log, a: nat, h: nat, once: bool)
    requires ChainOk(e) && LiveInv(e, st, lv, got, a, h, once) && NextOk(e, a, got, l)
    requires lv.buf != [] ==> l.block == lv.pending
    ensures l.block >= lv.pending
    ensures LiveInv(e, st, Live(lv.buf + [l], l.block, true), got + [l], a, h, once)
  {
    hide Scanned;
    var more := got + [l];
    assert forall m :: m in more <==> m in got || m == l;
    assert forall m :: m in lv.buf + [l] <==> m in lv.buf || m == l;
    assert more[|more| - 1] == l;
    if got != [] {
      assert got[|got| - 1] in got;
    }
    assert CompleteBelow(e, a, l.block, more);
    if once {
      DistinctConcat(lv.buf, [l]);
    }
  }

  /** The live loop keeps the invariant over every feed, however it ends. */
  lemma {:induction false} RunLiveKeeps(e: Env, st: WState, lv: Live, got: seq<Log>, evs: seq<LiveEvent>, a: nat, h: nat, once: bool)
    requires ChainOk(e) && Inv(e, st, once) && LiveInv(e, st, lv, got, a, h, once)
    requires FeedOk(e, a, got, lv.grew, evs)
    ensures var (st1, _) := RunLive(e, st, lv, evs);
            Inv(e, st1, once) && st1.floor <= Max(st.floor, Max(lv.pending, TopDelivered(evs)))
    decreases |evs|
  {
    hide Batch, Inv, LiveInv, ChainOk, NextOk, CompleteBelow;
    if evs == [] {
      return;
    }
    match evs[0]
    case Stop =>
      if lv.buf != [] {
        FlushKeeps(e, st, lv, got, a, h, false, once);
      } else {
        EmptyFlush(e, st, lv.pending);
      }
    case Deliver(l) =>
      if l.removed {
        RunLiveKeeps(e, st, lv, got, evs[1..], a, h, once);
      } else {
        NotBelowPending(e, st, lv, got, l, a, h, once);
        if lv.buf != [] && l.block > lv.pending {
          FlushKeeps(e, st, lv, got, a, h, true, once);
          var (st1, ok) := Batch(e, st, lv.buf, lv.pending, true, false);
          if ok {
            DeliverKeeps(e, st1, lv.(buf := []), got, l, a, h, once);
            assert [] + [l] == [l];
            RunLiveKeeps(e, st1, Live([l], l.block, true), got + [l], evs[1..], a, h, once);
          }
        } else {
          DeliverKeeps(e, st, lv, got, l, a, h, once);
          RunLiveKeeps(e, st, Live(lv.buf + [l], l.block, true), got + [l], evs[1..], a, h, once);
        }
      }
    case Tick =>
      if lv.grew || lv.buf == [] {
        GrewKeeps(e, st, lv, got, a, h, once);
        RunLiveKeeps(e, st, lv.(grew := false), got, evs[1..], a, h, once);
      } else {
        BufferedBlock(e, st, lv, got, a, h, once);
        FlushKeeps(e, st, lv, got, a, h, true, once);
        var (st1, ok) := Batch(e, st, lv.buf, lv.pending, true, false);
        if ok {
          RunLiveKeeps(e, st1, lv.(buf := []), got, evs[1..], a, h, once);
        }
      }
  }

  lemma EmptyFlush(e: Env, st: WState, block: nat)
    ensures Batch(e, st, [], block, false, false) == (st, true)
  {}

  lemma GrewKeeps(e: Env, st: WState, lv: Live, got: seq<Log>, a: nat, h: nat, once: bool)
    requires LiveInv(e, st, lv, got, a, h, once)
    ensures LiveInv(e, st, lv.(grew := false), got, a, h, once)
  {}

  lemma BufferedBlock(e: Env, st: WState, lv: Live, got: seq<Log>, a: nat, h: nat, once: bool)
    requires LiveInv(e, st, lv, got, a, h, once) && lv.buf != []
    ensures got != [] && lv.pending == got[|got| - 1].block
  {
    assert lv.buf[0] in lv.buf;
  }

  lemma NotBelowPending(e: Env, st: WState, lv: Live, got: seq<Log>, l: Log, a: nat, h: nat, once: bool)
    requires LiveInv(e, st, lv, got, a, h, once) && NextOk(e, a, got, l)
    ensures lv.pending <= l.block
    ensures l.block > lv.pending ==> CompleteBelow(e, a, lv.pending + 1, got)
  {}

  // ---- Cycles and runs ----

  /** The deep replay: from the cursor (or the head, the first time) to the head. */
  lemma ReplayKeeps(e: Env, st: WState, head: nat, once: bool)
    requires ChainOk(e) && Inv(e, st, once)
    requires once ==> st.floor <= head
    ensures var (st1, ok) := Backfill(e, st, StartBlock(st, head), head, true);
            && Inv(e, st1, once) && (once ==> st1.floor <= head)
            && (ok ==> st1.origin.Some? && Scanned(e, st1, head + 1))
  {
    hide Backfill, SeenSound, OnBus;
    BackfillKeeps(e, st, StartBlock(st, head), head, true, once);
  }

  /** The catch-up: from the old head to the head read after subscribing, when that is higher. */
  lemma CatchUpKeeps(e: Env, st: WState, head: nat, newHead: nat, once: bool)
    requires ChainOk(e) && Inv(e, st, once)
    requires st.origin.Some? && Scanned(e, st, head + 1)
    requires once ==> st.floor <= head
    ensures var (st1, ok) := CatchUp(e, st, head, newHead);
            && Inv(e, st1, once) && (once ==> st1.floor <= FloorAfter(head, newHead))
            && (ok ==> st1.origin.Some? && Scanned(e, st1, Max(head, newHead) + 1))
  {
    hide Backfill, NoLoss, SeenSound, Once, Scanned;
    if newHead > head {
      BackfillKeeps(e, st, head + 1, newHead, false, once);
    }
  }

  /** One cycle keeps the invariant, whatever its script makes fail. */
  lemma CycleKeeps(e: Env, st: WState, tip: nat, s: Script, once: bool)
    requires ChainOk(e) && Inv(e, st, once) && ScriptOk(e, tip, s, once)
    requires once ==> st.floor <= tip
    ensures var st1 := Cycle(e, st, s).0;
            Inv(e, st1, once)
            && (once ==> st1.floor <= Max(tip, Max(Max(ValueOr0(s.head), ValueOr0(s.newHead)), TopDelivered(s.events))))
  {
    hide Backfill, CatchUp, RunLive, Inv, TopDelivered, FeedOk, Scanned, StartBlock;
    if s.head.None? || !s.readOk {
      return;
    }
    var head := s.head.value;
    ReplayKeeps(e, st, head, once);
    var (st1, ok1) := Backfill(e, st, StartBlock(st, head), head, true);
    if !ok1 || s.activation.None? || s.newHead.None? {
      return;
    }
    CatchUpKeeps(e, st1, head, s.newHead.value, once);
    var (st2, ok2) := CatchUp(e, st1, head, s.newHead.value);
    if ok2 {
      RunLiveKeeps(e, st2, Live([], 0, false), [], s.events, s.activation.value, Max(head, s.newHead.value), once);
    }
  }

  /** Every state a run can reach satisfies the invariant. */
  lemma {:induction false} RunKeeps(e: Env, scripts: seq<Script>, once: bool)
    requires ChainOk(e) && ScriptsOk(e, scripts, once)
    ensures Inv(e, Run(e, FRESH, scripts), once)
    ensures once ==> Run(e, FRESH, scripts).floor <= Tip(scripts)
  {
    hide Inv, Cycle, ScriptOk, TopDelivered;
    if scripts == [] {
      FreshKeeps(e, once);
    } else {
      var n := |scripts| - 1;
      var rest := scripts[..n];
      forall i | 0 <= i < n ensures ScriptOk(e, Tip(rest[..i]), rest[i], once) {
        assert rest[..i] == scripts[..i];
      }
      RunKeeps(e, rest, once);
      CycleKeeps(e, Run(e, FRESH, rest), Tip(rest), scripts[n], once);
      RestartKeeps(e, Cycle(e, Run(e, FRESH, rest), scripts[n]).0, once);
    }
  }

  lemma FreshKeeps(e: Env, once: bool)
    ensures Inv(e, FRESH, once)
  {}

  lemma RestartKeeps(e: Env, st: WState, once: bool)
    requires Inv(e, st, once)
    ensures Inv(e, Restarted(st), once)
  {
    hide OnBus;
  }

  /**
   No loss. In every reachable state, every relevant log of the chain from the first
   persisted block up to the persisted cursor was consumed by a batch all of whose trades
   are on the bus.
   */
  lemma NothingLost(e: Env, scripts: seq<Script>, b: nat, l: Log)
    requires ChainOk(e) && ScriptsOk(e, scripts, false)
    requires l in e.chain(b) && Relevant(l, e.watched)
    requires var st := Run(e, FRESH, scripts); st.cursor.Some? && ValueOr0(st.origin) <= b <= st.cursor.value
    ensures var st := Run(e, FRESH, scripts);
            exists i :: 0 <= i < |st.commits| && l in st.commits[i].logs && OnBus(e, st.bus, st.commits[i])
  {
    hide Run, OnBus;
    RunKeeps(e, scripts, false);
  }

  /** So every watched wallet's fill in such a log is covered by a trade on the bus. */
  lemma EveryFillPublished(e: Env, scripts: seq<Script>, b: nat, l: Log, f: Fill)
    requires ChainOk(e) && ScriptsOk(e, scripts, false)
    requires l in e.chain(b) && f in FillsIn(l, e.watched)
    requires var st := Run(e, FRESH, scripts); st.cursor.Some? && ValueOr0(st.origin) <= b <= st.cursor.value
    ensures exists p :: p in Run(e, FRESH, scripts).bus && Covers(p.trade, f)
  {
    hide Run, ScriptsOk, Covers, Aggregate;
    NothingLost(e, scripts, b, l);
    var st := Run(e, FRESH, scripts);
    var i :| 0 <= i < |st.commits| && l in st.commits[i].logs && OnBus(e, st.bus, st.commits[i]);
    var fills := FillsOf(st.commits[i].logs, e.watched);
    FillsOfMember(st.commits[i].logs, e.watched, f);
    EveryFillCovered(fills, f);
    var j :| 0 <= j < |Aggregate(fills)| && Covers(Aggregate(fills)[j], f);
    assert st.bus[st.commits[i].start + j].trade == Aggregate(fills)[j];
  }

  /** No two logs of one transaction and index. */
  ghost predicate NoneTwice(logs: seq<Log>)
  {
    forall i, j :: 0 <= i < j < |logs| ==> logs[i].txHash != logs[j].txHash || logs[i].index != logs[j].index
  }

  /** Single commit. In every reachable state, this process has committed no log identity twice. */
  lemma CommittedOnce(e: Env, scripts: seq<Script>)
    requires ChainOk(e) && ScriptsOk(e, scripts, true)
    ensures NoneTwice(Run(e, FRESH, scripts).life)
  {
    hide Run, ScriptsOk;
    RunKeeps(e, scripts, true);
    var life := Run(e, FRESH, scripts).life;
    forall i, j | 0 <= i < j < |life| ensures Id(life[i]) != Id(life[j]) {
      assert life[i] in life && life[j] in life;
    }
  }

  // ---- The exact gap ----

  /** Heads never decrease, and each subscription activates between its two head reads. */
  ghost predicate HeadsInOrder(scripts: seq<Script>)
  {
    forall i :: 0 <= i < |scripts| && scripts[i].head.Some? ==>
      && Tip(scripts[..i]) <= scripts[i].head.value
      && (scripts[i].activation.Some? && scripts[i].newHead.Some? ==>
            scripts[i].head.value <= scripts[i].activation.value <= scripts[i].newHead.value)
  }

  ghost predicate GapAtMost(scripts: seq<Script>, gap: nat)
  {
    forall i :: 0 <= i < |scripts| && scripts[i].activation.Some? && scripts[i].newHead.Some? ==>
      scripts[i].newHead.value <= scripts[i].activation.value + gap
  }

  /** With heads in order and catch-ups at most `gap` blocks past the activation, no run commits a log twice. */
  ghost predicate CommitsOnceWithin(gap: nat)
  {
    forall e: Env, scripts: seq<Script> ::
      ChainOk(e) && ScriptsOk(e, scripts, false) && HeadsInOrder(scripts) && GapAtMost(scripts, gap) ==>
        NoneTwice(Run(e, FRESH, scripts).life)
  }

  lemma OnceFromGap(e: Env, scripts: seq<Script>, gap: nat)
    requires ScriptsOk(e, scripts, false) && HeadsInOrder(scripts) && GapAtMost(scripts, gap) && gap <= REORG_DEPTH + 1
    ensures ScriptsOk(e, scripts, true)
  {
    hide Tip, FeedOk;
    forall i | 0 <= i < |scripts| ensures ScriptOk(e, Tip(scripts[..i]), scripts[i], true) {
      assert ScriptOk(e, Tip(scripts[..i]), scripts[i], false);
    }
  }

  /** Single commit holds exactly up to a gap of 129 blocks, one more than the dedup entries are kept for. */
  lemma SingleCommitExactGap(gap: nat)
    ensures CommitsOnceWithin(gap) <==> gap <= 129
  {
    hide Run, ScriptsOk, HeadsInOrder, GapAtMost, OneLogScript;
    if gap <= REORG_DEPTH + 1 {
      forall e: Env, scripts: seq<Script>
        | ChainOk(e) && ScriptsOk(e, scripts, false) && HeadsInOrder(scripts) && GapAtMost(scripts, gap)
        ensures NoneTwice(Run(e, FRESH, scripts).life)
      {
        OnceFromGap(e, scripts, gap);
        CommittedOnce(e, scripts);
      }
    } else {
      CommittedTwice(gap, 2000);
      SameLogTwice();
    }
  }

  lemma SameLogTwice()
    ensures !NoneTwice([ONE_LOG, ONE_LOG])
  {
    var logs := [ONE_LOG, ONE_LOG];
    assert logs[0].txHash == logs[1].txHash && logs[0].index == logs[1].index;
  }

  /** A single log, in block 1, of watched maker 1. */
  const ONE_LOG := Log(7, 0, 1, false, Some(Event(1, 2, true, 3, 4, 5)))

  /** Nothing ever fails; any chunk size. */
  function OneLogEnv(chunk: nat): Env
  {
    Env(b => if b == 1 then [ONE_LOG] else [], {1}, chunk, _ => Done)
  }

  /** Subscribed at block 0, the catch-up reads head `gap`, and block 1 still arrives live. */
  function OneLogScript(gap: nat): Script
  {
    Script(Some(0), true, Some(0), Some(gap), [Deliver(ONE_LOG), Stop], false)
  }

  lemma {:induction false} OneLogIn(chunk: nat, from: nat, n: nat)
    requires from >= 1
    ensures LogsIn(OneLogEnv(chunk).chain, from, n) == if from == 1 <= n then [ONE_LOG] else []
    decreases n
  {
    var e := OneLogEnv(chunk);
    if from <= n {
      OneLogIn(chunk, from, n - 1);
      assert e.chain(n) == if n == 1 then [ONE_LOG] else [];
    }
  }

  lemma {:induction false} EmitAllDone(e: Env, st: WState, ts: seq<Trade>, backfilled: bool)
    requires forall n :: e.fate(n) == Done
    ensures EmitAll(e, st, ts, backfilled).1
    decreases |ts|
  {
    if ts != [] {
      EmitAllDone(e, Sent(st, ts[0], backfilled), ts[1..], backfilled);
    }
  }

  /** Marked in its own block, if at all. */
  predicate MarkedAtOne(seen: map<LogId, nat>)
  {
    Id(ONE_LOG) in seen ==> seen[Id(ONE_LOG)] == 1
  }

  /** Committing the one log when it is not marked seen. */
  lemma OneLogBatch(chunk: nat, st: WState, block: nat, doAdvance: bool, backfilled: bool)
    requires Id(ONE_LOG) !in st.seen
    ensures var (st1, ok) := Batch(OneLogEnv(chunk), st, [ONE_LOG], block, doAdvance, backfilled);
            && ok && st1.life == st.life + [ONE_LOG] && MarkedAtOne(st1.seen)
            && st1.cursor == (if doAdvance then Some(block) else st.cursor)
            && (doAdvance && block > REORG_DEPTH + 1 ==> Id(ONE_LOG) !in st1.seen)
  {
    hide EmitAll, Aggregate, Unseen, FillsOf;
    var e := OneLogEnv(chunk);
    var unseen := Unseen([ONE_LOG], e.watched, st.seen);
    assert unseen == [ONE_LOG] by {
      UnseenSnoc([], ONE_LOG, e.watched, st.seen);
      assert [] + [ONE_LOG] == [ONE_LOG];
      EmptyUnseen(e.watched, st.seen);
    }
    var ts := Aggregate(FillsOf(unseen, e.watched));
    EmitAllDone(e, st, ts, backfilled);
    EmitAllBus(e, st, ts, backfilled);
    MarkAllEntries(st.seen, [ONE_LOG], Id(ONE_LOG));
  }

  lemma EmptyUnseen(watched: set<Address>, seen: map<LogId, nat>)
    ensures Unseen([], watched, seen) == []
  {}

  /**
   With a wider gap, and whatever the chunk size, the log is committed by the catch-up,
   pruned, and committed again live.
   */
  lemma CommittedTwice(gap: nat, chunk: nat)
    requires gap > REORG_DEPTH + 1 && chunk >= 1
    ensures var e, scripts := OneLogEnv(chunk), [OneLogScript(gap)];
            && ChainOk(e) && ScriptsOk(e, scripts, false) && HeadsInOrder(scripts) && GapAtMost(scripts, gap)
            && Run(e, FRESH, scripts).life == [ONE_LOG, ONE_LOG]
  {
    var e, s := OneLogEnv(chunk), OneLogScript(gap);
    hide Batch, Backfill, RunLive, ChainOk, ScriptsOk, HeadsInOrder, GapAtMost, OneLogEnv;
    OneLogFeed(gap, chunk);
    EmptyScan(chunk);
    var st1 := Backfill(e, FRESH, 0, 0, true).0;
    CatchUpCommits(gap, chunk, st1);
    var st2 := Backfill(e, st1, 1, gap, false).0;
    OneLogBatch(chunk, st2, 1, false, false);
    LiveOnce(chunk, st2);
    assert Cycle(e, FRESH, s).0.life == [ONE_LOG, ONE_LOG];
    SingleScript(e, s);
  }

  lemma SingleScript(e: Env, s: Script)
    requires e.chunk >= 1 && !s.restart
    ensures Run(e, FRESH, [s]) == Cycle(e, FRESH, s).0
  {
    hide Cycle;
    assert [s][..|[s]| - 1] == [];
    assert Run(e, FRESH, []) == FRESH;
  }

  /** One chunk of the catch-up. */
  lemma OneLogChunk(chunk: nat, st: WState, from: nat, end: nat)
    requires 1 <= from <= end && MarkedAtOne(st.seen) && (from == 1 ==> Id(ONE_LOG) !in st.seen)
    ensures var (st1, ok) := Chunk(OneLogEnv(chunk), st, from, end, false);
            && ok && st1.life == (if from == 1 then st.life + [ONE_LOG] else st.life) && MarkedAtOne(st1.seen)
            && (end > REORG_DEPTH + 1 ==> Id(ONE_LOG) !in st1.seen)
  {
    hide LogsIn, Batch, OneLogEnv;
    OneLogIn(chunk, from, end);
    ChunkIs(chunk);
    var asked := st.(ops := st.ops + 1);
    if from == 1 {
      OneLogBatch(chunk, asked, end, true, false);
    } else {
      EmptyBatch(chunk, asked, end);
    }
  }

  lemma EmptyBatch(chunk: nat, st: WState, end: nat)
    requires MarkedAtOne(st.seen)
    ensures var (st1, ok) := Batch(OneLogEnv(chunk), st, [], end, true, false);
            && ok && st1.life == st.life && MarkedAtOne(st1.seen)
            && (end > REORG_DEPTH + 1 ==> Id(ONE_LOG) !in st1.seen)
  {
    hide EmitAll, Aggregate, Unseen, FillsOf;
  }

  /** The rest of the catch-up commits nothing; its last advance prunes the log. */
  lemma {:induction false} CatchUpCommits(gap: nat, chunk: nat, st: WState, from: nat := 1)
    requires gap > REORG_DEPTH + 1 && chunk >= 1 && 1 <= from <= gap
    requires MarkedAtOne(st.seen) && (from == 1 ==> Id(ONE_LOG) !in st.seen)
    ensures var (st1, ok) := Backfill(OneLogEnv(chunk), st, from, gap, false);
            ok && st1.life == (if from == 1 then st.life + [ONE_LOG] else st.life) && Id(ONE_LOG) !in st1.seen
    decreases gap - from
  {
    hide Chunk, OneLogEnv;
    var e := OneLogEnv(chunk);
    ChunkIs(chunk);
    var end := ChunkEnd(e, from, gap);
    OneLogChunk(chunk, st, from, end);
    var st1 := Chunk(e, st, from, end, false).0;
    if end < gap {
      CatchUpCommits(gap, chunk, st1, end + 1);
    }
  }

  lemma ChunkIs(chunk: nat)
    ensures OneLogEnv(chunk).chunk == chunk && forall n :: OneLogEnv(chunk).fate(n) == Done
  {}

  lemma OneLogFeed(gap: nat, chunk: nat)
    requires gap >= 1 && chunk >= 1
    ensures ChainOk(OneLogEnv(chunk)) && ScriptsOk(OneLogEnv(chunk), [OneLogScript(gap)], false)
    ensures HeadsInOrder([OneLogScript(gap)]) && GapAtMost([OneLogScript(gap)], gap)
  {
    var e, s := OneLogEnv(chunk), OneLogScript(gap);
    var stop: seq<LiveEvent> := [Stop];
    assert s.events[1..] == stop;
    assert FeedOk(e, 0, [ONE_LOG], true, stop);
    assert NextOk(e, 0, [], ONE_LOG);
    assert [] + [ONE_LOG] == [ONE_LOG];
    assert FeedOk(e, 0, [], false, s.events);
    assert [s][..0] == [];
  }

  lemma EmptyScan(chunk: nat)
    requires chunk >= 1
    ensures var (st, ok) := Backfill(OneLogEnv(chunk), FRESH, 0, 0, true);
            ok && st.cursor == Some(0) && st.seen == map[] && st.life == []
  {
    var e := OneLogEnv(chunk);
    assert LogsIn(e.chain, 0, 0) == [];
    assert Backfill(e, Chunk(e, FRESH, 0, 0, true).0, 0 + e.chunk, 0, true).1;
  }

  lemma LiveOnce(chunk: nat, st: WState)
    ensures RunLive(OneLogEnv(chunk), st, Live([], 0, false), [Deliver(ONE_LOG), Stop]).0
            == Batch(OneLogEnv(chunk), st, [ONE_LOG], 1, false, false).0
  {
    hide Batch;
    var evs := [Deliver(ONE_LOG), Stop];
    assert evs[1..] == [Stop] && [] + [ONE_LOG] == [ONE_LOG];
    assert RunLive(OneLogEnv(chunk), st, Live([ONE_LOG], 1, true), [Stop]).0
           == Batch(OneLogEnv(chunk), st, [ONE_LOG], 1, false, false).0;
  }
}
