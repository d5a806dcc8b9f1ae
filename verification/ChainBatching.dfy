/**
 Batching preserves meaning: on a failure-free scan the trades published are those of one
 aggregation over all unseen relevant logs, whatever the chunk size, and whether the logs
 come from a backfill or block by block from the live feed.
 */
module ChainBatching {
  import opened Effects
  import opened Seqs
  import opened Decode
  import opened Aggregation
  import opened Dedup
  import opened Engine
  import opened ChainWatch
  import opened ChainSafety

  ghost predicate AllDone(e: Env) { forall n :: e.fate(n) == Done }

  function TradeOf(p: Published): Trade { p.trade }

  /** The trades published after the first n. */
  function TradesSince(bus: seq<Published>, n: nat): seq<Trade>
    requires n <= |bus|
  {
    Map(TradeOf, bus[n..])
  }

  ghost function SentSince(bus: seq<Published>, n: nat): multiset<Trade>
    requires n <= |bus|
  {
    multiset(TradesSince(bus, n))
  }

  /** What one aggregation over all unseen relevant logs would publish. */
  ghost function OneShot(e: Env, logs: seq<Log>, seen: map<LogId, nat>): multiset<Trade>
  {
    multiset(Aggregate(FillsOf(Unseen(logs, e.watched, seen), e.watched)))
  }

  /** From st to st1 the bus grew by what one aggregation over `logs` would publish. */
  ghost predicate Publishes(e: Env, st: WState, st1: WState, logs: seq<Log>)
  {
    st.bus <= st1.bus && SentSince(st1.bus, |st.bus|) == OneShot(e, logs, st.seen)
  }

  /** The meaning of `all` splits into that of `a`, and of `b` as seen after `a`. */
  ghost predicate Splits(e: Env, st: WState, st1: WState, all: seq<Log>, a: seq<Log>, b: seq<Log>)
  {
    OneShot(e, all, st.seen) == OneShot(e, a, st.seen) + OneShot(e, b, st1.seen)
  }

  lemma PublishesBoth(e: Env, st: WState, st1: WState, st2: WState, all: seq<Log>, a: seq<Log>, b: seq<Log>)
    requires Publishes(e, st, st1, a) && Publishes(e, st1, st2, b) && Splits(e, st, st1, all, a, b)
    ensures Publishes(e, st, st2, all)
  {
    hide OneShot;
    assert TradesSince(st2.bus, |st.bus|) == TradesSince(st1.bus, |st.bus|) + TradesSince(st2.bus, |st1.bus|);
  }

  /** A failure-free batch publishes exactly its unseen fills' trades. */
  lemma BatchPublishes(e: Env, st: WState, logs: seq<Log>, block: nat, doAdvance: bool, backfilled: bool)
    requires AllDone(e)
    ensures var (st1, ok) := Batch(e, st, logs, block, doAdvance, backfilled);
            && ok && Publishes(e, st, st1, logs)
            && st1.seen == (var m := MarkAll(st.seen, Unseen(logs, e.watched, st.seen));
                            if doAdvance && block > REORG_DEPTH then Pruned(m, block - REORG_DEPTH) else m)
  {
    hide EmitAll, Aggregate, Unseen, FillsOf;
    var unseen := Unseen(logs, e.watched, st.seen);
    var ts := Aggregate(FillsOf(unseen, e.watched));
    if logs == [] {
      EmptyUnseen(e.watched, st.seen);
      assert FillsOf([], e.watched) == [] && Aggregate([]) == [] by { EmptyAggregate(e.watched); }
    } else {
      EmitAllDone(e, st, ts, backfilled);
      EmitAllBus(e, st, ts, backfilled);
      assert TradesSince(EmitAll(e, st, ts, backfilled).0.bus, |st.bus|) == ts;
    }
  }

  lemma EmptyAggregate(watched: set<Address>)
    ensures FillsOf([], watched) == [] && Aggregate([]) == []
  {}

  lemma LifeLog(e: Env, st: WState, l: Log)
    requires ChainOk(e) && SeenSound(e, st) && OnChain(e, l) && Id(l) in st.seen
    ensures l in st.life && st.seen[Id(l)] == l.block
  {
    var m :| m in st.life && Id(m) == Id(l) && m.block == st.seen[Id(l)];
    assert m == l;
  }

  /** A batch does not change what is seen of the logs that come after it. */
  lemma SeenOfLaterLog(e: Env, st: WState, logs: seq<Log>, block: nat, doAdvance: bool, backfilled: bool, l: Log)
    requires AllDone(e) && ChainOk(e) && SeenSound(e, st)
    requires forall m :: m in logs ==> OnChain(e, m)
    requires OnChain(e, l) && l !in logs && (doAdvance ==> l.block + REORG_DEPTH >= block)
    ensures Id(l) in Batch(e, st, logs, block, doAdvance, backfilled).0.seen <==> Id(l) in st.seen
  {
    hide Batch, MarkAll, Unseen;
    var unseen := Unseen(logs, e.watched, st.seen);
    BatchPublishes(e, st, logs, block, doAdvance, backfilled);
    MarkAllEntries(st.seen, unseen, Id(l));
    forall m | m in unseen ensures Id(m) != Id(l) {
      UnseenMember(logs, e.watched, st.seen, m);
    }
    if Id(l) in st.seen {
      LifeLog(e, st, l);
    }
  }

  lemma UnseenAgree(logs: seq<Log>, watched: set<Address>, a: map<LogId, nat>, b: map<LogId, nat>)
    requires forall l :: l in logs ==> (Id(l) in a <==> Id(l) in b)
    ensures Unseen(logs, watched, a) == Unseen(logs, watched, b)
  {
    FilterAgree((l: Log) => Relevant(l, watched) && Id(l) !in a, (l: Log) => Relevant(l, watched) && Id(l) !in b, logs);
  }

  /** Logs of different blocks never share a transaction, so two batches add up. */
  lemma OneShotConcat(e: Env, a: seq<Log>, b: seq<Log>, seen: map<LogId, nat>)
    requires ChainOk(e)
    requires forall l :: l in a || l in b ==> OnChain(e, l)
    requires forall l, m :: l in a && m in b ==> l.block != m.block
    ensures OneShot(e, a + b, seen) == OneShot(e, a, seen) + OneShot(e, b, seen)
  {
    hide Aggregate, FillsOf, Unseen;
    var ua, ub := Unseen(a, e.watched, seen), Unseen(b, e.watched, seen);
    UnseenConcat(a, b, e.watched, seen);
    FillsOfConcat(ua, ub, e.watched);
    var fa, fb := FillsOf(ua, e.watched), FillsOf(ub, e.watched);
    forall i, j | 0 <= i < |fa| && 0 <= j < |fb| ensures fa[i].txHash != fb[j].txHash {
      var l := LogOfFill(a, e.watched, seen, fa[i]);
      var m := LogOfFill(b, e.watched, seen, fb[j]);
    }
    AggregateConcat(fa, fb);
  }

  lemma UnseenConcat(a: seq<Log>, b: seq<Log>, watched: set<Address>, seen: map<LogId, nat>)
    ensures Unseen(a + b, watched, seen) == Unseen(a, watched, seen) + Unseen(b, watched, seen)
  {
    FilterConcat((l: Log) => Relevant(l, watched) && Id(l) !in seen, a, b);
  }

  lemma LogOfFill(logs: seq<Log>, watched: set<Address>, seen: map<LogId, nat>, f: Fill) returns (l: Log)
    requires f in FillsOf(Unseen(logs, watched, seen), watched)
    ensures l in logs && l.txHash == f.txHash && l.block == f.blockNumber
  {
    hide FillsIn, Unseen;
    var unseen := Unseen(logs, watched, seen);
    FillsOfMember(unseen, watched, f);
    l :| l in unseen && f in FillsIn(l, watched);
    FillCoordinates(l, watched, f);
    UnseenMember(logs, watched, seen, l);
  }

  lemma {:induction false} LogsInSplit(chain: nat -> seq<Log>, from: nat, mid: nat, to: nat)
    requires from <= mid < to
    ensures LogsIn(chain, from, to) == LogsIn(chain, from, mid) + LogsIn(chain, mid + 1, to)
    decreases 0, to
  {
    if to == mid + 1 {
      assert LogsIn(chain, mid + 1, mid) == [];
    } else {
      LogsInSplit(chain, from, mid, to - 1);
    }
  }

  /**
   A failure-free backfill succeeds and publishes, as a multiset, what one aggregation over
   the whole range would: the right-hand side does not mention the chunk size.
   */
  lemma {:induction false} BackfillPublishesOneShot(e: Env, st: WState, from: nat, to: nat, backfilled: bool)
    requires AllDone(e) && ChainOk(e) && Inv(e, st, false)
    requires Scanned(e, st, from) && (st.origin.None? ==> from >= to)
    ensures var (st1, ok) := Backfill(e, st, from, to, backfilled);
            ok && Publishes(e, st, st1, LogsIn(e.chain, from, to))
    decreases if from > to then 0 else to - from + 1
  {
    hide *;
    ChunkPositive(e);
    BackfillUnfold(e, st, from, to, backfilled);
    if from > to {
      EmptyRange(e, st, from, to);
      return;
    }
    var end := ChunkEnd(e, from, to);
    ChunkKeeps(e, st, from, end, backfilled, false);
    ChunkPublishes(e, st, from, end, backfilled);
    if end < to {
      var st1 := Chunk(e, st, from, end, backfilled).0;
      BackfillPublishesOneShot(e, st1, end + 1, to, backfilled);
      ChunkThenRest(e, st, from, end, to, backfilled, Backfill(e, st1, end + 1, to, backfilled).0);
    }
  }

  lemma ChunkPositive(e: Env)
    requires ChainOk(e)
    ensures e.chunk >= 1
  {}

  lemma ChunkThenRest(e: Env, st: WState, from: nat, end: nat, to: nat, backfilled: bool, st2: WState)
    requires AllDone(e) && ChainOk(e) && Inv(e, st, false) && from <= end < to
    requires Publishes(e, Chunk(e, st, from, end, backfilled).0, st2, LogsIn(e.chain, end + 1, to))
    ensures Publishes(e, st, st2, LogsIn(e.chain, from, to))
  {
    hide *;
    ChunkPublishes(e, st, from, end, backfilled);
    RangeSplit(e, st, from, end, to, backfilled);
    PublishesBoth(e, st, Chunk(e, st, from, end, backfilled).0, st2, LogsIn(e.chain, from, to),
                  LogsIn(e.chain, from, end), LogsIn(e.chain, end + 1, to));
  }

  lemma BackfillUnfold(e: Env, st: WState, from: nat, to: nat, backfilled: bool)
    requires e.chunk >= 1
    ensures from > to ==> Backfill(e, st, from, to, backfilled) == (st, true)
    ensures from <= to ==>
              var end := ChunkEnd(e, from, to);
              var (st1, ok) := Chunk(e, st, from, end, backfilled);
              ok ==> Backfill(e, st, from, to, backfilled)
                     == if end < to then Backfill(e, st1, end + 1, to, backfilled) else (st1, true)
  {
    hide Chunk;
  }

  lemma EmptyRange(e: Env, st: WState, from: nat, to: nat)
    requires from > to
    ensures Publishes(e, st, st, LogsIn(e.chain, from, to))
  {
    EmptyUnseen(e.watched, st.seen);
    EmptyAggregate(e.watched);
  }

  lemma ChunkPublishes(e: Env, st: WState, from: nat, end: nat, backfilled: bool)
    requires AllDone(e)
    ensures var (st1, ok) := Chunk(e, st, from, end, backfilled);
            ok && Publishes(e, st, st1, LogsIn(e.chain, from, end))
  {
    hide Batch, OneShot, LogsIn;
    BatchPublishes(e, st.(ops := st.ops + 1), LogsIn(e.chain, from, end), end, true, backfilled);
  }

  /** Scanning [from, end] first leaves the meaning of [end + 1, to] alone, and the two add up. */
  lemma RangeSplit(e: Env, st: WState, from: nat, end: nat, to: nat, backfilled: bool)
    requires AllDone(e) && ChainOk(e) && Inv(e, st, false) && from <= end < to
    ensures var st1 := Chunk(e, st, from, end, backfilled).0;
            Splits(e, st, st1, LogsIn(e.chain, from, to), LogsIn(e.chain, from, end), LogsIn(e.chain, end + 1, to))
  {
    hide Batch, LogsIn, Unseen, FillsOf, Aggregate, NoLoss;
    var first, second := LogsIn(e.chain, from, end), LogsIn(e.chain, end + 1, to);
    var asked := st.(ops := st.ops + 1);
    var st1 := Batch(e, asked, first, end, true, backfilled).0;
    forall l ensures l in first <==> from <= l.block <= end && OnChain(e, l) {
      LogsInMember(e, from, end, l);
    }
    forall l ensures l in second <==> end < l.block <= to && OnChain(e, l) {
      LogsInMember(e, end + 1, to, l);
    }
    forall l | l in second ensures Id(l) in st1.seen <==> Id(l) in st.seen {
      SeenOfLaterLog(e, asked, first, end, true, backfilled, l);
    }
    UnseenAgree(second, e.watched, st1.seen, st.seen);
    LogsInSplit(e.chain, from, end, to);
    OneShotConcat(e, first, second, st.seen);
  }

  /** Two chunk sizes publish the same multiset of trades. */
  lemma ChunkSizeIrrelevant(e: Env, chunk: nat, st: WState, from: nat, to: nat, backfilled: bool)
    requires AllDone(e) && ChainOk(e) && chunk >= 1 && Inv(e, st, false)
    requires Scanned(e, st, from) && (st.origin.None? ==> from >= to)
    ensures var b1 := Backfill(e, st, from, to, backfilled).0.bus;
            var b2 := Backfill(e.(chunk := chunk), st, from, to, backfilled).0.bus;
            && st.bus <= b1 && st.bus <= b2
            && SentSince(b1, |st.bus|) == SentSince(b2, |st.bus|)
  {
    hide Backfill, ChainOk, NoLoss, SeenSound, Once;
    var e2 := e.(chunk := chunk);
    Rechunked(e, chunk, st);
    assert Scanned(e2, st, from);
    BackfillPublishesOneShot(e, st, from, to, backfilled);
    BackfillPublishesOneShot(e2, st, from, to, backfilled);
  }

  lemma Rechunked(e: Env, chunk: nat, st: WState)
    requires ChainOk(e) && chunk >= 1 && Inv(e, st, false)
    ensures ChainOk(e.(chunk := chunk)) && Inv(e.(chunk := chunk), st, false)
  {
    var e2 := e.(chunk := chunk);
    forall i | 0 <= i < |st.commits| ensures OnBus(e2, st.bus, st.commits[i]) {
      assert OnBus(e, st.bus, st.commits[i]);
    }
    hide OnBus;
    forall l ensures OnChain(e2, l) <==> OnChain(e, l) {
    }
    assert Scanned(e2, st, ValueOr0(st.cursor) + 1) <==> Scanned(e, st, ValueOr0(st.cursor) + 1);
  }

  // ---- The live feed ----

  /** The logs delivered before the loop stops. */
  function Delivered(evs: seq<LiveEvent>): seq<Log>
  {
    if evs == [] || evs[0].Stop? then []
    else if evs[0].Deliver? && !evs[0].log.removed then [evs[0].log] + Delivered(evs[1..])
    else Delivered(evs[1..])
  }

  /** What is still to be delivered is new, in order, and above everything that is complete. */
  lemma {:induction false} DeliveredLater(e: Env, a: nat, got: seq<Log>, recent: bool, evs: seq<LiveEvent>, l: Log)
    requires FeedOk(e, a, got, recent, evs) && l in Delivered(evs)
    ensures OnChain(e, l) && l !in got
    ensures got != [] ==> got[|got| - 1].block <= l.block
    ensures got != [] && CompleteBelow(e, a, got[|got| - 1].block + 1, got) ==> got[|got| - 1].block < l.block || l.block <= a
    ensures l.block > a
    decreases |evs|
  {
    match evs[0]
    case Stop => assert false;
    case Tick => DeliveredLater(e, a, got, false, evs[1..], l);
    case Deliver(m) =>
      if m.removed {
        DeliveredLater(e, a, got, recent, evs[1..], l);
      } else if l == m {
        assert NextOk(e, a, got, l);
      } else {
        DeliveredLater(e, a, got + [m], true, evs[1..], l);
        assert (got + [m])[|got|] == m;
        assert l in got ==> l in got + [m];
      }
  }

  /** The live loop keeps its invariant and publishes what one aggregation over all its logs would. */
  lemma {:induction false} LivePublishesOneShot(
    e: Env, st: WState, lv: Live, got: seq<Log>, evs: seq<LiveEvent>, a: nat, h: nat)
    requires AllDone(e) && ChainOk(e) && Inv(e, st, false) && LiveInv(e, st, lv, got, a, h, false)
    requires FeedOk(e, a, got, lv.grew, evs) && Stop in evs
    ensures var (st1, ok) := RunLive(e, st, lv, evs);
            ok && Publishes(e, st, st1, lv.buf + Delivered(evs))
    decreases |evs|
  {
    hide Batch, Inv, LiveInv, ChainOk, NextOk, CompleteBelow, AllDone, Publishes, Splits;
    match evs[0]
    case Stop =>
      assert lv.buf + [] == lv.buf;
      BatchPublishes(e, st, lv.buf, lv.pending, false, false);
    case Deliver(l) =>
      if l.removed {
        LivePublishesOneShot(e, st, lv, got, evs[1..], a, h);
      } else {
        NotBelowPending(e, st, lv, got, l, a, h, false);
        if lv.buf != [] && l.block > lv.pending {
          FlushKeeps(e, st, lv, got, a, h, true, false);
          BatchPublishes(e, st, lv.buf, lv.pending, true, false);
          var st1 := Batch(e, st, lv.buf, lv.pending, true, false).0;
          DeliverKeeps(e, st1, lv.(buf := []), got, l, a, h, false);
          assert [] + [l] == [l];
          LivePublishesOneShot(e, st1, Live([l], l.block, true), got + [l], evs[1..], a, h);
          FlushSplit(e, st, lv, got, evs, a, h);
          PublishesBoth(e, st, st1, RunLive(e, st1, Live([l], l.block, true), evs[1..]).0,
                        lv.buf + Delivered(evs), lv.buf, Delivered(evs));
        } else {
          DeliverKeeps(e, st, lv, got, l, a, h, false);
          LivePublishesOneShot(e, st, Live(lv.buf + [l], l.block, true), got + [l], evs[1..], a, h);
          assert lv.buf + Delivered(evs) == (lv.buf + [l]) + Delivered(evs[1..]);
        }
      }
    case Tick =>
      if lv.grew || lv.buf == [] {
        GrewKeeps(e, st, lv, got, a, h, false);
        LivePublishesOneShot(e, st, lv.(grew := false), got, evs[1..], a, h);
      } else {
        BufferedBlock(e, st, lv, got, a, h, false);
        FlushKeeps(e, st, lv, got, a, h, true, false);
        BatchPublishes(e, st, lv.buf, lv.pending, true, false);
        var st1 := Batch(e, st, lv.buf, lv.pending, true, false).0;
        LivePublishesOneShot(e, st1, lv.(buf := []), got, evs[1..], a, h);
        assert [] + Delivered(evs[1..]) == Delivered(evs);
        FlushSplit(e, st, lv, got, evs, a, h);
        PublishesBoth(e, st, st1, RunLive(e, st1, lv.(buf := []), evs[1..]).0,
                      lv.buf + Delivered(evs), lv.buf, Delivered(evs));
      }
  }

  /** Flushing the complete pending block leaves the meaning of the rest alone, and the two add up. */
  lemma FlushSplit(e: Env, st: WState, lv: Live, got: seq<Log>, evs: seq<LiveEvent>, a: nat, h: nat)
    requires AllDone(e) && ChainOk(e) && Inv(e, st, false) && LiveInv(e, st, lv, got, a, h, false)
    requires FeedOk(e, a, got, lv.grew, evs) && lv.buf != []
    requires CompleteBelow(e, a, lv.pending + 1, got)
    ensures var st1 := Batch(e, st, lv.buf, lv.pending, true, false).0;
            Splits(e, st, st1, lv.buf + Delivered(evs), lv.buf, Delivered(evs))
  {
    hide Batch, Unseen, FillsOf, Aggregate, FeedOk, Delivered, NoLoss, Scanned, CompleteBelow;
    BufferedBlock(e, st, lv, got, a, h, false);
    var rest := Delivered(evs);
    forall l | l in rest ensures OnChain(e, l) && l !in got && l.block > lv.pending {
      DeliveredLater(e, a, got, lv.grew, evs, l);
    }
    var st1 := Batch(e, st, lv.buf, lv.pending, true, false).0;
    forall l | l in rest ensures Id(l) in st1.seen <==> Id(l) in st.seen {
      SeenOfLaterLog(e, st, lv.buf, lv.pending, true, false, l);
    }
    UnseenAgree(rest, e.watched, st1.seen, st.seen);
    OneShotConcat(e, lv.buf, rest, st.seen);
  }

  lemma UnseenPermutation(a: seq<Log>, b: seq<Log>, watched: set<Address>, seen: map<LogId, nat>)
    requires multiset(a) == multiset(b)
    ensures multiset(Unseen(a, watched, seen)) == multiset(Unseen(b, watched, seen))
  {
    FilterPermutation((l: Log) => Relevant(l, watched) && Id(l) !in seen, a, b);
  }

  /** The meaning of logs on the chain does not depend on their order. */
  lemma OneShotPermutation(e: Env, a: seq<Log>, b: seq<Log>, seen: map<LogId, nat>)
    requires ChainOk(e) && multiset(a) == multiset(b) && forall l :: l in a ==> OnChain(e, l)
    ensures OneShot(e, a, seen) == OneShot(e, b, seen)
  {
    hide Aggregate, FillsOf, Unseen, FillsIn;
    var ua, ub := Unseen(a, e.watched, seen), Unseen(b, e.watched, seen);
    UnseenPermutation(a, b, e.watched, seen);
    FillsOfPermutation(ua, ub, e.watched);
    var fa := FillsOf(ua, e.watched);
    forall i, j | 0 <= i < |fa| && 0 <= j < |fa| && fa[i].txHash == fa[j].txHash
      ensures fa[i].blockNumber == fa[j].blockNumber
    {
      var l := LogOfFill(a, e.watched, seen, fa[i]);
      var m := LogOfFill(a, e.watched, seen, fa[j]);
      assert OnChain(e, l) && OnChain(e, m);
    }
    AggregatePermutation(fa, FillsOf(ub, e.watched));
  }

  lemma AllOnChain(e: Env, from: nat, to: nat)
    requires ChainOk(e)
    ensures forall l :: l in LogsIn(e.chain, from, to) ==> OnChain(e, l)
  {
    forall l ensures l in LogsIn(e.chain, from, to) ==> OnChain(e, l) {
      LogsInMember(e, from, to, l);
    }
  }

  /**
   Flushing a range block by block from the live feed publishes what backfilling it would,
   in whatever order the feed delivers the logs of a block.
   */
  lemma LiveMatchesBackfill(e: Env, st: WState, from: nat, to: nat, evs: seq<LiveEvent>, a: nat, h: nat)
    requires AllDone(e) && ChainOk(e) && Inv(e, st, false)
    requires a <= h && st.origin.Some? && Scanned(e, st, h + 1) && Scanned(e, st, from)
    requires FeedOk(e, a, [], false, evs) && Stop in evs
    requires multiset(Delivered(evs)) == multiset(LogsIn(e.chain, from, to))
    ensures var live := RunLive(e, st, Live([], 0, false), evs).0.bus;
            var scan := Backfill(e, st, from, to, true).0.bus;
            && st.bus <= live && st.bus <= scan
            && SentSince(live, |st.bus|) == SentSince(scan, |st.bus|)
  {
    hide RunLive, Backfill, Inv, OneShot, LogsIn, Delivered, FeedOk, ChainOk;
    BackfillPublishesOneShot(e, st, from, to, true);
    LivePublishesOneShot(e, st, Live([], 0, false), [], evs, a, h);
    assert [] + Delivered(evs) == Delivered(evs);
    AllOnChain(e, from, to);
    OneShotPermutation(e, LogsIn(e.chain, from, to), Delivered(evs), st.seen);
  }

  // ---- A whole cycle, with its overlap ----

  /** What one chunk does to the dedup entry of a log. */
  lemma ChunkSeen(e: Env, st: WState, from: nat, end: nat, backfilled: bool, l: Log)
    requires AllDone(e) && ChainOk(e) && Inv(e, st, false) && OnChain(e, l)
    ensures var seen := Chunk(e, st, from, end, backfilled).0.seen;
            && (Id(l) in st.seen && l.block + REORG_DEPTH >= end ==> Id(l) in seen)
            && (from <= l.block <= end <= l.block + REORG_DEPTH && Relevant(l, e.watched) ==> Id(l) in seen)
            && (l.block > end && Id(l) in seen ==> Id(l) in st.seen)
  {
    hide Batch, MarkAll, Unseen, Relevant, LogsIn, Inv, ChainOk, SeenSound, OneShot, Publishes;
    var asked := st.(ops := st.ops + 1);
    var logs := LogsIn(e.chain, from, end);
    BatchPublishes(e, asked, logs, end, true, backfilled);
    AllOnChain(e, from, end);
    MarkedBy(e, st, logs, l);
    LogsInMember(e, from, end, l);
  }

  /** After marking a batch's unseen logs: the marked ones before, and its relevant ones, each with its own block. */
  lemma MarkedBy(e: Env, st: WState, logs: seq<Log>, l: Log)
    requires ChainOk(e) && Inv(e, st, false) && OnChain(e, l) && forall m :: m in logs ==> OnChain(e, m)
    ensures var seen := MarkAll(st.seen, Unseen(logs, e.watched, st.seen));
            && (Id(l) in seen <==> Id(l) in st.seen || (l in logs && Relevant(l, e.watched)))
            && (Id(l) in seen ==> seen[Id(l)] == l.block)
  {
    hide MarkAll, Unseen, Relevant, NoLoss;
    var unseen := Unseen(logs, e.watched, st.seen);
    MarkAllEntries(st.seen, unseen, Id(l));
    UnseenMember(logs, e.watched, st.seen, l);
    if Id(l) in st.seen {
      LifeLog(e, st, l);
    } else {
      forall m | m in unseen && Id(m) == Id(l) ensures m == l {
        UnseenMember(logs, e.watched, st.seen, m);
      }
    }
  }

  /** What a backfill does to it: kept within REORG_DEPTH of the end, marked in the range, untouched above. */
  lemma {:induction false} BackfillSeen(e: Env, st: WState, from: nat, to: nat, backfilled: bool, l: Log)
    requires AllDone(e) && ChainOk(e) && Inv(e, st, false) && OnChain(e, l)
    requires Scanned(e, st, from) && (st.origin.None? ==> from >= to)
    ensures var seen := Backfill(e, st, from, to, backfilled).0.seen;
            && (Id(l) in st.seen && l.block + REORG_DEPTH >= to ==> Id(l) in seen)
            && (from <= l.block <= to <= l.block + REORG_DEPTH && Relevant(l, e.watched) ==> Id(l) in seen)
            && (l.block > to && Id(l) in seen ==> Id(l) in st.seen)
    decreases if from > to then 0 else to - from + 1
  {
    hide *;
    ChunkPositive(e);
    BackfillUnfold(e, st, from, to, backfilled);
    if from <= to {
      var end := ChunkEnd(e, from, to);
      ChunkKeeps(e, st, from, end, backfilled, false);
      ChunkPublishes(e, st, from, end, backfilled);
      ChunkSeen(e, st, from, end, backfilled, l);
      if end < to {
        BackfillSeen(e, Chunk(e, st, from, end, backfilled).0, end + 1, to, backfilled, l);
      }
    }
  }

  /** The logs above a block. */
  function Above(logs: seq<Log>, n: nat): seq<Log>
  {
    Filter((l: Log) => l.block > n, logs)
  }

  lemma AboveMember(logs: seq<Log>, n: nat, l: Log)
    ensures l in Above(logs, n) <==> l in logs && l.block > n
  {
    FilterMember((l: Log) => l.block > n, logs, l);
  }

  /** Logs up to a block whose identities are all marked add nothing. */
  lemma OneShotAbove(e: Env, logs: seq<Log>, n: nat, seen: map<LogId, nat>)
    requires forall l :: l in logs && l.block <= n && Relevant(l, e.watched) ==> Id(l) in seen
    ensures OneShot(e, logs, seen) == OneShot(e, Above(logs, n), seen)
  {
    hide Aggregate, FillsOf, Relevant;
    FilterTwice((l: Log) => Relevant(l, e.watched) && Id(l) !in seen, (l: Log) => l.block > n, logs);
  }

  lemma OneShotAgree(e: Env, logs: seq<Log>, a: map<LogId, nat>, b: map<LogId, nat>)
    requires forall l :: l in logs ==> (Id(l) in a <==> Id(l) in b)
    ensures OneShot(e, logs, a) == OneShot(e, logs, b)
  {
    hide Aggregate, FillsOf, Unseen;
    UnseenAgree(logs, e.watched, a, b);
  }

  /** The range one cycle scans starts here. */
  function ScanStart(st: WState, head: nat): nat
  {
    if StartBlock(st, head) <= head then StartBlock(st, head) else head + 1
  }

  /** Replay and catch-up together publish what one aggregation over the range would. */
  lemma ScanPublishes(e: Env, st: WState, head: nat, newHead: nat)
    requires AllDone(e) && ChainOk(e) && Inv(e, st, false) && head <= newHead
    ensures var (st1, ok1) := Backfill(e, st, StartBlock(st, head), head, true);
            var (st2, ok2) := CatchUp(e, st1, head, newHead);
            ok1 && ok2 && Publishes(e, st, st2, LogsIn(e.chain, ScanStart(st, head), newHead))
  {
    hide Backfill, CatchUp, Publishes, LogsIn, Inv, Scanned, ChainOk, OneShot, Splits;
    ChunkPositive(e);
    var start := StartBlock(st, head);
    ReplayReady(e, st, head);
    ReplayKeeps(e, st, head, false);
    BackfillPublishesOneShot(e, st, start, head, true);
    var st1 := Backfill(e, st, start, head, true).0;
    CatchUpKeeps(e, st1, head, newHead, false);
    CatchUpPublishes(e, st1, head, newHead);
    var st2 := CatchUp(e, st1, head, newHead).0;
    var first, second := LogsIn(e.chain, start, head), LogsIn(e.chain, head + 1, newHead);
    ScanSplit(e, st, head, newHead);
    PublishesBoth(e, st, st1, st2, LogsIn(e.chain, ScanStart(st, head), newHead), first, second);
  }

  lemma ReplayReady(e: Env, st: WState, head: nat)
    requires Inv(e, st, false)
    ensures Scanned(e, st, StartBlock(st, head)) && (st.origin.None? ==> StartBlock(st, head) >= head)
  {
    hide OnBus;
  }

  lemma CatchUpPublishes(e: Env, st: WState, head: nat, newHead: nat)
    requires AllDone(e) && ChainOk(e) && Inv(e, st, false) && head <= newHead
    requires st.origin.Some? && Scanned(e, st, head + 1)
    ensures var (st1, ok) := CatchUp(e, st, head, newHead);
            ok && Publishes(e, st, st1, LogsIn(e.chain, head + 1, newHead))
  {
    hide Backfill, Publishes, LogsIn, Inv, Scanned;
    if newHead > head {
      BackfillPublishesOneShot(e, st, head + 1, newHead, false);
    } else {
      EmptyRange(e, st, head + 1, newHead);
    }
  }

  /** The replay leaves what the catch-up will see alone, and the two ranges make one. */
  lemma ScanSplit(e: Env, st: WState, head: nat, newHead: nat)
    requires AllDone(e) && ChainOk(e) && Inv(e, st, false) && head <= newHead
    ensures var start := StartBlock(st, head);
            var st1 := Backfill(e, st, start, head, true).0;
            Splits(e, st, st1, LogsIn(e.chain, ScanStart(st, head), newHead),
                   LogsIn(e.chain, start, head), LogsIn(e.chain, head + 1, newHead))
  {
    hide Backfill, LogsIn, Inv, Scanned, ChainOk, OneShot;
    ChunkPositive(e);
    var start := StartBlock(st, head);
    var st1 := Backfill(e, st, start, head, true).0;
    var first, second := LogsIn(e.chain, start, head), LogsIn(e.chain, head + 1, newHead);
    ReplayReady(e, st, head);
    forall l ensures l in first ==> l.block <= head && OnChain(e, l) {
      LogsInMember(e, start, head, l);
    }
    forall l ensures l in second ==> head < l.block && OnChain(e, l) {
      LogsInMember(e, head + 1, newHead, l);
    }
    forall l | l in second ensures Id(l) in st1.seen <==> Id(l) in st.seen {
      BackfillSeen(e, st, start, head, true, l);
    }
    OneShotAgree(e, second, st1.seen, st.seen);
    OneShotConcat(e, first, second, st.seen);
    RangesJoin(e.chain, start, head, newHead);
  }

  lemma RangesJoin(chain: nat -> seq<Log>, start: nat, head: nat, newHead: nat)
    requires head <= newHead
    ensures LogsIn(chain, if start <= head then start else head + 1, newHead)
            == LogsIn(chain, start, head) + LogsIn(chain, head + 1, newHead)
  {
    if start <= head < newHead {
      LogsInSplit(chain, start, head, newHead);
    }
  }

  /** Above the scanned range, replay and catch-up change no dedup entry; in the overlap, they have marked every relevant log. */
  lemma ScanSeen(e: Env, st: WState, head: nat, newHead: nat, l: Log)
    requires AllDone(e) && ChainOk(e) && Inv(e, st, false) && head <= newHead && OnChain(e, l)
    ensures var st1 := Backfill(e, st, StartBlock(st, head), head, true).0;
            var st2 := CatchUp(e, st1, head, newHead).0;
            && (l.block > newHead ==> (Id(l) in st2.seen <==> Id(l) in st.seen))
            && (head < l.block <= newHead <= l.block + REORG_DEPTH && Relevant(l, e.watched) ==> Id(l) in st2.seen)
  {
    hide Backfill, Inv, Scanned, ChainOk, Relevant, OnChain, AllDone;
    ChunkPositive(e);
    ReplayReady(e, st, head);
    ReplayKeeps(e, st, head, false);
    ScanOk(e, st, head);
    BackfillSeen(e, st, StartBlock(st, head), head, true, l);
    var st1 := Backfill(e, st, StartBlock(st, head), head, true).0;
    if newHead > head {
      BackfillSeen(e, st1, head + 1, newHead, false, l);
    }
  }

  lemma ScanOk(e: Env, st: WState, head: nat)
    requires AllDone(e) && ChainOk(e) && Inv(e, st, false)
    ensures Backfill(e, st, StartBlock(st, head), head, true).1
  {
    hide Backfill, Inv, Scanned;
    ReplayReady(e, st, head);
    BackfillPublishesOneShot(e, st, StartBlock(st, head), head, true);
  }

  /** A script within the gap in which every read works and the loop stops. */
  ghost predicate WholeCycle(e: Env, s: Script)
  {
    && s.head.Some? && s.readOk && s.activation.Some? && s.newHead.Some?
    && s.head.value <= s.activation.value <= s.newHead.value <= s.activation.value + REORG_DEPTH + 1
    && FeedOk(e, s.activation.value, [], false, s.events) && Stop in s.events
  }

  /**
   A whole failure-free cycle publishes, overlap and pruning notwithstanding, what one
   aggregation would over the scanned range and the logs delivered above it.
   */
  lemma CyclePublishesOneShot(e: Env, st: WState, s: Script)
    requires AllDone(e) && ChainOk(e) && Inv(e, st, false) && WholeCycle(e, s)
    ensures var (st1, ok) := Cycle(e, st, s);
            ok && Publishes(e, st, st1, LogsIn(e.chain, ScanStart(st, s.head.value), s.newHead.value)
                                        + Above(Delivered(s.events), s.newHead.value))
  {
    hide Backfill, CatchUp, RunLive, Publishes, LogsIn, Inv, Scanned, ChainOk, OneShot, Splits, Delivered, FeedOk, Above, ScanStart;
    ChunkPositive(e);
    var head, newHead := s.head.value, s.newHead.value;
    ScanPublishes(e, st, head, newHead);
    var st1 := Backfill(e, st, StartBlock(st, head), head, true).0;
    var st2 := CatchUp(e, st1, head, newHead).0;
    LivePart(e, st, s);
    var st3 := RunLive(e, st2, Live([], 0, false), s.events).0;
    var scanned := LogsIn(e.chain, ScanStart(st, head), newHead);
    PublishesBoth(e, st, st2, st3, scanned + Above(Delivered(s.events), newHead), scanned, Above(Delivered(s.events), newHead));
  }

  /** The live feed after the scan: it publishes what is above the scanned range, and the meanings add up. */
  lemma LivePart(e: Env, st: WState, s: Script)
    requires AllDone(e) && ChainOk(e) && Inv(e, st, false) && WholeCycle(e, s)
    ensures var head, newHead := s.head.value, s.newHead.value;
            var st2 := CatchUp(e, Backfill(e, st, StartBlock(st, head), head, true).0, head, newHead).0;
            var (st3, ok) := RunLive(e, st2, Live([], 0, false), s.events);
            var scanned, late := LogsIn(e.chain, ScanStart(st, head), newHead), Above(Delivered(s.events), newHead);
            ok && Publishes(e, st2, st3, late) && Splits(e, st, st2, scanned + late, scanned, late)
  {
    hide Backfill, CatchUp, RunLive, LogsIn, Inv, Scanned, ChainOk, OneShot, Delivered, FeedOk, Above, Relevant, StartBlock;
    ChunkPositive(e);
    var head, newHead, a := s.head.value, s.newHead.value, s.activation.value;
    var st2 := CatchUp(e, Backfill(e, st, StartBlock(st, head), head, true).0, head, newHead).0;
    var all, late := Delivered(s.events), Above(Delivered(s.events), newHead);
    var scanned := LogsIn(e.chain, ScanStart(st, head), newHead);
    LiveAfterScan(e, st, s);
    forall l | l in all ensures OnChain(e, l) && l.block > a
      ensures l.block <= newHead && Relevant(l, e.watched) ==> Id(l) in st2.seen
      ensures l.block > newHead ==> (Id(l) in st2.seen <==> Id(l) in st.seen)
    {
      DeliveredLater(e, a, [], false, s.events, l);
      ScanSeen(e, st, head, newHead, l);
    }
    OneShotAbove(e, all, newHead, st2.seen);
    forall l ensures l in late <==> l in all && l.block > newHead {
      AboveMember(all, newHead, l);
    }
    forall l ensures l in scanned ==> l.block <= newHead && OnChain(e, l) {
      LogsInMember(e, ScanStart(st, head), newHead, l);
    }
    OneShotAgree(e, late, st2.seen, st.seen);
    OneShotConcat(e, scanned, late, st.seen);
  }

  lemma LiveAfterScan(e: Env, st: WState, s: Script)
    requires AllDone(e) && ChainOk(e) && Inv(e, st, false) && WholeCycle(e, s)
    ensures var head, newHead := s.head.value, s.newHead.value;
            var st2 := CatchUp(e, Backfill(e, st, StartBlock(st, head), head, true).0, head, newHead).0;
            var (st3, ok) := RunLive(e, st2, Live([], 0, false), s.events);
            ok && Publishes(e, st2, st3, Delivered(s.events))
  {
    hide Backfill, RunLive, CatchUp, OneShot, Delivered, FeedOk, ChainOk, Publishes, SeenSound, OnBus, StartBlock;
    ChunkPositive(e);
    var head, newHead := s.head.value, s.newHead.value;
    ScanPublishes(e, st, head, newHead);
    ReplayKeeps(e, st, head, false);
    var st1 := Backfill(e, st, StartBlock(st, head), head, true).0;
    CatchUpKeeps(e, st1, head, newHead, false);
    var st2 := CatchUp(e, st1, head, newHead).0;
    LivePublishesOneShot(e, st2, Live([], 0, false), [], s.events, s.activation.value, newHead);
    assert [] + Delivered(s.events) == Delivered(s.events);
  }
}
