/**
 The watcher's recovery loop: backfill from the persisted cursor, subscribe, catch up,
 then flush live blocks; a batch is committed only after all its trades are published.

 Every external write (publish, FilterLogs, cursor write) asks the environment's `fate`
 how it ends. A crash between two writes leaves behind exactly what a failure of the next
 write followed by a restart leaves behind, so runs over arbitrary fates and scripts cover
 crashes at every point.
 */
module ChainWatch {
  import opened Effects
  import opened Seqs
  import opened Decode
  import opened Dedup
  import opened Engine
  import Watchset

  /** Keep dedup entries this far behind the advanced block. */
  const REORG_DEPTH: nat := 128

  /** The world around one watcher: the chain, the (fixed) watchset, and how its writes end. */
  datatype Env = Env(chain: nat -> seq<Log>, watched: set<Address>, chunk: nat, fate: nat -> Outcome)

  datatype Published = Published(trade: Trade, backfilled: bool)

  /** A batch whose trades were all accepted: its consumed logs, and where its trades start on the bus. */
  datatype Commit = Commit(logs: seq<Log>, start: nat)

  /**
   `cursor` and `bus` persist, `seen` is memory. The rest is history: `commits` since ever,
   `life` the logs committed by this process, `floor` the highest block it pruned below,
   `origin` the first block ever persisted, `ops` the number of external writes so far.
   */
  datatype WState = WState(
    cursor: Option<nat>, bus: seq<Published>, seen: map<LogId, nat>,
    commits: seq<Commit>, life: seq<Log>, floor: nat, origin: Option<nat>, ops: nat)

  const FRESH := WState(None, [], map[], [], [], 0, None, 0)

  function Restarted(st: WState): WState { st.(seen := map[], life := [], floor := 0) }

  // ---- Specification ----

  function Sent(st: WState, t: Trade, backfilled: bool): WState
  {
    st.(bus := st.bus + [Published(t, backfilled)], ops := st.ops + 1)
  }

  /** Publishes the trades in order; the first reported failure stops. */
  function EmitAll(e: Env, st: WState, ts: seq<Trade>, backfilled: bool): (WState, bool)
    decreases |ts|
  {
    if ts == [] then (st, true)
    else
      match e.fate(st.ops)
      case Done => EmitAll(e, Sent(st, ts[0], backfilled), ts[1..], backfilled)
      case Unsure => (Sent(st, ts[0], backfilled), false)
      case Failed => (st.(ops := st.ops + 1), false)
  }

  function MarkAll(seen: map<LogId, nat>, logs: seq<Log>): map<LogId, nat>
  {
    if logs == [] then seen
    else Marked(MarkAll(seen, logs[..|logs| - 1]), Id(logs[|logs| - 1]), logs[|logs| - 1].block)
  }

  function CommitLogs(st: WState, logs: seq<Log>, start: nat): WState
  {
    st.(seen := MarkAll(st.seen, logs), commits := st.commits + [Commit(logs, start)], life := st.life + logs)
  }

  function Written(st: WState, block: nat): WState
  {
    st.(cursor := Some(block), origin := if st.origin.None? then Some(block) else st.origin, ops := st.ops + 1)
  }

  function PrunedTo(st: WState, block: nat): WState
  {
    if block > REORG_DEPTH then
      var b := block - REORG_DEPTH;
      st.(seen := Pruned(st.seen, b), floor := if b > st.floor then b else st.floor)
    else st
  }

  function Advance(e: Env, st: WState, block: nat): (WState, bool)
  {
    match e.fate(st.ops)
    case Done => (PrunedTo(Written(st, block), block), true)
    case Unsure => (Written(st, block), false)
    case Failed => (st.(ops := st.ops + 1), false)
  }

  function AdvanceIf(e: Env, st: WState, block: nat, doAdvance: bool): (WState, bool)
  {
    if doAdvance then Advance(e, st, block) else (st, true)
  }

  function Batch(e: Env, st: WState, logs: seq<Log>, block: nat, doAdvance: bool, backfilled: bool): (WState, bool)
  {
    if logs == [] then AdvanceIf(e, st, block, doAdvance)
    else
      var unseen := Unseen(logs, e.watched, st.seen);
      var (st1, ok) := EmitAll(e, st, Aggregate(FillsOf(unseen, e.watched)), backfilled);
      if ok then AdvanceIf(e, CommitLogs(st1, unseen, |st.bus|), block, doAdvance) else (st1, false)
  }

  /** What FilterLogs returns for [from, to]. */
  function LogsIn(chain: nat -> seq<Log>, from: nat, to: nat): seq<Log>
    decreases if from > to then 0 else to - from + 1
  {
    if from > to then [] else if to == 0 then chain(0) else LogsIn(chain, from, to - 1) + chain(to)
  }

  /** The last block of the chunk that starts at `from`. */
  function ChunkEnd(e: Env, from: nat, to: nat): (end: nat)
    requires e.chunk >= 1 && from <= to
    ensures from <= end <= to && (end < to ==> end + 1 == from + e.chunk)
  {
    if from + e.chunk - 1 > to then to else from + e.chunk - 1
  }

  /** One FilterLogs call and the batch it returns. */
  function Chunk(e: Env, st: WState, from: nat, end: nat, backfilled: bool): (WState, bool)
  {
    var asked := st.(ops := st.ops + 1);
    if !e.fate(st.ops).Done? then (asked, false)
    else Batch(e, asked, LogsIn(e.chain, from, end), end, true, backfilled)
  }

  function Backfill(e: Env, st: WState, from: nat, to: nat, backfilled: bool): (WState, bool)
    requires e.chunk >= 1
    decreases if from > to then 0 else to - from + 1
  {
    if from > to then (st, true)
    else
      var end := ChunkEnd(e, from, to);
      var (st1, ok) := Chunk(e, st, from, end, backfilled);
      if ok then Backfill(e, st1, from + e.chunk, to, backfilled) else (st1, false)
  }

  /** What the live select loop can receive; Stop is a cancelled context or a subscription error. */
  datatype LiveEvent = Deliver(log: Log) | Tick | Stop

  /** The locals of runLive. */
  datatype Live = Live(buf: seq<Log>, pending: nat, grew: bool)

  /** The live loop over the events received; running out of events is a crash. */
  function RunLive(e: Env, st: WState, lv: Live, evs: seq<LiveEvent>): (WState, bool)
    decreases |evs|
  {
    if evs == [] then (st, false)
    else
      match evs[0]
      case Stop => (Batch(e, st, lv.buf, lv.pending, false, false).0, true)
      case Deliver(l) =>
        if l.removed || (lv.pending > 0 && l.block < lv.pending) then RunLive(e, st, lv, evs[1..])
        else
          var up := if l.block > lv.pending then l.block else lv.pending;
          if lv.buf != [] && l.block > lv.pending then
            var (st1, ok) := Batch(e, st, lv.buf, lv.pending, true, false);
            if ok then RunLive(e, st1, Live([l], up, true), evs[1..]) else (st1, false)
          else RunLive(e, st, Live(lv.buf + [l], up, true), evs[1..])
      case Tick =>
        if lv.grew || lv.buf == [] then RunLive(e, st, lv.(grew := false), evs[1..])
        else
          var (st1, ok) := Batch(e, st, lv.buf, lv.pending, true, false);
          if ok then RunLive(e, st1, lv.(buf := []), evs[1..]) else (st1, false)
  }

  /**
   What one cycle meets: the head it reads, whether the cursor read works, the last block
   before its subscription delivers (None: subscribing fails), the head read after that,
   and the live events; `restart` says whether the process dies afterwards.
   */
  datatype Script = Script(
    head: Option<nat>, readOk: bool, activation: Option<nat>, newHead: Option<nat>,
    events: seq<LiveEvent>, restart: bool)

  function StartBlock(st: WState, head: nat): nat
  {
    if st.cursor.None? then head else st.cursor.value + 1
  }

  function CatchUp(e: Env, st: WState, head: nat, newHead: nat): (WState, bool)
    requires e.chunk >= 1
  {
    if newHead > head then Backfill(e, st, head + 1, newHead, false) else (st, true)
  }

  function Cycle(e: Env, st: WState, s: Script): (WState, bool)
    requires e.chunk >= 1
  {
    if s.head.None? || !s.readOk then (st, false)
    else
      var (st1, ok1) := Backfill(e, st, StartBlock(st, s.head.value), s.head.value, true);
      if !ok1 || s.activation.None? || s.newHead.None? then (st1, false)
      else
        var (st2, ok2) := CatchUp(e, st1, s.head.value, s.newHead.value);
        if !ok2 then (st2, false) else RunLive(e, st2, Live([], 0, false), s.events)
  }

  /** Any number of cycles, with restarts in between. */
  function Run(e: Env, st: WState, scripts: seq<Script>): WState
    requires e.chunk >= 1
  {
    if scripts == [] then st
    else
      var st1 := Run(e, st, scripts[..|scripts| - 1]);
      var s := scripts[|scripts| - 1];
      var st2 := Cycle(e, st1, s).0;
      if s.restart then Restarted(st2) else st2
  }

  // ---- The watcher ----

  class Watcher {
    const env: Env
    const wset: Watchset.Set
    const seen: Seen
    // The outside world as this watcher sees it.
    var cursor: Option<nat>
    var bus: seq<Published>
    var ops: nat
    ghost var commits: seq<Commit>
    ghost var life: seq<Log>
    ghost var floor: nat
    ghost var origin: Option<nat>

    ghost predicate Valid()
      reads this, wset
    {
      env.chunk >= 1 && wset.m == env.watched
    }

    ghost function State(): WState
      reads this, seen
    {
      WState(cursor, bus, seen.block, commits, life, floor, origin, ops)
    }

    constructor (env: Env, wset: Watchset.Set)
      requires env.chunk >= 1 && wset.m == env.watched
      ensures Valid() && fresh(seen) && State() == FRESH
      ensures this.env == env && this.wset == wset
    {
      this.env := env;
      this.wset := wset;
      this.seen := new Seen();
      cursor := None;
      bus := [];
      ops := 0;
      commits := [];
      life := [];
      floor := 0;
      origin := None;
    }

    method Emit(t: Trade, backfilled: bool) returns (ok: bool)
      requires Valid()
      modifies this
      ensures Valid()
      ensures (State(), ok) == (match env.fate(old(ops))
                                case Done => (Sent(old(State()), t, backfilled), true)
                                case Unsure => (Sent(old(State()), t, backfilled), false)
                                case Failed => (old(State()).(ops := old(ops) + 1), false))
    {
      var how := env.fate(ops);
      ops := ops + 1;
      if how != Failed {
        bus := bus + [Published(t, backfilled)];
      }
      ok := how == Done;
    }

    method EmitTrades(trades: seq<Trade>, backfilled: bool) returns (ok: bool)
      requires Valid()
      modifies this
      ensures Valid()
      ensures (State(), ok) == EmitAll(env, old(State()), trades, backfilled)
    {
      for i := 0 to |trades|
        invariant Valid()
        invariant EmitAll(env, old(State()), trades, backfilled) == EmitAll(env, State(), trades[i..], backfilled)
      {
        ghost var before := State();
        assert trades[i..][0] == trades[i] && trades[i..][1..] == trades[i + 1..];
        ok := Emit(trades[i], backfilled);
        if !ok {
          return false;
        }
      }
      return true;
    }

    method MarkSeen(logs: seq<Log>, ghost start: nat)
      requires Valid()
      modifies this, seen
      ensures Valid()
      ensures State() == CommitLogs(old(State()), logs, start)
    {
      for i := 0 to |logs|
        invariant Valid()
        invariant State() == old(State()).(seen := MarkAll(old(seen.block), logs[..i]))
      {
        assert logs[..i + 1][..i] == logs[..i];
        var already := seen.Mark(logs[i].txHash, logs[i].index, logs[i].block);
      }
      assert logs[..|logs|] == logs;
      commits := commits + [Commit(logs, start)];
      life := life + logs;
    }

    method AdvanceTo(block: nat) returns (ok: bool)
      requires Valid()
      modifies this, seen
      ensures Valid()
      ensures (State(), ok) == Advance(env, old(State()), block)
    {
      var how := env.fate(ops);
      ops := ops + 1;
      if how != Failed {
        cursor := Some(block);
        origin := if origin.None? then Some(block) else origin;
      }
      if how != Done {
        return false;
      }
      if block > REORG_DEPTH {
        seen.PruneBelow(block - REORG_DEPTH);
        floor := if block - REORG_DEPTH > floor then block - REORG_DEPTH else floor;
      }
      return true;
    }

    /** Publishes the batch's trades; only then marks its logs and advances the cursor. */
    method ProcessLogs(logs: seq<Log>, advanceBlock: nat, doAdvance: bool, backfilled: bool) returns (ok: bool)
      requires Valid()
      modifies this, seen
      ensures Valid()
      ensures (State(), ok) == Batch(env, old(State()), logs, advanceBlock, doAdvance, backfilled)
    {
      if logs == [] {
        if doAdvance {
          ok := AdvanceTo(advanceBlock);
          return;
        }
        return true;
      }
      var trades, consumed, _ := ProcessBatch(logs, wset, seen);
      ghost var start := |bus|;
      ok := EmitTrades(trades, backfilled);
      if !ok {
        return;
      }
      MarkSeen(consumed, start);
      if doAdvance {
        ok := AdvanceTo(advanceBlock);
      }
    }

    method FilterLogs(from: nat, to: nat) returns (logs: Option<seq<Log>>)
      requires Valid()
      modifies this
      ensures Valid()
      ensures State() == old(State()).(ops := old(ops) + 1)
      ensures logs == if env.fate(old(ops)).Done? then Some(LogsIn(env.chain, from, to)) else None
    {
      var how := env.fate(ops);
      ops := ops + 1;
      logs := if how.Done? then Some(LogsIn(env.chain, from, to)) else None;
    }

    /** Scans [from, to] in chunks, advancing the cursor to the end of each. */
    method BackfillRange(from: nat, to: nat, backfilled: bool) returns (ok: bool)
      requires Valid()
      modifies this, seen
      ensures Valid()
      ensures (State(), ok) == Backfill(env, old(State()), from, to, backfilled)
    {
      hide Batch, LogsIn;
      var start := from;
      while start <= to
        invariant Valid()
        invariant Backfill(env, old(State()), from, to, backfilled) == Backfill(env, State(), start, to, backfilled)
        decreases if start > to then 0 else to - start + 1
      {
        var end := start + env.chunk - 1;
        if end > to {
          end := to;
        }
        var logs := FilterLogs(start, end);
        if logs.None? {
          return false;
        }
        ok := ProcessLogs(logs.value, end, true, backfilled);
        if !ok {
          return;
        }
        start := start + env.chunk;
      }
      return true;
    }

    /** Buffers each live block until it is complete, then flushes it. */
    method LiveLoop(events: seq<LiveEvent>) returns (ok: bool)
      requires Valid()
      modifies this, seen
      ensures Valid()
      ensures (State(), ok) == RunLive(env, old(State()), Live([], 0, false), events)
    {
      hide Batch;
      var buf: seq<Log> := [];
      var pendingBlock: nat := 0;
      var grew := false;
      for i := 0 to |events|
        invariant Valid()
        invariant RunLive(env, old(State()), Live([], 0, false), events)
                  == RunLive(env, State(), Live(buf, pendingBlock, grew), events[i..])
      {
        assert events[i..][0] == events[i] && events[i..][1..] == events[i + 1..];
        match events[i]
        case Stop =>
          ok := ProcessLogs(buf, pendingBlock, false, false);
          return true;
        case Deliver(l) =>
          if l.removed {
            continue;
          }
          if pendingBlock > 0 && l.block < pendingBlock {
            continue;
          }
          if |buf| > 0 && l.block > pendingBlock {
            ok := ProcessLogs(buf, pendingBlock, true, false);
            if !ok {
              return;
            }
            buf := [];
          }
          assert [] + [l] == [l];
          buf := buf + [l];
          if l.block > pendingBlock {
            pendingBlock := l.block;
          }
          grew := true;
        case Tick =>
          if grew {
            grew := false;
            continue;
          }
          if |buf| > 0 {
            ok := ProcessLogs(buf, pendingBlock, true, false);
            if !ok {
              return;
            }
            buf := [];
          }
      }
      return false;
    }

    method RunCycle(s: Script) returns (ok: bool)
      requires Valid()
      modifies this, seen
      ensures Valid()
      ensures (State(), ok) == Cycle(env, old(State()), s)
    {
      hide Backfill, RunLive;
      if s.head.None? || !s.readOk {
        return false;
      }
      var head := s.head.value;
      var start := if cursor.None? then head else cursor.value + 1;
      ok := BackfillRange(start, head, true);
      if !ok || s.activation.None? || s.newHead.None? {
        return false;
      }
      var newHead := s.newHead.value;
      if newHead > head {
        ok := BackfillRange(head + 1, newHead, false);
        if !ok {
          return;
        }
      }
      ok := LiveLoop(s.events);
    }
  }
}
