/**
 The consensus aggregator: records each real-time trade and publishes a signal when the
 record fires. A fire is consumed by the commit, so one whose commit or publish is reported
 as failed is never repeated: which counts reach the bus, and which are skipped.
 */
module Aggregator {
  import opened Effects
  import opened Seqs
  import opened Sorted
  import opened Window
  import opened Consensus
  import opened GapFree

  datatype Signal = Signal(key: Key, wallets: seq<nat>, combinedUsd: real)

  /** A trade handed to the aggregator, and how its commit and its publish (if any) end. */
  datatype Delivery = Delivery(input: Input, backfilled: bool, record: Outcome, publish: Outcome)

  /** The record fires, the aggregator is told, and the signal gets through. */
  predicate Reaches(d: Delivery, a: Answer)
  {
    a.fire && d.record == Done && d.publish != Failed
  }

  function SignalOf(d: Delivery, a: Answer): Signal
  {
    Signal(d.input.tr.key, a.cohort.wallets, a.cohort.combinedUsd)
  }

  /** Replayed trades are not counted; a failed transaction changes nothing. */
  predicate Commits(d: Delivery) { !d.backfilled && d.record != Failed }

  /** The tables and the bus after one delivery. */
  function Handled(cfg: Config, t: Tables, signals: seq<Signal>, d: Delivery): (Tables, seq<Signal>)
  {
    if !Commits(d) then (t, signals)
    else
      var (t1, a) := Record(cfg, t, d.input.tr, d.input.now);
      (t1, if Reaches(d, a) then signals + [SignalOf(d, a)] else signals)
  }

  class Aggregator {
    const store: Store
    // The bus as this aggregator sees it.
    var signals: seq<Signal>

    constructor (store: Store)
      ensures this.store == store && signals == []
    {
      this.store := store;
      signals := [];
    }

    method Handle(d: Delivery)
      modifies this, store
      ensures (store.Contents(), signals) == Handled(store.cfg, old(store.Contents()), old(signals), d)
    {
      hide Record;
      if d.backfilled {
        return;
      }
      var a := store.RecordTrade(d.input.tr, d.input.now, d.record);
      if a.None? || !a.value.fire {
        return;
      }
      var s := Signal(d.input.tr.key, a.value.cohort.wallets, a.value.cohort.combinedUsd);
      if d.publish != Failed {
        signals := signals + [s];
      }
    }
  }

  // ---- Which fires reach the bus ----

  /** A count fired, and whether its signal got through. */
  datatype Fire = Fire(count: nat, reached: bool)

  function CountOf(f: Fire): nat { f.count }
  predicate GotThrough(f: Fire) { f.reached }

  type Tally = map<Key, seq<Fire>>

  /** As GapFree.FiresAfter, with what became of each fire. */
  function TallyAfter(tally: Tally, fired: map<Key, nat>, d: Delivery, a: Answer): Tally
  {
    map j | j in fired ::
      (if j in tally then tally[j] else []) +
      if a.fire && j == d.input.tr.key then [Fire(|a.cohort.wallets|, Reaches(d, a))] else []
  }

  datatype World = World(tables: Tables, signals: seq<Signal>, tally: Tally)

  /** After any deliveries from a fresh store; `tally` holds each key's fires since its row was last absent. */
  function After(cfg: Config, ds: seq<Delivery>): World
  {
    if ds == [] then World(EMPTY, [], map[])
    else
      var w, d := After(cfg, ds[..|ds| - 1]), ds[|ds| - 1];
      var (t, signals) := Handled(cfg, w.tables, w.signals, d);
      var tally := if Commits(d) then TallyAfter(w.tally, t.fired, d, Record(cfg, w.tables, d.input.tr, d.input.now).1) else w.tally;
      World(t, signals, tally)
  }

  function InputOf(d: Delivery): Input { d.input }

  /** The inputs whose transactions took effect. */
  function Committed(ds: seq<Delivery>): seq<Input> { Map(InputOf, Filter(Commits, ds)) }

  lemma CommittedSnoc(ds: seq<Delivery>, d: Delivery)
    ensures Committed(ds + [d]) == if Commits(d) then Committed(ds) + [d.input] else Committed(ds)
  {
    assert (ds + [d])[..|ds|] == ds;
  }

  ghost predicate SameFires(tally: Tally, fires: Fires)
  {
    tally.Keys == fires.Keys && forall k :: k in tally ==> Map(CountOf, tally[k]) == fires[k]
  }

  lemma SameFiresStep(tally: Tally, fires: Fires, fired: map<Key, nat>, d: Delivery, a: Answer)
    requires SameFires(tally, fires)
    ensures SameFires(TallyAfter(tally, fired, d, a), FiresAfter(fires, fired, d.input.tr.key, a))
  {}

  /** The tables and counts are those of the committed inputs, whatever was reported. */
  lemma {:induction false} AfterIsRun(cfg: Config, ds: seq<Delivery>)
    ensures After(cfg, ds).tables == Run(cfg, Committed(ds))
    ensures SameFires(After(cfg, ds).tally, FiresOf(cfg, Committed(ds)))
  {
    hide Record, SameFires, TallyAfter, FiresAfter, Committed;
    if ds == [] {
      NothingCommitted();
    } else {
      var rest, d := ds[..|ds| - 1], ds[|ds| - 1];
      AfterIsRun(cfg, rest);
      assert ds == rest + [d];
      CommittedSnoc(rest, d);
      if Commits(d) {
        var w := After(cfg, rest);
        var (t, a) := Record(cfg, w.tables, d.input.tr, d.input.now);
        SameFiresStep(w.tally, FiresOf(cfg, Committed(rest)), t.fired, d, a);
        assert (Committed(rest) + [d.input])[..|Committed(rest)|] == Committed(rest);
      }
    }
  }

  lemma NothingCommitted()
    ensures Committed([]) == [] && SameFires(map[], map[])
  {}

  /** The counts whose signal got through, in order. */
  function ReachedCounts(fires: seq<Fire>): seq<nat> { Map(CountOf, Filter(GotThrough, fires)) }

  /** Counts fired one after the other: those that got through are increasing, and are exactly the marked ones. */
  lemma {:induction false} ReachedOfCounting(lo: nat, fires: seq<Fire>)
    requires forall i :: 0 <= i < |fires| ==> fires[i].count == lo + i
    ensures Increasing(ReachedCounts(fires))
    ensures forall n :: n in ReachedCounts(fires) <==> lo <= n < lo + |fires| && fires[n - lo].reached
  {
    hide ReachedCounts, Increasing;
    if fires == [] {
      NothingReached();
    } else {
      var rest, last := fires[..|fires| - 1], fires[|fires| - 1];
      assert fires == rest + [last];
      assert forall i :: 0 <= i < |rest| ==> rest[i] == fires[i];
      ReachedOfCounting(lo, rest);
      ReachedSnoc(rest, last);
      Append(ReachedCounts(rest), last.count);
    }
  }

  lemma Append(s: seq<nat>, x: nat)
    requires Increasing(s) && forall y :: y in s ==> y < x
    ensures Increasing(s + [x]) && forall y :: y in s + [x] <==> y in s || y == x
  {
    assert forall i :: 0 <= i < |s| ==> s[i] in s;
  }

  function SignalCount(s: Signal): nat { |s.wallets| }

  /** The counts on the bus for a key. */
  function OnBus(signals: seq<Signal>, k: Key): seq<nat>
  {
    Map(SignalCount, Filter((s: Signal) => s.key == k, signals))
  }

  lemma OnBusSnoc(signals: seq<Signal>, s: Signal, k: Key)
    ensures OnBus(signals + [s], k) == if s.key == k then OnBus(signals, k) + [|s.wallets|] else OnBus(signals, k)
  {
    assert (signals + [s])[..|signals|] == signals;
  }

  ghost predicate EndsWith(s: seq<nat>, t: seq<nat>)
  {
    |t| <= |s| && s[|s| - |t|..] == t
  }

  /** The latest signals of every key are its fires that got through since its row was last absent. */
  ghost predicate BusShows(signals: seq<Signal>, tally: Tally)
  {
    forall k :: k in tally ==> EndsWith(OnBus(signals, k), ReachedCounts(tally[k]))
  }

  lemma ReachedSnoc(fires: seq<Fire>, f: Fire)
    ensures ReachedCounts(fires + [f]) == if f.reached then ReachedCounts(fires) + [f.count] else ReachedCounts(fires)
  {
    assert (fires + [f])[..|fires|] == fires;
  }

  lemma BusStep(signals: seq<Signal>, tally: Tally, fired: map<Key, nat>, d: Delivery, a: Answer)
    requires BusShows(signals, tally)
    ensures BusShows(if Reaches(d, a) then signals + [SignalOf(d, a)] else signals, TallyAfter(tally, fired, d, a))
  {
    hide OnBus, ReachedCounts;
    var more := if Reaches(d, a) then signals + [SignalOf(d, a)] else signals;
    var next := TallyAfter(tally, fired, d, a);
    forall k | k in next ensures EndsWith(OnBus(more, k), ReachedCounts(next[k])) {
      var before := if k in tally then tally[k] else [];
      NothingReached();
      OnBusSnoc(signals, SignalOf(d, a), k);
      if a.fire && k == d.input.tr.key {
        ReachedSnoc(before, Fire(|a.cohort.wallets|, Reaches(d, a)));
      } else {
        assert next[k] == before;
      }
    }
  }

  lemma NothingReached()
    ensures ReachedCounts([]) == [] && Increasing([])
  {}

  lemma {:induction false} BusFollows(cfg: Config, ds: seq<Delivery>)
    ensures BusShows(After(cfg, ds).signals, After(cfg, ds).tally)
  {
    hide Record, BusShows, TallyAfter;
    if ds == [] {
      assert BusShows([], map[]) by { NoKeys(); }
    } else {
      var rest, d := ds[..|ds| - 1], ds[|ds| - 1];
      BusFollows(cfg, rest);
      var w := After(cfg, rest);
      var (t, a) := Record(cfg, w.tables, d.input.tr, d.input.now);
      BusStep(w.signals, w.tally, t.fired, d, a);
    }
  }

  lemma NoKeys()
    ensures BusShows([], map[])
  {}

  /**
   What subscribers see of a key since its row was last absent: increasing counts, none twice,
   and of minWallets up to the high-water exactly those whose own commit and publish got
   through; every other one is skipped for good.
   */
  lemma SkippedExactly(cfg: Config, ds: seq<Delivery>, k: Key)
    requires cfg.minWallets >= 1 && k in After(cfg, ds).tables.fired
    ensures var w := After(cfg, ds);
            && k in w.tally && cfg.minWallets <= w.tables.fired[k] && |w.tally[k]| == w.tables.fired[k] - cfg.minWallets + 1
            && Increasing(ReachedCounts(w.tally[k])) && EndsWith(OnBus(w.signals, k), ReachedCounts(w.tally[k]))
            && (forall n :: n in ReachedCounts(w.tally[k]) <==>
                  cfg.minWallets <= n <= w.tables.fired[k] && w.tally[k][n - cfg.minWallets].reached)
  {
    hide After, Run, FiresOf, Committed, OnBus, ReachedCounts, Reached;
    var w := After(cfg, ds);
    AfterIsRun(cfg, ds);
    BusFollows(cfg, ds);
    FiresWithoutGaps(cfg, Committed(ds));
    var fires := w.tally[k];
    assert Map(CountOf, fires) == Counting(cfg.minWallets, w.tables.fired[k]);
    forall i | 0 <= i < |fires| ensures fires[i].count == cfg.minWallets + i {
      assert Map(CountOf, fires)[i] == fires[i].count;
    }
    ReachedOfCounting(cfg.minWallets, fires);
  }
}
