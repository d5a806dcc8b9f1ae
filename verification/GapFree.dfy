/** Between two resets of a key's fired row, the counts fired are minWallets, minWallets + 1, … without repeat or skip. */
module GapFree {
  import opened Seqs
  import opened Sorted
  import opened Window
  import opened Consensus

  /** The counts fired by each key since its fired row was last absent. */
  type Fires = map<Key, seq<nat>>

  /** A key whose row is gone forgets its counts; the recorded key appends the count it fires with. */
  function FiresAfter(fires: Fires, fired: map<Key, nat>, k: Key, a: Answer): Fires
  {
    map j | j in fired ::
      (if j in fires then fires[j] else []) + if a.fire && j == k then [|a.cohort.wallets|] else []
  }

  function FiresOf(cfg: Config, ins: seq<Input>): Fires
  {
    if ins == [] then map[]
    else
      var rest, last := ins[..|ins| - 1], ins[|ins| - 1];
      var (t, a) := Record(cfg, Run(cfg, rest), last.tr, last.now);
      FiresAfter(FiresOf(cfg, rest), t.fired, last.tr.key, a)
  }

  /** lo, lo + 1, …, hi. */
  function Counting(lo: nat, hi: nat): seq<nat>
  {
    if hi < lo then [] else seq(hi - lo + 1, i => lo + i)
  }

  lemma CountingSnoc(lo: nat, hi: nat)
    requires lo <= hi
    ensures Counting(lo, hi) + [hi + 1] == Counting(lo, hi + 1)
  {}

  /** The distinct wallets of a key in the table. */
  function Wallets(events: seq<Row>, k: Key): seq<nat>
  {
    SortNats(Map(WalletOf, OfKey(events, k)))
  }

  /** The counts of every fired row are minWallets up to its high-water. */
  ghost predicate CountsGapFree(cfg: Config, fired: map<Key, nat>, fires: Fires)
    requires cfg.minWallets >= 1
  {
    && fires.Keys == fired.Keys
    && (forall k :: k in fired ==> fired[k] >= cfg.minWallets && fires[k] == Counting(cfg.minWallets, fired[k]))
  }

  /** Every key's distinct wallets are below the threshold or within its high-water. */
  ghost predicate Reached(cfg: Config, events: seq<Row>, fired: map<Key, nat>)
  {
    forall k :: |Wallets(events, k)| < cfg.minWallets || |Wallets(events, k)| <= High(fired, k)
  }

  ghost predicate GapInv(cfg: Config, t: Tables, fires: Fires)
    requires cfg.minWallets >= 1
  {
    CountsGapFree(cfg, t.fired, fires) && Reached(cfg, t.events, t.fired)
  }

  lemma MappedWallet(rows: seq<Row>, w: nat)
    ensures w in Map(WalletOf, rows) <==> exists r :: r in rows && r.wallet == w
  {
    if w in Map(WalletOf, rows) {
      var i :| 0 <= i < |rows| && Map(WalletOf, rows)[i] == w;
      assert rows[i] in rows;
    }
    if r :| r in rows && r.wallet == w {
      var i :| 0 <= i < |rows| && rows[i] == r;
      assert Map(WalletOf, rows)[i] == w;
    }
  }

  /** Pruning only loses wallets, and a new event adds at most its own. */
  lemma WalletsAfter(rows: seq<Row>, r: Row, c: int, k: Key)
    ensures |Wallets(Since(rows + [r], c), k)| <= |Wallets(rows, k)| + if k == r.key then 1 else 0
  {
    var after := Since(rows + [r], c);
    forall w | w in Wallets(after, k) ensures w in Wallets(rows, k) || (k == r.key && w == r.wallet) {
      MappedWallet(OfKey(after, k), w);
      MappedWallet(OfKey(rows, k), w);
      var x :| x in OfKey(after, k) && x.wallet == w;
      FilterMember((y: Row) => y.key == k, after, x);
      FilterMember((y: Row) => y.at >= c, rows + [r], x);
      FilterMember((y: Row) => y.key == k, rows, x);
    }
    if k == r.key {
      IncreasingSubset(Wallets(after, k), InsertNat(Wallets(rows, k), r.wallet));
    } else {
      IncreasingSubset(Wallets(after, k), Wallets(rows, k));
    }
  }

  /** The cohort of a record is its key's distinct wallets in the pruned table. */
  lemma CohortIsWallets(cfg: Config, t: Tables, tr: Trade, now: int)
    ensures Record(cfg, t, tr, now).1.cohort.wallets == Wallets(Record(cfg, t, tr, now).0.events, tr.key)
  {
    var c := Cutoff(cfg, now);
    var rows := t.events + [RowOf(tr, now)];
    OfKeySince(rows, tr.key, c);
    SinceIdempotent(OfKey(rows, tr.key), c);
  }

  lemma NoWallets(events: seq<Row>, k: Key)
    requires OfKey(events, k) == []
    ensures Wallets(events, k) == []
  {
    assert Map(WalletOf, OfKey(events, k)) == [];
  }

  /** One record: whenever it fires, the count is the threshold or one more than the last. */
  lemma GapStep(cfg: Config, t: Tables, fires: Fires, tr: Trade, now: int)
    requires cfg.minWallets >= 1 && GapInv(cfg, t, fires)
    ensures var (t1, a) := Record(cfg, t, tr, now);
            && GapInv(cfg, t1, FiresAfter(fires, t1.fired, tr.key, a))
            && (a.fire ==> |a.cohort.wallets| == if tr.key in t.fired then t.fired[tr.key] + 1 else cfg.minWallets)
  {
    hide Wallets, OfKey, Since, CohortOf, GapInv, Decide, Reaped, FiresAfter;
    var (t1, a) := Record(cfg, t, tr, now);
    var r, c := RowOf(tr, now), Cutoff(cfg, now);
    var n := |a.cohort.wallets|;
    CohortIsWallets(cfg, t, tr, now);
    forall k ensures |Wallets(t1.events, k)| <= |Wallets(t.events, k)| + if k == tr.key then 1 else 0 {
      WalletsAfter(t.events, r, c, k);
    }
    forall k | OfKey(t1.events, k) == [] ensures Wallets(t1.events, k) == [] {
      NoWallets(t1.events, k);
    }
    DecideKeeps(cfg, t, fires, t1.events, tr.key, a);
  }

  /** The fired table and the counts after reaping and deciding, for a table whose keys gained at most the new wallet. */
  lemma DecideKeeps(cfg: Config, t: Tables, fires: Fires, events: seq<Row>, key: Key, a: Answer)
    requires cfg.minWallets >= 1 && GapInv(cfg, t, fires)
    requires forall k :: |Wallets(events, k)| <= |Wallets(t.events, k)| + if k == key then 1 else 0
    requires forall k :: OfKey(events, k) == [] ==> Wallets(events, k) == []
    requires a.cohort.wallets == Wallets(events, key)
    requires a.fire == Decide(cfg, Reaped(t.fired, events), key, |a.cohort.wallets|).1
    ensures var fired := Decide(cfg, Reaped(t.fired, events), key, |a.cohort.wallets|).0;
            && GapInv(cfg, Tables(events, fired), FiresAfter(fires, fired, key, a))
            && (a.fire ==> |a.cohort.wallets| == if key in t.fired then t.fired[key] + 1 else cfg.minWallets)
  {
    hide Wallets, OfKey, CountsGapFree, Reached;
    var fired := Decide(cfg, Reaped(t.fired, events), key, |a.cohort.wallets|).0;
    NoMoreThanFired(cfg, t, fires, events, key, |a.cohort.wallets|);
    FiresCount(cfg, t, fires, events, key, a);
    assert CountsGapFree(cfg, fired, FiresAfter(fires, fired, key, a)) && Reached(cfg, events, fired);
  }

  lemma NoMoreThanFired(cfg: Config, t: Tables, fires: Fires, events: seq<Row>, key: Key, n: nat)
    requires cfg.minWallets >= 1 && GapInv(cfg, t, fires) && n == |Wallets(events, key)|
    requires forall k :: |Wallets(events, k)| <= |Wallets(t.events, k)| + if k == key then 1 else 0
    requires forall k :: OfKey(events, k) == [] ==> Wallets(events, k) == []
    ensures Reached(cfg, events, Decide(cfg, Reaped(t.fired, events), key, n).0)
  {
    hide Wallets, OfKey, Counting;
  }

  lemma FiresCount(cfg: Config, t: Tables, fires: Fires, events: seq<Row>, key: Key, a: Answer)
    requires cfg.minWallets >= 1 && GapInv(cfg, t, fires) && a.cohort.wallets == Wallets(events, key)
    requires |Wallets(events, key)| <= |Wallets(t.events, key)| + 1
    requires OfKey(events, key) == [] ==> Wallets(events, key) == []
    requires a.fire == Decide(cfg, Reaped(t.fired, events), key, |a.cohort.wallets|).1
    ensures var fired := Decide(cfg, Reaped(t.fired, events), key, |a.cohort.wallets|).0;
            CountsGapFree(cfg, fired, FiresAfter(fires, fired, key, a))
    ensures a.fire ==> |a.cohort.wallets| == if key in t.fired then t.fired[key] + 1 else cfg.minWallets
  {
    hide Wallets, OfKey, Counting;
    if a.fire {
      if key in t.fired {
        CountingSnoc(cfg.minWallets, High(t.fired, key));
      } else {
        OneCount(cfg.minWallets);
      }
    }
  }

  lemma OneCount(n: nat)
    ensures Counting(n, n) == [n]
  {}

  /** Gap-free firing, for any clock. */
  lemma {:induction false} FiresWithoutGaps(cfg: Config, ins: seq<Input>)
    requires cfg.minWallets >= 1
    ensures GapInv(cfg, Run(cfg, ins), FiresOf(cfg, ins))
  {
    hide Record, GapInv;
    if ins != [] {
      var rest, last := ins[..|ins| - 1], ins[|ins| - 1];
      FiresWithoutGaps(cfg, rest);
      GapStep(cfg, Run(cfg, rest), FiresOf(cfg, rest), last.tr, last.now);
    } else {
      NoGapsYet(cfg);
    }
  }

  lemma NoGapsYet(cfg: Config)
    requires cfg.minWallets >= 1
    ensures GapInv(cfg, EMPTY, map[])
  {
    forall k ensures Wallets([], k) == [] {
      NoWallets([], k);
    }
  }
}
