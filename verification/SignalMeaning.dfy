/** What a published consensus signal says of the deliveries before it. */
module SignalMeaning {
  import opened Effects
  import opened Seqs
  import opened Window
  import opened Consensus
  import opened WindowMeaning
  import opened Aggregator

  predicate Realtime(d: Delivery) { !d.backfilled }

  /** Replayed deliveries leave no trace: not in the tables, not on the bus. */
  lemma {:induction false} ReplayInvisible(cfg: Config, ds: seq<Delivery>)
    ensures After(cfg, ds) == After(cfg, Filter(Realtime, ds))
  {
    hide Record, TallyAfter;
    if ds != [] {
      var rest, d := ds[..|ds| - 1], ds[|ds| - 1];
      ReplayInvisible(cfg, rest);
      var kept := Filter(Realtime, rest);
      assert (kept + [d])[..|kept|] == kept;
    }
  }

  /**
   s was published for delivery i, a real-time one: at least the threshold of wallets, exactly
   those that traded the key in the window before it, and the dollars they traded for.
   */
  ghost predicate Means(cfg: Config, ds: seq<Delivery>, i: nat, s: Signal)
  {
    && i < |ds| && !ds[i].backfilled && ds[i].record == Done && ds[i].publish != Failed
    && s.key == ds[i].input.tr.key && |s.wallets| >= cfg.minWallets
    && Describes(Cohort(s.wallets, s.combinedUsd), Committed(ds[..i + 1]), s.key,
                 (ds[i].input.now - cfg.window) / 1_000_000_000)
  }

  lemma FiresAtThreshold(cfg: Config, ins: seq<Input>)
    requires ins != [] && LastAnswer(cfg, ins).fire
    ensures |LastAnswer(cfg, ins).cohort.wallets| >= cfg.minWallets
  {
    hide Run, CohortOf, Reaped;
  }

  lemma LastSignalMeans(cfg: Config, ds: seq<Delivery>)
    requires ds != [] && ClockOk(Committed(ds))
    ensures var rest, d := ds[..|ds| - 1], ds[|ds| - 1];
            var a := Record(cfg, After(cfg, rest).tables, d.input.tr, d.input.now).1;
            Commits(d) && Reaches(d, a) ==> Means(cfg, ds, |ds| - 1, SignalOf(d, a))
  {
    hide Record, Describes, Run, After, Committed;
    var rest, d := ds[..|ds| - 1], ds[|ds| - 1];
    assert ds == rest + [d] && ds[..|ds|] == ds;
    CommittedSnoc(rest, d);
    AfterIsRun(cfg, rest);
    var ins := Committed(ds);
    if Commits(d) {
      assert ins[..|ins| - 1] == Committed(rest);
      CohortExactly(cfg, ins);
      if LastAnswer(cfg, ins).fire {
        FiresAtThreshold(cfg, ins);
      }
    }
  }

  lemma MeansLater(cfg: Config, ds: seq<Delivery>, d: Delivery, i: nat, s: Signal)
    requires Means(cfg, ds, i, s)
    ensures Means(cfg, ds + [d], i, s)
  {
    hide Describes, Committed;
    assert (ds + [d])[..i + 1] == ds[..i + 1];
  }

  lemma ClockOkBefore(ds: seq<Delivery>, d: Delivery)
    requires ClockOk(Committed(ds + [d]))
    ensures ClockOk(Committed(ds))
  {
    hide Committed;
    CommittedSnoc(ds, d);
    var a, b := Committed(ds), Committed(ds + [d]);
    assert forall i :: 0 <= i < |a| ==> a[i] == b[i];
  }

  /** With a nondecreasing clock, every signal on the bus means that, whatever failed or was replayed. */
  lemma {:induction false} SignalsMean(cfg: Config, ds: seq<Delivery>)
    requires ClockOk(Committed(ds))
    ensures forall s :: s in After(cfg, ds).signals ==> exists i :: Means(cfg, ds, i, s)
  {
    hide Record, Means, Committed, ClockOk, TallyAfter;
    if ds != [] {
      var rest, d := ds[..|ds| - 1], ds[|ds| - 1];
      assert ds == rest + [d];
      ClockOkBefore(rest, d);
      SignalsMean(cfg, rest);
      LastSignalMeans(cfg, ds);
      var w := After(cfg, rest);
      forall s | s in After(cfg, ds).signals ensures exists i :: Means(cfg, ds, i, s) {
        if s in w.signals {
          var i :| Means(cfg, rest, i, s);
          MeansLater(cfg, rest, d, i, s);
        } else {
          assert Means(cfg, ds, |ds| - 1, s);
        }
      }
    }
  }
}
