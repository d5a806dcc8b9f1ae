/**
 The consensus window against its meaning: pruning and reaping are unobservable, and the
 fired counts of a key grow by one without gaps.
 */
module Consensus {
  import opened Seqs
  import opened Sorted
  import opened Window

  datatype Input = Input(tr: Trade, now: int)

  function Run(cfg: Config, ins: seq<Input>): Tables
  {
    if ins == [] then EMPTY
    else Record(cfg, Run(cfg, ins[..|ins| - 1]), ins[|ins| - 1].tr, ins[|ins| - 1].now).0
  }

  /** The answer to the last input. */
  function LastAnswer(cfg: Config, ins: seq<Input>): Answer
    requires ins != []
  {
    Record(cfg, Run(cfg, ins[..|ins| - 1]), ins[|ins| - 1].tr, ins[|ins| - 1].now).1
  }

  // ---- The meaning: the full history, never pruned, never reaped ----

  /** All events ever, and each key's high-water; a key's high-water falls to zero only when its own cohort is seen too small. */
  datatype Spec = Spec(history: seq<Row>, high: map<Key, nat>)

  function SpecRecord(cfg: Config, s: Spec, tr: Trade, now: int): (Spec, Answer)
  {
    var history := s.history + [RowOf(tr, now)];
    var c := CohortOf(Since(OfKey(history, tr.key), Cutoff(cfg, now)));
    var n := |c.wallets|;
    if n < cfg.minWallets then (Spec(history, s.high[tr.key := 0]), Answer(c, false))
    else if n > High(s.high, tr.key) then (Spec(history, s.high[tr.key := n]), Answer(c, true))
    else (Spec(history, s.high), Answer(c, false))
  }

  function SpecRun(cfg: Config, ins: seq<Input>): Spec
  {
    if ins == [] then Spec([], map[])
    else SpecRecord(cfg, SpecRun(cfg, ins[..|ins| - 1]), ins[|ins| - 1].tr, ins[|ins| - 1].now).0
  }

  function SpecLastAnswer(cfg: Config, ins: seq<Input>): Answer
    requires ins != []
  {
    SpecRecord(cfg, SpecRun(cfg, ins[..|ins| - 1]), ins[|ins| - 1].tr, ins[|ins| - 1].now).1
  }

  ghost predicate ClockOk(ins: seq<Input>)
  {
    forall i, j :: 0 <= i < j < |ins| ==> ins[i].now <= ins[j].now
  }

  /** The cutoff last applied; nothing has been pruned before the first input. */
  ghost predicate Related(t: Tables, s: Spec, cutoff: int)
  {
    && t.events == Since(s.history, cutoff)
    && (forall k :: OfKey(t.events, k) != [] ==> High(t.fired, k) == High(s.high, k))
    && (forall k :: OfKey(t.events, k) == [] ==> k !in t.fired)
  }

  // ---- Pruning ----

  /** Pruning twice is pruning at the later cutoff. */
  lemma {:induction false} SinceSince(rows: seq<Row>, early: int, late: int)
    requires early <= late
    ensures Since(Since(rows, early), late) == Since(rows, late)
  {
    if rows != [] {
      var rest, last := rows[..|rows| - 1], rows[|rows| - 1];
      SinceSince(rest, early, late);
      assert Since(rows, early) == Since(rest, early) + if last.at >= early then [last] else [];
      if last.at >= early {
        SinceSnoc(Since(rest, early), last, late);
      }
    }
  }

  lemma SinceSnoc(rows: seq<Row>, r: Row, cutoff: int)
    ensures Since(rows + [r], cutoff) == Since(rows, cutoff) + if r.at >= cutoff then [r] else []
  {
    assert (rows + [r])[..|rows|] == rows;
  }

  lemma OfKeySnoc(rows: seq<Row>, r: Row, k: Key)
    ensures OfKey(rows + [r], k) == OfKey(rows, k) + if r.key == k then [r] else []
  {
    assert (rows + [r])[..|rows|] == rows;
  }

  /** Selecting a key and pruning commute. */
  lemma {:induction false} OfKeySince(rows: seq<Row>, k: Key, cutoff: int)
    ensures OfKey(Since(rows, cutoff), k) == Since(OfKey(rows, k), cutoff)
  {
    if rows != [] {
      var rest, last := rows[..|rows| - 1], rows[|rows| - 1];
      assert rows == rest + [last];
      OfKeySince(rest, k, cutoff);
      SinceSnoc(rest, last, cutoff);
      OfKeySnoc(rest, last, k);
      OfKeySnoc(Since(rest, cutoff), last, k);
      SinceSnoc(OfKey(rest, k), last, cutoff);
    }
  }

  /** The pruned table with the new event is the pruned history with the new event. */
  lemma EventsAfter(cfg: Config, t: Tables, s: Spec, cutoff: int, tr: Trade, now: int)
    requires t.events == Since(s.history, cutoff) && cutoff <= Cutoff(cfg, now)
    ensures Since(t.events + [RowOf(tr, now)], Cutoff(cfg, now)) == Since(s.history + [RowOf(tr, now)], Cutoff(cfg, now))
  {
    var r, c := RowOf(tr, now), Cutoff(cfg, now);
    SinceSnoc(t.events, r, c);
    SinceSnoc(s.history, r, c);
    SinceSince(s.history, cutoff, c);
  }

  /** A key whose rows were all pruned, or that never had one, is back with a cohort of one. */
  lemma LoneRow(r: Row)
    ensures |CohortOf([r]).wallets| == 1
  {
    assert Map(WalletOf, [r]) == [r.wallet];
    assert [r.wallet][..0] == [];
    assert SortNats([r.wallet]) == InsertNat(SortNats([]), r.wallet);
  }

  lemma RecordRefines(cfg: Config, t: Tables, s: Spec, cutoff: int, tr: Trade, now: int)
    requires Related(t, s, cutoff) && cutoff <= Cutoff(cfg, now) && cfg.minWallets >= 2
    ensures Record(cfg, t, tr, now).1 == SpecRecord(cfg, s, tr, now).1
    ensures Related(Record(cfg, t, tr, now).0, SpecRecord(cfg, s, tr, now).0, Cutoff(cfg, now))
  {
    hide Since, OfKey, CohortOf;
    var r, c := RowOf(tr, now), Cutoff(cfg, now);
    var events := Since(t.events + [r], c);
    var history := s.history + [r];
    EventsAfter(cfg, t, s, cutoff, tr, now);
    OfKeySince(history, tr.key, c);
    SinceIdempotent(OfKey(history, tr.key), c);
    assert Since(OfKey(events, tr.key), c) == Since(OfKey(history, tr.key), c);
    assert OfKey(events, tr.key) != [] by { NewRowKept(cfg, t.events, tr, now); }
    forall k | OfKey(events, k) != [] && k != tr.key ensures OfKey(t.events, k) != [] {
      OtherRowOlder(t.events, r, k, c);
    }
    if OfKey(t.events, tr.key) == [] {
      LoneCohort(cfg, t.events, tr, now);
    }
  }

  lemma SinceIdempotent(rows: seq<Row>, cutoff: int)
    ensures Since(Since(rows, cutoff), cutoff) == Since(rows, cutoff)
  {
    SinceSince(rows, cutoff, cutoff);
  }

  lemma NewRowKept(cfg: Config, rows: seq<Row>, tr: Trade, now: int)
    ensures OfKey(Since(rows + [RowOf(tr, now)], Cutoff(cfg, now)), tr.key) != []
  {
    var r, c := RowOf(tr, now), Cutoff(cfg, now);
    SinceSnoc(rows, r, c);
    OfKeySnoc(Since(rows, c), r, tr.key);
  }

  lemma OtherRowOlder(rows: seq<Row>, r: Row, k: Key, c: int)
    requires OfKey(Since(rows + [r], c), k) != [] && k != r.key
    ensures OfKey(rows, k) != []
  {
    hide OfKey, Since;
    SinceSnoc(rows, r, c);
    OfKeySnoc(Since(rows, c), r, k);
    OfKeySince(rows, k, c);
    assert Since(rows, c) + [] == Since(rows, c) && OfKey(Since(rows, c), k) + [] == OfKey(Since(rows, c), k);
    NothingSince(c);
  }

  lemma NothingSince(c: int)
    ensures Since([], c) == []
  {}

  lemma LoneCohort(cfg: Config, rows: seq<Row>, tr: Trade, now: int)
    requires OfKey(rows, tr.key) == []
    ensures var c := Cutoff(cfg, now);
            |CohortOf(Since(OfKey(Since(rows + [RowOf(tr, now)], c), tr.key), c)).wallets| == 1
  {
    hide OfKey, Since, CohortOf;
    var r, c := RowOf(tr, now), Cutoff(cfg, now);
    SinceSnoc(rows, r, c);
    OfKeySnoc(Since(rows, c), r, tr.key);
    OfKeySince(rows, tr.key, c);
    NothingSince(c);
    SinceSnoc([], r, c);
    assert [] + [r] == [r];
    LoneRow(r);
  }

  /** With a nondecreasing clock the tables stay the pruned, reaped image of the history. */
  lemma {:induction false} RunRelated(cfg: Config, ins: seq<Input>, cutoff: int)
    requires cfg.minWallets >= 2 && ClockOk(ins)
    requires ins != [] ==> cutoff == Cutoff(cfg, ins[|ins| - 1].now)
    ensures Related(Run(cfg, ins), SpecRun(cfg, ins), cutoff)
  {
    if ins != [] {
      hide Record, SpecRecord, Related, Run, SpecRun;
      var rest, last := ins[..|ins| - 1], ins[|ins| - 1];
      var early := if rest == [] then cutoff else Cutoff(cfg, rest[|rest| - 1].now);
      assert early <= cutoff;
      RunRelated(cfg, rest, early);
      RecordRefines(cfg, Run(cfg, rest), SpecRun(cfg, rest), early, last.tr, last.now);
      RunUnfold(cfg, ins);
    } else {
      assert Since([], cutoff) == [];
    }
  }

  lemma RunUnfold(cfg: Config, ins: seq<Input>)
    requires ins != []
    ensures var rest, last := ins[..|ins| - 1], ins[|ins| - 1];
            && Run(cfg, ins) == Record(cfg, Run(cfg, rest), last.tr, last.now).0
            && SpecRun(cfg, ins) == SpecRecord(cfg, SpecRun(cfg, rest), last.tr, last.now).0
  {}

  /** On every input list with a nondecreasing clock, Record answers what the full history would. */
  ghost predicate Refines(minWallets: int)
  {
    forall window: nat, ins: seq<Input> :: ins != [] && ClockOk(ins) ==>
      LastAnswer(Config(window, minWallets), ins) == SpecLastAnswer(Config(window, minWallets), ins)
  }

  lemma AnswerRefines(cfg: Config, ins: seq<Input>)
    requires cfg.minWallets >= 2 && ins != [] && ClockOk(ins)
    ensures LastAnswer(cfg, ins) == SpecLastAnswer(cfg, ins)
  {
    hide Record, SpecRecord, Related, Run, SpecRun;
    var rest, last := ins[..|ins| - 1], ins[|ins| - 1];
    var early := if rest == [] then Cutoff(cfg, last.now) else Cutoff(cfg, rest[|rest| - 1].now);
    RunRelated(cfg, rest, early);
    RecordRefines(cfg, Run(cfg, rest), SpecRun(cfg, rest), early, last.tr, last.now);
  }

  /** Pruning and reaping are unobservable exactly when the threshold is at least two. */
  lemma RefinesExactly(minWallets: int)
    ensures Refines(minWallets) <==> minWallets >= 2
  {
    hide LastAnswer, SpecLastAnswer, ClockOk, ReapInputs;
    if minWallets >= 2 {
      forall window: nat, ins: seq<Input> | ins != [] && ClockOk(ins)
        ensures LastAnswer(Config(window, minWallets), ins) == SpecLastAnswer(Config(window, minWallets), ins)
      {
        AnswerRefines(Config(window, minWallets), ins);
      }
    } else {
      ReapingObservable(minWallets);
      ReapInputsOrdered();
    }
  }

  const BUY := Key("token", "buy")
  const SELL := Key("token", "sell")

  function At(k: Key, wallet: nat, seconds: int): Input
  {
    Input(Trade(k, wallet, Some(1.0), Some(1.0)), seconds * NANOS)
  }

  /** A buy, then a sell after the buy left the window, then a buy again. */
  function ReapInputs(): seq<Input> { [At(BUY, 1, 0), At(SELL, 1, 10), At(BUY, 1, 11)] }

  lemma ReapInputsOrdered()
    ensures ClockOk(ReapInputs()) && ReapInputs() != []
  {}

  lemma RunOne(cfg: Config, a: Input)
    ensures Run(cfg, [a]) == Record(cfg, EMPTY, a.tr, a.now).0
    ensures SpecRun(cfg, [a]) == SpecRecord(cfg, Spec([], map[]), a.tr, a.now).0
  {
    assert [a][..0] == [];
  }

  lemma RunTwo(cfg: Config, a: Input, b: Input)
    ensures Run(cfg, [a, b]) == Record(cfg, Run(cfg, [a]), b.tr, b.now).0
    ensures SpecRun(cfg, [a, b]) == SpecRecord(cfg, SpecRun(cfg, [a]), b.tr, b.now).0
  {
    assert [a, b][..1] == [a];
  }

  /** With a threshold of one (or less), the reaped key fires again where the full history would not. */
  lemma ReapingObservable(minWallets: int)
    requires minWallets <= 1
    ensures LastAnswer(Config(1, minWallets), ReapInputs()) != SpecLastAnswer(Config(1, minWallets), ReapInputs())
  {
    hide CohortOf;
    var cfg := Config(1, minWallets);
    var a, b, c := At(BUY, 1, 0), At(SELL, 1, 10), At(BUY, 1, 11);
    RunOne(cfg, a);
    RunTwo(cfg, a, b);
    assert ReapInputs()[..2] == [a, b];
    var ra, rb, rc := RowOf(a.tr, a.now), RowOf(b.tr, b.now), RowOf(c.tr, c.now);
    LoneRow(ra);
    LoneRow(rb);
    LoneRow(rc);
    FirstRecord(cfg, a);
    var t1 := Run(cfg, [a]);
    SecondRecord(cfg, t1, ra, b);
    ThirdRecord(cfg, rb, c);
    SpecThree(cfg, a, b, c);
  }

  lemma FirstRecord(cfg: Config, a: Input)
    requires cfg == Config(1, cfg.minWallets) && cfg.minWallets <= 1
    ensures Run(cfg, [a]) == Tables([RowOf(a.tr, a.now)], map[a.tr.key := 1])
  {
    hide CohortOf;
    var r, c := RowOf(a.tr, a.now), Cutoff(cfg, a.now);
    RunOne(cfg, a);
    SinceSnoc([], r, c);
    OfKeySnoc([], r, a.tr.key);
    assert [] + [r] == [r];
    LoneRow(r);
  }

  /** Ten seconds on, the only older event is pruned and its fired row reaped. */
  lemma SecondRecord(cfg: Config, t: Tables, ra: Row, b: Input)
    requires cfg == Config(1, cfg.minWallets) && cfg.minWallets <= 1
    requires t == Tables([ra], map[ra.key := 1]) && ra.key != b.tr.key && ra.at < Cutoff(cfg, b.now)
    ensures Record(cfg, t, b.tr, b.now).0 == Tables([RowOf(b.tr, b.now)], map[b.tr.key := 1])
  {
    hide CohortOf;
    var r, c := RowOf(b.tr, b.now), Cutoff(cfg, b.now);
    SinceSnoc([], ra, c);
    SinceSnoc([ra], r, c);
    assert [] + [ra] == [ra] && [] + [r] == [r];
    OfKeySnoc([], r, b.tr.key);
    OfKeySnoc([], r, ra.key);
    SinceSnoc([], r, c);
    LoneRow(r);
  }

  lemma ThirdRecord(cfg: Config, rb: Row, c: Input)
    requires cfg == Config(1, cfg.minWallets) && cfg.minWallets <= 1 && rb.key != c.tr.key
    ensures Record(cfg, Tables([rb], map[rb.key := 1]), c.tr, c.now).1.fire
  {
    hide CohortOf, Since, OfKey;
    OtherKeyOnly(cfg, Tables([rb], map[rb.key := 1]), rb, c);
    LoneRow(RowOf(c.tr, c.now));
  }

  /** A trade alone in its key's window, for the full history. */
  lemma SpecAlone(cfg: Config, s: Spec, tr: Trade, now: int)
    requires cfg.minWallets <= 1 && Since(OfKey(s.history, tr.key), Cutoff(cfg, now)) == []
    ensures var (s1, a) := SpecRecord(cfg, s, tr, now);
            && s1.history == s.history + [RowOf(tr, now)]
            && (High(s.high, tr.key) == 0 ==> a.fire && s1.high == s.high[tr.key := 1])
            && (High(s.high, tr.key) >= 1 ==> !a.fire)
  {
    hide CohortOf, OfKey, Since;
    var r, c := RowOf(tr, now), Cutoff(cfg, now);
    OfKeySnoc(s.history, r, tr.key);
    SinceSnoc(OfKey(s.history, tr.key), r, c);
    assert [] + [r] == [r];
    LoneRow(r);
  }

  /** The full history still remembers that one wallet already fired. */
  lemma SpecThree(cfg: Config, a: Input, b: Input, c: Input)
    requires cfg == Config(1, cfg.minWallets) && cfg.minWallets <= 1
    requires a == At(BUY, 1, 0) && b == At(SELL, 1, 10) && c == At(BUY, 1, 11)
    ensures !SpecRecord(cfg, SpecRun(cfg, [a, b]), c.tr, c.now).1.fire
  {
    hide CohortOf, SpecRecord, SpecRun, Since, OfKey;
    var ra, rb := RowOf(a.tr, a.now), RowOf(b.tr, b.now);
    RunOne(cfg, a);
    RunTwo(cfg, a, b);
    var empty := Spec([], map[]);
    assert [] + [ra] == [ra];
    NoRows(BUY, Cutoff(cfg, a.now));
    SpecAlone(cfg, empty, a.tr, a.now);
    var s1 := Spec([ra], map[BUY := 1]);
    assert SpecRun(cfg, [a]) == s1;
    NoRows(SELL, Cutoff(cfg, b.now));
    OfKeySnoc([], ra, SELL);
    assert OfKey([ra], SELL) == [];
    SpecAlone(cfg, s1, b.tr, b.now);
    var s2 := Spec([ra] + [rb], map[BUY := 1][SELL := 1]);
    assert SpecRun(cfg, [a, b]) == s2;
    NoRows(BUY, Cutoff(cfg, c.now));
    OfKeySnoc([], ra, BUY);
    OfKeySnoc([ra], rb, BUY);
    SinceSnoc([], ra, Cutoff(cfg, c.now));
    assert OfKey([ra], BUY) == [ra] && OfKey([ra] + [rb], BUY) == [ra];
    assert Since([ra], Cutoff(cfg, c.now)) == [];
    SpecAlone(cfg, s2, c.tr, c.now);
  }

  lemma NoRows(k: Key, cutoff: int)
    ensures OfKey([], k) == [] && Since([], cutoff) == []
  {}

  /** A record after which only the new row is left. */
  lemma OnlyNewRow(cfg: Config, t: Tables, tr: Trade, now: int)
    requires t.events == [] || exists r :: t.events == [r] && r.at < Cutoff(cfg, now)
    requires cfg.window >= 0
    ensures Record(cfg, t, tr, now).0.events == [RowOf(tr, now)]
  {
    hide CohortOf, OfKey, Reaped, Decide;
    var r, c := RowOf(tr, now), Cutoff(cfg, now);
    if t.events != [] {
      SinceSnoc([], t.events[0], c);
      assert [] + [t.events[0]] == t.events;
    }
    assert Since(t.events, c) == [];
    SinceSnoc(t.events, r, c);
    assert [] + [r] == [r];
  }

  /** The cohort of a record whose store holds a row of another key only. */
  lemma OtherKeyOnly(cfg: Config, t: Tables, rb: Row, c: Input)
    requires cfg.window >= 0 && t.events == [rb] && rb.key != c.tr.key
    ensures Record(cfg, t, c.tr, c.now).1.cohort == CohortOf([RowOf(c.tr, c.now)])
  {
    hide CohortOf, Reaped, Decide;
    var r, cut := RowOf(c.tr, c.now), Cutoff(cfg, c.now);
    SinceSnoc([], rb, cut);
    SinceSnoc([rb], r, cut);
    assert [] + [rb] == [rb] && [] + [r] == [r];
    OfKeySnoc([], rb, c.tr.key);
    OfKeySnoc([], r, c.tr.key);
    OfKeySnoc([rb], r, c.tr.key);
    SinceSnoc([], r, cut);
  }

  /** The full history still has both rows of the key in the window. */
  lemma BackwardKept(cfg: Config, s: Spec, ra: Row, rb: Row, c: Input)
    requires cfg.window >= 0 && s.history == [ra, rb] && ra.key == c.tr.key != rb.key
    requires ra.at >= Cutoff(cfg, c.now)
    ensures SpecRecord(cfg, s, c.tr, c.now).1.cohort == CohortOf([ra] + [RowOf(c.tr, c.now)])
  {
    hide CohortOf;
    var r, cut := RowOf(c.tr, c.now), Cutoff(cfg, c.now);
    assert [ra, rb] == [ra] + [rb] && [] + [ra] == [ra];
    OfKeySnoc([], ra, c.tr.key);
    OfKeySnoc([ra], rb, c.tr.key);
    OfKeySnoc([ra, rb], r, c.tr.key);
    SinceSnoc([], ra, cut);
    SinceSnoc([ra], r, cut);
  }

  lemma SpecHistory(cfg: Config, s: Spec, tr: Trade, now: int)
    ensures SpecRecord(cfg, s, tr, now).0.history == s.history + [RowOf(tr, now)]
  {
    hide CohortOf, Since, OfKey;
  }

  /** With a clock that steps back, a row pruned too early is missing from the cohort. */
  lemma BackwardClockObservable()
    ensures var cfg := Config(1, 2);
            var ins := [At(BUY, 1, 0), At(SELL, 1, 10), At(BUY, 2, 0)];
            !ClockOk(ins) && LastAnswer(cfg, ins) != SpecLastAnswer(cfg, ins)
  {
    hide CohortOf, Record, SpecRecord, Run, SpecRun, Since, OfKey;
    var cfg := Config(1, 2);
    var a, b, c := At(BUY, 1, 0), At(SELL, 1, 10), At(BUY, 2, 0);
    var ins := [a, b, c];
    var ra, rb, rc := RowOf(a.tr, a.now), RowOf(b.tr, b.now), RowOf(c.tr, c.now);
    assert ins[1].now > ins[2].now;
    assert ins[..2] == [a, b];
    RunOne(cfg, a);
    RunTwo(cfg, a, b);
    OnlyNewRow(cfg, EMPTY, a.tr, a.now);
    assert ra.at < Cutoff(cfg, b.now);
    OnlyNewRow(cfg, Run(cfg, [a]), b.tr, b.now);
    OtherKeyOnly(cfg, Run(cfg, [a, b]), rb, c);
    SpecHistory(cfg, Spec([], map[]), a.tr, a.now);
    SpecHistory(cfg, SpecRun(cfg, [a]), b.tr, b.now);
    assert [] + [ra] + [rb] == [ra, rb];
    BackwardKept(cfg, SpecRun(cfg, [a, b]), ra, rb, c);
    LoneRow(rc);
    TwoWallets(ra, rc);
  }

  lemma TwoWallets(a: Row, b: Row)
    requires a.wallet != b.wallet
    ensures |CohortOf([a] + [b]).wallets| != 1
  {
    var ws := Map(WalletOf, [a] + [b]);
    assert ws == [a.wallet, b.wallet];
    var s := SortNats(ws);
    assert a.wallet in s && b.wallet in s;
  }
}
