/**
 What the window holds, from the deliveries and their times alone: no table, no pruning, no
 cutoff and no cohort appears in the statement.
 */
module WindowMeaning {
  import opened Seqs
  import opened Sorted
  import opened Window
  import opened Consensus

  /** The dollars of one trade; nothing when size or price does not parse. */
  function Dollars(tr: Trade): real
  {
    match (tr.size, tr.price)
    case (Some(size), Some(price)) => size * price
    case _ => 0.0
  }

  /** Input x is of the key, in a second no earlier than `from`. */
  predicate Counts(x: Input, k: Key, from: int)
  {
    x.tr.key == k && x.now / 1_000_000_000 >= from
  }

  /** The dollars of the inputs that count. */
  function DollarsIn(ins: seq<Input>, k: Key, from: int): real
  {
    if ins == [] then 0.0
    else
      var last := ins[|ins| - 1];
      DollarsIn(ins[..|ins| - 1], k, from) + if Counts(last, k, from) then Dollars(last.tr) else 0.0
  }

  ghost predicate WalletCounts(ins: seq<Input>, k: Key, from: int, w: nat)
  {
    exists i :: 0 <= i < |ins| && Counts(ins[i], k, from) && ins[i].tr.wallet == w
  }

  /** The cohort says who traded the key in the window, each once and in order, and for how much in all. */
  ghost predicate Describes(c: Cohort, ins: seq<Input>, k: Key, from: int)
  {
    && Increasing(c.wallets)
    && (forall w :: w in c.wallets <==> WalletCounts(ins, k, from, w))
    && c.combinedUsd == DollarsIn(ins, k, from)
  }

  // ---- The rows behind it ----

  function Rows(ins: seq<Input>): seq<Row>
  {
    Map((x: Input) => RowOf(x.tr, x.now), ins)
  }

  lemma RowsSnoc(ins: seq<Input>)
    requires ins != []
    ensures var last := ins[|ins| - 1];
            Rows(ins) == Rows(ins[..|ins| - 1]) + [RowOf(last.tr, last.now)]
  {}

  lemma {:induction false} EventsAreRecentRows(cfg: Config, ins: seq<Input>, cutoff: int)
    requires ClockOk(ins) && (ins != [] ==> cutoff == Cutoff(cfg, ins[|ins| - 1].now))
    ensures Run(cfg, ins).events == Since(Rows(ins), cutoff)
  {
    if ins != [] {
      hide Since, CohortOf, OfKey;
      var rest, last := ins[..|ins| - 1], ins[|ins| - 1];
      var early := if rest == [] then cutoff else Cutoff(cfg, rest[|rest| - 1].now);
      assert early <= cutoff;
      EventsAreRecentRows(cfg, rest, early);
      EventsAfter(cfg, Run(cfg, rest), Spec(Rows(rest), map[]), early, last.tr, last.now);
      RowsSnoc(ins);
    }
  }

  lemma LastGroup(cfg: Config, ins: seq<Input>)
    requires ins != [] && ClockOk(ins)
    ensures var last := ins[|ins| - 1];
            LastAnswer(cfg, ins).cohort == CohortOf(Since(OfKey(Rows(ins), last.tr.key), Cutoff(cfg, last.now)))
  {
    hide Since, CohortOf, OfKey, Decide, Reaped;
    var rest, last := ins[..|ins| - 1], ins[|ins| - 1];
    var c := Cutoff(cfg, last.now);
    var early := if rest == [] then c else Cutoff(cfg, rest[|rest| - 1].now);
    EventsAreRecentRows(cfg, rest, early);
    EventsAfter(cfg, Run(cfg, rest), Spec(Rows(rest), map[]), early, last.tr, last.now);
    RowsSnoc(ins);
    OfKeySince(Rows(ins), last.tr.key, c);
    SinceIdempotent(OfKey(Rows(ins), last.tr.key), c);
  }

  function GroupIn(ins: seq<Input>, k: Key, from: int): seq<Row>
  {
    Since(OfKey(Rows(ins), k), from)
  }

  lemma GroupInSnoc(ins: seq<Input>, k: Key, from: int)
    requires ins != []
    ensures var rest, last := ins[..|ins| - 1], ins[|ins| - 1];
            GroupIn(ins, k, from) ==
            if Counts(last, k, from) then GroupIn(rest, k, from) + [RowOf(last.tr, last.now)] else GroupIn(rest, k, from)
  {
    hide Since, OfKey;
    var rest, last := ins[..|ins| - 1], ins[|ins| - 1];
    RowsSnoc(ins);
    OfKeySnoc(Rows(rest), RowOf(last.tr, last.now), k);
    SinceSnoc(OfKey(Rows(rest), k), RowOf(last.tr, last.now), from);
    assert OfKey(Rows(rest), k) + [] == OfKey(Rows(rest), k) && GroupIn(rest, k, from) + [] == GroupIn(rest, k, from);
  }

  lemma RowTells(x: Input)
    ensures UsdOf(RowOf(x.tr, x.now)) == Dollars(x.tr) && RowOf(x.tr, x.now).wallet == x.tr.wallet
  {}

  lemma {:induction false} GroupDollars(ins: seq<Input>, k: Key, from: int)
    ensures RealSum(UsdOf, GroupIn(ins, k, from)) == DollarsIn(ins, k, from)
  {
    if ins != [] {
      hide GroupIn, RealSum, Counts, Dollars, RowOf;
      var rest, last := ins[..|ins| - 1], ins[|ins| - 1];
      GroupDollars(rest, k, from);
      GroupInSnoc(ins, k, from);
      RealSumSnoc(UsdOf, GroupIn(rest, k, from), RowOf(last.tr, last.now));
      RowTells(last);
    }
  }

  lemma {:induction false} GroupWallets(ins: seq<Input>, k: Key, from: int, w: nat)
    ensures w in Map(WalletOf, GroupIn(ins, k, from)) <==> WalletCounts(ins, k, from, w)
  {
    if ins != [] {
      hide GroupIn, WalletCounts, Counts, RowOf;
      var rest, last := ins[..|ins| - 1], ins[|ins| - 1];
      GroupWallets(rest, k, from, w);
      GroupInSnoc(ins, k, from);
      RowTells(last);
      MapWalletSnoc(GroupIn(rest, k, from), RowOf(last.tr, last.now));
      WalletCountsSnoc(rest, last, k, from, w);
      assert rest + [last] == ins;
    }
  }

  lemma MapWalletSnoc(g: seq<Row>, r: Row)
    ensures forall w :: w in Map(WalletOf, g + [r]) <==> w in Map(WalletOf, g) || w == r.wallet
  {
    assert Map(WalletOf, g + [r]) == Map(WalletOf, g) + [r.wallet];
  }

  lemma WalletCountsSnoc(ins: seq<Input>, x: Input, k: Key, from: int, w: nat)
    ensures WalletCounts(ins + [x], k, from, w) <==>
            WalletCounts(ins, k, from, w) || (Counts(x, k, from) && x.tr.wallet == w)
  {
    var more := ins + [x];
    assert more[|ins|] == x;
    if i :| 0 <= i < |ins| && Counts(ins[i], k, from) && ins[i].tr.wallet == w {
      assert more[i] == ins[i];
    }
  }

  /**
   With a nondecreasing clock, the last answer describes exactly the inputs of its key whose
   second is no earlier than that of the window's start, for every window and threshold.
   */
  lemma CohortExactly(cfg: Config, ins: seq<Input>)
    requires ins != [] && ClockOk(ins)
    ensures var last := ins[|ins| - 1];
            Describes(LastAnswer(cfg, ins).cohort, ins, last.tr.key, (last.now - cfg.window) / 1_000_000_000)
  {
    hide LastAnswer, Since, OfKey, RealSum, WalletCounts;
    var last := ins[|ins| - 1];
    LastGroup(cfg, ins);
    var from := Cutoff(cfg, last.now);
    GroupDollars(ins, last.tr.key, from);
    forall w: nat ensures w in Map(WalletOf, GroupIn(ins, last.tr.key, from)) <==> WalletCounts(ins, last.tr.key, from, w) {
      GroupWallets(ins, last.tr.key, from, w);
    }
  }

  // ---- When a record fires ----

  /** How many wallets the answer to input j counted. */
  function CountAt(cfg: Config, ins: seq<Input>, j: nat): nat
    requires j < |ins|
  {
    |LastAnswer(cfg, ins[..j + 1]).cohort.wallets|
  }

  /** Input j is of the key, and from it on the key's answers stayed at the threshold or above. */
  ghost predicate Standing(cfg: Config, ins: seq<Input>, k: Key, j: nat)
  {
    && j < |ins| && ins[j].tr.key == k
    && forall m :: j <= m < |ins| && ins[m].tr.key == k ==> CountAt(cfg, ins, m) >= cfg.minWallets
  }

  /** h is the largest count among the standing answers of the key; 0 when there is none. */
  ghost predicate HighWater(cfg: Config, ins: seq<Input>, k: Key, h: nat)
  {
    && (forall j :: 0 <= j < |ins| && Standing(cfg, ins, k, j) ==> CountAt(cfg, ins, j) <= h)
    && (h > 0 ==> exists j :: 0 <= j < |ins| && Standing(cfg, ins, k, j) && CountAt(cfg, ins, j) == h)
  }

  lemma CountAtEarlier(cfg: Config, ins: seq<Input>, j: nat)
    requires j < |ins| - 1
    ensures CountAt(cfg, ins, j) == CountAt(cfg, ins[..|ins| - 1], j)
  {
    hide LastAnswer;
    assert ins[..|ins| - 1][..j + 1] == ins[..j + 1];
  }

  /** The last input changes which answers of its key stand, and of no other. */
  lemma StandingNext(cfg: Config, ins: seq<Input>, k: Key, j: nat)
    requires ins != [] && j < |ins|
    ensures var n := |ins| - 1;
            Standing(cfg, ins, k, j) <==>
            if ins[n].tr.key != k then Standing(cfg, ins[..n], k, j)
            else CountAt(cfg, ins, n) >= cfg.minWallets && (j == n || Standing(cfg, ins[..n], k, j))
  {
    hide CountAt;
    var n := |ins| - 1;
    forall m: nat | m < n ensures CountAt(cfg, ins, m) == CountAt(cfg, ins[..n], m) {
      CountAtEarlier(cfg, ins, m);
    }
  }

  lemma LastCount(cfg: Config, ins: seq<Input>)
    requires cfg.minWallets >= 2 && ins != [] && ClockOk(ins)
    ensures LastAnswer(cfg, ins) == SpecLastAnswer(cfg, ins)
    ensures CountAt(cfg, ins, |ins| - 1) == |SpecLastAnswer(cfg, ins).cohort.wallets|
  {
    hide LastAnswer, SpecLastAnswer;
    AnswerRefines(cfg, ins);
    assert ins[..|ins|] == ins;
  }

  /** The last answer of its key takes the high-water to its own count, or to zero below the threshold. */
  lemma HighWaterNext(cfg: Config, ins: seq<Input>, k: Key, h: nat)
    requires ins != [] && cfg.minWallets >= 2 && HighWater(cfg, ins[..|ins| - 1], k, h)
    ensures var n := |ins| - 1;
            var c := CountAt(cfg, ins, n);
            HighWater(cfg, ins, k, if ins[n].tr.key != k then h else if c < cfg.minWallets then 0 else if c > h then c else h)
  {
    hide CountAt, Standing;
    var n := |ins| - 1;
    var rest := ins[..n];
    forall j: nat | j < |ins| ensures j < n ==> CountAt(cfg, ins, j) == CountAt(cfg, rest, j)
      ensures Standing(cfg, ins, k, j) <==>
              if ins[n].tr.key != k then Standing(cfg, rest, k, j)
              else CountAt(cfg, ins, n) >= cfg.minWallets && (j == n || Standing(cfg, rest, k, j))
    {
      StandingNext(cfg, ins, k, j);
      if j < n {
        CountAtEarlier(cfg, ins, j);
      }
    }
    NeverStands(cfg, rest, k, n);
    var c := CountAt(cfg, ins, n);
    var next := if ins[n].tr.key != k then h else if c < cfg.minWallets then 0 else if c > h then c else h;
    forall j: nat | j < |ins| && Standing(cfg, ins, k, j) ensures CountAt(cfg, ins, j) <= next {
      assert j < n ==> Standing(cfg, rest, k, j);
    }
    if next > 0 {
      if next == h {
        var j :| 0 <= j < |rest| && Standing(cfg, rest, k, j) && CountAt(cfg, rest, j) == h;
        assert Standing(cfg, ins, k, j) && CountAt(cfg, ins, j) == h;
      } else {
        assert Standing(cfg, ins, k, n);
      }
    }
  }

  lemma NeverStands(cfg: Config, ins: seq<Input>, k: Key, j: nat)
    requires j >= |ins|
    ensures !Standing(cfg, ins, k, j)
  {}

  lemma SpecNext(cfg: Config, ins: seq<Input>)
    requires ins != []
    ensures var n := |ins| - 1;
            var a := SpecLastAnswer(cfg, ins);
            var c, k, high := |a.cohort.wallets|, ins[n].tr.key, SpecRun(cfg, ins[..n]).high;
            && SpecRun(cfg, ins).high == (if c < cfg.minWallets then high[k := 0] else if c > High(high, k) then high[k := c] else high)
            && (a.fire <==> c >= cfg.minWallets && c > High(high, k))
  {
    hide CohortOf, Since, OfKey;
  }

  lemma {:induction false} SpecHighWater(cfg: Config, ins: seq<Input>, k: Key)
    requires cfg.minWallets >= 2 && ClockOk(ins)
    ensures HighWater(cfg, ins, k, High(SpecRun(cfg, ins).high, k))
  {
    hide CountAt, Standing, HighWater, SpecRun, SpecLastAnswer, LastAnswer;
    if ins == [] {
      NoHighWater(cfg, k);
    } else {
      var rest := ins[..|ins| - 1];
      SpecHighWater(cfg, rest, k);
      HighWaterNext(cfg, ins, k, High(SpecRun(cfg, rest).high, k));
      LastCount(cfg, ins);
      SpecNext(cfg, ins);
    }
  }

  lemma NoHighWater(cfg: Config, k: Key)
    ensures SpecRun(cfg, []).high == map[] && HighWater(cfg, [], k, 0)
  {}

  /**
   With a nondecreasing clock and a threshold of two or more, a record fires exactly when its
   count reaches the threshold and exceeds every count its key has had since it was last below.
   */
  lemma FiresExactly(cfg: Config, ins: seq<Input>)
    requires cfg.minWallets >= 2 && ins != [] && ClockOk(ins)
    ensures var n := |ins| - 1;
            LastAnswer(cfg, ins).fire <==>
            && CountAt(cfg, ins, n) >= cfg.minWallets
            && forall j :: 0 <= j < n && Standing(cfg, ins[..n], ins[n].tr.key, j) ==> CountAt(cfg, ins, j) < CountAt(cfg, ins, n)
  {
    hide CountAt, Standing, SpecRun, SpecLastAnswer, LastAnswer;
    var n := |ins| - 1;
    var k := ins[n].tr.key;
    SpecHighWater(cfg, ins[..n], k);
    LastCount(cfg, ins);
    SpecNext(cfg, ins);
    forall j: nat | j < n ensures CountAt(cfg, ins, j) == CountAt(cfg, ins[..n], j) {
      CountAtEarlier(cfg, ins, j);
    }
  }
}
