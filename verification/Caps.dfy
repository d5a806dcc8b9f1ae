/**
 The trader's independent hard caps: reserve-and-commit, release, day rolling and the
 persisted ledger. Dollar amounts are reals. A day key is a number: 0 stands for the empty
 initial key, and UTC dates are ordered as their text is.
 */
module Caps {
  import opened Seqs

  datatype Limits = Limits(perTrade: real, perDay: real, exposure: real)

  /** The running ledger, and the row it is persisted as. */
  datatype Ledger = Ledger(dayKey: nat, daySpent: real, open: real)

  const ZERO_LEDGER := Ledger(0, 0.0, 0.0)

  datatype Decision = Allowed | OverPerTrade | OverPerDay | OverExposure

  function Signed(size: real, buy: bool): real { if buy then size else -size }

  /** Only a later day resets the spend: a backward clock step never re-opens the budget. */
  function Rolled(l: Ledger, today: nat): Ledger
  {
    if today > l.dayKey then l.(dayKey := today, daySpent := 0.0) else l
  }

  function Reserve(lim: Limits, l: Ledger, size: real, buy: bool, today: nat): (Ledger, Decision)
  {
    var r := Rolled(l, today);
    if size > lim.perTrade then (r, OverPerTrade)
    else if r.daySpent + size > lim.perDay then (r, OverPerDay)
    else if buy && r.open + size > lim.exposure then (r, OverExposure)
    else (r.(daySpent := r.daySpent + size, open := r.open + Signed(size, buy)), Allowed)
  }

  /** Rolls a reservation back; the day's spend is clamped at zero. */
  function Release(l: Ledger, size: real, buy: bool): Ledger
  {
    l.(daySpent := if l.daySpent - size < 0.0 then 0.0 else l.daySpent - size,
       open := l.open - Signed(size, buy))
  }

  // ---- The persisted row and the object ----

  class LedgerStore {
    var row: Option<Ledger>

    constructor ()
      ensures row == None
    {
      row := None;
    }

    method SaveCaps(l: Ledger, works: bool)
      modifies this
      ensures row == if works then Some(l) else old(row)
    {
      if works {
        row := Some(l);
      }
    }

    /** None: nothing saved yet, or the read failed. */
    method LoadCaps(works: bool) returns (l: Option<Ledger>)
      ensures l == if works then row else None
    {
      l := if works then row else None;
    }
  }

  class CapsGuard {
    const limits: Limits
    const store: LedgerStore
    var dayKey: nat
    var daySpent: real
    var openExposure: real

    function Current(): Ledger
      reads this
    {
      Ledger(dayKey, daySpent, openExposure)
    }

    /** A failed load starts from zero. */
    constructor (limits: Limits, store: LedgerStore, loadWorks: bool)
      ensures this.limits == limits && this.store == store
      ensures Current() == if loadWorks && store.row.Some? then store.row.value else ZERO_LEDGER
    {
      this.limits := limits;
      this.store := store;
      dayKey, daySpent, openExposure := 0, 0.0, 0.0;
      new;
      var saved := store.LoadCaps(loadWorks);
      if saved.Some? {
        dayKey, daySpent, openExposure := saved.value.dayKey, saved.value.daySpent, saved.value.open;
      }
    }

    method RollDay(today: nat)
      modifies this
      ensures Current() == Rolled(old(Current()), today)
    {
      if today > dayKey {
        dayKey := today;
        daySpent := 0.0;
      }
    }

    method TryReserve(size: real, buy: bool, today: nat, saveWorks: bool) returns (d: Decision)
      modifies this, store
      ensures (Current(), d) == Reserve(limits, old(Current()), size, buy, today)
      ensures d == Allowed <==>
              && size <= limits.perTrade
              && (if today > old(dayKey) then 0.0 else old(daySpent)) + size <= limits.perDay
              && (buy ==> old(openExposure) + size <= limits.exposure)
      ensures store.row == if d == Allowed && saveWorks then Some(Current()) else old(store.row)
    {
      RollDay(today);
      if size > limits.perTrade {
        return OverPerTrade;
      }
      if daySpent + size > limits.perDay {
        return OverPerDay;
      }
      if buy && openExposure + size > limits.exposure {
        return OverExposure;
      }
      daySpent := daySpent + size;
      openExposure := openExposure + Signed(size, buy);
      store.SaveCaps(Current(), saveWorks);
      return Allowed;
    }

    method GiveBack(size: real, buy: bool, saveWorks: bool)
      modifies this, store
      ensures Current() == Release(old(Current()), size, buy)
      ensures store.row == if saveWorks then Some(Current()) else old(store.row)
    {
      daySpent := daySpent - size;
      if daySpent < 0.0 {
        daySpent := 0.0;
      }
      openExposure := openExposure - Signed(size, buy);
      store.SaveCaps(Current(), saveWorks);
    }

    method Snapshot(today: nat) returns (spent: real, exposure: real)
      modifies this
      ensures Current() == Rolled(old(Current()), today)
      ensures spent == daySpent && exposure == openExposure
    {
      RollDay(today);
      spent, exposure := daySpent, openExposure;
    }
  }

  // ---- Concurrent runs ----

  /** An unreleased reservation: who holds it, and in which day window it was made. */
  datatype Hold = Hold(who: nat, size: real, buy: bool, day: nat)

  /** Each operation is one critical section; Restart loses the memory, and with it every hold. */
  datatype Op =
    | OpReserve(who: nat, size: real, buy: bool, today: nat, saves: bool)
    | OpRelease(i: nat, saves: bool)
    | OpSnapshot(today: nat)
    | OpRestart(loads: bool)

  /** `led` is memory, `row` persists, `base` is what the current process loaded, `holds` its unreleased reservations. */
  datatype CState = CState(led: Ledger, row: Option<Ledger>, base: Ledger, holds: seq<Hold>)

  const START := CState(ZERO_LEDGER, None, ZERO_LEDGER, [])

  function Loaded(row: Option<Ledger>, loads: bool): Ledger
  {
    if loads && row.Some? then row.value else ZERO_LEDGER
  }

  /** A process that has just loaded (or failed to load) the row. */
  function Booted(row: Option<Ledger>, loads: bool): CState
  {
    CState(Loaded(row, loads), row, Loaded(row, loads), [])
  }

  function Apply(lim: Limits, s: CState, op: Op): CState
  {
    match op
    case OpReserve(who, size, buy, today, saves) =>
      var (l, d) := Reserve(lim, s.led, size, buy, today);
      if d == Allowed
      then s.(led := l, row := if saves then Some(l) else s.row, holds := s.holds + [Hold(who, size, buy, l.dayKey)])
      else s.(led := l)
    case OpRelease(i, saves) =>
      if i < |s.holds| then
        var l := Release(s.led, s.holds[i].size, s.holds[i].buy);
        s.(led := l, row := if saves then Some(l) else s.row, holds := RemoveAt(s.holds, i))
      else s
    case OpSnapshot(today) => s.(led := Rolled(s.led, today))
    case OpRestart(loads) =>
      var l := Loaded(s.row, loads);
      s.(led := l, base := l, holds := [])
  }

  function Run(lim: Limits, s: CState, ops: seq<Op>): CState
  {
    if ops == [] then s else Apply(lim, Run(lim, s, ops[..|ops| - 1]), ops[|ops| - 1])
  }

  function SignedSize(h: Hold): real { Signed(h.size, h.buy) }

  function SizeIn(day: nat): Hold -> real
  {
    (h: Hold) => if h.day == day then h.size else 0.0
  }

  /** The loaded spend, if its window is still open, plus this window's unreleased reservations. */
  function WindowTotal(s: CState): real
  {
    (if s.base.dayKey == s.led.dayKey then s.base.daySpent else 0.0) + RealSum(SizeIn(s.led.dayKey), s.holds)
  }

  // ---- The three caps ----

  /**
   A reservation is granted exactly when the trade is within the per-trade cap, the day's spend
   with it within the daily cap, and, for a buy, the exposure with it within the exposure cap;
   it counts in full, and a refusal names the first cap in the way and counts for nothing.
   */
  lemma ReserveExactly(lim: Limits, l: Ledger, size: real, buy: bool, today: nat)
    ensures var (r, d) := Reserve(lim, l, size, buy, today);
            var spent := if today > l.dayKey then 0.0 else l.daySpent;
            && (d == Allowed <==>
                  size <= lim.perTrade && spent + size <= lim.perDay && (buy ==> l.open + size <= lim.exposure))
            && (d == OverPerTrade <==> size > lim.perTrade)
            && (d == OverPerDay <==> size <= lim.perTrade && spent + size > lim.perDay)
            && r.daySpent - spent == (if d == Allowed then size else 0.0)
            && r.open - l.open == (if d != Allowed then 0.0 else if buy then size else -size)
            && l.dayKey <= r.dayKey && today <= r.dayKey && (r.dayKey == l.dayKey || r.dayKey == today)
  {}

  ghost predicate SmallHolds(lim: Limits, holds: seq<Hold>)
  {
    forall i :: 0 <= i < |holds| ==> holds[i].size <= lim.perTrade
  }

  lemma SmallHoldsStep(lim: Limits, s: CState, op: Op)
    requires SmallHolds(lim, s.holds)
    ensures SmallHolds(lim, Apply(lim, s, op).holds)
  {
    hide Release, Rolled;
    if op.OpReserve? {
      ReserveExactly(lim, s.led, op.size, op.buy, op.today);
    }
    if op.OpRelease? && op.i < |s.holds| {
      var r := RemoveAt(s.holds, op.i);
      forall j | 0 <= j < |r| ensures r[j].size <= lim.perTrade {
        assert r[j] == s.holds[if j < op.i then j else j + 1];
      }
    }
  }

  /** Under any interleaving, every unreleased reservation is within the per-trade cap. */
  lemma {:induction false} HoldsWithinPerTrade(lim: Limits, s0: CState, ops: seq<Op>)
    requires SmallHolds(lim, s0.holds)
    ensures SmallHolds(lim, Run(lim, s0, ops).holds)
  {
    hide Apply, SmallHolds;
    if ops != [] {
      HoldsWithinPerTrade(lim, s0, ops[..|ops| - 1]);
      SmallHoldsStep(lim, Run(lim, s0, ops[..|ops| - 1]), ops[|ops| - 1]);
    }
  }

  // ---- Conservation of exposure ----

  ghost predicate ExposureExact(s: CState)
  {
    s.led.open == s.base.open + RealSum(SignedSize, s.holds)
  }

  lemma ExposureStep(lim: Limits, s: CState, op: Op)
    requires ExposureExact(s)
    ensures ExposureExact(Apply(lim, s, op))
  {
    hide RealSum;
    match op
    case OpReserve(who, size, buy, today, saves) =>
      RealSumSnoc(SignedSize, s.holds, Hold(who, size, buy, Rolled(s.led, today).dayKey));
    case OpRelease(i, saves) =>
      if i < |s.holds| {
        RealSumRemoveAt(SignedSize, s.holds, i);
      }
    case OpSnapshot(_) =>
    case OpRestart(_) => NoHolds(SignedSize);
  }

  lemma NoHolds(f: Hold -> real)
    ensures RealSum(f, []) == 0.0
  {}

  /** Under any interleaving, open exposure is the loaded value plus the signed sum of the unreleased reservations. */
  lemma {:induction false} ExposureConserved(lim: Limits, s0: CState, ops: seq<Op>)
    requires ExposureExact(s0)
    ensures ExposureExact(Run(lim, s0, ops))
  {
    hide ExposureExact, Apply;
    if ops != [] {
      ExposureConserved(lim, s0, ops[..|ops| - 1]);
      ExposureStep(lim, Run(lim, s0, ops[..|ops| - 1]), ops[|ops| - 1]);
    }
  }

  // ---- The day's spend ----

  /** Every size is positive, and a release comes before the ledger rolls past its reservation's day. */
  ghost predicate Timely(s: CState, op: Op)
  {
    && (op.OpReserve? ==> op.size > 0.0)
    && (op.OpRelease? && op.i < |s.holds| ==> s.holds[op.i].day == s.led.dayKey)
  }

  ghost predicate TimelyRun(lim: Limits, s0: CState, ops: seq<Op>)
  {
    forall i :: 0 <= i < |ops| ==> Timely(Run(lim, s0, ops[..i]), ops[i])
  }

  /** The spend is exact and within cap; holds are positive and no newer than the ledger's day. */
  ghost predicate SpendExact(lim: Limits, s: CState)
  {
    && s.led.daySpent == WindowTotal(s) <= lim.perDay
    && s.base.dayKey <= s.led.dayKey && s.base.daySpent >= 0.0
    && (forall i :: 0 <= i < |s.holds| ==> s.holds[i].size > 0.0 && s.holds[i].day <= s.led.dayKey)
    && (s.row.Some? ==> 0.0 <= s.row.value.daySpent <= lim.perDay)
  }

  lemma {:induction false} NoneInLaterWindow(holds: seq<Hold>, day: nat)
    requires forall i :: 0 <= i < |holds| ==> holds[i].day < day
    ensures RealSum(SizeIn(day), holds) == 0.0
  {
    if holds != [] {
      var rest := holds[..|holds| - 1];
      assert forall i :: 0 <= i < |rest| ==> rest[i] == holds[i];
      NoneInLaterWindow(rest, day);
    }
  }

  lemma {:induction false} WindowNonNegative(holds: seq<Hold>, day: nat)
    requires forall i :: 0 <= i < |holds| ==> holds[i].size > 0.0
    ensures RealSum(SizeIn(day), holds) >= 0.0
  {
    if holds != [] {
      var rest := holds[..|holds| - 1];
      assert forall i :: 0 <= i < |rest| ==> rest[i] == holds[i];
      WindowNonNegative(rest, day);
    }
  }

  lemma RollKeepsSpendExact(lim: Limits, s: CState, today: nat)
    requires SpendExact(lim, s) && lim.perDay >= 0.0
    ensures SpendExact(lim, s.(led := Rolled(s.led, today)))
  {
    hide RealSum, SizeIn;
    if today > s.led.dayKey {
      NoneInLaterWindow(s.holds, today);
    }
  }

  /** A timely release takes exactly its own share of the window's total: the clamp at zero never fires. */
  lemma ClampNeverFires(lim: Limits, s: CState, i: nat)
    requires SpendExact(lim, s) && i < |s.holds| && s.holds[i].day == s.led.dayKey
    ensures s.led.daySpent - s.holds[i].size >= 0.0
    ensures var r := RemoveAt(s.holds, i);
            RealSum(SizeIn(s.led.dayKey), s.holds) == RealSum(SizeIn(s.led.dayKey), r) + s.holds[i].size
  {
    hide RealSum;
    RealSumRemoveAt(SizeIn(s.led.dayKey), s.holds, i);
    var r := RemoveAt(s.holds, i);
    forall j | 0 <= j < |r| ensures r[j].size > 0.0 {
      assert r[j] == s.holds[if j < i then j else j + 1];
    }
    WindowNonNegative(r, s.led.dayKey);
  }

  lemma ReserveKeepsSpendExact(lim: Limits, s: CState, op: Op)
    requires SpendExact(lim, s) && op.OpReserve? && op.size > 0.0 && lim.perDay >= 0.0
    ensures SpendExact(lim, Apply(lim, s, op))
  {
    hide RealSum;
    RollKeepsSpendExact(lim, s, op.today);
    var r := s.(led := Rolled(s.led, op.today));
    var h := Hold(op.who, op.size, op.buy, r.led.dayKey);
    RealSumSnoc(SizeIn(r.led.dayKey), r.holds, h);
    WindowNonNegative(r.holds, r.led.dayKey);
    AddedKeepsSpendExact(lim, r, h, op.saves);
  }

  /** Adding a reservation the daily cap has room for. */
  lemma AddedKeepsSpendExact(lim: Limits, r: CState, h: Hold, saves: bool)
    requires SpendExact(lim, r) && h.size > 0.0 && h.day == r.led.dayKey
    requires RealSum(SizeIn(h.day), r.holds + [h]) == RealSum(SizeIn(h.day), r.holds) + h.size
    requires r.led.daySpent >= 0.0
    ensures var l := r.led.(daySpent := r.led.daySpent + h.size, open := r.led.open + Signed(h.size, h.buy));
            l.daySpent <= lim.perDay ==>
              SpendExact(lim, r.(led := l, row := if saves then Some(l) else r.row, holds := r.holds + [h]))
  {
    hide RealSum, SizeIn;
  }

  lemma ReleaseKeepsSpendExact(lim: Limits, s: CState, i: nat, saves: bool)
    requires SpendExact(lim, s) && i < |s.holds| && s.holds[i].day == s.led.dayKey
    ensures SpendExact(lim, Apply(lim, s, OpRelease(i, saves)))
  {
    hide RealSum, SizeIn;
    ClampNeverFires(lim, s, i);
    var r := RemoveAt(s.holds, i);
    forall j | 0 <= j < |r| ensures r[j].size > 0.0 && r[j].day <= s.led.dayKey {
      assert r[j] == s.holds[if j < i then j else j + 1];
    }
  }

  lemma RestartKeepsSpendExact(lim: Limits, s: CState, loads: bool)
    requires SpendExact(lim, s) && lim.perDay >= 0.0
    ensures SpendExact(lim, Apply(lim, s, OpRestart(loads)))
  {
    hide RealSum, SizeIn;
    NoHolds(SizeIn(Loaded(s.row, loads).dayKey));
  }

  lemma SpendStep(lim: Limits, s: CState, op: Op)
    requires SpendExact(lim, s) && Timely(s, op) && lim.perDay >= 0.0
    ensures SpendExact(lim, Apply(lim, s, op))
  {
    hide SpendExact, Reserve, Release, RemoveAt;
    match op
    case OpReserve(_, _, _, _, _) => ReserveKeepsSpendExact(lim, s, op);
    case OpRelease(i, saves) =>
      if i < |s.holds| {
        ReleaseKeepsSpendExact(lim, s, i, saves);
      }
    case OpSnapshot(today) => RollKeepsSpendExact(lim, s, today);
    case OpRestart(loads) => RestartKeepsSpendExact(lim, s, loads);
  }

  /**
   With timely releases, and from a loaded ledger that is within the daily cap, the day's
   spend is exactly the open window's unreleased total, and stays within the cap.
   */
  lemma {:induction false} DaySpendExact(lim: Limits, s0: CState, ops: seq<Op>)
    requires lim.perDay >= 0.0 && SpendExact(lim, s0) && TimelyRun(lim, s0, ops)
    ensures SpendExact(lim, Run(lim, s0, ops))
  {
    hide SpendExact, Apply, Timely;
    if ops != [] {
      var rest := ops[..|ops| - 1];
      forall i | 0 <= i < |rest| ensures Timely(Run(lim, s0, rest[..i]), rest[i]) {
        assert rest[..i] == ops[..i];
      }
      DaySpendExact(lim, s0, rest);
      SpendStep(lim, Run(lim, s0, rest), ops[|ops| - 1]);
    }
  }

  /** A process that loads any row within the daily cap starts exact. */
  lemma LoadedIsExact(lim: Limits, row: Option<Ledger>, loads: bool)
    requires lim.perDay >= 0.0 && (row.Some? ==> 0.0 <= row.value.daySpent <= lim.perDay)
    ensures SpendExact(lim, Booted(row, loads)) && ExposureExact(Booted(row, loads))
  {
    hide RealSum, SizeIn;
    NoHolds(SizeIn(Loaded(row, loads).dayKey));
    NoHolds(SignedSize);
  }

  /** From a process that loads any row within the daily cap, or fails to. */
  lemma SpendExactFromRow(lim: Limits, row: Option<Ledger>, loads: bool, ops: seq<Op>)
    requires lim.perDay >= 0.0 && (row.Some? ==> 0.0 <= row.value.daySpent <= lim.perDay)
    requires TimelyRun(lim, Booted(row, loads), ops)
    ensures var s := Run(lim, Booted(row, loads), ops);
            s.led.daySpent == WindowTotal(s) <= lim.perDay
  {
    hide Run, Booted, WindowTotal;
    LoadedIsExact(lim, row, loads);
    DaySpendExact(lim, Booted(row, loads), ops);
  }

  /** A release leaves the spend exact if and only if it is timely, or nothing is counted in the open window. */
  lemma ReleaseExactness(lim: Limits, s: CState, i: nat, saves: bool)
    requires SpendExact(lim, s) && lim.perDay >= 0.0 && i < |s.holds|
    ensures SpendExact(lim, Apply(lim, s, OpRelease(i, saves)))
            <==> s.holds[i].day == s.led.dayKey || s.led.daySpent == 0.0
  {
    hide RealSum;
    var r := RemoveAt(s.holds, i);
    forall j | 0 <= j < |r| ensures r[j].size > 0.0 && r[j].day <= s.led.dayKey {
      assert r[j] == s.holds[if j < i then j else j + 1];
    }
    if s.holds[i].day == s.led.dayKey {
      ReleaseKeepsSpendExact(lim, s, i, saves);
    } else {
      RealSumRemoveAt(SizeIn(s.led.dayKey), s.holds, i);
      WindowNonNegative(s.holds, s.led.dayKey);
    }
  }

  /** A release after midnight erases spend of the new day. */
  lemma LateReleaseErasesSpend()
    ensures var lim := Limits(50.0, 100.0, 1000.0);
            var s := Run(lim, START, [OpReserve(0, 40.0, true, 1, true), OpReserve(1, 30.0, true, 2, true), OpRelease(0, true)]);
            s.led.daySpent == 0.0 && s.holds == [Hold(1, 30.0, true, 2)]
  {
    var lim := Limits(50.0, 100.0, 1000.0);
    var a, b, c := OpReserve(0, 40.0, true, 1, true), OpReserve(1, 30.0, true, 2, true), OpRelease(0, true);
    RunThree(lim, a, b, c);
  }

  lemma RunThree(lim: Limits, a: Op, b: Op, c: Op)
    ensures Run(lim, START, [a, b, c]) == Apply(lim, Apply(lim, Apply(lim, START, a), b), c)
  {
    assert [a, b, c][..2] == [a, b] && [a, b][..1] == [a] && [a][..0] == [];
    assert Run(lim, START, [a]) == Apply(lim, START, a);
    assert Run(lim, START, [a, b]) == Apply(lim, Run(lim, START, [a]), b);
  }

  // ---- Persistence ----

  ghost predicate Saves(op: Op)
  {
    (op.OpReserve? ==> op.saves) && (op.OpRelease? ==> op.saves) && (op.OpRestart? ==> op.loads)
  }

  /** The saved row (or nothing, for the zero ledger) rolls to the ledger in memory. */
  ghost predicate RowCurrent(s: CState)
  {
    s.led == Rolled(Loaded(s.row, true), s.led.dayKey)
  }

  /**
   With saves that work, a restart loses nothing: exposure is reloaded exactly, and from the
   ledger's day on every later roll of the reloaded ledger is that of the lost one.
   (Rolling alone is not saved, so the reloaded day may lag behind.)
   */
  lemma RestartReloads(lim: Limits, s0: CState, ops: seq<Op>, today: nat)
    requires RowCurrent(s0) && forall i :: 0 <= i < |ops| ==> Saves(ops[i])
    requires today >= Run(lim, s0, ops).led.dayKey
    ensures var s := Run(lim, s0, ops);
            var t := Apply(lim, s, OpRestart(true));
            t.led.open == s.led.open && Rolled(t.led, today) == Rolled(s.led, today)
  {
    RowStaysCurrent(lim, s0, ops);
  }

  lemma {:induction false} RowStaysCurrent(lim: Limits, s0: CState, ops: seq<Op>)
    requires RowCurrent(s0) && forall i :: 0 <= i < |ops| ==> Saves(ops[i])
    ensures RowCurrent(Run(lim, s0, ops))
  {
    if ops != [] {
      RowStaysCurrent(lim, s0, ops[..|ops| - 1]);
      var last := ops[|ops| - 1];
      assert Saves(last);
    }
  }

  // ---- The exposure cap ----

  /** Concurrently, exposure stays within cap as long as only buys are released. */
  lemma ExposureCapStep(lim: Limits, s: CState, op: Op)
    requires s.led.open <= lim.exposure && lim.exposure >= 0.0
    requires s.row.Some? ==> s.row.value.open <= lim.exposure
    requires op.OpReserve? ==> op.size > 0.0
    requires op.OpRelease? && op.i < |s.holds| ==> s.holds[op.i].buy && s.holds[op.i].size > 0.0
    ensures var t := Apply(lim, s, op);
            t.led.open <= lim.exposure && (t.row.Some? ==> t.row.value.open <= lim.exposure)
  {}

  ghost predicate PositiveAndBuysReleased(s: CState, op: Op)
  {
    && (op.OpReserve? ==> op.size > 0.0)
    && (op.OpRelease? && op.i < |s.holds| ==> s.holds[op.i].buy)
  }

  ghost predicate CapKept(lim: Limits, s: CState)
  {
    && s.led.open <= lim.exposure && (s.row.Some? ==> s.row.value.open <= lim.exposure)
    && forall j :: 0 <= j < |s.holds| ==> s.holds[j].size > 0.0
  }

  /** From any state within cap, as long as sizes are positive and only buys are released. */
  lemma {:induction false} ExposureWithinCap(lim: Limits, s0: CState, ops: seq<Op>)
    requires lim.exposure >= 0.0 && CapKept(lim, s0)
    requires forall i :: 0 <= i < |ops| ==> PositiveAndBuysReleased(Run(lim, s0, ops[..i]), ops[i])
    ensures CapKept(lim, Run(lim, s0, ops))
  {
    hide Apply;
    if ops != [] {
      var n := |ops| - 1;
      var rest := ops[..n];
      forall i | 0 <= i < n ensures PositiveAndBuysReleased(Run(lim, s0, rest[..i]), rest[i]) {
        assert rest[..i] == ops[..i];
      }
      ExposureWithinCap(lim, s0, rest);
      var s := Run(lim, s0, rest);
      CapKeptStep(lim, s, ops[n]);
    }
  }

  lemma CapKeptStep(lim: Limits, s: CState, op: Op)
    requires lim.exposure >= 0.0 && CapKept(lim, s) && PositiveAndBuysReleased(s, op)
    ensures CapKept(lim, Apply(lim, s, op))
  {
    hide Reserve, Release;
    ExposureCapStep(lim, s, op);
    if op.OpRelease? && op.i < |s.holds| {
      var r := RemoveAt(s.holds, op.i);
      forall j | 0 <= j < |r| ensures r[j].size > 0.0 {
        assert r[j] == s.holds[if j < op.i then j else j + 1];
      }
    }
  }

  /** Within cap, a release of a positive size stays within cap if and only if it is a buy or the room is there. */
  lemma ReleaseWithinCapExactly(lim: Limits, l: Ledger, size: real, buy: bool)
    requires l.open <= lim.exposure && size > 0.0
    ensures Release(l, size, buy).open <= lim.exposure <==> buy || l.open + size <= lim.exposure
  {}

  /** Reserve a sell, reserve a buy into the room it made, release the sell: the cap is exceeded. */
  lemma SellReleaseExceedsCap()
    ensures var lim := Limits(50.0, 100.0, 40.0);
            var s := Run(lim, START, [OpReserve(0, 30.0, false, 1, true), OpReserve(1, 50.0, true, 1, true), OpRelease(0, true)]);
            s.led.open > lim.exposure
  {
    var lim := Limits(50.0, 100.0, 40.0);
    RunThree(lim, OpReserve(0, 30.0, false, 1, true), OpReserve(1, 50.0, true, 1, true), OpRelease(0, true));
  }

  // ---- When the exposure cap holds in every concurrent run ----

  ghost predicate Positive(ops: seq<Op>)
  {
    forall i :: 0 <= i < |ops| && ops[i].OpReserve? ==> ops[i].size > 0.0
  }

  /** No interleaving of positive reservations and their releases takes the exposure over its cap. */
  ghost predicate CapHolds(lim: Limits)
  {
    forall ops :: Positive(ops) ==> Run(lim, START, ops).led.open <= lim.exposure
  }

  /** Nor does any in which every release comes before the day rolls past its reservation. */
  ghost predicate CapHoldsTimely(lim: Limits)
  {
    forall ops :: TimelyRun(lim, START, ops) ==> Run(lim, START, ops).led.open <= lim.exposure
  }

  /** What is committed in the open day window never exceeds the daily cap. */
  ghost predicate DailyCapHolds(lim: Limits)
  {
    forall ops :: Positive(ops) ==> WindowTotal(Run(lim, START, ops)) <= lim.perDay
  }

  /** The limits allow no reservation of any size. */
  predicate NoTrade(lim: Limits) { lim.perTrade <= 0.0 || lim.perDay <= 0.0 }

  /**
   The exposure cap holds exactly when the limits allow no trade at all, even if every release
   is timely: a released sell can always break it.
   */
  lemma ExposureCapExactly(lim: Limits)
    ensures CapHolds(lim) <==> lim.exposure >= 0.0 && NoTrade(lim)
    ensures CapHoldsTimely(lim) <==> lim.exposure >= 0.0 && NoTrade(lim)
  {
    hide Apply, Run, TimelyRun;
    if lim.exposure < 0.0 {
      EmptyRunStarts(lim);
    } else if NoTrade(lim) {
      forall ops | Positive(ops) ensures Run(lim, START, ops).led.open <= lim.exposure {
        NothingAllowed(lim, ops);
      }
      forall ops | TimelyRun(lim, START, ops) ensures Run(lim, START, ops).led.open <= lim.exposure {
        TimelyIsPositive(lim, START, ops);
        NothingAllowed(lim, ops);
      }
    } else {
      var ops := CapBroken(lim);
      TimelyIsPositive(lim, START, ops);
    }
  }

  /**
   The daily cap likewise: a late release takes from a day's spend what was never in it, and
   makes room for more.
   */
  lemma DailyCapExactly(lim: Limits)
    ensures DailyCapHolds(lim) <==> lim.perDay >= 0.0 && NoTrade(lim)
  {
    hide Apply, Run, WindowTotal;
    if lim.perDay < 0.0 {
      EmptyRunStarts(lim);
    } else if NoTrade(lim) {
      forall ops | Positive(ops) ensures WindowTotal(Run(lim, START, ops)) <= lim.perDay {
        NothingAllowed(lim, ops);
      }
    } else {
      var ops := DailyCapBroken(lim);
    }
  }

  lemma EmptyRunStarts(lim: Limits)
    ensures Positive([]) && TimelyRun(lim, START, [])
    ensures Run(lim, START, []).led.open == 0.0 && WindowTotal(Run(lim, START, [])) == 0.0
  {}

  lemma TimelyIsPositive(lim: Limits, s0: CState, ops: seq<Op>)
    requires TimelyRun(lim, s0, ops)
    ensures Positive(ops)
  {
    hide Run;
    forall i | 0 <= i < |ops| && ops[i].OpReserve? ensures ops[i].size > 0.0 {
      assert Timely(Run(lim, s0, ops[..i]), ops[i]);
    }
  }

  /** The state of a run in which nothing was ever reserved. */
  predicate Untouched(s: CState)
  {
    s.led.open == 0.0 && s.led.daySpent == 0.0 && s.row == None && s.holds == [] && s.base == ZERO_LEDGER
  }

  lemma {:induction false} NothingAllowed(lim: Limits, ops: seq<Op>)
    requires NoTrade(lim) && Positive(ops)
    ensures Untouched(Run(lim, START, ops)) && WindowTotal(Run(lim, START, ops)) == 0.0
  {
    if ops != [] {
      var rest, last := ops[..|ops| - 1], ops[|ops| - 1];
      assert Positive(rest);
      NothingAllowed(lim, rest);
      assert last.OpReserve? ==> last.size > 0.0;
    }
  }

  /** n times a. */
  function Total(a: real, n: nat): real { if n == 0 then 0.0 else Total(a, n - 1) + a }

  /** How often a fits. */
  lemma Fits(x: real, a: real) returns (n: nat)
    requires x >= 0.0 && a > 0.0
    ensures Total(a, n) <= x < Total(a, n) + a
  {
    hide Total, Product;
    n := (x / a).Floor;
    TotalIs(a, n);
    QuotientTimes(x, a);
    RoundsUp(x / a, n as real, a);
  }

  function Product(x: real, a: real): real { x * a }

  lemma QuotientTimes(x: real, a: real)
    requires a > 0.0
    ensures Product(x / a, a) == x
  {}

  lemma RoundsUp(q: real, x: real, a: real)
    requires a > 0.0 && x <= q < x + 1.0
    ensures Product(x, a) <= Product(q, a) < Product(x, a) + a
  {
    Scale(x, q, a);
    ScaleStrict(q, x + 1.0, a);
    Successor(x, a);
  }

  lemma {:induction false} TotalIs(a: real, n: nat)
    ensures Total(a, n) == Product(n as real, a)
  {
    if n > 0 {
      TotalIs(a, n - 1);
      Successor(n as real - 1.0, a);
    }
  }

  lemma Successor(x: real, a: real)
    ensures Product(x + 1.0, a) == Product(x, a) + a
  {}

  lemma Scale(x: real, y: real, a: real)
    requires x <= y && a > 0.0
    ensures Product(x, a) <= Product(y, a)
  {}

  lemma ScaleStrict(x: real, y: real, a: real)
    requires x < y && a > 0.0
    ensures Product(x, a) < Product(y, a)
  {
    assert (y - x) * a > 0.0;
  }

  lemma RunSnoc(lim: Limits, ops: seq<Op>, op: Op)
    ensures Run(lim, START, ops + [op]) == Apply(lim, Run(lim, START, ops), op)
    ensures TimelyRun(lim, START, ops) && Timely(Run(lim, START, ops), op) ==> TimelyRun(lim, START, ops + [op])
    ensures Positive(ops) && (op.OpReserve? ==> op.size > 0.0) ==> Positive(ops + [op])
  {
    hide Apply, Timely;
    var more := ops + [op];
    assert more[..|ops|] == ops;
    assert forall i :: 0 <= i < |ops| ==> more[..i] == ops[..i];
  }

  // ---- Breaking the exposure cap ----

  /** One buy of size a a day. */
  function DailyBuys(a: real, n: nat): seq<Op>
  {
    if n == 0 then [] else DailyBuys(a, n - 1) + [OpReserve(n, a, true, n, true)]
  }

  lemma {:induction false} DailyBuysFit(lim: Limits, a: real, n: nat)
    requires 0.0 < a <= lim.perTrade && a <= lim.perDay && Total(a, n) <= lim.exposure
    ensures TimelyRun(lim, START, DailyBuys(a, n))
    ensures var s := Run(lim, START, DailyBuys(a, n));
            s.led.dayKey == n && s.led.open == Total(a, n) && |s.holds| == n
  {
    hide Apply, Run, TimelyRun;
    if n == 0 {
      EmptyRunStarts(lim);
      StartsEmpty(lim);
    } else {
      DailyBuysFit(lim, a, n - 1);
      var rest := DailyBuys(a, n - 1);
      RunSnoc(lim, rest, OpReserve(n, a, true, n, true));
      FirstOfDay(lim, Run(lim, START, rest), a, true, n, n);
    }
  }

  lemma StartsEmpty(lim: Limits)
    ensures Run(lim, START, []) == START
  {}

  /** The first reservation of a day, with room in the caps. */
  lemma FirstOfDay(lim: Limits, s: CState, a: real, buy: bool, who: nat, today: nat)
    requires a <= lim.perTrade && a <= lim.perDay && s.led.dayKey < today
    requires buy ==> s.led.open + a <= lim.exposure
    ensures var t := Apply(lim, s, OpReserve(who, a, buy, today, true));
            && t.led == Ledger(today, a, s.led.open + Signed(a, buy)) && t.base == s.base
            && t.holds == s.holds + [Hold(who, a, buy, today)]
  {}

  /** Another reservation on the same day. */
  lemma LaterThatDay(lim: Limits, s: CState, a: real, buy: bool, who: nat)
    requires a <= lim.perTrade && s.led.daySpent + a <= lim.perDay
    requires buy ==> s.led.open + a <= lim.exposure
    ensures var t := Apply(lim, s, OpReserve(who, a, buy, s.led.dayKey, true));
            && t.led == Ledger(s.led.dayKey, s.led.daySpent + a, s.led.open + Signed(a, buy)) && t.base == s.base
            && t.holds == s.holds + [Hold(who, a, buy, s.led.dayKey)]
  {}

  /** Buys up to the cap; then, on one day, a sell, a buy into its room, and the sell's release. */
  lemma CapBroken(lim: Limits) returns (ops: seq<Op>)
    requires lim.exposure >= 0.0 && !NoTrade(lim)
    ensures TimelyRun(lim, START, ops) && Run(lim, START, ops).led.open > lim.exposure
  {
    hide Apply, Run, TimelyRun, Total, DailyBuys;
    var a := if lim.perTrade < lim.perDay / 2.0 then lim.perTrade else lim.perDay / 2.0;
    var n := Fits(lim.exposure, a);
    ops := DailyBuys(a, n);
    DailyBuysFit(lim, a, n);
    var s := Run(lim, START, ops);
    var sell, buy := OpReserve(n + 1, a, false, n + 1, true), OpReserve(n + 2, a, true, n + 1, true);
    RunSnoc(lim, ops, sell);
    FirstOfDay(lim, s, a, false, n + 1, n + 1);
    var s1 := Apply(lim, s, sell);
    RunSnoc(lim, ops + [sell], buy);
    LaterThatDay(lim, s1, a, true, n + 2);
    var s2 := Apply(lim, s1, buy);
    RunSnoc(lim, ops + [sell] + [buy], OpRelease(n, true));
    assert s2.holds[n] == Hold(n + 1, a, false, n + 1);
    ReleasedSell(lim, s2, n);
    ops := ops + [sell] + [buy] + [OpRelease(n, true)];
  }

  /** Releasing a sell goes over the cap exactly when its size was no longer free. */
  lemma ReleasedSell(lim: Limits, s: CState, i: nat)
    requires i < |s.holds| && !s.holds[i].buy && s.holds[i].size > 0.0 && s.led.open <= lim.exposure
    ensures Apply(lim, s, OpRelease(i, true)).led.open > lim.exposure <==> s.led.open + s.holds[i].size > lim.exposure
  {
    ReleaseWithinCapExactly(lim, s.led, s.holds[i].size, false);
  }

  // ---- Breaking the daily cap ----

  /** A reservation released only the day after, next to one of that day; then n more. */
  function LateRelease(a: real, n: nat): seq<Op>
  {
    if n == 0 then [OpReserve(0, a, false, 1, true), OpReserve(1, a, false, 2, true)] + [OpRelease(0, true)]
    else LateRelease(a, n - 1) + [OpReserve(n + 1, a, false, 2, true)]
  }

  lemma {:induction false} LateReleaseMakesRoom(lim: Limits, a: real, n: nat)
    requires 0.0 < a <= lim.perTrade && a <= lim.perDay && Total(a, n) <= lim.perDay
    ensures Positive(LateRelease(a, n))
    ensures var s := Run(lim, START, LateRelease(a, n));
            && s.led.dayKey == 2 && s.led.daySpent == Total(a, n) && s.base == ZERO_LEDGER
            && RealSum(SizeIn(2), s.holds) == Total(a, n) + a
  {
    hide Apply, Run, RealSum, SizeIn;
    if n == 0 {
      LateReleaseFirst(lim, a);
    } else {
      LateReleaseMakesRoom(lim, a, n - 1);
      var rest := LateRelease(a, n - 1);
      var s := Run(lim, START, rest);
      RunSnoc(lim, rest, OpReserve(n + 1, a, false, 2, true));
      LaterThatDay(lim, s, a, false, n + 1);
      RealSumSnoc(SizeIn(2), s.holds, Hold(n + 1, a, false, 2));
      SizeInOwn(Hold(n + 1, a, false, 2));
    }
  }

  lemma SizeInOwn(h: Hold)
    ensures SizeIn(h.day)(h) == h.size
  {}

  lemma LateReleaseFirst(lim: Limits, a: real)
    requires 0.0 < a <= lim.perTrade && a <= lim.perDay
    ensures Positive(LateRelease(a, 0))
    ensures var s := Run(lim, START, LateRelease(a, 0));
            && s.led.dayKey == 2 && s.led.daySpent == 0.0 && s.base == ZERO_LEDGER
            && RealSum(SizeIn(2), s.holds) == a
  {
    hide Run, RealSum;
    var x, y, z := OpReserve(0, a, false, 1, true), OpReserve(1, a, false, 2, true), OpRelease(0, true);
    assert [x, y] + [z] == [x, y, z];
    RunThree(lim, x, y, z);
    FirstOfDay(lim, START, a, false, 0, 1);
    var s1 := Apply(lim, START, x);
    FirstOfDay(lim, s1, a, false, 1, 2);
    var s2 := Apply(lim, s1, y);
    var h := Hold(1, a, false, 2);
    assert RemoveAt(s2.holds, 0) == [] + [h];
    RealSumSnoc(SizeIn(2), [], h);
    NoHolds(SizeIn(2));
  }

  lemma DailyCapBroken(lim: Limits) returns (ops: seq<Op>)
    requires lim.perDay >= 0.0 && !NoTrade(lim)
    ensures Positive(ops) && WindowTotal(Run(lim, START, ops)) > lim.perDay
  {
    hide Apply, Run, RealSum, SizeIn, Total, LateRelease;
    var a := if lim.perTrade < lim.perDay then lim.perTrade else lim.perDay;
    var n := Fits(lim.perDay, a);
    ops := LateRelease(a, n);
    LateReleaseMakesRoom(lim, a, n);
  }
}
