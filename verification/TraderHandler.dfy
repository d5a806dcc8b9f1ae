/**
 One handler placing an order on its own: the sequence of effects and rollbacks of `place`,
 as a method over the claim store, the caps and the kill switch.
 */
module TraderHandler {
  import opened Effects
  import opened Seqs
  import opened Placements
  import opened Trader
  import Caps

  /** The trader's kill switch, driven by control.halt. */
  class HaltState {
    var halted: bool

    constructor ()
      ensures !halted
    {
      halted := false;
    }

    method Set(value: bool)
      modifies this
      ensures halted == value
    {
      halted := value;
    }
  }

  datatype OrderResult = OrderResult(id: ProposalId, orderId: string, filled: bool, status: string, err: string)

  /** What one call of place meets: writes, the signer, the exchange, and a halt flip while signing. */
  datatype Meets = Meets(
    claim: Outcome, unclaim: Outcome, mark: Outcome, today: nat, reserveSaves: bool, releaseSaves: bool,
    signs: bool, haltedWhileSigning: Option<bool>, reply: Reply)

  /** A call of the exchange: the proposal it was for, and the reply. */
  datatype Sending = Sending(id: ProposalId, reply: Reply)

  /** Everything one call of place reads or writes; `orders` are the exchange calls made. */
  datatype World = World(
    placements: Table, led: Caps.Ledger, row: Option<Caps.Ledger>, halted: bool,
    orders: seq<Sending>, results: seq<OrderResult>)

  function Fail(w: World, p: Proposal, err: string): World
  {
    w.(results := w.results + [OrderResult(p.id, "", false, "", err)])
  }

  function GiveBack(w: World, p: Proposal, saves: bool): World
  {
    var l := Caps.Release(w.led, p.size, p.buy);
    w.(led := l, row := if saves then Some(l) else w.row)
  }

  /** The exchange call and what follows: roll back only a definite rejection, record, report. */
  function Settle(w0: World, p: Proposal, m: Meets): World
  {
    var w := w0.(orders := w0.orders + [Sending(p.id, m.reply)]);
    match m.reply
    case Rejected =>
      var w1 := GiveBack(w, p, m.releaseSaves);
      Fail(w1.(placements := MarkResult(w1.placements, p.id, "", "rejected", m.mark)), p, "place rejected")
    case Ambiguous =>
      Fail(w.(placements := MarkResult(w.placements, p.id, "", "unknown", m.mark)), p, "place ambiguous")
    case Accepted(orderId, status) =>
      w.(placements := MarkResult(w.placements, p.id, orderId, status, m.mark),
         results := w.results + [OrderResult(p.id, orderId, status == "matched", status, "")])
  }

  /** Nothing was sent: roll back the reservation and the claim. */
  function Undo(w: World, p: Proposal, m: Meets, err: string): World
  {
    var w1 := GiveBack(w, p, m.releaseSaves);
    Fail(w1.(placements := Unclaim(w1.placements, p.id, m.unclaim)), p, err)
  }

  /** From a granted reservation on: sign, look at the kill switch again, place. */
  function SignAndSend(w: World, p: Proposal, m: Meets): World
  {
    var w1 := w.(halted := if m.haltedWhileSigning.Some? then m.haltedWhileSigning.value else w.halted);
    if !m.signs then Undo(w1, p, m, "sign")
    else if w1.halted then Undo(w1, p, m, "halted")
    else Settle(w1, p, m)
  }

  function Place(lim: Caps.Limits, w: World, p: Proposal, m: Meets): World
  {
    if w.halted then Fail(w, p, "halted")
    else
      var (t, claimed) := Claim(w.placements, p.id, m.claim);
      var w1 := w.(placements := t);
      if claimed.None? then Fail(w1, p, "claim error")
      else if !claimed.value then w1
      else
        var (l, d) := Caps.Reserve(lim, w1.led, p.size, p.buy, m.today);
        var w2 := w1.(led := l, row := if d == Caps.Allowed && m.reserveSaves then Some(l) else w1.row);
        if d != Caps.Allowed then Fail(w2, p, "cap") else SignAndSend(w2, p, m)
  }

  /** A proposal event: placed at once when the policy asks for no approval. */
  function Propose(lim: Caps.Limits, policy: Policy, w: World, p: Proposal, m: Meets): World
  {
    if policy.RequiresApproval(p.size) then w else Place(lim, w, p, m)
  }

  class Handler {
    const caps: Caps.CapsGuard
    const store: Store
    const halt: HaltState
    const policy: Policy
    // The outside world as this handler sees it.
    var orders: seq<Sending>
    var results: seq<OrderResult>

    ghost function Now(): World
      reads this, caps, caps.store, store, halt
    {
      World(store.placements, caps.Current(), caps.store.row, halt.halted, orders, results)
    }

    constructor (caps: Caps.CapsGuard, store: Store, halt: HaltState, policy: Policy)
      ensures this.caps == caps && this.store == store && this.halt == halt && this.policy == policy
      ensures orders == [] && results == []
    {
      this.caps := caps;
      this.store := store;
      this.halt := halt;
      this.policy := policy;
      orders, results := [], [];
    }

    method ReportFailure(p: Proposal, err: string)
      modifies this
      ensures Now() == Fail(old(Now()), p, err)
    {
      results := results + [OrderResult(p.id, "", false, "", err)];
    }

    method RollBack(p: Proposal, m: Meets, err: string)
      modifies this, caps, caps.store, store
      ensures Now() == Undo(old(Now()), p, m, err)
    {
      caps.GiveBack(p.size, p.buy, m.releaseSaves);
      store.Drop(p.id, m.unclaim);
      ReportFailure(p, err);
    }

    method Finish(p: Proposal, m: Meets)
      modifies this, caps, caps.store, store
      ensures Now() == Settle(old(Now()), p, m)
    {
      orders := orders + [Sending(p.id, m.reply)];
      match m.reply
      case Rejected =>
        caps.GiveBack(p.size, p.buy, m.releaseSaves);
        store.Mark(p.id, "", "rejected", m.mark);
        ReportFailure(p, "place rejected");
      case Ambiguous =>
        store.Mark(p.id, "", "unknown", m.mark);
        ReportFailure(p, "place ambiguous");
      case Accepted(orderId, status) =>
        store.Mark(p.id, orderId, status, m.mark);
        results := results + [OrderResult(p.id, orderId, status == "matched", status, "")];
    }

    method PlaceOrder(p: Proposal, m: Meets)
      modifies this, caps, caps.store, store, halt
      ensures Now() == Place(caps.limits, old(Now()), p, m)
    {
      hide Settle, Undo, Caps.Reserve;
      if halt.halted {
        ReportFailure(p, "halted");
        return;
      }
      var claimed := store.TryClaim(p.id, m.claim);
      if claimed.None? {
        ReportFailure(p, "claim error");
        return;
      }
      if !claimed.value {
        return;
      }
      var d := caps.TryReserve(p.size, p.buy, m.today, m.reserveSaves);
      if d != Caps.Allowed {
        ReportFailure(p, "cap");
        return;
      }
      if m.haltedWhileSigning.Some? {
        halt.Set(m.haltedWhileSigning.value);
      }
      if !m.signs {
        RollBack(p, m, "sign");
        return;
      }
      if halt.halted {
        RollBack(p, m, "halted");
        return;
      }
      Finish(p, m);
    }

    method OnApproved(p: Proposal, approved: bool, m: Meets)
      modifies this, caps, caps.store, store, halt
      ensures Now() == if approved then Place(caps.limits, old(Now()), p, m) else old(Now())
    {
      if approved {
        PlaceOrder(p, m);
      }
    }

    method OnProposed(p: Proposal, m: Meets)
      modifies this, caps, caps.store, store, halt
      ensures Now() == Propose(caps.limits, policy, old(Now()), p, m)
    {
      if !policy.RequiresApproval(p.size) {
        PlaceOrder(p, m);
      }
    }
  }

  // ---- place is a run of the state machine ----

  /** The exchange calls in a log. */
  function OrdersOf(log: seq<Event>): seq<Sending>
  {
    if log == [] then []
    else
      var last := log[|log| - 1];
      OrdersOf(log[..|log| - 1]) + if last.Ordered? then [Sending(last.id, last.reply)] else []
  }

  lemma OrdersOfSnoc(log: seq<Event>, ev: Event)
    ensures OrdersOf(log + [ev]) == if ev.Ordered? then OrdersOf(log) + [Sending(ev.id, ev.reply)] else OrdersOf(log)
  {
    assert (log + [ev])[..|log|] == log;
  }

  function View(s: TState, results: seq<OrderResult>): World
  {
    World(s.placements, s.caps.led, s.caps.row, s.halted, OrdersOf(s.log), results)
  }

  /** Only handler h steps, on proposal p; the kill switch may be flipped meanwhile. */
  predicate OnlyHandler(acts: seq<Action>, h: nat, p: Proposal)
  {
    forall i :: 0 <= i < |acts| ==> acts[i] == Receive(h, p) || acts[i].SetHalt? || (acts[i].Step? && acts[i].h == h)
  }

  /** The state with handler h at pc. */
  function At(s: TState, h: nat, p: Proposal, pc: Pc): TState
  {
    s.(handlers := s.handlers[h := Handler(p, pc)])
  }

  lemma GotoAt(s: TState, h: nat, p: Proposal, pc: Pc, next: Pc)
    ensures Goto(At(s, h, p, pc), h, next) == At(s, h, p, next)
  {
    assert s.handlers[h := Handler(p, pc)][h := Handler(p, next)] == s.handlers[h := Handler(p, next)];
  }

  lemma Extend(lim: Caps.Limits, s: TState, acts: seq<Action>, a: Action)
    ensures Run(lim, s, acts + [a]) == Next(lim, Run(lim, s, acts), a)
  {
    assert (acts + [a])[..|acts|] == acts;
  }

  /** Releasing one's own reservation, the last one made. */
  lemma ReleaseOwn(lim: Caps.Limits, s: TState, h: nat, p: Proposal, pc: Pc, c: Choice)
    requires pc.AtRelease? || pc.AtGiveBack?
    requires s.caps.holds != [] && !Held(s.caps.holds[..|s.caps.holds| - 1], h)
    requires var x := s.caps.holds[|s.caps.holds| - 1]; x.who == h && Matches(x, p)
    ensures var t := Next(lim, At(s, h, p, pc), Step(h, c));
            && t.placements == s.placements && t.halted == s.halted && t.log == s.log
            && t.caps.led == Caps.Release(s.caps.led, p.size, p.buy)
            && t.caps.row == (if c.saves then Some(t.caps.led) else s.caps.row)
            && t == At(t, h, p, if pc.AtRelease? then AtUnclaim else AtMark(Rejected))
  {
    var holds := s.caps.holds;
    var n := |holds| - 1;
    assert holds[n].who == h;
    HoldOfFinds(holds, h);
    var i := HoldOf(holds, h);
    forall j | 0 <= j < n ensures holds[j].who != h {
      assert holds[..n][j].who != h;
    }
    GotoAt(s.(caps := CapsAfter(lim, At(s, h, p, pc), Step(h, c))), h, p, pc, if pc.AtRelease? then AtUnclaim else AtMark(Rejected));
  }

  /** The exchange call. */
  lemma ExchangeStep(lim: Caps.Limits, s: TState, h: nat, p: Proposal, c: Choice)
    ensures Next(lim, At(s, h, p, AtPlace), Step(h, c)) ==
            At(s.(log := s.log + [Ordered(h, p.id, c.reply)]), h, p, if c.reply == Rejected then AtGiveBack else AtMark(c.reply))
  {
    GotoAt(s.(log := s.log + [Ordered(h, p.id, c.reply)]), h, p, AtPlace, if c.reply == Rejected then AtGiveBack else AtMark(c.reply));
  }

  /** What MarkResult records of a reply. */
  function OrderIdOf(r: Reply): string { if r.Accepted? then r.orderId else "" }

  function StatusOf(r: Reply): string
  {
    match r case Accepted(_, status) => status case Rejected => "rejected" case Ambiguous => "unknown"
  }

  lemma MarkStep(lim: Caps.Limits, s: TState, h: nat, p: Proposal, r: Reply, c: Choice)
    ensures Next(lim, At(s, h, p, AtMark(r)), Step(h, c)) ==
            At(s.(placements := MarkResult(s.placements, p.id, OrderIdOf(r), StatusOf(r), c.how)), h, p, Ended)
  {
    hide MarkResult;
    GotoAt(s.(placements := MarkResult(s.placements, p.id, OrderIdOf(r), StatusOf(r), c.how)), h, p, AtMark(r), Ended);
  }

  /** From the exchange step on, the machine does what Settle does. */
  lemma SettleIsARun(lim: Caps.Limits, s0: TState, before: seq<Action>, s: TState, h: nat, p: Proposal, m: Meets, rs: seq<OrderResult>)
    returns (acts: seq<Action>)
    requires Run(lim, s0, before) == At(s, h, p, AtPlace)
    requires s.caps.holds != [] && !Held(s.caps.holds[..|s.caps.holds| - 1], h)
    requires var x := s.caps.holds[|s.caps.holds| - 1]; x.who == h && Matches(x, p)
    ensures View(Run(lim, s0, acts), Settle(View(s, rs), p, m).results) == Settle(View(s, rs), p, m)
    ensures OnlyHandler(before, h, p) ==> OnlyHandler(acts, h, p)
  {
    hide HoldOf, Caps.Release, Run, Held, OrdersOf, MarkResult, Next;
    var c := Choice(m.mark, m.signs, m.today, m.releaseSaves, m.reply);
    OrdersOfSnoc(s.log, Ordered(h, p.id, m.reply));
    var s1 := s.(log := s.log + [Ordered(h, p.id, m.reply)]);
    Extend(lim, s0, before, Step(h, c));
    ExchangeStep(lim, s, h, p, c);
    acts := before + [Step(h, c)];
    if m.reply == Rejected {
      ReleaseOwn(lim, s1, h, p, AtGiveBack, c);
      s1 := Next(lim, At(s1, h, p, AtGiveBack), Step(h, c));
      Extend(lim, s0, acts, Step(h, c));
      acts := acts + [Step(h, c)];
    }
    Extend(lim, s0, acts, Step(h, c));
    MarkStep(lim, s1, h, p, m.reply, c);
    acts := acts + [Step(h, c)];
  }

  /** Rolling back an unsent order is what Undo does. */
  lemma UndoIsARun(lim: Caps.Limits, s0: TState, before: seq<Action>, s: TState, h: nat, p: Proposal, m: Meets, err: string, rs: seq<OrderResult>)
    returns (acts: seq<Action>)
    requires Run(lim, s0, before) == At(s, h, p, AtRelease)
    requires s.caps.holds != [] && !Held(s.caps.holds[..|s.caps.holds| - 1], h)
    requires var x := s.caps.holds[|s.caps.holds| - 1]; x.who == h && Matches(x, p)
    ensures View(Run(lim, s0, acts), Undo(View(s, rs), p, m, err).results) == Undo(View(s, rs), p, m, err)
    ensures OnlyHandler(before, h, p) ==> OnlyHandler(acts, h, p)
  {
    hide HoldOf, Caps.Release, Run, Held, OrdersOf;
    var c := Choice(m.unclaim, m.signs, m.today, m.releaseSaves, m.reply);
    ReleaseOwn(lim, s, h, p, AtRelease, c);
    Extend(lim, s0, before, Step(h, c));
    acts := before + [Step(h, c)];
    Extend(lim, s0, acts, Step(h, c));
    acts := acts + [Step(h, c)];
  }

  /** From a granted reservation on. */
  lemma SignAndSendIsARun(lim: Caps.Limits, s0: TState, before: seq<Action>, s: TState, h: nat, p: Proposal, m: Meets, rs: seq<OrderResult>)
    returns (acts: seq<Action>)
    requires Run(lim, s0, before) == At(s, h, p, AtSign)
    requires s.caps.holds != [] && !Held(s.caps.holds[..|s.caps.holds| - 1], h)
    requires var x := s.caps.holds[|s.caps.holds| - 1]; x.who == h && Matches(x, p)
    ensures View(Run(lim, s0, acts), SignAndSend(View(s, rs), p, m).results) == SignAndSend(View(s, rs), p, m)
    ensures OnlyHandler(before, h, p) ==> OnlyHandler(acts, h, p)
  {
    hide HoldOf, Run, Held, Settle, Undo, Caps.Reserve, OrdersOf;
    var c := Choice(m.claim, m.signs, m.today, m.reserveSaves, m.reply);
    var flip := if m.haltedWhileSigning.Some? then m.haltedWhileSigning.value else s.halted;
    var s1 := s.(halted := flip);
    Extend(lim, s0, before, SetHalt(flip));
    acts := before + [SetHalt(flip)];
    assert Run(lim, s0, acts) == At(s1, h, p, AtSign);
    Extend(lim, s0, acts, Step(h, c));
    acts := acts + [Step(h, c)];
    if !m.signs {
      GotoAt(s1, h, p, AtSign, AtRelease);
      acts := UndoIsARun(lim, s0, acts, s1, h, p, m, "sign", rs);
      return;
    }
    OrdersOfSnoc(s.log, Signed(h));
    var s2 := s1.(log := s.log + [Signed(h)]);
    GotoAt(s2, h, p, AtSign, AtRecheck);
    Extend(lim, s0, acts, Step(h, c));
    acts := acts + [Step(h, c)];
    OrdersOfSnoc(s2.log, HaltRead(h, flip));
    var s3 := s2.(log := s2.log + [HaltRead(h, flip)]);
    GotoAt(s3, h, p, AtRecheck, if flip then AtRelease else AtPlace);
    if flip {
      acts := UndoIsARun(lim, s0, acts, s3, h, p, m, "halted", rs);
    } else {
      acts := SettleIsARun(lim, s0, acts, s3, h, p, m, rs);
    }
  }

  /**
   The sequential handler refines the interleaved machine: from any reachable state, what
   `place` does to the store, the ledger and the kill switch, and what it sends to the
   exchange, is what some run of the machine does in which only this handler steps.
   */
  lemma PlaceIsARun(lim: Caps.Limits, s: TState, h: nat, p: Proposal, m: Meets, rs: seq<OrderResult>)
    returns (acts: seq<Action>)
    requires h !in s.handlers && LedgerInv(s)
    ensures OnlyHandler(acts, h, p)
    ensures View(Run(lim, s, acts), Place(lim, View(s, rs), p, m).results) == Place(lim, View(s, rs), p, m)
  {
    hide LedgerInv, Run, Held, SignAndSend, Claim, OrdersOf, Caps.Reserve;
    NewHandlerHoldsNothing(s, h);
    var c := Choice(m.claim, m.signs, m.today, m.reserveSaves, m.reply);
    acts := [];
    assert Run(lim, s, acts) == s by { EmptyRun(lim, s); }
    Extend(lim, s, acts, Receive(h, p));
    acts := acts + [Receive(h, p)];
    assert Run(lim, s, acts) == At(s, h, p, AtHalt);
    Extend(lim, s, acts, Step(h, c));
    acts := acts + [Step(h, c)];
    GotoAt(s, h, p, AtHalt, if s.halted then Ended else AtClaim);
    if s.halted {
      return;
    }
    var (t, claimed) := Claim(s.placements, p.id, m.claim);
    var s1 := s.(placements := t);
    Extend(lim, s, acts, Step(h, c));
    acts := acts + [Step(h, c)];
    GotoAt(s1, h, p, AtClaim, if claimed == Some(true) then AtReserve else Ended);
    if claimed != Some(true) {
      return;
    }
    var (l, d) := Caps.Reserve(lim, s.caps.led, p.size, p.buy, m.today);
    var s2 := s1.(caps := CapsAfter(lim, At(s1, h, p, AtReserve), Step(h, c)));
    Extend(lim, s, acts, Step(h, c));
    acts := acts + [Step(h, c)];
    GotoAt(s2, h, p, AtReserve, if d == Caps.Allowed then AtSign else Ended);
    if d == Caps.Allowed {
      assert s2.caps.holds[..|s2.caps.holds| - 1] == s.caps.holds;
      acts := SignAndSendIsARun(lim, s, acts, s2, h, p, m, rs);
    }
  }

  lemma NewHandlerHoldsNothing(s: TState, h: nat)
    requires h !in s.handlers && LedgerInv(s)
    ensures !Held(s.caps.holds, h)
  {
    hide Held, LiveOrder;
  }

  lemma EmptyRun(lim: Caps.Limits, s: TState)
    ensures Run(lim, s, []) == s
  {}

  // ---- Serial placements ----

  ghost predicate WithinCap(lim: Caps.Limits, w: World)
  {
    && w.led.open <= lim.exposure && (w.row.Some? ==> w.row.value.open <= lim.exposure)
  }

  /** One whole placement, whatever fails and on whichever side, ends within the exposure cap. */
  lemma PlaceStaysWithinCap(lim: Caps.Limits, w: World, p: Proposal, m: Meets)
    requires WithinCap(lim, w) && p.size > 0.0
    ensures WithinCap(lim, Place(lim, w, p, m))
  {
    hide Claim, Unclaim, MarkResult;
  }

  function PlaceAll(lim: Caps.Limits, w: World, jobs: seq<(Proposal, Meets)>): World
  {
    if jobs == [] then w
    else Place(lim, PlaceAll(lim, w, jobs[..|jobs| - 1]), jobs[|jobs| - 1].0, jobs[|jobs| - 1].1)
  }

  /** So any serial run of placements, with arbitrary outcomes and sides, stays within the exposure cap. */
  lemma {:induction false} SerialRunWithinCap(lim: Caps.Limits, w: World, jobs: seq<(Proposal, Meets)>)
    requires WithinCap(lim, w) && forall i :: 0 <= i < |jobs| ==> jobs[i].0.size > 0.0
    ensures WithinCap(lim, PlaceAll(lim, w, jobs))
  {
    hide Place, WithinCap;
    if jobs != [] {
      SerialRunWithinCap(lim, w, jobs[..|jobs| - 1]);
      PlaceStaysWithinCap(lim, PlaceAll(lim, w, jobs[..|jobs| - 1]), jobs[|jobs| - 1].0, jobs[|jobs| - 1].1);
    }
  }

  // ---- At most once, one call at a time ----

  /** When place calls the exchange: switched on, newly claimed, reserved, signed, and still on. */
  predicate Sends(lim: Caps.Limits, w: World, p: Proposal, m: Meets)
  {
    && !w.halted && m.claim == Done && p.id !in w.placements
    && Caps.Reserve(lim, w.led, p.size, p.buy, m.today).1 == Caps.Allowed
    && m.signs && m.haltedWhileSigning != Some(true)
  }

  lemma SendsExactly(lim: Caps.Limits, w: World, p: Proposal, m: Meets)
    ensures Place(lim, w, p, m).orders == if Sends(lim, w, p, m) then w.orders + [Sending(p.id, m.reply)] else w.orders
    ensures forall id :: id in w.placements && id != p.id ==> id in Place(lim, w, p, m).placements
    ensures p.id in w.placements || Sends(lim, w, p, m) ==> p.id in Place(lim, w, p, m).placements
  {
    hide Caps.Reserve, Settle, Undo;
    var w1 := w.(placements := Claim(w.placements, p.id, m.claim).0);
    var r := Caps.Reserve(lim, w.led, p.size, p.buy, m.today);
    var w2 := w1.(led := r.0, row := if r.1 == Caps.Allowed && m.reserveSaves then Some(r.0) else w.row);
    var w3 := w2.(halted := if m.haltedWhileSigning.Some? then m.haltedWhileSigning.value else w.halted);
    SettleSends(w3, p, m);
    UndoSends(w3, p, m, if !m.signs then "sign" else "halted");
  }

  lemma SettleSends(w: World, p: Proposal, m: Meets)
    ensures Settle(w, p, m).orders == w.orders + [Sending(p.id, m.reply)]
    ensures Settle(w, p, m).placements.Keys == w.placements.Keys
  {
    hide Caps.Release;
  }

  lemma UndoSends(w: World, p: Proposal, m: Meets, err: string)
    ensures Undo(w, p, m, err).orders == w.orders
    ensures forall id :: id in w.placements && id != p.id ==> id in Undo(w, p, m, err).placements
  {
    hide Caps.Release;
  }

  function SendingId(o: Sending): ProposalId { o.id }

  /** No proposal was sent twice, and every one sent is still in the table. */
  ghost predicate SentOnceEach(w: World)
  {
    Distinct(Map(SendingId, w.orders)) && forall o :: o in w.orders ==> o.id in w.placements
  }

  /** Any serial run of placements, redeliveries included, sends each proposal at most once. */
  lemma {:induction false} SerialAtMostOnce(lim: Caps.Limits, w: World, jobs: seq<(Proposal, Meets)>)
    requires SentOnceEach(w)
    ensures SentOnceEach(PlaceAll(lim, w, jobs))
  {
    hide Place, Sends;
    if jobs != [] {
      var rest := jobs[..|jobs| - 1];
      var (p, m) := jobs[|jobs| - 1];
      SerialAtMostOnce(lim, w, rest);
      var w1 := PlaceAll(lim, w, rest);
      SendsExactly(lim, w1, p, m);
      if Sends(lim, w1, p, m) {
        SendsOnlyNew(lim, w1, p, m);
        assert Map(SendingId, w1.orders + [Sending(p.id, m.reply)]) == Map(SendingId, w1.orders) + [p.id];
      }
    }
  }

  lemma SendsOnlyNew(lim: Caps.Limits, w: World, p: Proposal, m: Meets)
    requires Sends(lim, w, p, m)
    ensures p.id !in w.placements
  {}
}
