/**
 Placing orders: halt check, claim, caps, sign, halt re-check, place, record. `Place` is
 one handler alone; the state machine interleaves any number of handlers, redeliveries,
 halt flips, failed writes and crashes, one critical section or external call per step.
 */
module Trader {
  import opened Effects
  import opened Seqs
  import opened Placements
  import Caps

  datatype Proposal = Proposal(id: ProposalId, size: real, buy: bool)

  /** What the exchange call returned; Ambiguous may or may not have reached the book. */
  datatype Reply = Accepted(orderId: string, status: string) | Rejected | Ambiguous

  /** The execution policy that decides which proposals run without approval. */
  datatype Policy = Approval | Auto | AutoBelow(ceiling: real)
  {
    predicate RequiresApproval(size: real)
    {
      match this
      case Approval => true
      case Auto => false
      case AutoBelow(ceiling) => size >= ceiling
    }
  }

  // ---- The state machine ----

  /** Where a handler stands; AtGiveBack, AtMark come after the exchange call. */
  datatype Pc =
    | AtHalt | AtClaim | AtReserve | AtSign | AtRecheck | AtPlace
    | AtRelease | AtUnclaim | AtGiveBack | AtMark(reply: Reply) | Ended

  datatype Handler = Handler(p: Proposal, pc: Pc)

  datatype Event = Signed(h: nat) | HaltRead(h: nat, halted: bool) | Ordered(h: nat, id: ProposalId, reply: Reply) | Crashed

  /** `placements` and the caps row persist; `log` is history. Ended handlers stay listed. */
  datatype TState = TState(
    placements: Table, caps: Caps.CState, halted: bool, handlers: map<nat, Handler>, log: seq<Event>)

  const START := TState(map[], Caps.START, false, map[], [])

  /** Everything a step cannot decide itself. */
  datatype Choice = Choice(how: Outcome, ok: bool, today: nat, saves: bool, reply: Reply)

  datatype Action =
    | Receive(h: nat, p: Proposal)   // an approved decision, an auto proposal, or a redelivery of either
    | SetHalt(halted: bool)
    | Step(h: nat, c: Choice)
    | Crash(loads: bool)

  /** Position of the handler's reservation among the unreleased ones. */
  function HoldOf(holds: seq<Caps.Hold>, who: nat): (i: nat)
    ensures i <= |holds|
    ensures i < |holds| ==> holds[i].who == who
  {
    if holds == [] || holds[0].who == who then 0 else 1 + HoldOf(holds[1..], who)
  }

  function Goto(s: TState, h: nat, pc: Pc): TState
    requires h in s.handlers
  {
    s.(handlers := s.handlers[h := s.handlers[h].(pc := pc)])
  }

  /** The caps operation a step performs, if any. */
  function CapsOp(s: TState, a: Action): Option<Caps.Op>
  {
    match a
    case Crash(loads) => Some(Caps.OpRestart(loads))
    case Step(h, c) =>
      if h !in s.handlers then None
      else
        var p := s.handlers[h].p;
        (match s.handlers[h].pc
         case AtReserve => Some(Caps.OpReserve(h, p.size, p.buy, c.today, c.saves))
         case AtRelease => Some(Caps.OpRelease(HoldOf(s.caps.holds, h), c.saves))
         case AtGiveBack => Some(Caps.OpRelease(HoldOf(s.caps.holds, h), c.saves))
         case _ => None)
    case _ => None
  }

  function CapsAfter(lim: Caps.Limits, s: TState, a: Action): Caps.CState
  {
    match CapsOp(s, a)
    case None => s.caps
    case Some(op) => Caps.Apply(lim, s.caps, op)
  }

  /** One step of handler h. */
  function HandlerStep(lim: Caps.Limits, s: TState, h: nat, c: Choice): TState
    requires h in s.handlers
  {
    var p := s.handlers[h].p;
    var s1 := s.(caps := CapsAfter(lim, s, Step(h, c)));
    match s.handlers[h].pc
    case AtHalt => Goto(s1, h, if s.halted then Ended else AtClaim)
    case AtClaim =>
      var (t, claimed) := Claim(s.placements, p.id, c.how);
      Goto(s1.(placements := t), h, if claimed == Some(true) then AtReserve else Ended)
    case AtReserve =>
      var d := Caps.Reserve(lim, s.caps.led, p.size, p.buy, c.today).1;
      Goto(s1, h, if d == Caps.Allowed then AtSign else Ended)
    case AtSign =>
      if c.ok then Goto(s1.(log := s.log + [Signed(h)]), h, AtRecheck) else Goto(s1, h, AtRelease)
    case AtRecheck =>
      Goto(s1.(log := s.log + [HaltRead(h, s.halted)]), h, if s.halted then AtRelease else AtPlace)
    case AtPlace =>
      Goto(s1.(log := s.log + [Ordered(h, p.id, c.reply)]), h, if c.reply == Rejected then AtGiveBack else AtMark(c.reply))
    case AtRelease => Goto(s1, h, AtUnclaim)
    case AtUnclaim => Goto(s1.(placements := Unclaim(s.placements, p.id, c.how)), h, Ended)
    case AtGiveBack => Goto(s1, h, AtMark(Rejected))
    case AtMark(reply) =>
      var orderId := if reply.Accepted? then reply.orderId else "";
      var status := match reply case Accepted(_, st) => st case Rejected => "rejected" case Ambiguous => "unknown";
      Goto(s1.(placements := MarkResult(s.placements, p.id, orderId, status, c.how)), h, Ended)
    case Ended => s1
  }

  /** Disabled actions change nothing. */
  function Next(lim: Caps.Limits, s: TState, a: Action): TState
  {
    match a
    case Receive(h, p) => if h in s.handlers then s else s.(handlers := s.handlers[h := Handler(p, AtHalt)])
    case SetHalt(b) => s.(halted := b)
    case Step(h, c) => if h in s.handlers then HandlerStep(lim, s, h, c) else s
    case Crash(loads) =>
      s.(caps := CapsAfter(lim, s, a), halted := false, log := s.log + [Crashed],
         handlers := map h | h in s.handlers :: s.handlers[h].(pc := Ended))
  }

  function Run(lim: Caps.Limits, s: TState, acts: seq<Action>): TState
  {
    if acts == [] then s else Next(lim, Run(lim, s, acts[..|acts| - 1]), acts[|acts| - 1])
  }

  // ---- At most one order per proposal ----

  function OrderCount(log: seq<Event>, id: ProposalId): nat
  {
    if log == [] then 0
    else OrderCount(log[..|log| - 1], id) + match log[|log| - 1] case Ordered(_, i, _) => (if i == id then 1 else 0) case _ => 0
  }

  /** Claimed and not yet sent: the handler that may still place or unclaim. */
  predicate Holding(pc: Pc)
  {
    pc.AtReserve? || pc.AtSign? || pc.AtRecheck? || pc.AtPlace? || pc.AtRelease? || pc.AtUnclaim?
  }

  predicate Sent(pc: Pc) { pc.AtGiveBack? || pc.AtMark? }

  ghost predicate ClaimInv(s: TState)
  {
    && (forall id :: OrderCount(s.log, id) <= 1)
    && (forall id :: OrderCount(s.log, id) == 1 ==> id in s.placements)
    && (forall h :: h in s.handlers && Holding(s.handlers[h].pc) ==>
          s.handlers[h].p.id in s.placements && OrderCount(s.log, s.handlers[h].p.id) == 0)
    && (forall h :: h in s.handlers && Sent(s.handlers[h].pc) ==> OrderCount(s.log, s.handlers[h].p.id) == 1)
    && (forall g, h :: SameClaim(s.handlers, g, h) ==> g == h)
  }

  /** Both handlers hold a claim on one proposal. */
  ghost predicate SameClaim(hs: map<nat, Handler>, g: nat, h: nat)
  {
    && g in hs && h in hs && Holding(hs[g].pc) && Holding(hs[h].pc)
    && hs[g].p.id == hs[h].p.id
  }

  lemma OrderCountSnoc(log: seq<Event>, ev: Event, id: ProposalId)
    ensures OrderCount(log + [ev], id) == OrderCount(log, id) + if ev.Ordered? && ev.id == id then 1 else 0
  {
    assert (log + [ev])[..|log|] == log;
  }

  /** Moving one handler: its new stand must fit, and a new claim must be on a fresh proposal. */
  lemma GotoKeeps(s: TState, h: nat, pc: Pc)
    requires h in s.handlers && ClaimInv(s)
    requires Holding(pc) ==> Holding(s.handlers[h].pc)
    requires Sent(pc) ==> OrderCount(s.log, s.handlers[h].p.id) == 1
    ensures ClaimInv(Goto(s, h, pc))
  {
    hide OrderCount;
    var t := Goto(s, h, pc);
    forall g, k | SameClaim(t.handlers, g, k) ensures g == k {
      assert SameClaim(s.handlers, g, k);
    }
  }

  lemma ClaimKeeps(s: TState, h: nat, how: Outcome)
    requires h in s.handlers && s.handlers[h].pc == AtClaim && ClaimInv(s)
    ensures var (t, claimed) := Claim(s.placements, s.handlers[h].p.id, how);
            ClaimInv(Goto(s.(placements := t), h, if claimed == Some(true) then AtReserve else Ended))
  {
    hide OrderCount;
    var id := s.handlers[h].p.id;
    var (t, claimed) := Claim(s.placements, id, how);
    assert ClaimInv(s.(placements := t));
    if claimed == Some(true) {
      var u := Goto(s.(placements := t), h, AtReserve);
      forall g, k | SameClaim(u.handlers, g, k) ensures g == k {
        if g != h && k != h {
          assert SameClaim(s.handlers, g, k);
        }
      }
    } else {
      GotoKeeps(s.(placements := t), h, Ended);
    }
  }

  /** Only the claim's holder unclaims, and it stops holding. */
  lemma UnclaimKeeps(s: TState, h: nat, how: Outcome)
    requires h in s.handlers && s.handlers[h].pc == AtUnclaim && ClaimInv(s)
    ensures ClaimInv(Goto(s.(placements := Unclaim(s.placements, s.handlers[h].p.id, how)), h, Ended))
  {
    hide OrderCount;
    var u := Goto(s, h, Ended);
    GotoKeeps(s, h, Ended);
    forall g | g in u.handlers && Holding(u.handlers[g].pc) ensures u.handlers[g].p.id != s.handlers[h].p.id {
      assert u.handlers[g].p.id == s.handlers[h].p.id ==> SameClaim(s.handlers, g, h);
    }
  }

  lemma PlaceKeeps(s: TState, h: nat, pc: Pc, reply: Reply)
    requires h in s.handlers && s.handlers[h].pc == AtPlace && ClaimInv(s) && Sent(pc)
    ensures ClaimInv(Goto(s.(log := s.log + [Ordered(h, s.handlers[h].p.id, reply)]), h, pc))
  {
    hide OrderCount;
    var id := s.handlers[h].p.id;
    var log := s.log + [Ordered(h, id, reply)];
    forall i ensures OrderCount(log, i) == OrderCount(s.log, i) + if i == id then 1 else 0 {
      OrderCountSnoc(s.log, Ordered(h, id, reply), i);
    }
    var t := Goto(s.(log := log), h, pc);
    forall g, k | SameClaim(t.handlers, g, k) ensures g == k {
      assert SameClaim(s.handlers, g, k);
    }
    forall g | g in t.handlers && Holding(t.handlers[g].pc) ensures t.handlers[g].p.id != id {
      assert t.handlers[g].p.id == id ==> SameClaim(s.handlers, g, h);
    }
  }

  /** Events other than an order count for nothing. */
  lemma LogKeeps(s: TState, ev: Event)
    requires ClaimInv(s) && !ev.Ordered?
    ensures ClaimInv(s.(log := s.log + [ev]))
  {
    hide OrderCount;
    forall i ensures OrderCount(s.log + [ev], i) == OrderCount(s.log, i) {
      OrderCountSnoc(s.log, ev, i);
    }
    assert s.(log := s.log + [ev]).handlers == s.handlers;
  }

  lemma StepKeepsClaims(lim: Caps.Limits, s: TState, h: nat, c: Choice)
    requires h in s.handlers && ClaimInv(s)
    ensures ClaimInv(HandlerStep(lim, s, h, c))
  {
    hide CapsAfter, ClaimInv, OrderCount, Claim, Unclaim, MarkResult;
    var s1 := s.(caps := CapsAfter(lim, s, Step(h, c)));
    var id := s.handlers[h].p.id;
    assert ClaimInv(s1) by { CapsIrrelevant(s, s1.caps); }
    match s.handlers[h].pc
    case AtClaim => ClaimKeeps(s1, h, c.how);
    case AtUnclaim => UnclaimKeeps(s1, h, c.how);
    case AtPlace => PlaceKeeps(s1, h, if c.reply == Rejected then AtGiveBack else AtMark(c.reply), c.reply);
    case AtSign =>
      if c.ok {
        LogKeeps(s1, Signed(h));
        GotoKeeps(s1.(log := s.log + [Signed(h)]), h, AtRecheck);
      } else {
        GotoKeeps(s1, h, AtRelease);
      }
    case AtRecheck =>
      LogKeeps(s1, HaltRead(h, s.halted));
      GotoKeeps(s1.(log := s.log + [HaltRead(h, s.halted)]), h, if s.halted then AtRelease else AtPlace);
    case AtGiveBack =>
      SentOnce(s1, h);
      GotoKeeps(s1, h, AtMark(Rejected));
    case AtMark(reply) =>
      var orderId := if reply.Accepted? then reply.orderId else "";
      var status := match reply case Accepted(_, st) => st case Rejected => "rejected" case Ambiguous => "unknown";
      MarkIrrelevant(s1, id, orderId, status, c.how);
      GotoKeeps(s1.(placements := MarkResult(s.placements, id, orderId, status, c.how)), h, Ended);
    case AtHalt => GotoKeeps(s1, h, if s.halted then Ended else AtClaim);
    case AtReserve =>
      var d := Caps.Reserve(lim, s.caps.led, s.handlers[h].p.size, s.handlers[h].p.buy, c.today).1;
      GotoKeeps(s1, h, if d == Caps.Allowed then AtSign else Ended);
    case AtRelease => GotoKeeps(s1, h, AtUnclaim);
    case Ended =>
  }

  lemma CapsIrrelevant(s: TState, caps: Caps.CState)
    requires ClaimInv(s)
    ensures ClaimInv(s.(caps := caps))
  {
    hide OrderCount;
  }

  lemma SentOnce(s: TState, h: nat)
    requires ClaimInv(s) && h in s.handlers && Sent(s.handlers[h].pc)
    ensures OrderCount(s.log, s.handlers[h].p.id) == 1
  {
    hide OrderCount;
  }

  lemma MarkIrrelevant(s: TState, id: ProposalId, orderId: string, status: string, how: Outcome)
    requires ClaimInv(s)
    ensures ClaimInv(s.(placements := MarkResult(s.placements, id, orderId, status, how)))
  {
    hide OrderCount;
  }

  lemma ClaimStep(lim: Caps.Limits, s: TState, a: Action)
    requires ClaimInv(s)
    ensures ClaimInv(Next(lim, s, a))
  {
    hide HandlerStep, OrderCount, CapsAfter;
    match a
    case Step(h, c) =>
      if h in s.handlers {
        StepKeepsClaims(lim, s, h, c);
      }
    case Receive(h, p) =>
      var t := Next(lim, s, a);
      forall g, k | SameClaim(t.handlers, g, k) ensures g == k {
        assert SameClaim(s.handlers, g, k);
      }
    case SetHalt(b) =>
    case Crash(loads) =>
      LogKeeps(s, Crashed);
      var t := Next(lim, s, a);
      assert forall g, k :: !SameClaim(t.handlers, g, k);
  }

  /** Whatever is interleaved, redelivered, lost or crashed, no proposal is sent to the exchange twice. */
  lemma {:induction false} AtMostOnce(lim: Caps.Limits, acts: seq<Action>, id: ProposalId)
    ensures ClaimInv(Run(lim, START, acts))
    ensures OrderCount(Run(lim, START, acts).log, id) <= 1
  {
    if acts != [] {
      AtMostOnce(lim, acts[..|acts| - 1], id);
      ClaimStep(lim, Run(lim, START, acts[..|acts| - 1]), acts[|acts| - 1]);
    }
  }

  // ---- No order without a fresh look at the kill switch ----

  /** Handler h signed, and afterwards read the kill switch as off, before position k. */
  ghost predicate Cleared(log: seq<Event>, k: nat, h: nat)
  {
    exists i, j :: 0 <= i < j < k <= |log| && log[i] == Signed(h) && log[j] == HaltRead(h, false)
  }

  ghost predicate HaltInv(s: TState)
  {
    && (forall k :: 0 <= k < |s.log| && s.log[k].Ordered? ==> Cleared(s.log, k, s.log[k].h))
    && (forall h :: h in s.handlers && s.handlers[h].pc == AtRecheck ==> Signed(h) in s.log)
    && (forall h :: h in s.handlers && s.handlers[h].pc == AtPlace ==> Cleared(s.log, |s.log|, h))
  }

  lemma ClearedGrows(log: seq<Event>, ev: Event, k: nat, h: nat)
    requires Cleared(log, k, h)
    ensures Cleared(log + [ev], k, h) && Cleared(log + [ev], |log| + 1, h)
  {
    var i, j :| 0 <= i < j < k <= |log| && log[i] == Signed(h) && log[j] == HaltRead(h, false);
    var more := log + [ev];
    assert more[i] == Signed(h) && more[j] == HaltRead(h, false);
  }

  /** What one handler's step does to the log and to its own stand. */
  lemma HandlerShape(lim: Caps.Limits, s: TState, h: nat, c: Choice)
    requires h in s.handlers
    ensures var t := HandlerStep(lim, s, h, c);
            && h in t.handlers && t.handlers == s.handlers[h := t.handlers[h]] && t.handlers[h].p == s.handlers[h].p
            && (match s.handlers[h].pc
                case AtSign => t.log == (if c.ok then s.log + [Signed(h)] else s.log)
                case AtRecheck => t.log == s.log + [HaltRead(h, s.halted)]
                case AtPlace => t.log == s.log + [Ordered(h, s.handlers[h].p.id, c.reply)]
                case _ => t.log == s.log)
            && (t.handlers[h].pc == AtRecheck ==> s.handlers[h].pc == AtSign && c.ok)
            && (t.handlers[h].pc == AtPlace ==> s.handlers[h].pc == AtRecheck && !s.halted)
  {
    hide CapsAfter, Claim, Unclaim, MarkResult, Caps.Reserve;
    match s.handlers[h].pc
    case AtClaim =>
    case AtReserve =>
    case _ =>
  }

  /** What a step may append to the log, and how a handler gets to the two stands that matter. */
  lemma StepShape(lim: Caps.Limits, s: TState, a: Action)
    ensures var t := Next(lim, s, a);
            && (t.log == s.log || (|t.log| == |s.log| + 1 && t.log == s.log + [t.log[|s.log|]]))
            && (t.log != s.log && t.log[|s.log|].Ordered? ==>
                  t.log[|s.log|].h in s.handlers && s.handlers[t.log[|s.log|].h].pc == AtPlace)
            && (forall h :: h in t.handlers && t.handlers[h].pc == AtRecheck ==>
                  (h in s.handlers && s.handlers[h].pc == AtRecheck) || t.log == s.log + [Signed(h)])
            && (forall h :: h in t.handlers && t.handlers[h].pc == AtPlace ==>
                  h in s.handlers && (s.handlers[h].pc == AtPlace || (s.handlers[h].pc == AtRecheck && t.log == s.log + [HaltRead(h, false)])))
  {
    hide CapsAfter, HandlerStep;
    if a.Step? && a.h in s.handlers {
      HandlerShape(lim, s, a.h, a.c);
    }
  }

  lemma HaltStep(lim: Caps.Limits, s: TState, a: Action)
    requires HaltInv(s)
    ensures HaltInv(Next(lim, s, a))
  {
    hide Next, Cleared;
    StepShape(lim, s, a);
    var t := Next(lim, s, a);
    forall h | h in t.handlers && t.handlers[h].pc == AtPlace ensures Cleared(t.log, |t.log|, h) {
      if s.handlers[h].pc == AtPlace {
        if t.log != s.log {
          ClearedGrows(s.log, t.log[|s.log|], |s.log|, h);
        }
      } else {
        SignedThenClear(s.log, h);
      }
    }
    forall k | 0 <= k < |t.log| && t.log[k].Ordered? ensures Cleared(t.log, k, t.log[k].h) {
      if t.log != s.log {
        var ev := t.log[|s.log|];
        if k < |s.log| {
          ClearedGrows(s.log, ev, k, s.log[k].h);
        } else {
          ClearedAt(s.log, ev, ev.h);
        }
      }
    }
  }

  lemma ClearedAt(log: seq<Event>, ev: Event, h: nat)
    requires Cleared(log, |log|, h)
    ensures Cleared(log + [ev], |log|, h)
  {
    ClearedGrows(log, ev, |log|, h);
  }

  lemma SignedThenClear(log: seq<Event>, h: nat)
    requires Signed(h) in log
    ensures Cleared(log + [HaltRead(h, false)], |log| + 1, h)
  {
    var i :| 0 <= i < |log| && log[i] == Signed(h);
    var more := log + [HaltRead(h, false)];
    assert more[i] == Signed(h) && more[|log|] == HaltRead(h, false);
  }

  /** Every order follows, in the same handler, a read of halted = false made after signing. */
  lemma {:induction false} OrdersFollowHaltCheck(lim: Caps.Limits, acts: seq<Action>)
    ensures HaltInv(Run(lim, START, acts))
  {
    if acts != [] {
      OrdersFollowHaltCheck(lim, acts[..|acts| - 1]);
      HaltStep(lim, Run(lim, START, acts[..|acts| - 1]), acts[|acts| - 1]);
    }
  }

  // ---- The kill switch stops everything ----

  /** Switched on, with nobody between a halted check and the claim or the exchange call it clears. */
  ghost predicate Stopped(s: TState)
  {
    s.halted && forall h :: h in s.handlers ==> !s.handlers[h].pc.AtClaim? && !s.handlers[h].pc.AtPlace?
  }

  /** Nothing new was claimed and nothing sent. */
  ghost predicate NothingPlaced(s: TState, t: TState)
  {
    && t.placements.Keys <= s.placements.Keys && s.log <= t.log
    && forall k :: |s.log| <= k < |t.log| ==> !t.log[k].Ordered?
  }

  lemma StoppedStep(lim: Caps.Limits, s: TState, a: Action)
    requires Stopped(s) && a != SetHalt(false) && !a.Crash?
    ensures Stopped(Next(lim, s, a)) && NothingPlaced(s, Next(lim, s, a))
  {
    hide CapsAfter, Caps.Reserve;
    if a.Step? && a.h in s.handlers {
      HandlerShape(lim, s, a.h, a.c);
      match s.handlers[a.h].pc
      case AtReserve =>
      case _ =>
    }
  }

  lemma NothingPlacedBoth(s: TState, t: TState, u: TState)
    requires NothingPlaced(s, t) && NothingPlaced(t, u)
    ensures NothingPlaced(s, u)
  {}

  /** While the kill switch stays on, no interleaving claims a proposal or sends one. */
  lemma {:induction false} KillSwitchHolds(lim: Caps.Limits, s: TState, acts: seq<Action>)
    requires Stopped(s) && forall i :: 0 <= i < |acts| ==> acts[i] != SetHalt(false) && !acts[i].Crash?
    ensures Stopped(Run(lim, s, acts)) && NothingPlaced(s, Run(lim, s, acts))
  {
    hide Next, Stopped, NothingPlaced;
    if acts == [] {
      NothingYet(s);
    } else {
      var rest := acts[..|acts| - 1];
      KillSwitchHolds(lim, s, rest);
      StoppedStep(lim, Run(lim, s, rest), acts[|acts| - 1]);
      NothingPlacedBoth(s, Run(lim, s, rest), Run(lim, s, acts));
    }
  }

  lemma NothingYet(s: TState)
    ensures NothingPlaced(s, s)
  {}

  // ---- The ledger under concurrent handlers ----

  /** Between a granted reservation and its release or the exchange's reply. */
  predicate Reserved(pc: Pc)
  {
    pc.AtSign? || pc.AtRecheck? || pc.AtPlace? || pc.AtRelease? || pc.AtGiveBack?
  }

  predicate Unreserved(pc: Pc) { pc.AtHalt? || pc.AtClaim? || pc.AtReserve? }

  ghost predicate Held(holds: seq<Caps.Hold>, h: nat)
  {
    exists i :: 0 <= i < |holds| && holds[i].who == h
  }

  ghost predicate OneHoldEach(holds: seq<Caps.Hold>)
  {
    forall i, j :: 0 <= i < j < |holds| ==> holds[i].who != holds[j].who
  }

  /** A reservation matches its handler's proposal. */
  predicate Matches(hold: Caps.Hold, p: Proposal) { hold.size == p.size && hold.buy == p.buy }

  /** No crash since position k: the order was sent by the running process. */
  ghost predicate SinceCrash(log: seq<Event>, k: nat)
  {
    forall j :: k <= j < |log| ==> log[j] != Crashed
  }

  /** The running process sent handler h's order, and the exchange did not reject it. */
  ghost predicate LiveOrder(log: seq<Event>, h: nat)
  {
    exists k :: 0 <= k < |log| && log[k].Ordered? && log[k].h == h && log[k].reply != Rejected && SinceCrash(log, k)
  }

  /**
   Exactly the handlers on their way with a reservation, and those whose order may be on the
   book, hold one unreleased reservation each, of their own proposal's size and side.
   */
  ghost predicate LedgerInv(s: TState)
  {
    && OneHoldEach(s.caps.holds)
    && (forall i :: 0 <= i < |s.caps.holds| ==> Owned(s, s.caps.holds[i]))
    && (forall h :: Held(s.caps.holds, h) <==>
          (h in s.handlers && Reserved(s.handlers[h].pc)) || LiveOrder(s.log, h))
    && (forall h :: LiveOrder(s.log, h) ==>
          h in s.handlers && !Reserved(s.handlers[h].pc) && !Unreserved(s.handlers[h].pc))
  }

  /** The reservation's handler is known, and asked for just that. */
  predicate Owned(s: TState, hold: Caps.Hold)
  {
    && hold.who in s.handlers && Matches(hold, s.handlers[hold.who].p)
    && !Unreserved(s.handlers[hold.who].pc)
  }

  lemma LiveOrderSnoc(log: seq<Event>, ev: Event, h: nat)
    ensures LiveOrder(log + [ev], h) <==>
            ev != Crashed && (LiveOrder(log, h) || (ev.Ordered? && ev.h == h && ev.reply != Rejected))
  {
    var more := log + [ev];
    assert more[|log|] == ev;
    if k :| 0 <= k < |log| && log[k].Ordered? && log[k].h == h && log[k].reply != Rejected && SinceCrash(log, k) {
      assert more[k] == log[k];
      assert ev != Crashed ==> SinceCrash(more, k);
    }
    if k :| 0 <= k < |more| && more[k].Ordered? && more[k].h == h && more[k].reply != Rejected && SinceCrash(more, k) {
      assert ev != Crashed;
      if k < |log| {
        assert log[k] == more[k];
        assert SinceCrash(log, k) by {
          assert forall j :: k <= j < |log| ==> log[j] == more[j];
        }
      }
    }
  }

  lemma {:induction false} HoldOfFinds(holds: seq<Caps.Hold>, h: nat)
    requires Held(holds, h)
    ensures HoldOf(holds, h) < |holds|
  {
    if holds[0].who != h {
      var i :| 0 <= i < |holds| && holds[i].who == h;
      assert holds[1..][i - 1].who == h;
      HoldOfFinds(holds[1..], h);
    }
  }

  lemma HeldSnoc(holds: seq<Caps.Hold>, x: Caps.Hold, h: nat)
    ensures Held(holds + [x], h) <==> Held(holds, h) || x.who == h
  {
    var more := holds + [x];
    assert more[|holds|] == x;
    if Held(holds, h) {
      var i :| 0 <= i < |holds| && holds[i].who == h;
      assert more[i].who == h;
    }
  }

  lemma HeldRemove(holds: seq<Caps.Hold>, i: nat, h: nat)
    requires OneHoldEach(holds) && i < |holds|
    ensures Held(RemoveAt(holds, i), h) <==> Held(holds, h) && h != holds[i].who
    ensures OneHoldEach(RemoveAt(holds, i))
  {
    var r := RemoveAt(holds, i);
    assert forall j :: 0 <= j < |r| ==> r[j] == holds[if j < i then j else j + 1];
    if Held(holds, h) && h != holds[i].who {
      var j :| 0 <= j < |holds| && holds[j].who == h;
      assert r[if j < i then j else j - 1].who == h;
    }
  }

  /** What a handler's step does to the reservations. */
  lemma HoldsAfter(lim: Caps.Limits, s: TState, h: nat, c: Choice)
    requires h in s.handlers && LedgerInv(s)
    ensures var holds, p := HandlerStep(lim, s, h, c).caps.holds, s.handlers[h].p;
            match s.handlers[h].pc
            case AtReserve =>
              if HandlerStep(lim, s, h, c).handlers[h].pc == AtSign
              then exists day :: holds == s.caps.holds + [Caps.Hold(h, p.size, p.buy, day)]
              else holds == s.caps.holds
            case AtRelease => HoldOf(s.caps.holds, h) < |s.caps.holds| && holds == RemoveAt(s.caps.holds, HoldOf(s.caps.holds, h))
            case AtGiveBack => HoldOf(s.caps.holds, h) < |s.caps.holds| && holds == RemoveAt(s.caps.holds, HoldOf(s.caps.holds, h))
            case _ => holds == s.caps.holds
    ensures s.handlers[h].pc == AtReserve ==> HandlerStep(lim, s, h, c).handlers[h].pc in {AtSign, Ended}
  {
    hide HoldOf, Claim, Unclaim, MarkResult, LedgerInv;
    match s.handlers[h].pc
    case AtReserve =>
    case AtRelease => ReservedHeld(s, h);
    case AtGiveBack => ReservedHeld(s, h);
    case _ =>
  }

  lemma ReservedHeld(s: TState, h: nat)
    requires LedgerInv(s) && h in s.handlers && Reserved(s.handlers[h].pc)
    ensures HoldOf(s.caps.holds, h) < |s.caps.holds|
  {
    HoldOfFinds(s.caps.holds, h);
  }

  /** How a handler's stand moves between the groups the ledger cares about. */
  lemma StandAfter(lim: Caps.Limits, s: TState, h: nat, c: Choice)
    requires h in s.handlers
    ensures var pc, next := s.handlers[h].pc, HandlerStep(lim, s, h, c).handlers[h].pc;
            && (Unreserved(next) ==> Unreserved(pc))
            && (Reserved(next) ==> (Reserved(pc) && !pc.AtRelease? && !pc.AtGiveBack?) || (pc.AtReserve? && next.AtSign?))
            && (Reserved(pc) && !pc.AtPlace? && !pc.AtRelease? && !pc.AtGiveBack? ==> Reserved(next))
            && (pc.AtPlace? ==> next == if c.reply == Rejected then AtGiveBack else AtMark(c.reply))
            && (!Unreserved(pc) && !Reserved(pc) ==> !Unreserved(next) && !Reserved(next))
  {
    hide CapsAfter, Claim, Unclaim, MarkResult, Caps.Reserve;
    match s.handlers[h].pc
    case AtClaim =>
    case AtReserve =>
    case _ =>
  }

  /** Who holds a reservation after a handler's step. */
  lemma HeldAfter(lim: Caps.Limits, s: TState, h: nat, c: Choice, g: nat)
    requires h in s.handlers && LedgerInv(s)
    ensures var t, pc := HandlerStep(lim, s, h, c), s.handlers[h].pc;
            && OneHoldEach(t.caps.holds)
            && (Held(t.caps.holds, g) <==>
                 if pc.AtReserve? && t.handlers[h].pc.AtSign? then Held(s.caps.holds, g) || g == h
                 else if pc.AtRelease? || pc.AtGiveBack? then Held(s.caps.holds, g) && g != h
                 else Held(s.caps.holds, g))
  {
    hide HandlerStep, HoldOf, Held, LiveOrder;
    HandlerShape(lim, s, h, c);
    HoldsAfter(lim, s, h, c);
    var t, pc, holds := HandlerStep(lim, s, h, c), s.handlers[h].pc, s.caps.holds;
    if pc.AtReserve? && t.handlers[h].pc.AtSign? {
      var x: Caps.Hold :| x.who == h && t.caps.holds == holds + [x];
      HeldSnoc(holds, x, g);
      NewHold(holds, x);
    } else if pc.AtRelease? || pc.AtGiveBack? {
      HeldRemove(holds, HoldOf(holds, h), g);
    }
  }

  lemma NewHold(holds: seq<Caps.Hold>, x: Caps.Hold)
    requires OneHoldEach(holds)
    ensures !Held(holds, x.who) ==> OneHoldEach(holds + [x])
  {}

  /** Whose order may be on the book after a handler's step. */
  lemma LiveOrderAfter(lim: Caps.Limits, s: TState, h: nat, c: Choice, g: nat)
    requires h in s.handlers
    ensures LiveOrder(HandlerStep(lim, s, h, c).log, g) <==>
            LiveOrder(s.log, g) || (s.handlers[h].pc.AtPlace? && g == h && c.reply != Rejected)
  {
    hide HandlerStep, LiveOrder;
    HandlerShape(lim, s, h, c);
    var t := HandlerStep(lim, s, h, c);
    if t.log != s.log {
      assert t.log == s.log + [t.log[|s.log|]];
      LiveOrderSnoc(s.log, t.log[|s.log|], g);
    }
  }

  lemma HandlerKeepsLedger(lim: Caps.Limits, s: TState, h: nat, c: Choice)
    requires h in s.handlers && LedgerInv(s)
    ensures LedgerInv(HandlerStep(lim, s, h, c))
  {
    hide HandlerStep, HoldOf, Held, LiveOrder, Matches;
    HandlerShape(lim, s, h, c);
    StandAfter(lim, s, h, c);
    HeldAfter(lim, s, h, c, h);
    HoldsOwned(lim, s, h, c);
    var t := HandlerStep(lim, s, h, c);
    forall g
      ensures Held(t.caps.holds, g) <==> (g in t.handlers && Reserved(t.handlers[g].pc)) || LiveOrder(t.log, g)
      ensures LiveOrder(t.log, g) ==> g in t.handlers && !Reserved(t.handlers[g].pc) && !Unreserved(t.handlers[g].pc)
    {
      HeldAfter(lim, s, h, c, g);
      LiveOrderAfter(lim, s, h, c, g);
    }
  }

  /** The remaining reservations still belong to their handlers. */
  lemma HoldsOwned(lim: Caps.Limits, s: TState, h: nat, c: Choice)
    requires h in s.handlers && LedgerInv(s)
    ensures var t := HandlerStep(lim, s, h, c);
            forall i :: 0 <= i < |t.caps.holds| ==> Owned(t, t.caps.holds[i])
  {
    hide HandlerStep, HoldOf, Held, LiveOrder;
    HandlerShape(lim, s, h, c);
    HoldsAfter(lim, s, h, c);
    StandAfter(lim, s, h, c);
    var t := HandlerStep(lim, s, h, c);
    var holds := s.caps.holds;
    forall i | 0 <= i < |t.caps.holds| ensures Owned(t, t.caps.holds[i]) {
      if i < |holds| && t.caps.holds[i] == holds[i] {
        assert Owned(s, holds[i]);
      } else if i < |holds| {
        assert t.caps.holds[i] == holds[i + 1];
        assert Owned(s, holds[i + 1]);
      }
    }
  }

  lemma LedgerStep(lim: Caps.Limits, s: TState, a: Action)
    requires LedgerInv(s)
    ensures LedgerInv(Next(lim, s, a))
  {
    hide HandlerStep, Held, LiveOrder, Matches;
    match a
    case Step(h, c) =>
      if h in s.handlers {
        HandlerKeepsLedger(lim, s, h, c);
      }
    case Crash(loads) =>
      forall g ensures !LiveOrder(s.log + [Crashed], g) {
        LiveOrderSnoc(s.log, Crashed, g);
      }
      NoneHeld();
    case Receive(h, p) =>
      var t := Next(lim, s, a);
      forall i | 0 <= i < |s.caps.holds| ensures Owned(t, s.caps.holds[i]) {
        assert Owned(s, s.caps.holds[i]);
      }
    case SetHalt(_) =>
      var t := Next(lim, s, a);
      forall i | 0 <= i < |s.caps.holds| ensures Owned(t, s.caps.holds[i]) {
        assert Owned(s, s.caps.holds[i]);
      }
  }

  lemma NoneHeld()
    ensures forall h :: !Held([], h)
  {}

  lemma StartLedger()
    ensures LedgerInv(START)
  {}

  /**
   In every reachable state of any interleaving, the unreleased reservations are exactly those
   of the handlers on their way and of the running process's orders that may be on the book.
   */
  lemma {:induction false} LiveOrdersReserved(lim: Caps.Limits, acts: seq<Action>)
    ensures LedgerInv(Run(lim, START, acts))
  {
    hide LedgerInv, Next;
    if acts == [] {
      StartLedger();
    } else {
      LiveOrdersReserved(lim, acts[..|acts| - 1]);
      LedgerStep(lim, Run(lim, START, acts[..|acts| - 1]), acts[|acts| - 1]);
    }
  }

  /** And the open exposure is exactly what was loaded plus the signed sum of those reservations. */
  lemma {:induction false} ExposureIsReservations(lim: Caps.Limits, acts: seq<Action>)
    ensures Caps.ExposureExact(Run(lim, START, acts).caps)
  {
    if acts != [] {
      hide HandlerStep, Caps.ExposureExact, Caps.Apply;
      var s := Run(lim, START, acts[..|acts| - 1]);
      var a := acts[|acts| - 1];
      ExposureIsReservations(lim, acts[..|acts| - 1]);
      CapsEvolves(lim, s, a);
      if CapsOp(s, a).Some? {
        Caps.ExposureStep(lim, s.caps, CapsOp(s, a).value);
      }
    } else {
      assert Run(lim, START, []).caps == Caps.START;
    }
  }

  lemma CapsEvolves(lim: Caps.Limits, s: TState, a: Action)
    ensures Next(lim, s, a).caps == CapsAfter(lim, s, a)
  {
    hide Caps.Apply, Claim, Unclaim, MarkResult;
    if a.Step? && a.h in s.handlers {
      match s.handlers[a.h].pc
      case AtClaim =>
      case AtReserve =>
      case _ =>
    }
  }

  /** A granted reservation behind it. */
  predicate Granted(pc: Pc) { pc.AtSign? || pc.AtRecheck? || pc.AtPlace? }

  /** Position k of the log is no order, or one of a listed handler's own proposal, within the per-trade cap. */
  predicate SmallOrder(lim: Caps.Limits, hs: map<nat, Handler>, ev: Event)
  {
    ev.Ordered? ==> ev.h in hs && hs[ev.h].p.id == ev.id && hs[ev.h].p.size <= lim.perTrade
  }

  ghost predicate PerTradeInv(lim: Caps.Limits, s: TState)
  {
    && (forall h :: h in s.handlers && Granted(s.handlers[h].pc) ==> s.handlers[h].p.size <= lim.perTrade)
    && (forall k :: 0 <= k < |s.log| ==> SmallOrder(lim, s.handlers, s.log[k]))
  }

  lemma GrantedAfter(lim: Caps.Limits, s: TState, h: nat, c: Choice)
    requires h in s.handlers && Granted(HandlerStep(lim, s, h, c).handlers[h].pc)
    ensures Granted(s.handlers[h].pc) || s.handlers[h].p.size <= lim.perTrade
  {
    hide CapsAfter, Claim, Unclaim, MarkResult, Caps.Reserve;
    match s.handlers[h].pc
    case AtReserve => Caps.ReserveExactly(lim, s.caps.led, s.handlers[h].p.size, s.handlers[h].p.buy, c.today);
    case AtClaim =>
    case _ =>
  }

  lemma PerTradeStep(lim: Caps.Limits, s: TState, a: Action)
    requires PerTradeInv(lim, s)
    ensures PerTradeInv(lim, Next(lim, s, a))
  {
    hide HandlerStep, CapsAfter;
    if a.Step? && a.h in s.handlers {
      HandlerShape(lim, s, a.h, a.c);
      if Granted(HandlerStep(lim, s, a.h, a.c).handlers[a.h].pc) {
        GrantedAfter(lim, s, a.h, a.c);
      }
    }
    var t := Next(lim, s, a);
    forall k | 0 <= k < |t.log| ensures SmallOrder(lim, t.handlers, t.log[k]) {
      assert k < |s.log| ==> SmallOrder(lim, s.handlers, s.log[k]);
    }
  }

  /** In every interleaving, each proposal sent to the exchange is within the per-trade cap. */
  lemma {:induction false} OrdersWithinPerTrade(lim: Caps.Limits, acts: seq<Action>)
    ensures PerTradeInv(lim, Run(lim, START, acts))
  {
    hide PerTradeInv, Next;
    if acts == [] {
      StartPerTrade(lim);
    } else {
      OrdersWithinPerTrade(lim, acts[..|acts| - 1]);
      PerTradeStep(lim, Run(lim, START, acts[..|acts| - 1]), acts[|acts| - 1]);
    }
  }

  lemma StartPerTrade(lim: Caps.Limits)
    ensures PerTradeInv(lim, START)
  {}

  ghost predicate OnlyBuys(acts: seq<Action>)
  {
    forall i :: 0 <= i < |acts| && acts[i].Receive? ==> acts[i].p.buy && acts[i].p.size > 0.0
  }

  ghost predicate BuysWithinCap(lim: Caps.Limits, s: TState)
  {
    && s.caps.led.open <= lim.exposure && (s.caps.row.Some? ==> s.caps.row.value.open <= lim.exposure)
    && (forall h :: h in s.handlers ==> s.handlers[h].p.buy && s.handlers[h].p.size > 0.0)
  }

  /** When all proposals are buys, no interleaving ever takes the open exposure over its cap. */
  lemma {:induction false} BuysStayWithinCap(lim: Caps.Limits, acts: seq<Action>)
    requires lim.exposure >= 0.0 && OnlyBuys(acts)
    ensures BuysWithinCap(lim, Run(lim, START, acts))
  {
    hide HandlerStep, Caps.Apply, CapsAfter, LedgerInv;
    if acts != [] {
      var n := |acts| - 1;
      var s := Run(lim, START, acts[..n]);
      var a := acts[n];
      BuysStayWithinCap(lim, acts[..n]);
      LiveOrdersReserved(lim, acts[..n]);
      CapsEvolves(lim, s, a);
      CapsOpOfBuys(lim, s, a);
      if a.Step? && a.h in s.handlers {
        HandlerShape(lim, s, a.h, a.c);
      }
    } else {
      assert Run(lim, START, []) == START;
    }
  }

  lemma CapsOpOfBuys(lim: Caps.Limits, s: TState, a: Action)
    requires lim.exposure >= 0.0 && BuysWithinCap(lim, s) && LedgerInv(s)
    ensures CapsAfter(lim, s, a).led.open <= lim.exposure
    ensures CapsAfter(lim, s, a).row.Some? ==> CapsAfter(lim, s, a).row.value.open <= lim.exposure
  {
    if CapsOp(s, a).Some? {
      var op := CapsOp(s, a).value;
      if op.OpRelease? && op.i < |s.caps.holds| {
        assert Owned(s, s.caps.holds[op.i]);
      }
      Caps.ExposureCapStep(lim, s.caps, op);
    }
  }
}
