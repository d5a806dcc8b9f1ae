/**
 The approval manager: proposals posted with buttons, taps turned into decisions. The
 blocks under the manager's mutex are its methods; between them other calls may run.
 */
module Approval {
  import opened Effects
  import opened Seqs

  /** An undecided proposal; the zero value has an empty id. */
  datatype Pending = Pending(id: string, messageId: int, text: string)

  const ZERO_PENDING := Pending("", 0, "")

  type Pend = map<string, Pending>

  /** After a send: the message id is written back, on the zero value when the entry is gone. */
  function WrittenBack(pend: Pend, key: string, messageId: int): Pend
  {
    var p := if key in pend then pend[key] else ZERO_PENDING;
    pend[key := p.(messageId := messageId)]
  }

  /** What the Telegram send reports: the message id, or an error. */
  type Sent = Option<int>

  /** OnProposal with no other call in between. */
  function Proposed(pend: Pend, halted: bool, key: string, id: string, text: string, sent: Sent): Pend
  {
    if halted then pend
    else
      var registered := pend[key := Pending(id, 0, text)];
      if sent.None? then registered - {key} else WrittenBack(registered, key, sent.value)
  }

  /** A decision published: the proposal's id and the verdict. */
  datatype Decision = Decision(id: string, approved: bool)

  datatype Reply = Unauthorized | Unrecognized | AlreadyDecided | TryAgain | Decided

  /** HandleCallback with no other call in between: the pending map, what reached the bus, and the answer. */
  function Tapped(pend: Pend, authorized: bool, data: string, how: Outcome): (Pend, seq<Decision>, Reply)
  {
    if !authorized then (pend, [], Unauthorized)
    else
      match ParseCallback(data)
      case None => (pend, [], Unrecognized)
      case Some((action, key)) =>
        if key !in pend then (pend, [], AlreadyDecided)
        else
          var d := Decision(pend[key].id, action == "a");
          match how
          case Done => (pend - {key}, [d], Decided)
          case Failed => (pend, [], TryAgain)
          case Unsure => (pend, [d], TryAgain)
  }

  // ---- Callback data ----

  /** SplitN(data, ":", 2): the text before the first colon and the text after it. */
  function SplitColon(data: string): Option<(string, string)>
  {
    if data == "" then None
    else if data[0] == ':' then Some(("", data[1..]))
    else
      match SplitColon(data[1..])
      case None => None
      case Some((a, b)) => Some(([data[0]] + a, b))
  }

  function ParseCallback(data: string): Option<(string, string)>
  {
    match SplitColon(data)
    case None => None
    case Some((action, key)) =>
      if (action == "a" || action == "r") && key != "" then Some((action, key)) else None
  }

  lemma {:induction false} SplitColonExactly(data: string, a: string, b: string)
    ensures SplitColon(data) == Some((a, b)) <==> ':' !in a && data == a + ":" + b
  {
    if data == "" {
    } else if data[0] == ':' {
      assert a == "" ==> a + ":" + b == [':'] + b;
      assert a != "" ==> (a + ":" + b)[0] == a[0];
      assert data == [':'] + data[1..];
    } else {
      assert data == [data[0]] + data[1..];
      if a == "" {
        assert (a + ":" + b)[0] == ':';
      } else {
        SplitColonExactly(data[1..], a[1..], b);
        assert a == [a[0]] + a[1..];
        assert a + ":" + b == [a[0]] + (a[1..] + ":" + b);
        assert forall c :: c in a <==> c == a[0] || c in a[1..];
      }
    }
  }

  /** The button texts, and nothing else, parse back to their action and key. */
  lemma CallbackRoundTrip(data: string, action: string, key: string)
    ensures ParseCallback(data) == Some((action, key)) <==>
            (action == "a" || action == "r") && key != "" && data == action + ":" + key
  {
    hide SplitColon;
    SplitColonExactly(data, action, key);
  }

  /** The text of an approve or reject button. */
  function ButtonText(approve: bool, key: string): string { (if approve then "a:" else "r:") + key }

  lemma ButtonParses(approve: bool, key: string)
    requires key != ""
    ensures ParseCallback(ButtonText(approve, key)) == Some((if approve then "a" else "r", key))
  {
    hide ParseCallback;
    CallbackRoundTrip(ButtonText(approve, key), if approve then "a" else "r", key);
    assert "a" + ":" + key == "a:" + key && "r" + ":" + key == "r:" + key;
  }

  lemma ParsedIsButton(data: string)
    ensures match ParseCallback(data)
            case None => true
            case Some((action, key)) => key != "" && data == ButtonText(action == "a", key)
  {
    hide ParseCallback;
    var parsed := ParseCallback(data);
    if parsed.Some? {
      CallbackRoundTrip(data, parsed.value.0, parsed.value.1);
      assert "a" + ":" == "a:" && "r" + ":" == "r:";
    }
  }

  /**
   A tap by the operator on a pending proposal's approve or reject button decides it that way;
   only a publish reported done takes it from the pending ones. Every other tap does nothing.
   */
  lemma TapExactly(pend: Pend, authorized: bool, data: string, how: Outcome)
    ensures forall approve, key :: authorized && key in pend && key != "" && data == ButtonText(approve, key) ==>
              && Tapped(pend, authorized, data, how).1
                 == (if how == Failed then [] else [Decision(pend[key].id, approve)])
              && Tapped(pend, authorized, data, how).0 == (if how == Done then pend - {key} else pend)
    ensures (forall approve, key :: authorized && key in pend && key != "" ==> data != ButtonText(approve, key)) ==>
              Tapped(pend, authorized, data, how).0 == pend && Tapped(pend, authorized, data, how).1 == []
  {
    hide ParseCallback, ButtonText;
    forall approve, key | key != "" && data == ButtonText(approve, key)
      ensures ParseCallback(data) == Some((if approve then "a" else "r", key))
    {
      ButtonParses(approve, key);
    }
    ParsedIsButton(data);
    assert "a" != "r";
  }

  // ---- The manager ----

  class Manager {
    var pend: Pend
    var halted: bool
    // The bus as this manager sees it.
    var decisions: seq<Decision>

    constructor ()
      ensures pend == map[] && !halted && decisions == []
    {
      pend, halted, decisions := map[], false, [];
    }

    method PublishDecision(d: Decision, how: Outcome) returns (ok: bool)
      modifies `decisions
      ensures ok == (how == Done)
      ensures decisions == if how == Failed then old(decisions) else old(decisions) + [d]
    {
      if how != Failed {
        decisions := decisions + [d];
      }
      ok := how == Done;
    }

    method Register(key: string, id: string, text: string)
      modifies `pend
      ensures pend == old(pend)[key := Pending(id, 0, text)]
    {
      pend := pend[key := Pending(id, 0, text)];
    }

    method Unregister(key: string)
      modifies `pend
      ensures pend == old(pend) - {key}
    {
      pend := pend - {key};
    }

    method WriteBack(key: string, messageId: int)
      modifies `pend
      ensures pend == WrittenBack(old(pend), key, messageId)
    {
      var p := ZERO_PENDING;
      if key in pend {
        p := pend[key];
      }
      p := p.(messageId := messageId);
      pend := pend[key := p];
    }

    method Claim(key: string) returns (p: Option<Pending>)
      modifies `pend
      ensures p == if key in old(pend) then Some(old(pend)[key]) else None
      ensures pend == if key in old(pend) then old(pend) - {key} else old(pend)
    {
      p := None;
      if key in pend {
        p := Some(pend[key]);
        pend := pend - {key};
      }
    }

    method Restore(key: string, p: Pending)
      modifies `pend
      ensures pend == old(pend)[key := p]
    {
      pend := pend[key := p];
    }

    method OnProposal(key: string, id: string, text: string, sent: Sent)
      modifies `pend
      ensures pend == Proposed(old(pend), halted, key, id, text, sent)
      ensures pend == if halted then old(pend)
                      else if sent.Some? then old(pend)[key := Pending(id, sent.value, text)]
                      else old(pend) - {key}
    {
      if halted {
        return;
      }
      Register(key, id, text);
      if sent.None? {
        Unregister(key);
        return;
      }
      WriteBack(key, sent.value);
    }

    /** A publish reported as failed leaves the proposal as it was, to be tapped again. */
    method HandleCallback(authorized: bool, data: string, how: Outcome) returns (r: Reply)
      modifies `pend, `decisions
      ensures var t := Tapped(old(pend), authorized, data, how);
              pend == t.0 && decisions == old(decisions) + t.1 && r == t.2
    {
      hide ParseCallback;
      if !authorized {
        return Unauthorized;
      }
      var parsed := ParseCallback(data);
      if parsed.None? {
        return Unrecognized;
      }
      var (action, key) := parsed.value;
      var p := Claim(key);
      if p.None? {
        return AlreadyDecided;
      }
      var ok := PublishDecision(Decision(p.value.id, action == "a"), how);
      if !ok {
        Restore(key, p.value);
        assert pend == old(pend);
        return TryAgain;
      }
      return Decided;
    }

    /** /halt and /resume; any other text, or another chat, changes nothing. */
    method HandleCommand(authorized: bool, text: string) returns (control: Option<bool>)
      modifies `halted
      ensures control == if authorized && text == "/halt" then Some(true)
                         else if authorized && text == "/resume" then Some(false) else None
      ensures halted == if control.Some? then control.value else old(halted)
    {
      control := None;
      if !authorized {
        return;
      }
      if text == "/halt" {
        halted := true;
        control := Some(true);
      } else if text == "/resume" {
        halted := false;
        control := Some(false);
      }
    }
  }
}

/**
 The manager with its calls interleaved: any number of OnProposal calls and taps in
 flight, redelivered proposals, failed sends and publishes, restarts.
 */
module ApprovalRuns {
  import opened Effects
  import opened Seqs
  import opened Approval

  /** A claimed tap that has not published yet, or a failed one that has not restored yet. */
  datatype Tap = Tap(key: string, p: Pending, approved: bool, failed: bool)

  /**
   Calls in flight at their next lock block: OnProposal before its halted check, before
   registering, and while sending; taps after claiming. The rest is history: the OnProposal
   `calls`, the decisions `published` on the bus, and the proposals of those among them whose
   publish was reported as failed (`unsure`).
   */
  datatype State = State(
    pend: Pend, halted: bool,
    begun: seq<string>, posting: seq<string>, sending: seq<string>, taps: seq<Tap>,
    calls: seq<string>, published: seq<Decision>, unsure: seq<string>)

  const START := State(map[], false, [], [], [], [], [], [], [])

  datatype Step =
    | Call(id: string)
    | CheckHalted(i: nat)
    | Register(i: nat, text: string)
    | SendFails(i: nat)
    | SendWorks(i: nat, messageId: int)
    | ClaimTap(data: string)
    | Publish(i: nat, how: Outcome)
    | Restore(i: nat)
    | SetHalted(halted: bool)
    | Restart

  /** One step, with callback keys derived by `keyOf`, which need not be injective. */
  function Next(keyOf: string -> string, s: State, step: Step): State
  {
    match step
    case Call(id) => s.(begun := s.begun + [id], calls := s.calls + [id])
    case CheckHalted(i) =>
      if i >= |s.begun| then s
      else
        var s1 := s.(begun := RemoveAt(s.begun, i));
        if s.halted then s1 else s1.(posting := s.posting + [s.begun[i]])
    case Register(i, text) =>
      if i >= |s.posting| then s
      else
        var id := s.posting[i];
        s.(pend := s.pend[keyOf(id) := Pending(id, 0, text)],
           posting := RemoveAt(s.posting, i), sending := s.sending + [id])
    case SendFails(i) =>
      if i >= |s.sending| then s
      else s.(pend := s.pend - {keyOf(s.sending[i])}, sending := RemoveAt(s.sending, i))
    case SendWorks(i, messageId) =>
      if i >= |s.sending| then s
      else s.(pend := WrittenBack(s.pend, keyOf(s.sending[i]), messageId), sending := RemoveAt(s.sending, i))
    case ClaimTap(data) =>
      (match ParseCallback(data)
       case None => s
       case Some((action, key)) =>
         if key !in s.pend then s
         else s.(pend := s.pend - {key}, taps := s.taps + [Tap(key, s.pend[key], action == "a", false)]))
    case Publish(i, how) =>
      if i >= |s.taps| || s.taps[i].failed then s
      else
        var tap := s.taps[i];
        var s1 := if how == Failed then s else s.(published := s.published + [Decision(tap.p.id, tap.approved)]);
        if how == Done then s1.(taps := RemoveAt(s.taps, i))
        else
          s1.(taps := s.taps[i := tap.(failed := true)],
              unsure := if how == Unsure then s.unsure + [tap.p.id] else s.unsure)
    case Restore(i) =>
      if i >= |s.taps| || !s.taps[i].failed then s
      else s.(pend := s.pend[s.taps[i].key := s.taps[i].p], taps := RemoveAt(s.taps, i))
    case SetHalted(halted) => s.(halted := halted)
    case Restart => START.(calls := s.calls, published := s.published, unsure := s.unsure)
  }

  function Run(keyOf: string -> string, steps: seq<Step>): State
  {
    if steps == [] then START
    else Next(keyOf, Run(keyOf, steps[..|steps| - 1]), steps[|steps| - 1])
  }

  function TapId(t: Tap): string { t.p.id }
  function DecisionId(d: Decision): string { d.id }

  function Count(ids: seq<string>, id: string): nat { multiset(ids)[id] }

  function Decided(s: State, id: string): nat { Count(Map(DecisionId, s.published), id) }
  function InFlight(s: State, id: string): nat { Count(Map(TapId, s.taps), id) }

  /** The proposal is pending under its key. */
  predicate Live(keyOf: string -> string, s: State, id: string)
  {
    keyOf(id) in s.pend && s.pend[keyOf(id)].id == id
  }

  /** Decisions on the bus, the live entry, claimed taps, and calls that have yet to register. */
  function Spent(keyOf: string -> string, s: State, id: string): nat
  {
    Decided(s, id) + (if Live(keyOf, s, id) then 1 else 0) + InFlight(s, id) + Count(s.begun, id) + Count(s.posting, id)
  }

  /** What was asked for: OnProposal calls, and publishes to be repeated because they seemed to fail. */
  function Budget(s: State, id: string): nat { Count(s.calls, id) + Count(s.unsure, id) }

  ghost predicate Inv(keyOf: string -> string, s: State)
  {
    && (forall k :: k in s.pend && s.pend[k].id != "" ==> k == keyOf(s.pend[k].id))
    && (forall t :: t in s.taps && t.p.id != "" ==> t.key == keyOf(t.p.id))
    && (forall id :: id != "" ==> Spent(keyOf, s, id) <= Budget(s, id))
  }

  lemma CountRemoveAt(ids: seq<string>, i: nat, id: string)
    requires i < |ids|
    ensures Count(ids, id) == Count(RemoveAt(ids, i), id) + if ids[i] == id then 1 else 0
  {
    RemoveAtMultiset(ids, i);
  }

  lemma CountSnoc(ids: seq<string>, x: string, id: string)
    ensures Count(ids + [x], id) == Count(ids, id) + if x == id then 1 else 0
  {}

  lemma MapSnoc<A, B>(f: A -> B, s: seq<A>, x: A)
    ensures Map(f, s + [x]) == Map(f, s) + [f(x)]
  {}

  lemma RemoveAtMapped<A, B>(f: A -> B, s: seq<A>, i: nat)
    requires i < |s|
    ensures Map(f, RemoveAt(s, i)) == RemoveAt(Map(f, s), i)
  {}

  lemma ProposalKeeps(keyOf: string -> string, s: State, step: Step)
    requires Inv(keyOf, s)
    requires step.Call? || step.CheckHalted? || step.Register? || step.SendFails? || step.SendWorks?
    ensures Inv(keyOf, Next(keyOf, s, step))
  {
    hide Count;
    var t := Next(keyOf, s, step);
    forall id | id != "" ensures Spent(keyOf, t, id) <= Budget(t, id) {
      assert Spent(keyOf, s, id) <= Budget(s, id);
      match step
      case Call(x) =>
        CountSnoc(s.begun, x, id);
        CountSnoc(s.calls, x, id);
      case CheckHalted(i) =>
        if i < |s.begun| {
          CountRemoveAt(s.begun, i, id);
          CountSnoc(s.posting, s.begun[i], id);
        }
      case Register(i, _) =>
        if i < |s.posting| {
          CountRemoveAt(s.posting, i, id);
        }
      case _ =>
    }
  }

  lemma TapKeeps(keyOf: string -> string, s: State, step: Step)
    requires Inv(keyOf, s)
    requires step.ClaimTap? || step.Publish? || step.Restore? || step.SetHalted? || step.Restart?
    ensures Inv(keyOf, Next(keyOf, s, step))
  {
    hide Count, ParseCallback;
    var t := Next(keyOf, s, step);
    match step
    case ClaimTap(data) => ClaimKeeps(keyOf, s, data);
    case Publish(i, how) => PublishKeeps(keyOf, s, i, how);
    case Restore(i) => RestoreKeeps(keyOf, s, i);
    case SetHalted(_) =>
      forall id | id != "" ensures Spent(keyOf, t, id) <= Budget(t, id) {
        assert Spent(keyOf, s, id) <= Budget(s, id);
      }
    case Restart =>
      forall id | id != "" ensures Spent(keyOf, t, id) <= Budget(t, id) {
        assert Spent(keyOf, s, id) <= Budget(s, id);
        NoneCounted(id);
      }
  }

  lemma NoneCounted(id: string)
    ensures Count([], id) == 0 && Count(Map(TapId, []), id) == 0
  {}

  lemma ClaimKeeps(keyOf: string -> string, s: State, data: string)
    requires Inv(keyOf, s)
    ensures Inv(keyOf, Next(keyOf, s, ClaimTap(data)))
  {
    hide Count, ParseCallback;
    var t := Next(keyOf, s, ClaimTap(data));
    if t != s {
      var tap := t.taps[|t.taps| - 1];
      assert t.taps == s.taps + [tap];
      MapSnoc(TapId, s.taps, tap);
      forall id | id != "" ensures Spent(keyOf, t, id) <= Budget(t, id) {
        assert Spent(keyOf, s, id) <= Budget(s, id);
        CountSnoc(Map(TapId, s.taps), tap.p.id, id);
      }
    }
  }

  lemma PublishKeeps(keyOf: string -> string, s: State, i: nat, how: Outcome)
    requires Inv(keyOf, s)
    ensures Inv(keyOf, Next(keyOf, s, Publish(i, how)))
  {
    hide Count;
    var t := Next(keyOf, s, Publish(i, how));
    if i < |s.taps| && !s.taps[i].failed {
      var tap := s.taps[i];
      var d := Decision(tap.p.id, tap.approved);
      MapSnoc(DecisionId, s.published, d);
      RemoveAtMapped(TapId, s.taps, i);
      assert how != Done ==> Map(TapId, t.taps) == Map(TapId, s.taps);
      forall id | id != "" ensures Spent(keyOf, t, id) <= Budget(t, id) {
        assert Spent(keyOf, s, id) <= Budget(s, id);
        CountSnoc(Map(DecisionId, s.published), d.id, id);
        CountRemoveAt(Map(TapId, s.taps), i, id);
        CountSnoc(s.unsure, d.id, id);
      }
      forall x | x in t.taps && x.p.id != "" ensures x.key == keyOf(x.p.id) {
        assert x in s.taps || (x.key == tap.key && x.p == tap.p);
        assert tap in s.taps;
      }
    }
  }

  lemma RestoreKeeps(keyOf: string -> string, s: State, i: nat)
    requires Inv(keyOf, s)
    ensures Inv(keyOf, Next(keyOf, s, Restore(i)))
  {
    hide Count;
    var t := Next(keyOf, s, Restore(i));
    if i < |s.taps| && s.taps[i].failed {
      var tap := s.taps[i];
      assert tap in s.taps;
      RemoveAtMapped(TapId, s.taps, i);
      forall id | id != "" ensures Spent(keyOf, t, id) <= Budget(t, id) {
        assert Spent(keyOf, s, id) <= Budget(s, id);
        CountRemoveAt(Map(TapId, s.taps), i, id);
      }
    }
  }

  lemma {:induction false} RunKeeps(keyOf: string -> string, steps: seq<Step>)
    ensures Inv(keyOf, Run(keyOf, steps))
  {
    hide Next, Inv;
    if steps == [] {
      StartHolds(keyOf);
    } else {
      var rest, last := steps[..|steps| - 1], steps[|steps| - 1];
      RunKeeps(keyOf, rest);
      if last.Call? || last.CheckHalted? || last.Register? || last.SendFails? || last.SendWorks? {
        ProposalKeeps(keyOf, Run(keyOf, rest), last);
      } else {
        TapKeeps(keyOf, Run(keyOf, rest), last);
      }
    }
  }

  lemma StartHolds(keyOf: string -> string)
    ensures Inv(keyOf, START)
  {}

  /**
   Conservation: what a proposal has spent or may still spend never exceeds its OnProposal
   calls plus its publishes that took effect though reported as failed.
   */
  lemma DecisionsConserved(keyOf: string -> string, steps: seq<Step>, id: string)
    requires id != ""
    ensures Spent(keyOf, Run(keyOf, steps), id) <= Budget(Run(keyOf, steps), id)
  {
    hide Run, Spent, Budget;
    RunKeeps(keyOf, steps);
  }

  // ---- The verdict ----

  /** Among the steps is a tap on the button with that verdict, under the key of the proposal. */
  ghost predicate ButtonTapped(keyOf: string -> string, steps: seq<Step>, approved: bool, id: string)
  {
    ClaimTap(ButtonText(approved, keyOf(id))) in steps
  }

  ghost predicate VerdictsTapped(keyOf: string -> string, steps: seq<Step>, s: State)
  {
    && (forall t :: t in s.taps && t.p.id != "" ==> ButtonTapped(keyOf, steps, t.approved, t.p.id))
    && (forall d :: d in s.published && d.id != "" ==> ButtonTapped(keyOf, steps, d.approved, d.id))
  }

  lemma VerdictsGrow(keyOf: string -> string, steps: seq<Step>, s: State, step: Step)
    requires VerdictsTapped(keyOf, steps, s)
    ensures VerdictsTapped(keyOf, steps + [step], s)
  {
    hide ButtonText;
  }

  lemma VerdictStep(keyOf: string -> string, steps: seq<Step>, s: State, step: Step)
    requires VerdictsTapped(keyOf, steps, s) && Inv(keyOf, s) && step in steps
    ensures VerdictsTapped(keyOf, steps, Next(keyOf, s, step))
  {
    hide ParseCallback, ButtonText, Spent, Budget, ButtonTapped;
    match step
    case ClaimTap(data) => VerdictOfClaim(keyOf, steps, s, data);
    case Publish(i, how) =>
      if i < |s.taps| {
        assert s.taps[i] in s.taps;
      }
    case _ =>
  }

  lemma VerdictOfClaim(keyOf: string -> string, steps: seq<Step>, s: State, data: string)
    requires VerdictsTapped(keyOf, steps, s) && Inv(keyOf, s) && ClaimTap(data) in steps
    ensures VerdictsTapped(keyOf, steps, Next(keyOf, s, ClaimTap(data)))
  {
    hide ParseCallback, ButtonText, Spent, Budget;
    ParsedIsButton(data);
  }

  /** In every run, a decision is an approval, or a rejection, as a tap on that button under its proposal's key asked for. */
  lemma {:induction false} DecisionsAsTapped(keyOf: string -> string, steps: seq<Step>)
    ensures VerdictsTapped(keyOf, steps, Run(keyOf, steps))
  {
    hide Next, VerdictsTapped, Inv;
    if steps == [] {
      NoVerdicts(keyOf);
    } else {
      var rest, last := steps[..|steps| - 1], steps[|steps| - 1];
      DecisionsAsTapped(keyOf, rest);
      RunKeeps(keyOf, rest);
      assert rest + [last] == steps;
      VerdictsGrow(keyOf, rest, Run(keyOf, rest), last);
      VerdictStep(keyOf, steps, Run(keyOf, rest), last);
    }
  }

  lemma NoVerdicts(keyOf: string -> string)
    ensures VerdictsTapped(keyOf, [], START)
  {}

  /** So a proposal whose reject button alone was tapped is never approved, and the other way round. */
  lemma OneButtonOneVerdict(keyOf: string -> string, steps: seq<Step>, id: string, verdict: bool)
    requires id != "" && ClaimTap(ButtonText(!verdict, keyOf(id))) !in steps
    ensures Decision(id, !verdict) !in Run(keyOf, steps).published
  {
    hide Run, ButtonText;
    DecisionsAsTapped(keyOf, steps);
  }

  // ---- The kill switch ----

  /** Posted and not decided, or claimed and not yet decided. */
  ghost predicate Undecided(s: State, id: string)
  {
    (exists k :: k in s.pend && s.pend[k].id == id) || (exists t :: t in s.taps && t.p.id == id)
  }

  lemma HaltedStep(keyOf: string -> string, s: State, step: Step, id: string)
    requires s.halted && s.posting == [] && step != SetHalted(false) && step != Restart && id != ""
    ensures var t := Next(keyOf, s, step);
            t.halted && t.posting == [] && (Undecided(t, id) ==> Undecided(s, id))
  {
    hide ParseCallback;
    var t := Next(keyOf, s, step);
    match step
    case ClaimTap(data) =>
      if t != s {
        assert t.taps == s.taps + [t.taps[|s.taps|]];
      }
    case Publish(i, how) =>
      if i < |s.taps| {
        assert s.taps[i] in s.taps;
      }
    case Restore(i) =>
      if i < |s.taps| {
        assert s.taps[i] in s.taps;
      }
    case _ =>
  }

  /** While the kill switch stays on, nothing is posted: what is undecided was so before. */
  lemma {:induction false} HaltedPostsNothing(keyOf: string -> string, s: State, steps: seq<Step>, id: string)
    requires s.halted && s.posting == [] && id != ""
    requires SetHalted(false) !in steps && Restart !in steps
    ensures var t := RunFrom(keyOf, s, steps);
            t.halted && t.posting == [] && (Undecided(t, id) ==> Undecided(s, id))
    decreases |steps|
  {
    hide Next, Undecided;
    if steps != [] {
      assert steps[0] in steps && forall x :: x in steps[1..] ==> x in steps;
      HaltedStep(keyOf, s, steps[0], id);
      HaltedPostsNothing(keyOf, Next(keyOf, s, steps[0]), steps[1..], id);
    }
  }

  // ---- One decision per call is also reached ----

  /** A call, its post, a tap and its decision. */
  function Round(keyOf: string -> string, id: string): seq<Step>
  {
    [Call(id), CheckHalted(0), Register(0, ""), SendWorks(0, 1), ClaimTap("a:" + keyOf(id)), Publish(0, Done)]
  }

  function Rounds(keyOf: string -> string, id: string, n: nat): seq<Step>
  {
    if n == 0 then [] else Rounds(keyOf, id, n - 1) + Round(keyOf, id)
  }

  /** No calls in flight and nothing pending. */
  predicate Quiet(s: State)
  {
    s.pend == map[] && !s.halted && s.begun == s.posting == s.sending == [] && s.taps == []
  }

  function RunFrom(keyOf: string -> string, s: State, steps: seq<Step>): State
    decreases |steps|
  {
    if steps == [] then s else RunFrom(keyOf, Next(keyOf, s, steps[0]), steps[1..])
  }

  lemma {:induction false} RunConcat(keyOf: string -> string, a: seq<Step>, b: seq<Step>)
    ensures Run(keyOf, a + b) == RunFrom(keyOf, Run(keyOf, a), b)
    decreases |b|
  {
    hide Next;
    if b == [] {
      assert a + b == a;
    } else {
      assert (a + [b[0]])[..|a|] == a;
      RunConcat(keyOf, a + [b[0]], b[1..]);
      assert a + [b[0]] + b[1..] == a + b;
    }
  }

  lemma RunFromCons(keyOf: string -> string, s: State, step: Step, rest: seq<Step>)
    ensures RunFrom(keyOf, s, [step] + rest) == RunFrom(keyOf, Next(keyOf, s, step), rest)
  {
    assert ([step] + rest)[1..] == rest;
  }

  lemma RoundSteps(keyOf: string -> string, s: State, id: string)
    ensures var s1 := Next(keyOf, Next(keyOf, Next(keyOf, s, Call(id)), CheckHalted(0)), Register(0, ""));
            RunFrom(keyOf, s, Round(keyOf, id)) ==
            Next(keyOf, Next(keyOf, Next(keyOf, s1, SendWorks(0, 1)), ClaimTap("a:" + keyOf(id))), Publish(0, Done))
  {
    hide Next;
    var r := Round(keyOf, id);
    RunFromCons(keyOf, s, r[0], r[1..]);
    assert r == [r[0]] + r[1..];
    var s1 := Next(keyOf, s, r[0]);
    RunFromCons(keyOf, s1, r[1], r[2..]);
    assert r[1..] == [r[1]] + r[2..];
    var s2 := Next(keyOf, s1, r[1]);
    RunFromCons(keyOf, s2, r[2], r[3..]);
    assert r[2..] == [r[2]] + r[3..];
    var s3 := Next(keyOf, s2, r[2]);
    RunFromCons(keyOf, s3, r[3], r[4..]);
    assert r[3..] == [r[3]] + r[4..];
    var s4 := Next(keyOf, s3, r[3]);
    RunFromCons(keyOf, s4, r[4], r[5..]);
    assert r[4..] == [r[4]] + r[5..];
    var s5 := Next(keyOf, s4, r[4]);
    RunFromCons(keyOf, s5, r[5], []);
    assert r[5..] == [r[5]] + [];
  }

  lemma RoundDecides(keyOf: string -> string, s: State, id: string)
    requires Quiet(s) && keyOf(id) != ""
    ensures var t := RunFrom(keyOf, s, Round(keyOf, id));
            Quiet(t) && t.calls == s.calls + [id] && t.published == s.published + [Decision(id, true)] && t.unsure == s.unsure
  {
    hide RunFrom, ParseCallback;
    var key := keyOf(id);
    RoundSteps(keyOf, s, id);
    var s3 := Next(keyOf, Next(keyOf, Next(keyOf, s, Call(id)), CheckHalted(0)), Register(0, ""));
    assert s3 == s.(pend := map[key := Pending(id, 0, "")], sending := [id], calls := s.calls + [id]);
    var s4 := Next(keyOf, s3, SendWorks(0, 1));
    assert s4.pend == map[key := Pending(id, 1, "")];
    CallbackRoundTrip("a:" + key, "a", key);
    assert "a" + ":" + key == "a:" + key;
    var s5 := Next(keyOf, s4, ClaimTap("a:" + key));
    assert s5.pend == map[] && s5.taps == [Tap(key, Pending(id, 1, ""), true, false)];
  }

  /** A proposal can be decided as many times as it is proposed: the bound is reached for every n. */
  lemma {:induction false} BoundReached(keyOf: string -> string, id: string, n: nat)
    requires keyOf(id) != ""
    ensures var s := Run(keyOf, Rounds(keyOf, id, n));
            Quiet(s) && Decided(s, id) == n && Count(s.calls, id) == n && s.unsure == []
  {
    hide Run, RunFrom, Round, Count;
    if n == 0 {
      NothingYet(keyOf, id);
    } else {
      var s := Run(keyOf, Rounds(keyOf, id, n - 1));
      BoundReached(keyOf, id, n - 1);
      RunConcat(keyOf, Rounds(keyOf, id, n - 1), Round(keyOf, id));
      RoundDecides(keyOf, s, id);
      MapSnoc(DecisionId, s.published, Decision(id, true));
      CountSnoc(Map(DecisionId, s.published), id, id);
      CountSnoc(s.calls, id, id);
    }
  }

  lemma NothingYet(keyOf: string -> string, id: string)
    ensures Run(keyOf, []) == START && Decided(START, id) == 0 && Count([], id) == 0
  {}

  // ---- A publish reported as failed is repeated ----

  /** A tap whose publish takes effect though reported as failed, m times over. */
  function Retries(keyOf: string -> string, id: string, m: nat): seq<Step>
  {
    if m == 0 then []
    else [ClaimTap("a:" + keyOf(id)), Publish(0, Unsure), Restore(0)] + Retries(keyOf, id, m - 1)
  }

  /** The proposal is posted, and nothing is in flight. */
  predicate Posted(keyOf: string -> string, s: State, id: string)
  {
    s.pend.Keys == {keyOf(id)} && s.pend[keyOf(id)].id == id && s.taps == []
  }

  /** One undisturbed tap on a posted proposal. */
  lemma TapPosted(keyOf: string -> string, s: State, id: string, how: Outcome)
    requires Posted(keyOf, s, id) && keyOf(id) != "" && how != Failed
    ensures var t := Next(keyOf, Next(keyOf, Next(keyOf, s, ClaimTap("a:" + keyOf(id))), Publish(0, how)), Restore(0));
            && t.published == s.published + [Decision(id, true)] && t.calls == s.calls
            && t.unsure == (if how == Unsure then s.unsure + [id] else s.unsure)
            && (how == Unsure ==> Posted(keyOf, t, id))
  {
    hide Next, ParseCallback;
    var key := keyOf(id);
    CallbackRoundTrip("a:" + key, "a", key);
    assert "a" + ":" + key == "a:" + key;
    TapIsARun(keyOf, s, "a:" + key, how);
  }

  lemma {:induction false} RetriesDecide(keyOf: string -> string, s: State, id: string, m: nat)
    requires Posted(keyOf, s, id) && keyOf(id) != ""
    ensures var t := RunFrom(keyOf, s, Retries(keyOf, id, m));
            && Posted(keyOf, t, id) && t.calls == s.calls
            && Decided(t, id) == Decided(s, id) + m && Count(t.unsure, id) == Count(s.unsure, id) + m
    decreases m
  {
    hide Next, Count;
    if m > 0 {
      var tap, pub, back := ClaimTap("a:" + keyOf(id)), Publish(0, Unsure), Restore(0);
      var rest := Retries(keyOf, id, m - 1);
      assert [tap, pub, back] + rest == [tap] + ([pub] + ([back] + rest));
      RunFromCons(keyOf, s, tap, [pub] + ([back] + rest));
      RunFromCons(keyOf, Next(keyOf, s, tap), pub, [back] + rest);
      RunFromCons(keyOf, Next(keyOf, Next(keyOf, s, tap), pub), back, rest);
      TapPosted(keyOf, s, id, Unsure);
      var d := Decision(id, true);
      var t := Next(keyOf, Next(keyOf, Next(keyOf, s, tap), pub), back);
      MapSnoc(DecisionId, s.published, d);
      CountSnoc(Map(DecisionId, s.published), id, id);
      CountSnoc(s.unsure, id, id);
      RetriesDecide(keyOf, t, id, m - 1);
    }
  }

  /** Posting from a quiet state. */
  lemma PostedFromQuiet(keyOf: string -> string, s: State, id: string)
    requires Quiet(s)
    ensures var t := RunFrom(keyOf, s, [Call(id), CheckHalted(0), Register(0, ""), SendWorks(0, 1)]);
            Posted(keyOf, t, id) && t.calls == s.calls + [id] && t.published == s.published && t.unsure == s.unsure
  {
    hide RunFrom;
    ProposalIsARun(keyOf, s, id, "", Some(1));
  }

  /** A good tap, after which nothing is left to restore. */
  function LastTap(keyOf: string -> string, id: string): seq<Step>
  {
    [ClaimTap("a:" + keyOf(id)), Publish(0, Done), Restore(0)]
  }

  lemma LastTapDecides(keyOf: string -> string, s: State, id: string)
    requires Posted(keyOf, s, id) && keyOf(id) != ""
    ensures var t := RunFrom(keyOf, s, LastTap(keyOf, id));
            t.calls == s.calls && t.unsure == s.unsure && Decided(t, id) == Decided(s, id) + 1
  {
    hide Next, Count;
    var tap, pub, back := ClaimTap("a:" + keyOf(id)), Publish(0, Done), Restore(0);
    assert [tap, pub, back] == [tap] + ([pub] + ([back] + []));
    RunFromCons(keyOf, s, tap, [pub] + ([back] + []));
    RunFromCons(keyOf, Next(keyOf, s, tap), pub, [back] + []);
    RunFromCons(keyOf, Next(keyOf, Next(keyOf, s, tap), pub), back, []);
    TapPosted(keyOf, s, id, Done);
    MapSnoc(DecisionId, s.published, Decision(id, true));
    CountSnoc(Map(DecisionId, s.published), id, id);
  }

  /** The bound is reached: c calls, u publishes that took effect though reported as failed, and c + u decisions. */
  lemma BudgetReached(keyOf: string -> string, id: string, c: nat, u: nat) returns (steps: seq<Step>)
    requires keyOf(id) != "" && c >= 1
    ensures var s := Run(keyOf, steps);
            Count(s.calls, id) == c && Count(s.unsure, id) == u && Decided(s, id) == c + u
  {
    hide Run, RunFrom, Count, Decided, Next, Retries, LastTap;
    steps := Rounds(keyOf, id, c - 1);
    BoundReached(keyOf, id, c - 1);
    var s := Run(keyOf, steps);
    NothingYet(keyOf, id);
    var post := [Call(id), CheckHalted(0), Register(0, ""), SendWorks(0, 1)];
    RunConcat(keyOf, steps, post);
    PostedFromQuiet(keyOf, s, id);
    CountSnoc(s.calls, id, id);
    steps := steps + post;
    var s1 := Run(keyOf, steps);
    SamePublished(s, s1, id);
    RunConcat(keyOf, steps, Retries(keyOf, id, u));
    RetriesDecide(keyOf, s1, id, u);
    steps := steps + Retries(keyOf, id, u);
    RunConcat(keyOf, steps, LastTap(keyOf, id));
    LastTapDecides(keyOf, Run(keyOf, steps), id);
    steps := steps + LastTap(keyOf, id);
  }

  lemma SamePublished(s: State, t: State, id: string)
    requires s.published == t.published
    ensures Decided(s, id) == Decided(t, id)
  {}

  /**
   At most one decision in every run with c calls for a proposal and u publishes of it that
   took effect though reported as failed: true exactly when c + u is at most one.
   */
  lemma OnceExactly(keyOf: string -> string, id: string, c: nat, u: nat)
    requires id != "" && keyOf(id) != "" && c >= 1
    ensures (forall steps :: Count(Run(keyOf, steps).calls, id) == c && Count(Run(keyOf, steps).unsure, id) == u ==>
              Decided(Run(keyOf, steps), id) <= 1) <==> c + u <= 1
  {
    hide Run, Count, Decided;
    if c + u <= 1 {
      forall steps | Count(Run(keyOf, steps).calls, id) == c && Count(Run(keyOf, steps).unsure, id) == u
        ensures Decided(Run(keyOf, steps), id) <= 1
      {
        DecisionsConserved(keyOf, steps, id);
      }
    } else {
      var steps := BudgetReached(keyOf, id, c, u);
    }
  }

  // ---- The undisturbed calls of the manager are runs of these steps ----

  lemma ProposalIsARun(keyOf: string -> string, s: State, id: string, text: string, sent: Sent)
    requires s.begun == s.posting == s.sending == []
    ensures var send := if sent.None? then SendFails(0) else SendWorks(0, sent.value);
            var t := RunFrom(keyOf, s, [Call(id), CheckHalted(0), Register(0, text), send]);
            t == s.(pend := Proposed(s.pend, s.halted, keyOf(id), id, text, sent), calls := s.calls + [id])
  {
    hide RunFrom;
    var send := if sent.None? then SendFails(0) else SendWorks(0, sent.value);
    RunFromFour(keyOf, s, Call(id), CheckHalted(0), Register(0, text), send);
    var s1 := Next(keyOf, Next(keyOf, s, Call(id)), CheckHalted(0));
    assert s1 == s.(posting := if s.halted then [] else [id], calls := s.calls + [id]);
    var s2 := Next(keyOf, s1, Register(0, text));
    assert !s.halted ==> s2 == s1.(posting := [], sending := [id], pend := s.pend[keyOf(id) := Pending(id, 0, text)]);
  }

  lemma RunFromFour(keyOf: string -> string, s: State, a: Step, b: Step, c: Step, d: Step)
    ensures RunFrom(keyOf, s, [a, b, c, d]) == Next(keyOf, Next(keyOf, Next(keyOf, Next(keyOf, s, a), b), c), d)
  {
    hide Next;
    assert [a, b, c, d] == [a] + [b, c, d] && [b, c, d] == [b] + [c, d] && [c, d] == [c] + [d] && [d] == [d] + [];
    RunFromCons(keyOf, s, a, [b, c, d]);
    RunFromCons(keyOf, Next(keyOf, s, a), b, [c, d]);
    RunFromCons(keyOf, Next(keyOf, Next(keyOf, s, a), b), c, [d]);
    RunFromCons(keyOf, Next(keyOf, Next(keyOf, Next(keyOf, s, a), b), c), d, []);
  }

  lemma TapIsARun(keyOf: string -> string, s: State, data: string, how: Outcome)
    requires s.taps == []
    ensures var t := Next(keyOf, Next(keyOf, Next(keyOf, s, ClaimTap(data)), Publish(0, how)), Restore(0));
            var (pend, sent, _) := Tapped(s.pend, true, data, how);
            t == s.(pend := pend, published := s.published + sent,
                    unsure := if how == Unsure then s.unsure + Map(DecisionId, sent) else s.unsure)
  {
    hide ParseCallback;
    var s1 := Next(keyOf, s, ClaimTap(data));
    if s1 != s {
      var tap := s1.taps[0];
      assert s1.taps == [tap];
      var s2 := Next(keyOf, s1, Publish(0, how));
      assert s2.taps == if how == Done then [] else [tap.(failed := true)];
      assert Map(DecisionId, [Decision(tap.p.id, tap.approved)]) == [tap.p.id];
    }
    assert s.published + [] == s.published && s.unsure + [] == s.unsure;
  }
}
