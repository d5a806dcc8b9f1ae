/**
 What serial runs of `place` report, record and refuse, stated from the exchange calls they
 made: nothing here repeats the steps of the handler.
 */
module PlacementLaws {
  import opened Effects
  import opened Seqs
  import opened Placements
  import opened Trader
  import opened TraderHandler
  import Caps

  // ---- Reports ----

  predicate IsAccepted(o: Sending) { o.reply.Accepted? }

  /** The report of an accepted order: its own id and status, filled exactly when fully matched. */
  function ReportOf(o: Sending): OrderResult
    requires IsAccepted(o)
  {
    OrderResult(o.id, o.reply.orderId, o.reply.status == "matched", o.reply.status, "")
  }

  predicate Clean(r: OrderResult) { r.err == "" }

  /** An unfilled result with an error, and with no order. */
  predicate Failure(r: OrderResult) { r.err != "" && !r.filled && r.orderId == "" && r.status == "" }

  /** A delivery of a proposal that is already claimed. */
  predicate Redelivered(w: World, p: Proposal, m: Meets)
  {
    !w.halted && m.claim == Done && p.id in w.placements
  }

  /** From a granted reservation on: one report, and a row. */
  lemma SignAndSendTells(w: World, p: Proposal, m: Meets)
    requires !w.halted
    ensures var w1 := SignAndSend(w, p, m);
            var sends := m.signs && m.haltedWhileSigning != Some(true);
            && |w1.results| == |w.results| + 1 && w1.results[..|w.results|] == w.results
            && var r := w1.results[|w.results|];
            && r.id == p.id && !CappedOut(r)
            && (if sends && m.reply.Accepted? then r == ReportOf(Sending(p.id, m.reply)) else Failure(r))
            && (m.unclaim == Done && m.mark == Done && p.id in w.placements && w.placements[p.id] == Claimed ==>
                  w1.placements == if sends then w.placements[p.id := RowOf(Sending(p.id, m.reply))] else w.placements - {p.id})
  {
    hide Caps.Release;
  }

  /**
   One call of place: a redelivery does nothing; any other call reports once, the accepted
   order it made or else a failure; and while halted nothing but the report happens.
   */
  lemma PlaceReports(lim: Caps.Limits, w: World, p: Proposal, m: Meets)
    ensures var w1 := Place(lim, w, p, m);
            if Redelivered(w, p, m) then w1 == w
            else
              && |w1.results| == |w.results| + 1 && w1.results[..|w.results|] == w.results
              && var r := w1.results[|w.results|];
              && r.id == p.id
              && (w.halted ==> w1.(results := w.results) == w)
              && (if Sends(lim, w, p, m) && m.reply.Accepted? then r == ReportOf(Sending(p.id, m.reply)) else Failure(r))
  {
    hide Caps.Reserve, SignAndSend, CappedOut, RowOf;
    if !w.halted {
      SignAndSendTells(WithReservation(lim, w, p, m), p, m);
    }
  }

  /** Claimed, and a reservation made. */
  function WithReservation(lim: Caps.Limits, w: World, p: Proposal, m: Meets): World
  {
    var (l, d) := Caps.Reserve(lim, w.led, p.size, p.buy, m.today);
    w.(placements := Claim(w.placements, p.id, m.claim).0, led := l,
       row := if d == Caps.Allowed && m.reserveSaves then Some(l) else w.row)
  }

  /** The clean results are, in order, the reports of the accepted orders; all others are failures. */
  ghost predicate Reported(w: World)
  {
    && Filter(Clean, w.results) == Map(Report, Filter(IsAccepted, w.orders))
    && (forall r :: r in w.results && !Clean(r) ==> Failure(r))
    && (forall o :: o in w.orders && !IsAccepted(o) ==> exists r :: r in w.results && r.id == o.id && Failure(r))
  }

  /** The same for any order, so that it can be mapped. */
  function Report(o: Sending): OrderResult
  {
    if IsAccepted(o) then ReportOf(o) else OrderResult(o.id, "", false, "", "error")
  }

  lemma FilterSnoc<T>(p: T -> bool, s: seq<T>, x: T)
    ensures Filter(p, s + [x]) == if p(x) then Filter(p, s) + [x] else Filter(p, s)
  {
    assert (s + [x])[..|s|] == s;
  }

  lemma PlaceKeepsReported(lim: Caps.Limits, w: World, p: Proposal, m: Meets)
    requires Reported(w)
    ensures Reported(Place(lim, w, p, m))
  {
    hide Place, Sends, Filter;
    PlaceReports(lim, w, p, m);
    SendsExactly(lim, w, p, m);
    var w1 := Place(lim, w, p, m);
    if !Redelivered(w, p, m) {
      var r, o := w1.results[|w.results|], Sending(p.id, m.reply);
      assert w1.results == w.results + [r];
      FilterSnoc(Clean, w.results, r);
      FilterSnoc(IsAccepted, w.orders, o);
      MapSnoc(Report, Filter(IsAccepted, w.orders), o);
      assert r in w1.results;
      forall x | x in w1.orders && !IsAccepted(x) ensures exists y :: y in w1.results && y.id == x.id && Failure(y) {
        if x in w.orders {
          var y :| y in w.results && y.id == x.id && Failure(y);
          assert y in w1.results;
        }
      }
    }
  }

  lemma MapSnoc<A, B>(f: A -> B, s: seq<A>, x: A)
    ensures Map(f, s + [x]) == Map(f, s) + [f(x)]
  {}

  /** Over any serial run, what is reported is exactly what the exchange answered. */
  lemma {:induction false} SerialRunReports(lim: Caps.Limits, w: World, jobs: seq<(Proposal, Meets)>)
    requires Reported(w)
    ensures Reported(PlaceAll(lim, w, jobs))
  {
    hide Place, Reported;
    if jobs != [] {
      SerialRunReports(lim, w, jobs[..|jobs| - 1]);
      PlaceKeepsReported(lim, PlaceAll(lim, w, jobs[..|jobs| - 1]), jobs[|jobs| - 1].0, jobs[|jobs| - 1].1);
    }
  }

  // ---- The placements table ----

  /** The row an exchange call leaves. */
  function RowOf(o: Sending): Status
  {
    match o.reply
    case Accepted(orderId, status) => Marked(orderId, status)
    case Rejected => Marked("", "rejected")
    case Ambiguous => Marked("", "unknown")
  }

  predicate CappedOut(r: OrderResult) { r.err == "cap" }

  ghost predicate WasSent(orders: seq<Sending>, id: ProposalId)
  {
    exists o :: o in orders && o.id == id
  }

  /** A cap stopped the proposal after it had been claimed. */
  ghost predicate WasCapped(results: seq<OrderResult>, id: ProposalId)
  {
    exists r :: r in results && r.id == id && CappedOut(r)
  }

  lemma WasSentSnoc(orders: seq<Sending>, o: Sending, id: ProposalId)
    ensures WasSent(orders + [o], id) <==> WasSent(orders, id) || o.id == id
  {
    assert o in orders + [o];
    if x :| x in orders && x.id == id {
      assert x in orders + [o];
    }
  }

  lemma WasCappedSnoc(results: seq<OrderResult>, r: OrderResult, id: ProposalId)
    ensures WasCapped(results + [r], id) <==> WasCapped(results, id) || (r.id == id && CappedOut(r))
  {
    assert r in results + [r];
    if x :| x in results && x.id == id && CappedOut(x) {
      assert x in results + [r];
    }
  }

  /**
   The table holds exactly the proposals sent, each with what the exchange answered, and,
   still claimed, those that a cap stopped: everything else can be tried again.
   */
  ghost predicate TableExact(w: World)
  {
    && (forall o :: o in w.orders ==> o.id in w.placements && w.placements[o.id] == RowOf(o))
    && (forall id :: id in w.placements <==> WasSent(w.orders, id) || WasCapped(w.results, id))
  }

  /** Claims may be refused with an error, but no write is lost or left in doubt. */
  predicate Works(m: Meets) { m.claim != Unsure && m.unclaim == Done && m.mark == Done }

  /** What one call does to the table. */
  lemma PlaceRow(lim: Caps.Limits, w: World, p: Proposal, m: Meets)
    requires Works(m)
    ensures var w1 := Place(lim, w, p, m);
            && (Sends(lim, w, p, m) ==> w1.placements == w.placements[p.id := RowOf(Sending(p.id, m.reply))])
            && (!Sends(lim, w, p, m) ==>
                  w1.placements == w.placements
                  || (w1.placements == w.placements[p.id := Claimed] && p.id !in w.placements))
            && (!Sends(lim, w, p, m) && p.id !in w.placements ==>
                  (p.id in w1.placements <==> |w1.results| == |w.results| + 1 && CappedOut(w1.results[|w.results|])))
            && (Sends(lim, w, p, m) || p.id in w.placements ==>
                  |w1.results| == |w.results| + 1 ==> !CappedOut(w1.results[|w.results|]))
  {
    hide Caps.Reserve, SignAndSend, ReportOf;
    if !w.halted && m.claim == Done && p.id !in w.placements {
      SignAndSendTells(WithReservation(lim, w, p, m), p, m);
      assert w.placements[p.id := Claimed] - {p.id} == w.placements;
      var row := RowOf(Sending(p.id, m.reply));
      assert w.placements[p.id := Claimed][p.id := row] == w.placements[p.id := row];
    }
  }

  lemma PlaceKeepsTable(lim: Caps.Limits, w: World, p: Proposal, m: Meets)
    requires Works(m) && TableExact(w)
    ensures TableExact(Place(lim, w, p, m))
  {
    hide Place, Sends, ReportOf, Failure, RowOf, WasSent, WasCapped, CappedOut;
    PlaceRow(lim, w, p, m);
    PlaceReports(lim, w, p, m);
    SendsExactly(lim, w, p, m);
    var w1 := Place(lim, w, p, m);
    if !Redelivered(w, p, m) {
      var r, o := w1.results[|w.results|], Sending(p.id, m.reply);
      assert w1.results == w.results + [r];
      forall id ensures id in w1.placements <==> WasSent(w1.orders, id) || WasCapped(w1.results, id) {
        WasSentSnoc(w.orders, o, id);
        WasCappedSnoc(w.results, r, id);
      }
      if Sends(lim, w, p, m) {
        SendsOnlyNew(lim, w, p, m);
      }
    }
  }

  /** Over any serial run from an empty table, redeliveries and retries included. */
  lemma {:induction false} SerialTableExact(lim: Caps.Limits, w: World, jobs: seq<(Proposal, Meets)>)
    requires TableExact(w) && forall i :: 0 <= i < |jobs| ==> Works(jobs[i].1)
    ensures TableExact(PlaceAll(lim, w, jobs))
  {
    hide Place, TableExact;
    if jobs != [] {
      SerialTableExact(lim, w, jobs[..|jobs| - 1]);
      PlaceKeepsTable(lim, PlaceAll(lim, w, jobs[..|jobs| - 1]), jobs[|jobs| - 1].0, jobs[|jobs| - 1].1);
    }
  }

  // ---- The execution policy ----

  function ProposeAll(lim: Caps.Limits, policy: Policy, w: World, jobs: seq<(Proposal, Meets)>): World
  {
    if jobs == [] then w
    else Propose(lim, policy, ProposeAll(lim, policy, w, jobs[..|jobs| - 1]), jobs[|jobs| - 1].0, jobs[|jobs| - 1].1)
  }

  /** The proposals a policy lets through without approval. */
  function Exempt(policy: Policy): ((Proposal, Meets)) -> bool
  {
    (job: (Proposal, Meets)) => policy == Auto || (policy.AutoBelow? && job.0.size < policy.ceiling)
  }

  /**
   Any run of proposal events is the run of placements of the exempt ones: none under
   approval, all under auto, those below the ceiling under auto_below.
   */
  lemma {:induction false} PolicyExactly(lim: Caps.Limits, policy: Policy, w: World, jobs: seq<(Proposal, Meets)>)
    ensures ProposeAll(lim, policy, w, jobs) == PlaceAll(lim, w, Filter(Exempt(policy), jobs))
    ensures policy == Approval ==> ProposeAll(lim, policy, w, jobs) == w
    ensures policy == Auto ==> ProposeAll(lim, policy, w, jobs) == PlaceAll(lim, w, jobs)
  {
    hide Place;
    if jobs != [] {
      var rest, job := jobs[..|jobs| - 1], jobs[|jobs| - 1];
      PolicyExactly(lim, policy, w, rest);
      var passed := Filter(Exempt(policy), rest);
      assert (passed + [job])[..|passed|] == passed;
    }
  }
}
