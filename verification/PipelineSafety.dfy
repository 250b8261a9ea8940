/** What can reach the exchange and the ledger: only admitted orders, with at most three create calls, three fills and
    one failure each, and in dry-run mode nothing at all. */
module PipelineSafety {
  import opened Prelude
  import opened Messages
  import opened RiskLedger
  import opened ExecutorMachine
  import opened OrderPipeline
  import opened PipelineFlow

  // ---- what an event does

  /** How an event changes the hand, the calls made, and the calls still possible. */
  lemma EventEffects(w: World, ev: Event)
    requires HandAgrees(w) && Can(w, Execute(ev))
    ensures var w' := ExecuteEvent(w, ev);
            && w'.approved == w.approved && w'.exec.pc == NextPc(w.exec, ev) && w'.hand == HandAfter(w, ev)
            && w'.taken == (if ev.Take? then w.taken + 1 else w.taken)
            && w'.hand == (if ev.Take? then Some(w.approved[w.taken])
                           else if Busy(w'.exec.pc) then w.hand else None)
            && w'.calls == w.calls + CallsMade(w, ev)
            && |CallsMade(w, ev)| == Cost(CreateCalls, ev) <= 1
            && (CallsMade(w, ev) != [] ==> w.hand == Some(CallsMade(w, ev)[0].ticket))
            && (w.hand == None ==> Left(CreateCalls, w.exec.pc) == 0)
            && (!Busy(w'.exec.pc) ==> Left(CreateCalls, w'.exec.pc) == 0)
            && (ev.Take? ==> w.hand == None && w.taken < |w.approved|)
  {
    hide PlacementOf, NextPending, NextPhase, NewEntry, GoesStray;
  }

  // ---- only what was admitted is placed

  /** At the i-th step the risk manager judged this very request, and every limit held of its ledger then. */
  ghost predicate AdmittedAtStep(l: Limits, w0: World, steps: seq<Step>, t: Ticket, i: nat)
    requires i < |steps|
  {
    var w := Run(l, w0, steps[..i]);
    && steps[i] == Judge && w.Some? && Can(w.value, Judge)
    && NextTicket(w.value) == t && WithinLimits(l, w.value.risk, t.order)
  }

  ghost predicate WasAdmitted(l: Limits, w0: World, steps: seq<Step>, t: Ticket) {
    exists i | 0 <= i < |steps| :: AdmittedAtStep(l, w0, steps, t, i)
  }

  lemma AdmittedLater(l: Limits, w0: World, steps: seq<Step>, s: Step, t: Ticket)
    requires WasAdmitted(l, w0, steps, t)
    ensures WasAdmitted(l, w0, steps + [s], t)
  {
    var i :| 0 <= i < |steps| && AdmittedAtStep(l, w0, steps, t, i);
    assert (steps + [s])[..i] == steps[..i];
    hide Run, Can, WithinLimits;
    assert AdmittedAtStep(l, w0, steps + [s], t, i);
  }

  /** Tickets past the risk manager. */
  function Passed(w: World): set<Ticket> {
    (set t | t in w.approved) + (set t | t in Approving(w.verdict)) + (set t | t in InHand(w.hand))
      + (set c | c in w.calls :: c.ticket)
  }

  lemma PassedBy(l: Limits, w: World, s: Step)
    requires HandAgrees(w) && Can(w, s)
    ensures Passed(Do(l, w, s)) <= Passed(w) + if s.Judge? && Admits(l, w) then {NextTicket(w)} else {}
  {
    match s {
      case Execute(ev) =>
        EventEffects(w, ev);
        ExecuteKeepsVerdicts(w, ev);
        hide WellFormed, Can, ExecuteEvent, HandAfter, CallsMade, Cost, Left;
      case _ => hide Validate, ApplyResult;
    }
  }

  /** A call carries market, side, type, volume and price of the ticket it is made for. */
  predicate CallsFaithful(w: World) {
    forall c | c in w.calls :: c.placement == PlacementOf(c.ticket.order)
  }

  lemma CallsStayFaithful(l: Limits, w: World, s: Step)
    requires HandAgrees(w) && CallsFaithful(w) && Can(w, s)
    ensures CallsFaithful(Do(l, w, s))
  {
    match s {
      case Execute(ev) => hide WellFormed, Enabled, Next, PlacementOf, NewEntry, GoesStray, HandAfter;
      case _ => hide Validate, ApplyResult;
    }
  }

  lemma CallersPassed(w: World)
    ensures forall c | c in w.calls :: c.ticket in Passed(w)
  {
  }

  lemma PassedWereAdmitted(l: Limits, w0: World, init: seq<Step>, w: World, s: Step)
    requires Run(l, w0, init) == Some(w) && HandAgrees(w) && Can(w, s)
    requires forall t | t in Passed(w) :: WasAdmitted(l, w0, init, t)
    ensures forall t | t in Passed(Do(l, w, s)) :: WasAdmitted(l, w0, init + [s], t)
  {
    PassedBy(l, w, s);
    assert (init + [s])[..|init|] == init;
    if s.Judge? && Admits(l, w) {
      AdmittedIffWithinLimits(l, w.risk, w.requests[w.judged]);
      assert AdmittedAtStep(l, w0, init + [s], NextTicket(w), |init|);
    }
    hide Do, Can, Run, HandAgrees, AdmittedAtStep, Admits, Passed;
    forall t | t in Passed(Do(l, w, s)) ensures WasAdmitted(l, w0, init + [s], t) {
      if t in Passed(w) { AdmittedLater(l, w0, init, s, t); }
    }
  }

  /** Every create call of every run is made for a request that the risk manager had judged earlier in that run
      with every limit satisfied, and with exactly that request's arguments. */
  lemma {:induction false} OnlyAdmittedPlaced(l: Limits, dryRun: bool, risk: RiskState, steps: seq<Step>)
    requires Runs(l, Start(dryRun, risk), steps)
    ensures var w := Run(l, Start(dryRun, risk), steps).value;
            && CallsFaithful(w)
            && (forall c | c in w.calls :: WasAdmitted(l, Start(dryRun, risk), steps, c.ticket))
            && (forall t | t in Passed(w) :: WasAdmitted(l, Start(dryRun, risk), steps, t))
  {
    hide JudgedAccounted, TakenAccounted;
    var w0 := Start(dryRun, risk);
    if steps == [] {
    } else {
      var init, s := steps[..|steps| - 1], steps[|steps| - 1];
      Before(l, w0, steps);
      InvAlways(l, dryRun, risk, init);
      hide HandAgrees;
      OnlyAdmittedPlaced(l, dryRun, risk, init);
      assert steps == init + [s];
      hide Do, Can, Run, WasAdmitted, CallsFaithful;
      var w := Run(l, w0, init).value;
      PassedWereAdmitted(l, w0, init, w, s);
      CallsStayFaithful(l, w, s);
      CallersPassed(Do(l, w, s));
    }
  }

  // ---- at most three calls for each approval

  function CallsFor(calls: seq<Call>, t: Ticket): nat {
    if calls == [] then 0
    else CallsFor(calls[..|calls| - 1], t) + if calls[|calls| - 1].ticket == t then 1 else 0
  }

  /** Calls made for a ticket, and calls its handling may still make. */
  function CallsAndLeft(w: World, t: Ticket): int {
    CallsFor(w.calls, t) + if w.hand == Some(t) then Left(CreateCalls, w.exec.pc) else 0
  }

  ghost predicate CallsPaid(w: World, t: Ticket) {
    w.taken <= |w.approved| && CallsAndLeft(w, t) <= 3 * multiset(w.approved[..w.taken])[t]
  }

  lemma CallsForAppend(calls: seq<Call>, c: Call, t: Ticket)
    ensures CallsFor(calls + [c], t) == CallsFor(calls, t) + if c.ticket == t then 1 else 0
  {
    assert (calls + [c])[..|calls|] == calls;
  }

  lemma PaidWithout(w: World, w': World, cost: nat, t: Ticket)
    requires CallsPaid(w, t) && w'.approved == w.approved && w'.taken == w.taken && cost <= 1
    requires cost + Left(CreateCalls, w'.exec.pc) <= Left(CreateCalls, w.exec.pc)
    requires w'.hand == w.hand || (w'.hand == None && Left(CreateCalls, w'.exec.pc) == 0)
    requires cost == 1 ==> w.hand.Some?
    requires CallsFor(w'.calls, t) == CallsFor(w.calls, t) + if cost == 1 && w.hand == Some(t) then 1 else 0
    ensures CallsPaid(w', t)
  {
    hide CallsFor, Left;
  }

  lemma CallsPaidByEvent(w: World, ev: Event, t: Ticket)
    requires HandAgrees(w) && CallsPaid(w, t) && Can(w, Execute(ev))
    ensures CallsPaid(ExecuteEvent(w, ev), t)
  {
    StepPaidFor(CreateCalls, w.exec, ev);
    EventEffects(w, ev);
    hide ExecuteEvent, CallsFor, Left, HandAgrees, Can, NextPc, Cost, PlacementOf, WellFormed, HandAfter, CallsMade;
    var made := CallsMade(w, ev);
    if made != [] {
      assert made == [made[0]];
      CallsForAppend(w.calls, made[0], t);
    } else {
      assert w.calls + made == w.calls;
    }
    if ev.Take? {
      assert w.approved[..w.taken + 1] == w.approved[..w.taken] + [w.approved[w.taken]];
      assert PerOrder(CreateCalls) == 3;
    } else {
      PaidWithout(w, ExecuteEvent(w, ev), Cost(CreateCalls, ev), t);
    }
  }

  lemma CallsPaidKept(l: Limits, w: World, s: Step, t: Ticket)
    requires HandAgrees(w) && CallsPaid(w, t) && Can(w, s)
    ensures CallsPaid(Do(l, w, s), t)
  {
    hide CallsFor, Left;
    match s {
      case Route(published) =>
        assert RouteVerdict(w, published).approved[..w.taken] == w.approved[..w.taken];
      case Execute(ev) => CallsPaidByEvent(w, ev, t);
      case _ => hide Validate, ApplyResult;
    }
  }

  lemma AtMostThree(w: World, t: Ticket)
    requires Inv(w) && CallsPaid(w, t)
    ensures CallsFor(w.calls, t) <= 3
  {
    ApprovedOnce(w, t);
    if w.hand.Some? { LeftNonnegative(CreateCalls, w.exec); }
    hide Left, CallsFor, JudgedAccounted, TakenAccounted;
    assert w.approved == w.approved[..w.taken] + w.approved[w.taken..];
  }

  /** However the exchange, the bus and the event loop behave, one request leads to at most three create calls. */
  lemma {:induction false} ThreeCallsPerTicket(l: Limits, dryRun: bool, risk: RiskState, steps: seq<Step>, t: Ticket)
    requires Runs(l, Start(dryRun, risk), steps)
    ensures CallsPaid(Run(l, Start(dryRun, risk), steps).value, t)
    ensures CallsFor(Run(l, Start(dryRun, risk), steps).value.calls, t) <= 3
  {
    var w0 := Start(dryRun, risk);
    InvAlways(l, dryRun, risk, steps);
    if steps == [] {
    } else {
      var init, s := steps[..|steps| - 1], steps[|steps| - 1];
      Before(l, w0, steps);
      InvAlways(l, dryRun, risk, init);
      ThreeCallsPerTicket(l, dryRun, risk, init, t);
      hide Do, Can, HandAgrees;
      CallsPaidKept(l, Run(l, w0, init).value, s, t);
    }
    AtMostThree(Run(l, w0, steps).value, t);
  }

  // ---- at most three fills and one failure for each approval

  /** The world as if the ledger had seen nothing yet, so that every fill ever reported is still open. */
  function Unseen(w: World): World {
    w.(settled := 0)
  }

  lemma NothingCounts(dryRun: bool, risk: RiskState)
    ensures var v := Unseen(Start(dryRun, risk)); Bounded(v) && FewCopies(Fills(3), v)
  {
    assert Unseen(Start(dryRun, risk)) == Start(dryRun, risk);
    NothingOpen(Fills(3), dryRun, risk);
    hide OpenBag, Open, Unseen;
  }

  lemma UnseenHand(w: World)
    requires HandAgrees(w)
    ensures HandAgrees(Unseen(w))
  {
  }

  lemma SettledUnseen(w: World)
    requires Can(w, SettleNext) && Bounded(Unseen(w)) && FewCopies(Fills(3), Unseen(w))
    requires Bounded(Unseen(SettleEntry(w)))
    ensures FewCopies(Fills(3), Unseen(SettleEntry(w)))
  {
    hide Repeated, TicketsIn, ApplyResult, Copies;
    assert OpenBag(Fills(3), Unseen(SettleEntry(w))) == OpenBag(Fills(3), Unseen(w));
  }

  lemma ThreeTries(w: World)
    requires HandAgrees(w)
    ensures AttemptOf(w.exec.pc) <= 3
  {
  }

  lemma SameEvent(w: World, ev: Event)
    requires Can(w, Execute(ev))
    ensures Can(Unseen(w), Execute(ev))
    ensures NewEntry(Unseen(w), ev, OrderFilled) == NewEntry(w, ev, OrderFilled)
    ensures NewEntry(Unseen(w), ev, OrderFailed) == NewEntry(w, ev, OrderFailed)
    ensures CallsMade(Unseen(w), ev) == CallsMade(w, ev) && HandAfter(Unseen(w), ev) == HandAfter(w, ev)
  {
    hide OutputAt, PlacementOf;
  }

  lemma UnseenSteps(l: Limits, w: World, s: Step)
    requires Can(w, s) && !s.SettleNext?
    ensures Can(Unseen(w), s) && Do(l, Unseen(w), s) == Unseen(Do(l, w, s))
  {
    hide Enabled, Next, Validate, NewEntry, CallsMade, GoesStray, HandAfter, RiskStep;
    if s.Execute? { SameEvent(w, s.event); }
  }

  lemma FewFillsStep(l: Limits, w: World, s: Step)
    requires Inv(w) && Can(w, s) && Bounded(Unseen(w)) && FewCopies(Fills(3), Unseen(w))
    ensures Bounded(Unseen(Do(l, w, s))) && FewCopies(Fills(3), Unseen(Do(l, w, s)))
  {
    assert s.SettleNext? ==> Do(l, w, s) == SettleEntry(w) && Bounded(Unseen(SettleEntry(w)));
    assert HandAgrees(w);
    hide Do, Can, FewCopies, JudgedAccounted, TakenAccounted, HandAgrees, OpenBag, Bounded, SettleEntry;
    if s.SettleNext? {
      SettledUnseen(w);
    } else {
      UnseenHand(w);
      ThreeTries(w);
      UnseenSteps(l, w, s);
      FewCopiesKept(Fills(3), l, Unseen(w), s);
    }
  }

  lemma {:induction false} FewFills(l: Limits, dryRun: bool, risk: RiskState, steps: seq<Step>)
    requires Runs(l, Start(dryRun, risk), steps)
    ensures var v := Unseen(Run(l, Start(dryRun, risk), steps).value);
            Bounded(v) && FewCopies(Fills(3), v)
  {
    var w0 := Start(dryRun, risk);
    if steps == [] {
      NothingCounts(dryRun, risk);
    } else {
      var init, s := steps[..|steps| - 1], steps[|steps| - 1];
      Before(l, w0, steps);
      InvAlways(l, dryRun, risk, init);
      FewFills(l, dryRun, risk, init);
      hide Do, Can, FewCopies, JudgedAccounted, TakenAccounted, HandAgrees, Run, Bounded;
      FewFillsStep(l, Run(l, w0, init).value, s);
    }
  }

  /** Failures that the executor did not hear reach their stream end the handling of their order all the same. */
  ghost predicate FailuresEnd(w: World) {
    multiset(TicketsIn(w.failed)) <= multiset(HeardOf(w.failed)) + multiset(w.dropped)
  }

  lemma SameFailures(w: World, w': World)
    requires FailuresEnd(w) && w'.failed == w.failed && w'.dropped == w.dropped
    ensures FailuresEnd(w')
  {
  }

  lemma TicketsAppend(entries: seq<Entry>, more: seq<Entry>)
    ensures TicketsIn(entries + more) == TicketsIn(entries) + TicketsIn(more)
  {
  }

  lemma FailedEntry(w: World, ev: Event)
    requires Can(w, Execute(ev))
    ensures var entry, gone := NewEntry(w, ev, OrderFailed), if Drops(ev) then InHand(w.hand) else [];
            TicketsIn(entry) == HeardOf(entry) || (HeardOf(entry) == [] && TicketsIn(entry) == gone)
  {
    hide Next;
    var entry := NewEntry(w, ev, OrderFailed);
    if entry != [] {
      assert entry[..0] == [] && TicketsIn(entry) == [w.hand.value];
    }
  }

  lemma OneMoreFailure(w: World, w': World, all: seq<Ticket>, heard: seq<Ticket>, gone: seq<Ticket>)
    requires FailuresEnd(w) && w'.dropped == w.dropped + gone
    requires TicketsIn(w'.failed) == TicketsIn(w.failed) + all && HeardOf(w'.failed) == HeardOf(w.failed) + heard
    requires all == heard || (heard == [] && all == gone)
    ensures FailuresEnd(w')
  {
    hide TicketsIn, HeardOf;
    assert multiset(w.dropped + gone) == multiset(w.dropped) + multiset(gone);
    assert multiset(HeardOf(w.failed) + heard) == multiset(HeardOf(w.failed)) + multiset(heard);
    assert multiset(TicketsIn(w.failed) + all) == multiset(TicketsIn(w.failed)) + multiset(all);
  }

  lemma FailureEnds(w: World, ev: Event)
    requires FailuresEnd(w) && Can(w, Execute(ev))
    ensures FailuresEnd(ExecuteEvent(w, ev))
  {
    var entry, gone := NewEntry(w, ev, OrderFailed), if Drops(ev) then InHand(w.hand) else [];
    FailedEntry(w, ev);
    assert ExecuteEvent(w, ev).dropped == w.dropped + gone && ExecuteEvent(w, ev).failed == w.failed + entry;
    assert |entry| <= 1;
    hide *;
    HeardAppend(w.failed, entry);
    TicketsAppend(w.failed, entry);
    OneMoreFailure(w, ExecuteEvent(w, ev), TicketsIn(entry), HeardOf(entry), gone);
  }

  lemma FailuresStep(l: Limits, w: World, s: Step)
    requires FailuresEnd(w) && Can(w, s)
    ensures FailuresEnd(Do(l, w, s))
  {
    hide FailuresEnd, Validate, ApplyResult, ExecuteEvent, RiskStep;
    match s {
      case Execute(ev) => FailureEnds(w, ev);
      case _ =>
        assert Do(l, w, s).failed == w.failed && Do(l, w, s).dropped == w.dropped;
        SameFailures(w, Do(l, w, s));
    }
  }

  lemma {:induction false} FailuresAlwaysEnd(l: Limits, dryRun: bool, risk: RiskState, steps: seq<Step>)
    requires Runs(l, Start(dryRun, risk), steps)
    ensures FailuresEnd(Run(l, Start(dryRun, risk), steps).value)
  {
    if steps != [] {
      var init, s := steps[..|steps| - 1], steps[|steps| - 1];
      Before(l, Start(dryRun, risk), steps);
      FailuresAlwaysEnd(l, dryRun, risk, init);
      hide Do, Can, FailuresEnd, Run;
      FailuresStep(l, Run(l, Start(dryRun, risk), init).value, s);
    }
  }

  lemma PerTicket(w: World, t: Ticket)
    requires Inv(w) && FailuresEnd(w) && Bounded(Unseen(w)) && FewCopies(Fills(3), Unseen(w))
    ensures multiset(TicketsIn(w.filled))[t] <= 3 && multiset(TicketsIn(w.failed))[t] <= 1
    ensures multiset(HeardOf(w.filled))[t] + multiset(HeardOf(w.failed))[t] <= 1
  {
    ApprovedOnce(w, t);
    assert TicketsIn(w.filled)[0..] == TicketsIn(w.filled);
    ByParts(Fills(3), Unseen(w));
    hide TicketsIn, HeardOf, JudgedAccounted, HandAgrees, OpenBag, PartVerdict, PartWaiting, PartHand, PartStray;
    assert OpenBag(Fills(3), Unseen(w))[t] <= 3;
    assert w.approved == w.approved[..w.taken] + w.approved[w.taken..];
    Pointwise(multiset(TicketsIn(w.failed)), multiset(HeardOf(w.failed)) + multiset(w.dropped), t);
  }

  /** However publications raise, are applied or are lost: one request has at most three results on order:filled and
      one on order:failed in any run, and at most one of all of them was heard of. */
  lemma ResultsPerTicket(l: Limits, dryRun: bool, risk: RiskState, steps: seq<Step>, t: Ticket)
    requires Runs(l, Start(dryRun, risk), steps)
    ensures var w := Run(l, Start(dryRun, risk), steps).value;
            && multiset(TicketsIn(w.filled))[t] <= 3 && multiset(TicketsIn(w.failed))[t] <= 1
            && multiset(HeardOf(w.filled))[t] + multiset(HeardOf(w.failed))[t] <= 1
  {
    FewFills(l, dryRun, risk, steps);
    FailuresAlwaysEnd(l, dryRun, risk, steps);
    InvAlways(l, dryRun, risk, steps);
    hide Run;
    PerTicket(Run(l, Start(dryRun, risk), steps).value, t);
  }

  // ---- dry run

  lemma DryRunStep(l: Limits, w: World, s: Step)
    requires HandAgrees(w) && Can(w, s) && w.exec.dryRun && w.calls == []
    ensures Do(l, w, s).calls == [] && Do(l, w, s).exec.dryRun && Do(l, w, s).exec.pending == {}
  {
    HandKept(l, w, s);
    match s {
      case Execute(ev) => EventEffects(w, ev);
      case _ => hide Validate, ApplyResult;
    }
  }

  /** In dry-run mode nothing ever reaches the exchange. */
  lemma {:induction false} DryRunPlacesNothing(l: Limits, risk: RiskState, steps: seq<Step>)
    requires Runs(l, Start(true, risk), steps)
    ensures var w := Run(l, Start(true, risk), steps).value;
            w.calls == [] && w.exec.dryRun && w.exec.pending == {}
  {
    if steps != [] {
      var init, s := steps[..|steps| - 1], steps[|steps| - 1];
      Before(l, Start(true, risk), steps);
      DryRunPlacesNothing(l, risk, init);
      InvAlways(l, true, risk, init);
      hide Do, Can, HandAgrees, JudgedAccounted, TakenAccounted;
      DryRunStep(l, Run(l, Start(true, risk), init).value, s);
    }
  }

  /** Market orders, the only ones the portfolio manager makes, state no price. */
  /** No order states both a price and a volume, which market orders never do. */
  predicate Unpriced(w: World) {
    forall o | o in w.requests :: !(Truthy(o.price) && Truthy(o.volume))
  }

  /** When a dry run's fill is worth anything: exactly when the order states a price and a volume, and then what these say. */
  lemma SyntheticFillWorth(o: OrderRequest)
    ensures ValueOf(SyntheticFill(o)) != 0.0 <==> Truthy(o.price) && Truthy(o.volume)
    ensures Truthy(o.price) && Truthy(o.volume) ==> ValueOf(SyntheticFill(o)) == o.volume.value * o.price.value
  {
    var volume, price := OrZero(o.volume), OrZero(o.price);
    assert ValueOf(SyntheticFill(o)) == volume * price;
    if volume != 0.0 && price != 0.0 { assert (volume * price) / price == volume; }
  }

  predicate WorthNothing(w: World) {
    && (forall e | e in w.filled && Counts(e.result) :: ValueOf(e.result) == 0.0)
    && (forall m | m in w.risk.positions :: w.risk.positions[m] == 0.0)
    && w.risk.openPositions == 0
  }

  lemma UnpricedFill(w: World, o: OrderRequest)
    requires Unpriced(w) && o in w.requests
    ensures ValueOf(SyntheticFill(o)) == 0.0
  {
    SyntheticFillWorth(o);
    hide ValueOf, SyntheticFill;
  }

  /** A dry run reports fills of unpriced orders as worth nothing. */
  lemma DryRunEntry(w: World, ev: Event)
    requires Inv(w) && Can(w, Execute(ev)) && w.exec.dryRun && Unpriced(w)
    requires w.hand.Some? ==> w.hand.value in w.approved
    ensures forall e | e in NewEntry(w, ev, OrderFilled) :: ValueOf(e.result) == 0.0
  {
    if OnStream(ev) {
      ApprovedOnce(w, w.hand.value);
      hide JudgedAccounted, TakenAccounted;
      assert w.exec.pc == PublishingDryRun(w.hand.value.order);
      UnpricedFill(w, w.hand.value.order);
    }
  }

  lemma FillsWorthNothing(w: World, ev: Event)
    requires Inv(w) && Can(w, Execute(ev)) && w.exec.dryRun && Unpriced(w) && WorthNothing(w)
    requires w.hand.Some? ==> w.hand.value in w.approved
    ensures WorthNothing(ExecuteEvent(w, ev))
    ensures var v := ExecuteEvent(w, ev); v.hand.Some? ==> v.hand.value in v.approved
  {
    EventEffects(w, ev);
    ExecuteKeepsVerdicts(w, ev);
    DryRunEntry(w, ev);
    assert ExecuteEvent(w, ev).filled == w.filled + NewEntry(w, ev, OrderFilled);
    assert ev.Take? ==> w.approved[w.taken] in w.approved;
    hide Inv, Can, Unpriced, NewEntry, ExecuteEvent, HandAfter, ValueOf, CallsMade, Busy, NextPc;
  }

  lemma RequestsGrow(l: Limits, w: World, s: Step)
    requires Can(w, s)
    ensures Unpriced(Do(l, w, s)) ==> Unpriced(w)
  {
    match s {
      case Execute(ev) => ExecuteKeepsVerdicts(w, ev);
      case Submit(o) => assert forall x | x in w.requests :: x in w.requests + [o];
      case _ => hide Validate, ApplyResult;
    }
  }

  lemma SettledNothing(s: RiskState, r: OrderResult)
    requires Counts(r) ==> ValueOf(r) == 0.0
    requires forall m | m in s.positions :: s.positions[m] == 0.0
    ensures var s' := ApplyResult(s, r);
            && (forall m | m in s'.positions :: s'.positions[m] == 0.0)
            && (s.openPositions == 0 ==> s'.openPositions == 0)
  {
    hide ValueOf;
    if Counts(r) { assert Positive(Settle(s.positions, r)) == {}; }
  }

  lemma OthersWorthNothing(l: Limits, w: World, s: Step)
    requires Can(w, s) && !s.Execute? && WorthNothing(w) && w.settled <= |w.filled|
    requires w.hand.Some? ==> w.hand.value in w.approved
    ensures WorthNothing(Do(l, w, s))
    ensures var v := Do(l, w, s); v.hand.Some? ==> v.hand.value in v.approved
  {
    match s {
      case Judge => HaltsIffBreached(l, w.risk, w.requests[w.judged]); hide Validate, ValueOf;
      case SettleNext => hide ValueOf; SettledNothing(w.risk, w.filled[w.settled].result); hide ApplyResult;
      case _ => hide ValueOf, Validate, ApplyResult, Enabled;
    }
  }

  lemma WorthNothingKept(l: Limits, w: World, s: Step)
    requires Inv(w) && Can(w, s) && w.exec.dryRun && Unpriced(w) && WorthNothing(w)
    requires w.hand.Some? ==> w.hand.value in w.approved
    ensures WorthNothing(Do(l, w, s))
    ensures var v := Do(l, w, s); v.hand.Some? ==> v.hand.value in v.approved
  {
    match s {
      case Execute(ev) => FillsWorthNothing(w, ev);
      case _ => OthersWorthNothing(l, w, s);
    }
  }

  /** In dry-run mode the ledger that the limits read never records the market orders that were filled: every
      position stays zero and no market counts as open. */
  lemma {:induction false} DryRunLedgerStaysEmpty(l: Limits, risk: RiskState, steps: seq<Step>)
    requires Runs(l, Start(true, risk), steps) && risk.positions == map[] && risk.openPositions == 0
    requires Unpriced(Run(l, Start(true, risk), steps).value)
    ensures var w := Run(l, Start(true, risk), steps).value;
            WorthNothing(w) && (w.hand.Some? ==> w.hand.value in w.approved)
  {
    if steps != [] {
      var init, s := steps[..|steps| - 1], steps[|steps| - 1];
      Before(l, Start(true, risk), steps);
      var w := Run(l, Start(true, risk), init).value;
      InvAlways(l, true, risk, init);
      DryRunPlacesNothing(l, risk, init);
      RequestsGrow(l, w, s);
      DryRunLedgerStaysEmpty(l, risk, init);
      WorthNothingKept(l, w, s);
    }
  }
}
