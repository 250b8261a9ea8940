/** The orders that the exchange has accepted: none is out of sight of what is counted as bought. */
module PipelineAccepted {
  import opened Prelude
  import opened Messages
  import opened RiskLedger
  import opened ExecutorMachine
  import opened OrderPipeline
  import opened PipelineFlow
  import opened PipelineExposure
  import opened PipelineHolding

  // ---- accepted orders

  function LiveOf(w: World): seq<Ticket> {
    if LiveOrder(w.exec.pc) then InHand(w.hand) else []
  }

  /** Orders that the exchange has accepted and that the ledger has not been told the end of. */
  function AcceptedOpen(w: World): seq<Ticket>
    requires Bounded(w)
  {
    LiveOf(w) + TicketsIn(w.filled)[w.settled..] + w.stray
  }

  function AcceptedFor(calls: seq<Call>): seq<Ticket> {
    if calls == [] then []
    else
      var c := calls[|calls| - 1];
      AcceptedFor(calls[..|calls| - 1]) + if c.accepted then [c.ticket] else []
  }

  /** The tickets of the results that tell the whole end of an order: a fill, or nothing executed. */
  function ClosedOf(entries: seq<Entry>): seq<Ticket> {
    if entries == [] then []
    else
      var e := entries[|entries| - 1];
      ClosedOf(entries[..|entries| - 1]) + if Uncounted(e) == [] then [e.ticket] else []
  }

  /** The orders with a result on order:filled, but for those that stayed open to the ledger after it. */
  function Told(w: World): multiset<Ticket>
    requires Bounded(w)
  {
    multiset(TicketsIn(w.filled)[w.settled..]) + multiset(ClosedOf(Settled(w)))
  }

  ghost predicate NoneEscapes(w: World) {
    Bounded(w) && multiset(AcceptedFor(w.calls)) <= multiset(LiveOf(w)) + Told(w) + multiset(w.stray)
  }

  lemma AcceptedAppend(calls: seq<Call>, more: seq<Call>)
    requires |more| <= 1
    ensures AcceptedFor(calls + more) == AcceptedFor(calls) + AcceptedFor(more)
  {
    if more == [] {
      assert calls + more == calls;
    } else {
      assert (calls + more)[..|calls|] == calls && more[..0] == [];
    }
  }

  lemma NoneAccepted()
    ensures AcceptedFor([]) == []
  {
  }

  lemma EventAdds(w: World, ev: Event)
    requires Can(w, Execute(ev))
    ensures var w' := ExecuteEvent(w, ev);
            && TicketsIn(w'.filled) == TicketsIn(w.filled) + TicketsIn(NewEntry(w, ev, OrderFilled))
            && w'.stray == w.stray + (if GoesStray(w.exec, ev) then InHand(w.hand) else [])
            && AcceptedFor(w'.calls) == AcceptedFor(w.calls) + AcceptedFor(CallsMade(w, ev))
            && (CallsMade(w, ev) == [] ==> AcceptedFor(CallsMade(w, ev)) == [])
  {
    AcceptedAppend(w.calls, CallsMade(w, ev));
    hide AcceptedFor, Enabled, Next, GoesStray, HandAfter;
    var entry := NewEntry(w, ev, OrderFilled);
    assert TicketsIn(w.filled + entry) == TicketsIn(w.filled) + TicketsIn(entry);
    NoneAccepted();
  }

  lemma LiveBalance<T>(t: seq<T>, live: seq<T>, made: seq<T>, live': seq<T>, fill: seq<T>, stray: seq<T>)
    requires (live == [] || live == t) && (made == [] || (made == t && live == []))
    requires live == t || made == t ==> live' == t || fill == t || stray == t
    ensures multiset(live) + multiset(made) <= multiset(live') + multiset(fill) + multiset(stray)
  {
  }

  /** An order ceases to be live by a result on order:filled or by going stray, and an accepted one becomes live or
      goes stray. */
  lemma LiveAccounts(w: World, ev: Event)
    requires HandAgrees(w) && Can(w, Execute(ev)) && w.hand.Some?
    ensures var w', t := ExecuteEvent(w, ev), [w.hand.value];
            var fill, made := TicketsIn(NewEntry(w, ev, OrderFilled)), AcceptedFor(CallsMade(w, ev));
            && (LiveOf(w) == [] || LiveOf(w) == t) && (made == [] || (made == t && LiveOf(w) == []))
            && (fill == [] || fill == t)
            && (LiveOf(w) == t || made == t ==> LiveOf(w') == t || fill == t || GoesStray(w.exec, ev))
  {
    hide PlacementOf, NextPending, NextPhase;
    var entry := NewEntry(w, ev, OrderFilled);
    if entry != [] { assert TicketsIn(entry) == [w.hand.value]; }
  }

  /** How an event changes the orders that are live, reported and stray, and those accepted. */
  lemma EventAccounts(w: World, ev: Event)
    requires HandAgrees(w) && Can(w, Execute(ev))
    ensures var w' := ExecuteEvent(w, ev);
            var fill, stray := TicketsIn(NewEntry(w, ev, OrderFilled)), if GoesStray(w.exec, ev) then InHand(w.hand) else [];
            && TicketsIn(w'.filled) == TicketsIn(w.filled) + fill && w'.stray == w.stray + stray
            && AcceptedFor(w'.calls) == AcceptedFor(w.calls) + AcceptedFor(CallsMade(w, ev))
            && multiset(LiveOf(w)) + multiset(AcceptedFor(CallsMade(w, ev)))
               <= multiset(LiveOf(w')) + multiset(fill) + multiset(stray)
  {
    var w', made := ExecuteEvent(w, ev), CallsMade(w, ev);
    var fill, stray := TicketsIn(NewEntry(w, ev, OrderFilled)), if GoesStray(w.exec, ev) then InHand(w.hand) else [];
    EventAdds(w, ev);
    if w.hand.Some? {
      LiveAccounts(w, ev);
      assert GoesStray(w.exec, ev) ==> stray == [w.hand.value];
      hide *;
      LiveBalance([w.hand.value], LiveOf(w), AcceptedFor(made), LiveOf(w'), fill, stray);
    } else {
      assert LiveOf(w) == [] && made == [];
      hide *;
      LiveBalance([], LiveOf(w), AcceptedFor(made), LiveOf(w'), fill, stray);
    }
  }

  lemma MoreInTotal<T>(accepted: multiset<T>, made: multiset<T>, live: multiset<T>, filled: multiset<T>, strays: multiset<T>,
                       live': multiset<T>, fill: multiset<T>, stray: multiset<T>)
    requires accepted <= live + filled + strays && live + made <= live' + fill + stray
    ensures accepted + made <= live' + (filled + fill) + (strays + stray)
  {
    forall x ensures (accepted + made)[x] <= (live' + (filled + fill) + (strays + stray))[x] {
      Pointwise(accepted, live + filled + strays, x);
      Pointwise(live + made, live' + fill + stray, x);
    }
  }

  lemma MoreAccounted(w: World, w': World, fill: seq<Ticket>, stray: seq<Ticket>, made: seq<Ticket>)
    requires NoneEscapes(w) && Bounded(w')
    requires Told(w') == Told(w) + multiset(fill) && w'.stray == w.stray + stray
    requires AcceptedFor(w'.calls) == AcceptedFor(w.calls) + made
    requires multiset(LiveOf(w)) + multiset(made) <= multiset(LiveOf(w')) + multiset(fill) + multiset(stray)
    ensures NoneEscapes(w')
  {
    hide AcceptedFor, Told, LiveOf;
    MoreInTotal(multiset(AcceptedFor(w.calls)), multiset(made), multiset(LiveOf(w)), Told(w), multiset(w.stray),
                multiset(LiveOf(w')), multiset(fill), multiset(stray));
  }

  lemma ToldMore(w: World, w': World, fill: seq<Ticket>)
    requires Bounded(w) && Bounded(w') && w'.settled == w.settled && Settled(w') == Settled(w)
    requires TicketsIn(w'.filled) == TicketsIn(w.filled) + fill
    ensures Told(w') == Told(w) + multiset(fill)
  {
    hide TicketsIn, ClosedOf, Settled;
    assert TicketsIn(w'.filled)[w.settled..] == TicketsIn(w.filled)[w.settled..] + fill;
  }

  lemma ToldEnds(w: World, w': World, e: Entry)
    requires Bounded(w) && Bounded(w') && w.settled < |w.filled| && e == w.filled[w.settled]
    requires w'.settled == w.settled + 1 && w'.filled == w.filled && Settled(w') == Settled(w) + [e]
    ensures Told(w') + multiset(Uncounted(e)) == Told(w)
  {
    assert (Settled(w) + [e])[..|Settled(w)|] == Settled(w);
    assert ClosedOf(Settled(w')) == ClosedOf(Settled(w)) + if Uncounted(e) == [] then [e.ticket] else [];
    HeadAndRest(TicketsIn(w.filled), w.settled);
    hide TicketsIn, ClosedOf, Settled;
  }

  lemma SettleAccounted(w: World, w': World, e: Entry)
    requires NoneEscapes(w) && Can(w, SettleNext) && w' == SettleEntry(w) && e == w.filled[w.settled]
    requires Bounded(w') && Settled(w') == Settled(w) + [e]
    ensures NoneEscapes(w')
  {
    assert w' == w.(settled := w.settled + 1, risk := w'.risk, stray := w.stray + Uncounted(e));
    ToldEnds(w, w', e);
    hide Told, AcceptedFor, SettleEntry, Uncounted;
    assert multiset(w'.stray) == multiset(w.stray) + multiset(Uncounted(e));
  }

  lemma LiveSame(w: World, w': World)
    requires w'.exec == w.exec && w'.hand == w.hand
    ensures LiveOf(w') == LiveOf(w)
  {
  }

  lemma OthersAccounted(l: Limits, w: World, s: Step)
    requires NoneEscapes(w) && Can(w, s) && !s.Execute? && !s.SettleNext?
    ensures NoneEscapes(Do(l, w, s))
  {
    hide AcceptedFor, TicketsIn, Validate, RiskStep, LiveOrder;
    var w' := Do(l, w, s);
    assert w'.exec == w.exec && w'.hand == w.hand && w'.calls == w.calls && w'.filled == w.filled && w'.stray == w.stray;
    assert w'.settled == w.settled && Bounded(w);
    hide *;
    SettledGrows(l, w, s);
    assert TicketsIn(w'.filled) == TicketsIn(w.filled) + [] && w'.stray == w.stray + [];
    assert AcceptedFor(w'.calls) == AcceptedFor(w.calls) + [];
    assert LiveOf(w') == LiveOf(w) by { LiveSame(w, w'); }
    ToldMore(w, w', []);
    MoreAccounted(w, w', [], [], []);
  }

  lemma NoneEscapesKept(l: Limits, w: World, s: Step)
    requires HandAgrees(w) && NoneEscapes(w) && Can(w, s)
    ensures NoneEscapes(Do(l, w, s))
  {
    assert Bounded(w) by { hide Told, AcceptedFor; }
    hide HandAgrees, NoneEscapes;
    SettledGrows(l, w, s);
    match s {
      case Execute(ev) =>
        var w' := ExecuteEvent(w, ev);
        EventAccounts(w, ev);
        assert Do(l, w, s) == w' && w'.settled == w.settled;
        hide *;
        ToldMore(w, w', TicketsIn(NewEntry(w, ev, OrderFilled)));
        MoreAccounted(w, w', TicketsIn(NewEntry(w, ev, OrderFilled)), if GoesStray(w.exec, ev) then InHand(w.hand) else [],
                      AcceptedFor(CallsMade(w, ev)));
      case SettleNext => SettleAccounted(w, SettleEntry(w), w.filled[w.settled]);
      case _ => OthersAccounted(l, w, s);
    }
  }

  /** Every order the exchange ever accepted is live, has a result on order:filled that tells its whole end or is still
      to be read, or is among the stray ones. */
  lemma {:induction false} NoOrderEscapes(l: Limits, dryRun: bool, risk: RiskState, steps: seq<Step>)
    requires Runs(l, Start(dryRun, risk), steps)
    ensures NoneEscapes(Run(l, Start(dryRun, risk), steps).value)
  {
    if steps != [] {
      var init, s := steps[..|steps| - 1], steps[|steps| - 1];
      Before(l, Start(dryRun, risk), steps);
      NoOrderEscapes(l, dryRun, risk, init);
      InvAlways(l, dryRun, risk, init);
      var w := Run(l, Start(dryRun, risk), init).value;
      hide Do, Can, NoneEscapes, JudgedAccounted, TakenAccounted, HandAgrees;
      NoneEscapesKept(l, w, s);
    }
  }

  lemma LiveInHand(a: Account, w: World)
    requires HandAgrees(w) && a.Orders? && a.each >= 1 && AttemptOf(w.exec.pc) <= a.each
    ensures multiset(LiveOf(w)) <= PartHand(a, w)
  {
    if w.hand.Some? {
      RepeatedOne(w.hand.value, Copies(a, w.exec.pc));
      assert LiveOrder(w.exec.pc) ==> Copies(a, w.exec.pc) >= 1;
      hide Repeated, Copies, HandAgrees;
    }
  }

  lemma PartOfWhole<T>(v: multiset<T>, x: multiset<T>, h: multiset<T>, u: multiset<T>, s: multiset<T>, live: multiset<T>)
    requires live <= h
    ensures live + u + s <= v + x + h + u + s
  {
    forall y ensures (live + u + s)[y] <= (v + x + h + u + s)[y] { Pointwise(live, h, y); }
  }

  /** What the exchange has accepted is part of what is open. */
  lemma AcceptedIsOpen(each: nat, w: World)
    requires HandAgrees(w) && Bounded(w) && each >= 1 && AttemptOf(w.exec.pc) <= each
    ensures multiset(AcceptedOpen(w)) <= OpenBag(Orders(each), w)
  {
    var a := Orders(each);
    LiveInHand(a, w);
    hide Repeated, TicketsIn, HandAgrees, AttemptOf, LiveOf;
    assert multiset(AcceptedOpen(w)) == multiset(LiveOf(w)) + PartUnsettled(w) + PartStray(a, w);
    hide *;
    ByParts(a, w);
    PartOfWhole(PartVerdict(a, w), PartWaiting(a, w), PartHand(a, w), PartUnsettled(w), PartStray(a, w), multiset(LiveOf(w)));
  }

  // ---- what is bought

  /** What has gone into a market and not come back, and what the accepted orders may still add to it. */
  function Bought(w: World, market: string, start: real, proceeds: map<string, real>): real
    requires Bounded(w)
  {
    HeldAfter(start, Settled(w), market, proceeds) + Krw(market, AcceptedOpen(w))
  }

  lemma BoughtAtStake(l: Limits, each: nat, w: World, market: string, proceeds: map<string, real>)
    requires Sound(Orders(each), l, w) && each >= 1 && AttemptOf(w.exec.pc) <= each
    ensures Bounded(w) && Bought(w, market, 0.0, proceeds) <= AtStake(Orders(each), w, market, proceeds)
  {
    AcceptedIsOpen(each, w);
    BagIsOpen(Orders(each), w);
    hide Open, OpenBag, AcceptedOpen, AllModest, HeldAfter;
    KrwMonotone(l, market, AcceptedOpen(w), Open(Orders(each), w));
  }

  /** What comes back: what a sale brings in, and what a purchase that ends with nothing executed was to cost. */
  function RecoveredBy(e: Entry, market: string, proceeds: map<string, real>): real {
    if e.ticket.order.market != market then 0.0
    else if !Counts(e.result) then (if Uncounted(e) == [] then KrwOf(market, e.ticket) else 0.0)
    else if e.ticket.order.side == Bid then 0.0 else Brought(proceeds, e.result.orderUuid)
  }

  function Recovered(entries: seq<Entry>, market: string, proceeds: map<string, real>): real {
    if entries == [] then 0.0
    else Recovered(entries[..|entries| - 1], market, proceeds) + RecoveredBy(entries[|entries| - 1], market, proceeds)
  }

  lemma CloseOne(closed: real, held: real, recovered: real, e: Entry, market: string, proceeds: map<string, real>)
    requires closed <= held + recovered
    ensures closed + (if Uncounted(e) == [] then KrwOf(market, e.ticket) else 0.0)
         <= HeldThen(held, e, market, proceeds) + (recovered + RecoveredBy(e, market, proceeds))
  {
    assert Counts(e.result) ==> Uncounted(e) == [];
    hide AmountKrw, Brought;
  }

  lemma ClosedMore(entries: seq<Entry>, init: seq<Entry>, e: Entry, market: string)
    requires entries != [] && init == entries[..|entries| - 1] && e == entries[|entries| - 1]
    ensures Krw(market, ClosedOf(entries))
         == Krw(market, ClosedOf(init)) + if Uncounted(e) == [] then KrwOf(market, e.ticket) else 0.0
  {
    hide Uncounted, Krw, KrwOf;
    assert ClosedOf(init) + [] == ClosedOf(init);
    KrwAppend(market, ClosedOf(init), e.ticket);
  }

  lemma {:induction false} ClosedIsHeld(entries: seq<Entry>, market: string, proceeds: map<string, real>)
    ensures Krw(market, ClosedOf(entries)) <= HeldAfter(0.0, entries, market, proceeds) + Recovered(entries, market, proceeds)
  {
    hide Krw, KrwOf, HeldThen, RecoveredBy;
    if entries == [] {
      NothingWeighs(market);
    } else {
      var init, e := entries[..|entries| - 1], entries[|entries| - 1];
      ClosedIsHeld(init, market, proceeds);
      ClosedMore(entries, init, e, market);
      CloseOne(Krw(market, ClosedOf(init)), HeldAfter(0.0, init, market, proceeds), Recovered(init, market, proceeds), e,
               market, proceeds);
    }
  }

  /** Tickets that have been taken were approved. */
  ghost predicate Known(w: World) {
    && (forall e | e in w.filled :: e.ticket in w.approved)
    && (forall t | t in w.stray :: t in w.approved)
    && (w.hand.Some? ==> w.hand.value in w.approved)
  }

  lemma KnownKept(l: Limits, w: World, s: Step)
    requires Known(w) && Can(w, s)
    ensures Known(Do(l, w, s))
  {
    match s {
      case Execute(ev) => hide Enabled, Next, CallsMade, OutputAt;
      case SettleNext => assert w.filled[w.settled] in w.filled; hide ApplyResult;
      case _ => hide Validate, RiskStep;
    }
  }

  lemma {:induction false} AlwaysKnown(l: Limits, w0: World, steps: seq<Step>)
    requires Known(w0) && Runs(l, w0, steps)
    ensures Known(Run(l, w0, steps).value)
  {
    hide Do, Can, Known;
    if steps != [] {
      var init, s := steps[..|steps| - 1], steps[|steps| - 1];
      Before(l, w0, steps);
      AlwaysKnown(l, w0, init);
      KnownKept(l, Run(l, w0, init).value, s);
    }
  }

  lemma ApprovedCost(w: World, t: Ticket, market: string)
    requires Inv(w) && PurchasesCarryAmount(w) && t in w.approved
    ensures KrwOf(market, t) >= 0.0
  {
    ApprovedOnce(w, t);
    assert t.id < |w.requests| by { hide TicketsOf, HeardOf; }
    assert t.order in w.requests;
  }

  lemma {:induction false} ClosedAreFilled(entries: seq<Entry>)
    ensures forall t | t in ClosedOf(entries) :: exists e :: e in entries && e.ticket == t
  {
    if entries != [] {
      var init, e := entries[..|entries| - 1], entries[|entries| - 1];
      ClosedAreFilled(init);
      forall t | t in ClosedOf(entries) ensures exists x :: x in entries && x.ticket == t {
        if t in ClosedOf(init) {
          var x :| x in init && x.ticket == t;
          assert x in entries;
        } else {
          assert e in entries && e.ticket == t;
        }
      }
    }
  }

  lemma AllApproved(w: World, t: Ticket)
    requires Known(w) && Bounded(w) && t in AcceptedOpen(w) + ClosedOf(Settled(w))
    ensures t in w.approved
  {
    if t in ClosedOf(Settled(w)) {
      ClosedAreFilled(Settled(w));
      hide ClosedOf, AcceptedOpen;
      var e :| e in Settled(w) && e.ticket == t;
      assert e in w.filled;
    } else {
      assert t in AcceptedOpen(w);
      hide ClosedOf, LiveOrder;
    }
  }

  lemma NoneCostsLess(w: World, market: string)
    requires Inv(w) && Known(w) && PurchasesCarryAmount(w) && Bounded(w)
    ensures NoneNegative(market, AcceptedOpen(w) + ClosedOf(Settled(w)))
  {
    hide Inv, PurchasesCarryAmount, KrwOf;
    forall t | t in AcceptedOpen(w) + ClosedOf(Settled(w)) ensures KrwOf(market, t) >= 0.0 {
      AllApproved(w, t);
      ApprovedCost(w, t, market);
    }
  }

  lemma BoughtIs(w: World, market: string, proceeds: map<string, real>)
    requires Bounded(w)
    ensures Bought(w, market, 0.0, proceeds) == HeldAfter(0.0, Settled(w), market, proceeds) + Krw(market, AcceptedOpen(w))
  {
  }

  /** The cost of every order the exchange ever accepted is in what is bought or has come back. */
  lemma CostAccounted(l: Limits, dryRun: bool, risk: RiskState, steps: seq<Step>, market: string, proceeds: map<string, real>)
    requires Runs(l, Start(dryRun, risk), steps) && PurchasesCarryAmount(Run(l, Start(dryRun, risk), steps).value)
    ensures var w := Run(l, Start(dryRun, risk), steps).value;
            && Bounded(w)
            && Krw(market, AcceptedFor(w.calls)) <= Bought(w, market, 0.0, proceeds) + Recovered(Settled(w), market, proceeds)
  {
    var w := Run(l, Start(dryRun, risk), steps).value;
    NoOrderEscapes(l, dryRun, risk, steps);
    InvAlways(l, dryRun, risk, steps);
    AlwaysKnown(l, Start(dryRun, risk), steps);
    assert Bounded(w) && multiset(AcceptedFor(w.calls)) <= multiset(AcceptedOpen(w) + ClosedOf(Settled(w))) by {
      hide Run, AcceptedFor, LiveOf, TicketsIn, ClosedOf, Settled, Inv, Known;
    }
    hide *;
    NoneCostsLess(w, market);
    KrwOfPart(market, AcceptedFor(w.calls), AcceptedOpen(w) + ClosedOf(Settled(w)));
    KrwConcat(market, AcceptedOpen(w), ClosedOf(Settled(w)));
    ClosedIsHeld(Settled(w), market, proceeds);
    BoughtIs(w, market, proceeds);
  }
}
