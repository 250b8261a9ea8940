/** The pipeline fed by the portfolio manager: its requests meet what the bounds on the pipeline ask of them. */
module PipelineEndToEnd {
  import opened Prelude
  import opened Messages
  import opened RiskLedger
  import opened ExecutorMachine
  import opened OrderPipeline
  import opened PipelineFlow
  import opened PipelineExposure
  import opened PipelineHolding
  import opened PipelineSafety
  import opened PipelineAccepted
  import opened PipelineFills
  import opened PipelineRuns
  import opened PipelineShare
  import opened PipelineShareIff
  import PM = PortfolioManager

  /** The pipeline has been given what a run of the portfolio manager asked for, as far as it has got. */
  ghost predicate FedBy(w: World, r: PM.Rules, start: real, events: seq<PM.Event>) {
    && PM.Possible(r, start, events)
    && w.requests <= PM.Orders(PM.After(r, start, events).value.sent)
  }

  lemma SentAs(w: World, r: PM.Rules, start: real, events: seq<PM.Event>, o: OrderRequest) returns (x: PM.Sent)
    requires FedBy(w, r, start, events) && o in w.requests
    ensures x in PM.After(r, start, events).value.sent && x.order == o
  {
    hide PM.After;
    var sent := PM.After(r, start, events).value.sent;
    var i :| 0 <= i < |w.requests| && w.requests[i] == o;
    x := sent[i];
    assert PM.Orders(sent)[i] == o;
  }

  lemma FedRequests(w: World, r: PM.Rules, start: real, events: seq<PM.Event>)
    requires FedBy(w, r, start, events)
    ensures PurchasesCarryAmount(w) && PlacedByAmount(w) && Unpriced(w)
    ensures forall o | o in w.requests && o.side == Bid :: PM.UPBIT_MIN_ORDER_KRW <= AmountKrw(o) <= PM.BuyCap(r)
  {
    PM.AllWellMade(r, start, events);
    var sent := PM.After(r, start, events).value.sent;
    forall o | o in w.requests ensures exists x :: x in sent && x.order == o && PM.WellMade(r, x) {
      var x := SentAs(w, r, start, events, o);
    }
  }

  /** With the portfolio manager as the only source of requests, what is bought of a market stays in every run within what was
      held before, its share of a fixed balance, and all possible orders but one, three for each of the k purchases open at a
      time, if no purchase is undervalued and no sale overvalued. */
  lemma FedBought(l: Limits, dryRun: bool, risk: RiskState, steps: seq<Step>, market: string, k: nat, most: real,
                  held: real, proceeds: map<string, real>, r: PM.Rules, start: real, events: seq<PM.Event>)
    requires EmptyLedger(risk) && Permissive(l, risk.totalBalance) && UniqueUuids(steps)
    requires Runs(l, Start(dryRun, risk), steps) && BalanceFixed(steps, risk.totalBalance) && most <= 1.0 && held >= 0.0
    requires var w := Run(l, Start(dryRun, risk), steps).value; FillsNonnegative(w) && Valued(w, 1.0, most, proceeds)
    requires FedBy(Run(l, Start(dryRun, risk), steps).value, r, start, events)
    requires NeverMoreOpen(Orders(3), l, Start(dryRun, risk), steps, Some(market), k)
    ensures BoughtWithin(l, dryRun, risk, steps, market, held, proceeds, held + ExposureBound(l, risk.totalBalance, 3, k))
  {
    FedRequests(Run(l, Start(dryRun, risk), steps).value, r, start, events);
    hide *;
    BoughtInAnyRun(l, dryRun, risk, steps, risk.totalBalance, market, k, most, held, proceeds);
  }

  /** And in dry-run mode the ledger that the limits read stays empty for good. */
  lemma FedDryRun(l: Limits, risk: RiskState, steps: seq<Step>, r: PM.Rules, start: real, events: seq<PM.Event>)
    requires Runs(l, Start(true, risk), steps) && EmptyLedger(risk)
    requires FedBy(Run(l, Start(true, risk), steps).value, r, start, events)
    ensures WorthNothing(Run(l, Start(true, risk), steps).value)
  {
    FedRequests(Run(l, Start(true, risk), steps).value, r, start, events);
    DryRunLedgerStaysEmpty(l, risk, steps);
  }

  /** Whatever is past the risk manager was requested. */
  lemma {:induction false} PassedWereRequested(l: Limits, dryRun: bool, risk: RiskState, steps: seq<Step>)
    requires Runs(l, Start(dryRun, risk), steps)
    ensures var w := Run(l, Start(dryRun, risk), steps).value;
            forall t | t in Passed(w) :: t.order in w.requests
  {
    if steps != [] {
      var init, s := steps[..|steps| - 1], steps[|steps| - 1];
      Before(l, Start(dryRun, risk), steps);
      InvAlways(l, dryRun, risk, init);
      PassedWereRequested(l, dryRun, risk, init);
      var w := Run(l, Start(dryRun, risk), init).value;
      PassedBy(l, w, s);
      StreamsGrow(l, w, s);
      hide Do, Inv, Passed;
      var w' := Do(l, w, s);
      forall t | t in Passed(w') ensures t.order in w'.requests {
        assert t.order in w.requests;
        InPrefix(w.requests, w'.requests, t.order);
      }
    }
  }

  /** What a create call may look like. */
  predicate Proper(l: Limits, r: PM.Rules, p: Placement) {
    if p.side == Bid then
      && p.ordType == PriceBuy && p.volume == None && p.price.Some?
      && PM.UPBIT_MIN_ORDER_KRW <= p.price.value <= Min(PM.BuyCap(r), l.maxSingleOrderKrw)
    else p.ordType == MarketSell && p.price == None && p.volume.Some? && p.volume.value > 0.0
  }

  lemma ProperPlacement(l: Limits, s: RiskState, r: PM.Rules, x: PM.Sent)
    requires PM.WellMade(r, x) && WithinLimits(l, s, x.order)
    ensures Proper(l, r, PlacementOf(x.order))
  {
    hide SumValues;
  }

  /** From decision to exchange: every create call of a pipeline fed by the portfolio manager is a market purchase for
      a KRW amount between the exchange's minimum and all three limits, or a market sale of a positive volume. */
  lemma FedCalls(l: Limits, dryRun: bool, risk: RiskState, steps: seq<Step>, r: PM.Rules, start: real, events: seq<PM.Event>)
    requires Runs(l, Start(dryRun, risk), steps)
    requires FedBy(Run(l, Start(dryRun, risk), steps).value, r, start, events)
    ensures forall c | c in Run(l, Start(dryRun, risk), steps).value.calls :: Proper(l, r, c.placement)
  {
    var w0 := Start(dryRun, risk);
    var w := Run(l, w0, steps).value;
    OnlyAdmittedPlaced(l, dryRun, risk, steps);
    PassedWereRequested(l, dryRun, risk, steps);
    CallersPassed(w);
    PM.AllWellMade(r, start, events);
    hide Run, Can, Proper, PM.After, PM.WellMade, Passed;
    forall c | c in w.calls ensures Proper(l, r, c.placement) {
      var i :| 0 <= i < |steps| && AdmittedAtStep(l, w0, steps, c.ticket, i);
      var x := SentAs(w, r, start, events, c.ticket.order);
      ProperPlacement(l, Run(l, w0, steps[..i]).value.risk, r, x);
    }
  }

  // ---- the share when the portfolio manager makes the requests

  ghost predicate FedRun(l: Limits, dryRun: bool, risk: RiskState, steps: seq<Step>, r: PM.Rules, start: real,
                         events: seq<PM.Event>) {
    var w := Run(l, Start(dryRun, risk), steps);
    w.Some? && FedBy(w.value, r, start, events)
  }

  /** The share is kept in every covered run whose requests come from some run of the portfolio manager. */
  ghost predicate FedShareHolds(l: Limits, balance: real, market: string, t: Terms, r: PM.Rules) {
    forall dryRun, risk, steps, proceeds, start, events |
      Covered(l, dryRun, risk, steps, balance, market, t, proceeds) && FedRun(l, dryRun, risk, steps, r, start, events) ::
        BoughtWithin(l, dryRun, risk, steps, market, t.start, proceeds, PositionCap(l, balance))
  }

  /** The portfolio manager has asked n times for the same purchase, the last time no later than now. */
  ghost predicate Asked(r: PM.Rules, s: PM.State, market: string, amount: real, n: nat) {
    && s.book.krw == amount && s.book.ruleBuys == map[] && |s.sent| == n
    && s.clock <= PM.ORDER_COOLDOWN * n as real
    && (market in s.book.lastOrder ==> s.book.lastOrder[market] <= PM.ORDER_COOLDOWN * (n as real - 1.0))
    && forall x | x in s.sent :: x.order == PM.BuyFor(market, amount)
  }

  lemma AsksOnce(r: PM.Rules, s: PM.State, market: string, amount: real, n: nat, t: real)
    requires PM.UPBIT_MIN_ORDER_KRW < amount <= PM.BuyCap(r) && Asked(r, s, market, amount, n)
    requires t == PM.ORDER_COOLDOWN * n as real
    ensures var e := PM.Decided(market, t, Direction.Buy, t);
            PM.Can(s, e) && Asked(r, PM.Do(r, s, e), market, amount, n + 1)
  {
    assert !PM.Cooling(s.book, market, t);
    assert PM.BuyAmount(r, s.book.krw) == Some(amount);
    hide PM.BuyAmount;
  }

  lemma {:induction false} AsksRepeatedly(r: PM.Rules, market: string, amount: real, n: nat) returns (events: seq<PM.Event>)
    requires PM.UPBIT_MIN_ORDER_KRW < amount <= PM.BuyCap(r)
    ensures PM.Possible(r, 0.0, events) && Asked(r, PM.After(r, 0.0, events).value, market, amount, n)
  {
    if n == 0 {
      var accounts := [PM.Account("KRW", amount, 0.0)];
      events := [PM.Refreshed(accounts)];
      assert PM.After(r, 0.0, []) == Some(PM.State(PM.EMPTY, [], 0.0)) && [] + events == events;
      PM.OneMore(r, 0.0, [], PM.Refreshed(accounts));
      hide PM.After;
      assert accounts[..0] == [];
      assert PM.Balances(PM.EMPTY, []) == PM.EMPTY;
      assert PM.Balances(PM.EMPTY, accounts) == PM.EMPTY.(krw := amount);
    } else {
      var before := AsksRepeatedly(r, market, amount, n - 1);
      var t := PM.ORDER_COOLDOWN * (n as real - 1.0);
      var e := PM.Decided(market, t, Direction.Buy, t);
      events := before + [e];
      var s := PM.After(r, 0.0, before).value;
      hide PM.After;
      AsksOnce(r, s, market, amount, n - 1, t);
      PM.OneMore(r, 0.0, before, e);
    }
  }

  /** Requests that are all the same purchase have been asked for. */
  lemma AskedFor(w: World, r: PM.Rules, market: string, amount: real, n: nat, events: seq<PM.Event>)
    requires PM.Possible(r, 0.0, events) && Asked(r, PM.After(r, 0.0, events).value, market, amount, n)
    requires |w.requests| <= n && forall o | o in w.requests :: o == PM.BuyFor(market, amount)
    ensures FedBy(w, r, 0.0, events)
  {
    var sent := PM.After(r, 0.0, events).value.sent;
    hide PM.After;
    forall i | 0 <= i < |w.requests| ensures PM.Orders(sent)[i] == w.requests[i] {
      assert sent[i] in sent && w.requests[i] in w.requests;
    }
  }

  lemma FedShareBroken(l: Limits, steps: seq<Step>, w: World, balance: real, market: string, t: Terms, r: PM.Rules,
                       events: seq<PM.Event>)
    requires Covered(l, false, Flat(balance), steps, balance, market, t, map[])
    requires Run(l, Start(false, Flat(balance)), steps) == Some(w) && Bounded(w) && FedBy(w, r, 0.0, events)
    requires Bought(w, market, t.start, map[]) > PositionCap(l, balance)
    ensures !FedShareHolds(l, balance, market, t, r)
  {
    NotWithin(l, steps, w, balance, market, t.start, map[], PositionCap(l, balance));
    assert FedRun(l, false, Flat(balance), steps, r, 0.0, events) by { hide FedBy; }
    hide Covered, BoughtWithin, Run, PositionCap, FedRun;
  }

  lemma FedSize(l: Limits, balance: real, r: PM.Rules) returns (amount: real, n: nat)
    requires Permissive(l, balance)
    requires PM.UPBIT_MIN_ORDER_KRW < Min(PM.BuyCap(r), Min(l.maxSingleOrderKrw, PositionCap(l, balance)))
    ensures PM.UPBIT_MIN_ORDER_KRW < amount <= PM.BuyCap(r) && Sized(l, balance, amount, Gaps(n, amount))
    ensures PositionCap(l, balance) < Gaps(n + 2, amount)
  {
    hide PositionCap, PM.BuyCap;
    amount := Min(PM.BuyCap(r), Min(l.maxSingleOrderKrw, PositionCap(l, balance)));
    n := Fitting(PositionCap(l, balance), amount);
    hide Gaps;
    GapsUpTo(n, amount);
  }

  lemma SameOrder(market: string, amount: real)
    ensures BuyOrder(market, amount) == PM.BuyFor(market, amount)
  {
  }

  /** The runs that exceed the share by more than one order are among those the portfolio manager can feed: with purchases above
      the exchange's minimum and within all limits, asked for a cooldown apart, valued at their cost and with nothing held
      before, the share is kept if and only if there is one attempt and one purchase at a time. */
  lemma FedShareHoldsIff(l: Limits, balance: real, market: string, each: nat, k: nat, r: PM.Rules)
    requires Permissive(l, balance) && each >= 1 && k >= 1
    requires PM.UPBIT_MIN_ORDER_KRW < Min(PM.BuyCap(r), Min(l.maxSingleOrderKrw, PositionCap(l, balance)))
    ensures FedShareHolds(l, balance, market, Terms(each, k, 1.0, 1.0, 0.0), r) <==> each == 1 && k == 1
  {
    var t := Terms(each, k, 1.0, 1.0, 0.0);
    if each == 1 && k == 1 {
      OneOrderHolds(l, balance, market, t);
      hide Covered, BoughtWithin, FedRun;
    } else {
      hide FedShareHolds, Permissive, PositionCap, Sized, Gaps, PM.BuyCap, BuyOrder;
      var amount, n := FedSize(l, balance, r);
      var steps, w := ShareExceeded(l, balance, market, t, amount, n);
      var events := AsksRepeatedly(r, market, amount, n + 2);
      SameOrder(market, amount);
      AskedFor(w, r, market, amount, n + 2, events);
      FedShareBroken(l, steps, w, balance, market, t, r, events);
    }
  }

  lemma FedSmallSize(l: Limits, balance: real, r: PM.Rules, bound: real) returns (amount: real, n: nat, part: real)
    requires Permissive(l, balance)
    requires PM.UPBIT_MIN_ORDER_KRW < Min(PM.BuyCap(r), Min(l.maxSingleOrderKrw, PositionCap(l, balance) / 2.0))
    ensures 0.0 < PM.UPBIT_MIN_ORDER_KRW < amount <= PM.BuyCap(r) && n >= 1 && Gaps(n, amount) > bound && 0.0 < part <= 1.0
    ensures 0.0 <= ViewValue(Echoed(part, amount)) <= amount && Part(0.0, amount) == 0.0 && Echoed(part, amount).state == Done
    ensures Sized(l, balance, amount, Gaps(n - 1, ViewValue(Echoed(part, amount))))
  {
    amount := Min(PM.BuyCap(r), Min(l.maxSingleOrderKrw, PositionCap(l, balance) / 2.0));
    assert Part(0.0, amount) == 0.0;
    hide PositionCap, PM.BuyCap, ViewValue, Part, Gaps, Echoed;
    n := EnoughPurchases(bound, amount);
    part := SmallPart(n - 1, amount);
    EchoedWorth(part, amount);
  }

  /** And the undervalued purchases are ones it asks for and the exchange may report: one at a time, each with a KRW amount, a
      price echoed and some of a unit bought, they exceed any bound. */
  lemma FedWithoutBound(l: Limits, balance: real, market: string, r: PM.Rules, bound: real)
    returns (steps: seq<Step>, w: World, events: seq<PM.Event>)
    requires Permissive(l, balance)
    requires PM.UPBIT_MIN_ORDER_KRW < Min(PM.BuyCap(r), Min(l.maxSingleOrderKrw, PositionCap(l, balance) / 2.0))
    ensures Covered(l, false, Flat(balance), steps, balance, market, Terms(1, 1, 0.0, 1.0, 0.0), map[])
    ensures Run(l, Start(false, Flat(balance)), steps) == Some(w) && FedBy(w, r, 0.0, events) && Smooth(w)
    ensures Bounded(w) && Bought(w, market, 0.0, map[]) > bound
  {
    hide *;
    var amount, n, part := FedSmallSize(l, balance, r, bound);
    var t := Terms(1, 1, 0.0, 1.0, 0.0);
    assert t.each == 1 && t.k == 1 && t.least == 0.0 && t.start == 0.0;
    steps, w := BoughtOneByOne(l, balance, market, t, amount, Echoed(part, amount), n);
    events := AsksRepeatedly(r, market, amount, n);
    SameOrder(market, amount);
    AskedFor(w, r, market, amount, n, events);
  }
}
