/** How many markets can be open at once when purchases in flight are not yet on the ledger. */
module PipelineOpenPositions {
  import opened Prelude
  import opened Messages
  import opened RiskLedger
  import opened OrderPipeline
  import opened PipelineFlow
  import opened PipelineExposure

  function MarketsOf(ts: set<Ticket>): set<string> {
    set t | t in ts :: t.order.market
  }

  /** Markets with a positive position, and markets that an open purchase may still open. */
  function Touched(a: Account, w: World): set<string>
    requires Bounded(w)
  {
    Positive(w.risk.positions) + MarketsOf(Purchases(Open(a, w), None))
  }

  lemma {:induction false} FewerMarketsThanTickets(ts: set<Ticket>)
    ensures |MarketsOf(ts)| <= |ts|
  {
    if ts == {} {
      assert MarketsOf(ts) == {};
    } else {
      var t :| t in ts;
      FewerMarketsThanTickets(ts - {t});
      assert MarketsOf(ts) == MarketsOf(ts - {t}) + {t.order.market};
    }
  }

  lemma MarketsOfBag(ts: seq<Ticket>, ts': seq<Ticket>, entering: multiset<Ticket>, leaving: multiset<Ticket>)
    requires multiset(ts') + leaving <= multiset(ts) + entering
    ensures forall t | t in Purchases(ts', None) :: t in Purchases(ts, None) || t in entering
    ensures MarketsOf(Purchases(ts', None))
         <= MarketsOf(Purchases(ts, None)) + set t | t in entering && Buys(t, None) :: t.order.market
  {
    forall t | t in Purchases(ts', None) ensures t in Purchases(ts, None) || t in entering {
      assert t in multiset(ts');
      Pointwise(multiset(ts') + leaving, multiset(ts) + entering, t);
      if t in multiset(ts) { assert t in ts; }
    }
  }

  lemma CardinalityMonotone<T>(a: set<T>, b: set<T>)
    requires a <= b
    ensures |a| <= |b|
  {
    assert b == a + (b - a);
  }

  lemma CardinalityOfUnion<T>(a: set<T>, b: set<T>)
    ensures |a + b| <= |a| + |b|
  {
    assert a + b == a + (b - a);
    CardinalityMonotone(b - a, b);
  }

  /** A result of nonnegative value opens no market but its own, and only by a purchase. */
  lemma PositiveAfter(s: RiskState, r: OrderResult)
    requires Counts(r) ==> ValueOf(r) >= 0.0
    ensures Positive(ApplyResult(s, r).positions)
         <= Positive(s.positions) + if Counts(r) && r.side == Bid then {r.market} else {}
  {
    hide ValueOf;
  }

  /** Markets touched by a state whose bag of purchases is known only up to what entered. */
  lemma TouchedAfter(a: Account, w: World, w': World, entering: multiset<Ticket>, leaving: multiset<Ticket>)
    requires Bounded(w) && Bounded(w')
    requires multiset(Open(a, w')) + leaving <= multiset(Open(a, w)) + entering
    requires Positive(w'.risk.positions) <= Positive(w.risk.positions)
    ensures Touched(a, w') <= Touched(a, w) + set t | t in entering && Buys(t, None) :: t.order.market
  {
    hide Open, Positive, Purchases, MarketsOf, Buys;
    MarketsOfBag(Open(a, w), Open(a, w'), entering, leaving);
  }

  lemma SettledTouches(a: Account, w: World, w': World, e: Entry, leaving: multiset<Ticket>)
    requires Bounded(w) && Bounded(w') && Answers(e.result, e.ticket.order)
    requires multiset(Open(a, w')) + leaving <= multiset(Open(a, w)) + multiset{}
    requires leaving == if Counts(e.result) then multiset{e.ticket} else multiset{}
    requires Positive(w'.risk.positions)
          <= Positive(w.risk.positions) + if Counts(e.result) && e.result.side == Bid then {e.result.market} else {}
    ensures Touched(a, w') <= Touched(a, w)
  {
    hide Open, Positive;
    MarketsOfBag(Open(a, w), Open(a, w'), multiset{}, leaving);
    if Counts(e.result) {
      Pointwise(multiset(Open(a, w')) + leaving, multiset(Open(a, w)) + multiset{}, e.ticket);
      assert e.ticket in multiset(Open(a, w)) && e.ticket in Open(a, w);
      if e.result.side == Bid { assert e.ticket in Purchases(Open(a, w), None); }
    }
  }

  lemma SettleTouchesNothingNew(a: Account, l: Limits, w: World)
    requires Sound(a, l, w) && FillsNonnegative(w) && Can(w, SettleNext) && Fits(a, w, SettleNext)
    ensures Bounded(SettleEntry(w)) && Touched(a, SettleEntry(w)) <= Touched(a, w)
  {
    hide Open, OpenBag, AllModest, FewCopies, LedgerSound;
    var w', e := SettleEntry(w), w.filled[w.settled];
    assert e in w.filled && Answers(e.result, e.ticket.order);
    assert w'.risk == ApplyResult(w.risk, e.result);
    Flow(a, l, w, SettleNext);
    BagIsOpen(a, w);
    BagIsOpen(a, w');
    assert Entering(a, l, w, SettleNext) == multiset{};
    assert Leaving(w, SettleNext) == if Counts(e.result) then multiset{e.ticket} else multiset{};
    hide ValueOf;
    PositiveAfter(w.risk, e.result);
    hide *;
    SettledTouches(a, w, w', e, Leaving(w, SettleNext));
  }

  lemma OtherStepsTouchNothingNew(a: Account, l: Limits, w: World, s: Step)
    requires Sound(a, l, w) && Can(w, s) && !s.Judge? && !s.SettleNext? && Fits(a, w, s)
    ensures Bounded(Do(l, w, s)) && Touched(a, Do(l, w, s)) <= Touched(a, w)
  {
    hide Open, OpenBag, AllModest, FewCopies, LedgerSound;
    var w' := Do(l, w, s);
    Flow(a, l, w, s);
    BagIsOpen(a, w);
    BagIsOpen(a, w');
    PositionsUntouched(l, w, s);
    assert Entering(a, l, w, s) == multiset{} && Leaving(w, s) == multiset{};
    hide *;
    TouchedAfter(a, w, w', multiset{}, multiset{});
    assert (set t | t in multiset{} && Buys(t, None) :: t.order.market) == {};
  }

  lemma SamePositive(s: RiskState, s': RiskState)
    requires s'.positions == s.positions
    ensures Positive(s'.positions) <= Positive(s.positions)
  {
  }

  /** Markets that may be touched with k open purchases. */
  function Allowed(l: Limits, k: nat): int {
    if k == 0 || l.maxOpenPositions <= 0 then 0 else l.maxOpenPositions + k - 1
  }

  lemma AdmittedTouches(a: Account, l: Limits, w: World, w': World, t: Ticket, entering: multiset<Ticket>, k: nat)
    requires Bounded(w) && Bounded(w') && LedgerSound(w)
    requires w'.risk.positions == w.risk.positions
    requires entering == multiset{}[t := Each(a)] || entering == multiset{}
    requires Touched(a, w') <= Touched(a, w) + set x | x in entering && Buys(x, None) :: x.order.market
    requires t in entering && t.order.side == Bid
         ==> PositionOf(w.risk.positions, t.order.market) != 0.0 || w.risk.openPositions < l.maxOpenPositions
    requires multiset(Open(a, w')) == multiset(Open(a, w)) + entering
    requires |Touched(a, w)| <= Allowed(l, k) && |Purchases(Open(a, w'), None)| <= k
    ensures |Touched(a, w')| <= Allowed(l, k)
  {
    hide Open, MarketsOf;
    var entered := set x | x in entering && Buys(x, None) :: x.order.market;
    if t in entering && t.order.side == Bid && PositionOf(w.risk.positions, t.order.market) == 0.0 {
      assert t in multiset(Open(a, w')) && t in Purchases(Open(a, w'), None);
      FewerMarketsThanTickets(Purchases(Open(a, w'), None));
      CardinalityOfUnion(Positive(w'.risk.positions), MarketsOf(Purchases(Open(a, w'), None)));
    } else {
      assert entered <= Positive(w.risk.positions);
      CardinalityMonotone(Touched(a, w'), Touched(a, w));
    }
  }

  /** Admission touches a new market only when the open count is below the limit. */
  lemma AdmissionTouchesWithinBound(a: Account, l: Limits, w: World, k: nat)
    requires Sound(a, l, w) && Can(w, Judge) && Fits(a, w, Judge) && PurchasesCarryAmount(w)
    requires |Touched(a, w)| <= Allowed(l, k)
    requires Bounded(JudgeNext(l, w)) && |Purchases(Open(a, JudgeNext(l, w)), None)| <= k
    ensures |Touched(a, JudgeNext(l, w))| <= Allowed(l, k)
  {
    hide Open, OpenBag, AllModest, FewCopies, HandAgrees, Touched, Allowed, Purchases;
    var w', t := JudgeNext(l, w), NextTicket(w);
    JudgeLeavesPositions(l, w);
    FlowJudge(a, l, w);
    BagIsOpen(a, w);
    BagIsOpen(a, w');
    var entering := Entering(a, l, w, Judge);
    assert entering == (if Admits(l, w) then multiset{}[t := Each(a)] else multiset{});
    if Admits(l, w) { AdmittedPurchase(l, w); }
    hide *;
    assert multiset(Open(a, w')) + multiset{} == multiset(Open(a, w)) + entering;
    assert w'.risk.positions == w.risk.positions;
    SamePositive(w.risk, w'.risk);
    TouchedAfter(a, w, w', entering, multiset{});
    AdmittedTouches(a, l, w, w', t, entering, k);
  }

  lemma OpenPositionsStep(a: Account, l: Limits, w: World, s: Step, k: nat)
    requires Sound(a, l, w) && Can(w, s) && Fits(a, w, s) && PurchasesCarryAmount(w) && FillsNonnegative(w)
    requires |Touched(a, w)| <= Allowed(l, k)
    requires Bounded(Do(l, w, s)) && |Purchases(Open(a, Do(l, w, s)), None)| <= k
    ensures |Touched(a, Do(l, w, s))| <= Allowed(l, k)
  {
    hide Touched, Open, Purchases, Allowed, JudgeNext, SettleEntry, RouteVerdict, ExecuteEvent, FillsNonnegative;
    match s {
      case Judge => AdmissionTouchesWithinBound(a, l, w, k);
      case SettleNext =>
        SettleTouchesNothingNew(a, l, w);
        CardinalityMonotone(Touched(a, Do(l, w, s)), Touched(a, w));
      case _ =>
        OtherStepsTouchNothingNew(a, l, w, s);
        CardinalityMonotone(Touched(a, Do(l, w, s)), Touched(a, w));
    }
  }

  lemma NothingTouched(a: Account, dryRun: bool, risk: RiskState)
    requires EmptyLedger(risk)
    ensures Bounded(Start(dryRun, risk)) && Touched(a, Start(dryRun, risk)) == {}
  {
    NothingOpen(a, dryRun, risk);
    hide Open;
  }

  /** Open positions under lag. With at most k purchases open at any time, markets held plus markets that an open
      purchase may still open never exceed the documented maximum by more than k - 1, also when sales empty a
      market while a purchase in it is in flight, when fills reach the ledger twice, and with stray orders. */
  lemma {:induction false} OpenPositionsUnderLag(a: Account, l: Limits, dryRun: bool, risk: RiskState, steps: seq<Step>,
                                                 k: nat)
    requires EmptyLedger(risk) && Assumed(a, l, Start(dryRun, risk), steps)
    requires NeverMoreOpen(a, l, Start(dryRun, risk), steps, None, k)
    ensures var w := Run(l, Start(dryRun, risk), steps).value;
            Bounded(w) && |Touched(a, w)| <= Allowed(l, k)
  {
    var w0 := Start(dryRun, risk);
    assert Run(l, w0, []) == Some(w0);
    NothingTouched(a, dryRun, risk);
    hide Start, EmptyLedger, Run, Do, Can, Sound, Touched, Open, Purchases, Fits, AllFit, NeverMoreOpen, Allowed;
    if steps != [] {
      var init, s := steps[..|steps| - 1], steps[|steps| - 1];
      Before(l, w0, steps);
      AssumedBefore(a, l, w0, steps);
      NeverMorePrefix(a, l, w0, steps, None, k);
      OpenPositionsUnderLag(a, l, dryRun, risk, init, k);
      AlwaysSound(a, l, dryRun, risk, init);
      OpenPositionsStep(a, l, Run(l, w0, init).value, s, k);
    }
  }
}
