/** When the documented share of the balance really limits what goes into a market. */
module PipelineShare {
  import opened Prelude
  import opened Messages
  import opened RiskLedger
  import opened ExecutorMachine
  import opened OrderPipeline
  import opened PipelineFlow
  import opened PipelineExposure
  import opened PipelineHolding
  import opened PipelineAccepted
  import opened PipelineFills
  import opened PipelineRuns

  // ---- the runs the share is about

  /** Unique uuids, an empty ledger, a fixed balance, purchases that carry their amount, fills of no negative value, and what the
      terms grant. */
  ghost predicate Covered(l: Limits, dryRun: bool, risk: RiskState, steps: seq<Step>, balance: real, market: string,
                          t: Terms, proceeds: map<string, real>) {
    && UniqueUuids(steps) && EmptyLedger(risk) && risk.totalBalance == balance
    && Assumed(Orders(t.each), l, Start(dryRun, risk), steps) && BalanceFixed(steps, balance)
    && NeverMoreOpen(Orders(t.each), l, Start(dryRun, risk), steps, Some(market), t.k)
    && var w := Run(l, Start(dryRun, risk), steps).value;
       AttemptOf(w.exec.pc) <= t.each && PlacedByAmount(w) && Valued(w, t.least, t.most, proceeds)
  }

  ghost predicate BoughtWithin(l: Limits, dryRun: bool, risk: RiskState, steps: seq<Step>, market: string,
                               start: real, proceeds: map<string, real>, bound: real) {
    var w := Run(l, Start(dryRun, risk), steps);
    w.Some? && Bounded(w.value) && Bought(w.value, market, start, proceeds) <= bound
  }

  /** In every covered run, whatever sales bring in, what is bought stays within the documented share. */
  ghost predicate ShareHolds(l: Limits, balance: real, market: string, t: Terms) {
    forall dryRun, risk, steps, proceeds | Covered(l, dryRun, risk, steps, balance, market, t, proceeds) ::
      BoughtWithin(l, dryRun, risk, steps, market, t.start, proceeds, PositionCap(l, balance))
  }

  lemma BoughtFromStart(w: World, market: string, t: Terms, proceeds: map<string, real>)
    requires Bounded(w) && Valued(w, t.least, t.most, proceeds) && t.start >= 0.0
    ensures Bought(w, market, t.start, proceeds) <= t.start + Bought(w, market, 0.0, proceeds)
  {
    forall e | e in Settled(w) && Counts(e.result) && e.ticket.order.side != Bid
      ensures Brought(proceeds, e.result.orderUuid) >= 0.0
    {
      assert e in w.filled;
    }
    hide Valued, Settled, HeldAfter, Brought, AcceptedOpen;
    HeldFromStart(t.start, Settled(w), market, proceeds);
  }

  lemma BoundStands(l: Limits, w: World, market: string, t: Terms, proceeds: map<string, real>, bound: real)
    requires Sound(Orders(t.each), l, w) && t.each >= 1 && AttemptOf(w.exec.pc) <= t.each
    requires InHandOfLedger(Orders(t.each), w, market, proceeds, bound)
    requires Valued(w, t.least, t.most, proceeds) && t.start >= 0.0
    ensures Bounded(w) && Bought(w, market, t.start, proceeds) <= t.start + bound
  {
    hide Sound, Valued, AttemptOf, HeldAfter, Settled, Open, Krw, Bought;
    BoughtAtStake(l, t.each, w, market, proceeds);
    BoughtFromStart(w, market, t, proceeds);
  }

  /** The true bound, when no purchase is undervalued and no sale overvalued: what was held at the start, the share, and all
      possible orders but one of the largest size, as many for each purchase as there are attempts. */
  lemma BoughtUnderLag(l: Limits, dryRun: bool, risk: RiskState, steps: seq<Step>, balance: real, market: string,
                       t: Terms, proceeds: map<string, real>)
    requires Permissive(l, balance) && t.each >= 1 && t.least == 1.0 && t.most <= 1.0 && t.start >= 0.0
    requires Covered(l, dryRun, risk, steps, balance, market, t, proceeds)
    ensures BoughtWithin(l, dryRun, risk, steps, market, t.start, proceeds, t.start + ExposureBound(l, balance, t.each, t.k))
  {
    hide ExposureBound, PositionCap, AllFit, NeverMoreOpen, BalanceFixed, PurchasesCarryAmount, FillsNonnegative, Valued;
    hide Run, AttemptOf, EmptyLedger, UniqueUuids, Bought, InHandOfLedger, Sound;
    var w := Run(l, Start(dryRun, risk), steps).value;
    ValuedIsPrudent(w, t.most, proceeds);
    HeldUnderLag(Orders(t.each), l, dryRun, risk, steps, market, proceeds, t.k);
    AlwaysSound(Orders(t.each), l, dryRun, risk, steps);
    BoundStands(l, w, market, t, proceeds, ExposureBound(l, balance, t.each, t.k));
  }

  /** No run needs more than three attempts, so the bound with three holds of all. */
  lemma BoughtInAnyRun(l: Limits, dryRun: bool, risk: RiskState, steps: seq<Step>, balance: real, market: string,
                       k: nat, most: real, start: real, proceeds: map<string, real>)
    requires Permissive(l, balance) && EmptyLedger(risk) && risk.totalBalance == balance && UniqueUuids(steps)
    requires Runs(l, Start(dryRun, risk), steps) && BalanceFixed(steps, balance) && most <= 1.0 && start >= 0.0
    requires var w := Run(l, Start(dryRun, risk), steps).value;
             PurchasesCarryAmount(w) && PlacedByAmount(w) && FillsNonnegative(w) && Valued(w, 1.0, most, proceeds)
    requires NeverMoreOpen(Orders(3), l, Start(dryRun, risk), steps, Some(market), k)
    ensures BoughtWithin(l, dryRun, risk, steps, market, start, proceeds, start + ExposureBound(l, balance, 3, k))
  {
    ThreeFitAll(Orders(3), l, dryRun, risk, steps);
    InvAlways(l, dryRun, risk, steps);
    ThreeAttempts(Run(l, Start(dryRun, risk), steps).value);
    var t := Terms(3, k, 1.0, most, start);
    assert Covered(l, dryRun, risk, steps, balance, market, t, proceeds) by {
      hide Run, AllFit, NeverMoreOpen, PurchasesCarryAmount, FillsNonnegative, AttemptOf, EmptyLedger, UniqueUuids, Valued;
    }
    hide *;
    BoughtUnderLag(l, dryRun, risk, steps, balance, market, t, proceeds);
  }

  lemma SmallBound(l: Limits, balance: real)
    ensures ExposureBound(l, balance, 1, 1) == PositionCap(l, balance)
  {
    hide PositionCap;
    TimesPlus(0, 0, l.maxSingleOrderKrw);
  }

  /** With one order at a time, prudent values and nothing held before, the documented share is kept in every run. */
  lemma OneOrderHolds(l: Limits, balance: real, market: string, t: Terms)
    requires Permissive(l, balance) && t.each == 1 && t.k == 1 && t.least == 1.0 && t.most <= 1.0 && t.start == 0.0
    ensures ShareHolds(l, balance, market, t)
  {
    hide Covered, BoughtWithin, PositionCap, ExposureBound, Permissive;
    forall dryRun, risk, steps, proceeds | Covered(l, dryRun, risk, steps, balance, market, t, proceeds)
      ensures BoughtWithin(l, dryRun, risk, steps, market, t.start, proceeds, PositionCap(l, balance))
    {
      BoughtUnderLag(l, dryRun, risk, steps, balance, market, t, proceeds);
      SmallBound(l, balance);
    }
  }

  // ---- purchases one after the other

  function Flat(balance: real): RiskState {
    RiskState(true, map[], 0, balance, 0.0, 0.0, 0.0, map[], false)
  }

  /** Where the runs of the terms are built. */
  function For(l: Limits, balance: real, market: string, t: Terms): Setting {
    Setting(l, Start(false, Flat(balance)), market, Orders(t.each), t.k)
  }

  lemma SettingFacts(l: Limits, balance: real, market: string, t: Terms)
    requires t.each >= 1
    ensures var c := For(l, balance, market, t);
            && Ample(c.a) && c.a.each == t.each && c.k == t.k && c.l == l && c.market == market
            && c.w0 == Start(false, Flat(balance))
  {
  }

  lemma NothingDone(c: Setting, balance: real)
    requires c.w0 == Start(false, Flat(balance))
    ensures Reached(c, [], c.w0)
  {
    NothingOpen(c.a, false, Flat(balance));
    hide Open;
  }

  lemma NothingHeld(market: string, balance: real, t: Terms, proceeds: map<string, real>)
    ensures Holding(Start(false, Flat(balance)), market, balance, 0.0, t.start, t, proceeds)
    ensures Smooth(Start(false, Flat(balance)))
  {
  }

  lemma GapsUpTo(n: nat, amount: real)
    requires amount >= 0.0
    ensures 0.0 <= Gaps(n, amount) <= Gaps(n + 1, amount)
    ensures Gaps(n + 1, amount) == Gaps(n, amount) + amount
    ensures Gaps(0, amount) == 0.0
  {
    assert 0.0 <= Gaps(n, amount) by { MulMonotone(0.0, n as real, amount); }
    hide Gaps;
    OneMoreGap(n + 1, amount);
  }

  /** n purchases of the same size, each reported in the same way. */
  lemma {:induction false} Accumulate(c: Setting, balance: real, t: Terms, proceeds: map<string, real>, amount: real,
                                      view: OrderView, n: nat)
    returns (steps: seq<Step>, w: World)
    requires c.w0 == Start(false, Flat(balance)) && Ample(c.a) && c.k >= 1 && view.state == Done && amount > 0.0
    requires 0.0 <= ViewValue(view) && Part(t.least, amount) <= ViewValue(view) <= amount
    requires n > 0 ==> Sized(c.l, balance, amount, Gaps(n - 1, ViewValue(view)))
    ensures Reached(c, steps, w)
    ensures Holding(w, c.market, balance, Gaps(n, ViewValue(view)), t.start + Gaps(n, amount), t, proceeds)
    ensures |w.requests| == |w.calls| == n && forall o | o in w.requests :: o == BuyOrder(c.market, amount)
    ensures Smooth(w)
  {
    hide Reached, Holding, ViewValue, Part, Gaps, PositionCap;
    GapsUpTo(0, amount);
    GapsUpTo(0, ViewValue(view));
    if n == 0 {
      steps, w := [], c.w0;
      NothingDone(c, balance);
      NothingHeld(c.market, balance, t, proceeds);
    } else {
      GapsUpTo(n - 1, amount);
      GapsUpTo(n - 1, ViewValue(view));
      if n > 1 { GapsUpTo(n - 2, ViewValue(view)); }
      steps, w := Accumulate(c, balance, t, proceeds, amount, view, n - 1);
      steps, w := BuyOnce(c, steps, w, balance, Gaps(n - 1, ViewValue(view)), t.start + Gaps(n - 1, amount), t, proceeds,
                          amount, view);
    }
  }

  lemma HoldingFacts(w: World, market: string, balance: real, position: real, held: real, t: Terms, proceeds: map<string, real>)
    requires Holding(w, market, balance, position, held, t, proceeds)
    ensures Bounded(w) && Bought(w, market, t.start, proceeds) == held && AttemptOf(w.exec.pc) == 0
    ensures Dealt(w, t, proceeds) && PositionOf(w.risk.positions, market) == position
    ensures w.stray == [] && w.settled == |w.filled|
  {
    assert w.filled[..w.settled] == w.filled && AcceptedOpen(w) == [];
    NothingWeighs(market);
    hide Dealt, HeldAfter;
  }

  lemma ReachedIsCovered(l: Limits, balance: real, market: string, t: Terms, proceeds: map<string, real>, steps: seq<Step>,
                         w: World)
    requires Reached(For(l, balance, market, t), steps, w) && Dealt(w, t, proceeds) && AttemptOf(w.exec.pc) <= t.each
    ensures Covered(l, false, Flat(balance), steps, balance, market, t, proceeds)
    ensures Run(l, Start(false, Flat(balance)), steps) == Some(w)
  {
    WithinAreNonnegative(w);
    hide Run, NeverMoreOpen, AllFit, AttemptOf, Valued, PurchasesCarryAmount, FillsWithinApproval, FillsNonnegative;
    hide UniqueUuids, PlacedByAmount;
  }

  // ---- more than one order at a time

  /** Two purchases of the amount are with the exchange that the ledger of the earlier state does not know of. */
  ghost predicate Exceeding(v: World, w: World, market: string, amount: real, t: Terms, proceeds: map<string, real>) {
    && Bounded(w) && AttemptOf(w.exec.pc) <= 2 && Settled(w) == v.filled && Dealt(w, t, proceeds)
    && (exists t1, t2 :: AcceptedOpen(w) == [t1, t2] && t1.order == BuyOrder(market, amount) == t2.order)
    && (exists more: seq<OrderRequest> ::
          && 1 <= |more| <= 2 && w.requests == v.requests + more && forall o | o in more :: o == BuyOrder(market, amount))
  }

  lemma IsExceeding(v: World, w: World, market: string, amount: real, t: Terms, proceeds: map<string, real>,
                    t1: Ticket, t2: Ticket, more: seq<OrderRequest>)
    requires Bounded(w) && AttemptOf(w.exec.pc) <= 2 && Settled(w) == v.filled && Dealt(w, t, proceeds)
    requires AcceptedOpen(w) == [t1, t2] && t1.order == BuyOrder(market, amount) == t2.order
    requires 1 <= |more| <= 2 && w.requests == v.requests + more && forall o | o in more :: o == BuyOrder(market, amount)
    ensures Exceeding(v, w, market, amount, t, proceeds)
  {
    hide AcceptedOpen, Dealt, Settled, AttemptOf;
  }

  /** The exchange reports a purchase as bought in full. */
  function Exact(amount: real): OrderView {
    OrderView(Done, Some(1.0), Some(amount), None)
  }

  lemma ExactIsFair(amount: real, least: real)
    requires amount > 0.0 && least <= 1.0
    ensures ViewValue(Exact(amount)) == amount && Part(least, amount) <= amount && Exact(amount).state == Done
  {
    MulMonotone(least, 1.0, amount);
  }

  /** Both are approved before either is placed. */
  lemma ApproveTwo(c: Setting, steps: seq<Step>, v: World, o: OrderRequest) returns (longer: seq<Step>, w: World)
    requires Reached(c, steps, v) && Ample(c.a) && c.k >= 2 && WithinLimits(c.l, v.risk, o)
    requires Waiting(v, 0) && v.judged == |v.requests| && v.settled == |v.filled| && v.stray == []
    ensures Reached(c, longer, w)
    ensures var t1, t2 := Ticket(v.judged, o), Ticket(v.judged + 1, o);
            w == v.(requests := v.requests + [o, o], judged := v.judged + 2, approved := v.approved + [t1, t2])
  {
    hide Reached, WithinLimits;
    var t1, t2 := Ticket(v.judged, o), Ticket(v.judged + 1, o);
    longer, w := Approve(c, steps, v, o, {t1, t2});
    longer, w := Approve(c, longer, w, o, {t1, t2});
    assert v.requests + [o] + [o] == v.requests + [o, o] && v.approved + [t1] + [t2] == v.approved + [t1, t2];
  }

  /** The first of two approved purchases fills, and the second is placed before the ledger has heard. */
  lemma FillThenPlace(c: Setting, steps: seq<Step>, v: World, amount: real, t1: Ticket, t2: Ticket)
    returns (longer: seq<Step>, w: World)
    requires Reached(c, steps, v) && Ample(c.a) && c.k >= 2 && Waiting(v, 2)
    requires v.approved[v.taken..] == [t1, t2] && v.settled == |v.filled| && v.stray == []
    requires t1.order == t2.order == BuyOrder(c.market, amount)
    ensures Reached(c, longer, w)
    ensures w.requests == v.requests && w.settled == v.settled && AttemptOf(w.exec.pc) == 1
    ensures w.filled == v.filled + [Entry(t1, ResultOf(t1.order, Uuid(|v.calls|), Exact(amount)), true)]
    ensures Bounded(w) && AcceptedOpen(w) == [t2, t1]
  {
    hide Reached, ResultOf;
    assert v.approved[v.taken] == t1 && v.approved[v.taken + 1] == t2;
    assert About(c.a, v, {t1, t2});
    longer, w := Place(c, steps, v, t1, {t1, t2});
    longer, w := Fill(c, longer, w, t1, Uuid(|v.calls|), Exact(amount), {t1, t2});
    longer, w := Place(c, longer, w, t2, {t1, t2});
  }

  lemma SameDealings(v: World, w: World, t: Terms, proceeds: map<string, real>)
    requires Dealt(v, t, proceeds) && w.filled == v.filled
    requires forall o | o in w.requests && o.side == Bid ::
               o in v.requests || (o == BuyOrder(o.market, AmountKrw(o)) && AmountKrw(o) > 0.0)
    ensures Dealt(w, t, proceeds)
  {
    hide ValueOf, Part, Brought;
  }

  lemma DealtTwice(v: World, w: World, market: string, amount: real, t: Terms, proceeds: map<string, real>, tk: Ticket,
                   u: string)
    requires Dealt(v, t, proceeds) && amount > 0.0 && t.least <= 1.0 && tk.order == BuyOrder(market, amount)
    requires w.requests == v.requests + [tk.order, tk.order]
    requires w.filled == v.filled + [Entry(tk, ResultOf(tk.order, u, Exact(amount)), true)]
    ensures Dealt(w, t, proceeds)
  {
    ExactIsFair(amount, t.least);
    FairPurchase(tk.order, u, Exact(amount), t, proceeds);
    hide Fair, ResultOf, Valued, FillsWithinApproval;
    var once := v.(requests := v.requests + [tk.order], filled := w.filled);
    DealtMore(v, once, t, proceeds, tk, ResultOf(tk.order, u, Exact(amount)));
    SameDealings(once, w, t, proceeds);
  }

  lemma HoldingParts(v: World, a: Account, market: string, balance: real, position: real, held: real, t: Terms,
                     proceeds: map<string, real>)
    requires Holding(v, market, balance, position, held, t, proceeds)
    ensures Waiting(v, 0) && v.judged == |v.requests| && v.settled == |v.filled| && v.stray == [] && Strays(a, v) == []
    ensures v.taken == |v.approved|
    ensures Untroubled(v.risk, market, position, balance) && Dealt(v, t, proceeds)
  {
    hide Untroubled, Dealt, HeldAfter;
  }

  lemma SizedIsPositive(l: Limits, balance: real, amount: real, position: real)
    requires Sized(l, balance, amount, position)
    ensures amount > 0.0
  {
    hide PositionCap;
  }

  lemma TwoApproved(c: Setting, steps: seq<Step>, v: World, balance: real, position: real, held: real, t: Terms,
                    proceeds: map<string, real>, amount: real)
    returns (longer: seq<Step>, w: World)
    requires Sized(c.l, balance, amount, position) && Reached(c, steps, v) && Ample(c.a) && c.k >= 2 && t.least <= 1.0
    requires Holding(v, c.market, balance, position, held, t, proceeds)
    ensures Reached(c, longer, w) && Exceeding(v, w, c.market, amount, t, proceeds) && AttemptOf(w.exec.pc) == 1
  {
    var o := BuyOrder(c.market, amount);
    var t1, t2, u: World := Ticket(v.judged, o), Ticket(v.judged + 1, o), *;
    hide Reached, Holding, Sized;
    HoldingParts(v, c.a, c.market, balance, position, held, t, proceeds);
    SizedIsPositive(c.l, balance, amount, position);
    hide Dealt, Untroubled, WithinLimits, Exceeding, ResultOf;
    Admissible(c.l, v.risk, c.market, amount, position, balance);
    longer, u := ApproveTwo(c, steps, v, o);
    assert u.approved[u.taken..] == [t1, t2];
    longer, w := FillThenPlace(c, longer, u, amount, t1, t2);
    DealtTwice(v, w, c.market, amount, t, proceeds, t1, Uuid(|v.calls|));
    assert Settled(w) == v.filled;
    IsExceeding(v, w, c.market, amount, t, proceeds, t2, t1, [o, o]);
  }

  /** An approved purchase is placed, the reply is lost although the order was accepted, and it is tried again. */
  lemma LoseReply(c: Setting, steps: seq<Step>, w: World, t: Ticket, attempt: nat)
    returns (longer: seq<Step>, w': World)
    requires Reached(c, steps, w) && Ample(c.a) && c.k >= 1 && Bounded(w) && 1 <= attempt < MAX_RETRIES
    requires w.hand == Some(t) && w.exec == Exec(false, Creating(t.order, attempt), {}, Running) && attempt <= c.a.each
    requires About(c.a, w, {t})
    ensures w' == w.(calls := w.calls + [Call(t, PlacementOf(t.order), true)], stray := w.stray + [t],
                     exec := Exec(false, Creating(t.order, attempt + 1), {}, Running))
    ensures Reached(c, longer, w') && About(c.a, w', {t})
  {
    hide Reached, BackoffSeconds;
    var w1 := w.(calls := w.calls + [Call(t, PlacementOf(t.order), true)], stray := w.stray + [t],
                 exec := Exec(false, BackingOff(t.order, attempt), {}, Running));
    longer := Go(c, steps, w, Execute(CreateRaised(Some(Uuid(|w.calls|)))), w1, {t});
    w' := w1.(exec := Exec(false, Creating(t.order, attempt + 1), {}, Running));
    longer := Go(c, longer, w1, Execute(BackoffSlept(BackoffSeconds(attempt))), w', {t});
  }

  lemma AcceptAgain(c: Setting, steps: seq<Step>, w: World, t: Ticket) returns (longer: seq<Step>, w': World)
    requires Reached(c, steps, w) && Ample(c.a) && c.a.each >= 2 && c.k >= 1 && Bounded(w)
    requires w.hand == Some(t) && w.exec == Exec(false, Creating(t.order, 2), {}, Running)
    requires About(c.a, w, {t}) && w.settled == |w.filled| && w.stray == [t]
    ensures var u := Uuid(|w.calls|);
            w' == w.(exec := Exec(false, Sleeping(t.order, 2, u, 0), {u}, Running),
                     calls := w.calls + [Call(t, PlacementOf(t.order), true)])
    ensures Reached(c, longer, w') && AcceptedOpen(w') == [t, t]
  {
    hide Reached, PlacementOf;
    var u := Uuid(|w.calls|);
    w' := w.(exec := Exec(false, Sleeping(t.order, 2, u, 0), {u}, Running),
             calls := w.calls + [Call(t, PlacementOf(t.order), true)]);
    assert w.exec.pending + {u} == {u};
    longer := Go(c, steps, w, Execute(CreateReturned(u)), w', {t});
  }

  lemma LoseTwice(c: Setting, steps: seq<Step>, w: World, t: Ticket) returns (longer: seq<Step>, w': World)
    requires Reached(c, steps, w) && Ample(c.a) && c.a.each >= 2 && c.k >= 1 && Waiting(w.(hand := None, exec := IDLE), 0)
    requires w.hand == Some(t) && w.exec == Exec(false, Creating(t.order, 1), {}, Running)
    requires w.settled == |w.filled| && w.stray == [] && About(c.a, w, {t})
    ensures Reached(c, longer, w') && Bounded(w') && AcceptedOpen(w') == [t, t] && AttemptOf(w'.exec.pc) == 2
    ensures w'.requests == w.requests && w'.filled == w.filled && w'.settled == w.settled
  {
    hide Reached, About, PlacementOf;
    longer, w' := LoseReply(c, steps, w, t, 1);
    longer, w' := AcceptAgain(c, longer, w', t);
  }

  lemma AllSettled(v: World, w: World)
    requires Bounded(w) && w.filled[..w.settled] == v.filled
    ensures Settled(w) == v.filled
  {
  }

  /** One approved purchase is placed twice, and the exchange has accepted both orders. */
  lemma ReplacedOnce(c: Setting, steps: seq<Step>, v: World, balance: real, position: real, held: real, t: Terms,
                     proceeds: map<string, real>, amount: real)
    returns (longer: seq<Step>, w: World)
    requires Sized(c.l, balance, amount, position) && Reached(c, steps, v)
    requires Ample(c.a) && c.a.each >= 2 && c.k >= 1 && Holding(v, c.market, balance, position, held, t, proceeds)
    ensures Reached(c, longer, w) && Exceeding(v, w, c.market, amount, t, proceeds)
  {
    hide Holding, Sized, Reached;
    var o, tk := BuyOrder(c.market, amount), Ticket(v.judged, BuyOrder(c.market, amount));
    assert o.side == Bid && o == BuyOrder(o.market, AmountKrw(o)) && AmountKrw(o) == amount;
    HoldingParts(v, c.a, c.market, balance, position, held, t, proceeds);
    SizedIsPositive(c.l, balance, amount, position);
    hide *;
    Admissible(c.l, v.risk, c.market, amount, position, balance);
    longer, w := ApproveAndTake(c, steps, v, o);
    longer, w := LoseTwice(c, longer, w, tk);
    SameDealings(v, w, t, proceeds);
    AllSettled(v, w);
    IsExceeding(v, w, c.market, amount, t, proceeds, tk, tk, [o]);
  }

  lemma TwoWeigh(v: World, w: World, market: string, amount: real, t: Terms, proceeds: map<string, real>)
    requires Exceeding(v, w, market, amount, t, proceeds)
    ensures Bounded(w)
    ensures Bought(w, market, t.start, proceeds) == HeldAfter(t.start, v.filled, market, proceeds) + amount + amount
  {
    hide Dealt, HeldAfter;
    var t1, t2 :| AcceptedOpen(w) == [t1, t2] && t1.order == BuyOrder(market, amount) == t2.order;
    assert [t1, t2][..1] == [t1] && [t1][..0] == [];
    assert Krw(market, [t1]) == amount;
  }

  lemma RequestsOf(v: World, w: World, market: string, amount: real, t: Terms, proceeds: map<string, real>, n: nat)
    requires Exceeding(v, w, market, amount, t, proceeds) && |v.requests| == n
    requires forall o | o in v.requests :: o == BuyOrder(market, amount)
    ensures |w.requests| <= n + 2 && forall o | o in w.requests :: o == BuyOrder(market, amount)
  {
    hide AcceptedOpen, Dealt;
    var more: seq<OrderRequest> :|
      1 <= |more| <= 2 && w.requests == v.requests + more && forall o | o in more :: o == BuyOrder(market, amount);
  }

  lemma ExceedingFacts(v: World, w: World, market: string, amount: real, t: Terms, proceeds: map<string, real>)
    requires Exceeding(v, w, market, amount, t, proceeds)
    ensures Dealt(w, t, proceeds) && AttemptOf(w.exec.pc) <= 2
  {
    hide AcceptedOpen, Dealt, AttemptOf;
  }

  lemma SizedBefore(l: Limits, balance: real, amount: real, n: nat)
    requires n > 0 && Sized(l, balance, amount, Gaps(n, amount))
    ensures Sized(l, balance, amount, Gaps(n - 1, amount))
  {
    GapsUpTo(n - 1, amount);
    hide Gaps, PositionCap;
  }

  lemma HeldOf(w: World, market: string, balance: real, position: real, held: real, t: Terms, proceeds: map<string, real>)
    requires Holding(w, market, balance, position, held, t, proceeds)
    ensures HeldAfter(t.start, w.filled, market, proceeds) == held
  {
    hide Dealt, HeldAfter, Untroubled;
  }

  lemma TwoMore(c: Setting, steps: seq<Step>, v: World, balance: real, position: real, held: real, t: Terms,
                proceeds: map<string, real>, amount: real)
    returns (longer: seq<Step>, w: World)
    requires Sized(c.l, balance, amount, position) && Reached(c, steps, v) && t.least <= 1.0
    requires Ample(c.a) && c.k >= 1 && (c.a.each >= 2 || c.k >= 2) && Holding(v, c.market, balance, position, held, t, proceeds)
    ensures Reached(c, longer, w) && Exceeding(v, w, c.market, amount, t, proceeds)
    ensures c.k >= 2 ==> AttemptOf(w.exec.pc) == 1
  {
    hide Reached, Exceeding, Holding, Sized, AttemptOf;
    if c.k >= 2 {
      longer, w := TwoApproved(c, steps, v, balance, position, held, t, proceeds, amount);
    } else {
      longer, w := ReplacedOnce(c, steps, v, balance, position, held, t, proceeds, amount);
    }
  }

  /** After n purchases of a size that fits n + 1 times, two more orders are with the exchange. */
  lemma ShareExceeded(l: Limits, balance: real, market: string, t: Terms, amount: real, n: nat)
    returns (steps: seq<Step>, w: World)
    requires Sized(l, balance, amount, Gaps(n, amount)) && t.least <= 1.0
    requires t.each >= 1 && t.k >= 1 && (t.each >= 2 || t.k >= 2)
    ensures Covered(l, false, Flat(balance), steps, balance, market, t, map[])
    ensures Run(l, Start(false, Flat(balance)), steps) == Some(w) && Bounded(w)
    ensures Bought(w, market, t.start, map[]) == t.start + Gaps(n + 2, amount)
    ensures |w.requests| <= n + 2 && forall o | o in w.requests :: o == BuyOrder(market, amount)
  {
    hide *;
    SizedIsPositive(l, balance, amount, Gaps(n, amount));
    var c, v: World := For(l, balance, market, t), *;
    SettingFacts(l, balance, market, t);
    ExactIsFair(amount, t.least);
    GapsUpTo(n, amount);
    GapsUpTo(n + 1, amount);
    if n > 0 { SizedBefore(l, balance, amount, n); }
    steps, v := Accumulate(c, balance, t, map[], amount, Exact(amount), n);
    steps, w := TwoMore(c, steps, v, balance, Gaps(n, amount), t.start + Gaps(n, amount), t, map[], amount);
    HeldOf(v, market, balance, Gaps(n, amount), t.start + Gaps(n, amount), t, map[]);
    ExceedingFacts(v, w, market, amount, t, map[]);
    TwoWeigh(v, w, market, amount, t, map[]);
    RequestsOf(v, w, market, amount, t, map[], n);
    ReachedIsCovered(l, balance, market, t, map[], steps, w);
  }
}
