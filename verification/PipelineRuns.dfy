/** Runs of the pipeline built step by step: purchases and sales that go through, one after the other. */
module PipelineRuns {
  import opened Prelude
  import opened Messages
  import opened RiskLedger
  import opened ExecutorMachine
  import opened OrderPipeline
  import opened PipelineFlow
  import opened PipelineExposure
  import opened PipelineHolding
  import opened PipelineFills

  // ---- steps

  /** The uuid of the order that the exchange accepts at a step. */
  function UuidAt(s: Step): Option<string> {
    if s.Execute? then Accepted(s.event) else None
  }

  /** The exchange never gives the same uuid twice. */
  ghost predicate UniqueUuids(steps: seq<Step>) {
    forall i, j | 0 <= i < j < |steps| && UuidAt(steps[j]).Some? :: UuidAt(steps[i]) != UuidAt(steps[j])
  }

  ghost predicate UuidsBefore(steps: seq<Step>, n: nat) {
    forall i | 0 <= i < |steps| && UuidAt(steps[i]).Some? :: |UuidAt(steps[i]).value| < n
  }

  /** Where a run is built: limits and first state, a market, and how many purchases of it may be open, counted how. */
  datatype Setting = Setting(l: Limits, w0: World, market: string, a: Account, k: nat)

  ghost predicate Reached(c: Setting, steps: seq<Step>, w: World) {
    && Run(c.l, c.w0, steps) == Some(w) && AllFit(c.a, c.l, c.w0, steps)
    && NeverMoreOpen(c.a, c.l, c.w0, steps, Some(c.market), c.k)
    && (forall s | s in steps :: !s.Observe?)
    && UniqueUuids(steps) && UuidsBefore(steps, |w.calls|)
  }

  /** A name for the order of the n-th create call. */
  function Uuid(n: nat): (u: string)
    ensures |u| == n
  {
    seq(n, _ => 'u')
  }

  lemma UuidsLonger(steps: seq<Step>, s: Step, n: nat, n': nat)
    requires UniqueUuids(steps) && UuidsBefore(steps, n) && n <= n'
    requires UuidAt(s).Some? ==> UuidAt(s).value == Uuid(n) && n < n'
    ensures UniqueUuids(steps + [s]) && UuidsBefore(steps + [s], n')
  {
  }

  /** Only these tickets can be open. */
  predicate About(a: Account, w: World, ts: set<Ticket>)
    requires Bounded(w)
  {
    && (w.verdict.ToApprove? ==> w.verdict.ticket in ts)
    && (forall t | t in w.approved[w.taken..] :: t in ts)
    && (w.hand.Some? ==> w.hand.value in ts)
    && (forall t | t in TicketsIn(w.filled)[w.settled..] :: t in ts)
    && (forall t | t in Strays(a, w) :: t in ts)
  }

  /** Accounts that leave room for at least one attempt. */
  predicate Ample(a: Account) {
    !a.Once? && a.each >= 1
  }

  lemma {:induction false} RepeatedFrom(ts: seq<Ticket>, n: nat)
    ensures forall t | t in Repeated(ts, n) :: t in ts
  {
    if n > 0 { RepeatedFrom(ts, n - 1); }
  }

  lemma OpenIsAbout(a: Account, w: World, market: string, about: set<Ticket>)
    requires Bounded(w) && About(a, w, about)
    ensures |Purchases(Open(a, w), Some(market))| <= |about|
  {
    RepeatedFrom(Approving(w.verdict), Each(a));
    RepeatedFrom(w.approved[w.taken..], Each(a));
    RepeatedFrom(InHand(w.hand), Copies(a, w.exec.pc));
    hide Repeated, TicketsIn, Approving, Each, Copies;
    var open := Purchases(Open(a, w), Some(market));
    assert open <= about;
    assert about == open + (about - open);
  }

  lemma RunMore(l: Limits, w0: World, steps: seq<Step>, w: World, s: Step)
    requires Run(l, w0, steps) == Some(w) && Can(w, s)
    ensures Run(l, w0, steps + [s]) == Some(Do(l, w, s))
  {
    hide Do, Can;
    assert (steps + [s])[..|steps|] == steps;
  }

  lemma NeverMoreLonger(a: Account, l: Limits, w0: World, steps: seq<Step>, s: Step, market: Option<string>, k: nat)
    requires NeverMoreOpen(a, l, w0, steps, market, k) && OpenAtMost(a, l, w0, steps + [s], market, k)
    ensures NeverMoreOpen(a, l, w0, steps + [s], market, k)
  {
    hide OpenAtMost;
    var longer := steps + [s];
    forall i | 0 <= i <= |longer| ensures OpenAtMost(a, l, w0, longer[..i], market, k) {
      if i == |longer| {
        assert longer[..i] == longer;
      } else {
        assert longer[..i] == steps[..i] && OpenAtMost(a, l, w0, steps[..i], market, k);
      }
    }
  }

  lemma Go(c: Setting, steps: seq<Step>, w: World, s: Step, w': World, about: set<Ticket>) returns (longer: seq<Step>)
    requires Reached(c, steps, w) && Can(w, s) && Do(c.l, w, s) == w' && !s.Observe?
    requires Ample(c.a) && AttemptOf(w.exec.pc) <= c.a.each
    requires Bounded(w') && About(c.a, w', about) && |about| <= c.k && |w.calls| <= |w'.calls|
    requires UuidAt(s).Some? ==> UuidAt(s).value == Uuid(|w.calls|) && |w.calls| < |w'.calls|
    ensures longer == steps + [s] && Reached(c, longer, w')
  {
    hide Do, Can, Run, About, Open, AttemptOf, Bounded, UuidAt, Uuid, UniqueUuids, UuidsBefore;
    longer := steps + [s];
    RunMore(c.l, c.w0, steps, w, s);
    UuidsLonger(steps, s, |w.calls|, |w'.calls|);
    AllFitLonger(c.a, c.l, c.w0, steps, s);
    OpenIsAbout(c.a, w', c.market, about);
    NeverMoreLonger(c.a, c.l, c.w0, steps, s, Some(c.market), c.k);
  }

  // ---- one order from the request to the ledger

  function BuyOrder(market: string, amount: real): OrderRequest {
    OrderRequest(market, Bid, Market, None, None, Some(amount))
  }

  function SellOrder(market: string, volume: real): OrderRequest {
    OrderRequest(market, Ask, Market, None, Some(volume), None)
  }

  lemma AdmissionStep(l: Limits, w: World)
    requires Can(w, Judge) && WithinLimits(l, w.risk, w.requests[w.judged])
    ensures JudgeNext(l, w) == w.(judged := w.judged + 1, verdict := ToApprove(NextTicket(w)))
  {
    AdmittedIffWithinLimits(l, w.risk, w.requests[w.judged]);
    HaltsIffBreached(l, w.risk, w.requests[w.judged]);
    hide Validate, WithinLimits;
  }

  /** A request that is within the limits is on its way to the executor three steps later. */
  lemma Approve(c: Setting, steps: seq<Step>, w: World, o: OrderRequest, about: set<Ticket>)
    returns (longer: seq<Step>, w': World)
    requires Reached(c, steps, w) && WithinLimits(c.l, w.risk, o)
    requires w.verdict.NoVerdict? && w.judged == |w.requests| && Bounded(w)
    requires Ample(c.a) && AttemptOf(w.exec.pc) <= c.a.each
    requires About(c.a, w, about) && Ticket(w.judged, o) in about && |about| <= c.k
    ensures Reached(c, longer, w')
    ensures w' == w.(requests := w.requests + [o], judged := w.judged + 1, approved := w.approved + [Ticket(w.judged, o)])
  {
    hide Reached, WithinLimits, AttemptOf;
    var t := Ticket(w.judged, o);
    var w1 := w.(requests := w.requests + [o]);
    longer := Go(c, steps, w, Submit(o), w1, about);
    AdmissionStep(c.l, w1);
    assert NextTicket(w1) == t;
    var w2 := w1.(judged := w.judged + 1, verdict := ToApprove(t));
    longer := Go(c, longer, w1, Judge, w2, about);
    w' := w2.(verdict := NoVerdict, approved := w.approved + [t]);
    longer := Go(c, longer, w2, Route(true), w', about);
  }

  const IDLE := Exec(false, Idle, {}, Running)

  /** Nothing is under judgement or in hand, and n approved orders have not been taken. */
  predicate Waiting(w: World, n: nat) {
    w.verdict.NoVerdict? && w.exec == IDLE && w.hand == None && w.taken + n == |w.approved| && w.settled <= |w.filled|
  }

  lemma TakeNext(c: Setting, steps: seq<Step>, w: World, t: Ticket, about: set<Ticket>)
    returns (longer: seq<Step>, w': World)
    requires Reached(c, steps, w) && Ample(c.a) && w.taken < |w.approved| && w.approved[w.taken] == t
    requires Waiting(w, |w.approved| - w.taken) && About(c.a, w, about) && |about| <= c.k
    ensures w' == w.(taken := w.taken + 1, hand := Some(t), exec := Exec(false, Creating(t.order, 1), {}, Running))
    ensures Reached(c, longer, w') && About(c.a, w', about)
  {
    hide Reached;
    w' := w.(taken := w.taken + 1, hand := Some(t), exec := Exec(false, Creating(t.order, 1), {}, Running));
    assert w.approved[w.taken..] == [t] + w.approved[w.taken + 1..];
    longer := Go(c, steps, w, Execute(Take(t.order)), w', about);
  }

  /** The executor takes the next approved order and places it. */
  lemma Place(c: Setting, steps: seq<Step>, w: World, t: Ticket, about: set<Ticket>)
    returns (longer: seq<Step>, w': World)
    requires Reached(c, steps, w) && Ample(c.a) && w.taken < |w.approved| && w.approved[w.taken] == t
    requires Waiting(w, |w.approved| - w.taken) && About(c.a, w, about) && |about| <= c.k
    ensures var u := Uuid(|w.calls|);
            w' == w.(taken := w.taken + 1, hand := Some(t), calls := w.calls + [Call(t, PlacementOf(t.order), true)],
                     exec := Exec(false, Polling(t.order, 1, u, 1), {u}, Running))
    ensures Reached(c, longer, w') && About(c.a, w', about)
  {
    hide Reached, PlacementOf;
    var o, u, w1: World := t.order, Uuid(|w.calls|), *;
    longer, w1 := TakeNext(c, steps, w, t, about);
    assert w1.exec.pending + {u} == {u};
    var w2 := w1.(exec := Exec(false, Sleeping(o, 1, u, 0), {u}, Running), calls := w.calls + [Call(t, PlacementOf(o), true)]);
    longer := Go(c, longer, w1, Execute(CreateReturned(u)), w2, about);
    w' := w2.(exec := Exec(false, Polling(o, 1, u, 1), {u}, Running));
    longer := Go(c, longer, w2, Execute(PollSlept), w', about);
  }

  /** From a quiet state a request is approved and taken. */
  lemma ApproveAndTake(c: Setting, steps: seq<Step>, v: World, o: OrderRequest)
    returns (longer: seq<Step>, w: World)
    requires Reached(c, steps, v) && Ample(c.a) && c.k >= 1 && WithinLimits(c.l, v.risk, o)
    requires Waiting(v, 0) && v.judged == |v.requests| && v.settled == |v.filled| && Strays(c.a, v) == []
    ensures var t := Ticket(v.judged, o);
            w == v.(requests := v.requests + [o], judged := v.judged + 1, approved := v.approved + [t], taken := v.taken + 1,
                    hand := Some(t), exec := Exec(false, Creating(o, 1), {}, Running))
    ensures Reached(c, longer, w) && About(c.a, w, {Ticket(v.judged, o)})
  {
    hide Reached, WithinLimits;
    var t := Ticket(v.judged, o);
    longer, w := Approve(c, steps, v, o, {t});
    longer, w := TakeNext(c, longer, w, t, {t});
  }

  /** From a quiet state a request is approved, and the exchange accepts the order. */
  lemma ApproveAndPlace(c: Setting, steps: seq<Step>, v: World, o: OrderRequest)
    returns (longer: seq<Step>, w: World)
    requires Reached(c, steps, v) && Ample(c.a) && c.k >= 1 && WithinLimits(c.l, v.risk, o)
    requires Waiting(v, 0) && v.judged == |v.requests| && v.settled == |v.filled| && v.stray == []
    ensures var t, u := Ticket(v.judged, o), Uuid(|v.calls|);
            w == v.(requests := v.requests + [o], judged := v.judged + 1, approved := v.approved + [t], taken := v.taken + 1,
                    hand := Some(t), calls := v.calls + [Call(t, PlacementOf(o), true)],
                    exec := Exec(false, Polling(o, 1, u, 1), {u}, Running))
    ensures Reached(c, longer, w) && About(c.a, w, {Ticket(v.judged, o)})
  {
    hide Reached, WithinLimits, PlacementOf;
    var t := Ticket(v.judged, o);
    longer, w := Approve(c, steps, v, o, {t});
    longer, w := Place(c, longer, w, t, {t});
  }

  /** The exchange reports the order in hand as done. */
  lemma SeeFilled(c: Setting, steps: seq<Step>, w: World, t: Ticket, u: string, v: OrderView, about: set<Ticket>)
    returns (longer: seq<Step>, w': World)
    requires Reached(c, steps, w) && w.hand == Some(t) && Bounded(w) && Ample(c.a) && v.state == Done
    requires About(c.a, w, about) && |about| <= c.k
    requires w.exec == Exec(false, Polling(t.order, 1, u, 1), {u}, Running)
    ensures w' == w.(exec := Exec(false, PublishingFill(t.order, 1, ResultOf(t.order, u, v)), {}, Running))
    ensures Reached(c, longer, w') && About(c.a, w', about)
  {
    hide Reached;
    assert {u} - {u} == {};
    w' := w.(exec := Exec(false, PublishingFill(t.order, 1, ResultOf(t.order, u, v)), {}, Running));
    longer := Go(c, steps, w, Execute(GetReturned(u, v)), w', about);
  }

  /** The executor reports it to the stream. */
  lemma Fill(c: Setting, steps: seq<Step>, w: World, t: Ticket, u: string, v: OrderView, about: set<Ticket>)
    returns (longer: seq<Step>, w': World)
    requires Reached(c, steps, w) && w.hand == Some(t) && Bounded(w) && Ample(c.a) && v.state == Done
    requires w.exec == Exec(false, Polling(t.order, 1, u, 1), {u}, Running)
    requires About(c.a, w, about) && |about| <= c.k
    ensures Reached(c, longer, w')
    ensures w' == w.(filled := w.filled + [Entry(t, ResultOf(t.order, u, v), true)], hand := None, exec := IDLE)
  {
    hide Reached;
    var w1: World;
    longer, w1 := SeeFilled(c, steps, w, t, u, v, about);
    var r := ResultOf(t.order, u, v);
    hide ResultOf;
    w' := w1.(exec := IDLE, hand := None, filled := w.filled + [Entry(t, r, true)]);
    assert TicketsIn(w'.filled)[w.settled..] == TicketsIn(w.filled)[w.settled..] + [t];
    longer := Go(c, longer, w1, Execute(Published), w', about);
  }

  lemma SettleOne(c: Setting, steps: seq<Step>, w: World, about: set<Ticket>)
    returns (longer: seq<Step>, w': World)
    requires Reached(c, steps, w) && Waiting(w, 0) && w.settled + 1 == |w.filled| && Ample(c.a)
    requires Counts(w.filled[w.settled].result) && w.stray == [] && |about| <= c.k
    ensures Reached(c, longer, w')
    ensures w' == w.(settled := w.settled + 1, risk := ApplyResult(w.risk, w.filled[w.settled].result))
  {
    hide Reached, ApplyResult;
    w' := w.(settled := w.settled + 1, risk := ApplyResult(w.risk, w.filled[w.settled].result));
    assert w.stray + [] == w.stray;
    longer := Go(c, steps, w, SettleNext, w', about);
  }

  /** One order from the request to the ledger, with every reply as it should be. */
  lemma Trade(c: Setting, steps: seq<Step>, v: World, o: OrderRequest, view: OrderView)
    returns (longer: seq<Step>, w: World)
    requires Reached(c, steps, v) && Ample(c.a) && c.k >= 1 && WithinLimits(c.l, v.risk, o) && view.state == Done
    requires Waiting(v, 0) && v.judged == |v.requests| && v.settled == |v.filled| && v.stray == []
    ensures var t, r := Ticket(v.judged, o), ResultOf(o, Uuid(|v.calls|), view);
            w == v.(requests := v.requests + [o], judged := v.judged + 1, approved := v.approved + [t], taken := v.taken + 1,
                    calls := v.calls + [Call(t, PlacementOf(o), true)], filled := v.filled + [Entry(t, r, true)],
                    settled := v.settled + 1, risk := ApplyResult(v.risk, r))
    ensures Reached(c, longer, w)
  {
    var t, u := Ticket(v.judged, o), Uuid(|v.calls|);
    assert Counts(ResultOf(o, u, view));
    hide Reached, WithinLimits, PlacementOf, About, ResultOf, Counts;
    longer, w := ApproveAndPlace(c, steps, v, o);
    longer, w := Fill(c, longer, w, t, u, view, {t});
    longer, w := SettleOne(c, longer, w, {t});
  }

  // ---- what the ledger shows and what is held after such orders

  /** A ledger of one market on which no limit but those on size bears. */
  predicate Untroubled(s: RiskState, market: string, position: real, balance: real) {
    && s.enabled && !s.halted && s.dailyPnl == 0.0 && s.peakBalance == 0.0 && s.totalBalance == balance && s.prices == map[]
    && PositionOf(s.positions, market) == position >= 0.0
    && s.positions.Keys <= {market} && s.openPositions == |Positive(s.positions)|
  }

  /** Purchases carry an amount and fills are within it, and the ledger values them as it is said to. */
  ghost predicate Dealt(w: World, t: Terms, proceeds: map<string, real>) {
    && PurchasesCarryAmount(w) && PlacedByAmount(w) && FillsWithinApproval(w)
    && Valued(w, t.least, t.most, proceeds)
  }

  /** Nothing is open; the ledger shows a position, and something else may be held. */
  ghost predicate Holding(w: World, market: string, balance: real, position: real, held: real, t: Terms,
                          proceeds: map<string, real>) {
    && Waiting(w, 0) && w.judged == |w.requests| && w.settled == |w.filled| && w.stray == []
    && Untroubled(w.risk, market, position, balance)
    && HeldAfter(t.start, w.filled, market, proceeds) == held
    && Dealt(w, t, proceeds)
  }

  lemma UntroubledAfter(s: RiskState, r: OrderResult, market: string, position: real, balance: real, position': real)
    requires Untroubled(s, market, position, balance) && Counts(r) && r.market == market && 0.0 <= ValueOf(r)
    requires position' == if r.side == Ask then Max(0.0, position - ValueOf(r)) else position + ValueOf(r)
    ensures Untroubled(ApplyResult(s, r), market, position', balance)
  {
    hide ValueOf, Positive;
  }

  /** What may be said of a fill for the terms to be kept. */
  predicate Fair(o: OrderRequest, r: OrderResult, t: Terms, proceeds: map<string, real>) {
    && 0.0 <= ValueOf(r)
    && if o.side == Bid then Part(t.least, AmountKrw(o)) <= ValueOf(r) <= AmountKrw(o)
       else 0.0 <= Brought(proceeds, r.orderUuid) && ValueOf(r) <= Part(t.most, Brought(proceeds, r.orderUuid))
  }

  lemma DealtMore(w: World, w': World, t: Terms, proceeds: map<string, real>, tk: Ticket, r: OrderResult)
    requires Dealt(w, t, proceeds) && w'.requests == w.requests + [tk.order]
    requires w'.filled == w.filled + [Entry(tk, r, true)] && Fair(tk.order, r, t, proceeds)
    requires tk.order.side == Bid ==> tk.order == BuyOrder(tk.order.market, AmountKrw(tk.order)) && AmountKrw(tk.order) > 0.0
    ensures Dealt(w', t, proceeds)
  {
    hide ValueOf, Part, Brought;
  }

  lemma HoldingAfter(w: World, w': World, market: string, balance: real, position: real, held: real, t: Terms,
                     proceeds: map<string, real>, tk: Ticket, r: OrderResult, position': real)
    requires Holding(w, market, balance, position, held, t, proceeds) && Waiting(w', 0)
    requires w'.requests == w.requests + [tk.order] && w'.filled == w.filled + [Entry(tk, r, true)]
    requires w'.risk == ApplyResult(w.risk, r) && w'.judged == |w'.requests| && w'.settled == |w'.filled| && w'.stray == []
    requires Counts(r) && r.market == market && r.side == tk.order.side && Fair(tk.order, r, t, proceeds)
    requires tk.order.side == Bid ==> tk.order == BuyOrder(tk.order.market, AmountKrw(tk.order)) && AmountKrw(tk.order) > 0.0
    requires position' == if r.side == Ask then Max(0.0, position - ValueOf(r)) else position + ValueOf(r)
    ensures Holding(w', market, balance, position', HeldThen(held, Entry(tk, r, true), market, proceeds), t, proceeds)
  {
    DealtMore(w, w', t, proceeds, tk, r);
    assert 0.0 <= ValueOf(r);
    hide Dealt, Untroubled, ApplyResult, ValueOf, Fair, HeldThen;
    UntroubledAfter(w.risk, r, market, position, balance, position');
    HeldMore(t.start, w.filled, Entry(tk, r, true), market, proceeds);
  }

  /** Limits under which some purchase can be admitted at all. */
  predicate Permissive(l: Limits, balance: real) {
    && balance > 0.0 && PositionCap(l, balance) > 0.0 && l.maxPositionRatio >= 0.0
    && l.maxSingleOrderKrw > 0.0 && l.maxOpenPositions >= 1 && l.maxDailyLossKrw >= 0.0
  }

  /** A purchase that every limit admits beside that position. */
  predicate Sized(l: Limits, balance: real, amount: real, position: real) {
    Permissive(l, balance) && 0.0 < amount <= l.maxSingleOrderKrw && position + amount <= PositionCap(l, balance)
  }

  lemma Admissible(l: Limits, s: RiskState, market: string, amount: real, position: real, balance: real)
    requires Sized(l, balance, amount, position) && Untroubled(s, market, position, balance)
    ensures WithinLimits(l, s, BuyOrder(market, amount))
  {
    if position == 0.0 { assert Positive(s.positions) == {}; }
    hide SumValues;
  }

  lemma Sellable(l: Limits, s: RiskState, market: string, volume: real, position: real, balance: real)
    requires Permissive(l, balance) && Untroubled(s, market, position, balance)
    ensures WithinLimits(l, s, SellOrder(market, volume))
  {
    hide SumValues;
  }

  lemma FairPurchase(o: OrderRequest, u: string, view: OrderView, t: Terms, proceeds: map<string, real>)
    requires o.side == Bid && 0.0 <= ViewValue(view) && Part(t.least, AmountKrw(o)) <= ViewValue(view) <= AmountKrw(o)
    ensures Fair(o, ResultOf(o, u, view), t, proceeds) && ValueOf(ResultOf(o, u, view)) == ViewValue(view)
  {
    hide Part, Brought;
  }

  /** The exchange accepted every order it was asked for, and the executor heard that its fill reached the stream. */
  ghost predicate Smooth(w: World) {
    |w.calls| == |w.filled| && forall i | 0 <= i < |w.calls| ::
      w.calls[i].accepted && w.filled[i].ticket == w.calls[i].ticket && w.filled[i].heard && Counts(w.filled[i].result)
  }

  lemma SmoothMore(v: World, w: World, t: Ticket, p: Placement, r: OrderResult)
    requires w.calls == v.calls + [Call(t, p, true)] && w.filled == v.filled + [Entry(t, r, true)] && Counts(r)
    ensures Smooth(v) ==> Smooth(w)
  {
  }

  /** One more purchase that is done. */
  lemma BuyOnce(c: Setting, steps: seq<Step>, v: World, balance: real, position: real, held: real, t: Terms,
                proceeds: map<string, real>, amount: real, view: OrderView)
    returns (longer: seq<Step>, w: World)
    requires Reached(c, steps, v) && Ample(c.a) && c.k >= 1 && Holding(v, c.market, balance, position, held, t, proceeds)
    requires Sized(c.l, balance, amount, position) && view.state == Done
    requires 0.0 <= ViewValue(view) && Part(t.least, amount) <= ViewValue(view) <= amount
    ensures Reached(c, longer, w) && w.requests == v.requests + [BuyOrder(c.market, amount)] && |w.calls| == |v.calls| + 1
    ensures Smooth(v) ==> Smooth(w)
    ensures Holding(w, c.market, balance, position + ViewValue(view), held + amount, t, proceeds)
  {
    var o, u := BuyOrder(c.market, amount), Uuid(|v.calls|);
    var tk, r := Ticket(v.judged, o), ResultOf(o, u, view);
    assert AmountKrw(o) == amount > 0.0 && o == BuyOrder(o.market, AmountKrw(o));
    assert Counts(r) && r.market == c.market && r.side == o.side == Bid;
    assert HeldThen(held, Entry(tk, r, true), c.market, proceeds) == held + amount;
    assert Waiting(v, 0) && Untroubled(v.risk, c.market, position, balance) by { hide Dealt, Untroubled; }
    FairPurchase(o, u, view, t, proceeds);
    hide Reached, Dealt, Untroubled, ApplyResult, ResultOf, ViewValue, ValueOf, Part, Fair, HeldThen, PlacementOf, WithinLimits;
    hide Sized, Smooth;
    Admissible(c.l, v.risk, c.market, amount, position, balance);
    longer, w := Trade(c, steps, v, o, view);
    HoldingAfter(v, w, c.market, balance, position, held, t, proceeds, tk, r, position + ViewValue(view));
    SmoothMore(v, w, tk, PlacementOf(o), r);
  }

  /** One sale that is done, brings in what it does, and is valued as the exchange reports. */
  lemma SellOnce(c: Setting, steps: seq<Step>, v: World, balance: real, position: real, held: real, t: Terms,
                 proceeds: map<string, real>, view: OrderView)
    returns (longer: seq<Step>, w: World)
    requires Reached(c, steps, v) && Ample(c.a) && c.k >= 1 && Holding(v, c.market, balance, position, held, t, proceeds)
    requires Permissive(c.l, balance) && view.state == Done && 0.0 <= ViewValue(view) <= position
    requires var b := Brought(proceeds, Uuid(|v.calls|)); 0.0 <= b <= held && ViewValue(view) <= Part(t.most, b)
    ensures Reached(c, longer, w)
    ensures Holding(w, c.market, balance, position - ViewValue(view), held - Brought(proceeds, Uuid(|v.calls|)), t, proceeds)
  {
    var o, u := SellOrder(c.market, 1.0), Uuid(|v.calls|);
    var tk, r := Ticket(v.judged, o), ResultOf(o, u, view);
    assert Counts(r) && r.market == c.market && r.side == o.side == Ask && r.orderUuid == u;
    assert HeldThen(held, Entry(tk, r, true), c.market, proceeds) == held - Brought(proceeds, u);
    assert Waiting(v, 0) && Untroubled(v.risk, c.market, position, balance) by { hide Dealt, Untroubled; }
    assert ValueOf(r) == ViewValue(view) && Fair(o, r, t, proceeds) by { hide Part, Brought; }
    hide Reached, Dealt, Untroubled, ApplyResult, ResultOf, ViewValue, ValueOf, Part, Fair, HeldThen, PlacementOf, WithinLimits;
    Sellable(c.l, v.risk, c.market, 1.0, position, balance);
    longer, w := Trade(c, steps, v, o, view);
    HoldingAfter(v, w, c.market, balance, position, held, t, proceeds, tk, r, position - ViewValue(view));
  }
}
