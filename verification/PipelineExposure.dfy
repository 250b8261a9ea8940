/** What the limits are worth when the ledger lags behind the orders in flight. */
module PipelineExposure {
  import opened Prelude
  import opened Messages
  import opened RiskLedger
  import opened ExecutorMachine
  import opened OrderPipeline
  import opened PipelineFlow

  // ---- what is assumed of a run

  /** Purchases are requested by a positive KRW amount, as the portfolio manager does. */
  predicate PurchasesCarryAmount(w: World) {
    forall o | o in w.requests && o.side == Bid :: o.amountKrw.Some? && o.amountKrw.value > 0.0
  }

  /** No fill has a negative value. */
  predicate FillsNonnegative(w: World) {
    forall e | e in w.filled && Counts(e.result) :: 0.0 <= ValueOf(e.result)
  }

  /** A fill has a nonnegative value, and a purchase is worth at most what was approved for it. */
  predicate FillsWithinApproval(w: World) {
    forall e | e in w.filled && Counts(e.result) ::
      0.0 <= ValueOf(e.result) && (e.ticket.order.side == Bid ==> ValueOf(e.result) <= AmountKrw(e.ticket.order))
  }

  predicate BalanceFixed(steps: seq<Step>, balance: real) {
    forall s | s in steps && s.Observe? && s.risk.AccountSet? :: s.risk.total == balance
  }

  ghost predicate FitsAt(a: Account, l: Limits, w0: World, before: seq<Step>, s: Step) {
    var w := Run(l, w0, before);
    w.Some? && Fits(a, w.value, s)
  }

  /** Every step of the run is one that the account covers. */
  ghost predicate AllFit(a: Account, l: Limits, w0: World, steps: seq<Step>) {
    forall i | 0 <= i < |steps| :: FitsAt(a, l, w0, steps[..i], steps[i])
  }

  lemma AllFitPrefix(a: Account, l: Limits, w0: World, steps: seq<Step>)
    requires AllFit(a, l, w0, steps) && steps != []
    ensures var n := |steps| - 1; AllFit(a, l, w0, steps[..n]) && FitsAt(a, l, w0, steps[..n], steps[n])
  {
    hide FitsAt;
    var init := steps[..|steps| - 1];
    forall i | 0 <= i < |init| ensures FitsAt(a, l, w0, init[..i], init[i]) {
      assert init[..i] == steps[..i] && FitsAt(a, l, w0, steps[..i], steps[i]);
    }
  }

  lemma AllFitLonger(a: Account, l: Limits, w0: World, init: seq<Step>, s: Step)
    requires AllFit(a, l, w0, init) && FitsAt(a, l, w0, init, s)
    ensures AllFit(a, l, w0, init + [s])
  {
    hide FitsAt;
    var steps := init + [s];
    forall i | 0 <= i < |steps| ensures FitsAt(a, l, w0, steps[..i], steps[i]) {
      if i < |init| {
        assert steps[..i] == init[..i] && FitsAt(a, l, w0, init[..i], init[i]);
      } else {
        assert steps[..i] == init;
      }
    }
  }

  lemma ThreeAttempts(w: World)
    requires Inv(w)
    ensures AttemptOf(w.exec.pc) <= 3
  {
    hide JudgedAccounted, TakenAccounted;
  }

  /** With three attempts to an order every step is covered. */
  lemma {:induction false} ThreeFitAll(a: Account, l: Limits, dryRun: bool, risk: RiskState, steps: seq<Step>)
    requires Runs(l, Start(dryRun, risk), steps) && !a.Once? && a.each == 3
    ensures AllFit(a, l, Start(dryRun, risk), steps)
  {
    var w0 := Start(dryRun, risk);
    if steps != [] {
      var init, s := steps[..|steps| - 1], steps[|steps| - 1];
      Before(l, w0, steps);
      ThreeFitAll(a, l, dryRun, risk, init);
      InvAlways(l, dryRun, risk, init);
      hide Do, Can, AllFit, Run;
      ThreeAttempts(Run(l, w0, init).value);
      AllFitLonger(a, l, w0, init, s);
      assert steps == init + [s];
    }
  }

  ghost predicate OpenAtMost(a: Account, l: Limits, w0: World, steps: seq<Step>, market: Option<string>, k: nat) {
    var w := Run(l, w0, steps);
    w.Some? && Bounded(w.value) && |Purchases(Open(a, w.value), market)| <= k
  }

  /** In every state of the run at most k different purchases, of one market or of any, are open. */
  ghost predicate NeverMoreOpen(a: Account, l: Limits, w0: World, steps: seq<Step>, market: Option<string>, k: nat) {
    forall i | 0 <= i <= |steps| :: OpenAtMost(a, l, w0, steps[..i], market, k)
  }

  lemma NeverMorePrefix(a: Account, l: Limits, w0: World, steps: seq<Step>, market: Option<string>, k: nat)
    requires NeverMoreOpen(a, l, w0, steps, market, k) && steps != []
    ensures NeverMoreOpen(a, l, w0, steps[..|steps| - 1], market, k)
    ensures OpenAtMost(a, l, w0, steps, market, k)
  {
    hide OpenAtMost;
    var init := steps[..|steps| - 1];
    forall i | 0 <= i <= |init| ensures OpenAtMost(a, l, w0, init[..i], market, k) {
      assert init[..i] == steps[..i];
      assert OpenAtMost(a, l, w0, steps[..i], market, k);
    }
    assert steps[..|steps|] == steps;
    assert OpenAtMost(a, l, w0, steps[..|steps|], market, k);
  }

  /** The documented share of the balance that one market may hold. */
  function PositionCap(l: Limits, balance: real): real {
    l.maxPositionRatio * balance
  }

  ghost predicate Assumed(a: Account, l: Limits, w0: World, steps: seq<Step>) {
    && Runs(l, w0, steps) && AllFit(a, l, w0, steps)
    && PurchasesCarryAmount(Run(l, w0, steps).value)
    && FillsNonnegative(Run(l, w0, steps).value)
  }

  lemma StreamsGrow(l: Limits, w: World, s: Step)
    requires Can(w, s)
    ensures w.requests <= Do(l, w, s).requests && w.filled <= Do(l, w, s).filled
  {
    hide Validate, ApplyResult, Enabled, Next, NewEntry, CallsMade, GoesStray, HandAfter;
  }

  lemma InPrefix<T>(a: seq<T>, b: seq<T>, x: T)
    requires a <= b && x in a
    ensures x in b
  {
    var i :| 0 <= i < |a| && a[i] == x;
    assert b[i] == x;
  }

  lemma HypothesesBefore(l: Limits, w: World, s: Step)
    requires Can(w, s)
    ensures PurchasesCarryAmount(Do(l, w, s)) ==> PurchasesCarryAmount(w)
    ensures FillsNonnegative(Do(l, w, s)) ==> FillsNonnegative(w)
    ensures FillsWithinApproval(Do(l, w, s)) ==> FillsWithinApproval(w)
  {
    StreamsGrow(l, w, s);
    hide Do;
    var w' := Do(l, w, s);
    forall o | o in w.requests ensures o in w'.requests { InPrefix(w.requests, w'.requests, o); }
    forall e | e in w.filled ensures e in w'.filled { InPrefix(w.filled, w'.filled, e); }
  }

  lemma AssumedBefore(a: Account, l: Limits, w0: World, steps: seq<Step>)
    requires Assumed(a, l, w0, steps) && steps != []
    ensures Assumed(a, l, w0, steps[..|steps| - 1])
    ensures FitsAt(a, l, w0, steps[..|steps| - 1], steps[|steps| - 1])
  {
    Before(l, w0, steps);
    AllFitPrefix(a, l, w0, steps);
    hide AllFit, FitsAt;
    HypothesesBefore(l, Run(l, w0, steps[..|steps| - 1]).value, steps[|steps| - 1]);
  }

  // ---- what every state of such a run satisfies

  ghost predicate LedgerSound(w: World) {
    && (forall m | m in w.risk.positions :: w.risk.positions[m] >= 0.0)
    && w.risk.openPositions == |Positive(w.risk.positions)|
  }

  /** Ledger and executor are sound, and what is open was checked for size and counts no more often than it may. */
  ghost predicate Sound(a: Account, l: Limits, w: World) {
    && LedgerSound(w) && HandAgrees(w) && Bounded(w)
    && AllModest(l, Open(a, w)) && FewCopies(a, w)
  }

  lemma SettledLedger(s: RiskState, r: OrderResult)
    requires Counts(r) ==> ValueOf(r) >= 0.0
    requires forall m | m in s.positions :: s.positions[m] >= 0.0
    requires s.openPositions == |Positive(s.positions)|
    ensures var s' := ApplyResult(s, r);
            && (forall m | m in s'.positions :: s'.positions[m] >= 0.0)
            && s'.openPositions == |Positive(s'.positions)|
  {
    hide ValueOf;
  }

  lemma LedgerKept(l: Limits, w: World, s: Step)
    requires LedgerSound(w) && FillsNonnegative(w) && Can(w, s)
    ensures LedgerSound(Do(l, w, s))
  {
    match s {
      case SettleNext =>
        assert w.filled[w.settled] in w.filled;
        hide ValueOf;
        SettledLedger(w.risk, w.filled[w.settled].result);
      case Judge => HaltsIffBreached(l, w.risk, w.requests[w.judged]); hide Validate;
      case Execute(ev) => ExecuteKeepsVerdicts(w, ev); hide ExecuteEvent;
      case _ =>
    }
  }

  lemma BalanceKept(l: Limits, w: World, s: Step, balance: real)
    requires Can(w, s) && w.risk.totalBalance == balance
    requires s.Observe? && s.risk.AccountSet? ==> s.risk.total == balance
    ensures Do(l, w, s).risk.totalBalance == balance
  {
    match s {
      case Judge => HaltsIffBreached(l, w.risk, w.requests[w.judged]); hide Validate;
      case Execute(ev) => ExecuteKeepsVerdicts(w, ev); hide ExecuteEvent;
      case _ => hide Settle;
    }
  }

  lemma {:induction false} BalanceAlways(l: Limits, w0: World, steps: seq<Step>, balance: real)
    requires Runs(l, w0, steps) && w0.risk.totalBalance == balance && BalanceFixed(steps, balance)
    ensures Run(l, w0, steps).value.risk.totalBalance == balance
  {
    if steps != [] {
      var init, s := steps[..|steps| - 1], steps[|steps| - 1];
      assert s in steps && forall x | x in init :: x in steps;
      Before(l, w0, steps);
      BalanceAlways(l, w0, init, balance);
      hide Do, Can;
      BalanceKept(l, Run(l, w0, init).value, s, balance);
    }
  }

  /** What admission of a purchase with a stated amount guarantees. */
  lemma AdmittedPurchase(l: Limits, w: World)
    requires Can(w, Judge) && Admits(l, w) && PurchasesCarryAmount(w)
    ensures Modest(l, NextTicket(w))
    ensures var t := NextTicket(w);
            t.order.side == Bid ==>
              && (w.risk.totalBalance > 0.0 ==>
                    PositionOf(w.risk.positions, t.order.market) + AmountKrw(t.order)
                      <= PositionCap(l, w.risk.totalBalance))
              && (PositionOf(w.risk.positions, t.order.market) != 0.0 || w.risk.openPositions < l.maxOpenPositions)
  {
    var o := w.requests[w.judged];
    assert o in w.requests;
    AdmittedIffWithinLimits(l, w.risk, o);
    hide Validate, SumValues;
  }

  lemma AllStayModest(l: Limits, ts: seq<Ticket>, ts': seq<Ticket>, entering: multiset<Ticket>, leaving: multiset<Ticket>)
    requires multiset(ts') + leaving <= multiset(ts) + entering && AllModest(l, ts)
    requires forall t | t in entering :: Modest(l, t)
    ensures AllModest(l, ts')
  {
    hide Modest;
    forall t | t in ts' ensures Modest(l, t) {
      assert t in multiset(ts');
      Pointwise(multiset(ts') + leaving, multiset(ts) + entering, t);
      if t !in ts { assert t !in multiset(ts); }
    }
  }

  lemma ModestKept(a: Account, l: Limits, w: World, s: Step)
    requires HandAgrees(w) && Bounded(w) && Can(w, s) && Fits(a, w, s)
    requires PurchasesCarryAmount(w) && AllModest(l, Open(a, w))
    ensures Bounded(Do(l, w, s)) && AllModest(l, Open(a, Do(l, w, s)))
  {
    hide HandAgrees, Open, OpenBag, AllModest;
    Flow(a, l, w, s);
    var w', entering := Do(l, w, s), Entering(a, l, w, s);
    BagIsOpen(a, w);
    BagIsOpen(a, w');
    if s.Judge? && Admits(l, w) { AdmittedPurchase(l, w); }
    assert forall t | t in entering :: Modest(l, t);
    hide *;
    AllStayModest(l, Open(a, w), Open(a, w'), entering, Leaving(w, s));
  }

  lemma SoundStep(a: Account, l: Limits, w: World, s: Step)
    requires Sound(a, l, w) && Can(w, s) && Fits(a, w, s) && PurchasesCarryAmount(w) && FillsNonnegative(w)
    ensures Sound(a, l, Do(l, w, s))
  {
    hide Do, Can, LedgerSound, HandAgrees, AllModest, FewCopies, Fits, PurchasesCarryAmount, FillsNonnegative;
    LedgerKept(l, w, s);
    HandKept(l, w, s);
    ModestKept(a, l, w, s);
    FewCopiesKept(a, l, w, s);
  }

  lemma StartIsSound(a: Account, l: Limits, dryRun: bool, risk: RiskState)
    requires EmptyLedger(risk)
    ensures Sound(a, l, Start(dryRun, risk))
  {
    var w0 := Start(dryRun, risk);
    NothingOpen(a, dryRun, risk);
    assert LedgerSound(w0) && HandAgrees(w0) by { assert Positive(risk.positions) == {}; hide Open, OpenBag; }
    assert AllModest(l, []) && FewCopies(a, w0) by { hide Open, OpenBag, Start; }
    hide Open, OpenBag, Start, LedgerSound, HandAgrees, FewCopies;
  }

  lemma {:induction false} AlwaysSound(a: Account, l: Limits, dryRun: bool, risk: RiskState, steps: seq<Step>)
    requires EmptyLedger(risk) && Assumed(a, l, Start(dryRun, risk), steps)
    ensures Sound(a, l, Run(l, Start(dryRun, risk), steps).value)
  {
    var w0 := Start(dryRun, risk);
    assert steps == [] ==> Run(l, w0, steps) == Some(w0);
    StartIsSound(a, l, dryRun, risk);
    hide Start, EmptyLedger, Do, Can, Sound, Fits, AllFit, PurchasesCarryAmount, FillsNonnegative, Run, Runs;
    if steps != [] {
      var init, s := steps[..|steps| - 1], steps[|steps| - 1];
      Before(l, w0, steps);
      AssumedBefore(a, l, w0, steps);
      AlwaysSound(a, l, dryRun, risk, init);
      SoundStep(a, l, Run(l, w0, init).value, s);
    }
  }

  // ---- exposure

  function Exposure(a: Account, w: World, market: string): real
    requires Bounded(w)
  {
    PositionOf(w.risk.positions, market) + Krw(market, Open(a, w))
  }

  /** With k open purchases that may count so often each: the share, and all of them but one on top. */
  function ExposureBound(l: Limits, balance: real, each: nat, k: nat): real {
    if k == 0 || each == 0 then 0.0 else PositionCap(l, balance) + Times(each * k - 1, l.maxSingleOrderKrw)
  }

  lemma SettledExposure(a: Account, l: Limits, w: World, w': World, e: Entry, market: string)
    requires Bounded(w) && Bounded(w') && Answers(e.result, e.ticket.order)
    requires Krw(market, Open(a, w')) + (if Counts(e.result) then KrwOf(market, e.ticket) else 0.0) <= Krw(market, Open(a, w))
    requires Counts(e.result) ==> ValueOf(e.result) >= 0.0
    requires Counts(e.result) && e.ticket.order.side == Bid ==> ValueOf(e.result) <= AmountKrw(e.ticket.order)
    requires var p, p' := PositionOf(w.risk.positions, market), PositionOf(w'.risk.positions, market);
             p' <= if Counts(e.result) && e.result.market == market && e.result.side == Bid then p + ValueOf(e.result) else p
    requires Counts(e.result) ==> KrwOf(market, e.ticket) >= 0.0
    ensures Exposure(a, w', market) <= Exposure(a, w, market)
  {
    hide ValueOf, Open, Krw, PositionOf, AmountKrw;
  }

  lemma WeightLeft(l: Limits, market: string, ts: seq<Ticket>, ts': seq<Ticket>, leaving: multiset<Ticket>, t: Ticket,
                   leaves: bool)
    requires multiset(ts') + leaving <= multiset(ts) + multiset{} && AllModest(l, ts)
    requires leaving == if leaves then multiset{t} else multiset{}
    ensures Krw(market, ts') + (if leaves then KrwOf(market, t) else 0.0) <= Krw(market, ts)
    ensures leaves ==> KrwOf(market, t) >= 0.0
  {
    hide Krw;
    if leaves {
      assert multiset(ts' + [t]) == multiset(ts') + multiset{t};
      Pointwise(multiset(ts') + leaving, multiset(ts) + multiset{}, t);
      assert t in multiset(ts) && t in ts;
      KrwMonotone(l, market, ts' + [t], ts);
      KrwAppend(market, ts', t);
    } else {
      assert multiset(ts') + leaving == multiset(ts') && multiset(ts) + multiset{} == multiset(ts);
      KrwMonotone(l, market, ts', ts);
    }
  }

  lemma PositionNonnegative(w: World, market: string)
    requires LedgerSound(w)
    ensures PositionOf(w.risk.positions, market) >= 0.0
  {
  }

  lemma PositionAfter(s: RiskState, r: OrderResult, market: string)
    requires Counts(r) ==> ValueOf(r) >= 0.0
    requires PositionOf(s.positions, market) >= 0.0
    ensures var p, p' := PositionOf(s.positions, market), PositionOf(ApplyResult(s, r).positions, market);
            p' <= if Counts(r) && r.market == market && r.side == Bid then p + ValueOf(r) else p
  {
    hide ValueOf;
  }

  lemma SoundParts(a: Account, l: Limits, w: World)
    requires Sound(a, l, w)
    ensures LedgerSound(w) && HandAgrees(w) && Bounded(w) && AllModest(l, Open(a, w)) && FewCopies(a, w)
  {
    hide LedgerSound, HandAgrees, Open, AllModest, FewCopies;
  }

  lemma SettledResult(a: Account, l: Limits, w: World, w': World, e: Entry)
    requires HandAgrees(w) && Bounded(w) && Can(w, SettleNext) && FillsNonnegative(w)
    requires w' == SettleEntry(w) && e == w.filled[w.settled]
    ensures Bounded(w') && Do(l, w, SettleNext) == w' && w'.risk == ApplyResult(w.risk, e.result)
    ensures e in w.filled && Answers(e.result, e.ticket.order)
    ensures Counts(e.result) ==> ValueOf(e.result) >= 0.0
    ensures Entering(a, l, w, SettleNext) == multiset{}
    ensures Leaving(w, SettleNext) == if Counts(e.result) then multiset{e.ticket} else multiset{}
  {
    hide ValueOf, ApplyResult, Uncounted;
  }

  /** What is open pays for a fill that is settled. */
  lemma SettledPays(a: Account, l: Limits, w: World, w': World, e: Entry, market: string)
    requires Sound(a, l, w) && Can(w, SettleNext) && FillsNonnegative(w) && Fits(a, w, SettleNext)
    requires w' == SettleEntry(w) && e == w.filled[w.settled]
    ensures Bounded(w')
    ensures Krw(market, Open(a, w')) + (if Counts(e.result) then KrwOf(market, e.ticket) else 0.0) <= Krw(market, Open(a, w))
    ensures Counts(e.result) ==> KrwOf(market, e.ticket) >= 0.0
  {
    hide *;
    SoundParts(a, l, w);
    SettledResult(a, l, w, w', e);
    Flow(a, l, w, SettleNext);
    BagIsOpen(a, w);
    BagIsOpen(a, w');
    WeightLeft(l, market, Open(a, w), Open(a, w'), Leaving(w, SettleNext), e.ticket, Counts(e.result));
  }

  lemma WithinAreNonnegative(w: World)
    requires FillsWithinApproval(w)
    ensures FillsNonnegative(w)
    ensures forall e | e in w.filled && Counts(e.result) && e.ticket.order.side == Bid ::
              ValueOf(e.result) <= AmountKrw(e.ticket.order)
  {
    hide ValueOf;
  }

  /** Settling moves at most a ticket's amount from flight into the position. */
  lemma SettleKeepsExposure(a: Account, l: Limits, w: World, market: string)
    requires Sound(a, l, w) && Can(w, SettleNext) && FillsWithinApproval(w) && Fits(a, w, SettleNext)
    ensures Bounded(SettleEntry(w)) && Exposure(a, SettleEntry(w), market) <= Exposure(a, w, market)
  {
    var w', e := SettleEntry(w), w.filled[w.settled];
    hide *;
    WithinAreNonnegative(w);
    SoundParts(a, l, w);
    SettledResult(a, l, w, w', e);
    SettledPays(a, l, w, w', e, market);
    PositionNonnegative(w, market);
    PositionAfter(w.risk, e.result, market);
    SettledExposure(a, l, w, w', e, market);
  }

  lemma JudgeLeavesPositions(l: Limits, w: World)
    requires Can(w, Judge)
    ensures JudgeNext(l, w).risk.positions == w.risk.positions
    ensures JudgeNext(l, w).risk.openPositions == w.risk.openPositions
  {
    HaltsIffBreached(l, w.risk, w.requests[w.judged]);
    hide Validate;
  }

  lemma SameExposure(a: Account, w: World, w': World, market: string)
    requires Bounded(w) && Bounded(w') && w'.risk.positions == w.risk.positions
    ensures Exposure(a, w', market) == PositionOf(w.risk.positions, market) + Krw(market, Open(a, w'))
    ensures Exposure(a, w, market) == PositionOf(w.risk.positions, market) + Krw(market, Open(a, w))
  {
  }

  lemma ModestAmount(l: Limits, t: Ticket)
    requires Modest(l, t) && t.order.side == Bid
    ensures 0.0 <= AmountKrw(t.order) <= l.maxSingleOrderKrw
  {
  }

  lemma {:induction false} KrwRepeated(market: string, t: Ticket, n: nat)
    ensures Krw(market, Repeated([t], n)) == Times(n, KrwOf(market, t))
  {
    TimesPlus(0, 0, KrwOf(market, t));
    if n > 0 {
      KrwRepeated(market, t, n - 1);
      KrwAppend(market, Repeated([t], n - 1), t);
      TimesPlus(n - 1, 1, KrwOf(market, t));
      hide Times, KrwOf, Krw;
    }
  }

  lemma NewcomerWeighs(l: Limits, market: string, ts: seq<Ticket>, ts': seq<Ticket>, t: Ticket, each: nat)
    requires AllModest(l, ts) && AllModest(l, ts') && Modest(l, t) && multiset(ts') == multiset(ts) + multiset{}[t := each]
    ensures Krw(market, ts') == Krw(market, ts) + Times(each, KrwOf(market, t))
    ensures !Buys(t, Some(market)) || each == 0 ==> Times(each, KrwOf(market, t)) == 0.0
  {
    var all := ts + Repeated([t], each);
    RepeatedOne(t, each);
    assert multiset(all) == multiset(ts');
    forall x | x in all ensures Modest(l, x) {
      assert x in multiset(ts');
      assert x in ts';
    }
    KrwMonotone(l, market, ts', all);
    KrwMonotone(l, market, all, ts');
    KrwConcat(market, ts, Repeated([t], each));
    KrwRepeated(market, t, each);
  }

  lemma NewcomerCounts(market: string, ts: seq<Ticket>, ts': seq<Ticket>, t: Ticket, each: nat)
    requires multiset(ts') == multiset(ts) + multiset{}[t := each] && each > 0 && Buys(t, Some(market)) && t !in multiset(ts)
    ensures |Purchases(ts', Some(market))| == |Purchases(ts, Some(market))| + 1
  {
    forall x ensures x in ts' <==> x in ts || x == t { assert x in multiset(ts') <==> x in multiset(ts) || x == t; }
    assert Purchases(ts', Some(market)) == Purchases(ts, Some(market)) + {t};
    assert t !in ts;
  }

  lemma NatMonotone(a: nat, b: nat, c: nat)
    requires a <= b
    ensures c * a <= c * b
  {
  }

  lemma FitsOnTop(position: real, amount: real, krw: real, l: Limits, balance: real, each: nat, n: nat, k: nat)
    requires position + amount <= PositionCap(l, balance) && krw <= Times(each * n, l.maxSingleOrderKrw)
    requires 0.0 <= amount <= l.maxSingleOrderKrw && n + 1 <= k && each > 0
    ensures position + (krw + Times(each, amount)) <= ExposureBound(l, balance, each, k)
  {
    hide PositionCap;
    TimesPlus(each - 1, 1, amount);
    TimesMonotone(each - 1, each - 1, amount, l.maxSingleOrderKrw);
    TimesPlus(each * n, each - 1, l.maxSingleOrderKrw);
    assert each * n + (each - 1) <= each * k - 1 by { NatMonotone(n + 1, k, each); }
    TimesMonotone(each * n + (each - 1), each * k - 1, l.maxSingleOrderKrw, l.maxSingleOrderKrw);
    hide Times;
  }

  /** The newcomer fits beside the position, the others are at most k - 1. */
  lemma AdmittedFits(l: Limits, market: string, t: Ticket, position: real, ts: seq<Ticket>, ts': seq<Ticket>,
                     balance: real, each: nat, k: nat, judged: nat)
    requires AllModest(l, ts) && AllModest(l, ts') && Modest(l, t) && l.maxSingleOrderKrw >= 0.0 && t.id == judged
    requires multiset(ts') == multiset(ts) + multiset{}[t := each]
    requires forall x :: multiset(ts)[x] <= each && (x in multiset(ts) ==> x.id < judged)
    requires Buys(t, Some(market)) ==> position + AmountKrw(t.order) <= PositionCap(l, balance)
    requires |Purchases(ts', Some(market))| <= k
    requires position + Krw(market, ts) <= ExposureBound(l, balance, each, k)
    ensures position + Krw(market, ts') <= ExposureBound(l, balance, each, k)
  {
    hide PositionCap, Modest, AllModest;
    NewcomerWeighs(l, market, ts, ts', t, each);
    TimesPlus(0, 0, 0.0);
    if Buys(t, Some(market)) && each > 0 {
      NewcomerCounts(market, ts, ts', t, each);
      KrwByTickets(l, market, ts, each);
      var n := |Purchases(ts, Some(market))|;
      assert n + 1 <= k;
      assert KrwOf(market, t) == AmountKrw(t.order);
      ModestAmount(l, t);
      hide Krw, Purchases, Buys, KrwOf, AmountKrw, Times;
      FitsOnTop(position, AmountKrw(t.order), Krw(market, ts), l, balance, each, n, k);
    } else {
      hide Krw, Purchases, ExposureBound;
    }
  }

  /** Admission adds a purchase that fits beside the position, on top of at most k - 1 others; so it fits beside whatever
      is no more than the position. */
  lemma AdmissionFits(a: Account, l: Limits, w: World, market: string, balance: real, k: nat, position: real)
    requires Sound(a, l, w) && Can(w, Judge) && Fits(a, w, Judge) && PurchasesCarryAmount(w)
    requires w.risk.totalBalance == balance > 0.0 && l.maxSingleOrderKrw >= 0.0
    requires position <= PositionOf(w.risk.positions, market)
    requires position + Krw(market, Open(a, w)) <= ExposureBound(l, balance, Each(a), k)
    requires Bounded(JudgeNext(l, w)) && |Purchases(Open(a, JudgeNext(l, w)), Some(market))| <= k
    ensures position + Krw(market, Open(a, JudgeNext(l, w))) <= ExposureBound(l, balance, Each(a), k)
  {
    hide ExposureBound, Open, OpenBag, Purchases, Krw, PositionCap, HandAgrees, LedgerSound, AllModest, Modest;
    var w', t := JudgeNext(l, w), NextTicket(w);
    FlowJudge(a, l, w);
    ModestKept(a, l, w, Judge);
    BagIsOpen(a, w);
    BagIsOpen(a, w');
    assert Entering(a, l, w, Judge) == if Admits(l, w) then multiset{}[t := Each(a)] else multiset{};
    if Admits(l, w) {
      AdmittedPurchase(l, w);
      assert t.id == w.judged && forall x :: OpenBag(a, w)[x] <= Each(a) && (x in OpenBag(a, w) ==> x.id < w.judged);
      hide *;
      AdmittedFits(l, market, t, position, Open(a, w), Open(a, w'), balance, Each(a), k, w.judged);
    } else {
      hide *;
      assert multiset(Open(a, w')) + multiset{} == multiset(Open(a, w)) + multiset{};
      WeightLeft(l, market, Open(a, w), Open(a, w'), multiset{}, t, false);
    }
  }

  /** Admission keeps the bound. */
  lemma AdmissionKeepsBound(a: Account, l: Limits, w: World, market: string, balance: real, k: nat)
    requires Sound(a, l, w) && Can(w, Judge) && Fits(a, w, Judge) && PurchasesCarryAmount(w)
    requires w.risk.totalBalance == balance > 0.0 && l.maxSingleOrderKrw >= 0.0
    requires Exposure(a, w, market) <= ExposureBound(l, balance, Each(a), k)
    requires Bounded(JudgeNext(l, w)) && |Purchases(Open(a, JudgeNext(l, w)), Some(market))| <= k
    ensures Exposure(a, JudgeNext(l, w), market) <= ExposureBound(l, balance, Each(a), k)
  {
    assert Bounded(w);
    JudgeLeavesPositions(l, w);
    hide *;
    SameExposure(a, w, JudgeNext(l, w), market);
    AdmissionFits(a, l, w, market, balance, k, PositionOf(w.risk.positions, market));
  }

  lemma PositionsUntouched(l: Limits, w: World, s: Step)
    requires Can(w, s) && !s.Judge? && !s.SettleNext?
    ensures Do(l, w, s).risk.positions == w.risk.positions
    ensures Do(l, w, s).risk.openPositions == w.risk.openPositions
  {
    match s {
      case Execute(ev) => ExecuteKeepsVerdicts(w, ev); hide ExecuteEvent;
      case _ =>
    }
  }

  lemma OthersOpenNothing(a: Account, l: Limits, w: World, s: Step, market: string)
    requires Sound(a, l, w) && Can(w, s) && !s.Judge? && !s.SettleNext? && Fits(a, w, s)
    ensures Bounded(Do(l, w, s))
    ensures Krw(market, Open(a, Do(l, w, s))) <= Krw(market, Open(a, w))
  {
    var w' := Do(l, w, s);
    Flow(a, l, w, s);
    BagIsOpen(a, w);
    BagIsOpen(a, w');
    assert Entering(a, l, w, s) == multiset{} && Leaving(w, s) == multiset{};
    hide *;
    var none := Ticket(0, OrderRequest("", Bid, Market, None, None, None));
    WeightLeft(l, market, Open(a, w), Open(a, w'), multiset{}, none, false);
  }

  /** Steps that neither judge nor settle never raise exposure. */
  lemma OtherStepsKeepExposure(a: Account, l: Limits, w: World, s: Step, market: string)
    requires Sound(a, l, w) && Can(w, s) && !s.Judge? && !s.SettleNext? && Fits(a, w, s)
    ensures Bounded(Do(l, w, s))
    ensures Exposure(a, Do(l, w, s), market) <= Exposure(a, w, market)
  {
    assert Bounded(w);
    hide *;
    PositionsUntouched(l, w, s);
    OthersOpenNothing(a, l, w, s, market);
    SameExposure(a, w, Do(l, w, s), market);
  }

  lemma NothingWeighs(market: string)
    ensures Krw(market, []) == 0.0
  {
  }

  lemma NothingExposed(a: Account, l: Limits, dryRun: bool, risk: RiskState, market: string, k: nat)
    requires EmptyLedger(risk) && risk.totalBalance > 0.0 && l.maxPositionRatio >= 0.0 && l.maxSingleOrderKrw >= 0.0
    ensures Bounded(Start(dryRun, risk))
    ensures Exposure(a, Start(dryRun, risk), market) <= ExposureBound(l, risk.totalBalance, Each(a), k)
  {
    hide Open, Each, Krw;
    NothingOpen(a, dryRun, risk);
    NothingWeighs(market);
    MulMonotone(0.0, l.maxPositionRatio, risk.totalBalance);
    TimesPlus(0, 0, l.maxSingleOrderKrw);
    if k > 0 && Each(a) > 0 {
      NatMonotone(1, k, Each(a));
      TimesMonotone(0, Each(a) * k - 1, l.maxSingleOrderKrw, l.maxSingleOrderKrw);
    }
    hide Times;
  }

  lemma ExposureStep(a: Account, l: Limits, w: World, s: Step, market: string, balance: real, k: nat)
    requires Sound(a, l, w) && Can(w, s) && Fits(a, w, s) && PurchasesCarryAmount(w) && FillsWithinApproval(w)
    requires w.risk.totalBalance == balance > 0.0 && l.maxSingleOrderKrw >= 0.0
    requires Exposure(a, w, market) <= ExposureBound(l, balance, Each(a), k)
    requires Bounded(Do(l, w, s)) && |Purchases(Open(a, Do(l, w, s)), Some(market))| <= k
    ensures Exposure(a, Do(l, w, s), market) <= ExposureBound(l, balance, Each(a), k)
  {
    hide Exposure, ExposureBound, Open, Purchases, JudgeNext, SettleEntry, RouteVerdict, ExecuteEvent, FillsWithinApproval;
    match s {
      case Judge => AdmissionKeepsBound(a, l, w, market, balance, k);
      case SettleNext => SettleKeepsExposure(a, l, w, market);
      case _ => OtherStepsKeepExposure(a, l, w, s, market);
    }
  }

  /** Exposure under lag. With a fixed positive balance and at most k purchases of a market open at any time, ledger
      position plus what is open never exceeds the documented share of the balance by more than the open purchases
      less one, each as large as the largest order and counted as often as the account says, whatever the
      interleaving: once, if no raised publication was applied; up to three times for what the ledger may hear of
      in any run; up to three times for what the exchange may have accepted, stray orders included. */
  lemma {:induction false} ExposureUnderLag(a: Account, l: Limits, dryRun: bool, risk: RiskState, steps: seq<Step>,
                                            market: string, k: nat)
    requires EmptyLedger(risk) && risk.totalBalance > 0.0 && l.maxPositionRatio >= 0.0 && l.maxSingleOrderKrw >= 0.0
    requires Assumed(a, l, Start(dryRun, risk), steps) && BalanceFixed(steps, risk.totalBalance)
    requires FillsWithinApproval(Run(l, Start(dryRun, risk), steps).value)
    requires NeverMoreOpen(a, l, Start(dryRun, risk), steps, Some(market), k)
    ensures var w := Run(l, Start(dryRun, risk), steps).value;
            Bounded(w) && Exposure(a, w, market) <= ExposureBound(l, risk.totalBalance, Each(a), k)
  {
    var w0 := Start(dryRun, risk);
    if steps == [] {
      NothingExposed(a, l, dryRun, risk, market, k);
    } else {
      var init, s := steps[..|steps| - 1], steps[|steps| - 1];
      Before(l, w0, steps);
      AssumedBefore(a, l, w0, steps);
      NeverMorePrefix(a, l, w0, steps, Some(market), k);
      HypothesesBefore(l, Run(l, w0, init).value, s);
      assert BalanceFixed(init, risk.totalBalance) by { assert forall x | x in init :: x in steps; }
      ExposureUnderLag(a, l, dryRun, risk, init, market, k);
      AlwaysSound(a, l, dryRun, risk, init);
      BalanceAlways(l, w0, init, risk.totalBalance);
      hide Do, Can, Sound, Exposure, ExposureBound, Open, Purchases, Fits, AllFit, NeverMoreOpen, Each, BalanceFixed;
      ExposureStep(a, l, Run(l, w0, init).value, s, market, risk.totalBalance, k);
    }
  }
}
