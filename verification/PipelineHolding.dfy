/** What is held at the exchange, by what purchases cost and what sales brought in, whatever the ledger makes of it. */
module PipelineHolding {
  import opened Prelude
  import opened Messages
  import opened RiskLedger
  import opened ExecutorMachine
  import opened OrderPipeline
  import opened PipelineFlow
  import opened PipelineExposure

  // ---- the holding

  /** Purchases ask the exchange for their KRW amount and nothing else, as the portfolio manager's do, so that the amount is what
      they may cost. */
  predicate PlacedByAmount(w: World) {
    forall o | o in w.requests && o.side == Bid :: PlacementOf(o).ordType == PriceBuy && PlacementOf(o).price == o.amountKrw
  }

  /** What the sale with that uuid brought in. */
  function Brought(proceeds: map<string, real>, uuid: string): real {
    if uuid in proceeds then proceeds[uuid] else 0.0
  }

  /** A finished purchase adds what it cost, a finished sale takes off what it brought in. */
  function HeldThen(held: real, e: Entry, market: string, proceeds: map<string, real>): real {
    if !Counts(e.result) || e.ticket.order.market != market then held
    else if e.ticket.order.side == Bid then held + AmountKrw(e.ticket.order)
    else Max(0.0, held - Brought(proceeds, e.result.orderUuid))
  }

  /** What has gone into a market and not come back. */
  function HeldAfter(start: real, entries: seq<Entry>, market: string, proceeds: map<string, real>): real {
    if entries == [] then start
    else HeldThen(HeldAfter(start, entries[..|entries| - 1], market, proceeds), entries[|entries| - 1], market, proceeds)
  }

  function Settled(w: World): seq<Entry>
    requires Bounded(w)
  {
    w.filled[..w.settled]
  }

  /** What is granted of a run: at most so many attempts to place an order and k purchases of a market open at a time; a
      purchase valued at no less than that part of its cost, a sale at no more than that multiple of what it brought in; and
      that much of the market in the account at the start, of which the ledger knows nothing. */
  datatype Terms = Terms(each: nat, k: nat, least: real, most: real, start: real)

  function Part(share: real, whole: real): real {
    share * whole
  }

  /** The ledger values a purchase at no less than that part of its cost, and a sale at no more than that multiple of what
      it brought in. */
  predicate Valued(w: World, least: real, most: real, proceeds: map<string, real>) {
    forall e | e in w.filled && Counts(e.result) ::
      if e.ticket.order.side == Bid then Part(least, AmountKrw(e.ticket.order)) <= ValueOf(e.result)
      else
        && 0.0 <= Brought(proceeds, e.result.orderUuid)
        && ValueOf(e.result) <= Part(most, Brought(proceeds, e.result.orderUuid))
  }

  /** No purchase is undervalued and no sale overvalued. */
  predicate Prudent(w: World, proceeds: map<string, real>) {
    forall e | e in w.filled && Counts(e.result) ::
      if e.ticket.order.side == Bid then AmountKrw(e.ticket.order) <= ValueOf(e.result)
      else ValueOf(e.result) <= Brought(proceeds, e.result.orderUuid)
  }

  lemma ValuedIsPrudent(w: World, most: real, proceeds: map<string, real>)
    requires Valued(w, 1.0, most, proceeds) && most <= 1.0
    ensures Prudent(w, proceeds)
  {
    hide ValueOf, AmountKrw, Brought;
    forall e | e in w.filled && Counts(e.result)
      ensures e.ticket.order.side == Bid ==> AmountKrw(e.ticket.order) <= ValueOf(e.result)
      ensures e.ticket.order.side != Bid ==> ValueOf(e.result) <= Brought(proceeds, e.result.orderUuid)
    {
      if e.ticket.order.side != Bid { MulMonotone(most, 1.0, Brought(proceeds, e.result.orderUuid)); }
    }
  }

  lemma PrudentBefore(l: Limits, w: World, s: Step, proceeds: map<string, real>)
    requires Can(w, s) && Prudent(Do(l, w, s), proceeds)
    ensures Prudent(w, proceeds)
  {
    StreamsGrow(l, w, s);
    hide Do, ValueOf, AmountKrw, Brought;
    var w' := Do(l, w, s);
    forall e | e in w.filled ensures e in w'.filled { InPrefix(w.filled, w'.filled, e); }
  }

  lemma HeldMore(start: real, entries: seq<Entry>, e: Entry, market: string, proceeds: map<string, real>)
    ensures HeldAfter(start, entries + [e], market, proceeds)
         == HeldThen(HeldAfter(start, entries, market, proceeds), e, market, proceeds)
  {
    assert (entries + [e])[..|entries|] == entries;
  }

  lemma PositionSettles(s: RiskState, r: OrderResult, market: string)
    ensures var p, p' := PositionOf(s.positions, market), PositionOf(ApplyResult(s, r).positions, market);
            p' == (if !Counts(r) || r.market != market then p
                   else if r.side == Ask then Max(0.0, p - ValueOf(r)) else p + ValueOf(r))
  {
    hide ValueOf;
  }

  lemma SettledGrows(l: Limits, w: World, s: Step)
    requires Bounded(w) && Can(w, s)
    ensures Bounded(Do(l, w, s))
    ensures s.SettleNext? ==> Settled(Do(l, w, s)) == Settled(w) + [w.filled[w.settled]]
    ensures !s.SettleNext? ==> Settled(Do(l, w, s)) == Settled(w)
  {
    StreamsGrow(l, w, s);
    var w' := Do(l, w, s);
    assert w'.settled == w.settled + (if s.SettleNext? then 1 else 0) && w'.taken <= |w'.approved| by {
      hide Validate, ApplyResult, Enabled, Next, NewEntry, CallsMade, GoesStray, HandAfter;
    }
    hide Do;
    assert w'.filled[..w.settled] == w.filled[..w.settled];
    if s.SettleNext? { assert w'.filled[..w.settled + 1] == w.filled[..w.settled] + [w.filled[w.settled]]; }
  }

  /** The holding and what is open. */
  function AtStake(a: Account, w: World, market: string, proceeds: map<string, real>): real
    requires Bounded(w)
  {
    HeldAfter(0.0, Settled(w), market, proceeds) + Krw(market, Open(a, w))
  }

  /** The ledger knows of no less than is held, and what is held and open is bounded. */
  ghost predicate InHandOfLedger(a: Account, w: World, market: string, proceeds: map<string, real>, bound: real) {
    && Bounded(w)
    && 0.0 <= HeldAfter(0.0, Settled(w), market, proceeds) <= PositionOf(w.risk.positions, market)
    && AtStake(a, w, market, proceeds) <= bound
  }

  lemma LedgerHolds(a: Account, w: World, market: string, proceeds: map<string, real>, bound: real)
    requires InHandOfLedger(a, w, market, proceeds, bound)
    ensures Bounded(w) && 0.0 <= HeldAfter(0.0, Settled(w), market, proceeds) <= PositionOf(w.risk.positions, market)
    ensures HeldAfter(0.0, Settled(w), market, proceeds) + Krw(market, Open(a, w)) <= bound
  {
    hide HeldAfter, Settled, Krw, Open, PositionOf;
  }

  lemma LedgerStillHolds(a: Account, w: World, market: string, proceeds: map<string, real>, bound: real)
    requires Bounded(w) && 0.0 <= HeldAfter(0.0, Settled(w), market, proceeds) <= PositionOf(w.risk.positions, market)
    requires HeldAfter(0.0, Settled(w), market, proceeds) + Krw(market, Open(a, w)) <= bound
    ensures InHandOfLedger(a, w, market, proceeds, bound)
  {
    hide HeldAfter, Settled, Krw, Open, PositionOf;
  }

  lemma PrudentResult(w: World, e: Entry, proceeds: map<string, real>)
    requires Prudent(w, proceeds) && e in w.filled
    ensures Counts(e.result) && e.ticket.order.side == Bid ==> AmountKrw(e.ticket.order) <= ValueOf(e.result)
    ensures Counts(e.result) && e.ticket.order.side != Bid ==> ValueOf(e.result) <= Brought(proceeds, e.result.orderUuid)
  {
    hide AmountKrw, ValueOf, Brought;
  }

  lemma HeldSettles(p: real, p': real, h: real, h': real, open: real, open': real, e: Entry, market: string,
                    proceeds: map<string, real>)
    requires 0.0 <= h <= p && Answers(e.result, e.ticket.order) && h' == HeldThen(h, e, market, proceeds)
    requires p' == (if !Counts(e.result) || e.result.market != market then p
                    else if e.result.side == Ask then Max(0.0, p - ValueOf(e.result)) else p + ValueOf(e.result))
    requires open' + (if Counts(e.result) then KrwOf(market, e.ticket) else 0.0) <= open
    requires Counts(e.result) && e.ticket.order.side == Bid ==> AmountKrw(e.ticket.order) <= ValueOf(e.result)
    requires Counts(e.result) && e.ticket.order.side != Bid ==> ValueOf(e.result) <= Brought(proceeds, e.result.orderUuid)
    requires Counts(e.result) ==> 0.0 <= ValueOf(e.result) && 0.0 <= KrwOf(market, e.ticket)
    ensures 0.0 <= h' <= p' && h' + open' <= h + open
  {
    hide ValueOf, AmountKrw, Brought;
  }

  lemma SettledMoves(a: Account, l: Limits, w: World, w': World, e: Entry, market: string, proceeds: map<string, real>)
    requires HandAgrees(w) && Bounded(w) && Can(w, SettleNext) && FillsNonnegative(w) && Prudent(w, proceeds)
    requires w' == SettleEntry(w) && e == w.filled[w.settled]
    ensures Bounded(w') && Answers(e.result, e.ticket.order)
    ensures Counts(e.result) ==> 0.0 <= ValueOf(e.result)
    ensures Counts(e.result) && e.ticket.order.side == Bid ==> AmountKrw(e.ticket.order) <= ValueOf(e.result)
    ensures Counts(e.result) && e.ticket.order.side != Bid ==> ValueOf(e.result) <= Brought(proceeds, e.result.orderUuid)
    ensures HeldAfter(0.0, Settled(w'), market, proceeds)
         == HeldThen(HeldAfter(0.0, Settled(w), market, proceeds), e, market, proceeds)
    ensures w'.risk == ApplyResult(w.risk, e.result)
  {
    hide *;
    SettledResult(a, l, w, w', e);
    SettledGrows(l, w, SettleNext);
    HeldMore(0.0, Settled(w), e, market, proceeds);
    PrudentResult(w, e, proceeds);
    assert Settled(w') == Settled(w) + [e];
  }

  lemma SettleKeepsHeld(a: Account, l: Limits, w: World, w': World, e: Entry, market: string, proceeds: map<string, real>,
                        bound: real)
    requires Can(w, SettleNext) && w' == SettleEntry(w) && e == w.filled[w.settled] && Fits(a, w, SettleNext)
    requires Sound(a, l, w) && FillsNonnegative(w) && Prudent(w, proceeds) && InHandOfLedger(a, w, market, proceeds, bound)
    ensures InHandOfLedger(a, w', market, proceeds, bound)
  {
    hide *;
    SoundParts(a, l, w);
    SettledMoves(a, l, w, w', e, market, proceeds);
    SettledPays(a, l, w, w', e, market);
    PositionSettles(w.risk, e.result, market);
    LedgerHolds(a, w, market, proceeds, bound);
    HeldSettles(PositionOf(w.risk.positions, market), PositionOf(w'.risk.positions, market),
                HeldAfter(0.0, Settled(w), market, proceeds), HeldAfter(0.0, Settled(w'), market, proceeds),
                Krw(market, Open(a, w)), Krw(market, Open(a, w')), e, market, proceeds);
    LedgerStillHolds(a, w', market, proceeds, bound);
  }

  lemma JudgeKeepsHeld(a: Account, l: Limits, w: World, w': World, market: string, proceeds: map<string, real>, balance: real,
                       k: nat)
    requires Can(w, Judge) && w' == JudgeNext(l, w) == Do(l, w, Judge) && Bounded(w') && Fits(a, w, Judge)
    requires |Purchases(Open(a, w'), Some(market))| <= k
    requires Sound(a, l, w) && PurchasesCarryAmount(w) && w.risk.totalBalance == balance > 0.0 && l.maxSingleOrderKrw >= 0.0
    requires InHandOfLedger(a, w, market, proceeds, ExposureBound(l, balance, Each(a), k))
    ensures InHandOfLedger(a, w', market, proceeds, ExposureBound(l, balance, Each(a), k))
  {
    hide *;
    LedgerHolds(a, w, market, proceeds, ExposureBound(l, balance, Each(a), k));
    SettledGrows(l, w, Judge);
    JudgeLeavesPositions(l, w);
    AdmissionFits(a, l, w, market, balance, k, HeldAfter(0.0, Settled(w), market, proceeds));
    LedgerStillHolds(a, w', market, proceeds, ExposureBound(l, balance, Each(a), k));
  }

  lemma OthersKeepHeld(a: Account, l: Limits, w: World, s: Step, market: string, proceeds: map<string, real>, bound: real)
    requires Sound(a, l, w) && Can(w, s) && !s.Judge? && !s.SettleNext? && Fits(a, w, s)
    requires InHandOfLedger(a, w, market, proceeds, bound)
    ensures InHandOfLedger(a, Do(l, w, s), market, proceeds, bound)
  {
    hide *;
    LedgerHolds(a, w, market, proceeds, bound);
    SettledGrows(l, w, s);
    PositionsUntouched(l, w, s);
    OthersOpenNothing(a, l, w, s, market);
    assert PositionOf(Do(l, w, s).risk.positions, market) == PositionOf(w.risk.positions, market);
    LedgerStillHolds(a, Do(l, w, s), market, proceeds, bound);
  }

  lemma HeldStep(a: Account, l: Limits, w: World, s: Step, market: string, proceeds: map<string, real>, balance: real, k: nat)
    requires Sound(a, l, w) && Can(w, s) && Fits(a, w, s) && PurchasesCarryAmount(w)
    requires FillsNonnegative(w) && Prudent(w, proceeds)
    requires w.risk.totalBalance == balance > 0.0 && l.maxSingleOrderKrw >= 0.0
    requires InHandOfLedger(a, w, market, proceeds, ExposureBound(l, balance, Each(a), k))
    requires Bounded(Do(l, w, s)) && |Purchases(Open(a, Do(l, w, s)), Some(market))| <= k
    ensures InHandOfLedger(a, Do(l, w, s), market, proceeds, ExposureBound(l, balance, Each(a), k))
  {
    hide InHandOfLedger, ExposureBound, Open, Purchases, JudgeNext, SettleEntry, RouteVerdict, ExecuteEvent, Prudent;
    hide FillsNonnegative, Sound;
    match s {
      case Judge => JudgeKeepsHeld(a, l, w, Do(l, w, s), market, proceeds, balance, k);
      case SettleNext =>
        SettleKeepsHeld(a, l, w, SettleEntry(w), w.filled[w.settled], market, proceeds, ExposureBound(l, balance, Each(a), k));
      case _ => OthersKeepHeld(a, l, w, s, market, proceeds, ExposureBound(l, balance, Each(a), k));
    }
  }

  lemma NothingAtStake(a: Account, l: Limits, dryRun: bool, risk: RiskState, market: string, proceeds: map<string, real>,
                       k: nat)
    requires EmptyLedger(risk) && risk.totalBalance > 0.0 && l.maxPositionRatio >= 0.0 && l.maxSingleOrderKrw >= 0.0
    ensures InHandOfLedger(a, Start(dryRun, risk), market, proceeds, ExposureBound(l, risk.totalBalance, Each(a), k))
  {
    NothingExposed(a, l, dryRun, risk, market, k);
    hide ExposureBound, Open, Krw;
  }

  /** What is held and open under lag. When no purchase is undervalued and no sale overvalued, the bound on the ledger's
      position is one on what has gone into the market and not come back: that is never more than the ledger shows. */
  lemma {:induction false} HeldUnderLag(a: Account, l: Limits, dryRun: bool, risk: RiskState, steps: seq<Step>,
                                        market: string, proceeds: map<string, real>, k: nat)
    requires EmptyLedger(risk) && risk.totalBalance > 0.0 && l.maxPositionRatio >= 0.0 && l.maxSingleOrderKrw >= 0.0
    requires Assumed(a, l, Start(dryRun, risk), steps) && BalanceFixed(steps, risk.totalBalance)
    requires Prudent(Run(l, Start(dryRun, risk), steps).value, proceeds)
    requires NeverMoreOpen(a, l, Start(dryRun, risk), steps, Some(market), k)
    ensures InHandOfLedger(a, Run(l, Start(dryRun, risk), steps).value, market, proceeds,
                           ExposureBound(l, risk.totalBalance, Each(a), k))
  {
    var w0 := Start(dryRun, risk);
    assert Run(l, w0, []) == Some(w0) && w0.risk == risk;
    hide Run, Start, Do, Can, Sound, InHandOfLedger, ExposureBound, Open, Purchases, Fits, AllFit, NeverMoreOpen, Each, Prudent;
    hide EmptyLedger, FillsNonnegative, PurchasesCarryAmount;
    if steps == [] {
      NothingAtStake(a, l, dryRun, risk, market, proceeds, k);
    } else {
      var init, s := steps[..|steps| - 1], steps[|steps| - 1];
      Before(l, w0, steps);
      AssumedBefore(a, l, w0, steps);
      NeverMorePrefix(a, l, w0, steps, Some(market), k);
      PrudentBefore(l, Run(l, w0, init).value, s, proceeds);
      assert BalanceFixed(init, risk.totalBalance) by { assert forall x | x in init :: x in steps; }
      hide BalanceFixed;
      HeldUnderLag(a, l, dryRun, risk, init, market, proceeds, k);
      AlwaysSound(a, l, dryRun, risk, init);
      BalanceAlways(l, w0, init, risk.totalBalance);
      HeldStep(a, l, Run(l, w0, init).value, s, market, proceeds, risk.totalBalance, k);
    }
  }

  /** What was held before the first step comes on top, as far as sales have not used it up. */
  lemma {:induction false} HeldFromStart(start: real, entries: seq<Entry>, market: string, proceeds: map<string, real>)
    requires start >= 0.0 && forall e | e in entries && Counts(e.result) && e.ticket.order.side != Bid ::
               Brought(proceeds, e.result.orderUuid) >= 0.0
    ensures HeldAfter(0.0, entries, market, proceeds) <= HeldAfter(start, entries, market, proceeds)
         <= start + HeldAfter(0.0, entries, market, proceeds)
  {
    if entries != [] {
      assert entries[|entries| - 1] in entries;
      HeldFromStart(start, entries[..|entries| - 1], market, proceeds);
      hide Brought, AmountKrw;
    }
  }
}
