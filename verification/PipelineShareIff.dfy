/** Exactly when the documented share holds, and that without what it needs there is no bound at all. */
module PipelineShareIff {
  import opened Prelude
  import opened RiskLedger
  import opened ExecutorMachine
  import opened OrderPipeline
  import opened PipelineFlow
  import opened PipelineExposure
  import opened PipelineHolding
  import opened PipelineAccepted
  import opened PipelineFills
  import opened PipelineRuns
  import opened PipelineShare

  // ---- sizes

  lemma Distribute(x: real, y: real, z: real)
    ensures (x + y) * z == x * z + y * z
  {
  }

  lemma MoreGaps(q: real, n: nat, amount: real)
    requires q < n as real && amount > 0.0
    ensures q * amount < Gaps(n, amount)
  {
    MulPositive(n as real - q, amount);
    Distribute(n as real - q, q, amount);
    assert (n as real - q) + q == n as real;
  }

  lemma FewerGaps(q: real, n: nat, amount: real)
    requires n as real <= q && amount > 0.0
    ensures Gaps(n, amount) <= q * amount
  {
    MulMonotone(n as real, q, amount);
  }

  /** How often a size fits into a cap: often enough that one more would not. */
  lemma Fitting(cap: real, amount: real) returns (n: nat)
    requires 0.0 < amount <= cap
    ensures Gaps(n + 1, amount) <= cap < Gaps(n + 2, amount)
  {
    var q := cap / amount;
    assert q * amount == cap;
    DivideBound(1.0, amount, cap);
    n := q.Floor - 1;
    FewerGaps(q, n + 1, amount);
    MoreGaps(q, n + 2, amount);
  }

  // ---- purchases one after the other

  lemma DealtIsWithin(w: World, t: Terms, proceeds: map<string, real>)
    requires Dealt(w, t, proceeds)
    ensures FillsWithinApproval(w)
  {
    hide FillsWithinApproval;
  }

  /** n purchases, each done, published and settled before the next, whatever the ledger makes of them. */
  lemma BoughtOneByOne(l: Limits, balance: real, market: string, t: Terms, amount: real, view: OrderView, n: nat)
    returns (steps: seq<Step>, w: World)
    requires t.each >= 1 && t.k >= 1 && view.state == Done && amount > 0.0
    requires 0.0 <= ViewValue(view) && Part(t.least, amount) <= ViewValue(view) <= amount
    requires n > 0 ==> Sized(l, balance, amount, Gaps(n - 1, ViewValue(view)))
    ensures Covered(l, false, Flat(balance), steps, balance, market, t, map[])
    ensures Run(l, Start(false, Flat(balance)), steps) == Some(w) && Bounded(w)
    ensures Bought(w, market, t.start, map[]) == t.start + Gaps(n, amount)
    ensures PositionOf(w.risk.positions, market) == Gaps(n, ViewValue(view))
    ensures w.stray == [] && w.settled == |w.filled| && FillsWithinApproval(w) && Smooth(w)
    ensures |w.requests| == n && forall o | o in w.requests :: o == BuyOrder(market, amount)
  {
    hide *;
    var c := For(l, balance, market, t);
    SettingFacts(l, balance, market, t);
    steps, w := Accumulate(c, balance, t, map[], amount, view, n);
    HoldingFacts(w, market, balance, Gaps(n, ViewValue(view)), t.start + Gaps(n, amount), t, map[]);
    ReachedIsCovered(l, balance, market, t, map[], steps, w);
    DealtIsWithin(w, t, map[]);
  }

  lemma NotWithin(l: Limits, steps: seq<Step>, w: World, balance: real, market: string, start: real,
                  proceeds: map<string, real>, bound: real)
    requires Run(l, Start(false, Flat(balance)), steps) == Some(w) && Bounded(w) && Bought(w, market, start, proceeds) > bound
    ensures !BoughtWithin(l, false, Flat(balance), steps, market, start, proceeds, bound)
  {
    hide Run, Bought;
  }

  lemma ShareBroken(l: Limits, steps: seq<Step>, w: World, balance: real, market: string, t: Terms, proceeds: map<string, real>)
    requires Covered(l, false, Flat(balance), steps, balance, market, t, proceeds)
    requires Run(l, Start(false, Flat(balance)), steps) == Some(w) && Bounded(w)
    requires Bought(w, market, t.start, proceeds) > PositionCap(l, balance)
    ensures !ShareHolds(l, balance, market, t)
  {
    NotWithin(l, steps, w, balance, market, t.start, proceeds, PositionCap(l, balance));
    hide Covered, BoughtWithin, Run, PositionCap;
  }

  // ---- the ways to exceed the share

  /** More than one order at a time, by a second approval or a second attempt. */
  lemma ManyOrdersExceed(l: Limits, balance: real, market: string, t: Terms)
    requires Permissive(l, balance) && t.each >= 1 && t.k >= 1 && (t.each >= 2 || t.k >= 2) && t.least <= 1.0 && t.start >= 0.0
    ensures !ShareHolds(l, balance, market, t)
  {
    hide PositionCap, ShareHolds, Gaps;
    var amount := Min(l.maxSingleOrderKrw, PositionCap(l, balance));
    var n := Fitting(PositionCap(l, balance), amount);
    GapsUpTo(n, amount);
    assert Sized(l, balance, amount, Gaps(n, amount));
    hide *;
    var steps, w := ShareExceeded(l, balance, market, t, amount, n);
    ShareBroken(l, steps, w, balance, market, t, map[]);
  }

  lemma SizeOfExact(l: Limits, balance: real, least: real, largest: real) returns (amount: real, n: nat)
    requires Permissive(l, balance) && least <= 1.0 && largest > 0.0
    ensures 0.0 < amount <= largest && Sized(l, balance, amount, Gaps(n, amount))
    ensures PositionCap(l, balance) < Gaps(n + 1, amount) + amount
    ensures ViewValue(Exact(amount)) == amount && Part(least, amount) <= amount && Exact(amount).state == Done
  {
    amount := Min(largest, Min(l.maxSingleOrderKrw, PositionCap(l, balance)));
    ExactIsFair(amount, least);
    assert Exact(amount).state == Done;
    hide PositionCap, ViewValue, Part, Exact;
    n := Fitting(PositionCap(l, balance), amount);
    hide Gaps;
    GapsUpTo(n, amount);
    GapsUpTo(n + 1, amount);
  }

  /** Something held before, of which the ledger knows nothing. */
  lemma HeldBeforeExceeds(l: Limits, balance: real, market: string, t: Terms)
    requires Permissive(l, balance) && t.each >= 1 && t.k >= 1 && t.least <= 1.0 && t.start > 0.0
    ensures !ShareHolds(l, balance, market, t)
  {
    hide *;
    var amount, n := SizeOfExact(l, balance, t.least, t.start);
    var steps, w := BoughtOneByOne(l, balance, market, t, amount, Exact(amount), n + 1);
    ShareBroken(l, steps, w, balance, market, t, map[]);
  }

  /** A market purchase reported with its KRW amount as the price. */
  function Echoed(volume: real, amount: real): OrderView {
    OrderView(Done, Some(volume), Some(amount), None)
  }

  lemma EchoedWorth(volume: real, amount: real)
    requires 0.0 <= volume <= 1.0 && amount > 0.0
    ensures ViewValue(Echoed(volume, amount)) == Part(volume, amount) && 0.0 <= Part(volume, amount) <= amount
    ensures Echoed(volume, amount).state == Done
  {
    MulMonotone(0.0, volume, amount);
    MulMonotone(volume, 1.0, amount);
  }

  lemma PartSplits(x: real, y: real, z: real)
    ensures Part(x, y + z) == Part(x, y) + Part(x, z)
    ensures Part(x, z) + Part(1.0 - x, z) == z
  {
  }

  lemma PartOfGaps(part: real, n: nat, amount: real)
    ensures Gaps(n, Part(part, amount)) == Part(part, Gaps(n, amount))
  {
    assert n as real * (part * amount) == part * (n as real * amount);
  }

  lemma PartGrows(part: real, x: real, y: real)
    requires part >= 0.0 && x <= y
    ensures Part(part, x) <= Part(part, y)
  {
    MulMonotone(x, y, part);
  }

  lemma PartsGrow(x: real, y: real, z: real)
    requires x <= y && z >= 0.0
    ensures Part(x, z) <= Part(y, z)
  {
    MulMonotone(x, y, z);
  }

  /** When a part of each size is small change beside the cap, the rest of what was spent leaves room for one more. */
  lemma RoomLeft(cap: real, amount: real, part: real, spent: real)
    requires 0.0 <= part < 1.0 && amount > 0.0 && amount + amount <= Part(1.0 - part, cap)
    requires spent <= cap < spent + amount
    ensures Part(part, spent) + amount <= cap
  {
    PartGrows(1.0 - part, cap, spent + amount);
    PartSplits(1.0 - part, spent, amount);
    PartSplits(part, 0.0, spent);
    PartSplits(part, 0.0, amount);
    PartGrows(part, 0.0, amount);
    assert Part(part, 0.0) == 0.0;
    hide Part;
  }

  /** A size small enough for the room that undervaluation leaves: m purchases that the ledger takes for a part of what they
      cost leave room for another, and cost more than the cap with it. */
  lemma Undervaluing(cap: real, largest: real, part: real) returns (amount: real, m: nat)
    requires cap > 0.0 && largest > 0.0 && 0.0 <= part < 1.0
    ensures 0.0 < amount <= largest && Gaps(m, Part(part, amount)) + amount <= cap < Gaps(m + 1, amount)
  {
    var room := Part(1.0 - part, cap) / 2.0;
    assert room > 0.0 by { MulPositive(1.0 - part, cap); }
    amount := Min(largest, room);
    assert room + room <= cap by { PartsGrow(1.0 - part, 1.0, cap); assert Part(1.0, cap) == cap; }
    var n := Fitting(cap, amount);
    m := n + 1;
    hide Part;
    GapsUpTo(m, amount);
    PartOfGaps(part, m, amount);
    hide Gaps;
    RoomLeft(cap, amount, part, Gaps(m, amount));
  }

  lemma SizeOfEchoed(l: Limits, balance: real, least: real) returns (amount: real, m: nat, part: real)
    requires Permissive(l, balance) && least < 1.0
    ensures amount > 0.0 && Sized(l, balance, amount, Gaps(m, ViewValue(Echoed(part, amount))))
    ensures Echoed(part, amount).state == Done && PositionCap(l, balance) < Gaps(m + 1, amount)
    ensures 0.0 <= ViewValue(Echoed(part, amount)) <= amount && Part(least, amount) <= ViewValue(Echoed(part, amount))
  {
    part := Max(0.0, least);
    amount, m := Undervaluing(PositionCap(l, balance), l.maxSingleOrderKrw, part);
    assert Echoed(part, amount).state == Done;
    hide PositionCap, ViewValue, Part, Echoed, Gaps;
    EchoedWorth(part, amount);
    PartsGrow(least, part, amount);
  }

  /** Purchases the ledger takes for less than they cost, as it does when the KRW amount is echoed as the price and less than
      one unit was bought. */
  lemma UndervaluedExceed(l: Limits, balance: real, market: string, t: Terms)
    requires Permissive(l, balance) && t.each >= 1 && t.k >= 1 && t.least < 1.0 && t.start >= 0.0
    ensures !ShareHolds(l, balance, market, t)
  {
    hide *;
    var amount, m, part := SizeOfEchoed(l, balance, t.least);
    var steps, w := BoughtOneByOne(l, balance, market, t, amount, Echoed(part, amount), m + 1);
    ShareBroken(l, steps, w, balance, market, t, map[]);
  }

  lemma LessThanItsMultiple(value: real, most: real) returns (brought: real)
    requires value > 0.0 && most > 1.0
    ensures 0.0 < brought < value == Part(most, brought)
  {
    brought := value / most;
    assert Part(most, brought) == value;
    assert brought > 0.0;
    MulPositive(most - 1.0, brought);
    assert Part(most, brought) == brought + (most - 1.0) * brought;
  }

  /** n purchases, a sale that is valued at what the ledger has to give for one more purchase to fit, and that purchase. */
  lemma SellAndBuyAgain(l: Limits, balance: real, market: string, t: Terms, amount: real, n: nat, value: real)
    returns (steps: seq<Step>, w: World, proceeds: map<string, real>)
    requires t.each >= 1 && t.k >= 1 && t.least <= 1.0 && t.most > 1.0 && t.start >= 0.0 && n >= 1
    requires 0.0 < value <= amount && Sized(l, balance, amount, Gaps(n - 1, amount))
    requires Gaps(n + 1, amount) == PositionCap(l, balance) + value
    ensures Covered(l, false, Flat(balance), steps, balance, market, t, proceeds)
    ensures Run(l, Start(false, Flat(balance)), steps) == Some(w) && Bounded(w)
    ensures Bought(w, market, t.start, proceeds) > PositionCap(l, balance)
  {
    hide PositionCap, Covered, Run, Bought, ViewValue, Part, Gaps;
    var c, v: World := For(l, balance, market, t), *;
    SettingFacts(l, balance, market, t);
    assert Permissive(l, balance) && amount <= l.maxSingleOrderKrw;
    ExactIsFair(amount, t.least);
    ExactIsFair(value, 0.0);
    assert Exact(amount).state == Exact(value).state == Done;
    GapsUpTo(n, amount);
    GapsUpTo(n - 1, amount);
    GapsUpTo(0, amount);
    var brought := LessThanItsMultiple(value, t.most);
    var cap := PositionCap(l, balance);
    assert Sized(l, balance, amount, cap - amount);
    proceeds := map[Uuid(n) := brought];
    assert Brought(proceeds, Uuid(n)) == brought;
    assert Gaps(n, amount) - value == cap - amount && Gaps(n, amount) >= amount;
    hide *;
    steps, v := Accumulate(c, balance, t, proceeds, amount, Exact(amount), n);
    steps, w := SellOnce(c, steps, v, balance, Gaps(n, amount), t.start + Gaps(n, amount), t, proceeds, Exact(value));
    steps, w := BuyOnce(c, steps, w, balance, cap - amount, t.start + Gaps(n, amount) - brought, t, proceeds, amount,
                        Exact(amount));
    HoldingFacts(w, market, balance, cap - amount + amount, t.start + Gaps(n, amount) - brought + amount, t, proceeds);
    ReachedIsCovered(l, balance, market, t, proceeds, steps, w);
  }

  /** A sale the ledger takes for more than it brought in. */
  lemma OvervaluedSaleExceeds(l: Limits, balance: real, market: string, t: Terms)
    requires Permissive(l, balance) && t.each >= 1 && t.k >= 1 && t.least <= 1.0 && t.most > 1.0 && t.start >= 0.0
    ensures !ShareHolds(l, balance, market, t)
  {
    hide PositionCap, ShareHolds, ViewValue, Part, Gaps;
    var cap := PositionCap(l, balance);
    var amount := Min(l.maxSingleOrderKrw, cap / 2.0);
    var n := Fitting(cap, amount);
    GapsUpTo(n, amount);
    GapsUpTo(n + 1, amount);
    ExactIsFair(amount, t.least);
    var value := Gaps(n + 2, amount) - cap;
    var steps, w, proceeds := SellAndBuyAgain(l, balance, market, t, amount, n + 1, value);
    hide *;
    ShareBroken(l, steps, w, balance, market, t, proceeds);
  }

  /** When the documented share is kept, by all runs in which at most so many attempts are made for an order, at most k
      purchases of the market are open, purchases are valued at no less than a part of their cost and sales at no more than a
      multiple of what they brought in, and the account held so much of the market before: if and only if that is one
      attempt, one purchase at a time, at full cost, no more than was brought in, and nothing. */
  lemma ShareHoldsIff(l: Limits, balance: real, market: string, t: Terms)
    requires Permissive(l, balance) && t.each >= 1 && t.k >= 1 && t.least <= 1.0 && t.start >= 0.0
    ensures ShareHolds(l, balance, market, t)
       <==> t.each == 1 && t.k == 1 && t.least == 1.0 && t.most <= 1.0 && t.start == 0.0
  {
    hide Permissive, ShareHolds;
    if t.each >= 2 || t.k >= 2 {
      ManyOrdersExceed(l, balance, market, t);
    } else if t.start > 0.0 {
      HeldBeforeExceeds(l, balance, market, t);
    } else if t.least < 1.0 {
      UndervaluedExceed(l, balance, market, t);
    } else if t.most > 1.0 {
      OvervaluedSaleExceeds(l, balance, market, t);
    } else {
      OneOrderHolds(l, balance, market, t);
    }
  }

  // ---- without a floor under the values there is no bound

  lemma EnoughPurchases(bound: real, amount: real) returns (n: nat)
    requires amount > 0.0
    ensures Gaps(n, amount) > bound && n >= 1
  {
    var q := Max(0.0, bound) / amount;
    assert q * amount == Max(0.0, bound);
    n := q.Floor + 1;
    MoreGaps(q, n, amount);
  }

  lemma SmallPart(n: nat, amount: real) returns (part: real)
    requires amount > 0.0
    ensures 0.0 < part <= 1.0 && 0.0 <= Gaps(n, Part(part, amount)) <= amount
  {
    part := 1.0 / (n + 1) as real;
    assert part * (n + 1) as real == 1.0;
    assert Gaps(n + 1, part) == 1.0;
    if part <= 0.0 { MulMonotone(part, 0.0, (n + 1) as real); }
    GapsUpTo(n, part);
    assert Gaps(n, Part(part, amount)) == Part(Gaps(n, part), amount);
    hide Gaps;
    PartsGrow(Gaps(n, part), 1.0, amount);
    PartsGrow(0.0, Gaps(n, part), amount);
  }

  /** A purchase as the exchange may report it: no price at all, or the KRW amount as the price. */
  function Reported(echoed: bool, volume: real, amount: real): OrderView {
    OrderView(Done, Some(volume), if echoed then Some(amount) else None, None)
  }

  /** Without a floor under the values there is no bound: one purchase at a time, every create call returned, every order seen
      done, published and settled, none valued at more than its cost, and more bought than any bound, when no price is
      reported or when the KRW amount is echoed as the price and little enough of a unit was bought. */
  lemma UndervaluedWithoutBound(l: Limits, balance: real, market: string, bound: real, echoed: bool)
    returns (steps: seq<Step>, w: World)
    requires Permissive(l, balance)
    ensures var t := Terms(1, 1, 0.0, 1.0, 0.0);
            && Covered(l, false, Flat(balance), steps, balance, market, t, map[])
            && Run(l, Start(false, Flat(balance)), steps) == Some(w) && Bounded(w)
            && Bought(w, market, 0.0, map[]) > bound
            && w.stray == [] && w.settled == |w.filled| && FillsWithinApproval(w) && Smooth(w)
            && (!echoed ==> PositionOf(w.risk.positions, market) == 0.0)
  {
    var t, cap := Terms(1, 1, 0.0, 1.0, 0.0), PositionCap(l, balance);
    var amount := Min(l.maxSingleOrderKrw, cap / 2.0);
    var n := EnoughPurchases(bound, amount);
    var part := SmallPart(n - 1, amount);
    var view := Reported(echoed, part, amount);
    var worth := if echoed then Part(part, amount) else 0.0;
    EchoedWorth(part, amount);
    assert ViewValue(view) == worth && view.state == Done && Part(t.least, amount) == 0.0;
    assert 0.0 <= worth <= amount && Gaps(n - 1, worth) <= amount by { GapsUpTo(0, amount); assert Gaps(n - 1, 0.0) == 0.0; }
    assert Sized(l, balance, amount, Gaps(n - 1, worth));
    assert Gaps(n, 0.0) == 0.0 && t.start == 0.0;
    hide *;
    steps, w := BoughtOneByOne(l, balance, market, t, amount, view, n);
  }

  // ---- stray orders have no bound

  /** No fill was ever reported, the ledger is as it was, and every approval has left three stray orders. */
  ghost predicate Losing(w: World, market: string, amount: real, n: nat, balance: real) {
    && Waiting(w, 0) && w.judged == |w.requests| && w.filled == [] && w.risk == Flat(balance)
    && (forall o | o in w.requests :: o == BuyOrder(market, amount))
    && Krw(market, w.stray) == Gaps(3 * n, amount)
  }

  lemma NothingLostYet(market: string, amount: real, balance: real)
    requires Gaps(0, amount) == 0.0
    ensures Losing(Start(false, Flat(balance)), market, amount, 0, balance)
  {
  }

  lemma SettledIsBounded(w: World)
    requires w.taken == |w.approved| && w.settled == |w.filled|
    ensures Bounded(w)
  {
  }

  lemma LosingFacts(v: World, market: string, amount: real, n: nat, balance: real)
    requires Losing(v, market, amount, n, balance)
    ensures Waiting(v, 0) && v.taken == |v.approved| && v.judged == |v.requests| && v.settled == |v.filled|
    ensures Untroubled(v.risk, market, 0.0, balance)
  {
    hide Krw, Gaps;
  }

  lemma ThreeMore(market: string, stray: seq<Ticket>, t: Ticket, amount: real, n: nat)
    requires t.order == BuyOrder(market, amount) && Krw(market, stray) == Gaps(3 * n, amount)
    ensures Krw(market, stray + [t] + [t] + [t]) == Gaps(3 * (n + 1), amount)
  {
    assert KrwOf(market, t) == amount;
    hide Krw, Gaps;
    KrwAppend(market, stray, t);
    KrwAppend(market, stray + [t], t);
    KrwAppend(market, stray + [t] + [t], t);
    OneMoreGap(3 * n + 1, amount);
    OneMoreGap(3 * n + 2, amount);
    OneMoreGap(3 * n + 3, amount);
  }

  lemma StillLosing(v: World, w: World, market: string, amount: real, n: nat, balance: real, t: Ticket)
    requires Losing(v, market, amount, n, balance) && t.order == BuyOrder(market, amount)
    requires w.requests == v.requests + [t.order] && w.judged == v.judged + 1 && w.risk == v.risk && w.filled == v.filled
    requires w.settled == v.settled && w.verdict == v.verdict && w.exec == IDLE && w.hand == None
    requires w.taken == |w.approved| && w.stray == v.stray + [t] + [t] + [t]
    ensures Losing(w, market, amount, n + 1, balance)
  {
    ThreeMore(market, v.stray, t, amount, n);
    hide Krw, Gaps;
  }

  /** The third reply is lost too, and the executor reports failure. */
  lemma LoseLast(c: Setting, steps: seq<Step>, w: World, t: Ticket) returns (longer: seq<Step>, w': World)
    requires Reached(c, steps, w) && Ample(c.a) && c.k >= 1 && Bounded(w) && c.a.each >= 3
    requires w.hand == Some(t) && w.exec == Exec(false, Creating(t.order, 3), {}, Running)
    requires About(c.a, w, {t})
    ensures Reached(c, longer, w')
    ensures w' == w.(calls := w.calls + [Call(t, PlacementOf(t.order), true)], stray := w.stray + [t], exec := IDLE,
                     hand := None, failed := w.failed + [Entry(t, FailureOf(t.order), true)])
  {
    hide Reached;
    var w1 := w.(calls := w.calls + [Call(t, PlacementOf(t.order), true)], stray := w.stray + [t],
                 exec := Exec(false, PublishingFailure(t.order), {}, Running));
    longer := Go(c, steps, w, Execute(CreateRaised(Some(Uuid(|w.calls|)))), w1, {t});
    w' := w1.(exec := IDLE, hand := None, failed := w.failed + [Entry(t, FailureOf(t.order), true)]);
    longer := Go(c, longer, w1, Execute(Published), w', {t});
  }

  lemma LoseThree(c: Setting, steps: seq<Step>, v: World, t: Ticket) returns (longer: seq<Step>, w: World)
    requires Reached(c, steps, v) && Ample(c.a) && c.k >= 1 && Bounded(v) && c.a.each >= 3
    requires v.hand == Some(t) && v.exec == Exec(false, Creating(t.order, 1), {}, Running) && About(c.a, v, {t})
    ensures Reached(c, longer, w)
    ensures w == v.(calls := w.calls, stray := v.stray + [t] + [t] + [t], exec := IDLE, hand := None, failed := w.failed)
  {
    hide Reached, About, PlacementOf, FailureOf;
    longer, w := LoseReply(c, steps, v, t, 1);
    longer, w := LoseReply(c, longer, w, t, 2);
    longer, w := LoseLast(c, longer, w, t);
  }

  lemma LoseOne(c: Setting, steps: seq<Step>, v: World, amount: real, n: nat, balance: real)
    returns (longer: seq<Step>, w: World)
    requires c.a == Fills(3) && c.k == 1 && Sized(c.l, balance, amount, 0.0) && Reached(c, steps, v)
    requires Losing(v, c.market, amount, n, balance)
    ensures Reached(c, longer, w) && Losing(w, c.market, amount, n + 1, balance)
  {
    var o, t := BuyOrder(c.market, amount), Ticket(v.judged, BuyOrder(c.market, amount));
    LosingFacts(v, c.market, amount, n, balance);
    Admissible(c.l, v.risk, c.market, amount, 0.0, balance);
    assert Ample(c.a) && c.a.each == 3 && Strays(c.a, v) == [];
    hide *;
    longer, w := ApproveAndTake(c, steps, v, o);
    SettledIsBounded(w);
    longer, w := LoseThree(c, longer, w, t);
    StillLosing(v, w, c.market, amount, n, balance, t);
  }

  lemma {:induction false} LoseMany(c: Setting, amount: real, n: nat, balance: real) returns (steps: seq<Step>, w: World)
    requires c.w0 == Start(false, Flat(balance)) && c.a == Fills(3) && c.k == 1 && Sized(c.l, balance, amount, 0.0)
    ensures Reached(c, steps, w) && Losing(w, c.market, amount, n, balance)
  {
    OneMoreGap(0, amount);
    hide *;
    if n == 0 {
      steps, w := [], c.w0;
      NothingDone(c, balance);
      NothingLostYet(c.market, amount, balance);
    } else {
      steps, w := LoseMany(c, amount, n - 1, balance);
      steps, w := LoseOne(c, steps, w, amount, n - 1, balance);
    }
  }

  lemma LostIsBought(w: World, market: string, amount: real, n: nat, balance: real)
    requires Losing(w, market, amount, n, balance) && amount > 0.0
    ensures Bounded(w) && Bought(w, market, 0.0, map[]) == Gaps(3 * n, amount)
    ensures PurchasesCarryAmount(w) && FillsNonnegative(w) && Valued(w, 1.0, 1.0, map[])
  {
    hide Gaps, Krw;
    assert AcceptedOpen(w) == w.stray;
  }

  lemma MoreOfThem(n: nat, amount: real)
    requires amount > 0.0
    ensures Gaps(n, amount) <= Gaps(3 * n, amount)
  {
    MulMonotone(n as real, (3 * n) as real, amount);
  }

  /** Counting only what is in flight there is no bound at all: with one purchase in flight at any time, orders whose
      create replies are lost pile up on the exchange while the ledger stays empty. */
  lemma StraysWithoutBound(l: Limits, balance: real, market: string, bound: real) returns (steps: seq<Step>)
    requires Permissive(l, balance)
    ensures UniqueUuids(steps)
    ensures Assumed(Fills(3), l, Start(false, Flat(balance)), steps) && BalanceFixed(steps, balance)
    ensures Valued(Run(l, Start(false, Flat(balance)), steps).value, 1.0, 1.0, map[])
    ensures NeverMoreOpen(Fills(3), l, Start(false, Flat(balance)), steps, Some(market), 1)
    ensures !BoughtWithin(l, false, Flat(balance), steps, market, 0.0, map[], bound)
  {
    var amount := Min(l.maxSingleOrderKrw, PositionCap(l, balance));
    assert Sized(l, balance, amount, 0.0);
    hide Sized, Gaps, PositionCap, Permissive, Valued;
    var n := EnoughPurchases(bound, amount);
    MoreOfThem(n, amount);
    var c, w: World := Setting(l, Start(false, Flat(balance)), market, Fills(3), 1), *;
    steps, w := LoseMany(c, amount, n, balance);
    hide Run, AllFit, NeverMoreOpen, Bought, FillsNonnegative, PurchasesCarryAmount, UniqueUuids;
    LostIsBought(w, market, amount, n, balance);
  }
}
