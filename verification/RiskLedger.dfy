/** What the risk manager knows, and how order results and limits act on it. */
module RiskLedger {
  import opened Prelude
  import opened Messages

  const DAY_SECONDS := 86400.0

  type Positions = map<string, real>

  datatype Limits = Limits(
    maxPositionRatio: real, maxDailyLossKrw: real, maxSingleOrderKrw: real,
    maxOpenPositions: int, drawdownLimit: real)

  datatype RiskState = RiskState(
    enabled: bool, positions: Positions, openPositions: nat, totalBalance: real, peakBalance: real,
    dailyPnl: real, dailyResetTime: real, prices: map<string, real>, halted: bool)

  datatype Rejection = KillSwitch | TradingHalted | DailyLoss | Drawdown | OrderTooLarge | PositionRatio | MaxOpenPositions

  // ---- the ledger

  function PositionOf(positions: Positions, market: string): real {
    if market in positions then positions[market] else 0.0
  }

  function ValueOf(r: OrderResult): real {
    r.executedVolume * r.executedPrice
  }

  predicate Counts(r: OrderResult) {
    r.status == Filled
  }

  /** A sale takes its value off the position, down to zero; a purchase adds its value. */
  function Settle(positions: Positions, r: OrderResult): Positions {
    if !Counts(r) then positions
    else
      var current := PositionOf(positions, r.market);
      positions[r.market := if r.side == Ask then Max(0.0, current - ValueOf(r)) else current + ValueOf(r)]
  }

  lemma ValueMeans(r: OrderResult)
    ensures ValueOf(r) == r.executedVolume * r.executedPrice
  {
  }

  /** A filled order moves the position of its market by executed volume times executed price, down to zero at most; no other
      position moves, and no result of another status moves any. */
  lemma FillMoves(positions: Positions, r: OrderResult, market: string)
    ensures var p, p' := PositionOf(positions, market), PositionOf(Settle(positions, r), market);
            var value := r.executedVolume * r.executedPrice;
            p' == if r.status != Filled || r.market != market then p
                  else if r.side == Bid then p + value
                  else if p > value then p - value
                  else 0.0
  {
    ValueMeans(r);
    hide ValueOf;
  }

  function Positive(positions: Positions): set<string> {
    set m | m in positions && positions[m] > 0.0
  }

  function ApplyResult(s: RiskState, r: OrderResult): RiskState {
    if !Counts(r) then s
    else
      var positions := Settle(s.positions, r);
      s.(positions := positions, openPositions := |Positive(positions)|)
  }

  function Replay(results: seq<OrderResult>): Positions {
    if results == [] then map[] else Settle(Replay(results[..|results| - 1]), results[|results| - 1])
  }

  /** What one result adds to an unclamped running sum for a market. */
  function SignedValue(r: OrderResult, market: string): real {
    if !Counts(r) || r.market != market then 0.0
    else if r.side == Ask then -ValueOf(r) else ValueOf(r)
  }

  function RunningSum(results: seq<OrderResult>, market: string): real {
    if results == [] then 0.0
    else RunningSum(results[..|results| - 1], market) + SignedValue(results[|results| - 1], market)
  }

  predicate PurchasesNonnegative(results: seq<OrderResult>) {
    forall r | r in results && r.side == Bid :: ValueOf(r) >= 0.0
  }

  /** p is the largest rise of the running sum from any point of the past, the empty past included, to now. */
  ghost predicate LargestRise(p: real, results: seq<OrderResult>, market: string) {
    && (forall k | 0 <= k <= |results| :: p >= RunningSum(results, market) - RunningSum(results[..k], market))
    && (exists k | 0 <= k <= |results| :: p == RunningSum(results, market) - RunningSum(results[..k], market))
  }

  lemma PrefixSums(init: seq<OrderResult>, r: OrderResult, market: string)
    ensures forall k | 0 <= k <= |init| :: RunningSum((init + [r])[..k], market) == RunningSum(init[..k], market)
    ensures RunningSum(init + [r], market) == RunningSum(init, market) + SignedValue(r, market)
    ensures (init + [r])[..|init| + 1] == init + [r] && init[..|init|] == init
  {
    hide SignedValue;
    assert (init + [r])[..|init|] == init;
    forall k | 0 <= k <= |init| ensures (init + [r])[..k] == init[..k] { }
  }

  lemma LedgerStep(init: seq<OrderResult>, r: OrderResult, market: string, p: real, p': real)
    requires LargestRise(p, init, market) && (r.side == Bid ==> ValueOf(r) >= 0.0)
    requires p' == if !Counts(r) || r.market != market then p
                   else if r.side == Ask then Max(0.0, p - ValueOf(r)) else p + ValueOf(r)
    ensures LargestRise(p', init + [r], market)
  {
    PrefixSums(init, r, market);
    hide ValueOf, RunningSum;
    var n, all, x := |init|, init + [r], p' - p;
    assert p >= RunningSum(init, market) - RunningSum(init[..n], market);
    var k0 :| 0 <= k0 <= n && p == RunningSum(init, market) - RunningSum(init[..k0], market);
    var k1 := if SignedValue(r, market) == x then k0 else n + 1;
    hide SignedValue;
    assert p' == RunningSum(all, market) - RunningSum(all[..k1], market);
  }

  lemma NothingRecorded(market: string)
    ensures LargestRise(PositionOf(Replay([]), market), [], market)
  {
    var none: seq<OrderResult> := [];
    assert none[..0] == none;
  }

  lemma PositionMoves(results: seq<OrderResult>, market: string)
    requires results != []
    ensures var r := results[|results| - 1];
            var p, p' := PositionOf(Replay(results[..|results| - 1]), market), PositionOf(Replay(results), market);
            p' == (if !Counts(r) || r.market != market then p
                   else if r.side == Ask then Max(0.0, p - ValueOf(r)) else p + ValueOf(r))
  {
    hide ValueOf;
  }

  /** The clamped ledger in closed form: S_n minus the lowest S_k, the running sums being unclamped. */
  lemma {:induction false} LedgerClosedForm(results: seq<OrderResult>, market: string)
    requires PurchasesNonnegative(results)
    ensures LargestRise(PositionOf(Replay(results), market), results, market)
  {
    hide Counts, ValueOf, RunningSum, LargestRise, Replay;
    if results == [] {
      NothingRecorded(market);
    } else {
      var init, r := results[..|results| - 1], results[|results| - 1];
      assert r in results && init + [r] == results;
      LedgerClosedForm(init, market);
      PositionMoves(results, market);
      LedgerStep(init, r, market, PositionOf(Replay(init), market), PositionOf(Replay(results), market));
    }
  }

  lemma EveryMarketClosedForm(results: seq<OrderResult>)
    requires PurchasesNonnegative(results)
    ensures forall m :: LargestRise(PositionOf(Replay(results), m), results, m)
  {
    forall m ensures LargestRise(PositionOf(Replay(results), m), results, m) {
      LedgerClosedForm(results, m);
    }
  }

  /** Results of other markets never move a market's position. */
  function OnlyMarket(results: seq<OrderResult>, market: string): seq<OrderResult> {
    if results == [] then []
    else
      var r := results[|results| - 1];
      OnlyMarket(results[..|results| - 1], market) + if r.market == market then [r] else []
  }

  lemma SettleIsLocal(p: Positions, q: Positions, r: OrderResult, market: string)
    requires PositionOf(p, market) == PositionOf(q, market)
    ensures r.market == market ==> PositionOf(Settle(p, r), market) == PositionOf(Settle(q, r), market)
    ensures r.market != market ==> PositionOf(Settle(p, r), market) == PositionOf(p, market)
  {
    hide ValueOf;
  }

  lemma ReplayAppend(results: seq<OrderResult>, r: OrderResult)
    ensures Replay(results + [r]) == Settle(Replay(results), r)
  {
    assert (results + [r])[..|results|] == results;
  }

  lemma {:induction false} LedgerIsLocal(results: seq<OrderResult>, market: string)
    ensures PositionOf(Replay(results), market) == PositionOf(Replay(OnlyMarket(results, market)), market)
  {
    if results != [] {
      var init, r := results[..|results| - 1], results[|results| - 1];
      LedgerIsLocal(init, market);
      var own := OnlyMarket(init, market);
      assert results == init + [r];
      assert OnlyMarket(results, market) == if r.market == market then own + [r] else own;
      hide OnlyMarket, Replay;
      ReplayAppend(init, r);
      ReplayAppend(own, r);
      SettleIsLocal(Replay(init), Replay(own), r, market);
    }
  }

  lemma {:induction false} LedgerNonnegative(results: seq<OrderResult>)
    requires PurchasesNonnegative(results)
    ensures forall m | m in Replay(results) :: Replay(results)[m] >= 0.0
  {
    if results != [] {
      assert results[|results| - 1] in results;
      LedgerNonnegative(results[..|results| - 1]);
    }
  }

  /** The same results with every execution counted, whatever the final status of its order. */
  function AsExecuted(results: seq<OrderResult>): seq<OrderResult> {
    if results == [] then []
    else AsExecuted(results[..|results| - 1]) + [results[|results| - 1].(status := Filled)]
  }

  lemma SettleNothing(positions: Positions, r: OrderResult)
    ensures !Counts(r) ==> Settle(positions, r) == positions
  {
  }

  /** The ledger agrees with the ledger of all executions. */
  predicate Agrees(results: seq<OrderResult>, market: string) {
    PositionOf(Replay(AsExecuted(results)), market) == PositionOf(Replay(results), market)
  }

  /** A result that the ledger may leave uncounted without harm: it is about another market, executed nothing of
      value, or sold what the ledger did not hold. */
  predicate Harmless(position: real, r: OrderResult, market: string) {
    || r.market != market || Counts(r) || ValueOf(r) == 0.0
    || (r.side == Ask && ValueOf(r) > 0.0 && position == 0.0)
  }

  lemma SettleExecutedIff(p: Positions, q: Positions, r: OrderResult, market: string)
    requires PositionOf(p, market) == PositionOf(q, market) >= 0.0 && (r.side == Bid ==> ValueOf(r) >= 0.0)
    ensures PositionOf(Settle(q, r), market) >= 0.0
    ensures PositionOf(Settle(p, r.(status := Filled)), market) == PositionOf(Settle(q, r), market)
       <==> Harmless(PositionOf(q, market), r, market)
  {
    assert ValueOf(r.(status := Filled)) == ValueOf(r);
    hide ValueOf;
  }

  lemma {:induction false} PositionKept(results: seq<OrderResult>, market: string)
    requires PurchasesNonnegative(results)
    ensures PositionOf(Replay(results), market) >= 0.0
  {
    LedgerNonnegative(results);
    hide Replay;
  }

  ghost predicate AgreesThroughout(results: seq<OrderResult>, market: string) {
    forall k | 0 <= k <= |results| :: Agrees(results[..k], market)
  }

  predicate HarmlessAt(before: seq<OrderResult>, r: OrderResult, market: string) {
    Harmless(PositionOf(Replay(before), market), r, market)
  }

  ghost predicate HarmlessThroughout(results: seq<OrderResult>, market: string) {
    forall i | 0 <= i < |results| :: HarmlessAt(results[..i], results[i], market)
  }

  lemma OneResultMore(results: seq<OrderResult>, market: string)
    requires results != []
    ensures var init, r := results[..|results| - 1], results[|results| - 1];
            && (AgreesThroughout(results, market) <==> AgreesThroughout(init, market) && Agrees(results, market))
            && (HarmlessThroughout(results, market) <==> HarmlessThroughout(init, market) && HarmlessAt(init, r, market))
  {
    hide Agrees, HarmlessAt;
    var n := |results| - 1;
    var init := results[..n];
    assert results[..n + 1] == results;
    assert forall k | 0 <= k <= n :: init[..k] == results[..k];
    if AgreesThroughout(results, market) {
      forall k | 0 <= k <= n ensures Agrees(init[..k], market) { assert Agrees(results[..k], market); }
      assert Agrees(results[..n + 1], market);
    }
    if AgreesThroughout(init, market) && Agrees(results, market) {
      forall k | 0 <= k <= n + 1 ensures Agrees(results[..k], market) {
        if k <= n { assert Agrees(init[..k], market); }
      }
    }
    if HarmlessThroughout(results, market) {
      forall i | 0 <= i < n ensures HarmlessAt(init[..i], init[i], market) {
        assert HarmlessAt(results[..i], results[i], market);
      }
      assert HarmlessAt(results[..n], results[n], market);
    }
    if HarmlessThroughout(init, market) && HarmlessAt(init, results[n], market) {
      forall i | 0 <= i < |results| ensures HarmlessAt(results[..i], results[i], market) {
        if i < n { assert HarmlessAt(init[..i], init[i], market); }
      }
    }
  }

  lemma LastAgreesIff(init: seq<OrderResult>, r: OrderResult, market: string)
    requires PurchasesNonnegative(init) && (r.side == Bid ==> ValueOf(r) >= 0.0) && Agrees(init, market)
    ensures Agrees(init + [r], market) <==> HarmlessAt(init, r, market)
  {
    PositionKept(init, market);
    assert AsExecuted(init + [r]) == AsExecuted(init) + [r.(status := Filled)] by { assert (init + [r])[..|init|] == init; }
    hide Settle, Replay, AsExecuted, Harmless, PositionOf, ValueOf;
    ReplayAppend(init, r);
    ReplayAppend(AsExecuted(init), r.(status := Filled));
    SettleExecutedIff(Replay(AsExecuted(init)), Replay(init), r, market);
  }

  /** After every prefix of the results the ledger is the ledger of all executions exactly when every result it does not
      count was harmless: of no value, or the sale of something it did not hold. */
  lemma {:induction false} LedgerExactIff(results: seq<OrderResult>, market: string)
    requires PurchasesNonnegative(results)
    ensures AgreesThroughout(results, market) <==> HarmlessThroughout(results, market)
  {
    if results == [] {
      assert AsExecuted(results[..0]) == results[..0];
    } else {
      var init, r := results[..|results| - 1], results[|results| - 1];
      assert r in results && results == init + [r];
      assert PurchasesNonnegative(init) && (r.side == Bid ==> ValueOf(r) >= 0.0);
      LedgerExactIff(init, market);
      OneResultMore(results, market);
      assert init[..|init|] == init;
      assert AgreesThroughout(init, market) ==> Agrees(init[..|init|], market);
      hide *;
      if Agrees(init, market) { LastAgreesIff(init, r, market); }
    }
  }

  /** What a cancelled order had already bought is missed. */
  lemma CancelledPurchaseIsMissed(market: string)
    ensures var r := OrderResult("u", market, Bid, Cancelled, 2.0, 100.0, 0.0);
            PositionOf(Replay([r]), market) == 0.0 && PositionOf(Replay(AsExecuted([r])), market) == 200.0
  {
    var r := OrderResult("u", market, Bid, Cancelled, 2.0, 100.0, 0.0);
    assert [r][..0] == [];
    assert AsExecuted([r]) == [r.(status := Filled)];
    assert [r.(status := Filled)][..0] == [];
  }

  // ---- sums over a dictionary

  ghost function SumValues(m: Positions): real
    decreases |m|
  {
    if |m| == 0 then 0.0
    else
      var k :| k in m;
      m[k] + SumValues(m - {k})
  }

  lemma Peel(m: Positions, k: string) returns (j: string)
    requires k in m
    ensures j in m && SumValues(m) == m[j] + SumValues(m - {j})
  {
    assert |m| > 0;
    j :| j in m && SumValues(m) == m[j] + SumValues(m - {j});
  }

  lemma Fewer(m: Positions, k: string)
    requires k in m
    ensures |m - {k}| < |m|
  {
    assert (m - {k}).Keys == m.Keys - {k};
  }

  /** The sum does not depend on which entry is taken first. */
  lemma {:induction false} SumValuesAny(m: Positions, k: string)
    requires k in m
    ensures SumValues(m) == m[k] + SumValues(m - {k})
    decreases |m|
  {
    hide SumValues;
    var j := Peel(m, k);
    if j != k {
      Fewer(m, j);
      Fewer(m, k);
      SumValuesAny(m - {j}, k);
      SumValuesAny(m - {k}, j);
      assert m - {j} - {k} == m - {k} - {j};
    }
  }

  method TotalValue(m: Positions) returns (sum: real)
    ensures sum == SumValues(m)
  {
    sum := 0.0;
    var rest := m;
    while |rest| > 0
      invariant sum + SumValues(rest) == SumValues(m)
      decreases |rest|
    {
      var k :| k in rest;
      SumValuesAny(rest, k);
      Fewer(rest, k);
      sum, rest := sum + rest[k], rest - {k};
    }
  }

  // ---- admission

  function Estimate(prices: map<string, real>, o: OrderRequest): Option<real> {
    if Truthy(o.amountKrw) then o.amountKrw
    else if Truthy(o.price) && Truthy(o.volume) then Some(o.price.value * o.volume.value)
    else
      var price := if o.market in prices then Some(prices[o.market]) else None;
      if Truthy(price) && Truthy(o.volume) then Some(price.value * o.volume.value) else None
  }

  function AmountOf(s: RiskState, o: OrderRequest): real {
    OrZero(Estimate(s.prices, o))
  }

  predicate LossBreached(l: Limits, s: RiskState) {
    s.dailyPnl < -l.maxDailyLossKrw
  }

  ghost predicate DrawdownBreached(l: Limits, s: RiskState) {
    s.peakBalance > 0.0 && (s.peakBalance - SumValues(s.positions)) / s.peakBalance > l.drawdownLimit
  }

  /** The check, in the order in which it is made; its only effect on the state is to set the halt. */
  ghost function Validate(l: Limits, s: RiskState, o: OrderRequest): (Option<Rejection>, RiskState) {
    if !s.enabled then (Some(KillSwitch), s)
    else if s.halted then (Some(TradingHalted), s)
    else if LossBreached(l, s) then (Some(DailyLoss), s.(halted := true))
    else if DrawdownBreached(l, s) then (Some(Drawdown), s.(halted := true))
    else if AmountOf(s, o) > l.maxSingleOrderKrw && AmountOf(s, o) != 0.0 then (Some(OrderTooLarge), s)
    else if o.side == Ask then (None, s)
    else if s.totalBalance > 0.0
         && (PositionOf(s.positions, o.market) + AmountOf(s, o)) / s.totalBalance > l.maxPositionRatio
    then (Some(PositionRatio), s)
    else if PositionOf(s.positions, o.market) == 0.0 && s.openPositions >= l.maxOpenPositions
    then (Some(MaxOpenPositions), s)
    else (None, s)
  }

  /** The limits as they are documented, without divisions or order of evaluation. */
  ghost predicate WithinLimits(l: Limits, s: RiskState, o: OrderRequest) {
    && s.enabled && !s.halted
    && s.dailyPnl >= -l.maxDailyLossKrw
    && (s.peakBalance > 0.0 ==> SumValues(s.positions) >= s.peakBalance * (1.0 - l.drawdownLimit))
    && (AmountOf(s, o) <= l.maxSingleOrderKrw || AmountOf(s, o) == 0.0)
    && (o.side == Bid ==>
          && (s.totalBalance > 0.0 ==>
                PositionOf(s.positions, o.market) + AmountOf(s, o) <= l.maxPositionRatio * s.totalBalance)
          && (PositionOf(s.positions, o.market) != 0.0 || s.openPositions < l.maxOpenPositions))
  }

  lemma QuotientAtMost(x: real, t: real, r: real)
    requires t > 0.0
    ensures x / t > r <==> x > r * t
  {
    assert x / t * t == x;
    if x / t > r { MulPositive(x / t - r, t); }
    if x / t <= r { MulMonotone(x / t, r, t); }
  }

  lemma DrawdownMeaning(peak: real, value: real, limit: real)
    requires peak > 0.0
    ensures (peak - value) / peak > limit <==> value < peak * (1.0 - limit)
  {
    QuotientAtMost(peak - value, peak, limit);
  }

  lemma DrawdownBreachedIff(l: Limits, s: RiskState)
    ensures DrawdownBreached(l, s)
       <==> s.peakBalance > 0.0 && SumValues(s.positions) < s.peakBalance * (1.0 - l.drawdownLimit)
  {
    hide SumValues;
    if s.peakBalance > 0.0 { DrawdownMeaning(s.peakBalance, SumValues(s.positions), l.drawdownLimit); }
  }

  /** An order is admitted exactly when every limit holds of the ledger at that moment. */
  lemma AdmittedIffWithinLimits(l: Limits, s: RiskState, o: OrderRequest)
    ensures Validate(l, s, o).0.None? <==> WithinLimits(l, s, o)
  {
    DrawdownBreachedIff(l, s);
    hide SumValues, Estimate, DrawdownBreached;
    if s.totalBalance > 0.0 {
      QuotientAtMost(PositionOf(s.positions, o.market) + AmountOf(s, o), s.totalBalance, l.maxPositionRatio);
    }
  }

  /** The amount an order is held against, case by case: the amount it states; else the price it states times its volume;
      else the last ticker price of its market times its volume; else nothing. Zero counts as not stated. */
  predicate HeldAgainst(prices: map<string, real>, o: OrderRequest, x: real) {
    var amount, price, volume := OrZero(o.amountKrw), OrZero(o.price), OrZero(o.volume);
    && (amount != 0.0 ==> x == amount)
    && (amount == 0.0 && price != 0.0 ==> x == price * volume)
    && (amount == 0.0 && price == 0.0 && o.market in prices ==> x == prices[o.market] * volume)
    && (amount == 0.0 && price == 0.0 && o.market !in prices ==> x == 0.0)
  }

  lemma AmountHeld(prices: map<string, real>, o: OrderRequest, x: real)
    ensures HeldAgainst(prices, o, x) <==> x == OrZero(Estimate(prices, o))
  {
  }

  /** Trading is on, not halted, and neither the daily loss nor the drawdown limit is breached. */
  ghost predicate Unbreached(l: Limits, s: RiskState) {
    && s.enabled && !s.halted && s.dailyPnl >= -l.maxDailyLossKrw
    && (s.peakBalance > 0.0 ==> SumValues(s.positions) >= s.peakBalance * (1.0 - l.drawdownLimit))
  }

  lemma UnbreachedIff(l: Limits, s: RiskState)
    ensures Unbreached(l, s) <==> s.enabled && !s.halted && !LossBreached(l, s) && !DrawdownBreached(l, s)
  {
    DrawdownBreachedIff(l, s);
    hide SumValues, DrawdownBreached;
  }

  /** A share of the balance that is beyond the position limit. */
  predicate OverShare(l: Limits, s: RiskState, position: real, x: real) {
    s.totalBalance > 0.0 && position + x > l.maxPositionRatio * s.totalBalance
  }

  lemma OverShareIff(l: Limits, s: RiskState, position: real, x: real)
    ensures OverShare(l, s, position, x)
       <==> s.totalBalance > 0.0 && (position + x) / s.totalBalance > l.maxPositionRatio
  {
    if s.totalBalance > 0.0 { QuotientAtMost(position + x, s.totalBalance, l.maxPositionRatio); }
  }

  lemma UnbreachedAnswer(l: Limits, s: RiskState, o: OrderRequest)
    requires Unbreached(l, s)
    ensures var x := AmountOf(s, o);
            && (Validate(l, s, o).0 == Some(OrderTooLarge) <==> x > l.maxSingleOrderKrw && x != 0.0)
            && (Validate(l, s, o).0 == Some(PositionRatio) <==>
                  && !(x > l.maxSingleOrderKrw && x != 0.0) && o.side == Bid
                  && OverShare(l, s, PositionOf(s.positions, o.market), x))
            && (Validate(l, s, o).0 == Some(MaxOpenPositions) <==>
                  && !(x > l.maxSingleOrderKrw && x != 0.0) && o.side == Bid
                  && !OverShare(l, s, PositionOf(s.positions, o.market), x)
                  && PositionOf(s.positions, o.market) == 0.0 && s.openPositions >= l.maxOpenPositions)
  {
    UnbreachedIff(l, s);
    OverShareIff(l, s, PositionOf(s.positions, o.market), AmountOf(s, o));
    hide SumValues, AmountOf, PositionOf, DrawdownBreached, LossBreached, OverShare, Unbreached;
  }

  /** What the order limit and the position limit are applied to is that amount, for each kind of order; the open count
      comes last. */
  lemma AmountLimitsIff(l: Limits, s: RiskState, o: OrderRequest)
    requires Unbreached(l, s)
    ensures Validate(l, s, o).0 == Some(OrderTooLarge)
       <==> exists x :: HeldAgainst(s.prices, o, x) && x > l.maxSingleOrderKrw && x != 0.0
    ensures Validate(l, s, o).0 == Some(PositionRatio)
       <==> exists x ::
              && HeldAgainst(s.prices, o, x) && (x <= l.maxSingleOrderKrw || x == 0.0) && o.side == Bid
              && OverShare(l, s, PositionOf(s.positions, o.market), x)
    ensures Validate(l, s, o).0 == Some(MaxOpenPositions)
       <==> exists x ::
              && HeldAgainst(s.prices, o, x) && (x <= l.maxSingleOrderKrw || x == 0.0) && o.side == Bid
              && !OverShare(l, s, PositionOf(s.positions, o.market), x)
              && PositionOf(s.positions, o.market) == 0.0 && s.openPositions >= l.maxOpenPositions
  {
    UnbreachedAnswer(l, s, o);
    var a := AmountOf(s, o);
    forall x ensures HeldAgainst(s.prices, o, x) <==> x == a { AmountHeld(s.prices, o, x); }
    hide Validate, HeldAgainst, AmountOf, PositionOf, Unbreached, OverShare;
    assert HeldAgainst(s.prices, o, a);
  }

  /** With no limit breached the size is all that a sale can be rejected for. */
  lemma SaleJudgedBySize(l: Limits, s: RiskState, o: OrderRequest)
    requires Unbreached(l, s) && o.side == Ask
    ensures Validate(l, s, o).0 == None || Validate(l, s, o).0 == Some(OrderTooLarge)
  {
    UnbreachedIff(l, s);
    hide SumValues, AmountOf, PositionOf, DrawdownBreached, LossBreached, Unbreached;
  }

  /** Validation halts trading exactly when it is consulted, enabled and unhalted, on a breached day. */
  lemma HaltsIffBreached(l: Limits, s: RiskState, o: OrderRequest)
    ensures Validate(l, s, o).1 == s.(halted := s.halted || (s.enabled && (LossBreached(l, s) || DrawdownBreached(l, s))))
    ensures Validate(l, s, o).1 != s ==> Validate(l, s, o).0.Some?
  {
  }

  /** The position limit binds no purchase while the balance is the zero it starts with. */
  lemma RatioInertWithoutBalance(l: Limits, s: RiskState, o: OrderRequest)
    requires s.totalBalance == 0.0
    ensures Validate(l, s, o).0 != Some(PositionRatio)
    ensures Validate(l, s, o).0.None? <==> Validate(l.(maxPositionRatio := 0.0), s, o).0.None?
  {
  }

  lemma DrawdownAnswer(l: Limits, s: RiskState, o: OrderRequest)
    requires s.enabled && !s.halted && !LossBreached(l, s)
    ensures Validate(l, s, o) == (Some(Drawdown), s.(halted := true)) <==> DrawdownBreached(l, s)
  {
    hide DrawdownBreached, LossBreached, AmountOf, PositionOf;
  }

  /** Below the daily loss limit, trading is halted for its drawdown exactly when the positions are worth less than the
      allowed part of a positive peak. */
  lemma DrawdownHaltsIff(l: Limits, s: RiskState, o: OrderRequest)
    requires s.enabled && !s.halted && !LossBreached(l, s)
    ensures Validate(l, s, o) == (Some(Drawdown), s.(halted := true))
       <==> s.peakBalance > 0.0 && SumValues(s.positions) < s.peakBalance * (1.0 - l.drawdownLimit)
  {
    hide *;
    DrawdownAnswer(l, s, o);
    DrawdownBreachedIff(l, s);
  }

  /** The reasons that come before any look at the order: the switch, then the halt, then the loss, then the drawdown. */
  lemma GateReasonsIff(l: Limits, s: RiskState, o: OrderRequest)
    ensures Validate(l, s, o).0 == Some(KillSwitch) <==> !s.enabled
    ensures Validate(l, s, o).0 == Some(TradingHalted) <==> s.enabled && s.halted
    ensures Validate(l, s, o).0 == Some(DailyLoss) <==> s.enabled && !s.halted && s.dailyPnl < -l.maxDailyLossKrw
    ensures Validate(l, s, o).0 == Some(Drawdown)
       <==> s.enabled && !s.halted && s.dailyPnl >= -l.maxDailyLossKrw
            && s.peakBalance > 0.0 && SumValues(s.positions) < s.peakBalance * (1.0 - l.drawdownLimit)
  {
    DrawdownBreachedIff(l, s);
    hide SumValues, DrawdownBreached, AmountOf, PositionOf;
  }

  /** Drawdown is measured on positions alone: once a peak is on record, a ledger without positions halts trading
      at the first request, whatever cash there is, unless the limit is 100% or more. */
  lemma CashHaltsIff(l: Limits, s: RiskState, o: OrderRequest)
    requires s.enabled && !s.halted && !LossBreached(l, s) && s.peakBalance > 0.0 && s.positions == map[]
    ensures Validate(l, s, o) == (Some(Drawdown), s.(halted := true)) <==> l.drawdownLimit < 1.0
  {
    assert SumValues(map[]) == 0.0;
    DrawdownHaltsIff(l, s, o);
    if l.drawdownLimit < 1.0 { MulPositive(1.0 - l.drawdownLimit, s.peakBalance); }
    if l.drawdownLimit >= 1.0 { MulMonotone(1.0 - l.drawdownLimit, 0.0, s.peakBalance); }
    hide Validate, SumValues;
  }

  // ---- runs

  datatype RiskEvent =
    | TickerSeen(market: string, price: real)
    | ResultSeen(result: OrderResult)
    | RequestSeen(order: OrderRequest)
    | ResetChecked(now: real)
    | AccountSet(total: real, peak: real, pnl: real)
    | SwitchSet(on: bool)

  predicate ResetDue(s: RiskState, now: real) {
    now - s.dailyResetTime > DAY_SECONDS
  }

  function DailyReset(s: RiskState, now: real): RiskState {
    if ResetDue(s, now) then s.(dailyPnl := 0.0, dailyResetTime := now, halted := false) else s
  }

  ghost function RiskStep(l: Limits, s: RiskState, e: RiskEvent): RiskState {
    match e
    case TickerSeen(m, p) => s.(prices := s.prices[m := p])
    case ResultSeen(r) => ApplyResult(s, r)
    case RequestSeen(o) => Validate(l, s, o).1
    case ResetChecked(now) => DailyReset(s, now)
    case AccountSet(t, p, d) => s.(totalBalance := t, peakBalance := p, dailyPnl := d)
    case SwitchSet(on) => s.(enabled := on)
  }

  ghost function RiskAfter(l: Limits, s: RiskState, events: seq<RiskEvent>): RiskState {
    if events == [] then s
    else RiskStep(l, RiskAfter(l, s, events[..|events| - 1]), events[|events| - 1])
  }

  predicate TickerOf(e: RiskEvent, market: string) {
    e.TickerSeen? && e.market == market
  }

  /** The i-th event is the last ticker of a market that a run has seen. */
  ghost predicate LastTicker(events: seq<RiskEvent>, market: string, i: nat) {
    && i < |events| && TickerOf(events[i], market)
    && forall j | i < j < |events| :: !TickerOf(events[j], market)
  }

  lemma PricesMove(l: Limits, s: RiskState, e: RiskEvent)
    ensures RiskStep(l, s, e).prices == if e.TickerSeen? then s.prices[e.market := e.price] else s.prices
  {
    if e.RequestSeen? { HaltsIffBreached(l, s, e.order); }
    hide Validate, Settle;
  }

  predicate PricedBy(prices: map<string, real>, events: seq<RiskEvent>, market: string, i: nat) {
    i < |events| && events[i].TickerSeen? && market in prices && prices[market] == events[i].price
  }

  /** The price on record is that of the last ticker, and without one the price there was before. */
  ghost predicate PricesRecorded(before: map<string, real>, now: map<string, real>, events: seq<RiskEvent>, market: string) {
    && (forall i: nat | LastTicker(events, market, i) :: PricedBy(now, events, market, i))
    && ((forall e | e in events :: !TickerOf(e, market)) ==>
          (market in now <==> market in before) && (market in now ==> now[market] == before[market]))
  }

  lemma LastTickerStep(init: seq<RiskEvent>, e: RiskEvent, market: string, i: nat)
    ensures LastTicker(init + [e], market, i)
       <==> if i < |init| then LastTicker(init, market, i) && !TickerOf(e, market) else i == |init| && TickerOf(e, market)
  {
    var events := init + [e];
    hide TickerOf;
    if i < |init| {
      assert events[i] == init[i];
      if LastTicker(events, market, i) {
        forall j | i < j < |init| ensures !TickerOf(init[j], market) { assert events[j] == init[j]; }
        assert events[|init|] == e;
      }
      if LastTicker(init, market, i) && !TickerOf(e, market) {
        forall j | i < j < |events| ensures !TickerOf(events[j], market) {
          assert events[j] == if j < |init| then init[j] else e;
        }
      }
    }
  }

  lemma LastTickerPrices(before: map<string, real>, now: map<string, real>, events: seq<RiskEvent>, market: string, i: nat)
    requires PricesRecorded(before, now, events, market) && LastTicker(events, market, i)
    ensures PricedBy(now, events, market, i)
  {
    hide LastTicker, PricedBy;
  }

  lemma RecordMoves(before: map<string, real>, mid: map<string, real>, now: map<string, real>, init: seq<RiskEvent>,
                    e: RiskEvent, market: string)
    requires PricesRecorded(before, mid, init, market) && now == if e.TickerSeen? then mid[e.market := e.price] else mid
    ensures PricesRecorded(before, now, init + [e], market)
  {
    hide LastTicker;
    var events := init + [e];
    assert e in events && forall x | x in init :: x in events;
    forall i: nat | LastTicker(events, market, i) ensures PricedBy(now, events, market, i) {
      LastTickerStep(init, e, market, i);
    }
  }

  lemma NoTickersYet(s: map<string, real>, market: string)
    ensures PricesRecorded(s, s, [], market)
  {
  }

  lemma RiskSteps(l: Limits, s: RiskState, events: seq<RiskEvent>)
    ensures events == [] ==> RiskAfter(l, s, events) == s
    ensures events != [] ==>
              RiskAfter(l, s, events) == RiskStep(l, RiskAfter(l, s, events[..|events| - 1]), events[|events| - 1])
  {
    hide RiskStep;
  }

  /** In every run the price on record is that of the last ticker of its market. */
  lemma {:induction false} PriceOnRecord(l: Limits, s: RiskState, events: seq<RiskEvent>, market: string)
    ensures PricesRecorded(s.prices, RiskAfter(l, s, events).prices, events, market)
  {
    RiskSteps(l, s, events);
    if events == [] {
      NoTickersYet(s.prices, market);
    } else {
      var init, e := events[..|events| - 1], events[|events| - 1];
      PriceOnRecord(l, s, init, market);
      PricesMove(l, RiskAfter(l, s, init), e);
      assert events == init + [e];
      RecordMoves(s.prices, RiskAfter(l, s, init).prices, RiskAfter(l, s, events).prices, init, e, market);
    }
    hide *;
  }

  lemma HeldAtPrice(prices: map<string, real>, o: OrderRequest, price: real, x: real)
    requires o.market in prices && prices[o.market] == price && OrZero(o.amountKrw) == OrZero(o.price) == 0.0
    ensures HeldAgainst(prices, o, x) <==> x == OrZero(o.volume) * price
  {
  }

  lemma TooLargeAtPrice(l: Limits, s: RiskState, o: OrderRequest, price: real)
    requires Unbreached(l, s) && o.market in s.prices && s.prices[o.market] == price
    requires OrZero(o.amountKrw) == OrZero(o.price) == 0.0
    ensures Validate(l, s, o).0 == Some(OrderTooLarge)
       <==> OrZero(o.volume) * price > l.maxSingleOrderKrw && OrZero(o.volume) * price != 0.0
  {
    AmountLimitsIff(l, s, o);
    var y := OrZero(o.volume) * price;
    forall x ensures HeldAgainst(s.prices, o, x) <==> x == y { HeldAtPrice(s.prices, o, price, x); }
    hide Unbreached, Validate, HeldAgainst, OrZero, OverShare, PositionOf;
    assert HeldAgainst(s.prices, o, y);
  }

  /** An order that states neither amount nor price, as every sale of the portfolio manager does: with no limit breached it
      is rejected as too large exactly when its volume times the price of its market's last ticker exceeds the limit. */
  lemma UnpricedOrderTooLargeIff(l: Limits, s: RiskState, events: seq<RiskEvent>, o: OrderRequest, i: nat)
    requires Unbreached(l, RiskAfter(l, s, events)) && LastTicker(events, o.market, i)
    requires OrZero(o.amountKrw) == OrZero(o.price) == 0.0
    ensures Validate(l, RiskAfter(l, s, events), o).0 == Some(OrderTooLarge)
       <==> OrZero(o.volume) * events[i].price > l.maxSingleOrderKrw && OrZero(o.volume) * events[i].price != 0.0
  {
    hide RiskAfter, Unbreached, Validate, OrZero, PricesRecorded;
    PriceOnRecord(l, s, events, o.market);
    LastTickerPrices(s.prices, RiskAfter(l, s, events).prices, events, o.market, i);
    TooLargeAtPrice(l, RiskAfter(l, s, events), o, events[i].price);
  }

  /** Before any ticker of its market has been seen, such an order is never too large. */
  lemma UnpricedOrderUnseen(l: Limits, s: RiskState, events: seq<RiskEvent>, o: OrderRequest)
    requires Unbreached(l, RiskAfter(l, s, events)) && o.market !in s.prices
    requires forall e | e in events :: !TickerOf(e, o.market)
    requires OrZero(o.amountKrw) == OrZero(o.price) == 0.0
    ensures Validate(l, RiskAfter(l, s, events), o).0 != Some(OrderTooLarge)
  {
    PriceOnRecord(l, s, events, o.market);
    AmountLimitsIff(l, RiskAfter(l, s, events), o);
    hide RiskAfter, Unbreached, Validate;
  }

  /** The i-th event of a run is a request that was let through. */
  ghost predicate AdmittedAt(l: Limits, s: RiskState, events: seq<RiskEvent>, i: nat)
    requires i < |events|
  {
    events[i].RequestSeen? && Validate(l, RiskAfter(l, s, events[..i]), events[i].order).0.None?
  }

  /** The i-th event of a run is a daily reset that took effect. */
  ghost predicate ResetAt(l: Limits, s: RiskState, events: seq<RiskEvent>, i: nat)
    requires i < |events|
  {
    events[i].ResetChecked? && ResetDue(RiskAfter(l, s, events[..i]), events[i].now)
  }

  /** No account figure that the ledger itself never writes, and no halt. */
  predicate Unaccounted(s: RiskState) {
    s.totalBalance == 0.0 && s.peakBalance == 0.0 && s.dailyPnl == 0.0 && !s.halted
  }

  /** With the figures it starts with, what a request is held against is the switch, the order limit and the count. */
  lemma InertLimits(l: Limits, s: RiskState, o: OrderRequest)
    requires Unaccounted(s) && l.maxDailyLossKrw >= 0.0
    ensures Validate(l, s, o).1 == s
    ensures Validate(l, s, o).0.None?
       <==> s.enabled && (AmountOf(s, o) <= l.maxSingleOrderKrw || AmountOf(s, o) == 0.0)
            && (o.side == Bid ==> PositionOf(s.positions, o.market) != 0.0 || s.openPositions < l.maxOpenPositions)
  {
    hide AmountOf, PositionOf, SumValues;
  }

  lemma UnaccountedKept(l: Limits, s: RiskState, e: RiskEvent)
    requires Unaccounted(s) && l.maxDailyLossKrw >= 0.0 && !e.AccountSet?
    ensures Unaccounted(RiskStep(l, s, e))
  {
    if e.RequestSeen? { InertLimits(l, s, e.order); }
    hide Validate, Settle;
  }

  /** Nothing in the code sets the account figures. As long as nothing else does, in no run is a request rejected for the share
      of the balance, the daily loss or the drawdown, and nothing ever halts. */
  lemma {:induction false} InertInEveryRun(l: Limits, s: RiskState, events: seq<RiskEvent>, o: OrderRequest)
    requires Unaccounted(s) && l.maxDailyLossKrw >= 0.0 && forall e | e in events :: !e.AccountSet?
    ensures var now := RiskAfter(l, s, events);
            && Unaccounted(now)
            && Validate(l, now, o).0 !in {Some(PositionRatio), Some(DailyLoss), Some(Drawdown), Some(TradingHalted)}
            && Validate(l, now, o).1 == now
  {
    if events != [] {
      assert events[|events| - 1] in events && forall e | e in events[..|events| - 1] :: e in events;
      InertInEveryRun(l, s, events[..|events| - 1], o);
      UnaccountedKept(l, RiskAfter(l, s, events[..|events| - 1]), events[|events| - 1]);
    }
    InertLimits(l, RiskAfter(l, s, events), o);
    hide RiskAfter, AmountOf, SumValues, PositionOf;
  }

  /** Once halted, nothing is admitted before a daily reset takes effect, whatever else happens. */
  lemma {:induction false} HaltLatch(l: Limits, s: RiskState, events: seq<RiskEvent>)
    requires s.halted
    requires forall i | 0 <= i < |events| :: !ResetAt(l, s, events, i)
    ensures RiskAfter(l, s, events).halted
    ensures forall i | 0 <= i < |events| :: !AdmittedAt(l, s, events, i)
  {
    if events != [] {
      var n := |events| - 1;
      var init := events[..n];
      assert forall i | 0 <= i < n :: init[..i] == events[..i];
      forall i | 0 <= i < n ensures !ResetAt(l, s, init, i) { assert !ResetAt(l, s, events, i); }
      HaltLatch(l, s, init);
      assert !ResetAt(l, s, events, n);
      forall i | 0 <= i < |events| ensures !AdmittedAt(l, s, events, i) {
        if i < n { assert !AdmittedAt(l, s, init, i); }
      }
    }
  }

  lemma LossKept(l: Limits, s: RiskState, e: RiskEvent)
    requires !e.AccountSet? && (e.ResetChecked? ==> e.now <= s.dailyResetTime + 86400.0)
    ensures var s' := RiskStep(l, s, e); s'.dailyPnl == s.dailyPnl && s'.dailyResetTime == s.dailyResetTime
    ensures s.dailyPnl < -l.maxDailyLossKrw && e.RequestSeen? ==> Validate(l, s, e.order).0.Some?
  {
    hide Settle, DrawdownBreached;
  }

  /** A daily loss stands for the day: until a reset is checked for more than 86400 seconds after the last one, no run
      changes it, and while it is beyond the limit nothing is admitted. */
  lemma {:induction false} LossStandsForTheDay(l: Limits, s: RiskState, events: seq<RiskEvent>)
    requires forall e | e in events :: !e.AccountSet? && (e.ResetChecked? ==> e.now <= s.dailyResetTime + 86400.0)
    ensures var now := RiskAfter(l, s, events); now.dailyPnl == s.dailyPnl && now.dailyResetTime == s.dailyResetTime
    ensures s.dailyPnl < -l.maxDailyLossKrw ==> forall i | 0 <= i < |events| :: !AdmittedAt(l, s, events, i)
  {
    if events != [] {
      var n := |events| - 1;
      var init := events[..n];
      assert events[n] in events && forall e | e in init :: e in events;
      assert forall i | 0 <= i < n :: init[..i] == events[..i];
      LossStandsForTheDay(l, s, init);
      LossKept(l, RiskAfter(l, s, init), events[n]);
      hide RiskStep, Validate;
      forall i | 0 <= i < |events| && s.dailyPnl < -l.maxDailyLossKrw ensures !AdmittedAt(l, s, events, i) {
        if i < n { assert !AdmittedAt(l, s, init, i); }
      }
    }
  }

  ghost function ResetTimes(l: Limits, s: RiskState, events: seq<RiskEvent>): seq<real> {
    if events == [] then []
    else
      var n := |events| - 1;
      ResetTimes(l, s, events[..n]) + if ResetAt(l, s, events, n) then [events[n].now] else []
  }

  lemma ResetMoves(l: Limits, s: RiskState, e: RiskEvent)
    ensures s.dailyResetTime <= RiskStep(l, s, e).dailyResetTime
    ensures e.ResetChecked? && ResetDue(s, e.now) ==> RiskStep(l, s, e).dailyResetTime == e.now >= s.dailyResetTime + DAY_SECONDS
  {
    hide Settle, SumValues, Estimate;
  }

  /** Resets that took effect are more than a day apart, even if the wall clock is set back. */
  lemma {:induction false} ResetsSpaced(l: Limits, s: RiskState, events: seq<RiskEvent>)
    ensures Spaced(ResetTimes(l, s, events), DAY_SECONDS)
    ensures forall t | t in ResetTimes(l, s, events) ::
              s.dailyResetTime + DAY_SECONDS <= t <= RiskAfter(l, s, events).dailyResetTime
    ensures s.dailyResetTime <= RiskAfter(l, s, events).dailyResetTime
  {
    if events != [] {
      var n := |events| - 1;
      ResetsSpaced(l, s, events[..n]);
      var ts, before := ResetTimes(l, s, events[..n]), RiskAfter(l, s, events[..n]);
      assert forall i | 0 <= i < |ts| :: ts[i] in ts;
      assert ResetAt(l, s, events, n) ==> events[n].ResetChecked? && ResetDue(before, events[n].now);
      ResetMoves(l, before, events[n]);
      assert RiskAfter(l, s, events) == RiskStep(l, before, events[n]);
      assert ResetTimes(l, s, events) == ts + if ResetAt(l, s, events, n) then [events[n].now] else [];
      hide RiskStep, ResetAt, ResetTimes, RiskAfter;
    }
  }

  /** Any window of T seconds contains at most floor(T / 86400) + 1 resets. */
  lemma ResetsPerWindow(l: Limits, s: RiskState, events: seq<RiskEvent>, lo: real, span: real)
    requires span >= 0.0
    ensures CountIn(ResetTimes(l, s, events), lo, lo + span) <= (span / DAY_SECONDS).Floor + 1
  {
    ResetsSpaced(l, s, events);
    SpacedCount(ResetTimes(l, s, events), DAY_SECONDS, lo, span);
  }
}
