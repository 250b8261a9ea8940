/** The risk manager agent: it validates order requests against a ledger fed by order results. */
module RiskManager {
  import opened Prelude
  import opened Messages
  import opened RiskLedger

  /** Where a validated request is published. */
  datatype Routing = Approved | Rejected(reason: Rejection)

  class Agent {
    const limits: Limits
    var enabled: bool
    var positions: Positions
    var openPositions: nat
    var totalBalance: real
    var peakBalance: real
    var dailyPnl: real
    var dailyResetTime: real
    var prices: map<string, real>
    var halted: bool
    ghost var results: seq<OrderResult>

    ghost function View(): RiskState
      reads this
    {
      RiskState(enabled, positions, openPositions, totalBalance, peakBalance, dailyPnl, dailyResetTime, prices, halted)
    }

    /** The ledger is the replay of all results seen, and the open count counts it. */
    ghost predicate Valid()
      reads this
    {
      positions == Replay(results) && openPositions == |Positive(positions)|
    }

    constructor (limits: Limits, enabled: bool, now: real)
      ensures Valid() && results == []
      ensures this.limits == limits
      ensures View() == RiskState(enabled, map[], 0, 0.0, 0.0, 0.0, now, map[], false)
    {
      this.limits, this.enabled := limits, enabled;
      positions, openPositions, prices := map[], 0, map[];
      totalBalance, peakBalance, dailyPnl, dailyResetTime := 0.0, 0.0, 0.0, now;
      halted, results := false, [];
      new;
      assert Positive(positions) == {};
    }

    method OnTicker(market: string, tradePrice: real)
      requires Valid()
      modifies this`prices
      ensures Valid() && View() == RiskStep(limits, old(View()), TickerSeen(market, tradePrice))
    {
      prices := prices[market := tradePrice];
    }

    /** After every result each position is the largest rise of its own market's running sum. */
    method OnOrderResult(r: OrderResult)
      requires Valid()
      modifies this`positions, this`openPositions, this`results
      ensures Valid() && results == old(results) + [r]
      ensures View() == RiskStep(limits, old(View()), ResultSeen(r))
      ensures PurchasesNonnegative(results) ==> forall m :: LargestRise(PositionOf(positions, m), results, m)
    {
      hide Settle, Replay, LargestRise;
      if r.status == Filled {
        Adjust(r);
        openPositions := |set m | m in positions && positions[m] > 0.0|;
      }
      ReplayAppend(results, r);
      SettleNothing(old(positions), r);
      results := results + [r];
      if PurchasesNonnegative(results) {
        EveryMarketClosedForm(results);
      }
    }

    /** A fill moves the position of its own market: down for a sale, no further than zero, up for a purchase. */
    method Adjust(r: OrderResult)
      requires r.status == Filled
      modifies this`positions
      ensures positions == Settle(old(positions), r)
    {
      hide ValueOf;
      if r.side == Ask {
        var current := if r.market in positions then positions[r.market] else 0.0;
        var soldValue := ValueOf(r);
        positions := positions[r.market := Max(0.0, current - soldValue)];
      } else if r.side == Bid {
        var current := if r.market in positions then positions[r.market] else 0.0;
        var boughtValue := ValueOf(r);
        positions := positions[r.market := current + boughtValue];
      }
    }

    /** None is returned exactly when every limit holds of the ledger at this moment. */
    method ValidateOrder(o: OrderRequest) returns (rejection: Option<Rejection>)
      requires Valid()
      modifies this`halted
      ensures Valid() && (rejection, View()) == Validate(limits, old(View()), o)
      ensures rejection.None? <==> WithinLimits(limits, old(View()), o)
    {
      AdmittedIffWithinLimits(limits, View(), o);
      hide WithinLimits;
      if !enabled { return Some(KillSwitch); }
      if halted { return Some(TradingHalted); }
      if dailyPnl < -limits.maxDailyLossKrw {
        halted := true;
        return Some(DailyLoss);
      }
      if peakBalance > 0.0 {
        var currentBalance := TotalValue(positions);
        var drawdown := (peakBalance - currentBalance) / peakBalance;
        if drawdown > limits.drawdownLimit {
          halted := true;
          return Some(Drawdown);
        }
      }
      var orderAmount := Estimate(prices, o);
      if Truthy(orderAmount) && orderAmount.value > limits.maxSingleOrderKrw { return Some(OrderTooLarge); }
      if o.side == Bid {
        var currentPosition := if o.market in positions then positions[o.market] else 0.0;
        var newPosition := currentPosition + OrZero(orderAmount);
        if totalBalance > 0.0 {
          var ratio := newPosition / totalBalance;
          if ratio > limits.maxPositionRatio { return Some(PositionRatio); }
        }
        if currentPosition == 0.0 && openPositions >= limits.maxOpenPositions { return Some(MaxOpenPositions); }
      }
      return None;
    }

    /** Approved exactly when within limits; a rejection carries the first limit that failed. */
    method OnOrderRequest(o: OrderRequest) returns (routing: Routing)
      requires Valid()
      modifies this`halted
      ensures Valid() && View() == RiskStep(limits, old(View()), RequestSeen(o))
      ensures routing.Approved? <==> WithinLimits(limits, old(View()), o)
      ensures routing.Rejected? ==> Validate(limits, old(View()), o).0 == Some(routing.reason)
    {
      var rejection := ValidateOrder(o);
      if rejection.Some? {
        return Rejected(rejection.value);
      } else {
        return Approved;
      }
    }

    method CheckDailyReset(now: real)
      requires Valid()
      modifies this`dailyPnl, this`dailyResetTime, this`halted
      ensures Valid() && View() == RiskStep(limits, old(View()), ResetChecked(now))
      ensures View() == if now > old(dailyResetTime) + 86400.0
                        then old(View()).(dailyPnl := 0.0, dailyResetTime := now, halted := false) else old(View())
    {
      if now - dailyResetTime > 86400.0 {
        dailyPnl := 0.0;
        dailyResetTime := now;
        halted := false;
      }
    }
  }
}
