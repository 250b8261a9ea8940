/** Which of the portfolio manager's exits the risk manager lets through. */
module PipelineExits {
  import opened Prelude
  import opened Messages
  import opened RiskLedger
  import PM = PortfolioManager
  import PR = PortfolioRequests

  /** An exit check of the portfolio manager, in any run of it, that is due to sell. */
  ghost predicate ExitDue(r: PM.Rules, start: real, events: seq<PM.Event>, market: string, now: real) {
    && PM.Possible(r, start, events) && PM.After(r, start, events).value.clock <= now
    && PR.AtExitLevel(r, PM.After(r, start, events).value.book, market)
    && !PR.OrderedLately(PM.After(r, start, events).value.sent, market, now)
  }

  /** The request that it adds. */
  ghost function ExitOrder(r: PM.Rules, start: real, events: seq<PM.Event>, market: string, now: real): (o: OrderRequest)
    requires ExitDue(r, start, events, market, now)
    ensures var s := PM.After(r, start, events).value;
            && PM.Orders(PM.Do(r, s, PM.ExitChecked(market, now)).sent) == PM.Orders(s.sent) + [o]
            && market in s.book.positions
            && o == OrderRequest(market, Ask, Market, None, Some(s.book.positions[market]), None)
  {
    var s := PM.After(r, start, events).value;
    PR.ExitSends(r, start, events, market, now);
    var o := OrderRequest(market, Ask, Market, None, Some(s.book.positions[market]), None);
    PM.OrdersAppend(s.sent, PM.Sent(o, now, PM.ExitRule));
    o
  }

  /** The exit rules are not exempt from the limit on a single order. In all runs of the two agents in which no other limit is
      breached, an exit that is due is approved exactly when the position is worth no more than the largest order at the last
      price the risk manager has seen. */
  lemma ExitApprovedIff(l: Limits, s: RiskState, seen: seq<RiskEvent>, i: nat,
                        r: PM.Rules, start: real, events: seq<PM.Event>, market: string, now: real)
    requires ExitDue(r, start, events, market, now)
    requires Unbreached(l, RiskAfter(l, s, seen)) && LastTicker(seen, market, i)
    ensures var o := ExitOrder(r, start, events, market, now);
            var value := o.volume.value * seen[i].price;
            && (Validate(l, RiskAfter(l, s, seen), o).0 == None <==> value <= l.maxSingleOrderKrw || value == 0.0)
            && (Validate(l, RiskAfter(l, s, seen), o).0 == Some(OrderTooLarge) <==> value > l.maxSingleOrderKrw && value != 0.0)
  {
    hide RiskAfter, Validate, Unbreached, ExitDue;
    var o := ExitOrder(r, start, events, market, now);
    UnpricedOrderTooLargeIff(l, s, seen, o, i);
    SaleJudgedBySize(l, RiskAfter(l, s, seen), o);
  }

  lemma WorthMore(volume: real, price: real, avg: real, part: real)
    requires volume > 0.0 && avg > 0.0 && part > 0.0 && price >= avg + part * avg
    ensures volume * price > volume * avg > 0.0
  {
    MulPositive(part, avg);
    MulPositive(volume, avg);
    MulPositive(price - avg, volume);
  }

  /** A position that cost at least the largest order, at its take-profit level. */
  predicate FullAtProfit(r: PM.Rules, b: PM.Book, market: string, largest: real, price: real) {
    && market in b.positions && market in b.avgBuyPrices && b.positions[market] > 0.0 && b.avgBuyPrices[market] > 0.0
    && b.positions[market] * b.avgBuyPrices[market] >= largest
    && price >= b.avgBuyPrices[market] + r.takeProfitPct * b.avgBuyPrices[market]
  }

  lemma FullIsTooLarge(r: PM.Rules, b: PM.Book, market: string, largest: real, price: real)
    requires FullAtProfit(r, b, market, largest, price) && r.takeProfitPct > 0.0
    ensures market in b.positions && b.positions[market] * price > largest && b.positions[market] * price != 0.0
  {
    WorthMore(b.positions[market], price, b.avgBuyPrices[market], r.takeProfitPct);
  }

  /** So a position that cost as much as the largest order is never sold at a profit: with a positive take-profit level every
      take-profit of it is rejected as too large, when the risk manager has seen that price too. */
  lemma FullPositionTakesNoProfit(l: Limits, s: RiskState, seen: seq<RiskEvent>, i: nat,
                                  r: PM.Rules, start: real, events: seq<PM.Event>, market: string, now: real)
    requires ExitDue(r, start, events, market, now) && r.takeProfitPct > 0.0
    requires Unbreached(l, RiskAfter(l, s, seen)) && LastTicker(seen, market, i)
    requires FullAtProfit(r, PM.After(r, start, events).value.book, market, l.maxSingleOrderKrw, seen[i].price)
    ensures Validate(l, RiskAfter(l, s, seen), ExitOrder(r, start, events, market, now)).0 == Some(OrderTooLarge)
  {
    hide RiskAfter, Validate, Unbreached, PM.After, PR.AtExitLevel, PR.OrderedLately, FullAtProfit, ExitOrder;
    ExitApprovedIff(l, s, seen, i, r, start, events, market, now);
    FullIsTooLarge(r, PM.After(r, start, events).value.book, market, l.maxSingleOrderKrw, seen[i].price);
  }

  /** One coin bought for 50000 KRW, now at 52500. */
  function OneCoin(): PM.Book {
    PM.EMPTY.(positions := map["KRW-BTC" := 1.0], avgBuyPrices := map["KRW-BTC" := 50000.0], prices := map["KRW-BTC" := 52500.0])
  }

  lemma OneCoinAccount()
    ensures PM.Balances(PM.EMPTY, [PM.Account("BTC", 1.0, 50000.0)]) == OneCoin().(prices := map[])
  {
    var accounts := [PM.Account("BTC", 1.0, 50000.0)];
    assert accounts[..0] == [] && PM.MarketOf("BTC") == "KRW-BTC" && "BTC" != "KRW";
  }

  lemma OneCoinAtProfit(r: PM.Rules)
    requires r.takeProfitPct == 0.05
    ensures FullAtProfit(r, OneCoin(), "KRW-BTC", 50000.0, 52500.0) && PR.AtExitLevel(r, OneCoin(), "KRW-BTC")
  {
  }

  lemma OneCoinSeen(r: PM.Rules) returns (events: seq<PM.Event>)
    ensures PM.After(r, 0.0, events) == Some(PM.State(OneCoin(), [], 0.0))
  {
    var e1, e2 := PM.Refreshed([PM.Account("BTC", 1.0, 50000.0)]), PM.Ticked("KRW-BTC", 52500.0);
    OneCoinAccount();
    assert PM.After(r, 0.0, []) == Some(PM.State(PM.EMPTY, [], 0.0));
    hide PM.After, PM.Balances;
    PM.OneMore(r, 0.0, [], e1);
    PM.OneMore(r, 0.0, [] + [e1], e2);
    events := [] + [e1] + [e2];
  }

  /** Such a position is what one purchase at the default limits leaves when the coin has risen by a twentieth. */
  lemma FullPositionReached(r: PM.Rules) returns (events: seq<PM.Event>)
    requires r.takeProfitPct == 0.05
    ensures ExitDue(r, 0.0, events, "KRW-BTC", 0.0)
    ensures FullAtProfit(r, PM.After(r, 0.0, events).value.book, "KRW-BTC", 50000.0, 52500.0)
  {
    hide PM.After, PR.AtExitLevel, FullAtProfit, OneCoin;
    events := OneCoinSeen(r);
    OneCoinAtProfit(r);
  }
}
