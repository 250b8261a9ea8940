/** What the portfolio manager asks for, and when, read off the runs themselves: the prices, balances and signals it has
    been sent and the stamps of its own requests. */
module PortfolioRequests {
  import opened Prelude
  import opened Messages
  import opened PortfolioManager

  // ---- the books are the latest news

  predicate TickOf(e: Event, market: string) {
    e.Ticked? && e.market == market
  }

  /** The i-th event is the last ticker of a market. */
  ghost predicate LastTick(events: seq<Event>, market: string, i: nat) {
    && i < |events| && TickOf(events[i], market)
    && forall j | i < j < |events| :: !TickOf(events[j], market)
  }

  ghost predicate LastRefresh(events: seq<Event>, i: nat) {
    && i < |events| && events[i].Refreshed?
    && forall j | i < j < |events| :: !events[j].Refreshed?
  }

  /** The j-th account is the last KRW account of a list. */
  ghost predicate LastKrw(accounts: seq<Account>, j: nat) {
    && j < |accounts| && accounts[j].currency == "KRW"
    && forall k | j < k < |accounts| :: accounts[k].currency != "KRW"
  }

  predicate BringsKrw(e: Event) {
    e.Refreshed? && exists a | a in e.accounts :: a.currency == "KRW"
  }

  /** The i-th event is the last refresh that brought a KRW balance. */
  ghost predicate LastKrwRefresh(events: seq<Event>, i: nat) {
    && i < |events| && BringsKrw(events[i])
    && forall j | i < j < |events| :: !BringsKrw(events[j])
  }

  /** A rule signal to buy that no decision about its market has followed. */
  ghost predicate WaitsSince(events: seq<Event>, market: string, i: nat) {
    && i < |events| && RuleBuy(events[i], market)
    && forall j | i < j < |events| :: !(events[j].Decided? && events[j].market == market)
  }

  lemma PricesKept(r: Rules, s: State, e: Event)
    requires Can(s, e)
    ensures Do(r, s, e).book.prices == if e.Ticked? then s.book.prices[e.market := e.price] else s.book.prices
  {
    if e.Refreshed? { BalancesTouch(s.book, e.accounts); }
    hide Balances, BuyAmount, ExitReason, Cooling;
  }

  predicate SameHoldings(b: Book, b': Book) {
    b'.krw == b.krw && b'.positions == b.positions && b'.avgBuyPrices == b.avgBuyPrices
  }

  lemma EmitKeepsHoldings(s: State, order: OrderRequest, stamp: real, source: Source)
    ensures SameHoldings(s.book, Emit(s, order, stamp, source).book)
  {
  }

  lemma BuyKeepsHoldings(r: Rules, s: State, m: string, now: real, source: Source)
    ensures SameHoldings(s.book, Bought(r, s, m, now, source).book)
  {
    hide BuyAmount, Cooling;
  }

  lemma DecisionKeepsHoldings(r: Rules, s: State, m: string, now: real, verdict: Direction, later: real)
    ensures SameHoldings(s.book, Decide(r, s, m, now, verdict, later).book)
  {
    BuyKeepsHoldings(r, s.(book := s.book.(ruleBuys := s.book.ruleBuys - {m})), m, later, EntryRule);
    BuyKeepsHoldings(r, s, m, later, CombinerBuy);
    EmitKeepsHoldings(s, SellAll(m, Held(s.book, m)), later, CombinerSell);
    hide Bought, Emit, Cooling, Held, SellAll;
  }

  lemma HoldingsKept(r: Rules, s: State, e: Event)
    requires Can(s, e) && !e.Refreshed?
    ensures SameHoldings(s.book, Do(r, s, e).book)
  {
    if e.Decided? { DecisionKeepsHoldings(r, s, e.market, e.now, e.verdict, e.later); }
    hide ExitReason, Cooling, Decide;
  }

  lemma RuleSignalsKept(r: Rules, s: State, e: Event, m: string)
    requires Can(s, e)
    ensures m in Do(r, s, e).book.ruleBuys <==> RuleBuy(e, m) || (m in s.book.ruleBuys && !(e.Decided? && e.market == m))
  {
    if e.Refreshed? { BalancesTouch(s.book, e.accounts); }
    hide Balances, BuyAmount, ExitReason, Cooling;
  }

  lemma {:induction false} PriceOnRecord(r: Rules, start: real, events: seq<Event>, market: string)
    requires Possible(r, start, events)
    ensures var prices := After(r, start, events).value.book.prices;
            && (forall i: nat | LastTick(events, market, i) :: market in prices && prices[market] == events[i].price)
            && (market in prices ==> exists e | e in events :: TickOf(e, market))
  {
    if events != [] {
      var n := |events| - 1;
      var init, e := events[..n], events[n];
      Last(r, start, events);
      PriceOnRecord(r, start, init, market);
      PricesKept(r, After(r, start, init).value, e);
      hide Do, After;
      assert e in events && forall x | x in init :: x in events;
      forall i: nat | LastTick(events, market, i) && i < n ensures LastTick(init, market, i) { }
    }
  }

  /** A rule signal waits exactly from its arrival to the next decision about its market. */
  lemma {:induction false} RuleSignalWaitsIff(r: Rules, start: real, events: seq<Event>, market: string)
    requires Possible(r, start, events)
    ensures market in After(r, start, events).value.book.ruleBuys <==> exists i :: WaitsSince(events, market, i)
  {
    if events != [] {
      var n := |events| - 1;
      var init, e := events[..n], events[n];
      Last(r, start, events);
      RuleSignalWaitsIff(r, start, init, market);
      RuleSignalsKept(r, After(r, start, init).value, e, market);
      hide Do, After;
      assert RuleBuy(e, market) ==> WaitsSince(events, market, n);
      forall i: nat | i < n
        ensures WaitsSince(events, market, i) <==> WaitsSince(init, market, i) && !(e.Decided? && e.market == market)
      {
        assert events[i] == init[i];
        if WaitsSince(events, market, i) {
          forall j | i < j < |init| ensures !(init[j].Decided? && init[j].market == market) {
            assert events[j] == init[j];
          }
        }
      }
    }
  }

  lemma OneMoreAccount(b: Book, accounts: seq<Account>)
    requires accounts != []
    ensures var a, init := accounts[|accounts| - 1], accounts[..|accounts| - 1];
            Balances(b, accounts).krw == if a.currency == "KRW" then a.balance else Balances(b, init).krw
  {
  }

  lemma {:induction false} KrwOfAccounts(b: Book, accounts: seq<Account>)
    ensures forall j: nat | LastKrw(accounts, j) :: Balances(b, accounts).krw == accounts[j].balance
    ensures (forall a | a in accounts :: a.currency != "KRW") ==> Balances(b, accounts).krw == b.krw
  {
    if accounts != [] {
      var n := |accounts| - 1;
      KrwOfAccounts(b, accounts[..n]);
      OneMoreAccount(b, accounts);
      hide Balances;
      assert accounts[n] in accounts && forall a | a in accounts[..n] :: a in accounts;
      forall j: nat | LastKrw(accounts, j) && j < n ensures LastKrw(accounts[..n], j) { }
    }
  }

  lemma KrwMoves(r: Rules, s: State, e: Event)
    requires Can(s, e)
    ensures !BringsKrw(e) ==> Do(r, s, e).book.krw == s.book.krw
    ensures BringsKrw(e) ==> forall j: nat | LastKrw(e.accounts, j) :: Do(r, s, e).book.krw == e.accounts[j].balance
  {
    if e.Refreshed? { KrwOfAccounts(s.book, e.accounts); } else { HoldingsKept(r, s, e); }
    hide Balances, BuyAmount, ExitReason, Cooling, LastKrw;
  }

  /** Over any number of refreshes the balance is that of the last KRW account of the last refresh that had one; it is
      zero before. */
  lemma {:induction false} KrwOnRecord(r: Rules, start: real, events: seq<Event>)
    requires Possible(r, start, events)
    ensures var krw := After(r, start, events).value.book.krw;
            && (forall i: nat, j: nat | LastKrwRefresh(events, i) && LastKrw(events[i].accounts, j) ::
                  krw == events[i].accounts[j].balance)
            && ((forall e | e in events :: !BringsKrw(e)) ==> krw == 0.0)
  {
    if events != [] {
      var n := |events| - 1;
      var init, e := events[..n], events[n];
      Last(r, start, events);
      KrwOnRecord(r, start, init);
      KrwMoves(r, After(r, start, init).value, e);
      hide Do, After, BringsKrw, LastKrw;
      assert e in events && forall x | x in init :: x in events;
      forall i: nat | LastKrwRefresh(events, i) && i < n ensures LastKrwRefresh(init, i) && !BringsKrw(e) {
        assert events[n] == e;
      }
    }
  }

  /** The holdings of a book are those that a list of accounts gives. */
  ghost predicate Holds(b: Book, accounts: seq<Account>, market: string) {
    var last := LastPosition(accounts, market);
    && Lookup(b.positions, market) == (if last.Some? then Some(last.value.balance) else None)
    && Lookup(b.avgBuyPrices, market) == (if last.Some? then Some(last.value.avgBuyPrice) else None)
  }

  lemma RefreshHolds(r: Rules, s: State, accounts: seq<Account>, market: string)
    ensures Holds(Do(r, s, Refreshed(accounts)).book, accounts, market)
  {
    BalancesAreLatest(s.book, accounts, market);
    hide Balances, LastPosition, Lookup;
  }

  lemma StillHolds(b: Book, b': Book, accounts: seq<Account>, market: string)
    requires Holds(b, accounts, market) && SameHoldings(b, b')
    ensures Holds(b', accounts, market)
  {
    hide LastPosition;
  }

  /** What is held, and at which average price, is what the last refresh said; nothing is held before one. */
  lemma {:induction false} HoldingsOnRecord(r: Rules, start: real, events: seq<Event>, market: string)
    requires Possible(r, start, events)
    ensures var b := After(r, start, events).value.book;
            && (forall i: nat | LastRefresh(events, i) :: Holds(b, events[i].accounts, market))
            && ((forall e | e in events :: !e.Refreshed?) ==> b.positions == b.avgBuyPrices == map[])
  {
    if events != [] {
      var n := |events| - 1;
      var init, e := events[..n], events[n];
      Last(r, start, events);
      HoldingsOnRecord(r, start, init, market);
      var s := After(r, start, init).value;
      hide Do, After, Holds;
      assert e in events && forall x | x in init :: x in events;
      if e.Refreshed? {
        RefreshHolds(r, s, e.accounts, market);
        assert forall i: nat | LastRefresh(events, i) :: i == n;
      } else {
        HoldingsKept(r, s, e);
        forall i: nat | LastRefresh(events, i) ensures Holds(Do(r, s, e).book, events[i].accounts, market) {
          assert LastRefresh(init, i) && init[i] == events[i];
          StillHolds(s.book, Do(r, s, e).book, init[i].accounts, market);
        }
      }
    }
  }

  // ---- when something is asked for

  /** A request of the market bears a stamp less than two minutes old. */
  predicate OrderedLately(sent: seq<Sent>, market: string, now: real) {
    exists x | x in sent :: x.order.market == market && now - x.stamp < 120.0
  }

  lemma {:induction false} StampsOf(sent: seq<Sent>, market: string, t: real)
    ensures t in Stamps(sent, market) <==> exists x | x in sent :: x.order.market == market && x.stamp == t
  {
    if sent != [] {
      var init, x := sent[..|sent| - 1], sent[|sent| - 1];
      StampsOf(init, market, t);
      assert sent == init + [x];
      assert forall y :: y in sent <==> y in init || y == x;
    }
  }

  lemma CoolingIff(s: State, market: string, now: real)
    requires Paced(s, market)
    ensures Cooling(s.book, market, now) <==> OrderedLately(s.sent, market, now)
  {
    var ts := Stamps(s.sent, market);
    forall t ensures t in ts <==> exists x | x in s.sent :: x.order.market == market && x.stamp == t {
      StampsOf(s.sent, market, t);
    }
    hide Stamps, Spaced;
    if Cooling(s.book, market, now) {
      assert ts[|ts| - 1] in ts;
      var x :| x in s.sent && x.order.market == market && x.stamp == ts[|ts| - 1];
    }
    if OrderedLately(s.sent, market, now) {
      var x :| x in s.sent && x.order.market == market && now - x.stamp < 120.0;
      assert x.stamp in ts;
      var i :| 0 <= i < |ts| && ts[i] == x.stamp;
    }
  }

  /** A position with an average price and a current price that has reached one of the two exit levels. */
  predicate AtExitLevel(r: Rules, b: Book, market: string) {
    && market in b.positions && b.positions[market] > 0.0
    && market in b.avgBuyPrices && b.avgBuyPrices[market] > 0.0
    && market in b.prices && b.prices[market] != 0.0
    && (|| b.prices[market] >= b.avgBuyPrices[market] + r.takeProfitPct * b.avgBuyPrices[market]
        || b.prices[market] <= b.avgBuyPrices[market] - r.stopLossPct * b.avgBuyPrices[market])
  }

  lemma ExitReasonIff(r: Rules, b: Book, market: string)
    ensures ExitReason(r, b, market).Some? <==> AtExitLevel(r, b, market)
  {
    ExitLevels(r, b, market);
    var reason := ExitReason(r, b, market);
    assert reason.Some? ==> reason.value == TakeProfit || reason.value == StopLoss;
    hide ExitReason;
  }

  /** In every run an exit check sells the whole position at once, at the market and stamped now, exactly when the price
      has reached one of the two levels and no request of the market is less than two minutes old; otherwise it asks for
      nothing and changes no record. */
  lemma ExitSends(r: Rules, start: real, events: seq<Event>, m: string, now: real)
    requires Possible(r, start, events) && After(r, start, events).value.clock <= now
    ensures var s := After(r, start, events).value;
            var s' := Do(r, s, ExitChecked(m, now));
            if AtExitLevel(r, s.book, m) && !OrderedLately(s.sent, m, now) then
              && s'.sent == s.sent + [Sent(OrderRequest(m, Ask, Market, None, Some(s.book.positions[m]), None), now, ExitRule)]
              && s'.book == s.book.(lastOrder := s.book.lastOrder[m := now])
            else
              s'.sent == s.sent && s'.book == s.book
  {
    var s := After(r, start, events).value;
    AlwaysPaced(r, start, events, m);
    CoolingIff(s, m, now);
    ExitReasonIff(r, s.book, m);
    hide After, Paced, Cooling, ExitReason, OrderedLately;
  }

  /** The largest purchase that the balance and both limits allow. */
  predicate LargestPurchase(r: Rules, krw: real, amount: real) {
    && amount <= krw && amount <= r.maxEntryKrw && amount <= r.riskMaxKrw
    && (amount == krw || amount == r.maxEntryKrw || amount == r.riskMaxKrw)
  }

  lemma PurchaseIff(r: Rules, krw: real)
    ensures BuyAmount(r, krw).Some? <==> krw > 5000.0 && r.maxEntryKrw >= 5000.0 && r.riskMaxKrw >= 5000.0
    ensures BuyAmount(r, krw).Some? ==> LargestPurchase(r, krw, BuyAmount(r, krw).value)
  {
  }

  /** A waiting rule signal decides alone, at the later reading of the clock; otherwise the verdict does. */
  predicate Quiet(s: State, m: string, now: real, later: real) {
    !OrderedLately(s.sent, m, if m in s.book.ruleBuys then later else now)
  }

  predicate BuysThen(r: Rules, s: State, m: string, now: real, verdict: Direction, later: real) {
    && Quiet(s, m, now, later) && (m in s.book.ruleBuys || verdict == Buy)
    && s.book.krw > 5000.0 && r.maxEntryKrw >= 5000.0 && r.riskMaxKrw >= 5000.0
  }

  predicate SellsThen(s: State, m: string, now: real, verdict: Direction, later: real) {
    && Quiet(s, m, now, later) && m !in s.book.ruleBuys && verdict == Sell
    && m in s.book.positions && s.book.positions[m] > 0.0
  }

  lemma NotLatelyLater(sent: seq<Sent>, m: string, now: real, later: real)
    requires !OrderedLately(sent, m, now) && now <= later
    ensures !OrderedLately(sent, m, later)
  {
    forall x | x in sent && x.order.market == m ensures later - x.stamp >= 120.0 {
      assert !(now - x.stamp < 120.0);
    }
  }

  /** In every run a decision asks for the largest purchase allowed, for the sale of the whole position, or for nothing,
      each under exactly these conditions on stamps, signals, balance, limits and position; and it is stamped later. */
  lemma DecisionAsks(r: Rules, start: real, events: seq<Event>, m: string, now: real, verdict: Direction, later: real)
    requires Possible(r, start, events) && After(r, start, events).value.clock <= now <= later
    ensures var s := After(r, start, events).value;
            var s' := Do(r, s, Decided(m, now, verdict, later));
            if BuysThen(r, s, m, now, verdict, later) then
              exists amount ::
                && LargestPurchase(r, s.book.krw, amount)
                && s'.sent == s.sent + [Sent(OrderRequest(m, Bid, Market, None, None, Some(amount)), later,
                                             if m in s.book.ruleBuys then EntryRule else CombinerBuy)]
            else if SellsThen(s, m, now, verdict, later) then
              s'.sent == s.sent + [Sent(OrderRequest(m, Ask, Market, None, Some(s.book.positions[m]), None), later, CombinerSell)]
            else
              s'.sent == s.sent
  {
    var s := After(r, start, events).value;
    AlwaysPaced(r, start, events, m);
    CoolingIff(s, m, now);
    CoolingIff(s, m, later);
    PurchaseIff(r, s.book.krw);
    if !OrderedLately(s.sent, m, now) { NotLatelyLater(s.sent, m, now, later); }
    hide After, Paced, Cooling, BuyAmount, OrderedLately, LargestPurchase;
  }
}
