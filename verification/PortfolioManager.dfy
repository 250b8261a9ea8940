/** The portfolio manager: when it asks for an order, for how much, and how often. */
module PortfolioManager {
  import opened Prelude
  import opened Messages
  import WeightedVote
  import SignalCombiner

  const ORDER_COOLDOWN := 120.0

  const UPBIT_MIN_ORDER_KRW := 5000.0

  const DECISION_INTERVAL := 15.0

  datatype Rules = Rules(takeProfitPct: real, stopLossPct: real, maxEntryKrw: real, riskMaxKrw: real)

  datatype Account = Account(currency: string, balance: real, avgBuyPrice: real)

  /** The agent's dictionaries. */
  datatype Book = Book(
    lastOrder: map<string, real>, positions: map<string, real>, avgBuyPrices: map<string, real>,
    prices: map<string, real>, krw: real, ruleBuys: map<string, Signal>)

  datatype Source = ExitRule | EntryRule | CombinerBuy | CombinerSell

  /** A request on order:request, and the time recorded for it. */
  datatype Sent = Sent(order: OrderRequest, stamp: real, source: Source)

  // ---- decisions

  predicate Cooling(b: Book, market: string, now: real) {
    market in b.lastOrder && now - b.lastOrder[market] < ORDER_COOLDOWN
  }

  function Lookup(m: map<string, real>, market: string): Option<real> {
    if market in m then Some(m[market]) else None
  }

  function Held(b: Book, market: string): real {
    OrZero(Lookup(b.positions, market))
  }

  datatype Exit = TakeProfit | StopLoss

  function ExitReason(r: Rules, b: Book, market: string): Option<Exit> {
    var avg, price := Lookup(b.avgBuyPrices, market), Lookup(b.prices, market);
    if Held(b, market) <= 0.0 then None
    else if !Truthy(avg) || avg.value <= 0.0 || !Truthy(price) then None
    else
      var pnl := (price.value - avg.value) / avg.value;
      if pnl >= r.takeProfitPct then Some(TakeProfit)
      else if pnl <= -r.stopLossPct then Some(StopLoss)
      else None
  }

  lemma QuotientAgainst(x: real, t: real, r: real)
    requires t > 0.0
    ensures x / t >= r <==> x >= r * t
    ensures x / t <= r <==> x <= r * t
  {
    var q := x / t;
    assert q * t == x;
    if q > r { MulPositive(q - r, t); }
    if q < r { MulPositive(r - q, t); }
  }

  /** The exit levels as they are documented, as prices. */
  lemma ExitLevels(r: Rules, b: Book, market: string)
    ensures var avg, price := Lookup(b.avgBuyPrices, market), Lookup(b.prices, market);
            var watched := Held(b, market) > 0.0 && avg.Some? && avg.value > 0.0 && price.Some? && price.value != 0.0;
            && (ExitReason(r, b, market) == Some(TakeProfit) <==>
                  watched && price.value >= avg.value + r.takeProfitPct * avg.value)
            && (ExitReason(r, b, market) == Some(StopLoss) <==>
                  watched && price.value < avg.value + r.takeProfitPct * avg.value
                  && price.value <= avg.value - r.stopLossPct * avg.value)
  {
    var avg, price := Lookup(b.avgBuyPrices, market), Lookup(b.prices, market);
    if avg.Some? && avg.value > 0.0 && price.Some? {
      QuotientAgainst(price.value - avg.value, avg.value, r.takeProfitPct);
      QuotientAgainst(price.value - avg.value, avg.value, -r.stopLossPct);
    }
  }

  function SellAll(market: string, volume: real): OrderRequest {
    OrderRequest(market, Ask, Market, None, Some(volume), None)
  }

  function BuyFor(market: string, amount: real): OrderRequest {
    OrderRequest(market, Bid, Market, None, None, Some(amount))
  }

  function BuyCap(r: Rules): real {
    Min(r.maxEntryKrw, r.riskMaxKrw)
  }

  function BuyAmount(r: Rules, krw: real): Option<real> {
    if krw <= UPBIT_MIN_ORDER_KRW then None
    else
      var amount := Min(Min(krw, r.maxEntryKrw), r.riskMaxKrw);
      if amount < UPBIT_MIN_ORDER_KRW then None else Some(amount)
  }

  /** A purchase is the largest that balance and both limits allow, and is made when that is worth placing. */
  lemma BuyAmountLargest(r: Rules, krw: real)
    ensures BuyAmount(r, krw).Some? <==> krw > UPBIT_MIN_ORDER_KRW && BuyCap(r) >= UPBIT_MIN_ORDER_KRW
    ensures BuyAmount(r, krw).Some? ==>
              var a := BuyAmount(r, krw).value;
              && UPBIT_MIN_ORDER_KRW <= a <= krw && a <= BuyCap(r)
              && (a == krw || a == BuyCap(r))
  {
  }

  // ---- the agent as a machine

  datatype State = State(book: Book, sent: seq<Sent>, clock: real)

  datatype Event =
    | Ticked(market: string, price: real)
    | Signalled(signal: Signal)
    | Refreshed(accounts: seq<Account>)
    | ExitChecked(market: string, now: real)
    | Decided(market: string, now: real, verdict: Direction, later: real)

  predicate Can(s: State, e: Event) {
    match e
    case ExitChecked(_, now) => s.clock <= now
    case Decided(_, now, _, later) => s.clock <= now <= later
    case _ => true
  }

  function Emit(s: State, order: OrderRequest, stamp: real, source: Source): State {
    State(s.book.(lastOrder := s.book.lastOrder[order.market := stamp]), s.sent + [Sent(order, stamp, source)], stamp)
  }

  function Bought(r: Rules, s: State, market: string, now: real, source: Source): State {
    var amount := BuyAmount(r, s.book.krw);
    if Cooling(s.book, market, now) || amount.None? then s.(clock := now)
    else Emit(s, BuyFor(market, amount.value), now, source)
  }

  function CheckExit(r: Rules, s: State, market: string, now: real): State {
    if ExitReason(r, s.book, market).None? || Cooling(s.book, market, now) then s.(clock := now)
    else Emit(s, SellAll(market, Held(s.book, market)), now, ExitRule)
  }

  /** A pending rule signal is spent by the decision whatever comes of it. */
  function Decide(r: Rules, s: State, market: string, now: real, verdict: Direction, later: real): State {
    if market in s.book.ruleBuys then
      Bought(r, s.(book := s.book.(ruleBuys := s.book.ruleBuys - {market})), market, later, EntryRule)
    else if verdict == Hold || Cooling(s.book, market, now) then s.(clock := later)
    else if verdict == Buy then
      if s.book.krw > UPBIT_MIN_ORDER_KRW then Bought(r, s, market, later, CombinerBuy) else s.(clock := later)
    else if Held(s.book, market) > 0.0 then Emit(s, SellAll(market, Held(s.book, market)), later, CombinerSell)
    else s.(clock := later)
  }

  function MarketOf(currency: string): string {
    "KRW-" + currency
  }

  /** The accounts read so far: nonzero balances are positions, the last KRW account is the balance. */
  function Balances(b: Book, accounts: seq<Account>): Book {
    if accounts == [] then b.(positions := map[], avgBuyPrices := map[])
    else
      var before, a := Balances(b, accounts[..|accounts| - 1]), accounts[|accounts| - 1];
      if a.currency == "KRW" then before.(krw := a.balance)
      else if a.balance > 0.0 then
        before.(positions := before.positions[MarketOf(a.currency) := a.balance],
                avgBuyPrices := before.avgBuyPrices[MarketOf(a.currency) := a.avgBuyPrice])
      else before
  }

  predicate PositionIn(a: Account, market: string) {
    a.currency != "KRW" && a.balance > 0.0 && MarketOf(a.currency) == market
  }

  /** The last account in a list that is a position in a market. */
  function LastPosition(accounts: seq<Account>, market: string): Option<Account> {
    if accounts == [] then None
    else if PositionIn(accounts[|accounts| - 1], market) then Some(accounts[|accounts| - 1])
    else LastPosition(accounts[..|accounts| - 1], market)
  }

  /** After a refresh exactly the markets with an account of positive balance are held, at the balance and average
      price of the last such account; nothing of the old positions is left. */
  lemma {:induction false} BalancesAreLatest(b: Book, accounts: seq<Account>, market: string)
    ensures var b', last := Balances(b, accounts), LastPosition(accounts, market);
            && Lookup(b'.positions, market) == (if last.Some? then Some(last.value.balance) else None)
            && Lookup(b'.avgBuyPrices, market) == (if last.Some? then Some(last.value.avgBuyPrice) else None)
            && Held(b', market) >= 0.0
  {
    if accounts != [] { BalancesAreLatest(b, accounts[..|accounts| - 1], market); }
  }

  /** A rule signal waits for the next decision; every other signal goes to the combiner. */
  function Receive(b: Book, signal: Signal): Book {
    if signal.strategy == "rules" && signal.direction == Direction.Buy
    then b.(ruleBuys := b.ruleBuys[signal.market := signal])
    else b
  }

  function Do(r: Rules, s: State, e: Event): State {
    match e
    case Ticked(m, p) => s.(book := s.book.(prices := s.book.prices[m := p]))
    case Signalled(x) => s.(book := Receive(s.book, x))
    case Refreshed(accounts) => s.(book := Balances(s.book, accounts))
    case ExitChecked(m, now) => CheckExit(r, s, m, now)
    case Decided(m, now, v, later) => Decide(r, s, m, now, v, later)
  }

  const EMPTY := Book(map[], map[], map[], map[], 0.0, map[])

  function After(r: Rules, start: real, events: seq<Event>): Option<State> {
    if events == [] then Some(State(EMPTY, [], start))
    else
      var before := After(r, start, events[..|events| - 1]);
      if before.Some? && Can(before.value, events[|events| - 1])
      then Some(Do(r, before.value, events[|events| - 1])) else None
  }

  predicate Possible(r: Rules, start: real, events: seq<Event>) {
    After(r, start, events).Some?
  }

  lemma Last(r: Rules, start: real, events: seq<Event>)
    requires Possible(r, start, events) && events != []
    ensures var before := After(r, start, events[..|events| - 1]);
            && before.Some? && Can(before.value, events[|events| - 1])
            && After(r, start, events) == Some(Do(r, before.value, events[|events| - 1]))
  {
  }

  lemma OneMore(r: Rules, start: real, events: seq<Event>, e: Event)
    requires Possible(r, start, events) && Can(After(r, start, events).value, e)
    ensures After(r, start, events + [e]) == Some(Do(r, After(r, start, events).value, e))
  {
    assert (events + [e])[..|events|] == events;
  }

  // ---- how often

  /** The stamps recorded for one market, on all paths. */
  function Stamps(sent: seq<Sent>, market: string): seq<real> {
    if sent == [] then []
    else
      var x := sent[|sent| - 1];
      Stamps(sent[..|sent| - 1], market) + if x.order.market == market then [x.stamp] else []
  }

  lemma StampsAppend(sent: seq<Sent>, x: Sent, market: string)
    ensures Stamps(sent + [x], market) == Stamps(sent, market) + if x.order.market == market then [x.stamp] else []
  {
    assert (sent + [x])[..|sent|] == sent;
  }

  /** A market's stamps are a cooldown apart; the last one is the time on record, and none lies ahead. */
  ghost predicate Paced(s: State, market: string) {
    var ts := Stamps(s.sent, market);
    && Spaced(ts, ORDER_COOLDOWN)
    && (market in s.book.lastOrder <==> ts != [])
    && (ts != [] ==> s.book.lastOrder[market] == ts[|ts| - 1] <= s.clock)
    && forall i | 0 <= i < |ts| :: ts[i] <= ts[|ts| - 1]
  }

  lemma EmitKeepsPace(s: State, order: OrderRequest, stamp: real, source: Source, market: string)
    requires Paced(s, market) && s.clock <= stamp && !Cooling(s.book, order.market, stamp)
    ensures Paced(Emit(s, order, stamp, source), market)
  {
    StampsAppend(s.sent, Sent(order, stamp, source), market);
    hide Stamps;
  }

  lemma {:induction false} BalancesTouch(b: Book, accounts: seq<Account>)
    ensures var b' := Balances(b, accounts);
            b'.lastOrder == b.lastOrder && b'.prices == b.prices && b'.ruleBuys == b.ruleBuys
  {
    if accounts != [] { BalancesTouch(b, accounts[..|accounts| - 1]); }
  }

  lemma LaterIsPaced(s: State, later: real, market: string)
    requires Paced(s, market) && s.clock <= later
    ensures Paced(s.(clock := later), market)
  {
    hide Stamps, Spaced;
  }

  lemma CoolingEnds(b: Book, m: string, now: real, later: real)
    requires !Cooling(b, m, now) && now <= later
    ensures !Cooling(b, m, later)
  {
  }

  lemma BuyKeepsPace(r: Rules, s: State, m: string, now: real, source: Source, market: string)
    requires Paced(s, market) && s.clock <= now
    ensures Paced(Bought(r, s, m, now, source), market)
  {
    hide Stamps, Emit;
    if !Cooling(s.book, m, now) && BuyAmount(r, s.book.krw).Some? {
      EmitKeepsPace(s, BuyFor(m, BuyAmount(r, s.book.krw).value), now, source, market);
    }
  }

  lemma DecisionKeepsPace(r: Rules, s: State, m: string, now: real, v: Direction, later: real, market: string)
    requires Paced(s, market) && s.clock <= now <= later
    ensures Paced(Decide(r, s, m, now, v, later), market)
  {
    var spent := s.(book := s.book.(ruleBuys := s.book.ruleBuys - {m}));
    assert Paced(spent, market) by { hide Stamps; }
    hide Stamps, Emit, Spaced;
    BuyKeepsPace(r, spent, m, later, EntryRule, market);
    BuyKeepsPace(r, s, m, later, CombinerBuy, market);
    if !Cooling(s.book, m, later) {
      EmitKeepsPace(s, SellAll(m, Held(s.book, m)), later, CombinerSell, market);
    }
    LaterIsPaced(s, later, market);
    if !Cooling(s.book, m, now) { CoolingEnds(s.book, m, now, later); }
    hide Bought, Paced, Cooling, Held;
  }

  lemma PaceKept(r: Rules, s: State, e: Event, market: string)
    requires Paced(s, market) && Can(s, e)
    ensures Paced(Do(r, s, e), market)
  {
    hide Stamps, Balances, ExitReason, BuyAmount, Emit;
    match e {
      case ExitChecked(m, now) =>
        if ExitReason(r, s.book, m).Some? && !Cooling(s.book, m, now) {
          EmitKeepsPace(s, SellAll(m, Held(s.book, m)), now, ExitRule, market);
        }
      case Decided(m, now, v, later) => DecisionKeepsPace(r, s, m, now, v, later, market);
      case Refreshed(accounts) => BalancesTouch(s.book, accounts);
      case _ =>
    }
  }

  /** In every run the recorded request times of a market are at least the cooldown apart, whichever of the paths
      the requests came from. */
  lemma {:induction false} AlwaysPaced(r: Rules, start: real, events: seq<Event>, market: string)
    requires Possible(r, start, events)
    ensures Paced(After(r, start, events).value, market)
  {
    if events != [] {
      Last(r, start, events);
      AlwaysPaced(r, start, events[..|events| - 1], market);
      PaceKept(r, After(r, start, events[..|events| - 1]).value, events[|events| - 1], market);
    }
  }

  // ---- how much

  /** What a request can look like. */
  predicate WellMade(r: Rules, x: Sent) {
    && x.order.orderType == Market && x.order.price == None
    && match x.order.side
       case Bid =>
         && x.order.volume == None && x.order.amountKrw.Some?
         && UPBIT_MIN_ORDER_KRW <= x.order.amountKrw.value <= BuyCap(r)
         && (x.source == EntryRule || x.source == CombinerBuy)
       case Ask =>
         && x.order.amountKrw == None && x.order.volume.Some? && x.order.volume.value > 0.0
         && (x.source == ExitRule || x.source == CombinerSell)
  }

  /** At most one request an event, well made, and made of what the books say at that moment. */
  lemma OneRequestEach(r: Rules, s: State, e: Event)
    requires Can(s, e)
    ensures var s' := Do(r, s, e);
            || s'.sent == s.sent
            || exists x ::
                 && s'.sent == s.sent + [x] && WellMade(r, x)
                 && (x.order.side == Bid ==> x.order.amountKrw.value <= s.book.krw)
                 && (x.order.side == Ask ==> x.order.volume.value == Held(s.book, x.order.market))
  {
    var s' := Do(r, s, e);
    BuyAmountLargest(r, s.book.krw);
    if s'.sent != s.sent {
      var x := s'.sent[|s.sent|];
      if x.source == ExitRule { ExitLevels(r, s.book, x.order.market); }
      assert s'.sent == s.sent + [x];
    }
  }

  lemma {:induction false} AllWellMade(r: Rules, start: real, events: seq<Event>)
    requires Possible(r, start, events)
    ensures forall x | x in After(r, start, events).value.sent :: WellMade(r, x)
  {
    if events != [] {
      Last(r, start, events);
      AllWellMade(r, start, events[..|events| - 1]);
      hide Do, Can, After, WellMade;
      OneRequestEach(r, After(r, start, events[..|events| - 1]).value, events[|events| - 1]);
    }
  }

  /** KRW of the purchases of a market stamped within a window. */
  function SpentIn(sent: seq<Sent>, market: string, lo: real, hi: real): real {
    if sent == [] then 0.0
    else
      var x := sent[|sent| - 1];
      SpentIn(sent[..|sent| - 1], market, lo, hi)
        + if x.order.market == market && x.order.side == Bid && lo <= x.stamp <= hi then OrZero(x.order.amountKrw) else 0.0
  }

  /** The most a single purchase can cost. */
  function LargestBuy(r: Rules): real {
    Max(0.0, BuyCap(r))
  }

  lemma CountAppend(ts: seq<real>, t: real, lo: real, hi: real)
    ensures CountIn(ts + [t], lo, hi) == CountIn(ts, lo, hi) + if lo <= t <= hi then 1 else 0
  {
    assert (ts + [t])[..|ts|] == ts;
  }

  lemma {:induction false} SpentByCount(r: Rules, sent: seq<Sent>, market: string, lo: real, hi: real)
    requires forall x | x in sent :: WellMade(r, x)
    ensures SpentIn(sent, market, lo, hi) <= Gaps(CountIn(Stamps(sent, market), lo, hi), LargestBuy(r))
  {
    hide Gaps, BuyCap;
    OneMoreGap(0, LargestBuy(r));
    if sent != [] {
      var init, x := sent[..|sent| - 1], sent[|sent| - 1];
      assert x in sent;
      SpentByCount(r, init, market, lo, hi);
      var ts := Stamps(init, market);
      OneMoreGap(CountIn(ts, lo, hi) + 1, LargestBuy(r));
      if x.order.market == market { CountAppend(ts, x.stamp, lo, hi); } else { assert ts + [] == ts; }
      hide Stamps, CountIn;
    }
  }

  lemma MoreGaps(a: int, b: int, gap: real)
    requires a <= b && gap >= 0.0
    ensures Gaps(a, gap) <= Gaps(b, gap)
  {
    MulMonotone(a as real, b as real, gap);
  }

  lemma SpendOf(r: Rules, s: State, market: string, lo: real, span: real)
    requires Paced(s, market) && span >= 0.0 && forall x | x in s.sent :: WellMade(r, x)
    ensures CountIn(Stamps(s.sent, market), lo, lo + span) <= (span / ORDER_COOLDOWN).Floor + 1
    ensures SpentIn(s.sent, market, lo, lo + span) <= Gaps((span / ORDER_COOLDOWN).Floor + 1, LargestBuy(r))
  {
    hide Stamps, SpentIn, CountIn, BuyCap, Gaps, WellMade;
    var ts, most := Stamps(s.sent, market), (span / ORDER_COOLDOWN).Floor + 1;
    SpacedCount(ts, ORDER_COOLDOWN, lo, span);
    SpentByCount(r, s.sent, market, lo, lo + span);
    MoreGaps(CountIn(ts, lo, lo + span), most, LargestBuy(r));
  }

  /** Any window of T seconds holds at most floor(T / 120) + 1 requests for a market, and they spend at most that
      many times the smaller of the two size limits. */
  lemma SpendRate(r: Rules, start: real, events: seq<Event>, market: string, lo: real, span: real)
    requires Possible(r, start, events) && span >= 0.0
    ensures var sent := After(r, start, events).value.sent;
            && CountIn(Stamps(sent, market), lo, lo + span) <= (span / ORDER_COOLDOWN).Floor + 1
            && SpentIn(sent, market, lo, lo + span) <= Gaps((span / ORDER_COOLDOWN).Floor + 1, LargestBuy(r))
  {
    hide After, Stamps, SpentIn, CountIn, BuyCap, Gaps;
    AlwaysPaced(r, start, events, market);
    AllWellMade(r, start, events);
    SpendOf(r, After(r, start, events).value, market, lo, span);
  }

  /** Exactly one request, on that side of that market, has been added. */
  predicate Added(before: seq<Sent>, now: seq<Sent>, side: OrderSide, market: string) {
    && |now| == |before| + 1 && before <= now
    && now[|before|].order.side == side && now[|before|].order.market == market
  }

  /** The decision is free to act: a pending rule signal decides alone and at the later reading of the clock. */
  predicate Ready(s: State, m: string, now: real, later: real) {
    !Cooling(s.book, m, if m in s.book.ruleBuys then later else now)
  }

  /** When a decision leads to a request, and to which: cooldown and amounts have the last word. */
  lemma DecisionSends(r: Rules, s: State, m: string, now: real, verdict: Direction, later: real)
    requires s.clock <= now <= later
    ensures var s', rule := Do(r, s, Decided(m, now, verdict, later)), m in s.book.ruleBuys;
            && (Added(s.sent, s'.sent, Bid, m) <==>
                  Ready(s, m, now, later) && (rule || verdict == Buy)
                  && s.book.krw > UPBIT_MIN_ORDER_KRW && BuyCap(r) >= UPBIT_MIN_ORDER_KRW)
            && (Added(s.sent, s'.sent, Ask, m) <==>
                  Ready(s, m, now, later) && !rule && verdict == Sell && Held(s.book, m) > 0.0)
            && (s'.sent == s.sent || Added(s.sent, s'.sent, Bid, m) || Added(s.sent, s'.sent, Ask, m))
            && m !in s'.book.ruleBuys
  {
    BuyAmountLargest(r, s.book.krw);
    assert m in s.book.lastOrder ==> later - s.book.lastOrder[m] >= now - s.book.lastOrder[m];
  }

  // ---- rule signals

  predicate RuleBuy(e: Event, market: string) {
    e.Signalled? && e.signal.strategy == "rules" && e.signal.direction == Direction.Buy && e.signal.market == market
  }

  function RuleSignals(events: seq<Event>, market: string): nat {
    if events == [] then 0
    else RuleSignals(events[..|events| - 1], market) + if RuleBuy(events[|events| - 1], market) then 1 else 0
  }

  function RuleEntries(sent: seq<Sent>, market: string): nat {
    if sent == [] then 0
    else
      var x := sent[|sent| - 1];
      RuleEntries(sent[..|sent| - 1], market) + if x.order.market == market && x.source == EntryRule then 1 else 0
  }

  function RuleSpentOrPending(s: State, market: string): nat {
    RuleEntries(s.sent, market) + if market in s.book.ruleBuys then 1 else 0
  }

  lemma RuleEntriesAppend(sent: seq<Sent>, x: Sent, market: string)
    ensures RuleEntries(sent + [x], market)
         == RuleEntries(sent, market) + if x.order.market == market && x.source == EntryRule then 1 else 0
  {
    assert (sent + [x])[..|sent|] == sent;
  }

  /** A decision takes its market's rule signal away, and buys on it at most once. */
  lemma RuleDecision(r: Rules, s: State, e: Event) returns (more: seq<Sent>)
    requires Can(s, e) && e.Decided?
    ensures var s' := Do(r, s, e);
            && s'.sent == s.sent + more && |more| <= 1 && s'.book.ruleBuys.Keys == s.book.ruleBuys.Keys - {e.market}
            && (more != [] && more[0].source == EntryRule ==> more[0].order.market == e.market && e.market in s.book.ruleBuys)
  {
    hide BuyAmount, Cooling;
    var s' := Do(r, s, e);
    more := if s'.sent == s.sent then [] else [s'.sent[|s.sent|]];
    assert s'.sent == s.sent + more;
  }

  lemma SpentOrPendingAfter(s: State, s': State, more: seq<Sent>, m: string, market: string)
    requires s'.sent == s.sent + more && |more| <= 1 && s'.book.ruleBuys.Keys == s.book.ruleBuys.Keys - {m}
    requires more != [] && more[0].source == EntryRule ==> more[0].order.market == m && m in s.book.ruleBuys
    ensures RuleSpentOrPending(s', market) <= RuleSpentOrPending(s, market)
  {
    assert market in s'.book.ruleBuys <==> market in s.book.ruleBuys && market != m;
    if more != [] {
      assert more == [more[0]];
      RuleEntriesAppend(s.sent, more[0], market);
    } else {
      assert s.sent + more == s.sent;
    }
    hide RuleEntries;
  }

  lemma RuleElsewhere(r: Rules, s: State, e: Event, market: string)
    requires Can(s, e) && !e.Decided?
    ensures RuleSpentOrPending(Do(r, s, e), market) <= RuleSpentOrPending(s, market) + if RuleBuy(e, market) then 1 else 0
  {
    hide ExitReason, Cooling, RuleEntries, Balances;
    match e {
      case Refreshed(accounts) => BalancesTouch(s.book, accounts);
      case ExitChecked(m, now) =>
        if Do(r, s, e).sent != s.sent {
          RuleEntriesAppend(s.sent, Sent(SellAll(m, Held(s.book, m)), now, ExitRule), market);
        }
      case _ =>
    }
  }

  lemma RuleStep(r: Rules, s: State, e: Event, market: string)
    requires Can(s, e)
    ensures RuleSpentOrPending(Do(r, s, e), market) <= RuleSpentOrPending(s, market) + if RuleBuy(e, market) then 1 else 0
  {
    var s' := Do(r, s, e);
    if e.Decided? {
      var more := RuleDecision(r, s, e);
      hide *;
      SpentOrPendingAfter(s, s', more, e.market, market);
    } else {
      RuleElsewhere(r, s, e, market);
    }
  }

  /** Each rule signal leads to at most one purchase: what was bought on them and what is still pending never
      outnumbers the signals that came. */
  lemma {:induction false} RuleSignalSpentOnce(r: Rules, start: real, events: seq<Event>, market: string)
    requires Possible(r, start, events)
    ensures RuleSpentOrPending(After(r, start, events).value, market) <= RuleSignals(events, market)
  {
    if events != [] {
      Last(r, start, events);
      RuleSignalSpentOnce(r, start, events[..|events| - 1], market);
      hide After;
      RuleStep(r, After(r, start, events[..|events| - 1]).value, events[|events| - 1], market);
    }
  }

  // ---- what is spent between two refreshes of the balance

  function Bids(sent: seq<Sent>): nat {
    if sent == [] then 0 else Bids(sent[..|sent| - 1]) + if sent[|sent| - 1].order.side == Bid then 1 else 0
  }

  /** KRW of all purchases in a list of requests. */
  function Spent(sent: seq<Sent>): real {
    if sent == [] then 0.0
    else
      var o := sent[|sent| - 1].order;
      Spent(sent[..|sent| - 1]) + if o.side == Bid then OrZero(o.amountKrw) else 0.0
  }

  /** What an event sends when it is a purchase: the amount that the balance on record gives. */
  lemma PurchasesAreAmount(r: Rules, s: State, e: Event) returns (more: seq<Sent>)
    requires Can(s, e) && !e.Refreshed?
    ensures var s' := Do(r, s, e);
            && s'.book.krw == s.book.krw && s'.sent == s.sent + more && |more| <= 1
            && (more != [] && more[0].order.side == Bid ==>
                  BuyAmount(r, s.book.krw).Some? && more[0].order.amountKrw == BuyAmount(r, s.book.krw))
  {
    hide BuyAmount, ExitReason, Cooling;
    var s' := Do(r, s, e);
    more := if s'.sent == s.sent then [] else [s'.sent[|s.sent|]];
    assert s'.sent == s.sent + more;
  }

  function SentSince(s0: State, s: State): seq<Sent> {
    if |s0.sent| <= |s.sent| then s.sent[|s0.sent|..] else []
  }

  /** The balance on record has not changed, and each purchase since has spent the amount it gives. */
  ghost predicate SpentByAmount(r: Rules, s0: State, s: State) {
    var since, amount := SentSince(s0, s), BuyAmount(r, s0.book.krw);
    && s.book.krw == s0.book.krw && s.sent == s0.sent + since
    && Spent(since) == Gaps(Bids(since), OrZero(amount)) && (Bids(since) > 0 ==> amount.Some?)
  }

  lemma OneMoreSpent(sent: seq<Sent>, x: Sent, amount: real)
    requires Spent(sent) == Gaps(Bids(sent), amount) && (x.order.side == Bid ==> x.order.amountKrw == Some(amount))
    ensures Bids(sent + [x]) == Bids(sent) + if x.order.side == Bid then 1 else 0
    ensures Spent(sent + [x]) == Gaps(Bids(sent + [x]), amount)
  {
    assert (sent + [x])[..|sent|] == sent;
    OneMoreGap(Bids(sent) + 1, amount);
    hide Gaps;
  }

  lemma SentMore(r: Rules, s0: State, s: State, s': State, more: seq<Sent>)
    requires SpentByAmount(r, s0, s) && s'.book.krw == s.book.krw && s'.sent == s.sent + more && |more| <= 1
    requires more != [] && more[0].order.side == Bid ==>
               BuyAmount(r, s.book.krw).Some? && more[0].order.amountKrw == BuyAmount(r, s.book.krw)
    ensures SpentByAmount(r, s0, s')
  {
    var since := SentSince(s0, s);
    assert SentSince(s0, s') == since + more by { hide BuyAmount, Spent, Bids, Gaps; }
    hide BuyAmount, Spent, Bids, Gaps, SentSince;
    if more != [] {
      assert more == [more[0]];
      OneMoreSpent(since, more[0], OrZero(BuyAmount(r, s0.book.krw)));
    } else {
      assert since + more == since && s.sent + more == s.sent;
    }
  }

  lemma SpentStep(r: Rules, s0: State, s: State, e: Event)
    requires SpentByAmount(r, s0, s) && Can(s, e) && !e.Refreshed?
    ensures SpentByAmount(r, s0, Do(r, s, e))
  {
    var more := PurchasesAreAmount(r, s, e);
    hide Do, Can;
    SentMore(r, s0, s, Do(r, s, e), more);
  }

  lemma {:induction false} SpentSince(r: Rules, start: real, events: seq<Event>, k: nat)
    requires Possible(r, start, events) && k <= |events|
    requires forall i | k <= i < |events| :: !events[i].Refreshed?
    ensures Possible(r, start, events[..k])
    ensures SpentByAmount(r, After(r, start, events[..k]).value, After(r, start, events).value)
  {
    if k == |events| {
      assert events[..k] == events;
      OneMoreGap(0, OrZero(BuyAmount(r, After(r, start, events).value.book.krw)));
    } else {
      var init, e := events[..|events| - 1], events[|events| - 1];
      assert init[..k] == events[..k];
      Last(r, start, events);
      SpentSince(r, start, init, k);
      hide Do, Can, After, SpentByAmount;
      SpentStep(r, After(r, start, events[..k]).value, After(r, start, init).value, e);
    }
  }

  lemma GapsGrow(n: nat, a: real, b: real)
    requires a <= b
    ensures Gaps(n, a) <= Gaps(n, b)
  {
    MulMonotone(a, b, n as real);
  }

  lemma ManyTimes(amount: real, krw: real, cap: real, n: nat)
    requires 0.0 < amount <= krw && amount <= cap && (amount == krw || amount == cap) && n > 0
    ensures Gaps(n, amount) > krw <==> n >= 2 && krw < Gaps(n, cap)
  {
    OneMoreGap(0, amount);
    OneMoreGap(1, amount);
    OneMoreGap(2, amount);
    if n >= 2 { MoreGaps(2, n, amount); }
    GapsGrow(n, amount, cap);
    hide Gaps;
  }

  /** The balance is not reduced by a request. So between two refreshes, whatever else happens, n purchases of any markets
      spend n times the same amount, and more than the balance exactly when there are two at least and the balance is
      less than n times the smaller size limit. */
  lemma OverspendsIff(r: Rules, start: real, events: seq<Event>, k: nat)
    requires Possible(r, start, events) && k <= |events| && Possible(r, start, events[..k])
    requires forall i | k <= i < |events| :: !events[i].Refreshed?
    requires Bids(SentSince(After(r, start, events[..k]).value, After(r, start, events).value)) > 0
    ensures var s0 := After(r, start, events[..k]).value;
            var since, krw := SentSince(s0, After(r, start, events).value), s0.book.krw;
            && BuyAmount(r, krw).Some? && Spent(since) == Gaps(Bids(since), BuyAmount(r, krw).value)
            && (Spent(since) > krw <==> Bids(since) >= 2 && krw < Gaps(Bids(since), BuyCap(r)))
  {
    SpentSince(r, start, events, k);
    var s0 := After(r, start, events[..k]).value;
    var krw, n := s0.book.krw, Bids(SentSince(s0, After(r, start, events).value));
    BuyAmountLargest(r, krw);
    hide After, Spent, Bids, BuyAmount, BuyCap, SentSince;
    ManyTimes(BuyAmount(r, krw).value, krw, BuyCap(r), n);
  }

  /** A round of the decision loop in which every market is to be bought. */
  function BuyRound(markets: seq<string>, now: real): seq<Event> {
    if markets == [] then []
    else BuyRound(markets[..|markets| - 1], now) + [Decided(markets[|markets| - 1], now, Buy, now)]
  }

  /** A purchase for each of the markets has been sent, and only they have been stamped. */
  ghost predicate BoughtAll(s: State, v: State, markets: seq<string>, now: real) {
    && s.sent <= v.sent && Bids(v.sent[|s.sent|..]) == |markets| == |v.sent| - |s.sent|
    && v.book.krw == s.book.krw && v.clock <= now
    && forall m | m !in markets :: Cooling(v.book, m, now) == Cooling(s.book, m, now)
  }

  lemma BuysOne(r: Rules, v: State, m: string, now: real) returns (x: Sent)
    requires !Cooling(v.book, m, now) && BuyAmount(r, v.book.krw).Some?
    ensures var v' := Do(r, v, Decided(m, now, Buy, now));
            && v'.sent == v.sent + [x] && x.order.side == Bid && v'.book.krw == v.book.krw && v'.clock == now
            && v'.book.lastOrder == v.book.lastOrder[m := now]
  {
    BuyAmountLargest(r, v.book.krw);
    hide BuyAmount;
    x := Do(r, v, Decided(m, now, Buy, now)).sent[|v.sent|];
  }

  lemma OneMoreBought(r: Rules, s: State, v: State, init: seq<string>, m: string, now: real)
    requires BoughtAll(s, v, init, now) && m !in init && !Cooling(s.book, m, now) && BuyAmount(r, s.book.krw).Some?
    ensures BoughtAll(s, Do(r, v, Decided(m, now, Buy, now)), init + [m], now)
  {
    var v' := Do(r, v, Decided(m, now, Buy, now));
    var x := BuysOne(r, v, m, now);
    hide Do, Can, BuyAmount;
    var since := v.sent[|s.sent|..];
    assert v'.sent[|s.sent|..] == since + [x];
    assert (since + [x])[..|since|] == since;
  }

  /** And every market that is bought counts: a round over different markets, none of them cooling down, sends a purchase
      for each, on rule signals or on the combiner's verdict. */
  lemma {:induction false} RoundBuysAll(r: Rules, start: real, events: seq<Event>, markets: seq<string>, now: real)
    requires Possible(r, start, events) && After(r, start, events).value.clock <= now
    requires BuyAmount(r, After(r, start, events).value.book.krw).Some?
    requires forall m | m in markets :: !Cooling(After(r, start, events).value.book, m, now)
    requires forall i, j | 0 <= i < j < |markets| :: markets[i] != markets[j]
    ensures var all := events + BuyRound(markets, now);
            && Possible(r, start, all) && all[..|events|] == events
            && BoughtAll(After(r, start, events).value, After(r, start, all).value, markets, now)
  {
    var s, all := After(r, start, events).value, events + BuyRound(markets, now);
    if markets == [] {
      assert all == events;
      assert s.sent[|s.sent|..] == [];
    } else {
      var init, m := markets[..|markets| - 1], markets[|markets| - 1];
      RoundBuysAll(r, start, events, init, now);
      var before := events + BuyRound(init, now);
      assert all == before + [Decided(m, now, Buy, now)];
      assert forall i | 0 <= i < |init| :: init[i] != m;
      var v, e := After(r, start, before).value, Decided(m, now, Buy, now);
      OneMore(r, start, before, e);
      assert Can(v, e);
      hide After, Do, Can, BuyAmount;
      OneMoreBought(r, s, v, init, m, now);
    }
  }

  lemma {:induction false} BalancesElsewhere(b: Book, lastOrder: map<string, real>, accounts: seq<Account>)
    ensures Balances(b.(lastOrder := lastOrder), accounts) == Balances(b, accounts).(lastOrder := lastOrder)
  {
    if accounts != [] { BalancesElsewhere(b, lastOrder, accounts[..|accounts| - 1]); }
  }

  /** A handler that runs while a request is being published has the same effect before and after it. */
  lemma PublicationCommutes(r: Rules, s: State, order: OrderRequest, stamp: real, source: Source, e: Event)
    requires e.Ticked? || e.Signalled? || e.Refreshed?
    ensures Emit(Do(r, s, e), order, stamp, source) == Do(r, Emit(s, order, stamp, source), e)
  {
    if e.Refreshed? {
      BalancesTouch(s.book, e.accounts);
      BalancesElsewhere(s.book, s.book.lastOrder[order.market := stamp], e.accounts);
    }
  }

  // ---- the agent

  datatype Reply<+T> = Returned(value: T) | Raised

  function Orders(sent: seq<Sent>): seq<OrderRequest> {
    seq(|sent|, i requires 0 <= i < |sent| => sent[i].order)
  }

  lemma OrdersAppend(sent: seq<Sent>, x: Sent)
    ensures Orders(sent + [x]) == Orders(sent) + [x.order]
  {
  }

  lemma AllPacedAndWellMade(r: Rules, start: real, events: seq<Event>)
    requires Possible(r, start, events)
    ensures var s := After(r, start, events).value;
            (forall m :: Paced(s, m)) && forall x | x in s.sent :: WellMade(r, x)
  {
    hide After, Paced, WellMade;
    forall m ensures Paced(After(r, start, events).value, m) { AlwaysPaced(r, start, events, m); }
    AllWellMade(r, start, events);
  }

  // ---- whose turn it is

  datatype Turn = Checks(market: string) | Decides(market: string)

  /** The exit checks and decisions of a run, in order. */
  function Turns(events: seq<Event>): seq<Turn> {
    if events == [] then []
    else
      Turns(events[..|events| - 1])
        + match events[|events| - 1]
          case ExitChecked(m, _) => [Checks(m)]
          case Decided(m, _, _, _) => [Decides(m)]
          case _ => []
  }

  lemma TurnsAppend(events: seq<Event>, e: Event)
    ensures Turns(events + [e])
         == Turns(events) + if e.ExitChecked? then [Checks(e.market)] else if e.Decided? then [Decides(e.market)] else []
  {
    assert (events + [e])[..|events|] == events;
  }

  /** One round: each market in turn is checked and then decided. */
  function InTurn(markets: seq<string>): seq<Turn> {
    if markets == [] then []
    else InTurn(markets[..|markets| - 1]) + [Checks(markets[|markets| - 1]), Decides(markets[|markets| - 1])]
  }

  function Rounds(markets: seq<string>, n: nat): seq<Turn> {
    if n == 0 then [] else Rounds(markets, n - 1) + InTurn(markets)
  }

  /** The i-th market of a round has the turns 2i and 2i + 1, and there are no others. */
  lemma {:induction false} InTurnAt(markets: seq<string>, i: nat)
    requires i < |markets|
    ensures |InTurn(markets)| == 2 * |markets|
    ensures InTurn(markets)[2 * i] == Checks(markets[i]) && InTurn(markets)[2 * i + 1] == Decides(markets[i])
  {
    var n := |markets| - 1;
    if n > 0 {
      InTurnAt(markets[..n], if i < n then i else 0);
    } else {
      assert markets[..n] == [];
    }
  }

  lemma OneMoreInTurn(markets: seq<string>, i: nat)
    requires i < |markets|
    ensures InTurn(markets[..i + 1]) == InTurn(markets[..i]) + [Checks(markets[i]), Decides(markets[i])]
  {
    assert markets[..i + 1][..i] == markets[..i];
  }

  lemma NoRounds(markets: seq<string>)
    ensures Rounds(markets, 0) == [] && Gaps(0, 15.0) == 0.0
  {
  }

  lemma OneMoreRound(markets: seq<string>, n: nat)
    requires n > 0
    ensures Rounds(markets, n) == Rounds(markets, n - 1) + InTurn(markets) && Gaps(n, 15.0) == Gaps(n - 1, 15.0) + 15.0
  {
  }

  class Agent {
    const rules: Rules
    const start: real
    const clock: Clock
    const combiner: SignalCombiner.Combiner
    var lastOrderTime: map<string, real>
    var positions: map<string, real>
    var avgBuyPrices: map<string, real>
    var currentPrices: map<string, real>
    var krwBalance: real
    var pendingRuleBuys: map<string, Signal>
    ghost var requests: seq<OrderRequest>
    ghost var events: seq<Event>

    ghost function View(): Book
      reads this
    {
      Book(lastOrderTime, positions, avgBuyPrices, currentPrices, krwBalance, pendingRuleBuys)
    }

    /** The fields and the requests published are those of a state of the machine. */
    ghost predicate Shows(s: State)
      reads this, clock
    {
      s.book == View() && Orders(s.sent) == requests && s.clock <= clock.now
    }

    /** The state shown is the one the events so far lead to. */
    ghost predicate Valid()
      reads this, clock, combiner, combiner.clock
    {
      && combiner.clock == clock && combiner.Valid()
      && var s := After(rules, start, events);
         s.Some? && Shows(s.value)
    }

    constructor (rules: Rules, weights: WeightedVote.Weights, minConfidence: real, clock: Clock)
      ensures Valid() && requests == [] && events == [] && fresh(combiner)
      ensures this.rules == rules && this.clock == clock
      ensures combiner.weights == weights && combiner.minConfidence == minConfidence
    {
      this.rules, this.clock, start := rules, clock, clock.now;
      combiner := new SignalCombiner.Combiner(weights, minConfidence, clock);
      lastOrderTime, positions, avgBuyPrices, currentPrices := map[], map[], map[], map[];
      krwBalance, pendingRuleBuys, requests, events := 0.0, map[], [], [];
    }

    /** Record what has just happened; the fields must already show it. */
    ghost method Note(e: Event, before: State)
      requires After(rules, start, events) == Some(before) && Can(before, e) && Shows(Do(rules, before, e))
      requires combiner.clock == clock && combiner.Valid()
      modifies this`events
      ensures Valid() && events == old(events) + [e]
      ensures Turns(events)
           == old(Turns(events)) + if e.ExitChecked? then [Checks(e.market)] else if e.Decided? then [Decides(e.market)] else []
    {
      hide After, Turns, Do;
      OneMore(rules, start, events, e);
      TurnsAppend(events, e);
      events := events + [e];
    }

    /** Time has passed: what had expired from the combiner's cache still has. */
    method Now() returns (now: real)
      requires combiner.clock == clock && combiner.Valid()
      modifies clock
      ensures combiner.Valid() && old(clock.now) <= now == clock.now
    {
      now := clock.Read();
    }

    method OnTicker(market: string, tradePrice: real)
      requires Valid()
      modifies this`currentPrices, this`events
      ensures Valid() && events == old(events) + [Ticked(market, tradePrice)] && Turns(events) == old(Turns(events))
    {
      ghost var before := After(rules, start, events).value;
      hide After;
      currentPrices := currentPrices[market := tradePrice];
      Note(Ticked(market, tradePrice), before);
    }

    method OnSignal(signal: Signal)
      requires Valid()
      modifies this`pendingRuleBuys, this`events, clock, combiner
      ensures Valid() && events == old(events) + [Signalled(signal)] && Turns(events) == old(Turns(events))
      ensures clock.now >= old(clock.now)
      ensures combiner.log == old(combiner.log)
                + if signal.strategy == "rules" then []
                  else [SignalCombiner.Updated(SignalCombiner.Stamped(signal, clock.now))]
    {
      ghost var before := After(rules, start, events).value;
      hide After;
      if signal.strategy == "rules" {
        if signal.direction == Direction.Buy {
          pendingRuleBuys := pendingRuleBuys[signal.market := signal];
        }
      } else {
        combiner.Update(signal);
      }
      Note(Signalled(signal), before);
    }

    /** Positions and prices are rebuilt from the accounts; a request that raises leaves everything as it was. */
    method RefreshBalances(reply: Reply<seq<Account>>)
      requires Valid()
      modifies this`positions, this`avgBuyPrices, this`krwBalance, this`events
      ensures Valid() && Turns(events) == old(Turns(events))
      ensures events == old(events) + if reply.Returned? then [Refreshed(reply.value)] else []
    {
      if reply.Raised? { return; }
      ghost var before := After(rules, start, events).value;
      hide After;
      var accounts := reply.value;
      positions, avgBuyPrices := map[], map[];
      var i := 0;
      while i < |accounts|
        invariant 0 <= i <= |accounts| && View() == Balances(before.book, accounts[..i])
        invariant events == old(events)
      {
        var acc := accounts[i];
        if acc.currency == "KRW" {
          krwBalance := acc.balance;
        } else {
          var market := "KRW-" + acc.currency;
          if acc.balance > 0.0 {
            positions := positions[market := acc.balance];
            avgBuyPrices := avgBuyPrices[market := acc.avgBuyPrice];
          }
        }
        assert accounts[..i + 1][..i] == accounts[..i];
        i := i + 1;
      }
      assert accounts[..i] == accounts;
      Note(Refreshed(accounts), before);
    }

    /** When the call raises, the request may be on the stream or not; the agent does not go on. */
    method Publish(order: OrderRequest) returns (ok: bool)
      modifies this`requests
      ensures ok ==> requests == old(requests) + [order]
    {
      requests := requests + [order];
      ok := *;
    }

    /** Sell the whole position when an exit level is reached and the market is not cooling down. */
    method CheckExitRules(market: string) returns (ok: bool)
      requires Valid()
      modifies this`lastOrderTime, this`requests, this`events, clock
      ensures ok ==> Valid() && exists now :: events == old(events) + [ExitChecked(market, now)]
      ensures ok ==> Turns(events) == old(Turns(events)) + [Checks(market)] && clock.now >= old(clock.now)
    {
      ghost var before := After(rules, start, events).value;
      hide After;
      ghost var entered := clock.now;
      var position := if market in positions then positions[market] else 0.0;
      if position <= 0.0 {
        Note(ExitChecked(market, entered), before);
        return true;
      }
      var avgPrice, currentPrice := Lookup(avgBuyPrices, market), Lookup(currentPrices, market);
      if !Truthy(avgPrice) || avgPrice.value <= 0.0 || !Truthy(currentPrice) {
        Note(ExitChecked(market, entered), before);
        return true;
      }
      var pnlPct := (currentPrice.value - avgPrice.value) / avgPrice.value;
      if !(pnlPct >= rules.takeProfitPct) && !(pnlPct <= -rules.stopLossPct) {
        Note(ExitChecked(market, entered), before);
        return true;
      }
      assert ExitReason(rules, before.book, market).Some?;
      hide ExitReason;
      var now := Now();
      if market in lastOrderTime && now - lastOrderTime[market] < ORDER_COOLDOWN {
        Note(ExitChecked(market, now), before);
        return true;
      }
      var order := SellAll(market, position);
      ok := Publish(order);
      if ok {
        lastOrderTime := lastOrderTime[market := now];
        OrdersAppend(before.sent, Sent(order, now, ExitRule));
        Note(ExitChecked(market, now), before);
      }
    }

    /** A purchase within balance and limits, unless the market is cooling down. */
    method TryBuy(market: string, source: Source, ghost s: State) returns (ok: bool, ghost now: real)
      requires Shows(s) && combiner.clock == clock && combiner.Valid()
      modifies this`lastOrderTime, this`requests, clock
      ensures combiner.Valid() && old(clock.now) <= now <= clock.now
      ensures ok ==> Shows(Bought(rules, s, market, now, source))
    {
      var time := Now();
      now := time;
      if market in lastOrderTime && time - lastOrderTime[market] < ORDER_COOLDOWN { return true, now; }
      if krwBalance <= UPBIT_MIN_ORDER_KRW { return true, now; }
      var buyAmount := Min(Min(krwBalance, rules.maxEntryKrw), rules.riskMaxKrw);
      if buyAmount < UPBIT_MIN_ORDER_KRW { return true, now; }
      var order := BuyFor(market, buyAmount);
      ok := Publish(order);
      if ok {
        lastOrderTime := lastOrderTime[market := time];
        OrdersAppend(s.sent, Sent(order, time, source));
      }
    }

    /** A rule signal that waits is tried; otherwise the verdict of the combiner's log is followed. */
    method MakeDecision(market: string) returns (ok: bool, ghost e: Event, ghost asked: real, ghost confidence: real)
      requires Valid()
      modifies this`lastOrderTime, this`requests, this`events, this`pendingRuleBuys, clock, combiner
      ensures ok ==> Valid() && combiner.log == old(combiner.log)
      ensures ok ==> events == old(events) + [e] && e.Decided? && e.market == market
      ensures ok ==> Turns(events) == old(Turns(events)) + [Decides(market)] && clock.now >= old(clock.now)
      ensures ok && market !in old(pendingRuleBuys) ==> e.now <= asked <= e.later
      ensures ok && market !in old(pendingRuleBuys) ==>
                SignalCombiner.VerdictOfLog(combiner.log, market, asked, combiner.weights, combiner.minConfidence,
                                            (e.verdict, confidence))
    {
      ghost var before := After(rules, start, events).value;
      hide After, BuyAmount, Bought, SignalCombiner.VerdictOfLog;
      var now := Now();
      ghost var later := now;
      if market in pendingRuleBuys {
        pendingRuleBuys := pendingRuleBuys - {market};
        ok, later := TryBuy(market, EntryRule, before.(book := View()));
        e, asked, confidence := Decided(market, now, Hold, later), now, 0.0;
        if ok { Note(e, before); }
        return;
      }
      var direction, sureness := combiner.Evaluate(market);
      later := clock.now;
      e, asked, confidence := Decided(market, now, direction, later), later, sureness;
      if direction == Hold || (market in lastOrderTime && now - lastOrderTime[market] < ORDER_COOLDOWN) {
        Note(e, before);
        ok := true;
        return;
      }
      ok, later := Follow(market, direction, now, before);
      e := Decided(market, now, direction, later);
      if ok { Note(e, before); }
    }

    /** The combiner's verdict to buy or sell, outside the cooldown. */
    method Follow(market: string, direction: Direction, ghost now: real, ghost s: State) returns (ok: bool, ghost later: real)
      requires Shows(s) && combiner.clock == clock && combiner.Valid()
      requires direction != Hold && market !in pendingRuleBuys && !Cooling(s.book, market, now)
      modifies this`lastOrderTime, this`requests, clock
      ensures combiner.Valid() && old(clock.now) <= later <= clock.now
      ensures ok ==> Shows(Decide(rules, s, market, now, direction, later))
    {
      hide Bought, BuyAmount;
      var position := if market in positions then positions[market] else 0.0;
      ok, later := true, clock.now;
      if direction == Direction.Buy && krwBalance > UPBIT_MIN_ORDER_KRW {
        ok, later := TryBuy(market, CombinerBuy, s);
      } else if direction == Direction.Sell && position > 0.0 {
        var order := SellAll(market, position);
        ok := Publish(order);
        var stamp := Now();
        later := stamp;
        if ok {
          lastOrderTime := lastOrderTime[market := stamp];
          OrdersAppend(s.sent, Sent(order, stamp, CombinerSell));
        }
      }
    }

    /** What other tasks do between two steps of the decision loop. */
    method Meanwhile()
      requires Valid()
      modifies this`positions, this`avgBuyPrices, this`krwBalance, this`currentPrices, this`pendingRuleBuys, this`events,
        clock, combiner
      ensures Valid() && old(events) <= events && Turns(events) == old(Turns(events)) && clock.now >= old(clock.now)
    {
      hide After, Turns;
      var n: nat := *;
      while n > 0
        invariant Valid() && old(events) <= events && Turns(events) == old(Turns(events)) && clock.now >= old(clock.now)
      {
        var kind: Event := *;
        match kind {
          case Ticked(m, p) => OnTicker(m, p);
          case Signalled(x) => OnSignal(x);
          case _ =>
            var reply: Reply<seq<Account>> := *;
            RefreshBalances(reply);
        }
        n := n - 1;
      }
    }

    /** The decision loop, for any number of rounds: each round gives every market its turn and then sleeps, and whatever
        tickers, signals, balances and publications do, the requests on the stream keep pace and size. */
    method Run(markets: seq<string>, rounds: nat) returns (ok: bool)
      requires Valid()
      modifies this`lastOrderTime, this`positions, this`avgBuyPrices, this`krwBalance, this`currentPrices,
        this`pendingRuleBuys, this`requests, this`events, clock, combiner
      ensures ok ==> Valid() && old(events) <= events && Turns(events) == old(Turns(events)) + Rounds(markets, rounds)
      ensures ok ==> clock.now >= old(clock.now) + Gaps(rounds, 15.0)
      ensures ok ==> var s := After(rules, start, events).value;
                     && requests == Orders(s.sent)
                     && (forall m :: Paced(s, m)) && (forall x | x in s.sent :: WellMade(rules, x))
    {
      hide After, Paced, WellMade, Turns, InTurn, Rounds, Gaps;
      NoRounds(markets);
      ok := true;
      var done := 0;
      while done < rounds && ok
        invariant 0 <= done <= rounds
        invariant ok ==> Valid() && old(events) <= events && Turns(events) == old(Turns(events)) + Rounds(markets, done)
        invariant ok ==> clock.now >= old(clock.now) + Gaps(done, 15.0)
      {
        ok := Round(markets);
        done := done + 1;
        OneMoreRound(markets, done);
      }
      if ok { AllPacedAndWellMade(rules, start, events); }
    }

    /** One market's turn in a round. */
    method Visit(market: string) returns (ok: bool)
      requires Valid()
      modifies this`lastOrderTime, this`positions, this`avgBuyPrices, this`krwBalance, this`currentPrices,
        this`pendingRuleBuys, this`requests, this`events, clock, combiner
      ensures ok ==> Valid() && old(events) <= events && clock.now >= old(clock.now)
      ensures ok ==> Turns(events) == old(Turns(events)) + [Checks(market), Decides(market)]
    {
      hide *;
      Meanwhile();
      ok := CheckExitRules(market);
      if !ok { return; }
      Meanwhile();
      ghost var e, asked, confidence;
      ok, e, asked, confidence := MakeDecision(market);
    }

    method Round(markets: seq<string>) returns (ok: bool)
      requires Valid()
      modifies this`lastOrderTime, this`positions, this`avgBuyPrices, this`krwBalance, this`currentPrices,
        this`pendingRuleBuys, this`requests, this`events, clock, combiner
      ensures ok ==> Valid() && old(events) <= events && Turns(events) == old(Turns(events)) + InTurn(markets)
      ensures ok ==> clock.now >= old(clock.now) + 15.0
    {
      hide After, Turns;
      ok := true;
      var i := 0;
      while i < |markets|
        invariant ok && 0 <= i <= |markets| && Valid() && old(events) <= events && clock.now >= old(clock.now)
        invariant Turns(events) == old(Turns(events)) + InTurn(markets[..i])
      {
        OneMoreInTurn(markets, i);
        ok := Visit(markets[i]);
        if !ok { return; }
        i := i + 1;
      }
      assert markets[..i] == markets;
      clock.Sleep(DECISION_INTERVAL);
    }
  }
}
