/** The entry rule: a coin has risen by a given part over the lookback window. */
module RuleWindow {
  import opened Prelude
  import opened Messages

  const HISTORY_CAP := 3600

  const RULE_CONFIDENCE := 0.95

  datatype Tick = Tick(at: real, price: real)

  ghost predicate InOrder(log: seq<Tick>) {
    forall i, j | 0 <= i <= j < |log| :: log[i].at <= log[j].at
  }

  ghost predicate OrderedUpTo(log: seq<Tick>, now: real) {
    InOrder(log) && forall t | t in log :: t.at <= now
  }

  /** The ticks of a log that are not older than the cutoff. */
  function NotBefore(log: seq<Tick>, cutoff: real): seq<Tick> {
    if log == [] then []
    else NotBefore(log[..|log| - 1], cutoff) + if log[|log| - 1].at >= cutoff then [log[|log| - 1]] else []
  }

  /** The window a reader of the full tick log would look at. */
  function Window(log: seq<Tick>, cutoff: real): seq<Tick> {
    NotBefore(LastN(log, HISTORY_CAP), cutoff)
  }

  /** First and last price of a window differ by at least the given part of a positive first price. */
  predicate Risen(window: seq<Tick>, pct: real) {
    && window != []
    && window[0].price > 0.0
    && window[|window| - 1].price >= window[0].price * (1.0 + pct)
  }

  /** In an ordered log the ticks not before the cutoff are a suffix. */
  lemma {:induction false} NotBeforeIsSuffix(log: seq<Tick>, cutoff: real, k: nat)
    requires InOrder(log) && k <= |log|
    requires forall i | 0 <= i < k :: log[i].at < cutoff
    requires k < |log| ==> log[k].at >= cutoff
    ensures NotBefore(log, cutoff) == log[k..]
  {
    if log != [] {
      var n := |log| - 1;
      if k <= n {
        assert log[..n][k..] + [log[n]] == log[k..];
        NotBeforeIsSuffix(log[..n], cutoff, k);
      } else {
        NotBeforeIsSuffix(log[..n], cutoff, n);
      }
    }
  }

  ghost predicate SurvivesFrom(history: seq<Tick>, log: seq<Tick>, start: nat, cutoff: real)
    requires start <= |log|
  {
    && history == log[start..] && |history| <= HISTORY_CAP
    && forall i | 0 <= i < start :: i < |log| - HISTORY_CAP || log[i].at < cutoff
  }

  /** What survives in a buffer that was pruned at earlier cutoffs is all that a later cutoff needs. */
  ghost predicate Suffices(history: seq<Tick>, log: seq<Tick>, cutoff: real) {
    exists start: nat | start <= |log| :: SurvivesFrom(history, log, start, cutoff)
  }

  lemma WindowOf(log: seq<Tick>, cutoff: real, dropped: nat)
    requires dropped == if |log| > HISTORY_CAP then |log| - HISTORY_CAP else 0
    ensures Window(log, cutoff) == NotBefore(log[dropped..], cutoff)
  {
    hide NotBefore;
  }

  lemma SurvivorsAreWindow(kept: seq<Tick>, log: seq<Tick>, start: nat, cutoff: real)
    requires InOrder(log) && start <= |log| && SurvivesFrom(kept, log, start, cutoff)
    requires kept != [] ==> kept[0].at >= cutoff
    ensures kept == Window(log, cutoff)
  {
    hide NotBefore, Window, LastN;
    var dropped := if |log| > HISTORY_CAP then |log| - HISTORY_CAP else 0;
    WindowOf(log, cutoff, dropped);
    NotBeforeIsSuffix(log[dropped..], cutoff, start - dropped);
    assert log[dropped..][start - dropped..] == log[start..];
  }

  lemma FirstYoung(log: seq<Tick>, cutoff: real) returns (k: nat)
    ensures k <= |log| && (forall i | 0 <= i < k :: log[i].at < cutoff) && (k < |log| ==> log[k].at >= cutoff)
  {
    k := 0;
    while k < |log| && log[k].at < cutoff
      invariant k <= |log| && forall i | 0 <= i < k :: log[i].at < cutoff
    {
      k := k + 1;
    }
  }

  /** The window of an ordered log is its end, from some point on: what lies before is too old or not among the latest 3600
      ticks, and what lies after is neither. */
  lemma WindowIsSuffix(log: seq<Tick>, cutoff: real)
    requires InOrder(log)
    ensures exists k | 0 <= k <= |log| ::
              && Window(log, cutoff) == log[k..]
              && (forall i | 0 <= i < k :: i < |log| - 3600 || log[i].at < cutoff)
              && (forall i | k <= i < |log| :: i >= |log| - 3600 && log[i].at >= cutoff)
  {
    var young := FirstYoung(log, cutoff);
    var k := if young < |log| - 3600 then |log| - 3600 else young;
    SurvivorsAreWindow(log[k..], log, k, cutoff);
    hide Window;
    assert forall i | k <= i < |log| :: log[i].at >= log[young].at;
  }

  lemma PrunedSurvives(history: seq<Tick>, log: seq<Tick>, start: nat, cutoff: real, k: nat)
    requires start <= |log| && SurvivesFrom(history, log, start, cutoff) && k <= |history|
    requires forall i | 0 <= i < k :: history[i].at < cutoff
    ensures SurvivesFrom(history[k..], log, start + k, cutoff)
  {
    forall i | start <= i < start + k ensures log[i].at < cutoff {
      assert log[i] == history[i - start];
    }
  }

  /** Pruning such a buffer yields exactly the window of the full log. */
  lemma PrunedIsWindow(history: seq<Tick>, log: seq<Tick>, cutoff: real, k: nat)
    requires InOrder(log) && Suffices(history, log, cutoff) && k <= |history|
    requires forall i | 0 <= i < k :: history[i].at < cutoff
    requires k < |history| ==> history[k].at >= cutoff
    ensures history[k..] == Window(log, cutoff)
    ensures Suffices(history[k..], log, cutoff)
  {
    var start: nat :| start <= |log| && SurvivesFrom(history, log, start, cutoff);
    PrunedSurvives(history, log, start, cutoff, k);
    SurvivorsAreWindow(history[k..], log, start + k, cutoff);
  }

  /** A tick appended to both, with the buffer capped, keeps the buffer sufficient. */
  lemma AppendSuffices(history: seq<Tick>, log: seq<Tick>, tick: Tick, cutoff: real)
    requires Suffices(history, log, cutoff)
    ensures Suffices(LastN(history + [tick], HISTORY_CAP), log + [tick], cutoff)
  {
    var start: nat :| start <= |log| && SurvivesFrom(history, log, start, cutoff);
    var longer := history + [tick];
    assert longer == (log + [tick])[start..];
    var start' := if |longer| > HISTORY_CAP then start + 1 else start;
    assert LastN(longer, HISTORY_CAP) == (log + [tick])[start'..];
    assert SurvivesFrom(LastN(longer, HISTORY_CAP), log + [tick], start', cutoff);
  }

  lemma SufficesLater(history: seq<Tick>, log: seq<Tick>, c1: real, c2: real)
    requires Suffices(history, log, c1) && c1 <= c2
    ensures Suffices(history, log, c2)
  {
    var start: nat :| start <= |log| && SurvivesFrom(history, log, start, c1);
    assert SurvivesFrom(history, log, start, c2);
  }

  lemma OneTickNeverRisen(window: seq<Tick>, pct: real)
    requires |window| < 2 && pct > 0.0
    ensures !Risen(window, pct)
  {
    if window != [] && window[0].price > 0.0 { MulPositive(window[0].price, pct); }
  }

  /** A window inside a buffer of fewer than two ticks shows no rise. */
  lemma ShortHistoryShowsNoRise(history: seq<Tick>, log: seq<Tick>, cutoff: real, pct: real)
    requires InOrder(log) && Suffices(history, log, cutoff) && |history| < 2 && pct > 0.0
    ensures !Risen(Window(log, cutoff), pct)
  {
    var k := if |history| == 1 && history[0].at < cutoff then 1 else 0;
    PrunedIsWindow(history, log, cutoff, k);
    OneTickNeverRisen(Window(log, cutoff), pct);
  }

  /** The relative rise reaches pct exactly when the last price reaches the first one raised by pct. */
  lemma RelativeRise(first: real, last: real, pct: real)
    requires first > 0.0
    ensures (last - first) / first >= pct <==> last >= first * (1.0 + pct)
  {
    var q := (last - first) / first;
    assert q * first == last - first;
    if q >= pct { MulMonotone(pct, q, first); }
    if q < pct { MulPositive(pct - q, first); }
  }

  /** The test the code makes on a window with a positive first price. */
  lemma RisenByRatio(window: seq<Tick>, pct: real)
    requires window != [] && window[0].price > 0.0
    ensures Risen(window, pct) <==> (window[|window| - 1].price - window[0].price) / window[0].price >= pct
  {
    RelativeRise(window[0].price, window[|window| - 1].price, pct);
  }

  lemma AppendInOrder(log: seq<Tick>, tick: Tick)
    requires OrderedUpTo(log, tick.at)
    ensures OrderedUpTo(log + [tick], tick.at)
  {
    forall i | 0 <= i < |log| ensures log[i].at <= tick.at { assert log[i] in log; }
  }

  /** The documented skip while no price older than the window exists is not made: when every tick is
      inside the window, the rule is applied to the ticks at hand. */
  lemma {:induction false} YoungLogIsNotSkipped(log: seq<Tick>, cutoff: real)
    requires InOrder(log) && forall t | t in log :: t.at >= cutoff
    ensures Window(log, cutoff) == LastN(log, HISTORY_CAP)
  {
    var recent := LastN(log, HISTORY_CAP);
    assert forall i | 0 <= i < |recent| :: recent[i] in log;
    NotBeforeIsSuffix(recent, cutoff, 0);
  }

  /** Two ticks one second apart, both inside a five-minute window, are enough for a signal at 3%. */
  lemma TwoYoungTicksSuffice() returns (log: seq<Tick>, now: real)
    ensures InOrder(log) && |log| == 2 && forall t | t in log :: now - 300.0 <= t.at <= now
    ensures Risen(Window(log, now - 300.0), 0.03)
  {
    log, now := [Tick(0.0, 100.0), Tick(1.0, 103.0)], 1.0;
    YoungLogIsNotSkipped(log, now - 300.0);
  }

  function TicksOf(history: map<string, seq<Tick>>, market: string): seq<Tick> {
    if market in history then history[market] else []
  }

  /** Every market's buffer still holds all that evaluations from now on can ask of its full log. */
  ghost predicate AllSuffice(history: map<string, seq<Tick>>, log: map<string, seq<Tick>>, now: real, lookback: real) {
    forall m :: OrderedUpTo(TicksOf(log, m), now) && Suffices(TicksOf(history, m), TicksOf(log, m), now - lookback)
  }

  lemma AllSufficeLater(history: map<string, seq<Tick>>, log: map<string, seq<Tick>>, t1: real, t2: real, lookback: real)
    requires AllSuffice(history, log, t1, lookback) && t1 <= t2
    ensures AllSuffice(history, log, t2, lookback)
  {
    forall m ensures OrderedUpTo(TicksOf(log, m), t2) && Suffices(TicksOf(history, m), TicksOf(log, m), t2 - lookback) {
      assert OrderedUpTo(TicksOf(log, m), t1);
      SufficesLater(TicksOf(history, m), TicksOf(log, m), t1 - lookback, t2 - lookback);
    }
  }

  /** Changing the buffer and log of one market leaves the others as they were. */
  lemma OneMarketChanged(history: map<string, seq<Tick>>, log: map<string, seq<Tick>>, now: real, lookback: real,
                         market: string, h: seq<Tick>, l: seq<Tick>)
    requires AllSuffice(history, log, now, lookback)
    requires OrderedUpTo(l, now) && Suffices(h, l, now - lookback)
    ensures AllSuffice(history[market := h], log[market := l], now, lookback)
    ensures l == TicksOf(log, market) ==> AllSuffice(history[market := h], log, now, lookback)
  {
    hide OrderedUpTo, Suffices;
    var history', log' := history[market := h], log[market := l];
    forall m ensures OrderedUpTo(TicksOf(log', m), now) && Suffices(TicksOf(history', m), TicksOf(log', m), now - lookback) {
      if m != market {
        assert TicksOf(history', m) == TicksOf(history, m) && TicksOf(log', m) == TicksOf(log, m);
      }
    }
    if l == TicksOf(log, market) {
      forall m ensures OrderedUpTo(TicksOf(log, m), now) && Suffices(TicksOf(history', m), TicksOf(log, m), now - lookback) {
        if m != market { assert TicksOf(history', m) == TicksOf(history, m); }
      }
    }
  }

  lemma OneMarket(history: map<string, seq<Tick>>, log: map<string, seq<Tick>>, now: real, lookback: real, m: string)
    requires AllSuffice(history, log, now, lookback)
    ensures OrderedUpTo(TicksOf(log, m), now) && Suffices(TicksOf(history, m), TicksOf(log, m), now - lookback)
  {
  }

  lemma AtMostCap(history: seq<Tick>, log: seq<Tick>, cutoff: real)
    requires Suffices(history, log, cutoff)
    ensures |history| <= HISTORY_CAP
  {
  }

  /** The popleft loop: drop ticks from the left while they are older than the cutoff. */
  method Prune(history: seq<Tick>, cutoff: real) returns (kept: seq<Tick>, ghost k: nat)
    ensures k <= |history| && kept == history[k..]
    ensures forall i | 0 <= i < k :: history[i].at < cutoff
    ensures kept != [] ==> kept[0].at >= cutoff
  {
    kept, k := history, 0;
    while kept != [] && kept[0].at < cutoff
      invariant k <= |history| && kept == history[k..]
      invariant forall i | 0 <= i < k :: history[i].at < cutoff
      decreases kept
    {
      kept, k := kept[1..], k + 1;
    }
  }

  class EntryRule {
    const entryRisePct: real
    const lookbackSeconds: real
    const clock: Clock
    var priceHistory: map<string, seq<Tick>>
    ghost var log: map<string, seq<Tick>>

    ghost predicate Valid()
      reads this, clock
    {
      AllSuffice(priceHistory, log, clock.now, lookbackSeconds)
    }

    constructor (entryRisePct: real, lookbackSeconds: real, clock: Clock)
      ensures Valid() && log == map[]
      ensures this.entryRisePct == entryRisePct && this.lookbackSeconds == lookbackSeconds && this.clock == clock
    {
      this.entryRisePct, this.lookbackSeconds, this.clock := entryRisePct, lookbackSeconds, clock;
      priceHistory, log := map[], map[];
      new;
      assert forall m :: SurvivesFrom(TicksOf(priceHistory, m), TicksOf(log, m), 0, clock.now - lookbackSeconds);
    }

    method OnTicker(market: string, tradePrice: real)
      requires Valid()
      modifies this, clock
      ensures Valid() && clock.now >= old(clock.now)
      ensures log == old(log)[market := TicksOf(old(log), market) + [Tick(clock.now, tradePrice)]]
      ensures priceHistory == old(priceHistory)[
                market := LastN(TicksOf(old(priceHistory), market) + [Tick(clock.now, tradePrice)], 3600)]
    {
      hide Suffices, InOrder, AllSuffice;
      var now := clock.Read();
      AllSufficeLater(priceHistory, log, old(clock.now), now, lookbackSeconds);
      var history, tick := TicksOf(priceHistory, market), Tick(now, tradePrice);
      ghost var full := TicksOf(log, market);
      OneMarket(priceHistory, log, now, lookbackSeconds, market);
      AtMostCap(history, full, now - lookbackSeconds);
      AppendSuffices(history, full, tick, now - lookbackSeconds);
      AppendInOrder(full, tick);
      var longer := history + [tick];
      var capped := if |longer| > HISTORY_CAP then longer[1..] else longer;
      assert capped == LastN(longer, HISTORY_CAP);
      OneMarketChanged(priceHistory, log, now, lookbackSeconds, market, capped, full + [tick]);
      priceHistory := priceHistory[market := capped];
      log := log[market := full + [tick]];
    }

    /** A signal is emitted exactly when the window of the full log shows the rise, except that a buffer
        of fewer than two ticks never emits; for a positive threshold that exception is no exception. */
    method EvaluateEntry(market: string) returns (signal: Option<Signal>)
      requires Valid()
      modifies this, clock
      ensures Valid() && clock.now >= old(clock.now) && log == old(log)
      ensures signal.Some? <==>
                && Risen(Window(TicksOf(log, market), clock.now - lookbackSeconds), entryRisePct)
                && |TicksOf(old(priceHistory), market)| >= 2
      ensures entryRisePct > 0.0 ==>
                (signal.Some? <==> Risen(Window(TicksOf(log, market), clock.now - lookbackSeconds), entryRisePct))
      ensures signal.Some? ==> signal.value == SignalMessage(market, Buy, 0.95, "rules")
      ensures priceHistory == if |TicksOf(old(priceHistory), market)| < 2 then old(priceHistory)
                              else old(priceHistory)[market := Window(TicksOf(log, market), clock.now - lookbackSeconds)]
    {
      hide Suffices, InOrder, Window, AllSuffice;
      var now := clock.Read();
      var cutoff := now - lookbackSeconds;
      AllSufficeLater(priceHistory, log, old(clock.now), now, lookbackSeconds);
      OneMarket(priceHistory, log, now, lookbackSeconds, market);
      var history := TicksOf(priceHistory, market);
      ghost var full := TicksOf(log, market);
      if entryRisePct > 0.0 && |history| < 2 {
        ShortHistoryShowsNoRise(history, full, cutoff, entryRisePct);
      }
      if |history| < 2 { return None; }
      ghost var before, k := history, 0;
      history, k := Prune(history, cutoff);
      PrunedIsWindow(before, full, cutoff, k);
      OneMarketChanged(priceHistory, log, now, lookbackSeconds, market, history, full);
      priceHistory := priceHistory[market := history];
      if history == [] { return None; }
      var oldestPrice, latestPrice := history[0].price, history[|history| - 1].price;
      if oldestPrice <= 0.0 { return None; }
      var changePct := (latestPrice - oldestPrice) / oldestPrice;
      RisenByRatio(history, entryRisePct);
      hide Risen;
      if changePct >= entryRisePct {
        return Some(SignalMessage(market, Buy, RULE_CONFIDENCE, "rules"));
      }
      return None;
    }
  }
}
