/** The token bucket that throttles every exchange call. */
module RateLimiter {
  import opened Prelude

  datatype Limit = Limit(rate: real, burst: real)

  datatype Bucket = Bucket(tokens: real, lastRefill: real)

  /** What a limiter needs for an acquire to be able to succeed at all. */
  predicate Usable(l: Limit) {
    l.rate > 0.0 && l.burst >= 1.0
  }

  predicate InRange(l: Limit, b: Bucket) {
    0.0 <= b.tokens <= l.burst
  }

  function Full(l: Limit, start: real): Bucket {
    Bucket(l.burst, start)
  }

  function Accrued(l: Limit, from: real, to: real): real {
    (to - from) * l.rate
  }

  function Refilled(l: Limit, b: Bucket, now: real): Bucket {
    Bucket(Min(l.burst, b.tokens + Accrued(l, b.lastRefill, now)), now)
  }

  /** A pass of the acquire loop takes a token exactly when the refilled bucket holds one. */
  predicate Grants(l: Limit, b: Bucket, now: real) {
    Refilled(l, b, now).tokens >= 1.0
  }

  function Pass(l: Limit, b: Bucket, now: real): Bucket {
    var r := Refilled(l, b, now);
    if Grants(l, b, now) then r.(tokens := r.tokens - 1.0) else r
  }

  /** A run is the list of times at which loop passes read the clock, by whichever callers. */
  function BucketAfter(l: Limit, start: real, passes: seq<real>): Bucket {
    if passes == [] then Full(l, start)
    else Pass(l, BucketAfter(l, start, passes[..|passes| - 1]), passes[|passes| - 1])
  }

  /** The times at which those passes granted a token. */
  function GrantTimes(l: Limit, start: real, passes: seq<real>): seq<real> {
    if passes == [] then []
    else
      var init, now := passes[..|passes| - 1], passes[|passes| - 1];
      GrantTimes(l, start, init) + if Grants(l, BucketAfter(l, start, init), now) then [now] else []
  }

  ghost predicate RunFrom(start: real, passes: seq<real>) {
    Nondecreasing(passes) && forall i | 0 <= i < |passes| :: start <= passes[i]
  }

  function LastPass(start: real, passes: seq<real>): real {
    if passes == [] then start else passes[|passes| - 1]
  }

  lemma RunPrefix(start: real, passes: seq<real>)
    requires passes != [] && RunFrom(start, passes)
    ensures RunFrom(start, passes[..|passes| - 1])
    ensures LastPass(start, passes[..|passes| - 1]) <= passes[|passes| - 1]
  {
  }

  /** Tokens spent since any past grant are paid for by the bucket and by the time since. */
  ghost predicate Accounted(l: Limit, b: Bucket, grants: seq<real>) {
    && InRange(l, b)
    && (forall i | 0 <= i < |grants| :: grants[i] <= b.lastRefill)
    && (forall i | 0 <= i < |grants| ::
          (|grants| - i) as real + b.tokens <= l.burst + Accrued(l, grants[i], b.lastRefill))
  }

  lemma AccruedAdds(l: Limit, a: real, b: real, c: real)
    requires l.rate > 0.0 && b <= c
    ensures Accrued(l, a, c) == Accrued(l, a, b) + Accrued(l, b, c)
    ensures Accrued(l, b, c) >= 0.0
  {
    MulMonotone(0.0, c - b, l.rate);
  }

  lemma PassKeepsAccount(l: Limit, b: Bucket, grants: seq<real>, now: real)
    requires Usable(l) && Accounted(l, b, grants) && b.lastRefill <= now
    ensures Accounted(l, Pass(l, b, now), grants + if Grants(l, b, now) then [now] else [])
  {
    var next := grants + if Grants(l, b, now) then [now] else [];
    AccruedAdds(l, b.lastRefill, b.lastRefill, now);
    forall i | 0 <= i < |next|
      ensures (|next| - i) as real + Pass(l, b, now).tokens <= l.burst + Accrued(l, next[i], now)
    {
      if i < |grants| { AccruedAdds(l, grants[i], b.lastRefill, now); }
    }
  }

  lemma {:induction false} RunAccounted(l: Limit, start: real, passes: seq<real>)
    requires Usable(l) && RunFrom(start, passes)
    ensures Accounted(l, BucketAfter(l, start, passes), GrantTimes(l, start, passes))
    ensures BucketAfter(l, start, passes).lastRefill == LastPass(start, passes)
  {
    if passes != [] {
      var init := passes[..|passes| - 1];
      RunPrefix(start, passes);
      RunAccounted(l, start, init);
      PassKeepsAccount(l, BucketAfter(l, start, init), GrantTimes(l, start, init), passes[|passes| - 1]);
    }
  }

  /** Tokens never go below zero or above the burst, in any run. */
  lemma TokensInRange(l: Limit, start: real, passes: seq<real>)
    requires Usable(l) && RunFrom(start, passes)
    ensures 0.0 <= BucketAfter(l, start, passes).tokens <= l.burst
  {
    RunAccounted(l, start, passes);
  }

  /** The window bound: between any two grants of any run, no more than burst + rate * elapsed were given. */
  lemma {:induction false} WindowBound(l: Limit, start: real, passes: seq<real>, i: nat, j: nat)
    requires Usable(l) && RunFrom(start, passes)
    requires i <= j < |GrantTimes(l, start, passes)|
    ensures var g := GrantTimes(l, start, passes);
            (j - i + 1) as real <= l.burst + Accrued(l, g[i], g[j])
  {
    var init := passes[..|passes| - 1];
    RunPrefix(start, passes);
    if j < |GrantTimes(l, start, init)| {
      WindowBound(l, start, init, i, j);
    } else {
      RunAccounted(l, start, passes);
    }
  }

  /** Grants are handed out in time order. */
  lemma {:induction false} GrantsInOrder(l: Limit, start: real, passes: seq<real>)
    requires Usable(l) && RunFrom(start, passes)
    ensures Nondecreasing(GrantTimes(l, start, passes))
  {
    if passes != [] {
      var init := passes[..|passes| - 1];
      RunPrefix(start, passes);
      GrantsInOrder(l, start, init);
      RunAccounted(l, start, init);
      assert passes[|passes| - 1] >= LastPass(start, init);
    }
  }

  lemma {:induction false} FirstAndLastInWindow(g: seq<real>, lo: real, hi: real) returns (i: nat, j: nat)
    requires Nondecreasing(g) && CountIn(g, lo, hi) > 0
    ensures i <= j < |g| && lo <= g[i] && g[j] <= hi
    ensures j - i + 1 >= CountIn(g, lo, hi)
  {
    var n := |g| - 1;
    if CountIn(g[..n], lo, hi) > 0 {
      i, j := FirstAndLastInWindow(g[..n], lo, hi);
      if lo <= g[n] <= hi { j := n; }
    } else {
      i, j := n, n;
    }
  }

  lemma AccruedWithin(l: Limit, from: real, to: real, span: real)
    requires l.rate > 0.0 && to - from <= span
    ensures Accrued(l, from, to) <= span * l.rate
  {
    MulMonotone(to - from, span, l.rate);
  }

  /** Any window of length span holds at most burst + rate * span grants. */
  lemma AnyWindow(l: Limit, start: real, passes: seq<real>, lo: real, span: real)
    requires Usable(l) && RunFrom(start, passes) && span >= 0.0
    ensures CountIn(GrantTimes(l, start, passes), lo, lo + span) as real <= l.burst + span * l.rate
  {
    var g := GrantTimes(l, start, passes);
    MulMonotone(0.0, span, l.rate);
    if CountIn(g, lo, lo + span) > 0 {
      GrantsInOrder(l, start, passes);
      var i, j := FirstAndLastInWindow(g, lo, lo + span);
      WindowBound(l, start, passes, i, j);
      AccruedWithin(l, g[i], g[j], span);
    }
  }

  /** Order placement and cancellation share one limiter; queries have their own. */
  datatype Verb = Get | Post | Delete

  function LimitOf(v: Verb): Limit {
    match v
    case Get => Limit(25.0, 25.0)
    case Post => Limit(8.0, 8.0)
    case Delete => Limit(8.0, 8.0)
  }

  datatype Call = Call(verb: Verb, at: real)

  /** The loop passes made on the order limiter by a mixed list of calls. */
  function OrderPasses(calls: seq<Call>): seq<real> {
    if calls == [] then []
    else
      var c := calls[|calls| - 1];
      OrderPasses(calls[..|calls| - 1]) + if c.verb == Get then [] else [c.at]
  }

  lemma {:induction false} OrderPassesInOrder(start: real, calls: seq<Call>)
    requires forall c | c in calls :: start <= c.at
    requires forall i, j | 0 <= i <= j < |calls| :: calls[i].at <= calls[j].at
    ensures RunFrom(start, OrderPasses(calls))
    ensures forall t | t in OrderPasses(calls) :: start <= t <= calls[|calls| - 1].at
  {
    if calls != [] {
      var init, c := calls[..|calls| - 1], calls[|calls| - 1];
      OrderPassesInOrder(start, init);
      if init != [] {
        assert init[|init| - 1] == calls[|calls| - 2];
      }
      var ps := OrderPasses(init);
      assert forall i | 0 <= i < |ps| :: ps[i] in ps;
      assert c in calls;
    }
  }

  /** However placements, cancellations and queries are mixed, placements and cancellations together
      get at most 8 + 8T grants in any window of T seconds. */
  lemma OrderTraffic(start: real, calls: seq<Call>, lo: real, span: real)
    requires span >= 0.0
    requires forall c | c in calls :: start <= c.at
    requires forall i, j | 0 <= i <= j < |calls| :: calls[i].at <= calls[j].at
    ensures LimitOf(Post) == LimitOf(Delete)
    ensures CountIn(GrantTimes(LimitOf(Post), start, OrderPasses(calls)), lo, lo + span) as real <= 8.0 + 8.0 * span
  {
    OrderPassesInOrder(start, calls);
    AnyWindow(LimitOf(Post), start, OrderPasses(calls), lo, span);
  }

  // ---- refills compose

  lemma RefillTwice(l: Limit, b: Bucket, t1: real, t2: real)
    requires Usable(l) && b.lastRefill <= t1 <= t2
    ensures Refilled(l, Refilled(l, b, t1), t2) == Refilled(l, b, t2)
  {
    AccruedAdds(l, b.lastRefill, b.lastRefill, t1);
    AccruedAdds(l, b.lastRefill, t1, t2);
  }

  function RefillChain(l: Limit, b: Bucket, ts: seq<real>): Bucket {
    if ts == [] then b else Refilled(l, RefillChain(l, b, ts[..|ts| - 1]), ts[|ts| - 1])
  }

  /** Any chain of refills leaves the bucket that one refill at the last time would have left. */
  lemma {:induction false} RefillsCompose(l: Limit, b: Bucket, ts: seq<real>)
    requires Usable(l) && ts != [] && Nondecreasing([b.lastRefill] + ts)
    ensures RefillChain(l, b, ts) == Refilled(l, b, ts[|ts| - 1])
  {
    var init, last := ts[..|ts| - 1], ts[|ts| - 1];
    var all := [b.lastRefill] + ts;
    assert all[0] == b.lastRefill && all[|ts|] == last;
    if init != [] {
      assert all[|init|] == init[|init| - 1];
      assert [b.lastRefill] + init == all[..|ts|];
      RefillsCompose(l, b, init);
      RefillTwice(l, b, init[|init| - 1], last);
    }
  }

  // ---- progress

  /** When a caller arriving at now gets its token, if its sleep lasts that much longer than it asked for. */
  function ServedAt(l: Limit, b: Bucket, now: real, late: real): real
    requires Usable(l)
  {
    if Grants(l, b, now) then now
    else now + (1.0 - Refilled(l, b, now).tokens) / l.rate + late
  }

  /** The bucket that caller leaves behind. */
  function Leftover(l: Limit, b: Bucket, now: real, late: real): Bucket
    requires Usable(l)
  {
    if Grants(l, b, now) then Pass(l, b, now) else Pass(l, Refilled(l, b, now), ServedAt(l, b, now, late))
  }

  /** The grant times of callers queued on the lock at now, each starting when the one before it left. */
  function QueueServed(l: Limit, b: Bucket, now: real, late: seq<real>): seq<real>
    requires Usable(l)
    decreases |late|
  {
    if late == [] then []
    else
      var t := ServedAt(l, b, now, late[0]);
      [t] + QueueServed(l, Leftover(l, b, now, late[0]), t, late[1..])
  }

  predicate NeverEarly(late: seq<real>) {
    forall i | 0 <= i < |late| :: late[i] >= 0.0
  }

  predicate OnTime(late: seq<real>) {
    forall i | 0 <= i < |late| :: late[i] == 0.0
  }

  function Lateness(late: seq<real>): real {
    if late == [] then 0.0 else late[0] + Lateness(late[1..])
  }

  /** How long a caller must wait for the tokens it is short of. */
  function WaitFor(l: Limit, short: real): real
    requires Usable(l)
  {
    Max(0.0, short) / l.rate
  }

  lemma DivideMonotone(a: real, b: real, c: real)
    requires a <= b && c > 0.0
    ensures a / c <= b / c
  {
  }

  lemma WaitsGrow(l: Limit, short: real, longer: real)
    requires Usable(l) && short <= longer
    ensures WaitFor(l, short) <= WaitFor(l, longer)
  {
    DivideMonotone(Max(0.0, short), Max(0.0, longer), l.rate);
  }

  lemma AfterDivision(l: Limit, x: real, y: real)
    requires l.rate > 0.0
    ensures x / l.rate + y / l.rate == (x + y) / l.rate
    ensures Accrued(l, 0.0, x) / l.rate == x
  {
  }

  /** What was slept too long has been earned on top, and shortens later waits by no more than that. */
  lemma LatenessEarns(l: Limit, short: real, late: real)
    requires Usable(l) && late >= 0.0
    ensures WaitFor(l, short) <= WaitFor(l, short - Accrued(l, 0.0, late)) + late
  {
    AfterDivision(l, Max(0.0, short - Accrued(l, 0.0, late)), Accrued(l, 0.0, late));
    AfterDivision(l, late, 0.0);
    AccruedAdds(l, 0.0, 0.0, late);
    DivideMonotone(Max(0.0, short), Max(0.0, short - Accrued(l, 0.0, late)) + Accrued(l, 0.0, late), l.rate);
  }

  lemma SleepEarns(l: Limit, b: Bucket, now: real, late: real)
    requires Usable(l) && InRange(l, b) && b.lastRefill <= now && !Grants(l, b, now) && late >= 0.0
    ensures var t, gap := ServedAt(l, b, now, late), 1.0 - Refilled(l, b, now).tokens;
            t > now && t == now + gap / l.rate + late && Accrued(l, now, t) == gap + Accrued(l, 0.0, late)
    ensures Accrued(l, 0.0, late) >= 0.0
  {
    var gap := 1.0 - Refilled(l, b, now).tokens;
    assert gap / l.rate * l.rate == gap && gap / l.rate > 0.0;
    AccruedAdds(l, now, now + gap / l.rate, now + gap / l.rate + late);
    AccruedAdds(l, 0.0, 0.0, late);
    assert (now + gap / l.rate) - now == gap / l.rate && (now + gap / l.rate + late) - (now + gap / l.rate) == late;
  }

  lemma LeftoverShape(l: Limit, b: Bucket, now: real, late: real)
    requires Usable(l) && InRange(l, b) && b.lastRefill <= now && late >= 0.0
    ensures var r, t, rest := Refilled(l, b, now), ServedAt(l, b, now, late), Leftover(l, b, now, late);
            var more := if Grants(l, b, now) then 0.0 else late;
            && InRange(l, r) && InRange(l, rest) && rest.lastRefill == t >= now && Refilled(l, rest, t) == rest
            && t == now + WaitFor(l, 1.0 - r.tokens) + more
            && Max(0.0, r.tokens - 1.0) <= rest.tokens <= Max(0.0, r.tokens - 1.0) + Accrued(l, 0.0, more)
  {
    AccruedAdds(l, b.lastRefill, b.lastRefill, now);
    AccruedAdds(l, 0.0, 0.0, 0.0);
    if !Grants(l, b, now) { SleepEarns(l, b, now, late); }
    var t := ServedAt(l, b, now, late);
    AccruedAdds(l, t, t, t);
    hide Accrued;
  }

  lemma WaitsAdd(l: Limit, tokens: real, k: nat)
    requires Usable(l) && 0.0 <= tokens && k > 0
    ensures WaitFor(l, 1.0 - tokens) + WaitFor(l, k as real - Max(0.0, tokens - 1.0)) == WaitFor(l, (k + 1) as real - tokens)
  {
    if tokens < 1.0 { AfterDivision(l, 1.0 - tokens, k as real); }
  }

  /** The k-th queued caller is served no sooner than tokens allow, at once while they last and then one every 1/rate, and
      no later than that by more than the sleeps up to its own were late. */
  lemma {:induction false} QueueWithin(l: Limit, b: Bucket, now: real, late: seq<real>, k: nat)
    requires Usable(l) && InRange(l, b) && b.lastRefill <= now && k < |late| && NeverEarly(late)
    ensures |QueueServed(l, b, now, late)| == |late|
    ensures var due := now + WaitFor(l, (k + 1) as real - Refilled(l, b, now).tokens);
            due <= QueueServed(l, b, now, late)[k] <= due + Lateness(late[..k + 1])
    decreases |late|
  {
    LeftoverShape(l, b, now, late[0]);
    var r, t, rest := Refilled(l, b, now), ServedAt(l, b, now, late[0]), Leftover(l, b, now, late[0]);
    assert late[..k + 1][0] == late[0] && late[..k + 1][1..] == late[1..][..k];
    if |late| > 1 {
      QueueWithin(l, rest, t, late[1..], if k > 0 then k - 1 else 0);
    }
    if k > 0 {
      var base, more := Max(0.0, r.tokens - 1.0), if Grants(l, b, now) then 0.0 else late[0];
      WaitsAdd(l, r.tokens, k);
      WaitsGrow(l, k as real - rest.tokens, k as real - base);
      WaitsGrow(l, k as real - base - Accrued(l, 0.0, more), k as real - rest.tokens);
      LatenessEarns(l, k as real - base, more);
    }
  }

  lemma {:induction false} NeverLate(late: seq<real>)
    requires OnTime(late)
    ensures Lateness(late) == 0.0
  {
    if late != [] { NeverLate(late[1..]); }
  }

  lemma {:induction false} LatenessUpTo(late: seq<real>, k: nat)
    requires k <= |late| && NeverEarly(late)
    ensures 0.0 <= Lateness(late[..k]) <= Lateness(late)
  {
    if k > 0 {
      assert late[..k][1..] == late[1..][..k - 1];
      LatenessUpTo(late[1..], k - 1);
    } else if late != [] {
      LatenessUpTo(late[1..], 0);
    }
  }

  /** With exact sleeps, exactly when the k-th queued caller is served. */
  lemma QueueClosedForm(l: Limit, b: Bucket, now: real, late: seq<real>, k: nat)
    requires Usable(l) && InRange(l, b) && b.lastRefill <= now && k < |late| && OnTime(late)
    ensures |QueueServed(l, b, now, late)| == |late|
    ensures QueueServed(l, b, now, late)[k] == now + WaitFor(l, (k + 1) as real - Refilled(l, b, now).tokens)
  {
    QueueWithin(l, b, now, late, k);
    NeverLate(late[..k + 1]);
  }

  /** From a fresh start and with exact sleeps: the first 25 queries and the first 8 placements or cancellations get through
      at once, and then one every 25th or 8th of a second. */
  lemma FreshQueues(start: real, late: seq<real>, k: nat)
    requires k < |late| && OnTime(late)
    ensures var q := QueueServed(LimitOf(Get), BucketAfter(LimitOf(Get), start, []), start, late);
            |q| == |late| && q[k] == start + Max(0.0, (k + 1) as real - 25.0) / 25.0
    ensures var q := QueueServed(LimitOf(Post), BucketAfter(LimitOf(Post), start, []), start, late);
            |q| == |late| && q[k] == start + Max(0.0, (k + 1) as real - 8.0) / 8.0
  {
    QueueClosedForm(LimitOf(Get), BucketAfter(LimitOf(Get), start, []), start, late, k);
    QueueClosedForm(LimitOf(Post), BucketAfter(LimitOf(Post), start, []), start, late, k);
    hide QueueServed;
  }

  lemma WaitsAtMost(l: Limit, tokens: real, k: nat, n: nat)
    requires Usable(l) && tokens >= 0.0 && k <= n
    ensures WaitFor(l, k as real - tokens) <= n as real / l.rate
  {
    DivideMonotone(Max(0.0, k as real - tokens), n as real, l.rate);
  }

  /** All queued callers are served: n of them within n / rate and the time by which their sleeps were late. */
  lemma QueueProgress(l: Limit, b: Bucket, now: real, late: seq<real>, k: nat)
    requires Usable(l) && InRange(l, b) && b.lastRefill <= now && k < |late| && NeverEarly(late)
    ensures |QueueServed(l, b, now, late)| == |late|
    ensures QueueServed(l, b, now, late)[k] <= now + |late| as real / l.rate + Lateness(late)
  {
    LeftoverShape(l, b, now, late[0]);
    hide *;
    QueueWithin(l, b, now, late, k);
    LatenessUpTo(late, k + 1);
    WaitsAtMost(l, Refilled(l, b, now).tokens, k + 1, |late|);
  }

  /** A bucket that would grant at one time grants at every later one. */
  lemma StillGrants(l: Limit, b: Bucket, t1: real, t2: real)
    requires Usable(l) && b.lastRefill <= t1 <= t2
    ensures Grants(l, b, t1) ==> Grants(l, b, t2)
  {
    AccruedAdds(l, b.lastRefill, t1, t2);
  }

  function WaitTime(l: Limit, b: Bucket): real
    requires Usable(l)
  {
    (1.0 - b.tokens) / l.rate
  }

  lemma WaitIsShort(l: Limit, b: Bucket)
    requires Usable(l) && 0.0 <= b.tokens < 1.0
    ensures 0.0 < WaitTime(l, b) && WaitTime(l, b) * l.rate == 1.0 - b.tokens <= 1.0
  {
  }

  lemma SleepSuffices(l: Limit, b: Bucket, now: real)
    requires Usable(l) && 0.0 <= b.tokens < 1.0 && now >= b.lastRefill + WaitTime(l, b)
    ensures Grants(l, b, now)
  {
    WaitIsShort(l, b);
    MulMonotone(WaitTime(l, b), now - b.lastRefill, l.rate);
  }

  lemma LogPass(start: real, passes: seq<real>, now: real)
    requires RunFrom(start, passes) && LastPass(start, passes) <= now
    ensures RunFrom(start, passes + [now])
  {
  }

  lemma LastLogged(start: real, passes: seq<real>, now: real)
    ensures (passes + [now])[..|passes|] == passes
    ensures LastPass(start, passes + [now]) == now
  {
  }

  lemma LoggedPass(l: Limit, start: real, passes: seq<real>, now: real)
    requires Usable(l) && RunFrom(start, passes) && LastPass(start, passes) <= now
    ensures RunFrom(start, passes + [now]) && LastPass(start, passes + [now]) == now
    ensures BucketAfter(l, start, passes + [now]) == Pass(l, BucketAfter(l, start, passes), now)
    ensures GrantTimes(l, start, passes + [now])
         == GrantTimes(l, start, passes) + if Grants(l, BucketAfter(l, start, passes), now) then [now] else []
    ensures 0.0 <= BucketAfter(l, start, passes + [now]).tokens
  {
    LogPass(start, passes, now);
    LastLogged(start, passes, now);
    RunAccounted(l, start, passes + [now]);
  }

  /** The limiter as its callers see it. The ghost log records every loop pass and every grant. */
  class TokenBucket {
    const limit: Limit
    const clock: Clock
    var tokens: real
    var lastRefill: real
    ghost const start: real
    ghost var passes: seq<real>
    ghost var grants: seq<real>

    ghost predicate Valid()
      reads this, clock
    {
      && Usable(limit)
      && RunFrom(start, passes)
      && Bucket(tokens, lastRefill) == BucketAfter(limit, start, passes)
      && grants == GrantTimes(limit, start, passes)
      && lastRefill == LastPass(start, passes) <= clock.now
    }

    constructor (limit: Limit, clock: Clock)
      requires Usable(limit)
      ensures Valid() && this.limit == limit && this.clock == clock && grants == []
      ensures tokens == limit.burst && lastRefill == clock.now
    {
      this.limit, this.clock := limit, clock;
      tokens, lastRefill := limit.burst, clock.now;
      start, passes, grants := clock.now, [], [];
    }

    method Refill()
      modifies this`tokens, this`lastRefill, clock
      ensures clock.now >= old(clock.now)
      ensures Bucket(tokens, lastRefill) == Refilled(limit, old(Bucket(tokens, lastRefill)), clock.now)
    {
      var now := clock.Read();
      var elapsed := now - lastRefill;
      assert elapsed * limit.rate == Accrued(limit, lastRefill, now);
      tokens := Min(limit.burst, tokens + elapsed * limit.rate);
      lastRefill := now;
    }

    /** One pass of the acquire loop: refill, then take a token if there is one. */
    method TryTake() returns (granted: bool)
      requires Valid()
      modifies this, clock
      ensures Valid() && clock.now >= old(clock.now) && lastRefill == clock.now
      ensures granted == Grants(limit, old(Bucket(tokens, lastRefill)), clock.now)
      ensures passes == old(passes) + [clock.now]
      ensures grants == old(grants) + if granted then [clock.now] else []
      ensures !granted ==> 0.0 <= tokens < 1.0
    {
      Refill();
      LoggedPass(limit, start, passes, clock.now);
      passes := passes + [clock.now];
      granted := tokens >= 1.0;
      if granted {
        tokens := tokens - 1.0;
        grants := grants + [clock.now];
      }
    }

    /** Sleep until the missing part of a token has been earned. */
    method Wait() returns (asked: real)
      requires Usable(limit) && 0.0 <= tokens < 1.0 && lastRefill <= clock.now
      modifies clock
      ensures clock.now >= old(clock.now)
      ensures Grants(limit, Bucket(tokens, lastRefill), clock.now)
      ensures 0.0 < asked && asked * limit.rate <= 1.0
    {
      asked := (1.0 - tokens) / limit.rate;
      WaitIsShort(limit, Bucket(tokens, lastRefill));
      clock.Sleep(asked);
      SleepSuffices(limit, Bucket(tokens, lastRefill), clock.now);
    }

    /** One token, granted at the time of return, after at most one sleep of at most 1 / rate. */
    method Acquire() returns (sleeps: nat, asked: real)
      requires Valid()
      modifies this, clock
      ensures Valid() && clock.now >= old(clock.now)
      ensures grants == old(grants) + [clock.now]
      ensures sleeps <= 1 && 0.0 <= asked && asked * limit.rate <= 1.0
      ensures sleeps == 0 <==> asked == 0.0
      ensures sleeps == 0 ==> passes == old(passes) + [clock.now]
      ensures sleeps == 1 ==> |passes| == |old(passes)| + 2 && passes[..|old(passes)|] == old(passes)
      ensures sleeps == 1 ==> !Grants(limit, old(Bucket(tokens, lastRefill)), passes[|old(passes)|])
    {
      sleeps, asked := 0, 0.0;
      while true
        invariant Valid() && clock.now >= old(clock.now)
        invariant grants == old(grants)
        invariant sleeps == 0 ==> asked == 0.0 && passes == old(passes)
        invariant sleeps == 0 ==> Bucket(tokens, lastRefill) == old(Bucket(tokens, lastRefill))
        invariant sleeps <= 1
        invariant sleeps == 1 ==> 0.0 < asked && asked * limit.rate <= 1.0
        invariant sleeps == 1 ==> Grants(limit, Bucket(tokens, lastRefill), clock.now)
        invariant sleeps == 1 ==> passes == old(passes) + [lastRefill]
        invariant sleeps == 1 ==> !Grants(limit, old(Bucket(tokens, lastRefill)), lastRefill)
        decreases 1 - sleeps
      {
        ghost var b, earlier := Bucket(tokens, lastRefill), clock.now;
        var granted := TryTake();
        StillGrants(limit, b, earlier, clock.now);
        if granted { return; }
        asked := Wait();
        sleeps := sleeps + 1;
      }
    }
  }
}
