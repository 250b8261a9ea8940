/** One consumer group on one stream: entries are appended, trimmed from the front, read at the group's cursor,
    tried once, and acknowledged after the handler has completed. */
module StreamGroup {
  import opened Prelude

  const STREAM_MAXLEN := 10000

  const BATCH_SIZE := 10

  /** How trying one entry ends when the task is not cancelled. An acknowledgement that raises may have been
      applied nevertheless. */
  datatype Outcome = Undecodable | HandlerRaised | AckRaised(applied: bool) | Acknowledged

  /** The entries are known by their positions: log is all that was ever published, the stream retains
      those from base on. Lost entries were delivered and were not and will not be acknowledged. */
  datatype Feed = Feed(
    log: seq<string>, base: nat, next: nat,
    delivered: seq<nat>, batch: seq<nat>,
    handed: seq<nat>, completed: seq<nat>, acked: seq<nat>, lost: seq<nat>)

  datatype Step =
    | Publish(entry: string, trimmedTo: nat)
    | Read(count: nat)
    | Try(outcome: Outcome)
    | Abandon

  const EMPTY := Feed([], 0, 0, [], [], [], [], [], [])

  /** Where the next read starts: at the cursor, or past what has been trimmed away. */
  function Head(f: Feed): nat {
    if f.next < f.base then f.base else f.next
  }

  /** Approximate trimming keeps at least the newest STREAM_MAXLEN entries. */
  predicate TrimAllowed(f: Feed, trimmedTo: nat) {
    trimmedTo == f.base || (f.base < trimmedTo && trimmedTo + STREAM_MAXLEN <= |f.log| + 1)
  }

  predicate Can(f: Feed, s: Step) {
    match s
    case Publish(_, b) => TrimAllowed(f, b)
    case Read(n) => f.batch == [] && 0 < n && Head(f) + n <= |f.log|
    case Try(_) => f.batch != []
    case Abandon => true
  }

  function Range(lo: nat, n: nat): (r: seq<nat>)
    ensures |r| == n && forall i | 0 <= i < n :: r[i] == lo + i
  {
    seq(n, i requires 0 <= i < n => lo + i)
  }

  function Tried(f: Feed, outcome: Outcome): Feed
    requires f.batch != []
  {
    var k, rest := f.batch[0], f.batch[1..];
    match outcome
    case Undecodable => f.(batch := rest, lost := f.lost + [k])
    case HandlerRaised => f.(batch := rest, handed := f.handed + [k], lost := f.lost + [k])
    case AckRaised(false) =>
      f.(batch := rest, handed := f.handed + [k], completed := f.completed + [k], lost := f.lost + [k])
    case _ => f.(batch := rest, handed := f.handed + [k], completed := f.completed + [k], acked := f.acked + [k])
  }

  function Do(f: Feed, s: Step): Feed
    requires Can(f, s)
  {
    match s
    case Publish(x, b) => f.(log := f.log + [x], base := b)
    case Read(n) =>
      f.(next := Head(f) + n, delivered := f.delivered + Range(Head(f), n), batch := Range(Head(f), n))
    case Try(o) => Tried(f, o)
    case Abandon => f.(batch := [], lost := f.lost + f.batch)
  }

  function After(steps: seq<Step>): Option<Feed> {
    if steps == [] then Some(EMPTY)
    else
      var before := After(steps[..|steps| - 1]);
      if before.Some? && Can(before.value, steps[|steps| - 1]) then Some(Do(before.value, steps[|steps| - 1])) else None
  }

  predicate Possible(steps: seq<Step>) {
    After(steps).Some?
  }

  lemma OneMore(steps: seq<Step>, s: Step)
    requires Possible(steps) && Can(After(steps).value, s)
    ensures After(steps + [s]) == Some(Do(After(steps).value, s))
  {
    assert (steps + [s])[..|steps|] == steps;
  }

  // ---- at most once, in order, and acknowledged only after completion

  ghost predicate Increasing(ks: seq<nat>, bound: nat) {
    && (forall i, j | 0 <= i < j < |ks| :: ks[i] < ks[j])
    && forall i | 0 <= i < |ks| :: ks[i] < bound
  }

  /** Everything tried so far lies below the batch. */
  ghost predicate Below(ks: seq<nat>, f: Feed) {
    Increasing(ks, if f.batch == [] then f.next else f.batch[0])
  }

  ghost predicate InOrder(f: Feed) {
    && f.next <= |f.log| && f.base <= |f.log|
    && Increasing(f.delivered, f.next) && Increasing(f.batch, f.next)
    && Below(f.handed, f) && Below(f.completed, f) && Below(f.acked, f)
  }

  /** Every delivered entry is acknowledged, lost, or waiting in the batch: exactly one of them. */
  ghost predicate Partitioned(f: Feed) {
    multiset(f.delivered) == multiset(f.acked) + multiset(f.lost) + multiset(f.batch)
  }

  ghost predicate AckedWereHandled(f: Feed) {
    && (forall k | k in f.acked :: k in f.completed)
    && (forall k | k in f.completed :: k in f.handed)
    && (forall k | k in f.handed :: k in f.delivered)
    && (forall k | k in f.batch :: k in f.delivered)
  }

  /** What is missing below the cursor has been trimmed away. */
  ghost predicate OnlyTrimmedMissing(f: Feed) {
    forall k: nat | k < f.next :: k in f.delivered || k < f.base
  }

  ghost predicate Sound(f: Feed) {
    InOrder(f) && Partitioned(f) && AckedWereHandled(f) && OnlyTrimmedMissing(f)
  }

  lemma IncreasingMore(ks: seq<nat>, k: nat, bound: nat, bound': nat)
    requires Increasing(ks, bound) && bound <= k < bound'
    ensures Increasing(ks + [k], bound')
  {
  }

  lemma IncreasingRange(ks: seq<nat>, bound: nat, lo: nat, n: nat)
    requires Increasing(ks, bound) && bound <= lo
    ensures Increasing(ks + Range(lo, n), lo + n)
    ensures Increasing(Range(lo, n), lo + n)
    ensures Increasing(ks, lo)
  {
  }

  lemma TryKeepsOrder(f: Feed, o: Outcome)
    requires InOrder(f) && f.batch != []
    ensures InOrder(Tried(f, o))
  {
    var k, rest := f.batch[0], f.batch[1..];
    var bound := if rest == [] then f.next else rest[0];
    assert Increasing(rest, f.next) && k < bound;
    IncreasingMore(f.handed, k, k, bound);
    IncreasingMore(f.completed, k, k, bound);
    IncreasingMore(f.acked, k, k, bound);
  }

  lemma OrderKept(f: Feed, s: Step)
    requires InOrder(f) && Can(f, s)
    ensures InOrder(Do(f, s))
  {
    match s {
      case Publish(_, _) =>
      case Read(n) => IncreasingRange(f.delivered, f.next, Head(f), n);
      case Try(o) => TryKeepsOrder(f, o);
      case Abandon =>
    }
  }

  lemma HeadAndRest(ks: seq<nat>)
    requires ks != []
    ensures multiset(ks) == multiset([ks[0]]) + multiset(ks[1..])
  {
    assert ks == [ks[0]] + ks[1..];
  }

  lemma TryKeepsPartition(f: Feed, o: Outcome)
    requires Partitioned(f) && f.batch != []
    ensures Partitioned(Tried(f, o))
  {
    var g, k := Tried(f, o), f.batch[0];
    HeadAndRest(f.batch);
    assert multiset(f.lost + [k]) == multiset(f.lost) + multiset([k]);
    assert multiset(f.acked + [k]) == multiset(f.acked) + multiset([k]);
    assert g.batch == f.batch[1..] && g.delivered == f.delivered;
    assert (g.lost == f.lost + [k] && g.acked == f.acked) || (g.lost == f.lost && g.acked == f.acked + [k]);
    hide Tried;
  }

  lemma PartitionKept(f: Feed, s: Step)
    requires Partitioned(f) && Can(f, s)
    ensures Partitioned(Do(f, s))
  {
    match s {
      case Publish(_, _) =>
      case Try(o) => TryKeepsPartition(f, o);
      case Abandon => assert multiset(f.lost + f.batch) == multiset(f.lost) + multiset(f.batch);
      case Read(n) =>
        hide Range;
        assert multiset(f.delivered + Range(Head(f), n)) == multiset(f.delivered) + multiset(Range(Head(f), n));
    }
  }

  lemma HandledKept(f: Feed, s: Step)
    requires AckedWereHandled(f) && Can(f, s)
    ensures AckedWereHandled(Do(f, s))
  {
    if s.Try? { assert f.batch[0] in f.batch; }
    hide Range;
  }

  lemma MissingKept(f: Feed, s: Step)
    requires OnlyTrimmedMissing(f) && Can(f, s)
    ensures OnlyTrimmedMissing(Do(f, s))
  {
    if s.Read? {
      var g := Do(f, s);
      forall k: nat | k < g.next ensures k in g.delivered || k < g.base {
        if Head(f) <= k { assert g.delivered[|f.delivered| + (k - Head(f))] == k; }
      }
    }
  }

  lemma Last(steps: seq<Step>)
    requires Possible(steps) && steps != []
    ensures var f := After(steps[..|steps| - 1]);
            f.Some? && Can(f.value, steps[|steps| - 1]) && After(steps) == Some(Do(f.value, steps[|steps| - 1]))
  {
  }

  /** For every behaviour of publishers, trimming, handlers, the server and the event loop: entries are handed to
      the handler at most once and in stream order, each delivered entry is acknowledged or lost but not both,
      an acknowledged entry's handler completed, and only trimmed entries are skipped. */
  lemma {:induction false} AlwaysSound(steps: seq<Step>)
    requires Possible(steps)
    ensures Sound(After(steps).value)
  {
    if steps != [] {
      var init, s := steps[..|steps| - 1], steps[|steps| - 1];
      AlwaysSound(init);
      var f := After(init).value;
      hide Can, Do, After, InOrder, Partitioned, AckedWereHandled, OnlyTrimmedMissing;
      Last(steps);
      OrderKept(f, s);
      PartitionKept(f, s);
      HandledKept(f, s);
      MissingKept(f, s);
    }
  }

  // ---- when nothing is skipped

  /** Delivery so far is a gap-free prefix of what was published. */
  predicate GapFree(f: Feed) {
    f.delivered == Range(0, f.next)
  }

  predicate NotOvertaken(steps: seq<Step>) {
    var f := After(steps);
    f.Some? && f.value.base <= f.value.next
  }

  /** No read of the run started past the cursor because of trimming. */
  ghost predicate NeverOvertaken(steps: seq<Step>) {
    forall i | 0 <= i < |steps| && steps[i].Read? :: NotOvertaken(steps[..i])
  }

  lemma {:induction false} IncreasingFits(ks: seq<nat>, bound: nat)
    requires Increasing(ks, bound)
    ensures |ks| <= bound
  {
    if ks != [] {
      var n := |ks| - 1;
      IncreasingFits(ks[..n], ks[n]);
    }
  }

  lemma GapStep(f: Feed, s: Step)
    requires Sound(f) && Can(f, s)
    ensures GapFree(Do(f, s)) <==> GapFree(f) && (s.Read? ==> f.base <= f.next)
  {
    if s.Read? {
      IncreasingFits(f.delivered, f.next);
      var h, g := Head(f), Do(f, s);
      if GapFree(g) {
        assert |f.delivered| == h;
        assert f.delivered == g.delivered[..h] == Range(0, h);
      }
    }
  }

  lemma NeverOvertakenStep(init: seq<Step>, s: Step)
    ensures NeverOvertaken(init + [s]) <==> NeverOvertaken(init) && (s.Read? ==> NotOvertaken(init))
  {
    var steps := init + [s];
    hide NotOvertaken;
    assert steps[..|init|] == init && steps[|init|] == s;
    assert forall i | 0 <= i < |init| :: init[..i] == steps[..i] && init[i] == steps[i];
  }

  /** Delivery is gap-free exactly when trimming never overtook the cursor at a read. */
  lemma {:induction false} GapFreeIffNeverOvertaken(steps: seq<Step>)
    requires Possible(steps)
    ensures GapFree(After(steps).value) <==> NeverOvertaken(steps)
  {
    if steps != [] {
      var n := |steps| - 1;
      var init, s := steps[..n], steps[n];
      Last(steps);
      GapFreeIffNeverOvertaken(init);
      AlwaysSound(init);
      hide After, Sound, GapFree, NeverOvertaken;
      NeverOvertakenStep(init, s);
      assert init + [s] == steps;
      GapStep(After(init).value, s);
    }
  }

  predicate LagAtMost(steps: seq<Step>, lag: nat) {
    var f := After(steps);
    f.Some? && |f.value.log| - f.value.next <= lag
  }

  ghost predicate LagWithin(steps: seq<Step>, lag: nat) {
    forall i | 0 <= i <= |steps| :: LagAtMost(steps[..i], lag)
  }

  ghost predicate GapFreeUpToLag(lag: nat) {
    forall steps | Possible(steps) && LagWithin(steps, lag) :: GapFree(After(steps).value)
  }

  lemma {:induction false} TrimmedLittle(steps: seq<Step>)
    requires Possible(steps)
    ensures var f := After(steps).value; f.base == 0 || f.base + STREAM_MAXLEN <= |f.log|
  {
    if steps != [] { TrimmedLittle(steps[..|steps| - 1]); }
  }

  lemma SmallLagIsGapFree(steps: seq<Step>, lag: nat)
    requires Possible(steps) && LagWithin(steps, lag) && lag <= STREAM_MAXLEN
    ensures GapFree(After(steps).value)
  {
    hide After;
    forall i | 0 <= i < |steps| && steps[i].Read? ensures NotOvertaken(steps[..i]) {
      assert LagAtMost(steps[..i], lag);
      TrimmedLittle(steps[..i]);
    }
    GapFreeIffNeverOvertaken(steps);
  }

  lemma Longer(steps: seq<Step>, s: Step, lag: nat, lag': nat) returns (longer: seq<Step>)
    requires Possible(steps) && LagWithin(steps, lag) && Can(After(steps).value, s) && lag <= lag'
    requires var f := Do(After(steps).value, s); |f.log| - f.next <= lag'
    ensures longer == steps + [s] && After(longer) == Some(Do(After(steps).value, s)) && LagWithin(longer, lag')
  {
    longer := steps + [s];
    OneMore(steps, s);
    hide After, Do, Can;
    forall i | 0 <= i <= |longer| ensures LagAtMost(longer[..i], lag') {
      if i <= |steps| { assert longer[..i] == steps[..i] && LagAtMost(steps[..i], lag); } else { assert longer[..i] == longer; }
    }
  }

  /** n publications and nothing else. */
  lemma {:induction false} OnlyPublished(n: nat) returns (steps: seq<Step>)
    ensures |steps| == n && LagWithin(steps, n)
    ensures exists log: seq<string> :: |log| == n && After(steps) == Some(EMPTY.(log := log))
  {
    if n == 0 {
      steps := [];
      assert EMPTY == EMPTY.(log := []);
    } else {
      var init := OnlyPublished(n - 1);
      var log :| |log| == n - 1 && After(init) == Some(EMPTY.(log := log));
      steps := Longer(init, Publish("", 0), n - 1, n);
      assert After(steps) == Some(EMPTY.(log := log + [""]));
    }
  }

  /** The length limit is exactly the lag up to which a group misses nothing: one entry more behind, and the
      oldest unread entry can be trimmed away unread. */
  lemma GapFreeUpToLagIff(lag: nat)
    ensures GapFreeUpToLag(lag) <==> lag <= 10000
  {
    if lag <= STREAM_MAXLEN {
      forall steps | Possible(steps) && LagWithin(steps, lag) ensures GapFree(After(steps).value) {
        SmallLagIsGapFree(steps, lag);
      }
    } else {
      var steps := OnlyPublished(STREAM_MAXLEN);
      var log :| |log| == STREAM_MAXLEN && After(steps) == Some(EMPTY.(log := log));
      hide After;
      steps := Longer(steps, Publish("", 1), STREAM_MAXLEN, lag);
      steps := Longer(steps, Read(1), lag, lag);
      assert After(steps).value.delivered[0] == 1;
      assert !GapFree(After(steps).value);
    }
  }

  // ---- when nothing is lost

  predicate Faultless(steps: seq<Step>) {
    forall s | s in steps :: s != Abandon && (s.Try? ==> s.outcome == Acknowledged)
  }

  lemma NothingLostStep(f: Feed, s: Step)
    requires Can(f, s) && s != Abandon && (s.Try? ==> s.outcome == Acknowledged)
    requires f.delivered == f.acked + f.batch && f.handed == f.completed == f.acked && f.lost == []
    ensures var g := Do(f, s);
            g.delivered == g.acked + g.batch && g.handed == g.completed == g.acked && g.lost == []
  {
    if s.Try? { assert f.batch == [f.batch[0]] + f.batch[1..]; }
  }

  /** When every entry decodes, every handler completes, every acknowledgement succeeds and no batch is abandoned,
      what was delivered is what was handled and acknowledged, followed by the batch, in order. */
  lemma {:induction false} NothingLost(steps: seq<Step>)
    requires Possible(steps) && Faultless(steps)
    ensures var f := After(steps).value;
            f.delivered == f.acked + f.batch && f.handed == f.completed == f.acked && f.lost == []
  {
    if steps != [] {
      var n := |steps| - 1;
      assert steps[n] in steps && forall s | s in steps[..n] :: s in steps;
      NothingLost(steps[..n]);
      Last(steps);
      hide After;
      NothingLostStep(After(steps[..n]).value, steps[n]);
    }
  }

  /** So a faultless group that has caught up, at a lag that never exceeded the length limit, has handled exactly
      what was published, once each and in order. */
  lemma ExactlyOnceInOrder(steps: seq<Step>)
    requires Possible(steps) && Faultless(steps) && LagWithin(steps, STREAM_MAXLEN)
    ensures var f := After(steps).value;
            f.batch == [] && f.next == |f.log| ==> f.acked == Range(0, |f.log|)
  {
    NothingLost(steps);
    SmallLagIsGapFree(steps, STREAM_MAXLEN);
    assert After(steps).value.acked + [] == After(steps).value.acked;
  }

  lemma StandsOnIt(f: Feed, s: Step)
    requires Can(f, s) && f.acked + f.batch == f.delivered == Range(0, f.next) && f.next <= |f.log|
    requires s.Try? ==> s.outcome == Acknowledged
    ensures f.acked == Range(0, |f.acked|) && |f.acked| <= |f.log|
    ensures s.Try? ==> |f.acked| < |f.log| && Do(f, s).acked == f.acked + [|f.acked|] && Do(f, s).log == f.log
    ensures !s.Try? ==> Do(f, s).acked == f.acked && f.log <= Do(f, s).log
  {
    assert f.acked == f.delivered[..|f.acked|];
    if s.Try? { assert f.delivered[|f.acked|] == f.batch[0] == |f.acked|; }
  }

  lemma CaughtInLog(f: Feed)
    requires Sound(f)
    ensures f.next <= |f.log|
  {
  }

  /** A faultless group that trimming never overtook is a cursor on the stream: what it has handled is what was published up to
      the cursor, in order, and the only step that moves it handles the entry it stands on. */
  lemma ReadsLikeACursor(init: seq<Step>, s: Step)
    requires Possible(init + [s]) && Faultless(init + [s]) && NeverOvertaken(init + [s])
    ensures Possible(init)
    ensures var f, g := After(init).value, After(init + [s]).value;
            && f.acked == Range(0, |f.acked|) && |f.acked| <= |f.log|
            && (s.Try? ==> |f.acked| < |f.log| && g.acked == f.acked + [|f.acked|] && g.log == f.log)
            && (!s.Try? ==> g.acked == f.acked && f.log <= g.log)
  {
    assert (init + [s])[..|init|] == init && s in init + [s] && forall x | x in init :: x in init + [s];
    assert s.Try? ==> s.outcome == Acknowledged;
    Last(init + [s]);
    hide After, Sound, NeverOvertaken;
    NeverOvertakenStep(init, s);
    GapFreeIffNeverOvertaken(init);
    NothingLost(init);
    AlwaysSound(init);
    CaughtInLog(After(init).value);
    StandsOnIt(After(init).value, s);
  }

  // ---- the subscription loop

  /** The streams of ids that have a batch to process are the results. */
  ghost predicate Listed(feeds: map<string, Feed>, ids: set<string>, results: seq<string>) {
    && ids <= feeds.Keys
    && (forall s | s in ids :: feeds[s].batch != [] <==> s in results)
    && (forall s | s in results :: s in ids && |feeds[s].batch| <= BATCH_SIZE)
  }

  datatype Ending = Running | TaskCancelled | ReadRaised

  /** Streams have been appended to and trimmed, and nothing else. */
  ghost predicate OnlyGrown(before: map<string, Feed>, now: map<string, Feed>) {
    forall s | s in before ::
      && s in now && before[s].log <= now[s].log && before[s].base <= now[s].base
      && now[s] == before[s].(log := now[s].log, base := now[s].base)
  }

  /** No stream has lost its newest entries, and no cursor has gone back. */
  ghost predicate Ahead(before: map<string, Feed>, now: map<string, Feed>) {
    forall s | s in before ::
      && s in now && |before[s].log| <= |now[s].log|
      && before[s].next <= now[s].next && Head(before[s]) <= Head(now[s])
  }

  lemma AheadTwice(a: map<string, Feed>, b: map<string, Feed>, c: map<string, Feed>)
    requires Ahead(a, b) && Ahead(b, c)
    ensures Ahead(a, c)
  {
    hide Head;
  }

  lemma GrownIsAhead(before: map<string, Feed>, now: map<string, Feed>)
    requires OnlyGrown(before, now)
    ensures Ahead(before, now)
  {
  }

  lemma StepIsAhead(before: map<string, Feed>, stream: string, s: Step)
    requires stream in before && Can(before[stream], s)
    ensures Ahead(before, before) && Ahead(before, before[stream := Do(before[stream], s)])
  {
    hide Range;
  }

  /** So many rounds after f, the cursor is past the entries there were, or has read ten in each round. */
  predicate ReadUp(f: Feed, g: Feed, rounds: nat) {
    g.next >= |f.log| || g.next >= Head(f) + 10 * rounds
  }

  /** One read of a stream takes the cursor ten entries on, or to the end; trimming never passes the end. */
  lemma ReadUpOnce(f: Feed, g: Feed, read: bool)
    requires f.base == 0 || f.base + STREAM_MAXLEN <= |f.log|
    requires read <==> Head(f) < |f.log|
    requires g.next == if !read then f.next else if |f.log| - Head(f) < 10 then |f.log| else Head(f) + 10
    ensures ReadUp(f, g, 1)
  {
  }

  ghost predicate AllReadUp(before: map<string, Feed>, now: map<string, Feed>, ids: set<string>, rounds: nat) {
    forall s | s in ids && s in before :: s in now && ReadUp(before[s], now[s], rounds)
  }

  lemma ReadUpLater(f: Feed, g: Feed, h: Feed, rounds: nat)
    requires ReadUp(f, g, rounds) && g.next <= h.next
    ensures ReadUp(f, h, rounds)
  {
  }

  /** A round that starts from a later state than f was. */
  lemma ReadUpAgain(f: Feed, g: Feed, h: Feed, rounds: nat)
    requires rounds > 0 ==> ReadUp(f, g, rounds)
    requires |f.log| <= |g.log| && Head(f) <= Head(g) && ReadUp(g, h, 1)
    ensures ReadUp(f, h, rounds + 1)
  {
  }

  lemma AllReadUpLater(before: map<string, Feed>, mid: map<string, Feed>, now: map<string, Feed>, ids: set<string>, rounds: nat)
    requires AllReadUp(before, mid, ids, rounds) && Ahead(mid, now)
    ensures AllReadUp(before, now, ids, rounds)
  {
    forall s | s in ids && s in before ensures s in now && ReadUp(before[s], now[s], rounds) {
      ReadUpLater(before[s], mid[s], now[s], rounds);
    }
    hide ReadUp, Head;
  }

  lemma AllReadUpAgain(before: map<string, Feed>, mid: map<string, Feed>, now: map<string, Feed>, ids: set<string>, rounds: nat)
    requires rounds > 0 ==> AllReadUp(before, mid, ids, rounds)
    requires Ahead(before, mid) && AllReadUp(mid, now, ids, 1)
    ensures AllReadUp(before, now, ids, rounds + 1)
  {
    hide ReadUp, Head;
    forall s | s in ids && s in before ensures s in now && ReadUp(before[s], now[s], rounds + 1) {
      ReadUpAgain(before[s], mid[s], now[s], rounds);
    }
  }

  /** What is read from a later state is read from the earlier one too. */
  lemma AllReadUpSooner(before: map<string, Feed>, mid: map<string, Feed>, now: map<string, Feed>, ids: set<string>)
    requires Ahead(before, mid) && AllReadUp(mid, now, ids, 1)
    ensures AllReadUp(before, now, ids, 1)
  {
    AllReadUpAgain(before, mid, now, ids, 0);
    hide AllReadUp, Ahead;
  }

  lemma AllReadUpMeans(before: map<string, Feed>, now: map<string, Feed>, streams: seq<string>, ids: set<string>, rounds: nat)
    requires AllReadUp(before, now, ids, rounds) && ids == set s | s in streams
    ensures forall s | s in streams && s in before ::
              s in now && (now[s].next >= |before[s].log| || now[s].next >= Head(before[s]) + 10 * rounds)
  {
    hide Head;
    assert forall s | s in streams :: s in ids;
  }

  lemma OneMoreReadUp(before: map<string, Feed>, mid: map<string, Feed>, now: map<string, Feed>, done: set<string>,
                      stream: string)
    requires AllReadUp(before, mid, done, 1) && stream in mid && stream in before && before[stream] == mid[stream]
    requires stream in now && now == mid[stream := now[stream]] && ReadUp(mid[stream], now[stream], 1) && stream !in done
    ensures AllReadUp(before, now, done + {stream}, 1)
  {
    hide ReadUp;
  }

  /** Histories have only become longer, and no batch was abandoned in between. */
  ghost predicate Extended(before: map<string, seq<Step>>, now: map<string, seq<Step>>) {
    forall s | s in before ::
      s in now && before[s] <= now[s] && Abandon !in now[s][|before[s]|..]
  }

  lemma ExtendedTwice(a: map<string, seq<Step>>, b: map<string, seq<Step>>, c: map<string, seq<Step>>)
    requires Extended(a, b) && Extended(b, c)
    ensures Extended(a, c)
  {
    forall s | s in a ensures s in c && a[s] <= c[s] && Abandon !in c[s][|a[s]|..] {
      assert c[s][|a[s]|..] == b[s][|a[s]|..] + c[s][|b[s]|..];
    }
  }

  function WithGroup(feeds: map<string, Feed>, stream: string): map<string, Feed> {
    if stream in feeds then feeds else feeds[stream := EMPTY]
  }

  lemma PublishedGrows(before: map<string, Feed>, stream: string, entry: string, trimmedTo: nat)
    requires Can(WithGroup(before, stream)[stream], Step.Publish(entry, trimmedTo))
    ensures var mid := WithGroup(before, stream);
            OnlyGrown(before, mid[stream := Do(mid[stream], Step.Publish(entry, trimmedTo))])
  {
  }

  lemma GrownKeepsBatches(before: map<string, Feed>, now: map<string, Feed>)
    requires OnlyGrown(before, now)
    ensures forall s | s in before :: s in now && now[s].batch == before[s].batch
  {
  }

  lemma NoneListed(feeds: map<string, Feed>)
    ensures forall ids: set<string> :: Listed(feeds, ids - ids, [])
  {
  }

  /** Entries may have been added, and none changed. */
  ghost predicate Kept<T>(before: map<string, T>, now: map<string, T>) {
    forall s | s in before :: s in now && now[s] == before[s]
  }

  lemma KeptFeeds(before: map<string, Feed>, now: map<string, Feed>)
    requires Kept(before, now)
    ensures Ahead(before, now)
  {
    hide Head;
  }

  lemma KeptHistories(before: map<string, seq<Step>>, now: map<string, seq<Step>>)
    requires Kept(before, now)
    ensures Extended(before, now)
  {
  }

  lemma NoneRead(feeds: map<string, Feed>)
    ensures Ahead(feeds, feeds) && AllReadUp(feeds, feeds, {}, 1)
  {
  }

  lemma ListedWithin(feeds: map<string, Feed>, ids: set<string>, results: seq<string>)
    requires Listed(feeds, ids, results)
    ensures ids <= feeds.Keys
  {
  }

  lemma ListedStreams(feeds: map<string, Feed>, ids: set<string>, results: seq<string>)
    requires Listed(feeds, ids, results)
    ensures ids <= feeds.Keys && forall s | s in ids && s !in results[0..] :: feeds[s].batch == []
    ensures forall i | 0 <= i < |results| :: results[i] in ids
  {
    assert results[0..] == results;
  }

  lemma OneFewer<T>(ts: seq<T>, i: nat)
    requires i < |ts|
    ensures forall t | t in ts[i..] :: t == ts[i] || t in ts[i + 1..]
  {
    assert ts[i..] == [ts[i]] + ts[i + 1..];
  }

  lemma ListedMore(before: map<string, Feed>, now: map<string, Feed>, done: set<string>, stream: string,
                   results: seq<string>, read: bool)
    requires Listed(before, done, results) && stream !in done && stream in before
    requires stream in now && now == before[stream := now[stream]]
    requires (now[stream].batch != [] <==> read) && |now[stream].batch| <= BATCH_SIZE
    ensures Listed(now, done + {stream}, if read then results + [stream] else results)
  {
    assert stream !in results;
  }

  lemma EnsuredExtends(was: map<string, seq<Step>>, stream: string)
    ensures Extended(was, was)
    ensures stream !in was ==> Extended(was, was[stream := []])
  {
  }

  /** The server as one group sees it. What publishers, other readers of time and the network do is arbitrary;
      every change of a stream is a step of its machine, recorded in its history. */
  class Bus {
    var feeds: map<string, Feed>
    ghost var histories: map<string, seq<Step>>

    ghost predicate Valid()
      reads this
    {
      && histories.Keys == feeds.Keys
      && forall s | s in feeds :: After(histories[s]) == Some(feeds[s])
    }

    constructor ()
      ensures Valid() && feeds == map[]
    {
      feeds, histories := map[], map[];
    }

    method Advance(stream: string, s: Step)
      requires Valid() && stream in feeds && Can(feeds[stream], s)
      modifies this
      ensures Valid() && feeds == old(feeds)[stream := Do(old(feeds)[stream], s)]
      ensures histories == old(histories)[stream := old(histories)[stream] + [s]]
    {
      OneMore(histories[stream], s);
      feeds := feeds[stream := Do(feeds[stream], s)];
      histories := histories[stream := histories[stream] + [s]];
    }

    /** Create the group at the beginning of the stream, and the stream if there is none; an existing group is
        left as it is. */
    method EnsureGroup(stream: string)
      requires Valid()
      modifies this
      ensures Valid() && feeds == if stream in old(feeds) then old(feeds) else old(feeds)[stream := EMPTY]
      ensures histories == if stream in old(feeds) then old(histories) else old(histories)[stream := []]
    {
      if stream !in feeds {
        feeds, histories := feeds[stream := EMPTY], histories[stream := []];
      }
    }

    /** Append an entry; the server may trim at any time it is allowed to. */
    method Publish(stream: string, entry: string)
      requires Valid()
      modifies this
      ensures Valid() && OnlyGrown(old(feeds), feeds) && Extended(old(histories), histories)
      ensures stream in feeds && feeds[stream].log
           == (if stream in old(feeds) then old(feeds)[stream].log else []) + [entry]
    {
      hide After, Extended;
      ghost var before, was := feeds, histories;
      EnsureGroup(stream);
      EnsuredExtends(was, stream);
      ghost var mid := histories;
      var trimmedTo: nat := *;
      if !TrimAllowed(feeds[stream], trimmedTo) { trimmedTo := feeds[stream].base; }
      PublishedGrows(before, stream, entry, trimmedTo);
      hide OnlyGrown;
      AdvanceKeeping(stream, Step.Publish(entry, trimmedTo));
      ExtendedTwice(was, mid, histories);
    }

    /** A step that abandons nothing. */
    method AdvanceKeeping(stream: string, s: Step)
      requires Valid() && stream in feeds && Can(feeds[stream], s) && s != Abandon
      modifies this
      ensures Valid() && feeds == old(feeds)[stream := Do(old(feeds)[stream], s)]
      ensures Extended(old(histories), histories)
    {
      hide After, Do, Can;
      ghost var h := histories[stream];
      Advance(stream, s);
      assert (h + [s])[|h|..] == [s];
    }

    /** What other tasks and agents publish while this one waits. */
    method Meanwhile()
      requires Valid()
      modifies this
      ensures Valid() && OnlyGrown(old(feeds), feeds) && Extended(old(histories), histories)
    {
      var n: nat := *;
      while n > 0
        invariant Valid() && OnlyGrown(old(feeds), feeds) && Extended(old(histories), histories)
      {
        var stream: string := *;
        var entry: string := *;
        ghost var was := histories;
        Publish(stream, entry);
        ExtendedTwice(old(histories), was, histories);
        n := n - 1;
      }
    }

    /** No stream of the subscription has entries waiting. */
    ghost predicate Idle(ids: set<string>)
      reads this
    {
      ids <= feeds.Keys && forall s | s in ids :: feeds[s].batch == []
    }

    /** One read of new entries from all streams, ten of each if there are so many. When the call raises or is
        cancelled the server may have delivered entries all the same: they are abandoned. */
    method ReadGroup(ids: set<string>) returns (end: Ending, results: seq<string>)
      requires Valid() && Idle(ids)
      modifies this
      ensures Valid() && ids <= feeds.Keys
      ensures end.Running? ==> Extended(old(histories), histories) && Ahead(old(feeds), feeds)
      ensures end.Running? ==> AllReadUp(old(feeds), feeds, ids, 1)
      ensures end.Running? ==> Listed(feeds, ids, results)
      ensures !end.Running? ==> Idle(ids)
    {
      hide After, Do, Extended, OnlyGrown, Listed, Ahead, AllReadUp;
      ghost var before, was := feeds, histories;
      Meanwhile();
      GrownKeepsBatches(before, feeds);
      GrownIsAhead(before, feeds);
      ghost var grown, mid := feeds, histories;
      results := ReadAll(ids);
      ExtendedTwice(was, mid, histories);
      AheadTwice(before, grown, feeds);
      AllReadUpSooner(before, grown, feeds, ids);
      ListedWithin(feeds, ids, results);
      end := *;
      if !end.Running? { AbandonAll(ids); }
    }

    method ReadAll(ids: set<string>) returns (results: seq<string>)
      requires Valid() && Idle(ids)
      modifies this
      ensures Valid() && Extended(old(histories), histories) && Listed(feeds, ids, results)
      ensures Ahead(old(feeds), feeds) && AllReadUp(old(feeds), feeds, ids, 1)
    {
      NoneListed(feeds);
      EnsuredExtends(histories, "");
      NoneRead(feeds);
      hide After, Do, Extended, Head, Listed, Ahead, AllReadUp;
      results := [];
      assert ids - ids == {};
      var rest := ids;
      while rest != {}
        invariant Valid() && rest <= ids && Extended(old(histories), histories)
        invariant Idle(rest) && Listed(feeds, ids - rest, results)
        invariant Ahead(old(feeds), feeds) && AllReadUp(old(feeds), feeds, ids - rest, 1)
        invariant forall s | s in rest :: s in old(feeds) && feeds[s] == old(feeds)[s]
        decreases rest
      {
        var stream :| stream in rest;
        ghost var was, earlier := histories, feeds;
        var read := ReadOne(stream);
        ExtendedTwice(old(histories), was, histories);
        ListedMore(earlier, feeds, ids - rest, stream, results, read);
        AheadTwice(old(feeds), earlier, feeds);
        OneMoreReadUp(old(feeds), earlier, feeds, ids - rest, stream);
        if read { results := results + [stream]; }
        assert ids - (rest - {stream}) == ids - rest + {stream};
        rest := rest - {stream};
      }
      assert ids - rest == ids;
    }

    /** The oldest retained entries that the group has not been given, at most a batch of them. */
    method ReadOne(stream: string) returns (read: bool)
      requires Valid() && stream in feeds && feeds[stream].batch == []
      modifies this
      ensures Valid() && Extended(old(histories), histories)
      ensures feeds.Keys == old(feeds).Keys && feeds == old(feeds)[stream := feeds[stream]]
      ensures feeds[stream].batch != [] <==> read
      ensures read <==> Head(old(feeds)[stream]) < |old(feeds)[stream].log|
      ensures |feeds[stream].batch| <= 10
      ensures Ahead(old(feeds), feeds) && ReadUp(old(feeds)[stream], feeds[stream], 1)
    {
      TrimmedLittle(histories[stream]);
      hide After;
      ghost var before := feeds;
      var available := |feeds[stream].log| - Head(feeds[stream]);
      if available <= 0 {
        ReadUpOnce(before[stream], feeds[stream], false);
        return false;
      }
      var count := if available < BATCH_SIZE then available else BATCH_SIZE;
      StepIsAhead(before, stream, Read(count));
      AdvanceKeeping(stream, Read(count));
      ReadUpOnce(before[stream], feeds[stream], true);
      return true;
    }

    /** Handle every entry that was read; an exception is logged and the next entry is tried, the cancellation of
        the task is not caught. */
    method Process(ids: set<string>, results: seq<string>) returns (end: Ending)
      requires Valid() && Listed(feeds, ids, results)
      modifies this
      ensures Valid() && Idle(ids) && !end.ReadRaised?
      ensures end.Running? ==> Extended(old(histories), histories) && Ahead(old(feeds), feeds)
    {
      hide After, Do, Extended, Listed, Ahead, AllReadUp, Head;
      ListedStreams(feeds, ids, results);
      NoneRead(feeds);
      EnsuredExtends(histories, "");
      var i := 0;
      while i < |results|
        invariant 0 <= i <= |results| && Valid() && ids <= feeds.Keys && Extended(old(histories), histories)
        invariant forall s | s in ids && s !in results[i..] :: feeds[s].batch == []
        invariant Ahead(old(feeds), feeds)
      {
        ghost var earlier, was := feeds, histories;
        OneFewer(results, i);
        var cancelled := ProcessOne(results[i], ids);
        if cancelled { AbandonAll(ids); return TaskCancelled; }
        ExtendedTwice(old(histories), was, histories);
        AheadTwice(old(feeds), earlier, feeds);
        i := i + 1;
      }
      return Running;
    }

    /** The oldest entry of the batch is tried, with any outcome, while others publish. */
    method TryNext(stream: string, ghost ids: set<string>)
      requires Valid() && stream in ids && ids <= feeds.Keys && feeds[stream].batch != []
      modifies this
      ensures Valid() && ids <= feeds.Keys && Extended(old(histories), histories)
      ensures forall s | s in ids && s != stream :: feeds[s].batch == old(feeds)[s].batch
      ensures feeds[stream].batch == old(feeds)[stream].batch[1..] && Ahead(old(feeds), feeds)
    {
      hide After, Extended, OnlyGrown, Ahead;
      ghost var before, was := feeds, histories;
      Meanwhile();
      GrownKeepsBatches(before, feeds);
      GrownIsAhead(before, feeds);
      ghost var grown, mid := feeds, histories;
      var outcome: Outcome := *;
      StepIsAhead(grown, stream, Try(outcome));
      AdvanceKeeping(stream, Try(outcome));
      ExtendedTwice(was, mid, histories);
      AheadTwice(before, grown, feeds);
    }

    method ProcessOne(stream: string, ghost ids: set<string>) returns (cancelled: bool)
      requires Valid() && stream in ids && ids <= feeds.Keys
      modifies this
      ensures Valid() && ids <= feeds.Keys && Extended(old(histories), histories)
      ensures forall s | s in ids && s != stream :: feeds[s].batch == old(feeds)[s].batch
      ensures !cancelled ==> feeds[stream].batch == []
      ensures Ahead(old(feeds), feeds)
    {
      hide After, Extended, Ahead, AllReadUp, Head;
      EnsuredExtends(histories, stream);
      NoneRead(feeds);
      var messages := feeds[stream].batch;
      var j := 0;
      while j < |messages|
        invariant 0 <= j <= |messages| && Valid() && ids <= feeds.Keys && Extended(old(histories), histories)
        invariant forall s | s in ids && s != stream :: feeds[s].batch == old(feeds)[s].batch
        invariant feeds[stream].batch == messages[j..] && Ahead(old(feeds), feeds)
      {
        ghost var earlier, was := feeds, histories;
        TryNext(stream, ids);
        ExtendedTwice(old(histories), was, histories);
        AheadTwice(old(feeds), earlier, feeds);
        cancelled := *;
        if cancelled { return true; }
        j := j + 1;
      }
      return false;
    }

    /** The consumer is gone: what it had been given stays pending on the server and is not read again. */
    method AbandonAll(ids: set<string>)
      requires Valid() && ids <= feeds.Keys
      modifies this
      ensures Valid() && Idle(ids)
    {
      var rest := ids;
      while rest != {}
        invariant Valid() && rest <= ids <= feeds.Keys
        invariant forall s | s in ids - rest :: feeds[s].batch == []
        decreases rest
      {
        var stream :| stream in rest;
        Advance(stream, Abandon);
        rest := rest - {stream};
      }
    }

    method EnsureAll(streams: seq<string>)
      requires Valid() && forall s | s in streams && s in feeds :: feeds[s].batch == []
      modifies this
      ensures Valid() && Extended(old(histories), histories) && Ahead(old(feeds), feeds)
      ensures Idle(set s | s in streams)
    {
      hide After, Extended, Ahead;
      var k := 0;
      while k < |streams|
        invariant 0 <= k <= |streams| && Valid() && Kept(old(histories), histories) && Kept(old(feeds), feeds)
        invariant forall s | s in streams[..k] :: s in feeds
        invariant forall s | s in streams && s in feeds :: feeds[s].batch == []
      {
        EnsureGroup(streams[k]);
        k := k + 1;
      }
      KeptFeeds(old(feeds), feeds);
      KeptHistories(old(histories), histories);
    }

    /** A read and the handling of what was read. */
    method OneRound(ids: set<string>, ghost done: nat, ghost start: map<string, Feed>, ghost was: map<string, seq<Step>>)
      returns (end: Ending)
      requires Valid() && Idle(ids) && Extended(was, histories) && Ahead(start, feeds)
      requires done > 0 ==> AllReadUp(start, feeds, ids, done)
      modifies this
      ensures Valid() && Idle(ids)
      ensures end.Running? ==> Extended(was, histories) && Ahead(start, feeds) && AllReadUp(start, feeds, ids, done + 1)
    {
      hide After, Do, Extended, Ahead, AllReadUp, Listed;
      ghost var earlier, h := feeds, histories;
      var results;
      end, results := ReadGroup(ids);
      if end.Running? {
        ghost var mid, h' := feeds, histories;
        ExtendedTwice(was, h, h');
        AheadTwice(start, earlier, mid);
        AllReadUpAgain(start, earlier, mid, ids, done);
        end := Process(ids, results);
        if end.Running? {
          ExtendedTwice(was, h', histories);
          AheadTwice(start, mid, feeds);
          AllReadUpLater(start, mid, feeds, ids, done + 1);
        }
      }
    }

    /** The endless loop, for any number of rounds. Whatever happens, the streams end up as their machines say, so
        that entries are handed out at most once, in order, and acknowledged only after their handler completed;
        and as long as the loop goes on every round reads up to ten entries more of each stream, of which none is left
        untried. */
    method Subscribe(streams: seq<string>, rounds: nat) returns (end: Ending)
      requires Valid() && forall s | s in streams && s in feeds :: feeds[s].batch == []
      modifies this
      ensures Valid() && Idle(set s | s in streams)
      ensures end.Running? ==> Extended(old(histories), histories)
      ensures end.Running? && rounds > 0 ==>
                forall s | s in streams && s in old(feeds) ::
                  || feeds[s].next >= |old(feeds)[s].log|
                  || feeds[s].next >= Head(old(feeds)[s]) + 10 * rounds
      ensures forall s | s in streams :: Sound(feeds[s])
    {
      hide After, Do, Sound, Head, Ahead, AllReadUp, Extended;
      var ids := set s | s in streams;
      EnsureAll(streams);
      end := Running;
      var done := 0;
      while done < rounds && end.Running?
        invariant 0 <= done <= rounds && Valid() && Idle(ids)
        invariant end.Running? ==> Extended(old(histories), histories) && Ahead(old(feeds), feeds)
        invariant end.Running? && done > 0 ==> AllReadUp(old(feeds), feeds, ids, done)
      {
        end := OneRound(ids, done, old(feeds), old(histories));
        done := done + 1;
      }
      if end.Running? && rounds > 0 { AllReadUpMeans(old(feeds), feeds, streams, ids, rounds); }
      forall s | s in streams ensures Sound(feeds[s]) {
        assert s in ids;
        AlwaysSound(histories[s]);
      }
    }
  }
}
