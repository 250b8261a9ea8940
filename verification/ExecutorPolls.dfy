/** How long an order is watched before the executor gives up on it, and runs in which one order costs all it may. */
module ExecutorPolls {
  import opened Prelude
  import opened Messages
  import opened ExecutorMachine

  predicate Slept(ev: Event) {
    ev.PollSlept?
  }

  /** A status query that showed an order still open. */
  predicate SeenOpen(ev: Event) {
    ev.GetReturned? && ev.view.state == Other
  }

  /** From the reply that created the order on, the executor has done nothing but sleep and see it open, so often
      each; shutdown may have begun in between. */
  ghost predicate Watched(events: seq<Event>, i: nat, u: string, sleeps: nat, looks: nat) {
    && i < |events| && events[i] == CreateReturned(u)
    && (forall k | i < k < |events| ::
          events[k].PollSlept? || events[k].ShutdownBegun? || (SeenOpen(events[k]) && events[k].uuid == u))
    && Tally(Slept, events[i + 1..]) == sleeps && Tally(SeenOpen, events[i + 1..]) == looks
  }

  /** So many sleeps and looks, and nothing else, since some reply created the order. */
  ghost predicate PolledSinceCreated(events: seq<Event>, u: string, sleeps: nat, looks: nat) {
    exists i :: Watched(events, i, u, sleeps, looks)
  }

  lemma WatchBegins(init: seq<Event>, u: string)
    ensures PolledSinceCreated(init + [CreateReturned(u)], u, 0, 0)
  {
    assert (init + [CreateReturned(u)])[|init| + 1..] == [];
    assert Watched(init + [CreateReturned(u)], |init|, u, 0, 0);
  }

  lemma WatchGoesOn(init: seq<Event>, ev: Event, i: nat, u: string, sleeps: nat, looks: nat)
    requires i < |init|
    ensures Watched(init + [ev], i, u, sleeps + if Slept(ev) then 1 else 0, looks + if SeenOpen(ev) then 1 else 0)
       <==> Watched(init, i, u, sleeps, looks) && (Slept(ev) || ev.ShutdownBegun? || (SeenOpen(ev) && ev.uuid == u))
  {
    var events := init + [ev];
    assert events[i + 1..] == init[i + 1..] + [ev] && events[i + 1..][..|init| - i - 1] == init[i + 1..];
    assert forall k | 0 <= k < |init| :: events[k] == init[k];
    if Watched(events, i, u, sleeps + if Slept(ev) then 1 else 0, looks + if SeenOpen(ev) then 1 else 0) {
      assert events[|init|] == ev;
      forall k | i < k < |init|
        ensures init[k].PollSlept? || init[k].ShutdownBegun? || (SeenOpen(init[k]) && init[k].uuid == u)
      {
        assert events[k] == init[k];
      }
    }
  }

  lemma PollsGoOn(init: seq<Event>, ev: Event, u: string, sleeps: nat, looks: nat)
    requires PolledSinceCreated(init, u, sleeps, looks)
    requires Slept(ev) || ev.ShutdownBegun? || (SeenOpen(ev) && ev.uuid == u)
    ensures PolledSinceCreated(init + [ev], u, sleeps + if Slept(ev) then 1 else 0, looks + if SeenOpen(ev) then 1 else 0)
  {
    var i :| Watched(init, i, u, sleeps, looks);
    WatchGoesOn(init, ev, i, u, sleeps, looks);
    hide Slept, SeenOpen;
  }

  /** What a place in the code says about the polls made so far. */
  ghost predicate PollsBehind(events: seq<Event>, pc: Pc) {
    match pc
    case Sleeping(_, _, u, p) => PolledSinceCreated(events, u, p, p)
    case Polling(_, _, u, p) => p >= 1 && PolledSinceCreated(events, u, p, p - 1)
    case TimedOut(_, _, u) => PolledSinceCreated(events, u, 60, 60)
    case _ => true
  }

  lemma PollsKept(init: seq<Event>, e: Exec, ev: Event)
    requires WellFormed(e) && Enabled(e, ev) && PollsBehind(init, e.pc)
    ensures PollsBehind(init + [ev], NextPc(e, ev))
  {
    hide PolledSinceCreated;
    if ev.CreateReturned? {
      WatchBegins(init, ev.uuid);
    } else if ev.PollSlept? || ev.ShutdownBegun? || (ev.GetReturned? && ev.view.state == Other) {
      match e.pc {
        case Sleeping(_, _, u, p) => PollsGoOn(init, ev, u, p, p);
        case Polling(_, _, u, p) => PollsGoOn(init, ev, u, p, p - 1);
        case TimedOut(_, _, u) => PollsGoOn(init, ev, u, 60, 60);
        case _ =>
      }
    }
  }

  lemma {:induction false} PollsCounted(dryRun: bool, events: seq<Event>)
    requires Possible(dryRun, events)
    ensures PollsBehind(events, After(dryRun, events).value.pc)
  {
    if events != [] {
      var init, ev := events[..|events| - 1], events[|events| - 1];
      Earlier(dryRun, events);
      PollsCounted(dryRun, init);
      AlwaysWellFormed(dryRun, init);
      PollsKept(init, After(dryRun, init).value, ev);
      assert init + [ev] == events;
    }
  }

  /** Where an executor stands that has made so many sleeps and looks. */
  predicate StandsAt(pc: Pc, u: string, sleeps: nat, looks: nat) {
    match pc
    case Sleeping(_, _, v, p) => u == v && sleeps == looks == p < 60
    case Polling(_, _, v, p) => u == v && sleeps == p == looks + 1
    case TimedOut(_, _, v) => u == v && sleeps == looks == 60
    case _ => false
  }

  /** An order that is watched is in hand: none is left behind, and none is watched for more than sixty polls. A
      cancelled task makes no further poll. */
  lemma {:induction false} WatchedIsInHand(dryRun: bool, events: seq<Event>, i: nat, u: string, sleeps: nat, looks: nat)
    requires Possible(dryRun, events) && Watched(events, i, u, sleeps, looks)
    ensures StandsAt(After(dryRun, events).value.pc, u, sleeps, looks)
  {
    var init, ev := events[..|events| - 1], events[|events| - 1];
    Earlier(dryRun, events);
    AlwaysWellFormed(dryRun, init);
    assert init + [ev] == events;
    if i == |init| {
      assert events[i + 1..] == [];
    } else {
      assert events[i + 1..][..|init| - i - 1] == init[i + 1..] && events[i + 1..][|init| - i - 1] == ev;
      var s, l := sleeps - (if Slept(ev) then 1 else 0), looks - (if SeenOpen(ev) then 1 else 0);
      WatchGoesOn(init, ev, i, u, s, l);
      hide Watched;
      WatchedIsInHand(dryRun, init, i, u, s, l);
    }
  }

  ghost predicate CanGiveUp(dryRun: bool, events: seq<Event>, u: string) {
    exists again, returned :: Possible(dryRun, events + [CancelTried(u, again, returned)])
  }

  lemma CanGiveUpIff(dryRun: bool, events: seq<Event>, u: string)
    requires Possible(dryRun, events)
    ensures CanGiveUp(dryRun, events, u)
       <==> var pc := After(dryRun, events).value.pc; pc.TimedOut? && pc.uuid == u
  {
    var e := After(dryRun, events).value;
    if CanGiveUp(dryRun, events, u) {
      var again, returned :| Possible(dryRun, events + [CancelTried(u, again, returned)]);
      Earlier(dryRun, events + [CancelTried(u, again, returned)]);
      assert (events + [CancelTried(u, again, returned)])[..|events|] == events;
    }
    if e.pc.TimedOut? && e.pc.uuid == u {
      OneMore(dryRun, events, CancelTried(u, e.pc.attempt < MAX_RETRIES, true));
      assert Possible(dryRun, events + [CancelTried(u, e.pc.attempt < MAX_RETRIES, true)]);
    }
  }

  lemma TimedOutAfterSixtyPolls(dryRun: bool, events: seq<Event>, u: string)
    requires Possible(dryRun, events) && PolledSinceCreated(events, u, 60, 60)
    ensures var pc := After(dryRun, events).value.pc; pc.TimedOut? && pc.uuid == u
  {
    hide Possible, After, Watched;
    var i :| Watched(events, i, u, 60, 60);
    WatchedIsInHand(dryRun, events, i, u, 60, 60);
  }

  /** In every run the timeout of an order can come next exactly when, since the reply that created it, the executor has
      slept sixty times and seen the order open sixty times, and has done nothing else. */
  lemma TimesOutIffSixtyPolls(dryRun: bool, events: seq<Event>, u: string)
    requires Possible(dryRun, events)
    ensures (exists again, returned :: Possible(dryRun, events + [CancelTried(u, again, returned)]))
       <==> PolledSinceCreated(events, u, 60, 60)
  {
    CanGiveUpIff(dryRun, events, u);
    PollsCounted(dryRun, events);
    hide Possible, PolledSinceCreated;
    if PolledSinceCreated(events, u, 60, 60) { TimedOutAfterSixtyPolls(dryRun, events, u); }
    assert CanGiveUp(dryRun, events, u)
      <==> exists again, returned :: Possible(dryRun, events + [CancelTried(u, again, returned)]);
  }

  lemma PrefixPossible(dryRun: bool, events: seq<Event>, j: nat)
    requires Possible(dryRun, events) && j <= |events|
    ensures Possible(dryRun, events[..j])
  {
    WorkPaidFor(CreateCalls, dryRun, events, j);
  }

  /** Wherever a run gives up on an order, it has made exactly sixty polls of it since it was created. */
  lemma EachTimeoutAfterSixtyPolls(dryRun: bool, events: seq<Event>, j: nat)
    requires Possible(dryRun, events) && j < |events| && events[j].CancelTried?
    ensures PolledSinceCreated(events[..j], events[j].uuid, 60, 60)
  {
    PrefixPossible(dryRun, events, j);
    PrefixPossible(dryRun, events, j + 1);
    var (u, again, returned) := (events[j].uuid, events[j].again, events[j].returned);
    assert events[..j + 1] == events[..j] + [CancelTried(u, again, returned)];
    TimesOutIffSixtyPolls(dryRun, events[..j], u);
    hide *;
  }

  // ---- one order can cost all that an order may

  /** One order has been taken, and the live executor has come this far after so many create, get, cancel and publish
      calls, seconds of sleep and steps. */
  ghost predicate Reaches(events: seq<Event>, e: Exec, c: nat, g: nat, x: nat, p: nat, s: nat, t: nat) {
    && After(false, events) == Some(e) && Takes(events) == 1
    && Total(CreateCalls, events) == c && Total(GetCalls, events) == g && Total(CancelCalls, events) == x
    && Total(PublishCalls, events) == p && Total(SleepSeconds, events) == s && Total(Steps, events) == t
  }

  lemma Begin(o: OrderRequest)
    ensures Reaches([Take(o)], Exec(false, Creating(o, 1), {}, Running), 0, 0, 0, 0, 0, 0)
  {
    assert [Take(o)][..0] == [];
    assert forall r :: Total(r, [Take(o)]) == Total(r, []) + Cost(r, Take(o));
  }

  lemma Extend(events: seq<Event>, e: Exec, c: nat, g: nat, x: nat, p: nat, s: nat, t: nat, ev: Event, e': Exec)
    returns (longer: seq<Event>)
    requires Reaches(events, e, c, g, x, p, s, t) && Enabled(e, ev) && Next(e, ev) == e' && !ev.Take?
    ensures longer == events + [ev]
    ensures Reaches(longer, e', c + Cost(CreateCalls, ev), g + Cost(GetCalls, ev), x + Cost(CancelCalls, ev),
                    p + Cost(PublishCalls, ev), s + Cost(SleepSeconds, ev), t + Cost(Steps, ev))
  {
    hide Enabled, Next, Cost;
    longer := events + [ev];
    assert longer[..|events|] == events;
  }

  function Open(o: OrderRequest, attempt: nat, u: string, n: nat): Exec {
    Exec(false, if n < 60 then Sleeping(o, attempt, u, n) else TimedOut(o, attempt, u), {u}, Running)
  }

  /** n polls, all of which show the order open. */
  lemma {:induction false} Watch(before: seq<Event>, o: OrderRequest, attempt: nat, u: string, v: OrderView, n: nat,
                                 c: nat, g: nat, x: nat, p: nat, s: nat, t: nat)
    returns (events: seq<Event>)
    requires v.state == Other && n <= 60 && Reaches(before, Open(o, attempt, u, 0), c, g, x, p, s, t)
    ensures Reaches(events, Open(o, attempt, u, n), c, g + n, x, p, s + n, t + 2 * n)
  {
    hide Reaches;
    if n == 0 {
      events := before;
    } else {
      var m := n - 1;
      events := Watch(before, o, attempt, u, v, m, c, g, x, p, s, t);
      var looking := Exec(false, Polling(o, attempt, u, n), {u}, Running);
      events := Extend(events, Open(o, attempt, u, m), c, g + m, x, p, s + m, t + 2 * m, PollSlept, looking);
      events := Extend(events, looking, c, g + m, x, p, s + n, t + 2 * m + 1, GetReturned(u, v), Open(o, attempt, u, n));
    }
  }

  lemma Create(before: seq<Event>, o: OrderRequest, attempt: nat, u: string, c: nat, g: nat, x: nat, p: nat, s: nat, t: nat)
    returns (events: seq<Event>)
    requires Reaches(before, Exec(false, Creating(o, attempt), {}, Running), c, g, x, p, s, t)
    ensures Reaches(events, Open(o, attempt, u, 0), c + 1, g, x, p, s, t + 1)
  {
    hide Reaches;
    assert {} + {u} == {u};
    events := Extend(before, Exec(false, Creating(o, attempt), {}, Running), c, g, x, p, s, t, CreateReturned(u),
                     Open(o, attempt, u, 0));
  }

  /** An attempt that makes all its polls, sees the order done at the last, and cannot publish the fill. */
  lemma LateAndUnpublished(before: seq<Event>, o: OrderRequest, attempt: nat, u: string, open: OrderView, done: OrderView,
                           c: nat, g: nat, x: nat, p: nat, s: nat, t: nat)
    returns (events: seq<Event>)
    requires open.state == Other && done.state == Done
    requires Reaches(before, Exec(false, Creating(o, attempt), {}, Running), c, g, x, p, s, t)
    ensures Reaches(events, Exec(false, AfterRaise(o, attempt), {}, Running), c + 1, g + 60, x, p + 1, s + 60, t + 122)
  {
    hide Reaches, AfterRaise;
    events := Create(before, o, attempt, u, c, g, x, p, s, t);
    events := Watch(events, o, attempt, u, open, 59, c + 1, g, x, p, s, t + 1);
    var looking := Exec(false, Polling(o, attempt, u, 60), {u}, Running);
    var publishing := Exec(false, PublishingFill(o, attempt, ResultOf(o, u, done)), {}, Running);
    assert {u} - {u} == {};
    events := Extend(events, Open(o, attempt, u, 59), c + 1, g + 59, x, p, s + 59, t + 119, PollSlept, looking);
    events := Extend(events, looking, c + 1, g + 59, x, p, s + 60, t + 120, GetReturned(u, done), publishing);
    events := Extend(events, publishing, c + 1, g + 60, x, p, s + 60, t + 121, PublishRaised(false, false),
                     Exec(false, AfterRaise(o, attempt), {}, Running));
  }

  /** An attempt that ends in the timeout. */
  lemma OpenToTheEnd(before: seq<Event>, o: OrderRequest, attempt: nat, u: string, open: OrderView,
                     c: nat, g: nat, x: nat, p: nat, s: nat, t: nat)
    returns (events: seq<Event>)
    requires open.state == Other
    requires Reaches(before, Exec(false, Creating(o, attempt), {}, Running), c, g, x, p, s, t)
    ensures Reaches(events, Exec(false, AfterTimeout(o, attempt), {}, Running), c + 1, g + 60, x + 1, p, s + 60, t + 122)
  {
    hide Reaches, AfterTimeout;
    events := Create(before, o, attempt, u, c, g, x, p, s, t);
    events := Watch(events, o, attempt, u, open, 60, c + 1, g, x, p, s, t + 1);
    assert {u} - {u} == {};
    events := Extend(events, Open(o, attempt, u, 60), c + 1, g + 60, x, p, s + 60, t + 121,
                     CancelTried(u, attempt < MAX_RETRIES, true), Exec(false, AfterTimeout(o, attempt), {}, Running));
  }

  lemma WaitAndRetry(before: seq<Event>, o: OrderRequest, attempt: nat, c: nat, g: nat, x: nat, p: nat, s: nat, t: nat)
    returns (events: seq<Event>)
    requires attempt == 1 || attempt == 2
    requires Reaches(before, Exec(false, BackingOff(o, attempt), {}, Running), c, g, x, p, s, t)
    ensures Reaches(events, Exec(false, Creating(o, attempt + 1), {}, Running), c, g, x, p, s + 2 * attempt, t + 1)
  {
    hide Reaches;
    events := Extend(before, Exec(false, BackingOff(o, attempt), {}, Running), c, g, x, p, s, t, BackoffSlept(2 * attempt),
                     Exec(false, Creating(o, attempt + 1), {}, Running));
  }

  lemma Report(before: seq<Event>, o: OrderRequest, c: nat, g: nat, x: nat, p: nat, s: nat, t: nat)
    returns (events: seq<Event>)
    requires Reaches(before, Exec(false, PublishingFailure(o), {}, Running), c, g, x, p, s, t)
    ensures Possible(false, events) && Takes(events) == 1 && After(false, events).value.pc.Idle?
    ensures Total(CreateCalls, events) == c && Total(GetCalls, events) == g && Total(CancelCalls, events) == x
    ensures Total(PublishCalls, events) == p + 1 && Total(SleepSeconds, events) == s && Total(Steps, events) == t + 1
  {
    var idle := Exec(false, Idle, {}, Running);
    assert Next(Exec(false, PublishingFailure(o), {}, Running), Published) == idle;
    hide After, Takes, Total, Next;
    events := Extend(before, Exec(false, PublishingFailure(o), {}, Running), c, g, x, p, s, t, Published, idle);
  }

  /** The bounds on one order are attained, all but that on cancellations in one run: each attempt sees its order done at
      the sixtieth poll and cannot publish that. */
  lemma BudgetAttained(o: OrderRequest, open: OrderView, done: OrderView) returns (events: seq<Event>)
    requires open.state == Other && done.state == Done
    ensures Possible(false, events) && Takes(events) == 1 && After(false, events).value.pc.Idle?
    ensures Total(CreateCalls, events) == 3 && Total(GetCalls, events) == 180 && Total(PublishCalls, events) == 4
    ensures Total(SleepSeconds, events) == 186 && Total(Steps, events) == 369
  {
    hide Reaches, Possible, After, Total, Takes;
    Begin(o);
    events := LateAndUnpublished([Take(o)], o, 1, "a", open, done, 0, 0, 0, 0, 0, 0);
    events := WaitAndRetry(events, o, 1, 1, 60, 0, 1, 60, 122);
    events := LateAndUnpublished(events, o, 2, "b", open, done, 1, 60, 0, 1, 62, 123);
    events := WaitAndRetry(events, o, 2, 2, 120, 0, 2, 122, 245);
    events := LateAndUnpublished(events, o, 3, "c", open, done, 2, 120, 0, 2, 126, 246);
    events := Report(events, o, 3, 180, 0, 3, 186, 368);
  }

  /** So is the bound on cancellations: three attempts, each of which times out. */
  lemma ThreeTimeouts(o: OrderRequest, open: OrderView) returns (events: seq<Event>)
    requires open.state == Other
    ensures Possible(false, events) && Takes(events) == 1 && After(false, events).value.pc.Idle?
    ensures Total(CreateCalls, events) == 3 && Total(CancelCalls, events) == 3 && Total(GetCalls, events) == 180
    ensures Total(PublishCalls, events) == 1 && Total(SleepSeconds, events) == 180
  {
    hide Reaches, Possible, After, Total, Takes;
    Begin(o);
    events := OpenToTheEnd([Take(o)], o, 1, "a", open, 0, 0, 0, 0, 0, 0);
    events := OpenToTheEnd(events, o, 2, "b", open, 1, 60, 1, 0, 60, 122);
    events := OpenToTheEnd(events, o, 3, "c", open, 2, 120, 2, 0, 120, 244);
    events := Report(events, o, 3, 180, 3, 0, 180, 366);
  }
}
