/** How many create calls one approval causes, and when more than one. */
module ExecutorPlacements {
  import opened Prelude
  import opened Messages
  import opened ExecutorMachine
  import opened ExecutorPolls

  // ---- how many placements one approval causes

  /** The replies that make the executor place the same order again. */
  predicate Replaces(ev: Event) {
    ev.BackoffSlept? || (ev.CancelTried? && ev.again)
  }

  function Replacements(events: seq<Event>): nat {
    if events == [] then 0
    else Replacements(events[..|events| - 1]) + if Replaces(events[|events| - 1]) then 1 else 0
  }

  /** Placements are conserved: one per order taken, and one more for every replacement. */
  lemma {:induction false} PlacementLaw(events: seq<Event>)
    requires Possible(false, events)
    ensures Total(CreateCalls, events) + (if After(false, events).value.pc.Creating? then 1 else 0)
         == Takes(events) + Replacements(events)
  {
    if events != [] {
      var init := events[..|events| - 1];
      Earlier(false, events);
      PlacementLaw(init);
      AlwaysWellFormed(false, init);
    }
  }

  /** The replies after which an attempt has not ended with a published fill. */
  predicate Fails(ev: Event) {
    ev.CreateRaised? || ev.GetRaised? || ev.CancelTried? || (ev.PublishRaised? && !ev.escapes)
  }

  predicate OnFirstAttempt(pc: Pc) {
    match pc
    case Idle => true
    case Ended => true
    case PublishingDryRun(_) => true
    case PublishingFailure(_) => false
    case _ => pc.attempt == 1
  }

  /** While nothing has been replaced, attempts are first attempts, and after a failed one the executor waits to
      try again or has been cancelled. */
  lemma {:induction false} FirstAttempts(events: seq<Event>)
    requires Possible(false, events) && Replacements(events) == 0
    ensures var pc := After(false, events).value.pc;
            && OnFirstAttempt(pc)
            && ((exists ev | ev in events :: Fails(ev)) ==> pc.BackingOff? || pc.Ended?)
  {
    if events != [] {
      var init, last := events[..|events| - 1], events[|events| - 1];
      Earlier(false, events);
      AlwaysWellFormed(false, init);
      FirstAttempts(init);
      assert forall ev :: ev in events <==> ev in init || ev == last;
      hide After;
    }
  }

  lemma {:induction false} ReplacedAfterFailure(events: seq<Event>)
    requires Possible(false, events)
    requires Replacements(events) > 0 || After(false, events).value.pc.BackingOff?
    ensures exists ev :: ev in events && Fails(ev)
  {
    var init, last := events[..|events| - 1], events[|events| - 1];
    Earlier(false, events);
    assert events == init + [last];
    if !Fails(last) {
      ReplacedAfterFailure(init);
      var ev :| ev in init && Fails(ev);
      assert ev in events;
    } else {
      assert last in events;
    }
  }

  lemma OnePlacementUnlessFailed(events: seq<Event>)
    requires Possible(false, events) && After(false, events).value.pc.Idle?
    ensures Total(CreateCalls, events) == Takes(events) <==> (forall ev | ev in events :: !Fails(ev))
  {
    PlacementLaw(events);
    if Replacements(events) == 0 {
      FirstAttempts(events);
    } else {
      ReplacedAfterFailure(events);
    }
  }

  /** An order that times out is given up, unless the executor stops first. */
  lemma {:induction false} TimeoutIsFinal(events: seq<Event>, k: nat)
    requires Possible(false, events) && k <= |events|
    requires Possible(false, events[..k]) && After(false, events[..k]).value.pc.TimedOut?
    ensures var pc := After(false, events).value.pc;
            pc.TimedOut? || pc.Ended? || exists ev | ev in events :: ev.CancelTried?
  {
    if k == |events| {
      assert events[..k] == events;
    } else {
      var init, last := events[..|events| - 1], events[|events| - 1];
      Earlier(false, events);
      assert init[..k] == events[..k] && last in events && forall ev | ev in init :: ev in events;
      TimeoutIsFinal(init, k);
    }
  }

  /** Some order was seen open sixty times since it was created. */
  ghost predicate OpenForSixtyPolls(events: seq<Event>) {
    exists k: nat, u | k <= |events| :: PolledSinceCreated(events[..k], u, 60, 60)
  }

  lemma GivenUpIff(events: seq<Event>)
    requires Possible(false, events) && After(false, events).value.pc.Idle?
    ensures (exists ev | ev in events :: ev.CancelTried?) <==> OpenForSixtyPolls(events)
  {
    hide PolledSinceCreated, After;
    if exists ev | ev in events :: ev.CancelTried? {
      var ev :| ev in events && ev.CancelTried?;
      var j :| 0 <= j < |events| && events[j] == ev;
      EachTimeoutAfterSixtyPolls(false, events, j);
    }
    if OpenForSixtyPolls(events) {
      var k: nat, u :| k <= |events| && PolledSinceCreated(events[..k], u, 60, 60);
      PrefixPossible(false, events, k);
      TimedOutAfterSixtyPolls(false, events[..k], u);
      TimeoutIsFinal(events, k);
    }
  }

  /** An exception inside an attempt. */
  predicate Raises(ev: Event) {
    ev.CreateRaised? || ev.GetRaised? || (ev.PublishRaised? && !ev.escapes)
  }

  /** "One exchange order per approval" holds of a run after which nothing is in hand exactly when no create call,
      status query or publication of a fill raised in it, and no order was seen open sixty times since it was created. */
  lemma OnePlacementEachIff(events: seq<Event>)
    requires Possible(false, events) && After(false, events).value.pc.Idle?
    ensures Total(CreateCalls, events) == Takes(events)
       <==> (forall ev | ev in events :: !Raises(ev)) && !OpenForSixtyPolls(events)
  {
    OnePlacementUnlessFailed(events);
    GivenUpIff(events);
    hide After, Total, Takes, OpenForSixtyPolls;
    assert forall ev :: Fails(ev) <==> Raises(ev) || ev.CancelTried?;
  }

  // ---- runs in which one approval is placed more than once

  /** A run that has reached a state, and what it cost so far. */
  ghost predicate Reaches(events: seq<Event>, e: Exec, takes: nat, creates: nat) {
    After(false, events) == Some(e) && Takes(events) == takes && Total(CreateCalls, events) == creates
  }

  lemma Begins()
    ensures Reaches([], Fresh(false), 0, 0)
  {
  }

  lemma Extend(events: seq<Event>, e: Exec, takes: nat, creates: nat, ev: Event, e': Exec) returns (longer: seq<Event>)
    requires Reaches(events, e, takes, creates) && Enabled(e, ev) && Next(e, ev) == e'
    ensures longer == events + [ev]
    ensures Reaches(longer, e', takes + if ev.Take? then 1 else 0, creates + Cost(CreateCalls, ev))
  {
    hide Enabled, Next, Cost;
    longer := events + [ev];
    assert longer[..|events|] == events;
  }

  lemma Possibly(events: seq<Event>, e: Exec, takes: nat, creates: nat)
    requires Reaches(events, e, takes, creates)
    ensures Possible(false, events) && Takes(events) == takes && Total(CreateCalls, events) == creates
  {
  }

  /** The order is placed and polled once. */
  lemma PlaceFirst(o: OrderRequest) returns (events: seq<Event>)
    ensures Reaches(events, Exec(false, Polling(o, 1, "a", 1), {"a"}, Running), 1, 1)
  {
    hide Reaches;
    var e1 := Exec(false, Creating(o, 1), {}, Running);
    var e2 := Exec(false, Sleeping(o, 1, "a", 0), {"a"}, Running);
    assert e1.pending + {"a"} == {"a"};
    Begins();
    events := Extend([], Fresh(false), 0, 0, Take(o), e1);
    events := Extend(events, e1, 1, 0, CreateReturned("a"), e2);
    events := Extend(events, e2, 1, 1, PollSlept, Exec(false, Polling(o, 1, "a", 1), {"a"}, Running));
  }

  /** An order that was filled is placed a second time when the publication of its fill raises, whether or not
      the fill has reached the stream. */
  lemma FilledOrderPlacedTwice(o: OrderRequest, v: OrderView, applied: bool) returns (events: seq<Event>)
    requires v.state == Done
    ensures Possible(false, events) && Takes(events) == 1 && Total(CreateCalls, events) == 2
    ensures exists i, j | 0 <= i < j < |events| :: events[i] == GetReturned("a", v) && events[j] == CreateReturned("b")
  {
    hide Reaches;
    var e4 := Exec(false, PublishingFill(o, 1, ResultOf(o, "a", v)), {}, Running);
    var e5 := Exec(false, BackingOff(o, 1), {}, Running);
    var e6 := Exec(false, Creating(o, 2), {}, Running);
    var e7 := Exec(false, Sleeping(o, 2, "b", 0), {"b"}, Running);
    assert {"a"} - {"a"} == {} && e6.pending + {"b"} == {"b"};
    var first := PlaceFirst(o);
    events := Extend(first, Exec(false, Polling(o, 1, "a", 1), {"a"}, Running), 1, 1, GetReturned("a", v), e4);
    events := Extend(events, e4, 1, 1, PublishRaised(false, applied), e5);
    events := Extend(events, e5, 1, 1, BackoffSlept(2), e6);
    events := Extend(events, e6, 1, 1, CreateReturned("b"), e7);
    Possibly(events, e7, 1, 2);
    assert events[|first|] == GetReturned("a", v) && events[|first| + 3] == CreateReturned("b");
  }

  /** The reply to a create call is lost, and the executor tries again after its back-off. */
  lemma ReplyLost(before: seq<Event>, o: OrderRequest, attempt: nat, creates: nat, u: string) returns (events: seq<Event>)
    requires 1 <= attempt < MAX_RETRIES && Reaches(before, Exec(false, Creating(o, attempt), {}, Running), 1, creates)
    ensures events == before + [CreateRaised(Some(u)), BackoffSlept(BackoffSeconds(attempt))]
    ensures Reaches(events, Exec(false, Creating(o, attempt + 1), {}, Running), 1, creates + 1)
  {
    hide Reaches, BackoffSeconds;
    var e1 := Exec(false, Creating(o, attempt), {}, Running);
    var e2 := Exec(false, BackingOff(o, attempt), {}, Running);
    events := Extend(before, e1, 1, creates, CreateRaised(Some(u)), e2);
    events := Extend(events, e2, 1, creates + 1, BackoffSlept(BackoffSeconds(attempt)),
                     Exec(false, Creating(o, attempt + 1), {}, Running));
  }

  /** The bound of three is attained, and by orders that the exchange has all accepted: the replies to two create
      calls are lost and the third arrives. */
  lemma ThreeAcceptedForOne(o: OrderRequest) returns (events: seq<Event>)
    ensures Possible(false, events) && Takes(events) == 1 && Total(CreateCalls, events) == 3
    ensures CreateRaised(Some("a")) in events && CreateRaised(Some("b")) in events && CreateReturned("c") in events
  {
    hide Reaches;
    var e1 := Exec(false, Creating(o, 1), {}, Running);
    var e3 := Exec(false, Creating(o, 3), {}, Running);
    var e4 := Exec(false, Sleeping(o, 3, "c", 0), {"c"}, Running);
    assert e3.pending + {"c"} == {"c"};
    Begins();
    events := Extend([], Fresh(false), 0, 0, Take(o), e1);
    events := ReplyLost(events, o, 1, 0, "a");
    events := ReplyLost(events, o, 2, 1, "b");
    events := Extend(events, e3, 1, 2, CreateReturned("c"), e4);
    Possibly(events, e4, 1, 3);
    assert events[1] == CreateRaised(Some("a")) && events[3] == CreateRaised(Some("b"));
    assert events[5] == CreateReturned("c");
  }
}
