/** What the executor leaves behind on the exchange: the pending set, shutdown and teardown. */
module ExecutorShutdown {
  import opened Prelude
  import opened ExecutorMachine

  // ---- nothing is left behind on the exchange

  /** The executor has seen the order finished, or has asked for its cancellation after a timeout. */
  predicate Settles(ev: Event, u: string) {
    (ev.GetReturned? && ev.uuid == u && ev.view.state != Other) || (ev.CancelTried? && ev.uuid == u)
  }

  ghost predicate CreatedAndUnsettled(events: seq<Event>, u: string, i: nat)
    requires i < |events|
  {
    events[i] == CreateReturned(u) && forall j | i < j < |events| :: !Settles(events[j], u)
  }

  ghost predicate Outstanding(events: seq<Event>, u: string) {
    exists i | 0 <= i < |events| :: CreatedAndUnsettled(events, u, i)
  }

  lemma OutstandingStep(init: seq<Event>, ev: Event, u: string)
    ensures Outstanding(init + [ev], u) <==> ev == CreateReturned(u) || (Outstanding(init, u) && !Settles(ev, u))
  {
    var n, all := |init|, init + [ev];
    if Outstanding(init, u) && !Settles(ev, u) {
      var i :| 0 <= i < n && CreatedAndUnsettled(init, u, i);
      assert CreatedAndUnsettled(all, u, i);
    }
    if ev == CreateReturned(u) { assert CreatedAndUnsettled(all, u, n); }
    if Outstanding(all, u) {
      var i :| 0 <= i < |all| && CreatedAndUnsettled(all, u, i);
      if i < n {
        assert !Settles(all[n], u);
        forall j | i < j < n ensures !Settles(init[j], u) { assert init[j] == all[j]; }
        assert CreatedAndUnsettled(init, u, i);
      }
    }
  }

  /** At every moment the pending set is exactly: created, and since then neither seen finished nor cancelled
      after a timeout. */
  lemma {:induction false} PendingIsOutstanding(dryRun: bool, events: seq<Event>, u: string)
    requires Possible(dryRun, events)
    ensures u in After(dryRun, events).value.pending <==> Outstanding(events, u)
  {
    if events != [] {
      var n := |events| - 1;
      var init := events[..n];
      Earlier(dryRun, events);
      PendingIsOutstanding(dryRun, init, u);
      OutstandingStep(init, events[n], u);
      assert init + [events[n]] == events;
    }
  }

  predicate TeardownAsks(ev: Event, u: string) {
    ev.TeardownCancelTried? && ev.uuid == u
  }

  ghost predicate AskedFrom(events: seq<Event>, k: nat, u: string) {
    exists j | k <= j < |events| :: TeardownAsks(events[j], u)
  }

  lemma AskedStep(init: seq<Event>, ev: Event, k: nat, u: string)
    requires k <= |init|
    ensures AskedFrom(init + [ev], k, u) <==> AskedFrom(init, k, u) || TeardownAsks(ev, u)
  {
    var all := init + [ev];
    if AskedFrom(init, k, u) {
      var j :| k <= j < |init| && TeardownAsks(init[j], u);
      assert TeardownAsks(all[j], u);
    }
    if TeardownAsks(ev, u) { assert TeardownAsks(all[|init|], u); }
  }

  /** From the moment the tasks have finished the pending set stands still, and what has been asked for is what
      was pending, except what is still to be asked for. */
  lemma {:induction false} AskedSinceTasksFinished(dryRun: bool, events: seq<Event>, k: nat, u: string)
    requires Possible(dryRun, events) && k < |events| && events[k] == TasksFinished
    ensures Possible(dryRun, events[..k])
    ensures var e, atK := After(dryRun, events).value, After(dryRun, events[..k]).value;
            && e.pc.Ended? && e.pending == atK.pending && (e.phase.Closing? || e.phase.Stopped?)
            && (AskedFrom(events, k, u) <==> u in atK.pending && (e.phase.Closing? ==> u !in e.phase.todo))
  {
    var n := |events| - 1;
    Earlier(dryRun, events);
    AlwaysWellFormed(dryRun, events[..n]);
    assert events == events[..n] + [events[n]];
    AskedStep(events[..n], events[n], k, u);
    if k < n {
      assert events[..n][..k] == events[..k];
      AskedSinceTasksFinished(dryRun, events[..n], k, u);
      hide After, AskedFrom;
    }
  }

  /** Teardown asks for the cancellation of exactly the orders that were outstanding when the tasks finished. */
  lemma TeardownAsksIffOutstanding(dryRun: bool, events: seq<Event>, k: nat, u: string)
    requires Possible(dryRun, events) && After(dryRun, events).value.phase.Stopped?
    requires k < |events| && events[k] == TasksFinished
    ensures AskedFrom(events, k, u) <==> Outstanding(events[..k], u)
  {
    AskedSinceTasksFinished(dryRun, events, k, u);
    PendingIsOutstanding(dryRun, events[..k], u);
  }

  /** The executor has seen the order finished, or has made a call to cancel it. */
  predicate Covers(ev: Event, u: string) {
    Settles(ev, u) || TeardownAsks(ev, u)
  }

  lemma {:induction false} ClosingCoversPending(dryRun: bool, events: seq<Event>)
    requires Possible(dryRun, events)
    ensures var e := After(dryRun, events).value;
            && (e.phase.Closing? ==> forall u | u in e.pending :: u in e.phase.todo || AskedFrom(events, 0, u))
            && (e.phase.Stopped? ==> forall u | u in e.pending :: AskedFrom(events, 0, u))
  {
    if events != [] {
      var n := |events| - 1;
      Earlier(dryRun, events);
      ClosingCoversPending(dryRun, events[..n]);
      AlwaysWellFormed(dryRun, events[..n]);
      assert events == events[..n] + [events[n]];
      hide After, AskedFrom;
      forall u { AskedStep(events[..n], events[n], 0, u); }
    }
  }

  lemma {:induction false} StaysEnded(dryRun: bool, events: seq<Event>, k: nat)
    requires Possible(dryRun, events) && k < |events| && events[k].TeardownCancelTried?
    ensures After(dryRun, events).value.pc.Ended?
  {
    var n := |events| - 1;
    Earlier(dryRun, events);
    AlwaysWellFormed(dryRun, events[..n]);
    if k < n { StaysEnded(dryRun, events[..n], k); }
  }

  lemma {:induction false} NoCreateAfterTeardown(dryRun: bool, events: seq<Event>, k: nat, i: nat)
    requires Possible(dryRun, events) && k < i < |events| && events[k].TeardownCancelTried?
    ensures Cost(CreateCalls, events[i]) == 0 && After(dryRun, events).value.pc.Ended?
  {
    var n := |events| - 1;
    Earlier(dryRun, events);
    AlwaysWellFormed(dryRun, events[..n]);
    if k < n && k < i && i < n {
      NoCreateAfterTeardown(dryRun, events[..n], k, i);
    } else {
      StaysEnded(dryRun, events[..n], k);
    }
  }

  /** Once the agent has stopped, every order whose creation returned was seen finished, or its cancellation
      was attempted, however calls raised and wherever the handler was cancelled. */
  lemma NoLeak(dryRun: bool, events: seq<Event>, i: nat, u: string)
    requires Possible(dryRun, events) && After(dryRun, events).value.phase.Stopped?
    requires i < |events| && events[i] == CreateReturned(u)
    ensures exists j | i < j < |events| :: Covers(events[j], u)
  {
    if !exists j | i < j < |events| :: Covers(events[j], u) {
      assert CreatedAndUnsettled(events, u, i);
      PendingIsOutstanding(dryRun, events, u);
      ClosingCoversPending(dryRun, events);
      var k :| 0 <= k < |events| && TeardownAsks(events[k], u);
      if k <= i { NoCreateAfterTeardown(dryRun, events, k, i); }
    }
  }

  // ---- the promise to cancel unfilled orders on shutdown

  /** Exchange uuids are unique. */
  ghost predicate DistinctOrders(events: seq<Event>) {
    forall j, k | 0 <= j < k < |events| && Accepted(events[j]).Some? :: Accepted(events[k]) != Accepted(events[j])
  }

  predicate SeenFinished(ev: Event, u: string) {
    ev.GetReturned? && ev.uuid == u && ev.view.state != Other
  }

  predicate CancelCall(ev: Event, u: string, returned: bool) {
    (ev.CancelTried? || ev.TeardownCancelTried?) && ev.uuid == u && ev.returned == returned
  }

  /** The orders a stopping executor still has to look after. */
  function Awaiting(e: Exec): set<string> {
    match e.phase
    case Closing(todo) => todo
    case Stopped => {}
    case _ => e.pending
  }

  function Creations(events: seq<Event>, u: string): nat {
    if events == [] then 0
    else Creations(events[..|events| - 1], u) + if events[|events| - 1] == CreateReturned(u) then 1 else 0
  }

  function Coverings(events: seq<Event>, u: string): nat {
    if events == [] then 0
    else Coverings(events[..|events| - 1], u) + if Covers(events[|events| - 1], u) then 1 else 0
  }

  /** An order is given up once: what covers it, and being looked after still, never outnumber its creations. */
  lemma {:induction false} CoveredOnce(dryRun: bool, events: seq<Event>, u: string)
    requires Possible(dryRun, events)
    ensures Coverings(events, u) + (if u in Awaiting(After(dryRun, events).value) then 1 else 0) <= Creations(events, u)
  {
    if events != [] {
      var n := |events| - 1;
      Earlier(dryRun, events);
      AlwaysWellFormed(dryRun, events[..n]);
      CoveredOnce(dryRun, events[..n], u);
    }
  }

  lemma SameOrder(events: seq<Event>, j: nat, k: nat)
    requires DistinctOrders(events) && j < |events| && k < |events|
    requires Accepted(events[j]).Some? && Accepted(events[j]) == Accepted(events[k])
    ensures j == k
  {
  }

  lemma {:induction false} NeverCreated(events: seq<Event>, u: string)
    requires CreateReturned(u) !in events
    ensures Creations(events, u) == 0
  {
    if events != [] { NeverCreated(events[..|events| - 1], u); }
  }

  lemma {:induction false} CreatedAtMostOnce(events: seq<Event>, u: string)
    requires DistinctOrders(events)
    ensures Creations(events, u) <= 1
    ensures Creations(events, u) == 1 ==> exists i :: 0 <= i < |events| && events[i] == CreateReturned(u)
  {
    if events != [] {
      var n := |events| - 1;
      if events[n] == CreateReturned(u) {
        forall k | 0 <= k < n ensures events[k] != CreateReturned(u) {
          assert Accepted(events[k]) != Accepted(events[n]);
        }
        NeverCreated(events[..n], u);
      } else {
        CreatedAtMostOnce(events[..n], u);
      }
    }
  }

  lemma {:induction false} CoveringCount(events: seq<Event>, a: nat, u: string)
    requires a < |events| && Covers(events[a], u)
    ensures Coverings(events, u) >= 1
  {
    var n := |events| - 1;
    if a < n { CoveringCount(events[..n], a, u); }
  }

  lemma {:induction false} CoveringsCount(events: seq<Event>, a: nat, b: nat, u: string)
    requires a < b < |events| && Covers(events[a], u) && Covers(events[b], u)
    ensures Coverings(events, u) >= 2
  {
    var n := |events| - 1;
    if b < n { CoveringsCount(events[..n], a, b, u); } else { CoveringCount(events[..n], a, u); }
  }

  /** With unique uuids an order is covered by one event at most, after its create call returned. */
  lemma CoveredByOne(dryRun: bool, events: seq<Event>, u: string, a: nat, b: nat)
    requires Possible(dryRun, events) && DistinctOrders(events) && a < |events| && b < |events|
    requires Covers(events[a], u) && Covers(events[b], u)
    ensures a == b
    ensures forall i | 0 <= i < |events| && Accepted(events[i]) == Some(u) :: events[i].CreateReturned?
  {
    CoveredOnce(dryRun, events, u);
    CreatedAtMostOnce(events, u);
    CoveringCount(events, a, u);
    hide After;
    var c :| 0 <= c < |events| && events[c] == CreateReturned(u);
    forall i | 0 <= i < |events| && Accepted(events[i]) == Some(u) ensures i == c { SameOrder(events, i, c); }
    if a < b { CoveringsCount(events, a, b, u); }
    if b < a { CoveringsCount(events, b, a, u); }
  }

  /** The order was seen finished, or a call to cancel it returned. */
  ghost predicate LookedAfter(events: seq<Event>, u: string) {
    exists j :: 0 <= j < |events| && (SeenFinished(events[j], u) || CancelCall(events[j], u, true))
  }

  ghost predicate CancelFailed(events: seq<Event>, u: string) {
    exists j :: 0 <= j < |events| && CancelCall(events[j], u, false)
  }

  /** When the promise to cancel unfilled orders on shutdown is kept for an order the exchange accepted: exactly
      when its create call returned and no call to cancel it raised. A lost create reply is never followed up, and
      a cancellation that raised, after a timeout or in teardown, is not tried again. */
  lemma LookedAfterIff(dryRun: bool, events: seq<Event>, i: nat, u: string)
    requires Possible(dryRun, events) && After(dryRun, events).value.phase.Stopped? && DistinctOrders(events)
    requires i < |events| && Accepted(events[i]) == Some(u)
    ensures LookedAfter(events, u) <==> events[i].CreateReturned? && !CancelFailed(events, u)
  {
    if LookedAfter(events, u) {
      var j :| 0 <= j < |events| && (SeenFinished(events[j], u) || CancelCall(events[j], u, true));
      forall b | 0 <= b < |events| && Covers(events[b], u) ensures b == j && events[i].CreateReturned? {
        CoveredByOne(dryRun, events, u, j, b);
      }
    }
    if events[i].CreateReturned? && !CancelFailed(events, u) {
      NoLeak(dryRun, events, i, u);
      var j :| i < j < |events| && Covers(events[j], u);
      assert !CancelCall(events[j], u, false);
    }
  }
}
