/** The executor agent in the form it is written in: nested loops over awaits that may raise or be cancelled.
    Its ghost trace ties every run of it to a run of the machine. */
module Executor {
  import opened Prelude
  import opened Messages
  import opened ExecutorMachine
  import opened ExecutorPolls
  import opened ExecutorShutdown

  /** What comes of an await. Handlers of ordinary exceptions do not catch the cancellation of the task. */
  datatype Reply<+T> = Returned(value: T) | Raised | CancelledError

  datatype Outcome = Completed | Escaped | TaskEnded

  datatype Nothing = Nothing

  /** Exchange, bus and event loop: any reply at any time. The logs record what was asked and published. */
  class World {
    ghost var created: seq<Placement>
    ghost var published: seq<Output>

    constructor ()
      ensures created == [] && published == []
    {
      created, published := [], [];
    }

    method Await<T(0)>() returns (r: Reply<T>)
    {
      r := *;
    }

    /** The order is accepted when the call returns, and may be even when it does not. */
    method CreateOrder(p: Placement) returns (r: Reply<string>, ghost accepted: Option<string>)
      modifies this`created
      ensures created == old(created) + [p]
    {
      created := created + [p];
      r := Await();
      accepted := *;
    }

    /** The result is on the stream when the call returns, and may be even when it does not. */
    method Publish(out: Output) returns (r: Reply<Nothing>, ghost applied: bool)
      modifies this`published
      ensures r.Returned? ==> !applied
      ensures published == old(published) + if r.Returned? || applied then [out] else []
    {
      r := Await();
      applied := *;
      applied := applied && !r.Returned?;
      if r.Returned? || applied { published := published + [out]; }
    }

    method CancelOrder(uuid: string, cancellable: bool) returns (r: Reply<Nothing>)
      ensures !cancellable ==> !r.CancelledError?
    {
      r := Await();
      if !cancellable && r.CancelledError? { r := Raised; }
    }
  }

  /** More of the same handling: no further order was taken. */
  ghost predicate Continues(before: seq<Event>, now: seq<Event>) {
    before <= now && Takes(now) == Takes(before)
  }

  /** So many results reached the streams without the executor hearing of it. */
  ghost function Unheard(before: seq<Event>, now: seq<Event>): int {
    Tally(UnheardPublication, now) - Tally(UnheardPublication, before)
  }

  lemma CountsMore(trace: seq<Event>, ev: Event)
    ensures Takes(trace + [ev]) == Takes(trace) + if ev.Take? then 1 else 0
    ensures Unheard(trace, trace + [ev]) == if UnheardPublication(ev) then 1 else 0
  {
    assert (trace + [ev])[..|trace|] == trace;
  }

  lemma PlacedMore(dryRun: bool, trace: seq<Event>, e: Exec, ev: Event)
    requires After(dryRun, trace) == Some(e) && After(dryRun, trace + [ev]).Some?
    ensures Placed(dryRun, trace + [ev])
         == Placed(dryRun, trace) + if e.pc.Creating? && Cost(CreateCalls, ev) == 1 then [PlacementOf(e.pc.order)] else []
  {
    assert (trace + [ev])[..|trace|] == trace;
    hide Enabled, Next, Cost, PlacementOf;
  }

  lemma OutputsMore(dryRun: bool, trace: seq<Event>, e: Exec, ev: Event)
    requires After(dryRun, trace) == Some(e) && After(dryRun, trace + [ev]).Some? && Enabled(e, ev)
    ensures Outputs(dryRun, trace + [ev]) == Outputs(dryRun, trace) + if OnStream(ev) then [OutputAt(e.pc)] else []
  {
    assert (trace + [ev])[..|trace|] == trace;
    hide Enabled, Next, OutputAt;
  }

  /** Nor did any result reach a stream. */
  ghost predicate Quiet(before: seq<Event>, now: seq<Event>) {
    Continues(before, now) && Unheard(before, now) == 0
  }

  /** The new results on the streams are all about the order. */
  ghost predicate ResultsFor(order: OrderRequest, before: seq<Output>, now: seq<Output>) {
    before <= now
    && forall i | |before| <= i < |now| :: now[i].result.market == order.market && now[i].result.side == order.side
  }

  lemma ForTheOrder(order: OrderRequest, out: Output, before: seq<Output>)
    requires out.result.market == order.market && out.result.side == order.side
    ensures ResultsFor(order, before, before) && ResultsFor(order, before, before + [out])
    ensures before + [] == before
  {
  }

  /** The last thing done was to give up on the order, after sixty sleeps and sixty looks that showed it open. */
  ghost predicate GivenUp(trace: seq<Event>, uuid: string) {
    && trace != [] && trace[|trace| - 1].CancelTried? && trace[|trace| - 1].uuid == uuid
    && PolledSinceCreated(trace[..|trace| - 1], uuid, 60, 60)
  }

  lemma GivenUpAfterSixtyPolls(dryRun: bool, trace: seq<Event>, uuid: string)
    requires Possible(dryRun, trace) && trace != []
    requires trace[|trace| - 1].CancelTried? && trace[|trace| - 1].uuid == uuid
    ensures GivenUp(trace, uuid)
  {
    hide Possible, PolledSinceCreated;
    EachTimeoutAfterSixtyPolls(dryRun, trace, |trace| - 1);
  }

  /** From the n-th event on, teardown has asked for the cancellation of these orders and no others. */
  ghost predicate AskedFor(trace: seq<Event>, n: nat, uuids: set<string>) {
    && (forall j | n <= j < |trace| && trace[j].TeardownCancelTried? :: trace[j].uuid in uuids)
    && (forall u | u in uuids :: exists j | n <= j < |trace| :: TeardownAsks(trace[j], u))
  }

  lemma AskedMore(trace: seq<Event>, n: nat, uuids: set<string>, u: string, returned: bool)
    requires AskedFor(trace, n, uuids) && n <= |trace|
    ensures AskedFor(trace + [TeardownCancelTried(u, returned)], n, uuids + {u})
  {
    var longer := trace + [TeardownCancelTried(u, returned)];
    forall v | v in uuids ensures exists j | n <= j < |longer| :: TeardownAsks(longer[j], v) {
      var j :| n <= j < |trace| && TeardownAsks(trace[j], v);
      assert TeardownAsks(longer[j], v);
    }
    assert TeardownAsks(longer[|trace|], u);
  }

  lemma AskedNoMore(trace: seq<Event>, n: nat, uuids: set<string>)
    requires AskedFor(trace, n, uuids) && n <= |trace|
    ensures AskedFor(trace + [Closed], n, uuids)
  {
    forall v | v in uuids ensures exists j | n <= j < |trace + [Closed]| :: TeardownAsks((trace + [Closed])[j], v) {
      var j :| n <= j < |trace| && TeardownAsks(trace[j], v);
      assert TeardownAsks((trace + [Closed])[j], v);
    }
  }

  lemma AllLookedAfter(dryRun: bool, trace: seq<Event>)
    requires Possible(dryRun, trace) && After(dryRun, trace).value.phase.Stopped? && DistinctOrders(trace)
    ensures forall i, u | 0 <= i < |trace| && Accepted(trace[i]) == Some(u) ::
              LookedAfter(trace, u) <==> trace[i].CreateReturned? && !CancelFailed(trace, u)
  {
    hide After, DistinctOrders, LookedAfter, CancelFailed;
    forall i, u | 0 <= i < |trace| && Accepted(trace[i]) == Some(u)
      ensures LookedAfter(trace, u) <==> trace[i].CreateReturned? && !CancelFailed(trace, u)
    {
      LookedAfterIff(dryRun, trace, i, u);
    }
  }

  class Agent {
    const dryRun: bool
    const world: World
    var pending: set<string>
    ghost var trace: seq<Event>

    ghost var state: Exec

    /** Fields and logs are those of the machine after the trace. */
    ghost predicate Valid()
      reads this, world
    {
      && After(dryRun, trace) == Some(state)
      && state.dryRun == dryRun
      && state.pending == pending
      && world.created == Placed(dryRun, trace)
      && world.published == Outputs(dryRun, trace)
    }

    constructor (dryRun: bool, world: World)
      requires world.created == [] && world.published == []
      ensures Valid() && trace == [] && this.dryRun == dryRun && this.world == world
    {
      this.dryRun, this.world := dryRun, world;
      pending, trace, state := {}, [], Fresh(dryRun);
    }

    /** Record the reply that has just come; it must be one the machine can make. */
    ghost method Note(ev: Event)
      requires After(dryRun, trace) == Some(state) && state.dryRun == dryRun && Enabled(state, ev)
      modifies this`trace, this`state
      ensures trace == old(trace) + [ev] && state == Next(old(state), ev)
      ensures After(dryRun, trace) == Some(state)
      ensures Takes(trace) == old(Takes(trace)) + if ev.Take? then 1 else 0
      ensures Placed(dryRun, trace) == old(Placed(dryRun, trace))
                + if old(state).pc.Creating? && Cost(CreateCalls, ev) == 1 then [PlacementOf(old(state).pc.order)] else []
      ensures Outputs(dryRun, trace) == old(Outputs(dryRun, trace)) + if OnStream(ev) then [OutputAt(old(state).pc)] else []
      ensures Unheard(old(trace), trace) == if UnheardPublication(ev) then 1 else 0
    {
      hide After, Takes, Placed, Outputs, Tally, Next, Enabled, Cost, OutputAt, PlacementOf, Unheard;
      OneMore(dryRun, trace, ev);
      CountsMore(trace, ev);
      PlacedMore(dryRun, trace, state, ev);
      OutputsMore(dryRun, trace, state, ev);
      trace, state := trace + [ev], Next(state, ev);
    }

    /** A reply that neither takes, places nor publishes anything. */
    ghost method Saw(ev: Event)
      requires After(dryRun, trace) == Some(state) && state.dryRun == dryRun && Enabled(state, ev)
      requires !ev.Take? && !OnStream(ev) && Cost(CreateCalls, ev) == 0
      requires pending == NextPending(state.pending, ev)
      requires world.created == Placed(dryRun, trace) && world.published == Outputs(dryRun, trace)
      modifies this`trace, this`state
      ensures Valid() && Quiet(old(trace), trace) && trace == old(trace) + [ev]
      ensures state.pc == NextPc(old(state), ev) && state.phase == NextPhase(old(state), ev)
    {
      Note(ev);
    }

    /** Place the order and poll it until it is done, cancelled, or sixty seconds have gone by. */
    method PlaceOrder(order: OrderRequest, attempt: nat) returns (r: Reply<Option<OrderResult>>)
      requires Valid() && 1 <= attempt <= MAX_RETRIES && state.pc == Creating(order, attempt)
      modifies this`pending, this`trace, this`state, world
      ensures Valid() && Quiet(old(trace), trace)
      ensures state.phase == old(state.phase) && world.published == old(world.published)
      ensures match r
              case Returned(Some(result)) =>
                state.pc == PublishingFill(order, attempt, result) && result.market == order.market && result.side == order.side
              case Returned(None) => state.pc == AfterTimeout(order, attempt) && exists uuid :: GivenUp(trace, uuid)
              case Raised => state.pc == AfterRaise(order, attempt)
              case CancelledError => state.pc == Ended
    {
      hide GivenUp, After, Takes, Tally, Placed, Outputs, Total, PlacementOf, ResultOf;
      var created, accepted := world.CreateOrder(PlacementOf(order));
      if created.Raised? {
        Note(CreateRaised(accepted));
        return Raised;
      } else if created.CancelledError? {
        Note(TaskCancelled(CreateCall, accepted, false));
        return CancelledError;
      }
      var uuid := created.value;
      pending := pending + {uuid};
      Note(CreateReturned(uuid));
      r := Poll(order, attempt, uuid);
    }

    /** A poll a second; None means that it stayed open for sixty of them. */
    method Poll(order: OrderRequest, attempt: nat, uuid: string) returns (r: Reply<Option<OrderResult>>)
      requires Valid() && 1 <= attempt <= MAX_RETRIES && state.pc == Sleeping(order, attempt, uuid, 0)
      modifies this`pending, this`trace, this`state
      ensures Valid() && Quiet(old(trace), trace) && state.phase == old(state.phase)
      ensures match r
              case Returned(Some(result)) =>
                state.pc == PublishingFill(order, attempt, result) && result.market == order.market && result.side == order.side
              case Returned(None) => state.pc == AfterTimeout(order, attempt) && GivenUp(trace, uuid)
              case Raised => state.pc == AfterRaise(order, attempt)
              case CancelledError => state.pc == Ended
    {
      hide GivenUp, After, Takes, Tally, Placed, Outputs, Total, PlacementOf, ResultOf;
      var elapsed := 0;
      while elapsed < 60
        invariant 0 <= elapsed <= POLLS
        invariant Valid() && Quiet(old(trace), trace) && state.phase == old(state.phase)
        invariant state.pc == if elapsed < POLLS then Sleeping(order, attempt, uuid, elapsed)
                              else TimedOut(order, attempt, uuid)
      {
        r := PollOnce(order, attempt, uuid, elapsed);
        elapsed := elapsed + ORDER_POLL_INTERVAL;
        if r != Returned(None) { return r; }
      }
      r := GiveUpOn(order, attempt, uuid);
    }

    /** One second's sleep and one look at the order; None means it is still open. */
    method PollOnce(order: OrderRequest, attempt: nat, uuid: string, polls: nat) returns (r: Reply<Option<OrderResult>>)
      requires Valid() && polls < POLLS && state.pc == Sleeping(order, attempt, uuid, polls)
      modifies this`pending, this`trace, this`state
      ensures Valid() && Quiet(old(trace), trace) && state.phase == old(state.phase)
      ensures match r
              case Returned(Some(result)) =>
                state.pc == PublishingFill(order, attempt, result) && result.market == order.market && result.side == order.side
              case Returned(None) =>
                state.pc == if polls + 1 < POLLS then Sleeping(order, attempt, uuid, polls + 1)
                            else TimedOut(order, attempt, uuid)
              case Raised => state.pc == AfterRaise(order, attempt)
              case CancelledError => state.pc == Ended
    {
      hide After, Takes, Tally, Placed, Outputs, Total, PlacementOf, ResultOf;
      var slept: Reply<Nothing> := world.Await();
      if slept.CancelledError? {
        Saw(TaskCancelled(SleepCall(ORDER_POLL_INTERVAL), None, false));
        return CancelledError;
      }
      Saw(PollSlept);
      r := Look(order, attempt, uuid, polls + 1);
    }

    /** One look at the order: the pending set forgets it once it has ended. */
    method Look(order: OrderRequest, attempt: nat, uuid: string, polls: nat) returns (r: Reply<Option<OrderResult>>)
      requires Valid() && polls <= POLLS && state.pc == Polling(order, attempt, uuid, polls)
      modifies this`pending, this`trace, this`state
      ensures Valid() && Quiet(old(trace), trace) && state.phase == old(state.phase)
      ensures match r
              case Returned(Some(result)) =>
                state.pc == PublishingFill(order, attempt, result) && result.market == order.market && result.side == order.side
              case Returned(None) =>
                state.pc == if polls < POLLS then Sleeping(order, attempt, uuid, polls) else TimedOut(order, attempt, uuid)
              case Raised => state.pc == AfterRaise(order, attempt)
              case CancelledError => state.pc == Ended
    {
      hide After, Takes, Tally, Placed, Outputs, Total, PlacementOf;
      var status: Reply<OrderView> := world.Await();
      if status.Raised? {
        Saw(GetRaised);
        return Raised;
      } else if status.CancelledError? {
        Saw(TaskCancelled(GetCall, None, false));
        return CancelledError;
      }
      if status.value.state == Done || status.value.state == Cancel {
        pending := pending - {uuid};
        Saw(GetReturned(uuid, status.value));
        return Returned(Some(ResultOf(order, uuid, status.value)));
      }
      Saw(GetReturned(uuid, status.value));
      return Returned(None);
    }

    /** The timeout: ask for cancellation, and forget the order whether or not that succeeded. */
    method GiveUpOn(order: OrderRequest, attempt: nat, uuid: string) returns (r: Reply<Option<OrderResult>>)
      requires Valid() && state.pc == TimedOut(order, attempt, uuid)
      modifies this`pending, this`trace, this`state
      ensures Valid() && Quiet(old(trace), trace) && state.phase == old(state.phase)
      ensures || (r == Returned(None) && state.pc == AfterTimeout(order, attempt) && GivenUp(trace, uuid))
              || (r.CancelledError? && state.pc == Ended)
    {
      hide After, Takes, Tally, Placed, Outputs, Total, PlacementOf, ResultOf;
      var cancelled := world.CancelOrder(uuid, true);
      if cancelled.CancelledError? {
        Saw(TaskCancelled(CancelCall, None, false));
        return CancelledError;
      }
      pending := pending - {uuid};
      Saw(CancelTried(uuid, attempt < MAX_RETRIES, cancelled.Returned?));
      GivenUpAfterSixtyPolls(dryRun, trace, uuid);
      return Returned(None);
    }

    /** Handle one approved order. Its results on the streams are the one whose publication returned, unless the last
        one raised or the task was cancelled, and those that were applied unheard; and it costs no more than one
        order may. */
    method ExecuteOrder(order: OrderRequest) returns (out: Outcome)
      requires Valid() && state.pc == Idle
      modifies this, world
      ensures Valid() && old(trace) < trace && trace[|old(trace)|] == Take(order)
      ensures Takes(trace) == old(Takes(trace)) + 1
      ensures state.pc == if out.TaskEnded? then Ended else Idle
      ensures ResultsFor(order, old(world.published), world.published)
      ensures |world.published| == old(|world.published|) + Unheard(old(trace), trace) + if out.Completed? then 1 else 0
      ensures dryRun ==> world.created == old(world.created)
      ensures state.phase == old(state.phase)
      ensures forall r :: Total(r, trace) <= old(Total(r, trace)) + PerOrder(r)
    {
      hide After, Takes, Tally, Placed, Outputs, Total, PlacementOf, ResultOf;
      ghost var before := trace;
      Note(Take(order));
      if dryRun {
        out := PublishAs(Output(OrderFilled, SyntheticFill(order)));
      } else {
        out := Attempts(order);
      }
      assert trace[..|before|] == before;
      forall r ensures Total(r, trace) <= Total(r, before) + PerOrder(r) {
        OneOrderBound(r, dryRun, trace, |before|);
      }
    }

    /** A publication that nothing retries: of a synthetic fill or of a failure. */
    method PublishAs(o: Output) returns (out: Outcome)
      requires Valid() && Escapes(state.pc) && o == OutputAt(state.pc)
      modifies this`trace, this`state, world`published
      ensures Valid() && Continues(old(trace), trace)
      ensures state.phase == old(state.phase)
      ensures state.pc == if out.TaskEnded? then Ended else Idle
      ensures |world.published| == old(|world.published|) + Unheard(old(trace), trace) + if out.Completed? then 1 else 0
      ensures world.published == old(world.published) || world.published == old(world.published) + [o]
    {
      hide After, Takes, Tally, Placed, Outputs, Total, PlacementOf, ResultOf;
      var published, applied := world.Publish(o);
      match published {
        case Returned(_) => Note(Published); out := Completed;
        case Raised => Note(PublishRaised(true, applied)); out := Escaped;
        case CancelledError => Note(TaskCancelled(PublishCall, None, applied)); out := TaskEnded;
      }
    }

    method Attempts(order: OrderRequest) returns (out: Outcome)
      requires Valid() && state.pc == Creating(order, 1)
      modifies this`pending, this`trace, this`state, world
      ensures Valid() && Continues(old(trace), trace) && state.phase == old(state.phase)
      ensures state.pc == if out.TaskEnded? then Ended else Idle
      ensures ResultsFor(order, old(world.published), world.published)
      ensures |world.published| == old(|world.published|) + Unheard(old(trace), trace) + if out.Completed? then 1 else 0
    {
      hide After, Takes, Tally, Placed, Outputs, Total, PlacementOf, ResultOf;
      var attempt := 1;
      while attempt <= MAX_RETRIES
        invariant 1 <= attempt <= MAX_RETRIES + 1
        invariant Valid() && Continues(old(trace), trace) && state.phase == old(state.phase)
        invariant ResultsFor(order, old(world.published), world.published)
        invariant |world.published| == old(|world.published|) + Unheard(old(trace), trace)
        invariant state.pc == if attempt <= MAX_RETRIES then Creating(order, attempt) else PublishingFailure(order)
      {
        var tried := Attempt(order, attempt);
        if tried == Returned(true) { return Completed; }
        if tried.CancelledError? { return TaskEnded; }
        if tried.Raised? && attempt < MAX_RETRIES {
          var cancelled := BackOff(order, attempt);
          if cancelled { return TaskEnded; }
        }
        attempt := attempt + 1;
      }
      out := PublishAs(Output(OrderFailed, FailureOf(order)));
    }

    method BackOff(order: OrderRequest, attempt: nat) returns (cancelled: bool)
      requires Valid() && state.pc == BackingOff(order, attempt)
      modifies this`trace, this`state
      ensures Valid() && Quiet(old(trace), trace) && state.phase == old(state.phase)
      ensures state.pc == if cancelled then Ended else Creating(order, attempt + 1)
    {
      hide After, Takes, Tally, Placed, Outputs, Total;
      var slept: Reply<Nothing> := world.Await();
      if slept.CancelledError? {
        Saw(TaskCancelled(SleepCall(BackoffSeconds(attempt)), None, false));
        return true;
      }
      Saw(BackoffSlept(BackoffSeconds(attempt)));
      return false;
    }

    /** The body of the try: true once a result has been published, false after a timeout. */
    method Attempt(order: OrderRequest, attempt: nat) returns (r: Reply<bool>)
      requires Valid() && 1 <= attempt <= MAX_RETRIES && state.pc == Creating(order, attempt)
      modifies this`pending, this`trace, this`state, world
      ensures Valid() && Continues(old(trace), trace) && state.phase == old(state.phase)
      ensures match r
              case Returned(true) => state.pc == Idle
              case Returned(false) => state.pc == AfterTimeout(order, attempt)
              case Raised => state.pc == AfterRaise(order, attempt)
              case CancelledError => state.pc == Ended
      ensures ResultsFor(order, old(world.published), world.published)
      ensures |world.published|
           == old(|world.published|) + Unheard(old(trace), trace) + if r == Returned(true) then 1 else 0
    {
      hide After, Takes, Tally, Placed, Outputs, Total, PlacementOf, ResultOf;
      var placed := PlaceOrder(order, attempt);
      match placed {
        case Raised => return Raised;
        case CancelledError => return CancelledError;
        case Returned(None) => return Returned(false);
        case Returned(Some(result)) =>
          r := PublishFill(order, attempt, result);
      }
    }

    /** The publication of a fill; when it raises, the attempt counts as failed. */
    method PublishFill(order: OrderRequest, attempt: nat, result: OrderResult) returns (r: Reply<bool>)
      requires Valid() && state.pc == PublishingFill(order, attempt, result)
      requires result.market == order.market && result.side == order.side
      modifies this`trace, this`state, world`published
      ensures Valid() && Continues(old(trace), trace) && state.phase == old(state.phase)
      ensures match r
              case Returned(done) => done && state.pc == Idle
              case Raised => state.pc == AfterRaise(order, attempt)
              case CancelledError => state.pc == Ended
      ensures ResultsFor(order, old(world.published), world.published)
      ensures |world.published|
           == old(|world.published|) + Unheard(old(trace), trace) + if r == Returned(true) then 1 else 0
    {
      hide After, Takes, Tally, Placed, Outputs, Total, WellFormed;
      ForTheOrder(order, Output(OrderFilled, result), world.published);
      hide ResultsFor;
      var published, applied := world.Publish(Output(OrderFilled, result));
      match published {
        case Returned(_) =>
          Note(Published);
          return Returned(true);
        case Raised =>
          Note(PublishRaised(false, applied));
          return Raised;
        case CancelledError =>
          Note(TaskCancelled(PublishCall, None, applied));
          return CancelledError;
      }
    }

    method AskToCancel(uuid: string) returns (ghost returned: bool)
      requires Valid() && state.phase.Closing? && uuid in state.phase.todo
      modifies this`trace, this`state
      ensures Valid() && trace == old(trace) + [TeardownCancelTried(uuid, returned)]
      ensures state.phase == Closing(old(state.phase.todo) - {uuid})
    {
      hide After, Takes, Tally, Placed, Outputs, Total, PlacementOf, ResultOf;
      var cancelled := world.CancelOrder(uuid, false);
      returned := cancelled.Returned?;
      Saw(TeardownCancelTried(uuid, returned));
    }

    /** Cancellation is asked for everything still pending and for nothing else, whatever the answers. */
    method Teardown()
      requires Valid() && state.phase == Closing(pending)
      modifies this`trace, this`state
      ensures Valid() && old(trace) <= trace && state.phase.Stopped?
      ensures AskedFor(trace, |old(trace)|, pending)
    {
      assert AskedFor(trace, |trace|, {});
      hide After, Takes, Tally, Placed, Outputs, Total, PlacementOf, ResultOf, AskedFor;
      ghost var asked: set<string> := {};
      var todo := pending;
      while todo != {}
        invariant Valid() && old(trace) <= trace && state.phase == Closing(todo)
        invariant AskedFor(trace, |old(trace)|, asked) && asked + todo == pending
        decreases todo
      {
        var uuid :| uuid in todo;
        ghost var before := trace;
        ghost var returned := AskToCancel(uuid);
        AskedMore(before, |old(trace)|, asked, uuid, returned);
        asked, todo := asked + {uuid}, todo - {uuid};
      }
      AskedNoMore(trace, |old(trace)|, asked);
      assert asked == pending;
      Saw(Closed);
    }

    /** Shutdown as the base agent does it: the consuming task is cancelled and awaited before teardown. Every order that
        the exchange ever accepted is then finished or cancelled for certain exactly when its create call returned and no
        call to cancel it raised. */
    method Stop()
      requires Valid() && state.phase.Running? && (state.pc == Idle || state.pc == Ended)
      modifies this
      ensures Valid() && state.phase.Stopped? && old(trace) <= trace && pending == old(pending)
      ensures exists n | |old(trace)| <= n <= |trace| :: AskedFor(trace, n, pending)
      ensures DistinctOrders(trace) ==>
                forall i, u | 0 <= i < |trace| && Accepted(trace[i]) == Some(u) ::
                  LookedAfter(trace, u) <==> trace[i].CreateReturned? && !CancelFailed(trace, u)
    {
      hide After, Takes, Tally, Placed, Outputs, Total, PlacementOf, ResultOf, DistinctOrders, Accepted;
      hide LookedAfter, CancelFailed, AskedFor;
      Saw(ShutdownBegun);
      if state.pc == Idle { Saw(TaskCancelled(Reading, None, false)); }
      Saw(TasksFinished);
      Teardown();
      if DistinctOrders(trace) { AllLookedAfter(dryRun, trace); }
    }
  }
}
