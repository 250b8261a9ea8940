/** The executor as a machine that moves at every await: what each reply of the exchange, the bus or the
    event loop makes it do next. */
module ExecutorMachine {
  import opened Prelude
  import opened Messages

  const MAX_RETRIES := 3

  const RETRY_DELAY := 2

  const ORDER_POLL_INTERVAL := 1

  /** Polls made before an unfilled order times out: 60 seconds at one poll a second. */
  const POLLS := 60

  datatype OrdType = PriceBuy | MarketSell | LimitOrder

  /** The arguments of a create_order call. */
  datatype Placement = Placement(market: string, side: OrderSide, ordType: OrdType, volume: Option<real>, price: Option<real>)

  function PlacementOf(o: OrderRequest): Placement {
    Placement(o.market, o.side,
              if o.orderType == Limit then LimitOrder else if o.side == Bid then PriceBuy else MarketSell,
              o.volume, OrElse(o.price, o.amountKrw))
  }

  datatype OrderState = Done | Cancel | Other

  datatype OrderView = OrderView(state: OrderState, executedVolume: Option<real>, price: Option<real>, paidFee: Option<real>)

  function ResultOf(o: OrderRequest, uuid: string, v: OrderView): OrderResult {
    OrderResult(uuid, o.market, o.side, if v.state == Done then Filled else Cancelled,
                OrZero(v.executedVolume), OrZero(v.price), OrZero(v.paidFee))
  }

  function SyntheticFill(o: OrderRequest): OrderResult {
    OrderResult("dry-run", o.market, o.side, Filled, OrZero(o.volume), OrZero(o.price), 0.0)
  }

  function FailureOf(o: OrderRequest): OrderResult {
    OrderResult("", o.market, o.side, Failed, 0.0, 0.0, 0.0)
  }

  /** Where the handler of an approved order is waiting. */
  datatype Pc =
    | Idle
    | Creating(order: OrderRequest, attempt: nat)
    | Sleeping(order: OrderRequest, attempt: nat, uuid: string, polls: nat)
    | Polling(order: OrderRequest, attempt: nat, uuid: string, polls: nat)
    | TimedOut(order: OrderRequest, attempt: nat, uuid: string)
    | PublishingFill(order: OrderRequest, attempt: nat, result: OrderResult)
    | PublishingDryRun(order: OrderRequest)
    | BackingOff(order: OrderRequest, attempt: nat)
    | PublishingFailure(order: OrderRequest)
    | Ended

  /** Lifecycle: running, asked to stop, cancelling what is left, gone. */
  datatype Phase = Running | Stopping | Closing(todo: set<string>) | Stopped

  datatype Exec = Exec(dryRun: bool, pc: Pc, pending: set<string>, phase: Phase)

  function BackoffSeconds(attempt: nat): nat {
    RETRY_DELAY * attempt
  }

  /** What a cancelled task was waiting for. */
  datatype Await = Reading | CreateCall | GetCall | CancelCall | SleepCall(seconds: nat) | PublishCall

  function AwaitOf(pc: Pc): Await {
    match pc
    case Idle => Reading
    case Creating(_, _) => CreateCall
    case Sleeping(_, _, _, _) => SleepCall(ORDER_POLL_INTERVAL)
    case Polling(_, _, _, _) => GetCall
    case TimedOut(_, _, _) => CancelCall
    case BackingOff(_, a) => SleepCall(BackoffSeconds(a))
    case _ => PublishCall
  }

  /** A call whose reply does not arrive may have had its effect all the same: a create call that raises or is
      cancelled may have been accepted by the exchange, a publication may have been applied. A cancellation
      records whether the call returned. */
  datatype Event =
    | Take(order: OrderRequest)
    | CreateReturned(uuid: string)
    | CreateRaised(accepted: Option<string>)
    | PollSlept
    | GetReturned(uuid: string, view: OrderView)
    | GetRaised
    | CancelTried(uuid: string, again: bool, returned: bool)
    | Published
    | PublishRaised(escapes: bool, applied: bool)
    | BackoffSlept(seconds: nat)
    | TaskCancelled(during: Await, accepted: Option<string>, applied: bool)
    | ShutdownBegun
    | TasksFinished
    | TeardownCancelTried(uuid: string, returned: bool)
    | Closed

  predicate Escapes(pc: Pc) {
    pc.PublishingDryRun? || pc.PublishingFailure?
  }

  predicate Enabled(e: Exec, ev: Event) {
    match ev
    case Take(_) => e.pc.Idle?
    case CreateReturned(_) => e.pc.Creating?
    case CreateRaised(_) => e.pc.Creating?
    case PollSlept => e.pc.Sleeping?
    case GetReturned(u, _) => e.pc.Polling? && e.pc.uuid == u
    case GetRaised => e.pc.Polling?
    case CancelTried(u, again, _) => e.pc.TimedOut? && e.pc.uuid == u && again == (e.pc.attempt < MAX_RETRIES)
    case Published => e.pc.PublishingFill? || Escapes(e.pc)
    case PublishRaised(escapes, _) => (e.pc.PublishingFill? || Escapes(e.pc)) && escapes == Escapes(e.pc)
    case BackoffSlept(s) => e.pc.BackingOff? && s == BackoffSeconds(e.pc.attempt)
    case TaskCancelled(during, accepted, applied) =>
      && !e.pc.Ended? && during == AwaitOf(e.pc)
      && (accepted.Some? ==> e.pc.Creating?) && (applied ==> during.PublishCall?)
    case ShutdownBegun => e.phase.Running?
    case TasksFinished => e.phase.Stopping? && e.pc.Ended?
    case TeardownCancelTried(u, _) => e.phase.Closing? && u in e.phase.todo
    case Closed => e.phase.Closing? && e.phase.todo == {}
  }

  /** An exception inside an attempt: back off, or give up after the last one. */
  function AfterRaise(o: OrderRequest, attempt: nat): Pc {
    if attempt < MAX_RETRIES then BackingOff(o, attempt) else PublishingFailure(o)
  }

  /** A timeout inside an attempt: try again at once, or give up after the last one. */
  function AfterTimeout(o: OrderRequest, attempt: nat): Pc {
    if attempt < MAX_RETRIES then Creating(o, attempt + 1) else PublishingFailure(o)
  }

  function AfterView(pc: Pc, v: OrderView): Pc
    requires pc.Polling?
  {
    if v.state != Other then PublishingFill(pc.order, pc.attempt, ResultOf(pc.order, pc.uuid, v))
    else if pc.polls < POLLS then Sleeping(pc.order, pc.attempt, pc.uuid, pc.polls)
    else TimedOut(pc.order, pc.attempt, pc.uuid)
  }

  function NextPc(e: Exec, ev: Event): Pc
    requires Enabled(e, ev)
  {
    match ev
    case Take(o) => if e.dryRun then PublishingDryRun(o) else Creating(o, 1)
    case CreateReturned(u) => Sleeping(e.pc.order, e.pc.attempt, u, 0)
    case CreateRaised(_) => AfterRaise(e.pc.order, e.pc.attempt)
    case PollSlept => Polling(e.pc.order, e.pc.attempt, e.pc.uuid, e.pc.polls + 1)
    case GetReturned(_, v) => AfterView(e.pc, v)
    case GetRaised => AfterRaise(e.pc.order, e.pc.attempt)
    case CancelTried(_, _, _) => AfterTimeout(e.pc.order, e.pc.attempt)
    case Published => Idle
    case PublishRaised(escapes, _) => if escapes then Idle else AfterRaise(e.pc.order, e.pc.attempt)
    case BackoffSlept(_) => Creating(e.pc.order, e.pc.attempt + 1)
    case TaskCancelled(_, _, _) => Ended
    case _ => e.pc
  }

  function NextPending(pending: set<string>, ev: Event): set<string> {
    match ev
    case CreateReturned(u) => pending + {u}
    case GetReturned(u, v) => if v.state != Other then pending - {u} else pending
    case CancelTried(u, _, _) => pending - {u}
    case _ => pending
  }

  function NextPhase(e: Exec, ev: Event): Phase
    requires Enabled(e, ev)
  {
    match ev
    case ShutdownBegun => Stopping
    case TasksFinished => Closing(e.pending)
    case TeardownCancelTried(u, _) => Closing(e.phase.todo - {u})
    case Closed => Stopped
    case _ => e.phase
  }

  function Next(e: Exec, ev: Event): Exec
    requires Enabled(e, ev)
  {
    Exec(e.dryRun, NextPc(e, ev), NextPending(e.pending, ev), NextPhase(e, ev))
  }

  function Fresh(dryRun: bool): Exec {
    Exec(dryRun, Idle, {}, Running)
  }

  /** The state a list of events leads to, if each is possible when it comes. */
  function After(dryRun: bool, events: seq<Event>): Option<Exec> {
    if events == [] then Some(Fresh(dryRun))
    else
      var before := After(dryRun, events[..|events| - 1]);
      if before.Some? && Enabled(before.value, events[|events| - 1])
      then Some(Next(before.value, events[|events| - 1]))
      else None
  }

  predicate Possible(dryRun: bool, events: seq<Event>) {
    After(dryRun, events).Some?
  }

  lemma OneMore(dryRun: bool, events: seq<Event>, ev: Event)
    requires Possible(dryRun, events) && Enabled(After(dryRun, events).value, ev)
    ensures After(dryRun, events + [ev]) == Some(Next(After(dryRun, events).value, ev))
  {
    assert (events + [ev])[..|events|] == events;
  }

  lemma Earlier(dryRun: bool, events: seq<Event>)
    requires Possible(dryRun, events) && events != []
    ensures Possible(dryRun, events[..|events| - 1])
    ensures Enabled(After(dryRun, events[..|events| - 1]).value, events[|events| - 1])
    ensures After(dryRun, events) == Some(Next(After(dryRun, events[..|events| - 1]).value, events[|events| - 1]))
  {
  }

  predicate WellFormed(e: Exec) {
    && (match e.pc
        case Creating(_, a) => 1 <= a <= MAX_RETRIES
        case Sleeping(_, a, u, p) => 1 <= a <= MAX_RETRIES && p < POLLS && u in e.pending
        case Polling(_, a, u, p) => 1 <= a <= MAX_RETRIES && 1 <= p <= POLLS && u in e.pending
        case TimedOut(_, a, u) => 1 <= a <= MAX_RETRIES && u in e.pending
        case PublishingFill(_, a, _) => 1 <= a <= MAX_RETRIES
        case BackingOff(_, a) => 1 <= a < MAX_RETRIES
        case PublishingDryRun(_) => e.dryRun
        case _ => true)
    && (e.dryRun ==> e.pending == {} && (e.pc.Idle? || e.pc.PublishingDryRun? || e.pc.Ended?))
    && (e.phase.Closing? || e.phase.Stopped? ==> e.pc.Ended?)
    && (e.phase.Closing? ==> e.phase.todo <= e.pending)
  }

  lemma {:induction false} AlwaysWellFormed(dryRun: bool, events: seq<Event>)
    requires Possible(dryRun, events)
    ensures WellFormed(After(dryRun, events).value) && After(dryRun, events).value.dryRun == dryRun
  {
    if events != [] { AlwaysWellFormed(dryRun, events[..|events| - 1]); }
  }

  // ---- bounded work

  datatype Resource = CreateCalls | GetCalls | CancelCalls | PublishCalls | SleepSeconds | Steps

  /** Calls made and sleep asked for, whether or not the call or the sleep was seen to its end. */
  function Cost(r: Resource, ev: Event): nat {
    match r
    case CreateCalls =>
      if ev.CreateReturned? || ev.CreateRaised? || (ev.TaskCancelled? && ev.during.CreateCall?) then 1 else 0
    case GetCalls =>
      if ev.GetReturned? || ev.GetRaised? || (ev.TaskCancelled? && ev.during.GetCall?) then 1 else 0
    case CancelCalls =>
      if ev.CancelTried? || (ev.TaskCancelled? && ev.during.CancelCall?) then 1 else 0
    case PublishCalls =>
      if ev.Published? || ev.PublishRaised? || (ev.TaskCancelled? && ev.during.PublishCall?) then 1 else 0
    case SleepSeconds =>
      if ev.PollSlept? then ORDER_POLL_INTERVAL
      else if ev.BackoffSlept? then ev.seconds
      else if ev.TaskCancelled? && ev.during.SleepCall? then ev.during.seconds
      else 0
    case Steps =>
      if ev.Take? || ev.ShutdownBegun? || ev.TasksFinished? || ev.TeardownCancelTried? || ev.Closed?
         || (ev.TaskCancelled? && ev.during.Reading?) then 0 else 1
  }

  function Total(r: Resource, events: seq<Event>): nat {
    if events == [] then 0 else Total(r, events[..|events| - 1]) + Cost(r, events[|events| - 1])
  }

  function Takes(events: seq<Event>): nat {
    if events == [] then 0
    else Takes(events[..|events| - 1]) + if events[|events| - 1].Take? then 1 else 0
  }

  function PerOrder(r: Resource): nat {
    match r
    case CreateCalls => 3
    case GetCalls => 180
    case CancelCalls => 3
    case PublishCalls => 4
    case SleepSeconds => 186
    case Steps => 369
  }

  /** What the attempts after this one may still cost. */
  function LaterAttempts(r: Resource, attempt: nat): nat {
    if attempt >= 3 then 0
    else
      match r
      case CreateCalls => 3 - attempt
      case GetCalls => 180 - 60 * attempt
      case CancelCalls => 3 - attempt
      case PublishCalls => 3 - attempt
      case SleepSeconds => if attempt == 1 then 124 else 60
      case Steps => if attempt == 1 then 245 else 122
  }

  /** What may still follow an exception in an attempt: a back-off and the attempts after it. */
  function AfterAttempt(r: Resource, attempt: nat): nat {
    LaterAttempts(r, attempt)
      + if attempt >= 3 then 0 else if r == SleepSeconds then BackoffSeconds(attempt) else if r == Steps then 1 else 0
  }

  /** What polling costs from a point where p polls have been made, up to a cancellation or a publication. */
  function PollsLeft(r: Resource, p: nat): int {
    match r
    case CreateCalls => 0
    case GetCalls => 60 - p
    case CancelCalls => 1
    case PublishCalls => 1
    case SleepSeconds => 60 - p
    case Steps => 121 - 2 * p
  }

  /** The most that handling can still cost from a given point. */
  function Left(r: Resource, pc: Pc): int {
    var onePublish := if r == Steps || r == PublishCalls then 1 else 0;
    match pc
    case Idle => 0
    case Ended => 0
    case Creating(_, a) =>
      PollsLeft(r, 0) + (if r == CreateCalls || r == Steps then 1 else 0) + AfterAttempt(r, a) + onePublish
    case Sleeping(_, a, _, p) => PollsLeft(r, p) + AfterAttempt(r, a) + onePublish
    case Polling(_, a, _, p) =>
      PollsLeft(r, p) + (if r == GetCalls || r == Steps then 1 else 0) + AfterAttempt(r, a) + onePublish
    case TimedOut(_, a, _) =>
      (if r == CancelCalls || r == Steps then 1 else 0) + LaterAttempts(r, a) + onePublish
    case PublishingFill(_, a, _) => onePublish + AfterAttempt(r, a) + onePublish
    case BackingOff(_, a) => AfterAttempt(r, a) + onePublish
    case _ => onePublish
  }

  lemma CreatesPaidFor(e: Exec, ev: Event)
    requires WellFormed(e) && Enabled(e, ev)
    ensures !ev.Take? ==> Cost(CreateCalls, ev) + Left(CreateCalls, NextPc(e, ev)) <= Left(CreateCalls, e.pc)
    ensures ev.Take? ==> Cost(CreateCalls, ev) == Left(CreateCalls, e.pc) == 0
    ensures ev.Take? ==> Left(CreateCalls, NextPc(e, ev)) <= PerOrder(CreateCalls)
  {
  }

  lemma GetsPaidFor(e: Exec, ev: Event)
    requires WellFormed(e) && Enabled(e, ev)
    ensures !ev.Take? ==> Cost(GetCalls, ev) + Left(GetCalls, NextPc(e, ev)) <= Left(GetCalls, e.pc)
    ensures ev.Take? ==> Cost(GetCalls, ev) == Left(GetCalls, e.pc) == 0
    ensures ev.Take? ==> Left(GetCalls, NextPc(e, ev)) <= PerOrder(GetCalls)
  {
  }

  lemma CancelsPaidFor(e: Exec, ev: Event)
    requires WellFormed(e) && Enabled(e, ev)
    ensures !ev.Take? ==> Cost(CancelCalls, ev) + Left(CancelCalls, NextPc(e, ev)) <= Left(CancelCalls, e.pc)
    ensures ev.Take? ==> Cost(CancelCalls, ev) == Left(CancelCalls, e.pc) == 0
    ensures ev.Take? ==> Left(CancelCalls, NextPc(e, ev)) <= PerOrder(CancelCalls)
  {
  }

  lemma PublishesPaidFor(e: Exec, ev: Event)
    requires WellFormed(e) && Enabled(e, ev)
    ensures !ev.Take? ==> Cost(PublishCalls, ev) + Left(PublishCalls, NextPc(e, ev)) <= Left(PublishCalls, e.pc)
    ensures ev.Take? ==> Cost(PublishCalls, ev) == Left(PublishCalls, e.pc) == 0
    ensures ev.Take? ==> Left(PublishCalls, NextPc(e, ev)) <= PerOrder(PublishCalls)
  {
  }

  lemma BackoffValues()
    ensures BackoffSeconds(1) == 2 && BackoffSeconds(2) == 4
  {
  }

  lemma SleepPaidFor(e: Exec, ev: Event)
    requires WellFormed(e) && Enabled(e, ev)
    ensures !ev.Take? ==> Cost(SleepSeconds, ev) + Left(SleepSeconds, NextPc(e, ev)) <= Left(SleepSeconds, e.pc)
    ensures ev.Take? ==> Cost(SleepSeconds, ev) == Left(SleepSeconds, e.pc) == 0
    ensures ev.Take? ==> Left(SleepSeconds, NextPc(e, ev)) <= PerOrder(SleepSeconds)
  {
    BackoffValues();
    hide BackoffSeconds;
  }

  lemma StepsPaidFor(e: Exec, ev: Event)
    requires WellFormed(e) && Enabled(e, ev)
    ensures !ev.Take? ==> Cost(Steps, ev) + Left(Steps, NextPc(e, ev)) <= Left(Steps, e.pc)
    ensures ev.Take? ==> Cost(Steps, ev) == Left(Steps, e.pc) == 0 && Left(Steps, NextPc(e, ev)) <= PerOrder(Steps)
  {
  }

  lemma StepPaidFor(r: Resource, e: Exec, ev: Event)
    requires WellFormed(e) && Enabled(e, ev)
    ensures !ev.Take? ==> Cost(r, ev) + Left(r, NextPc(e, ev)) <= Left(r, e.pc)
    ensures ev.Take? ==> Cost(r, ev) == Left(r, e.pc) == 0 && Left(r, NextPc(e, ev)) <= PerOrder(r)
  {
    match r {
      case CreateCalls => CreatesPaidFor(e, ev);
      case GetCalls => GetsPaidFor(e, ev);
      case CancelCalls => CancelsPaidFor(e, ev);
      case PublishCalls => PublishesPaidFor(e, ev);
      case SleepSeconds => SleepPaidFor(e, ev);
      case Steps => StepsPaidFor(e, ev);
    }
  }

  lemma LeftNonnegative(r: Resource, e: Exec)
    requires WellFormed(e)
    ensures Left(r, e.pc) >= 0
  {
  }

  lemma OneOrderMore(n: nat, each: nat)
    ensures (n + 1) * each == n * each + each
  {
  }

  lemma LastEvent(r: Resource, dryRun: bool, events: seq<Event>)
    requires Possible(dryRun, events) && events != []
    ensures var init, ev := events[..|events| - 1], events[|events| - 1];
            && Possible(dryRun, init) && Enabled(After(dryRun, init).value, ev)
            && After(dryRun, init).Some? && After(dryRun, events).Some?
            && After(dryRun, events).value.pc == NextPc(After(dryRun, init).value, ev)
            && Total(r, events) == Total(r, init) + Cost(r, ev)
            && Takes(events) == Takes(init) + if ev.Take? then 1 else 0
  {
    Earlier(dryRun, events);
    hide Enabled, NextPc, Cost;
  }

  /** From any point of a run on, work done and still possible is paid for by the orders taken since. */
  lemma {:induction false} WorkPaidFor(r: Resource, dryRun: bool, events: seq<Event>, k: nat)
    requires Possible(dryRun, events) && k <= |events|
    ensures Possible(dryRun, events[..k]) && Takes(events[..k]) <= Takes(events)
    ensures Total(r, events) + Left(r, After(dryRun, events).value.pc)
         <= Total(r, events[..k]) + Left(r, After(dryRun, events[..k]).value.pc)
            + (Takes(events) - Takes(events[..k])) * PerOrder(r)
  {
    hide *;
    if k == |events| {
      assert events[..k] == events;
    } else {
      var init, ev := events[..|events| - 1], events[|events| - 1];
      assert init[..k] == events[..k];
      LastEvent(r, dryRun, events);
      WorkPaidFor(r, dryRun, init, k);
      AlwaysWellFormed(dryRun, init);
      StepPaidFor(r, After(dryRun, init).value, ev);
      OneOrderMore(Takes(init) - Takes(events[..k]), PerOrder(r));
    }
  }

  /** One order, from the moment it is taken by an idle executor. */
  lemma OneOrderBound(r: Resource, dryRun: bool, events: seq<Event>, k: nat)
    requires Possible(dryRun, events) && k <= |events|
    requires Possible(dryRun, events[..k]) && After(dryRun, events[..k]).value.pc.Idle?
    requires Takes(events) == Takes(events[..k]) + 1
    ensures Total(r, events) <= Total(r, events[..k]) + PerOrder(r)
  {
    WorkPaidFor(r, dryRun, events, k);
    AlwaysWellFormed(dryRun, events);
    LeftNonnegative(r, After(dryRun, events).value);
    assert 1 * PerOrder(r) == PerOrder(r);
    hide Left, PerOrder;
  }

  lemma WorkPerOrder(r: Resource, dryRun: bool, events: seq<Event>)
    requires Possible(dryRun, events)
    ensures Total(r, events) <= Takes(events) * PerOrder(r)
  {
    assert events[..0] == [] && Takes([]) == 0 && Total(r, []) == 0;
    assert After(dryRun, []).value.pc == Idle && Left(r, Idle) == 0;
    hide *;
    WorkPaidFor(r, dryRun, events, 0);
    AlwaysWellFormed(dryRun, events);
    LeftNonnegative(r, After(dryRun, events).value);
  }

  /** For every behaviour of the exchange, n approved orders cost at most n times: 3 create, 180 get,
      3 cancel and 4 publish calls, 186 seconds of sleep; and 369 steps, so that no handling goes on for ever. */
  lemma WorkBound(dryRun: bool, events: seq<Event>)
    requires Possible(dryRun, events)
    ensures Total(CreateCalls, events) <= 3 * Takes(events)
    ensures Total(GetCalls, events) <= 180 * Takes(events)
    ensures Total(CancelCalls, events) <= 3 * Takes(events)
    ensures Total(PublishCalls, events) <= 4 * Takes(events)
    ensures Total(SleepSeconds, events) <= 186 * Takes(events)
    ensures Total(Steps, events) <= 369 * Takes(events)
  {
    hide Possible, Total, Takes;
    forall r: Resource ensures Total(r, events) <= Takes(events) * PerOrder(r) {
      WorkPerOrder(r, dryRun, events);
    }
    assert PerOrder(CreateCalls) == 3;
    assert PerOrder(GetCalls) == 180;
    assert PerOrder(CancelCalls) == 3;
    assert PerOrder(PublishCalls) == 4;
    assert PerOrder(SleepSeconds) == 186;
    assert PerOrder(Steps) == 369;
  }

  /** In dry-run mode the exchange is never asked for anything. */
  lemma {:induction false} DryRunCallsNothing(events: seq<Event>)
    requires Possible(true, events)
    ensures Total(CreateCalls, events) == Total(GetCalls, events) == Total(CancelCalls, events) == 0
  {
    if events != [] {
      var init := events[..|events| - 1];
      DryRunCallsNothing(init);
      AlwaysWellFormed(true, init);
    }
  }

  /** No handler is ever stuck: while it is busy, some reply moves it on. */
  lemma BusyMovesOn(e: Exec)
    requires WellFormed(e) && !e.pc.Idle? && !e.pc.Ended?
    ensures exists ev' :: Enabled(e, ev') && Cost(Steps, ev') == 1 && !ev'.TaskCancelled?
  {
    var ev' := match e.pc
      case Creating(_, _) => CreateRaised(None)
      case Sleeping(_, _, _, _) => PollSlept
      case Polling(_, _, _, _) => GetRaised
      case TimedOut(_, a, u) => CancelTried(u, a < MAX_RETRIES, true)
      case BackingOff(_, a) => BackoffSlept(BackoffSeconds(a))
      case _ => Published;
    assert Enabled(e, ev') && Cost(Steps, ev') == 1;
  }

  /** The order an event shows the exchange to have accepted, known to the executor or not. */
  function Accepted(ev: Event): Option<string> {
    match ev
    case CreateReturned(u) => Some(u)
    case CreateRaised(a) => a
    case TaskCancelled(_, a, _) => a
    case _ => None
  }

  // ---- what goes out

  /** The arguments of the create calls of a run. */
  function Placed(dryRun: bool, events: seq<Event>): seq<Placement>
    requires Possible(dryRun, events)
  {
    if events == [] then []
    else
      var init, ev := events[..|events| - 1], events[|events| - 1];
      var pc := After(dryRun, init).value.pc;
      Placed(dryRun, init) + if pc.Creating? && Cost(CreateCalls, ev) == 1 then [PlacementOf(pc.order)] else []
  }

  predicate Busy(pc: Pc) {
    !pc.Idle? && !pc.Ended?
  }

  /** Market, side and volume are the order's; its type and side give the exchange's order type; and the amount stands
      in for a price that is missing or zero. */
  predicate Carries(p: Placement, o: OrderRequest) {
    && p.market == o.market && p.side == o.side && p.volume == o.volume
    && (p.ordType == LimitOrder <==> o.orderType == Limit)
    && (p.ordType == PriceBuy <==> o.orderType == Market && o.side == Bid)
    && (p.ordType == MarketSell <==> o.orderType == Market && o.side == Ask)
    && (o.price.Some? && o.price.value != 0.0 ==> p.price == o.price)
    && (o.price == None || o.price.value == 0.0 ==> p.price == o.amountKrw)
  }

  lemma PlacementCarries(o: OrderRequest)
    ensures Carries(PlacementOf(o), o)
  {
  }

  function BusyCount(pc: Pc): nat {
    if Busy(pc) then 1 else 0
  }

  /** Every create call carries market, side, type, volume and price of an order that was taken. */
  lemma {:induction false} PlacedOnlyTaken(dryRun: bool, events: seq<Event>)
    requires Possible(dryRun, events)
    ensures var pc := After(dryRun, events).value.pc;
            Busy(pc) ==> Take(pc.order) in events
    ensures forall p | p in Placed(dryRun, events) ::
              exists o :: Take(o) in events && p == PlacementOf(o) && Carries(p, o)
    ensures |Placed(dryRun, events)| == Total(CreateCalls, events)
  {
    if events != [] {
      var init, ev := events[..|events| - 1], events[|events| - 1];
      Earlier(dryRun, events);
      PlacedOnlyTaken(dryRun, init);
      assert events == init + [ev];
      var pc := After(dryRun, init).value.pc;
      if pc.Creating? { PlacementCarries(pc.order); }
      hide PlacementOf, Carries;
    }
  }

  datatype Stream = OrderFilled | OrderFailed

  datatype Output = Output(stream: Stream, result: OrderResult)

  function OutputAt(pc: Pc): Output
    requires pc.PublishingFill? || Escapes(pc)
  {
    match pc
    case PublishingFill(_, _, r) => Output(OrderFilled, r)
    case PublishingDryRun(o) => Output(OrderFilled, SyntheticFill(o))
    case PublishingFailure(o) => Output(OrderFailed, FailureOf(o))
  }

  predicate UnheardPublication(ev: Event) {
    (ev.PublishRaised? || ev.TaskCancelled?) && ev.applied
  }

  /** A result has reached its stream: the publication returned, or was applied although it did not. */
  predicate OnStream(ev: Event) {
    ev.Published? || UnheardPublication(ev)
  }

  /** The results that a run has put on the streams. */
  function Outputs(dryRun: bool, events: seq<Event>): seq<Output>
    requires Possible(dryRun, events)
  {
    if events == [] then []
    else
      var init, ev := events[..|events| - 1], events[|events| - 1];
      Outputs(dryRun, init) + if OnStream(ev) then [OutputAt(After(dryRun, init).value.pc)] else []
  }

  predicate EndsAs(ev: Event, r: OrderResult) {
    && ev.GetReturned? && ev.uuid == r.orderUuid && ev.view.state != Other
    && r.executedVolume == OrZero(ev.view.executedVolume) && r.executedPrice == OrZero(ev.view.price)
    && r.fee == OrZero(ev.view.paidFee)
    && (r.status == Filled <==> ev.view.state == Done) && (r.status == Cancelled <==> ev.view.state == Cancel)
  }

  /** The exchange was seen to say this of an order that had ended. */
  ghost predicate SeenEnded(events: seq<Event>, r: OrderResult) {
    exists i | 0 <= i < |events| :: EndsAs(events[i], r)
  }

  lemma SeenLater(events: seq<Event>, ev: Event, r: OrderResult)
    requires SeenEnded(events, r)
    ensures SeenEnded(events + [ev], r)
  {
    var i :| 0 <= i < |events| && EndsAs(events[i], r);
    assert (events + [ev])[i] == events[i];
  }

  lemma SeenNow(events: seq<Event>, ev: Event, r: OrderResult)
    requires EndsAs(ev, r)
    ensures SeenEnded(events + [ev], r)
  {
    assert (events + [ev])[|events|] == ev;
  }

  /** Every result a live executor publishes on order:filled repeats what the exchange said of that very order when
      it had ended, and every one on order:failed says that nothing was executed. */
  lemma {:induction false} ReportedAsSeen(events: seq<Event>)
    requires Possible(false, events)
    ensures var pc := After(false, events).value.pc;
            pc.PublishingFill? ==> SeenEnded(events, pc.result)
    ensures forall o | o in Outputs(false, events) ::
              if o.stream == OrderFilled then SeenEnded(events, o.result)
              else o.result.status == Failed && o.result.executedVolume == 0.0
  {
    if events != [] {
      var init, ev := events[..|events| - 1], events[|events| - 1];
      Earlier(false, events);
      AlwaysWellFormed(false, init);
      ReportedAsSeen(init);
      assert events == init + [ev];
      var pc, pc' := After(false, init).value.pc, After(false, events).value.pc;
      assert !pc.PublishingDryRun?;
      hide SeenEnded;
      if pc'.PublishingFill? {
        if pc == pc' { SeenLater(init, ev, pc'.result); } else { SeenNow(init, ev, pc'.result); }
      }
      forall o | o in Outputs(false, events) && o.stream == OrderFilled ensures SeenEnded(events, o.result) {
        SeenLater(init, ev, o.result);
      }
    }
  }

  /** A dry run reports the order as filled: the volume and the price it states, or zero where it states none. */
  predicate DryRunReport(out: Output, o: OrderRequest) {
    && out.stream == OrderFilled && out.result.status == Filled && out.result.orderUuid == "dry-run"
    && out.result.market == o.market && out.result.side == o.side && out.result.fee == 0.0
    && (o.volume.Some? ==> out.result.executedVolume == o.volume.value)
    && (o.volume.None? ==> out.result.executedVolume == 0.0)
    && (o.price.Some? ==> out.result.executedPrice == o.price.value)
    && (o.price.None? ==> out.result.executedPrice == 0.0)
  }

  lemma ReportedDry(o: OrderRequest)
    ensures DryRunReport(Output(OrderFilled, SyntheticFill(o)), o)
  {
  }

  /** In dry-run mode every result on the streams is such a report of an order taken, at most one for each order. */
  lemma {:induction false} DryRunReports(events: seq<Event>)
    requires Possible(true, events)
    ensures var pc := After(true, events).value.pc;
            Busy(pc) ==> pc.PublishingDryRun? && Take(pc.order) in events
    ensures forall out | out in Outputs(true, events) :: exists o :: Take(o) in events && DryRunReport(out, o)
    ensures |Outputs(true, events)| + BusyCount(After(true, events).value.pc) <= Takes(events)
  {
    if events != [] {
      var init, ev := events[..|events| - 1], events[|events| - 1];
      Earlier(true, events);
      DryRunReports(init);
      AlwaysWellFormed(true, init);
      assert events == init + [ev];
      var pc := After(true, init).value.pc;
      if pc.PublishingDryRun? { ReportedDry(pc.order); }
      hide SyntheticFill, DryRunReport;
    }
  }

  // ---- one result for each order

  /** An order whose handling ends without a result: the task was cancelled, or the last publication raised. */
  predicate Drops(ev: Event) {
    (ev.TaskCancelled? && !ev.during.Reading?) || (ev.PublishRaised? && ev.escapes)
  }

  /** How often something happened in a run. */
  function Tally(what: Event -> bool, events: seq<Event>): nat {
    if events == [] then 0
    else Tally(what, events[..|events| - 1]) + if what(events[|events| - 1]) then 1 else 0
  }

  predicate Heard(ev: Event) {
    ev.Published?
  }

  /** Every order taken has had exactly one publication return, or was dropped, or is being handled. */
  lemma {:induction false} OneResultEach(dryRun: bool, events: seq<Event>)
    requires Possible(dryRun, events)
    ensures Takes(events)
         == Tally(Heard, events) + Tally(Drops, events) + BusyCount(After(dryRun, events).value.pc)
  {
    if events != [] {
      Earlier(dryRun, events);
      OneResultEach(dryRun, events[..|events| - 1]);
    }
  }

  /** What is on the streams: the results whose publication returned, and those applied without the executor
      hearing of it. So there is one result for each order that is neither dropped nor in hand, plus the unheard
      ones, and four at most for each order. */
  lemma {:induction false} ResultsOnStreams(dryRun: bool, events: seq<Event>)
    requires Possible(dryRun, events)
    ensures |Outputs(dryRun, events)| == Tally(Heard, events) + Tally(UnheardPublication, events)
    ensures |Outputs(dryRun, events)| <= Total(PublishCalls, events) <= 4 * Takes(events)
  {
    WorkBound(dryRun, events);
    if events != [] {
      Earlier(dryRun, events);
      ResultsOnStreams(dryRun, events[..|events| - 1]);
    }
  }
}
