/** The order pipeline as one machine: requests flow from the portfolio manager through the risk manager and
    the executor to a ledger that hears of them late. Streams only grow; each reader has its own cursor; every
    await is a step of its own, so that anything may happen in between. */
module OrderPipeline {
  import opened Prelude
  import opened Messages
  import opened RiskLedger
  import opened ExecutorMachine

  /** A request with the position it had on the request stream, which no message carries. */
  datatype Ticket = Ticket(id: nat, order: OrderRequest)

  /** A result on a stream, and whether the executor heard that it got there. */
  datatype Entry = Entry(ticket: Ticket, result: OrderResult, heard: bool)

  /** A verdict that has been reached but not yet published. */
  datatype Verdict = NoVerdict | ToApprove(ticket: Ticket) | ToReject(ticket: Ticket)

  /** A create call, with the ticket on whose behalf it was made, and whether the exchange accepted it. */
  datatype Call = Call(ticket: Ticket, placement: Placement, accepted: bool)

  datatype World = World(
    requests: seq<OrderRequest>, judged: nat, risk: RiskState, verdict: Verdict,
    approved: seq<Ticket>, rejected: seq<Ticket>, unpublished: seq<Ticket>,
    taken: nat, exec: Exec, hand: Option<Ticket>,
    filled: seq<Entry>, failed: seq<Entry>, dropped: seq<Ticket>,
    settled: nat,
    calls: seq<Call>, stray: seq<Ticket>)

  datatype Step =
    | Submit(order: OrderRequest)
    | Judge
    | Route(published: bool)
    | Execute(event: Event)
    | SettleNext
    | Observe(risk: RiskEvent)

  predicate EmptyLedger(risk: RiskState) {
    risk.positions == map[] && risk.openPositions == 0
  }

  function Start(dryRun: bool, risk: RiskState): World {
    World([], 0, risk, NoVerdict, [], [], [], 0, Fresh(dryRun), None, [], [], [], 0, [], [])
  }

  predicate Can(w: World, s: Step) {
    match s
    case Submit(_) => true
    case Judge => w.verdict.NoVerdict? && w.judged < |w.requests|
    case Route(_) => !w.verdict.NoVerdict?
    case Execute(ev) =>
      && Enabled(w.exec, ev)
      && (ev.Take? ==> w.taken < |w.approved| && ev.order == w.approved[w.taken].order)
      && (Busy(w.exec.pc) ==> w.hand.Some?)
    case SettleNext => w.settled < |w.filled|
    case Observe(e) => !e.ResultSeen? && !e.RequestSeen?
  }

  function NextTicket(w: World): Ticket
    requires w.judged < |w.requests|
  {
    Ticket(w.judged, w.requests[w.judged])
  }

  ghost predicate Admits(l: Limits, w: World)
    requires w.judged < |w.requests|
  {
    Validate(l, w.risk, w.requests[w.judged]).0.None?
  }

  ghost function JudgeNext(l: Limits, w: World): World
    requires Can(w, Judge)
  {
    var t := NextTicket(w);
    var w' := w.(judged := w.judged + 1, risk := Validate(l, w.risk, t.order).1);
    if Admits(l, w) then w'.(verdict := ToApprove(t))
    else w'.(verdict := ToReject(t))
  }

  function RouteVerdict(w: World, published: bool): World
    requires Can(w, Route(published))
  {
    var t := w.verdict.ticket;
    var w' := w.(verdict := NoVerdict);
    if !published then w'.(unpublished := w.unpublished + [t])
    else if w.verdict.ToApprove? then w'.(approved := w.approved + [t])
    else w'.(rejected := w.rejected + [t])
  }

  function CallsMade(w: World, ev: Event): seq<Call>
    requires Can(w, Execute(ev))
  {
    if w.exec.pc.Creating? && Cost(CreateCalls, ev) == 1
    then [Call(w.hand.value, PlacementOf(w.exec.pc.order), Accepted(ev).Some?)] else []
  }

  function NewEntry(w: World, ev: Event, stream: Stream): seq<Entry>
    requires Can(w, Execute(ev))
  {
    if OnStream(ev) && OutputAt(w.exec.pc).stream == stream
    then [Entry(w.hand.value, OutputAt(w.exec.pc).result, ev.Published?)] else []
  }

  /** The executor knows of an accepted order and has not yet put a result for it on a stream. */
  predicate LiveOrder(pc: Pc) {
    pc.Sleeping? || pc.Polling? || pc.TimedOut? || pc.PublishingFill?
  }

  /** An order that the exchange accepted is let go, and no result will tell the ledger what became of it. */
  predicate GoesStray(e: Exec, ev: Event)
    requires Enabled(e, ev)
  {
    || (e.pc.Creating? && Accepted(ev).Some? && !ev.CreateReturned?)
    || (LiveOrder(e.pc) && !LiveOrder(NextPc(e, ev)) && !OnStream(ev))
  }

  function HandAfter(w: World, ev: Event): Option<Ticket>
    requires Can(w, Execute(ev))
  {
    if ev.Take? then Some(w.approved[w.taken])
    else if ev.Published? || Drops(ev) then None
    else w.hand
  }

  function InHand(hand: Option<Ticket>): seq<Ticket> {
    if hand.Some? then [hand.value] else []
  }

  function ExecuteEvent(w: World, ev: Event): World
    requires Can(w, Execute(ev))
  {
    w.(exec := Next(w.exec, ev),
       taken := if ev.Take? then w.taken + 1 else w.taken,
       hand := HandAfter(w, ev),
       filled := w.filled + NewEntry(w, ev, OrderFilled),
       failed := w.failed + NewEntry(w, ev, OrderFailed),
       dropped := w.dropped + if Drops(ev) then InHand(w.hand) else [],
       calls := w.calls + CallsMade(w, ev),
       stray := w.stray + if GoesStray(w.exec, ev) then InHand(w.hand) else [])
  }

  /** A result that the ledger does not count, although something was executed, leaves a stray order behind. */
  function Uncounted(e: Entry): seq<Ticket> {
    if !Counts(e.result) && e.result.executedVolume != 0.0 then [e.ticket] else []
  }

  function SettleEntry(w: World): World
    requires Can(w, SettleNext)
  {
    var e := w.filled[w.settled];
    w.(settled := w.settled + 1, risk := ApplyResult(w.risk, e.result), stray := w.stray + Uncounted(e))
  }

  ghost function Do(l: Limits, w: World, s: Step): World
    requires Can(w, s)
  {
    match s
    case Submit(o) => w.(requests := w.requests + [o])
    case Judge => JudgeNext(l, w)
    case Route(published) => RouteVerdict(w, published)
    case Execute(ev) => ExecuteEvent(w, ev)
    case SettleNext => SettleEntry(w)
    case Observe(e) => w.(risk := RiskStep(l, w.risk, e))
  }

  /** The world a list of steps leads to, if each can be made when it comes. */
  ghost function Run(l: Limits, w0: World, steps: seq<Step>): Option<World> {
    if steps == [] then Some(w0)
    else
      var before := Run(l, w0, steps[..|steps| - 1]);
      if before.Some? && Can(before.value, steps[|steps| - 1])
      then Some(Do(l, before.value, steps[|steps| - 1]))
      else None
  }

  ghost predicate Runs(l: Limits, w0: World, steps: seq<Step>) {
    Run(l, w0, steps).Some?
  }

  lemma Before(l: Limits, w0: World, steps: seq<Step>)
    requires Runs(l, w0, steps) && steps != []
    ensures Runs(l, w0, steps[..|steps| - 1])
    ensures var w := Run(l, w0, steps[..|steps| - 1]).value;
            Can(w, steps[|steps| - 1]) && Run(l, w0, steps) == Some(Do(l, w, steps[|steps| - 1]))
  {
  }

  // ---- where every request is

  function TicketsOf(requests: seq<OrderRequest>): (r: seq<Ticket>)
    ensures |r| == |requests|
  {
    seq(|requests|, i requires 0 <= i < |requests| => Ticket(i, requests[i]))
  }

  function TicketsIn(entries: seq<Entry>): (r: seq<Ticket>)
    ensures |r| == |entries|
  {
    seq(|entries|, i requires 0 <= i < |entries| => entries[i].ticket)
  }

  function Held(verdict: Verdict): seq<Ticket> {
    if verdict.NoVerdict? then [] else [verdict.ticket]
  }

  /** Every request judged was approved, rejected, lost in publication, or is the one in hand: once each. */
  ghost predicate JudgedAccounted(w: World) {
    && w.judged <= |w.requests|
    && multiset(w.approved) + multiset(w.rejected) + multiset(w.unpublished) + multiset(Held(w.verdict))
       == multiset(TicketsOf(w.requests[..w.judged]))
  }

  /** The tickets of the results whose publication returned. */
  function HeardOf(entries: seq<Entry>): seq<Ticket> {
    if entries == [] then []
    else
      var e := entries[|entries| - 1];
      HeardOf(entries[..|entries| - 1]) + if e.heard then [e.ticket] else []
  }

  /** Every order taken by the executor has had one publication return, on order:filled or on order:failed, or was
      dropped, or is in hand: once each. */
  ghost predicate TakenAccounted(w: World) {
    && w.taken <= |w.approved|
    && multiset(HeardOf(w.filled)) + multiset(HeardOf(w.failed)) + multiset(w.dropped) + multiset(InHand(w.hand))
       == multiset(w.approved[..w.taken])
  }

  predicate Answers(r: OrderResult, o: OrderRequest) {
    r.market == o.market && r.side == o.side
  }

  /** The executor's hand and its program counter agree; results speak of the order they answer. */
  predicate HandAgrees(w: World) {
    && WellFormed(w.exec)
    && (Busy(w.exec.pc) <==> w.hand.Some?)
    && (w.hand.Some? ==> w.exec.pc.order == w.hand.value.order)
    && (w.exec.pc.PublishingFill? ==> Answers(w.exec.pc.result, w.exec.pc.order))
    && (forall e | e in w.filled :: Answers(e.result, e.ticket.order))
    && w.settled <= |w.filled|
  }

  ghost predicate Inv(w: World) {
    JudgedAccounted(w) && TakenAccounted(w) && HandAgrees(w)
  }

  lemma NextWellFormed(e: Exec, ev: Event)
    requires WellFormed(e) && Enabled(e, ev)
    ensures WellFormed(Next(e, ev))
  {
  }

  lemma ExecuteKeepsHand(w: World, ev: Event)
    requires HandAgrees(w) && Can(w, Execute(ev)) && WellFormed(Next(w.exec, ev))
    ensures HandAgrees(ExecuteEvent(w, ev))
  {
    hide WellFormed;
  }

  lemma HandKept(l: Limits, w: World, s: Step)
    requires HandAgrees(w) && Can(w, s)
    ensures HandAgrees(Do(l, w, s))
  {
    if s.Execute? {
      NextWellFormed(w.exec, s.event);
      ExecuteKeepsHand(w, s.event);
    }
  }

  lemma Appended<T>(s: seq<T>, x: T)
    ensures multiset(s + [x]) == multiset(s) + multiset([x])
    ensures multiset([x]) == multiset{x}
  {
  }

  lemma JudgeKeeps(l: Limits, w: World)
    requires JudgedAccounted(w) && Can(w, Judge)
    ensures JudgedAccounted(JudgeNext(l, w))
  {
    hide Validate;
    var n := w.judged;
    assert TicketsOf(w.requests[..n + 1]) == TicketsOf(w.requests[..n]) + [NextTicket(w)];
    Appended(TicketsOf(w.requests[..n]), NextTicket(w));
    hide TicketsOf;
  }

  lemma RouteKeeps(w: World, published: bool)
    requires JudgedAccounted(w) && Can(w, Route(published))
    ensures JudgedAccounted(RouteVerdict(w, published))
  {
    hide TicketsOf;
    Appended(w.approved, w.verdict.ticket);
    Appended(w.rejected, w.verdict.ticket);
    Appended(w.unpublished, w.verdict.ticket);
  }

  lemma ExecuteKeepsVerdicts(w: World, ev: Event)
    requires Can(w, Execute(ev))
    ensures var w' := ExecuteEvent(w, ev);
            && w'.requests == w.requests && w'.judged == w.judged && w'.verdict == w.verdict && w'.risk == w.risk
            && w'.approved == w.approved && w'.rejected == w.rejected && w'.unpublished == w.unpublished
            && w'.settled == w.settled
  {
    hide Enabled, Next;
  }

  lemma JudgedKept(l: Limits, w: World, s: Step)
    requires JudgedAccounted(w) && Can(w, s)
    ensures JudgedAccounted(Do(l, w, s))
  {
    match s {
      case Submit(o) =>
        assert (w.requests + [o])[..w.judged] == w.requests[..w.judged];
      case Judge => JudgeKeeps(l, w);
      case Route(published) => RouteKeeps(w, published);
      case Execute(ev) => ExecuteKeepsVerdicts(w, ev);
      case _ =>
    }
  }

  /** What leaves the hand is added to one of three lists, what comes into it was added to a fourth. */
  lemma Moved<T>(a: seq<T>, b: seq<T>, c: seq<T>, hand: seq<T>, a': seq<T>, b': seq<T>, c': seq<T>, hand': seq<T>,
                 taken: seq<T>)
    requires if taken == [] then a' + b' + c' + hand' == hand else a' + b' + c' == hand == [] && hand' == taken
    ensures multiset(a + a') + multiset(b + b') + multiset(c + c') + multiset(hand')
         == multiset(a) + multiset(b) + multiset(c) + multiset(hand) + multiset(taken)
  {
    assert multiset(a' + b' + c' + hand') == multiset(a') + multiset(b') + multiset(c') + multiset(hand');
  }

  lemma StillAccounted(w: World, w': World, filled: seq<Ticket>, failed: seq<Ticket>, dropped: seq<Ticket>, taken: seq<Ticket>)
    requires TakenAccounted(w) && w'.taken <= |w'.approved|
    requires HeardOf(w'.filled) == HeardOf(w.filled) + filled && HeardOf(w'.failed) == HeardOf(w.failed) + failed
    requires w'.dropped == w.dropped + dropped && w'.approved[..w'.taken] == w.approved[..w.taken] + taken
    requires if taken == [] then filled + failed + dropped + InHand(w'.hand) == InHand(w.hand)
             else filled + failed + dropped == InHand(w.hand) == [] && InHand(w'.hand) == taken
    ensures TakenAccounted(w')
  {
    hide HeardOf, InHand;
    Moved(HeardOf(w.filled), HeardOf(w.failed), w.dropped, InHand(w.hand), filled, failed, dropped, InHand(w'.hand), taken);
  }

  lemma HeardAppend(entries: seq<Entry>, more: seq<Entry>)
    requires |more| <= 1
    ensures HeardOf(entries + more) == HeardOf(entries) + HeardOf(more)
  {
    if more == [] {
      assert entries + more == entries;
    } else {
      assert (entries + more)[..|entries|] == entries && more[..0] == [];
    }
  }

  /** An event either takes the next order into an empty hand, or ends handling by putting the order in hand on
      exactly one of heard filled, heard failed and dropped, or leaves it in hand. */
  lemma ReleasedOnce(w: World, ev: Event)
    requires HandAgrees(w) && Can(w, Execute(ev))
    ensures var gone := HeardOf(NewEntry(w, ev, OrderFilled)) + HeardOf(NewEntry(w, ev, OrderFailed))
                        + if Drops(ev) then InHand(w.hand) else [];
            if ev.Take? then gone == [] && w.hand == None && HandAfter(w, ev) == Some(w.approved[w.taken])
            else gone + InHand(HandAfter(w, ev)) == InHand(w.hand)
  {
    hide OutputAt, Next;
    var filled, failed := NewEntry(w, ev, OrderFilled), NewEntry(w, ev, OrderFailed);
    assert filled != [] ==> filled[..0] == [];
    assert failed != [] ==> failed[..0] == [];
  }

  lemma TakenGrows(w: World, ev: Event)
    requires w.taken <= |w.approved| && Can(w, Execute(ev))
    ensures var w' := ExecuteEvent(w, ev);
            && w'.taken <= |w'.approved|
            && w'.approved[..w'.taken] == w.approved[..w.taken] + (if ev.Take? then [w.approved[w.taken]] else [])
            && w'.hand == HandAfter(w, ev)
            && w'.filled == w.filled + NewEntry(w, ev, OrderFilled) && |NewEntry(w, ev, OrderFilled)| <= 1
            && w'.failed == w.failed + NewEntry(w, ev, OrderFailed) && |NewEntry(w, ev, OrderFailed)| <= 1
            && w'.dropped == w.dropped + if Drops(ev) then InHand(w.hand) else []
  {
    hide Next, OutputAt;
  }

  lemma ExecuteKeepsTaken(w: World, ev: Event)
    requires TakenAccounted(w) && HandAgrees(w) && Can(w, Execute(ev))
    ensures TakenAccounted(ExecuteEvent(w, ev))
  {
    var filled, failed := NewEntry(w, ev, OrderFilled), NewEntry(w, ev, OrderFailed);
    var dropped := if Drops(ev) then InHand(w.hand) else [];
    var taken := if ev.Take? then [w.approved[w.taken]] else [];
    var w' := ExecuteEvent(w, ev);
    ReleasedOnce(w, ev);
    TakenGrows(w, ev);
    HeardAppend(w.filled, filled);
    HeardAppend(w.failed, failed);
    hide *;
    StillAccounted(w, w', HeardOf(filled), HeardOf(failed), dropped, taken);
  }

  lemma SameTaken(w: World, w': World)
    requires TakenAccounted(w) && w.approved <= w'.approved && w'.taken == w.taken && w'.hand == w.hand
    requires w'.filled == w.filled && w'.failed == w.failed && w'.dropped == w.dropped
    ensures TakenAccounted(w')
  {
    assert TakenAccounted(w) ==> w.taken <= |w.approved|;
    assert w'.approved[..w.taken] == w.approved[..w.taken];
    hide HeardOf, InHand;
  }

  lemma TakenKept(l: Limits, w: World, s: Step)
    requires TakenAccounted(w) && HandAgrees(w) && Can(w, s)
    ensures TakenAccounted(Do(l, w, s))
  {
    hide TakenAccounted;
    if s.Execute? {
      ExecuteKeepsTaken(w, s.event);
    } else {
      SameTaken(w, Do(l, w, s));
    }
  }

  lemma {:induction false} InvAlways(l: Limits, dryRun: bool, risk: RiskState, steps: seq<Step>)
    requires Runs(l, Start(dryRun, risk), steps)
    ensures Inv(Run(l, Start(dryRun, risk), steps).value)
  {
    if steps == [] {
    } else {
      var init, s := steps[..|steps| - 1], steps[|steps| - 1];
      Before(l, Start(dryRun, risk), steps);
      InvAlways(l, dryRun, risk, init);
      var w := Run(l, Start(dryRun, risk), init).value;
      HandKept(l, w, s);
      JudgedKept(l, w, s);
      TakenKept(l, w, s);
    }
  }

  lemma Regroup<T>(all: seq<T>, judged: nat, approved: seq<T>, taken: nat, rejected: seq<T>, unpublished: seq<T>,
                   held: seq<T>, filled: seq<T>, failed: seq<T>, dropped: seq<T>, hand: seq<T>)
    requires judged <= |all| && taken <= |approved|
    requires multiset(approved) + multiset(rejected) + multiset(unpublished) + multiset(held) == multiset(all[..judged])
    requires multiset(filled) + multiset(failed) + multiset(dropped) + multiset(hand) == multiset(approved[..taken])
    ensures multiset(all)
         == multiset(all[judged..]) + multiset(held) + multiset(rejected) + multiset(unpublished)
            + multiset(approved[taken..]) + multiset(hand) + multiset(filled) + multiset(failed) + multiset(dropped)
  {
    assert all == all[..judged] + all[judged..] && approved == approved[..taken] + approved[taken..];
  }

  /** Conservation over the whole pipeline: at every moment each request ever submitted is in exactly one
      place, and no request is duplicated or invented on the way. */
  lemma Conservation(l: Limits, dryRun: bool, risk: RiskState, steps: seq<Step>)
    requires Runs(l, Start(dryRun, risk), steps)
    ensures var w := Run(l, Start(dryRun, risk), steps).value;
            && w.judged <= |w.requests| && w.taken <= |w.approved|
            && multiset(TicketsOf(w.requests))
            == multiset(TicketsOf(w.requests)[w.judged..]) + multiset(Held(w.verdict))
               + multiset(w.rejected) + multiset(w.unpublished)
               + multiset(w.approved[w.taken..]) + multiset(InHand(w.hand))
               + multiset(HeardOf(w.filled)) + multiset(HeardOf(w.failed)) + multiset(w.dropped)
  {
    InvAlways(l, dryRun, risk, steps);
    var w := Run(l, Start(dryRun, risk), steps).value;
    var all := TicketsOf(w.requests);
    assert TicketsOf(w.requests[..w.judged]) == all[..w.judged];
    hide *;
    Regroup(all, w.judged, w.approved, w.taken, w.rejected, w.unpublished, Held(w.verdict), HeardOf(w.filled),
            HeardOf(w.failed), w.dropped, InHand(w.hand));
  }

  /** A step at which a publication does not return or a task is cancelled in its handler. */
  predicate Fault(s: Step) {
    s == Route(false) || (s.Execute? && (Drops(s.event) || UnheardPublication(s.event)))
  }

  lemma {:induction false} AllHeard(entries: seq<Entry>)
    requires forall e | e in entries :: e.heard
    ensures HeardOf(entries) == TicketsIn(entries)
  {
    if entries != [] {
      var n := |entries| - 1;
      AllHeard(entries[..n]);
      assert entries[n] in entries;
      assert TicketsIn(entries) == TicketsIn(entries[..n]) + [entries[n].ticket];
    }
  }

  ghost predicate Unharmed(w: World) {
    && w.unpublished == [] && w.dropped == []
    && (forall e | e in w.filled :: e.heard) && (forall e | e in w.failed :: e.heard)
  }

  lemma FaultlessStep(l: Limits, w: World, s: Step)
    requires Unharmed(w) && Can(w, s) && !Fault(s)
    ensures Unharmed(Do(l, w, s))
  {
    hide Enabled, Next, OutputAt, Validate, ApplyResult, CallsMade, GoesStray;
  }

  lemma {:induction false} LossNeedsFault(l: Limits, w0: World, steps: seq<Step>)
    requires Runs(l, w0, steps) && Unharmed(w0)
    requires forall s | s in steps :: !Fault(s)
    ensures Unharmed(Run(l, w0, steps).value)
  {
    if steps != [] {
      var init, s := steps[..|steps| - 1], steps[|steps| - 1];
      assert s in steps;
      Before(l, w0, steps);
      assert forall x | x in init :: x in steps;
      LossNeedsFault(l, w0, init);
      FaultlessStep(l, Run(l, w0, init).value, s);
    }
  }

  /** When publications succeed and no task is cancelled, nothing is lost or doubled: approved plus rejected is
      judged, filled plus failed is taken. */
  lemma NothingLost(l: Limits, dryRun: bool, risk: RiskState, steps: seq<Step>)
    requires Runs(l, Start(dryRun, risk), steps)
    requires forall s | s in steps :: !Fault(s)
    ensures var w := Run(l, Start(dryRun, risk), steps).value;
            && w.judged <= |w.requests| && w.taken <= |w.approved|
            && multiset(w.approved) + multiset(w.rejected) + multiset(Held(w.verdict))
               == multiset(TicketsOf(w.requests[..w.judged]))
            && multiset(TicketsIn(w.filled)) + multiset(TicketsIn(w.failed)) + multiset(InHand(w.hand))
               == multiset(w.approved[..w.taken])
  {
    InvAlways(l, dryRun, risk, steps);
    LossNeedsFault(l, Start(dryRun, risk), steps);
    var w := Run(l, Start(dryRun, risk), steps).value;
    AllHeard(w.filled);
    AllHeard(w.failed);
    hide HandAgrees, TicketsIn, HeardOf, TicketsOf, Run;
  }

  lemma {:induction false} AtMostOnce(ts: seq<Ticket>, t: Ticket)
    requires forall i | 0 <= i < |ts| :: ts[i].id == i
    ensures multiset(ts)[t] <= 1
    ensures t in multiset(ts) ==> t.id < |ts|
  {
    if ts != [] {
      var n := |ts| - 1;
      assert ts == ts[..n] + [ts[n]];
      AtMostOnce(ts[..n], t);
    }
  }

  lemma TicketsDistinct(requests: seq<OrderRequest>, t: Ticket)
    ensures multiset(TicketsOf(requests))[t] <= 1
  {
    var ts := TicketsOf(requests);
    AtMostOnce(ts, t);
  }

  /** No request is approved twice. */
  lemma ApprovedOnce(w: World, t: Ticket)
    requires JudgedAccounted(w)
    ensures multiset(w.approved)[t] <= 1
    ensures t in w.approved ==> t.id < w.judged && t.order == w.requests[t.id]
  {
    TicketsDistinct(w.requests[..w.judged], t);
    var ts := TicketsOf(w.requests[..w.judged]);
    assert multiset(w.approved)[t] <= multiset(ts)[t];
    if t in w.approved {
      assert t in multiset(w.approved) && t in multiset(ts) && t in ts;
    }
  }
}
