/** The purchases in flight: approved, and not yet accounted for in the ledger. How often an approval counts
    depends on what may still come of it. */
module PipelineFlow {
  import opened Prelude
  import opened Messages
  import opened RiskLedger
  import opened ExecutorMachine
  import opened OrderPipeline

  predicate Bounded(w: World) {
    w.taken <= |w.approved| && w.settled <= |w.filled|
  }

  function Approving(v: Verdict): seq<Ticket> {
    if v.ToApprove? then [v.ticket] else []
  }

  /** What is counted. Once: each approval once, in runs in which no raised publication was applied. Fills: each
      fill that the ledger may still hear of, when no order gets more than so many attempts. Orders: each order that
      the exchange has accepted or may still accept, with the stray ones that the ledger will never hear of. */
  datatype Account = Once | Fills(each: nat) | Orders(each: nat)

  function Each(a: Account): nat {
    if a.Once? then 1 else a.each
  }

  function Less(n: nat, m: nat): nat {
    if n <= m then 0 else n - m
  }

  function AttemptOf(pc: Pc): nat {
    if pc.Creating? || pc.BackingOff? || LiveOrder(pc) then pc.attempt else 0
  }

  /** How often the order in hand counts: for this attempt, unless it has failed, and for those after it. */
  function Copies(a: Account, pc: Pc): nat {
    if !Busy(pc) || pc.PublishingFailure? then 0
    else if a.Once? || pc.PublishingDryRun? then 1
    else if pc.BackingOff? then Less(a.each, pc.attempt)
    else Less(a.each + 1, pc.attempt)
  }

  /** The steps that an account covers. */
  predicate Fits(a: Account, w: World, s: Step) {
    if a.Once? then s.Execute? && s.event.PublishRaised? ==> !s.event.applied
    else a.each >= 1 && AttemptOf(w.exec.pc) <= a.each
  }

  function Repeated(ts: seq<Ticket>, n: nat): seq<Ticket> {
    if n == 0 then [] else Repeated(ts, n - 1) + ts
  }

  function Strays(a: Account, w: World): seq<Ticket> {
    if a.Orders? then w.stray else []
  }

  function Open(a: Account, w: World): seq<Ticket>
    requires Bounded(w)
  {
    Repeated(Approving(w.verdict), Each(a)) + Repeated(w.approved[w.taken..], Each(a))
      + Repeated(InHand(w.hand), Copies(a, w.exec.pc)) + TicketsIn(w.filled)[w.settled..] + Strays(a, w)
  }

  function OpenBag(a: Account, w: World): multiset<Ticket>
    requires Bounded(w)
  {
    multiset(Repeated(Approving(w.verdict), Each(a))) + multiset(Repeated(w.approved[w.taken..], Each(a)))
      + multiset(Repeated(InHand(w.hand), Copies(a, w.exec.pc))) + multiset(TicketsIn(w.filled)[w.settled..])
      + multiset(Strays(a, w))
  }

  lemma BagIsOpen(a: Account, w: World)
    requires Bounded(w)
    ensures multiset(Open(a, w)) == OpenBag(a, w)
  {
    hide Repeated, TicketsIn, Strays, Approving, InHand, Copies;
  }

  lemma {:induction false} RepeatedPlus(a: seq<Ticket>, b: seq<Ticket>, n: nat)
    ensures multiset(Repeated(a + b, n)) == multiset(Repeated(a, n)) + multiset(Repeated(b, n))
  {
    if n > 0 {
      RepeatedPlus(a, b, n - 1);
      assert multiset(a + b) == multiset(a) + multiset(b);
    }
  }

  lemma {:induction false} RepeatedOne(t: Ticket, n: nat)
    ensures multiset(Repeated([t], n)) == multiset{}[t := n]
  {
    if n > 0 { RepeatedOne(t, n - 1); }
  }

  lemma {:induction false} RepeatedNone(n: nat)
    ensures Repeated([], n) == []
  {
    if n > 0 { RepeatedNone(n - 1); }
  }

  lemma NothingOpen(a: Account, dryRun: bool, risk: RiskState)
    ensures var w0 := Start(dryRun, risk); Bounded(w0) && Open(a, w0) == [] && OpenBag(a, w0) == multiset{}
  {
    RepeatedNone(Each(a));
    RepeatedNone(Copies(a, Idle));
    BagIsOpen(a, Start(dryRun, risk));
  }

  // ---- how tickets enter and leave

  ghost function Entering(a: Account, l: Limits, w: World, s: Step): multiset<Ticket>
    requires Can(w, s)
  {
    if s.Judge? && Admits(l, w) then multiset{}[NextTicket(w) := Each(a)] else multiset{}
  }

  function Leaving(w: World, s: Step): multiset<Ticket>
    requires Can(w, s)
  {
    if s.SettleNext? && Counts(w.filled[w.settled].result) then multiset{w.filled[w.settled].ticket} else multiset{}
  }

  lemma FlowElsewhere(a: Account, l: Limits, w: World, s: Step)
    requires Bounded(w) && Can(w, s) && (s.Submit? || s.Observe?)
    ensures Bounded(Do(l, w, s)) && OpenBag(a, Do(l, w, s)) == OpenBag(a, w)
  {
    var w' := Do(l, w, s);
    assert w' == w.(requests := w'.requests, risk := w'.risk);
    hide RiskStep, Do, Repeated, TicketsIn, Copies;
  }

  /** The first of the five parts of what is open, so that a step need only speak of those it changes. */
  function PartVerdict(a: Account, w: World): multiset<Ticket> {
    multiset(Repeated(Approving(w.verdict), Each(a)))
  }

  function PartWaiting(a: Account, w: World): multiset<Ticket>
    requires Bounded(w)
  {
    multiset(Repeated(w.approved[w.taken..], Each(a)))
  }

  function PartHand(a: Account, w: World): multiset<Ticket> {
    multiset(Repeated(InHand(w.hand), Copies(a, w.exec.pc)))
  }

  function PartUnsettled(w: World): multiset<Ticket>
    requires Bounded(w)
  {
    multiset(TicketsIn(w.filled)[w.settled..])
  }

  function PartStray(a: Account, w: World): multiset<Ticket> {
    multiset(Strays(a, w))
  }

  lemma ByParts(a: Account, w: World)
    requires Bounded(w)
    ensures OpenBag(a, w) == PartVerdict(a, w) + PartWaiting(a, w) + PartHand(a, w) + PartUnsettled(w) + PartStray(a, w)
  {
    hide Repeated, TicketsIn, Strays, Copies, Approving, InHand;
  }

  lemma JudgedParts(a: Account, w: World, w': World, t: Ticket, entering: multiset<Ticket>)
    requires Bounded(w) && Bounded(w') && w' == w.(judged := w'.judged, risk := w'.risk, verdict := w'.verdict)
    requires Approving(w.verdict) == []
    requires (Approving(w'.verdict) == [t] && entering == multiset{}[t := Each(a)])
          || (Approving(w'.verdict) == [] && entering == multiset{})
    ensures OpenBag(a, w') == OpenBag(a, w) + entering
  {
    hide Approving, TicketsIn, Repeated, Copies, Each, OpenBag;
    RepeatedNone(Each(a));
    RepeatedOne(t, Each(a));
    assert PartVerdict(a, w') == PartVerdict(a, w) + entering;
    assert PartWaiting(a, w') == PartWaiting(a, w) && PartHand(a, w') == PartHand(a, w);
    assert PartUnsettled(w') == PartUnsettled(w) && PartStray(a, w') == PartStray(a, w);
    hide *;
    ByParts(a, w);
    ByParts(a, w');
  }

  lemma FlowJudge(a: Account, l: Limits, w: World)
    requires Can(w, Judge) && Bounded(w)
    ensures Bounded(JudgeNext(l, w))
    ensures OpenBag(a, JudgeNext(l, w)) == OpenBag(a, w) + Entering(a, l, w, Judge)
  {
    var w', t := JudgeNext(l, w), NextTicket(w);
    assert w' == w.(judged := w'.judged, risk := w'.risk, verdict := w'.verdict);
    assert Approving(w.verdict) == [] && Approving(w'.verdict) == if Admits(l, w) then [t] else [];
    assert Entering(a, l, w, Judge) == if Admits(l, w) then multiset{}[t := Each(a)] else multiset{};
    assert Bounded(w');
    hide *;
    JudgedParts(a, w, w', t, Entering(a, l, w, Judge));
  }

  lemma HeadAndRest<T>(ts: seq<T>, k: nat)
    requires k < |ts|
    ensures multiset(ts[k..]) == multiset{ts[k]} + multiset(ts[k + 1..])
  {
    assert ts[k..] == [ts[k]] + ts[k + 1..];
  }

  lemma HeadLeaves<T>(ts: seq<T>, k: nat, stray: seq<T>, gone: seq<T>, leaving: multiset<T>)
    requires k < |ts| && multiset(gone) + leaving <= multiset{ts[k]}
    ensures multiset(ts[k + 1..]) + multiset(stray + gone) + leaving <= multiset(ts[k..]) + multiset(stray)
  {
    HeadAndRest(ts, k);
    assert multiset(stray + gone) == multiset(stray) + multiset(gone);
    assert multiset(ts[k + 1..]) + multiset(stray) + (multiset(gone) + leaving)
        <= multiset(ts[k + 1..]) + multiset(stray) + multiset{ts[k]};
  }

  lemma SettledEntry(w: World)
    requires Can(w, SettleNext)
    ensures var e, w' := w.filled[w.settled], SettleEntry(w);
            && w' == w.(settled := w.settled + 1, risk := w'.risk, stray := w.stray + Uncounted(e))
            && multiset(Uncounted(e)) + Leaving(w, SettleNext) <= multiset{e.ticket}
            && TicketsIn(w.filled)[w.settled] == e.ticket
  {
    hide ApplyResult;
  }

  lemma SettledParts(a: Account, w: World)
    requires Can(w, SettleNext) && Bounded(w)
    ensures var w' := SettleEntry(w);
            && Bounded(w')
            && PartVerdict(a, w') == PartVerdict(a, w) && PartWaiting(a, w') == PartWaiting(a, w)
            && PartHand(a, w') == PartHand(a, w)
            && PartUnsettled(w') + PartStray(a, w') + Leaving(w, SettleNext) <= PartUnsettled(w) + PartStray(a, w)
  {
    var e, ts, w' := w.filled[w.settled], TicketsIn(w.filled), SettleEntry(w);
    SettledEntry(w);
    hide TicketsIn, Repeated, Copies, SettleEntry, Uncounted, Leaving;
    var gone := if a.Orders? then Uncounted(e) else [];
    assert Strays(a, w') == Strays(a, w) + gone && multiset(gone) + Leaving(w, SettleNext) <= multiset{e.ticket};
    HeadLeaves(ts, w.settled, Strays(a, w), gone, Leaving(w, SettleNext));
  }

  lemma LastTwo<T>(rest: multiset<T>, u': multiset<T>, s': multiset<T>, u: multiset<T>, s: multiset<T>, leaving: multiset<T>)
    requires u' + s' + leaving <= u + s
    ensures rest + u' + s' + leaving <= rest + u + s
  {
    assert rest + u' + s' + leaving == rest + (u' + s' + leaving) && rest + u + s == rest + (u + s);
  }

  lemma FlowSettle(a: Account, w: World)
    requires Can(w, SettleNext) && Bounded(w)
    ensures Bounded(SettleEntry(w))
    ensures OpenBag(a, SettleEntry(w)) + Leaving(w, SettleNext) <= OpenBag(a, w)
  {
    var w' := SettleEntry(w);
    SettledParts(a, w);
    hide *;
    ByParts(a, w);
    ByParts(a, w');
    LastTwo(PartVerdict(a, w) + PartWaiting(a, w) + PartHand(a, w), PartUnsettled(w'), PartStray(a, w'), PartUnsettled(w),
            PartStray(a, w), Leaving(w, SettleNext));
  }

  lemma RoutedParts(a: Account, w: World, published: bool)
    requires Can(w, Route(published)) && Bounded(w) && Bounded(RouteVerdict(w, published))
    ensures var w' := RouteVerdict(w, published);
            PartVerdict(a, w') + PartWaiting(a, w') <= PartVerdict(a, w) + PartWaiting(a, w)
  {
    var t, rest, w' := w.verdict.ticket, w.approved[w.taken..], RouteVerdict(w, published);
    assert w'.verdict == NoVerdict && w'.taken == w.taken;
    if w.verdict.ToApprove? && published {
      assert w'.approved[w.taken..] == rest + [t];
      RepeatedPlus(rest, [t], Each(a));
    } else {
      assert w'.approved == w.approved;
    }
    hide RouteVerdict, Repeated, Each;
    RepeatedNone(Each(a));
  }

  lemma FlowRoute(a: Account, w: World, published: bool)
    requires Can(w, Route(published)) && Bounded(w)
    ensures Bounded(RouteVerdict(w, published))
    ensures OpenBag(a, RouteVerdict(w, published)) <= OpenBag(a, w)
  {
    var w' := RouteVerdict(w, published);
    assert Bounded(w') && w'.hand == w.hand && w'.exec == w.exec;
    assert PartHand(a, w') == PartHand(a, w) && PartUnsettled(w') == PartUnsettled(w) && PartStray(a, w') == PartStray(a, w);
    RoutedParts(a, w, published);
    hide *;
    ByParts(a, w);
    ByParts(a, w');
  }

  lemma MiddleTwo<T>(v: multiset<T>, x': multiset<T>, h': multiset<T>, x: multiset<T>, h: multiset<T>,
                     u: multiset<T>, s: multiset<T>)
    requires x' + h' <= x
    ensures v + x' + h' + u + s <= v + x + h + u + s
  {
    assert v + x' + h' == v + (x' + h');
  }

  lemma TakenParts(a: Account, approved: seq<Ticket>, taken: nat, copies: nat)
    requires taken < |approved| && copies <= Each(a)
    ensures multiset(Repeated(approved[taken + 1..], Each(a))) + multiset(Repeated([approved[taken]], copies))
         <= multiset(Repeated(approved[taken..], Each(a)))
  {
    var t, rest := approved[taken], approved[taken + 1..];
    assert approved[taken..] == [t] + rest;
    RepeatedPlus([t], rest, Each(a));
    RepeatedOne(t, Each(a));
    RepeatedOne(t, copies);
    hide Repeated, Each;
  }

  lemma HandFilled(a: Account, w: World, w': World, t: Ticket)
    requires Bounded(w) && Bounded(w') && w.taken < |w.approved| && t == w.approved[w.taken]
    requires w.hand == None && w'.hand == Some(t) && Copies(a, w'.exec.pc) <= Each(a)
    requires w'.filled == w.filled && w'.settled == w.settled && w'.stray == w.stray && w'.verdict == w.verdict
    requires w'.approved == w.approved && w'.taken == w.taken + 1
    ensures OpenBag(a, w') <= OpenBag(a, w)
  {
    hide Approving, TicketsIn, Repeated, Copies, Each, OpenBag;
    TakenParts(a, w.approved, w.taken, Copies(a, w'.exec.pc));
    assert PartVerdict(a, w') == PartVerdict(a, w);
    assert PartUnsettled(w') == PartUnsettled(w) && PartStray(a, w') == PartStray(a, w);
    assert PartWaiting(a, w') + PartHand(a, w') <= PartWaiting(a, w);
    hide *;
    ByParts(a, w);
    ByParts(a, w');
    MiddleTwo(PartVerdict(a, w), PartWaiting(a, w'), PartHand(a, w'), PartWaiting(a, w), PartHand(a, w),
              PartUnsettled(w), PartStray(a, w));
  }

  lemma FlowTake(a: Account, w: World, ev: Event)
    requires HandAgrees(w) && Can(w, Execute(ev)) && ev.Take? && Fits(a, w, Execute(ev))
    ensures var w' := ExecuteEvent(w, ev);
            Bounded(w') && OpenBag(a, w') <= OpenBag(a, w)
  {
    var t, w' := w.approved[w.taken], ExecuteEvent(w, ev);
    assert w.hand == None && w'.hand == Some(t) && Copies(a, w'.exec.pc) <= Each(a);
    assert w'.filled == w.filled && w'.stray == w.stray && w'.verdict == w.verdict;
    assert Bounded(w) && Bounded(w') && w'.settled == w.settled && w'.taken == w.taken + 1;
    assert w'.approved == w.approved;
    hide *;
    HandFilled(a, w, w', t);
  }

  /** Events of an executor with empty hands change nothing that is counted. */
  lemma FlowIdle(a: Account, w: World, ev: Event)
    requires HandAgrees(w) && Can(w, Execute(ev)) && !ev.Take? && w.hand == None && Bounded(w)
    ensures var w' := ExecuteEvent(w, ev);
            Bounded(w') && OpenBag(a, w') == OpenBag(a, w)
  {
    var w' := ExecuteEvent(w, ev);
    assert !Busy(w.exec.pc) && !Busy(w'.exec.pc);
    assert w'.filled == w.filled && w'.stray == w.stray && w'.hand == None && w'.taken == w.taken;
    hide Repeated, TicketsIn, HandAgrees, ExecuteEvent, Can;
  }

  function FillBy(w: World, ev: Event): seq<Ticket>
    requires Can(w, Execute(ev))
  {
    TicketsIn(NewEntry(w, ev, OrderFilled))
  }

  function StrayBy(a: Account, w: World, ev: Event): seq<Ticket>
    requires Can(w, Execute(ev))
  {
    if a.Orders? && GoesStray(w.exec, ev) then InHand(w.hand) else []
  }

  function OneIf(b: bool): nat {
    if b then 1 else 0
  }

  /** An order in hand pays with its own count for the fill that reaches the stream and the order that goes stray. */
  lemma CopiesPay(a: Account, e: Exec, ev: Event)
    requires WellFormed(e) && Enabled(e, ev) && !ev.Take? && Busy(e.pc)
    requires if a.Once? then ev.PublishRaised? ==> !ev.applied else a.each >= 1 && AttemptOf(e.pc) <= a.each
    ensures Copies(a, NextPc(e, ev)) + OneIf(OnStream(ev) && OutputAt(e.pc).stream == OrderFilled)
              + OneIf(a.Orders? && GoesStray(e, ev)) <= Copies(a, e.pc)
  {
  }

  lemma HandleEnds(w: World, ev: Event)
    requires HandAgrees(w) && Can(w, Execute(ev)) && !ev.Take? && w.hand.Some?
    ensures HandAfter(w, ev) == if Busy(NextPc(w.exec, ev)) then w.hand else None
  {
  }

  lemma HandledChanges(a: Account, w: World, ev: Event)
    requires HandAgrees(w) && Can(w, Execute(ev)) && !ev.Take? && w.hand.Some? && Bounded(w) && Fits(a, w, Execute(ev))
    ensures var w', t, fill, stray := ExecuteEvent(w, ev), w.hand.value, FillBy(w, ev), StrayBy(a, w, ev);
            && Bounded(w') && w'.settled == w.settled && w'.verdict == w.verdict
            && w'.approved == w.approved && w'.taken == w.taken
            && TicketsIn(w'.filled)[w.settled..] == TicketsIn(w.filled)[w.settled..] + fill
            && Strays(a, w') == Strays(a, w) + stray
            && (fill == [] || fill == [t]) && (stray == [] || stray == [t])
            && (w'.hand == w.hand || (w'.hand == None && Copies(a, w'.exec.pc) == 0))
            && Copies(a, w'.exec.pc) + |fill| + |stray| <= Copies(a, w.exec.pc)
  {
    CopiesPay(a, w.exec, ev);
    HandleEnds(w, ev);
    hide Copies, WellFormed, Enabled;
    var w', fill := ExecuteEvent(w, ev), NewEntry(w, ev, OrderFilled);
    assert TicketsIn(w'.filled) == TicketsIn(w.filled) + TicketsIn(fill);
  }

  lemma LastThree<T>(v: multiset<T>, x: multiset<T>, h': multiset<T>, u': multiset<T>, s': multiset<T>,
                     h: multiset<T>, u: multiset<T>, s: multiset<T>)
    requires h' + u' + s' <= h + u + s
    ensures v + x + h' + u' + s' <= v + x + h + u + s
  {
    assert v + x + h' + u' + s' == (v + x) + (h' + u' + s') && v + x + h + u + s == (v + x) + (h + u + s);
  }

  lemma HandPays(t: Ticket, hand: seq<Ticket>, hand': seq<Ticket>, paid: nat, owed: nat,
                 unsettled: seq<Ticket>, fill: seq<Ticket>, strays: seq<Ticket>, stray: seq<Ticket>)
    requires hand == [t] && (hand' == [t] || (hand' == [] && owed == 0))
    requires (fill == [] || fill == [t]) && (stray == [] || stray == [t])
    requires owed + |fill| + |stray| <= paid
    ensures multiset(Repeated(hand', owed)) + multiset(unsettled + fill) + multiset(strays + stray)
         <= multiset(Repeated(hand, paid)) + multiset(unsettled) + multiset(strays)
  {
    RepeatedOne(t, paid);
    RepeatedOne(t, owed);
    if hand' == [] { RepeatedNone(owed); }
    hide Repeated;
    assert multiset(unsettled + fill) == multiset(unsettled) + multiset(fill);
    assert multiset(strays + stray) == multiset(strays) + multiset(stray);
  }

  lemma HandledParts(a: Account, w: World, w': World, t: Ticket, fill: seq<Ticket>, stray: seq<Ticket>)
    requires Bounded(w) && Bounded(w') && w.hand == Some(t)
    requires w'.settled == w.settled && w'.verdict == w.verdict && w'.approved == w.approved && w'.taken == w.taken
    requires TicketsIn(w'.filled)[w.settled..] == TicketsIn(w.filled)[w.settled..] + fill
    requires Strays(a, w') == Strays(a, w) + stray
    requires (fill == [] || fill == [t]) && (stray == [] || stray == [t])
    requires w'.hand == w.hand || (w'.hand == None && Copies(a, w'.exec.pc) == 0)
    requires Copies(a, w'.exec.pc) + |fill| + |stray| <= Copies(a, w.exec.pc)
    ensures OpenBag(a, w') <= OpenBag(a, w)
  {
    hide Copies, Strays, TicketsIn, Repeated, OpenBag, Each, Approving;
    HandPays(t, InHand(w.hand), InHand(w'.hand), Copies(a, w.exec.pc), Copies(a, w'.exec.pc),
             TicketsIn(w.filled)[w.settled..], fill, Strays(a, w), stray);
    assert PartVerdict(a, w') == PartVerdict(a, w) && PartWaiting(a, w') == PartWaiting(a, w);
    assert PartHand(a, w') + PartUnsettled(w') + PartStray(a, w') <= PartHand(a, w) + PartUnsettled(w) + PartStray(a, w);
    hide *;
    ByParts(a, w);
    ByParts(a, w');
    LastThree(PartVerdict(a, w), PartWaiting(a, w), PartHand(a, w'), PartUnsettled(w'), PartStray(a, w'),
              PartHand(a, w), PartUnsettled(w), PartStray(a, w));
  }

  lemma FlowHandled(a: Account, w: World, ev: Event)
    requires HandAgrees(w) && Can(w, Execute(ev)) && !ev.Take? && w.hand.Some? && Bounded(w) && Fits(a, w, Execute(ev))
    ensures var w' := ExecuteEvent(w, ev);
            Bounded(w') && OpenBag(a, w') <= OpenBag(a, w)
  {
    HandledChanges(a, w, ev);
    var w', t, fill, stray := ExecuteEvent(w, ev), w.hand.value, FillBy(w, ev), StrayBy(a, w, ev);
    hide *;
    HandledParts(a, w, w', t, fill, stray);
  }

  lemma FlowExecute(a: Account, w: World, ev: Event)
    requires HandAgrees(w) && Can(w, Execute(ev)) && Bounded(w) && Fits(a, w, Execute(ev))
    ensures var w' := ExecuteEvent(w, ev);
            Bounded(w') && OpenBag(a, w') <= OpenBag(a, w)
  {
    if ev.Take? {
      FlowTake(a, w, ev);
    } else if w.hand.Some? {
      FlowHandled(a, w, ev);
    } else {
      FlowIdle(a, w, ev);
    }
  }

  /** A ticket enters when it is admitted, as often as it may count, leaves when a fill of it is settled, and
      otherwise can only be lost. */
  lemma Flow(a: Account, l: Limits, w: World, s: Step)
    requires HandAgrees(w) && Bounded(w) && Can(w, s) && Fits(a, w, s)
    ensures Bounded(Do(l, w, s))
    ensures OpenBag(a, Do(l, w, s)) + Leaving(w, s) <= OpenBag(a, w) + Entering(a, l, w, s)
  {
    hide HandAgrees, OpenBag, JudgeNext, RouteVerdict, ExecuteEvent, SettleEntry, Fits;
    match s {
      case Judge => FlowJudge(a, l, w);
      case Route(published) => FlowRoute(a, w, published);
      case Execute(ev) => FlowExecute(a, w, ev);
      case SettleNext => FlowSettle(a, w);
      case _ => FlowElsewhere(a, l, w, s);
    }
  }

  // ---- how often a ticket is counted

  ghost predicate FewCopies(a: Account, w: World)
    requires Bounded(w)
  {
    forall t :: OpenBag(a, w)[t] <= Each(a) && (t in OpenBag(a, w) ==> t.id < w.judged)
  }

  lemma Pointwise<T>(a: multiset<T>, b: multiset<T>, x: T)
    requires a <= b
    ensures a[x] <= b[x]
  {
  }

  lemma StillFewer(a: Account, w: World, w': World, leaving: multiset<Ticket>, entering: multiset<Ticket>)
    requires Bounded(w) && Bounded(w') && FewCopies(a, w) && w'.judged >= w.judged
    requires OpenBag(a, w') + leaving <= OpenBag(a, w) + entering && entering == multiset{}
    ensures FewCopies(a, w')
  {
    hide OpenBag;
    var bag, bag' := OpenBag(a, w), OpenBag(a, w');
    forall x ensures bag'[x] <= Each(a) && (x in bag' ==> x.id < w'.judged) {
      Pointwise(bag' + leaving, bag + entering, x);
    }
  }

  lemma StillFew(a: Account, w: World, w': World, leaving: multiset<Ticket>, entering: multiset<Ticket>, t: Ticket)
    requires Bounded(w) && Bounded(w') && FewCopies(a, w) && t.id == w.judged && w'.judged == w.judged + 1
    requires OpenBag(a, w') + leaving <= OpenBag(a, w) + entering && entering == multiset{}[t := Each(a)]
    ensures FewCopies(a, w')
  {
    hide OpenBag;
    var bag, bag' := OpenBag(a, w), OpenBag(a, w');
    forall x ensures bag'[x] <= Each(a) && (x in bag' ==> x.id < w'.judged) {
      Pointwise(bag' + leaving, bag + entering, x);
      if x == t { assert x !in bag; } else { assert entering[x] == 0; }
    }
  }

  lemma JudgedGrows(l: Limits, w: World, s: Step)
    requires Can(w, s)
    ensures Do(l, w, s).judged == if s.Judge? then w.judged + 1 else w.judged
  {
    hide Validate, ApplyResult, Next, NewEntry, CallsMade, GoesStray;
  }

  /** No ticket ever counts more often than one approval may. */
  lemma FewCopiesKept(a: Account, l: Limits, w: World, s: Step)
    requires HandAgrees(w) && Bounded(w) && Can(w, s) && Fits(a, w, s) && FewCopies(a, w)
    ensures Bounded(Do(l, w, s)) && FewCopies(a, Do(l, w, s))
  {
    Flow(a, l, w, s);
    JudgedGrows(l, w, s);
    var entering, w' := Entering(a, l, w, s), Do(l, w, s);
    if s.Judge? && Admits(l, w) {
      assert NextTicket(w).id == w.judged && entering == multiset{}[NextTicket(w) := Each(a)];
      hide *;
      StillFew(a, w, w', Leaving(w, s), entering, NextTicket(w));
    } else {
      assert entering == multiset{};
      hide *;
      StillFewer(a, w, w', Leaving(w, s), entering);
    }
  }

  // ---- what tickets weigh

  function AmountKrw(o: OrderRequest): real {
    OrZero(o.amountKrw)
  }

  /** Purchases of one market, or of any. */
  predicate Buys(t: Ticket, market: Option<string>) {
    t.order.side == Bid && (market.Some? ==> t.order.market == market.value)
  }

  function Purchases(ts: seq<Ticket>, market: Option<string>): set<Ticket> {
    set t | t in ts && Buys(t, market)
  }

  function KrwOf(market: string, t: Ticket): real {
    if Buys(t, Some(market)) then AmountKrw(t.order) else 0.0
  }

  function Krw(market: string, ts: seq<Ticket>): real {
    if ts == [] then 0.0 else Krw(market, ts[..|ts| - 1]) + KrwOf(market, ts[|ts| - 1])
  }

  lemma {:induction false} KrwConcat(market: string, a: seq<Ticket>, b: seq<Ticket>)
    ensures Krw(market, a + b) == Krw(market, a) + Krw(market, b)
  {
    if b == [] {
      assert a + b == a;
    } else {
      KrwConcat(market, a, b[..|b| - 1]);
      assert (a + b)[..|a + b| - 1] == a + b[..|b| - 1];
    }
  }

  lemma KrwWithout(market: string, ts: seq<Ticket>, i: nat)
    requires i < |ts|
    ensures Krw(market, ts) == Krw(market, ts[..i] + ts[i + 1..]) + KrwOf(market, ts[i])
    ensures multiset(ts[..i] + ts[i + 1..]) == multiset(ts) - multiset{ts[i]}
  {
    assert ts == ts[..i] + [ts[i]] + ts[i + 1..];
    KrwConcat(market, ts[..i] + [ts[i]], ts[i + 1..]);
    KrwConcat(market, ts[..i], [ts[i]]);
    KrwConcat(market, ts[..i], ts[i + 1..]);
    assert [ts[i]][..0] == [];
  }

  /** A ticket that passed the size check as a purchase with a stated amount. */
  predicate Modest(l: Limits, t: Ticket) {
    t.order.side == Bid ==> 0.0 < AmountKrw(t.order) <= l.maxSingleOrderKrw
  }

  predicate AllModest(l: Limits, ts: seq<Ticket>) {
    forall t | t in ts :: Modest(l, t)
  }

  predicate NoneNegative(market: string, ts: seq<Ticket>) {
    forall t | t in ts :: KrwOf(market, t) >= 0.0
  }

  lemma {:induction false} KrwNonnegative(market: string, ts: seq<Ticket>)
    requires NoneNegative(market, ts)
    ensures Krw(market, ts) >= 0.0
  {
    hide KrwOf;
    if ts != [] {
      assert ts[|ts| - 1] in ts;
      KrwNonnegative(market, ts[..|ts| - 1]);
    }
  }

  /** A part of a bag weighs no more than the whole. */
  lemma {:induction false} KrwOfPart(market: string, a: seq<Ticket>, b: seq<Ticket>)
    requires multiset(a) <= multiset(b) && NoneNegative(market, b)
    ensures Krw(market, a) <= Krw(market, b)
    decreases |b|
  {
    hide KrwOf;
    if a == [] {
      KrwNonnegative(market, b);
    } else {
      var n := |a| - 1;
      assert a == a[..n] + [a[n]];
      assert a[n] in multiset(b);
      var i :| 0 <= i < |b| && b[i] == a[n];
      KrwWithout(market, b, i);
      KrwOfPart(market, a[..n], b[..i] + b[i + 1..]);
    }
  }

  lemma KrwMonotone(l: Limits, market: string, a: seq<Ticket>, b: seq<Ticket>)
    requires multiset(a) <= multiset(b) && AllModest(l, b)
    ensures Krw(market, a) <= Krw(market, b)
  {
    assert NoneNegative(market, b);
    KrwOfPart(market, a, b);
  }

  function Without(ts: seq<Ticket>, t: Ticket): seq<Ticket> {
    if ts == [] then []
    else Without(ts[..|ts| - 1], t) + if ts[|ts| - 1] == t then [] else [ts[|ts| - 1]]
  }

  function Times(n: nat, x: real): real {
    n as real * x
  }

  lemma TimesPlus(n: nat, m: nat, x: real)
    ensures Times(n + m, x) == Times(n, x) + Times(m, x)
    ensures Times(0, x) == 0.0 && Times(1, x) == x
  {
  }

  lemma TimesMonotone(n: nat, m: nat, x: real, y: real)
    requires n <= m && 0.0 <= x <= y
    ensures Times(n, x) <= Times(m, y)
  {
    MulMonotone(n as real, m as real, x);
    MulMonotone(x, y, m as real);
  }

  lemma WithoutOneMore(ts: seq<Ticket>, init: seq<Ticket>, x: Ticket, t: Ticket)
    requires ts == init + [x] && multiset(ts) == multiset(init) + multiset{x}
    requires multiset(Without(init, t)) == multiset(init)[t := 0]
    ensures multiset(Without(ts, t)) == multiset(ts)[t := 0]
  {
    assert ts[..|ts| - 1] == init;
    assert Without(ts, t) == Without(init, t) + if x == t then [] else [x];
    hide Without;
  }

  lemma {:induction false} WithoutBag(ts: seq<Ticket>, t: Ticket)
    ensures multiset(Without(ts, t)) == multiset(ts)[t := 0]
  {
    if ts != [] {
      var init, x := ts[..|ts| - 1], ts[|ts| - 1];
      assert ts == init + [x] && multiset(ts) == multiset(init) + multiset{x};
      hide *;
      WithoutBag(init, t);
      WithoutOneMore(ts, init, x, t);
    }
  }

  lemma KrwAppend(market: string, ts: seq<Ticket>, t: Ticket)
    ensures Krw(market, ts + [t]) == Krw(market, ts) + KrwOf(market, t)
  {
    assert (ts + [t])[..|ts|] == ts;
  }

  lemma {:induction false} WithoutKrw(market: string, ts: seq<Ticket>, t: Ticket)
    ensures Krw(market, ts) == Krw(market, Without(ts, t)) + Times(multiset(ts)[t], KrwOf(market, t))
  {
    TimesPlus(0, 0, KrwOf(market, t));
    if ts != [] {
      var n := |ts| - 1;
      WithoutKrw(market, ts[..n], t);
      assert ts == ts[..n] + [ts[n]];
      var rest, count := Without(ts[..n], t), multiset(ts[..n])[t];
      assert Without(ts, t) == if ts[n] == t then rest else rest + [ts[n]];
      assert multiset(ts)[t] == if ts[n] == t then count + 1 else count;
      hide *;
      KrwAppend(market, ts[..n], ts[n]);
      KrwAppend(market, rest, ts[n]);
      TimesPlus(count, 1, KrwOf(market, t));
    }
  }

  lemma PurchasesWithout(market: string, ts: seq<Ticket>, rest: seq<Ticket>, t: Ticket)
    requires multiset(rest) == multiset(ts)[t := 0]
    ensures forall x :: x in rest <==> x in ts && x != t
    ensures Purchases(rest, Some(market)) == Purchases(ts, Some(market)) - {t}
  {
    forall x ensures x in rest <==> x in ts && x != t {
      assert x in multiset(rest) <==> x in multiset(ts) && x != t;
    }
  }

  lemma OneTicketMore(each: nat, n: nat, x: real)
    ensures Times(each * (n + 1), x) == Times(each * n, x) + Times(each, x)
  {
    assert each * (n + 1) == each * n + each;
    TimesPlus(each * n, each, x);
  }

  lemma {:induction false} NothingBought(market: string, ts: seq<Ticket>)
    requires Purchases(ts, Some(market)) == {}
    ensures Krw(market, ts) == 0.0
  {
    if ts != [] {
      assert ts[|ts| - 1] in ts && ts[|ts| - 1] !in Purchases(ts, Some(market));
      forall t | t in Purchases(ts[..|ts| - 1], Some(market)) ensures t in Purchases(ts, Some(market)) { }
      NothingBought(market, ts[..|ts| - 1]);
    }
  }

  /** What a bag weighs by the number of its different purchases, when each is counted at most so often. */
  lemma {:induction false} KrwByTickets(l: Limits, market: string, ts: seq<Ticket>, each: nat)
    requires AllModest(l, ts) && l.maxSingleOrderKrw >= 0.0 && forall t :: multiset(ts)[t] <= each
    ensures Krw(market, ts) <= Times(each * |Purchases(ts, Some(market))|, l.maxSingleOrderKrw)
    decreases |Purchases(ts, Some(market))|
  {
    var buys := Purchases(ts, Some(market));
    if buys == {} {
      NothingBought(market, ts);
      TimesPlus(0, 0, l.maxSingleOrderKrw);
    } else {
      var t :| t in buys;
      WithoutBag(ts, t);
      WithoutKrw(market, ts, t);
      var rest := Without(ts, t);
      PurchasesWithout(market, ts, rest, t);
      assert Modest(l, t) && 0.0 <= KrwOf(market, t) <= l.maxSingleOrderKrw;
      assert |Purchases(rest, Some(market))| == |buys| - 1;
      hide *;
      KrwByTickets(l, market, rest, each);
      OneTicketMore(each, |buys| - 1, l.maxSingleOrderKrw);
      TimesMonotone(multiset(ts)[t], each, KrwOf(market, t), l.maxSingleOrderKrw);
    }
  }
}
