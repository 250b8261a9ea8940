/** What a fill is worth to the ledger: the product of what the exchange reports as volume and as price. */
module PipelineFills {
  import opened Prelude
  import opened Messages
  import opened RiskLedger
  import opened ExecutorMachine
  import opened OrderPipeline
  import opened PipelineFlow
  import opened PipelineExposure
  import opened PipelineHolding

  function ViewValue(v: OrderView): real {
    OrZero(v.executedVolume) * OrZero(v.price)
  }

  /** A done order is reported as worth no less than nothing and, for a purchase, no more than its amount. */
  predicate ViewWithin(o: OrderRequest, v: OrderView) {
    v.state == Done ==> 0.0 <= ViewValue(v) && (o.side == Bid ==> ViewValue(v) <= AmountKrw(o))
  }

  ghost predicate ReportWithin(l: Limits, w0: World, before: seq<Step>, s: Step) {
    var w := Run(l, w0, before);
    var polled := s.Execute? && s.event.GetReturned? && w.Some? && w.value.exec.pc.Polling?;
    polled ==> ViewWithin(w.value.exec.pc.order, s.event.view)
  }

  /** All reports of the exchange in a run are of that kind, each about the order then in hand. */
  ghost predicate ViewsWithin(l: Limits, w0: World, steps: seq<Step>) {
    forall i | 0 <= i < |steps| :: ReportWithin(l, w0, steps[..i], steps[i])
  }

  /** At the i-th step the exchange reported on the order in hand, and this is the result made of it. */
  ghost predicate ReportedAt(l: Limits, w0: World, steps: seq<Step>, t: Ticket, r: OrderResult, i: nat) {
    && i < |steps| && steps[i].Execute? && steps[i].event.GetReturned?
    && var w := Run(l, w0, steps[..i]);
       && w.Some? && w.value.exec.pc.Polling? && w.value.exec.pc.order == t.order
       && r == ResultOf(t.order, steps[i].event.uuid, steps[i].event.view)
  }

  ghost predicate WasReported(l: Limits, w0: World, steps: seq<Step>, t: Ticket, r: OrderResult) {
    exists i :: 0 <= i < |steps| && ReportedAt(l, w0, steps, t, r, i)
  }

  lemma ReportedLater(l: Limits, w0: World, steps: seq<Step>, s: Step, t: Ticket, r: OrderResult)
    requires WasReported(l, w0, steps, t, r)
    ensures WasReported(l, w0, steps + [s], t, r)
  {
    var i :| 0 <= i < |steps| && ReportedAt(l, w0, steps, t, r, i);
    assert (steps + [s])[..i] == steps[..i];
    hide Run, ResultOf;
    assert ReportedAt(l, w0, steps + [s], t, r, i);
  }

  /** What an event adds to the reported results. */
  lemma ReportsMove(w: World, ev: Event)
    requires HandAgrees(w) && Can(w, Execute(ev)) && !w.exec.dryRun
    ensures var w' := ExecuteEvent(w, ev);
            && !w'.exec.dryRun
            && (w'.exec.pc.PublishingFill? && !w.exec.pc.PublishingFill? ==>
                  && ev.GetReturned? && w.exec.pc.Polling? && w'.hand == w.hand && w.hand.Some?
                  && w.exec.pc.order == w.hand.value.order
                  && w'.exec.pc.result == ResultOf(w.hand.value.order, ev.uuid, ev.view))
            && (w'.exec.pc.PublishingFill? && w.exec.pc.PublishingFill? ==>
                  w'.hand == w.hand && w'.exec.pc.result == w.exec.pc.result)
            && (forall e | e in NewEntry(w, ev, OrderFilled) ::
                  w.exec.pc.PublishingFill? && w.hand == Some(e.ticket) && e.result == w.exec.pc.result)
            && w'.filled == w.filled + NewEntry(w, ev, OrderFilled)
  {
    assert w.exec.pc.PublishingDryRun? ==> w.exec.dryRun;
    hide ResultOf, CallsMade, GoesStray, PlacementOf;
  }

  /** The result being published and all results on the stream were made of what the exchange reported. */
  ghost predicate AllReported(l: Limits, w0: World, steps: seq<Step>, w: World) {
    && (w.exec.pc.PublishingFill? ==> w.hand.Some? && WasReported(l, w0, steps, w.hand.value, w.exec.pc.result))
    && forall e | e in w.filled :: WasReported(l, w0, steps, e.ticket, e.result)
  }

  lemma ReportedNow(l: Limits, w0: World, init: seq<Step>, w: World, ev: Event)
    requires Run(l, w0, init) == Some(w) && ev.GetReturned? && w.exec.pc.Polling? && w.hand.Some?
    requires w.exec.pc.order == w.hand.value.order
    ensures WasReported(l, w0, init + [Execute(ev)], w.hand.value, ResultOf(w.hand.value.order, ev.uuid, ev.view))
  {
    hide Run, ResultOf;
    var steps := init + [Execute(ev)];
    assert steps[..|init|] == init && steps[|init|] == Execute(ev);
    assert ReportedAt(l, w0, steps, w.hand.value, ResultOf(w.hand.value.order, ev.uuid, ev.view), |init|);
  }

  lemma EventReported(l: Limits, w0: World, init: seq<Step>, w: World, ev: Event)
    requires Run(l, w0, init) == Some(w) && HandAgrees(w) && Can(w, Execute(ev)) && !w.exec.dryRun
    requires AllReported(l, w0, init, w)
    ensures AllReported(l, w0, init + [Execute(ev)], ExecuteEvent(w, ev)) && !ExecuteEvent(w, ev).exec.dryRun
  {
    ReportsMove(w, ev);
    var w', s := ExecuteEvent(w, ev), Execute(ev);
    hide ExecuteEvent, Can, HandAgrees, Run, WasReported, ResultOf, NewEntry;
    forall e | e in w.filled ensures WasReported(l, w0, init + [s], e.ticket, e.result) {
      ReportedLater(l, w0, init, s, e.ticket, e.result);
    }
    if w.exec.pc.PublishingFill? {
      ReportedLater(l, w0, init, s, w.hand.value, w.exec.pc.result);
    } else if w'.exec.pc.PublishingFill? {
      ReportedNow(l, w0, init, w, ev);
    }
  }

  lemma OthersReported(l: Limits, w0: World, init: seq<Step>, w: World, s: Step)
    requires Can(w, s) && !s.Execute? && !w.exec.dryRun && AllReported(l, w0, init, w)
    ensures AllReported(l, w0, init + [s], Do(l, w, s)) && !Do(l, w, s).exec.dryRun
  {
    var w' := Do(l, w, s);
    assert w'.filled == w.filled && w'.exec == w.exec && w'.hand == w.hand by { hide Validate, ApplyResult, RiskStep; }
    hide Do, Can, WasReported;
    forall e | e in w.filled ensures WasReported(l, w0, init + [s], e.ticket, e.result) {
      ReportedLater(l, w0, init, s, e.ticket, e.result);
    }
    if w.exec.pc.PublishingFill? { ReportedLater(l, w0, init, s, w.hand.value, w.exec.pc.result); }
  }

  lemma ReportedStep(l: Limits, w0: World, init: seq<Step>, w: World, s: Step)
    requires Run(l, w0, init) == Some(w) && HandAgrees(w) && Can(w, s) && !w.exec.dryRun && AllReported(l, w0, init, w)
    ensures AllReported(l, w0, init + [s], Do(l, w, s)) && !Do(l, w, s).exec.dryRun
  {
    hide AllReported, Run, HandAgrees, ExecuteEvent, JudgeNext, SettleEntry, RouteVerdict, RiskStep;
    if s.Execute? {
      EventReported(l, w0, init, w, s.event);
    } else {
      OthersReported(l, w0, init, w, s);
    }
  }

  /** In a live run every result on order:filled is made of what the exchange reported on that very order. */
  lemma {:induction false} FillsAreReports(l: Limits, risk: RiskState, steps: seq<Step>)
    requires Runs(l, Start(false, risk), steps)
    ensures var w := Run(l, Start(false, risk), steps).value;
            AllReported(l, Start(false, risk), steps, w) && !w.exec.dryRun
  {
    var w0 := Start(false, risk);
    assert Run(l, w0, []) == Some(w0) && AllReported(l, w0, [], w0) && !w0.exec.dryRun;
    hide Start, Run, Can, Do, AllReported, HandAgrees, JudgedAccounted, TakenAccounted;
    if steps != [] {
      var init, s := steps[..|steps| - 1], steps[|steps| - 1];
      Before(l, w0, steps);
      InvAlways(l, false, risk, init);
      FillsAreReports(l, risk, init);
      assert init + [s] == steps;
      ReportedStep(l, w0, init, Run(l, w0, init).value, s);
    }
  }

  lemma ReportOf(l: Limits, w0: World, steps: seq<Step>, e: Entry) returns (i: nat)
    requires WasReported(l, w0, steps, e.ticket, e.result)
    ensures i < |steps| && ReportedAt(l, w0, steps, e.ticket, e.result, i)
    ensures Counts(e.result) <==> steps[i].event.view.state == Done
    ensures ValueOf(e.result) == ViewValue(steps[i].event.view) && e.result.orderUuid == steps[i].event.uuid
  {
    hide Run;
    i :| 0 <= i < |steps| && ReportedAt(l, w0, steps, e.ticket, e.result, i);
  }

  lemma ReportsTell(l: Limits, w0: World, steps: seq<Step>, e: Entry, i: nat)
    requires i < |steps| && ReportedAt(l, w0, steps, e.ticket, e.result, i)
    ensures var w := Run(l, w0, steps[..i]);
            && steps[i].Execute? && steps[i].event.GetReturned? && w.Some? && w.value.exec.pc.Polling?
            && w.value.exec.pc.order == e.ticket.order
  {
    hide Run, ResultOf;
  }

  /** The ledger's assumption about fills comes down to what the exchange reports: it holds of every live run in which no
      finished purchase is reported as worth more than its amount. */
  lemma FillsFromViews(l: Limits, risk: RiskState, steps: seq<Step>)
    requires Runs(l, Start(false, risk), steps) && ViewsWithin(l, Start(false, risk), steps)
    ensures FillsWithinApproval(Run(l, Start(false, risk), steps).value)
  {
    FillsAreReports(l, risk, steps);
    var w0, w := Start(false, risk), Run(l, Start(false, risk), steps).value;
    hide Run, WasReported, ReportedAt, ViewValue, ValueOf, Start, AmountKrw;
    forall e | e in w.filled && Counts(e.result)
      ensures 0.0 <= ValueOf(e.result) && (e.ticket.order.side == Bid ==> ValueOf(e.result) <= AmountKrw(e.ticket.order))
    {
      var i := ReportOf(l, w0, steps, e);
      assert ReportWithin(l, w0, steps[..i], steps[i]);
      ReportsTell(l, w0, steps, e, i);
    }
  }

  predicate ViewValued(o: OrderRequest, u: string, v: OrderView, least: real, most: real, proceeds: map<string, real>) {
    if o.side == Bid then Part(least, AmountKrw(o)) <= ViewValue(v)
    else 0.0 <= Brought(proceeds, u) && ViewValue(v) <= Part(most, Brought(proceeds, u))
  }

  /** A done purchase is reported as worth no less than that part of its amount, a done sale as no more than that multiple of
      what it brought in. */
  ghost predicate ReportValued(l: Limits, w0: World, before: seq<Step>, s: Step, least: real, most: real,
                               proceeds: map<string, real>) {
    var w := Run(l, w0, before);
    var done := s.Execute? && s.event.GetReturned? && s.event.view.state == Done && w.Some? && w.value.exec.pc.Polling?;
    done ==> ViewValued(w.value.exec.pc.order, s.event.uuid, s.event.view, least, most, proceeds)
  }

  /** And so does the one that the share rests on, that purchases are not undervalued nor sales overvalued. */
  lemma ValuedFromViews(l: Limits, risk: RiskState, steps: seq<Step>, least: real, most: real, proceeds: map<string, real>)
    requires Runs(l, Start(false, risk), steps)
    requires forall i | 0 <= i < |steps| ::
               ReportValued(l, Start(false, risk), steps[..i], steps[i], least, most, proceeds)
    ensures Valued(Run(l, Start(false, risk), steps).value, least, most, proceeds)
  {
    FillsAreReports(l, risk, steps);
    var w0, w := Start(false, risk), Run(l, Start(false, risk), steps).value;
    hide Run, WasReported, ReportedAt, ViewValue, ValueOf, Start, AmountKrw, Part, Brought;
    forall e | e in w.filled && Counts(e.result)
      ensures e.ticket.order.side == Bid ==> Part(least, AmountKrw(e.ticket.order)) <= ValueOf(e.result)
      ensures e.ticket.order.side != Bid ==>
                && 0.0 <= Brought(proceeds, e.result.orderUuid)
                && ValueOf(e.result) <= Part(most, Brought(proceeds, e.result.orderUuid))
    {
      var i := ReportOf(l, w0, steps, e);
      assert ReportValued(l, w0, steps[..i], steps[i], least, most, proceeds);
      ReportsTell(l, w0, steps, e, i);
    }
  }

  lemma TimesPrice(volume: real, price: real)
    requires price > 0.0
    ensures volume == 1.0 ==> Part(volume, price) == price
    ensures volume < 1.0 ==> Part(volume, price) < price
    ensures volume > 1.0 ==> Part(volume, price) > price
  {
    if volume > 1.0 { MulPositive(volume - 1.0, price); }
    if volume < 1.0 { MulPositive(1.0 - volume, price); }
  }

  /** What the ledger makes of a finished market purchase, which is placed with its KRW amount as the price: nothing if no price
      is reported; if that price is reported back, its cost exactly when one unit was bought, less than its cost exactly when
      less was bought, and more when more was. */
  lemma MarketPurchaseWorth(o: OrderRequest, v: OrderView)
    requires o.side == Bid && o.orderType == Market && !Truthy(o.price) && o.amountKrw.Some? && o.amountKrw.value > 0.0
    ensures v.price.None? ==> ViewValue(v) == 0.0
    ensures v.price == PlacementOf(o).price ==>
              && (ViewValue(v) == AmountKrw(o) <==> OrZero(v.executedVolume) == 1.0)
              && (ViewValue(v) < AmountKrw(o) <==> OrZero(v.executedVolume) < 1.0)
              && (ViewValue(v) > AmountKrw(o) <==> OrZero(v.executedVolume) > 1.0)
  {
    assert v.price.None? ==> ViewValue(v) == 0.0;
    assert v.price == PlacementOf(o).price ==> OrZero(v.price) == AmountKrw(o);
    assert ViewValue(v) == Part(OrZero(v.executedVolume), OrZero(v.price)) && AmountKrw(o) > 0.0;
    hide *;
    TimesPrice(OrZero(v.executedVolume), AmountKrw(o));
  }
}
