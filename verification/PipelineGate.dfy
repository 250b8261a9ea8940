/** What still happens once the gate is shut, by the kill switch or by a halt. */
module PipelineGate {
  import opened Prelude
  import opened Messages
  import opened RiskLedger
  import opened ExecutorMachine
  import opened OrderPipeline
  import opened PipelineFlow
  import opened PipelineSafety

  predicate Shut(s: RiskState) {
    !s.enabled || s.halted
  }

  /** Create calls made, and those that the orders already past the gate may still cause. */
  function CallsInAll(w: World): int {
    |w.calls| + Left(CreateCalls, w.exec.pc) + 3 * (|w.approved| - w.taken + |Approving(w.verdict)|)
  }

  function ApprovedInAll(w: World): nat {
    |w.approved| + |Approving(w.verdict)|
  }

  lemma ExecutionShrinks(w: World, ev: Event)
    requires HandAgrees(w) && Can(w, Execute(ev))
    ensures CallsInAll(ExecuteEvent(w, ev)) <= CallsInAll(w)
    ensures ApprovedInAll(ExecuteEvent(w, ev)) == ApprovedInAll(w)
    ensures w.approved == ExecuteEvent(w, ev).approved
  {
    ExecuteKeepsVerdicts(w, ev);
    StepPaidFor(CreateCalls, w.exec, ev);
    EventEffects(w, ev);
    hide ExecuteEvent, Left, HandAgrees, Can, NextPc, Cost, HandAfter, CallsMade;
  }

  lemma NothingPassesShut(l: Limits, w: World, s: Step)
    requires HandAgrees(w) && Can(w, s) && Shut(w.risk)
    ensures CallsInAll(Do(l, w, s)) <= CallsInAll(w)
    ensures ApprovedInAll(Do(l, w, s)) <= ApprovedInAll(w)
    ensures w.approved <= Do(l, w, s).approved
  {
    match s {
      case Execute(ev) => ExecutionShrinks(w, ev);
      case _ => hide Left, ApplyResult, SumValues;
    }
  }

  ghost predicate ShutAt(l: Limits, w: World, steps: seq<Step>) {
    var v := Run(l, w, steps);
    v.Some? && Shut(v.value.risk)
  }

  /** The gate is shut in every state from which a step of the run is made. */
  ghost predicate ShutThroughout(l: Limits, w: World, steps: seq<Step>) {
    forall i | 0 <= i < |steps| :: ShutAt(l, w, steps[..i])
  }

  lemma ApprovedFit(w: World)
    ensures |w.approved| <= ApprovedInAll(w)
  {
  }

  /** While the gate stays shut, only the verdict already reached can still be published, and create calls
      number at most three for each order then approved or about to be, plus what the one in hand has left. */
  lemma {:induction false} Drain(l: Limits, w: World, steps: seq<Step>)
    requires HandAgrees(w) && Runs(l, w, steps) && ShutThroughout(l, w, steps)
    ensures var v := Run(l, w, steps).value;
            && HandAgrees(v)
            && w.approved <= v.approved && |v.approved| <= |w.approved| + |Approving(w.verdict)|
            && CallsInAll(v) <= CallsInAll(w) && ApprovedInAll(v) <= ApprovedInAll(w)
  {
    if steps != [] {
      var init, s := steps[..|steps| - 1], steps[|steps| - 1];
      Before(l, w, steps);
      forall i | 0 <= i < |init| ensures ShutAt(l, w, init[..i]) { assert init[..i] == steps[..i]; }
      Drain(l, w, init);
      assert ShutAt(l, w, steps[..|init|]);
      var v := Run(l, w, init).value;
      hide Do, Can, HandAgrees, CallsInAll, ApprovedInAll;
      NothingPassesShut(l, v, s);
      HandKept(l, v, s);
      ApprovedFit(Do(l, v, s));
    } else {
      hide HandAgrees, CallsInAll;
    }
  }

  predicate NeverSwitchedOn(steps: seq<Step>) {
    forall s | s in steps :: s != Observe(SwitchSet(true))
  }

  lemma OffKept(l: Limits, w: World, s: Step)
    requires Can(w, s) && s != Observe(SwitchSet(true)) && !w.risk.enabled
    ensures !Do(l, w, s).risk.enabled
  {
    match s {
      case Execute(ev) => ExecuteKeepsVerdicts(w, ev);
      case _ => hide Settle, SumValues;
    }
  }

  lemma ShutLonger(l: Limits, w: World, steps: seq<Step>)
    requires steps != [] && ShutThroughout(l, w, steps[..|steps| - 1])
    requires ShutAt(l, w, steps[..|steps| - 1])
    ensures ShutThroughout(l, w, steps)
  {
    hide ShutAt;
    var init := steps[..|steps| - 1];
    forall i | 0 <= i < |steps| ensures ShutAt(l, w, steps[..i]) {
      if i < |init| { assert init[..i] == steps[..i] && ShutAt(l, w, init[..i]); }
    }
  }

  lemma {:induction false} StaysOff(l: Limits, w: World, steps: seq<Step>)
    requires Runs(l, w, steps) && !w.risk.enabled && NeverSwitchedOn(steps)
    ensures !Run(l, w, steps).value.risk.enabled
    ensures ShutThroughout(l, w, steps)
  {
    if steps != [] {
      var n := |steps| - 1;
      Before(l, w, steps);
      assert forall s | s in steps[..n] :: s in steps;
      assert steps[n] in steps;
      StaysOff(l, w, steps[..n]);
      OffKept(l, Run(l, w, steps[..n]).value, steps[n]);
      ShutLonger(l, w, steps);
    }
  }

  lemma LeftByHand(w: World)
    requires HandAgrees(w)
    ensures 0 <= Left(CreateCalls, w.exec.pc) <= 3 * |InHand(w.hand)|
  {
    LeftNonnegative(CreateCalls, w.exec);
  }

  /** Calls that may still follow a moment at which the gate shuts: three for each order past the gate then. */
  lemma CallsAfter(w: World, v: World)
    requires HandAgrees(w) && HandAgrees(v) && v.taken <= |v.approved| && CallsInAll(v) <= CallsInAll(w)
    ensures |v.calls| <= |w.calls| + 3 * (|w.approved| - w.taken + |Approving(w.verdict)| + |InHand(w.hand)|)
  {
    LeftByHand(w);
    LeftByHand(v);
    hide Left, HandAgrees;
  }

  lemma {:induction false} InvOnwards(l: Limits, w: World, steps: seq<Step>)
    requires Inv(w) && Runs(l, w, steps)
    ensures Inv(Run(l, w, steps).value)
  {
    if steps != [] {
      var n := |steps| - 1;
      Before(l, w, steps);
      InvOnwards(l, w, steps[..n]);
      var v := Run(l, w, steps[..n]).value;
      HandKept(l, v, steps[n]);
      JudgedKept(l, v, steps[n]);
      TakenKept(l, v, steps[n]);
    }
  }

  lemma DrainOfRun(l: Limits, dryRun: bool, risk: RiskState, before: seq<Step>, steps: seq<Step>)
    requires Runs(l, Start(dryRun, risk), before)
    requires Runs(l, Run(l, Start(dryRun, risk), before).value, steps)
    requires ShutThroughout(l, Run(l, Start(dryRun, risk), before).value, steps)
    ensures var w := Run(l, Start(dryRun, risk), before).value;
            var v := Run(l, w, steps).value;
            && w.approved <= v.approved && |v.approved| <= |w.approved| + |Approving(w.verdict)|
            && |v.calls| <= |w.calls| + 3 * (|w.approved| - w.taken + |Approving(w.verdict)| + |InHand(w.hand)|)
  {
    var w0 := Start(dryRun, risk);
    var w := Run(l, w0, before).value;
    InvAlways(l, dryRun, risk, before);
    Drain(l, w, steps);
    InvOnwards(l, w, steps);
    CallsAfter(w, Run(l, w, steps).value);
  }

  /** Kill switch: from any moment of a run at which trading is disabled, and while it stays so, nothing new is
      approved except a verdict already reached, and later create calls are three at most for each order then
      past the gate. */
  lemma KillSwitchDrain(l: Limits, dryRun: bool, risk: RiskState, before: seq<Step>, steps: seq<Step>)
    requires Runs(l, Start(dryRun, risk), before)
    requires Runs(l, Run(l, Start(dryRun, risk), before).value, steps)
    requires !Run(l, Start(dryRun, risk), before).value.risk.enabled && NeverSwitchedOn(steps)
    ensures var w := Run(l, Start(dryRun, risk), before).value;
            var v := Run(l, w, steps).value;
            && w.approved <= v.approved && |v.approved| <= |w.approved| + |Approving(w.verdict)|
            && |v.calls| <= |w.calls| + 3 * (|w.approved| - w.taken + |Approving(w.verdict)| + |InHand(w.hand)|)
  {
    var w := Run(l, Start(dryRun, risk), before).value;
    StaysOff(l, w, steps);
    DrainOfRun(l, dryRun, risk, before, steps);
  }

  /** With trading disabled, something more can still be approved exactly when a verdict to approve was already
      reached and not yet published. */
  lemma ApprovalGrowsIffVerdictReached(l: Limits, w: World)
    requires Inv(w) && !w.risk.enabled
    ensures (exists steps :: Runs(l, w, steps) && NeverSwitchedOn(steps) && |Run(l, w, steps).value.approved| > |w.approved|)
       <==> w.verdict.ToApprove?
  {
    if w.verdict.ToApprove? {
      var steps := [Route(true)];
      assert steps[..0] == [] && Run(l, w, []) == Some(w);
      assert Run(l, w, steps) == Some(RouteVerdict(w, true));
      assert Runs(l, w, steps) && NeverSwitchedOn(steps);
    } else {
      forall steps | Runs(l, w, steps) && NeverSwitchedOn(steps)
        ensures |Run(l, w, steps).value.approved| <= |w.approved|
      {
        StaysOff(l, w, steps);
        Drain(l, w, steps);
      }
    }
  }

  // ---- when the exchange is still called after the switch is off

  /** Some order past the gate can still cause a create call. */
  predicate CallsToCome(w: World) {
    && !w.exec.dryRun && !w.exec.pc.Ended?
    && (Left(CreateCalls, w.exec.pc) > 0 || w.taken < |w.approved| || w.verdict.ToApprove?)
  }

  lemma RunCons(l: Limits, w: World, s: Step, rest: seq<Step>)
    requires Can(w, s)
    ensures Run(l, w, [s] + rest) == Run(l, Do(l, w, s), rest)
    decreases |rest|
  {
    hide Do, Can;
    var all := [s] + rest;
    if rest == [] {
      assert all[..0] == [] && all == [s];
    } else {
      RunCons(l, w, s, rest[..|rest| - 1]);
      assert all[..|all| - 1] == [s] + rest[..|rest| - 1] && all[|all| - 1] == rest[|rest| - 1];
    }
  }

  /** What can happen next on the shortest way to another create call. */
  function Onward(w: World): Step
    requires CallsToCome(w)
  {
    match w.exec.pc
    case Idle => if w.taken < |w.approved| then Execute(Take(w.approved[w.taken].order)) else Route(true)
    case Creating(_, _) => Execute(CreateReturned(""))
    case Sleeping(_, _, _, _) => Execute(PollSlept)
    case Polling(_, _, _, _) => Execute(GetRaised)
    case TimedOut(_, a, u) => Execute(CancelTried(u, a < MAX_RETRIES, true))
    case PublishingFill(_, _, _) => Execute(PublishRaised(false, false))
    case BackingOff(_, a) => Execute(BackoffSlept(BackoffSeconds(a)))
    case _ => Execute(Published)
  }

  function WaitingCount(w: World): int {
    |w.approved| - w.taken + 2 * |Approving(w.verdict)|
  }

  lemma OnwardIdle(l: Limits, w: World)
    requires HandAgrees(w) && CallsToCome(w) && w.exec.pc.Idle? && w.taken <= |w.approved|
    ensures Can(w, Onward(w)) && Onward(w) != Observe(SwitchSet(true))
    ensures var w' := Do(l, w, Onward(w));
            CallsToCome(w') && w'.calls == w.calls && WaitingCount(w') < WaitingCount(w)
  {
    hide NewEntry, GoesStray, PlacementOf;
  }

  lemma OnwardKeepsCalls(w: World)
    requires HandAgrees(w) && CallsToCome(w) && !w.exec.pc.Idle? && Can(w, Onward(w))
    ensures var ev := Onward(w).event;
            && Cost(Steps, ev) == 1 && !NextPc(w.exec, ev).Ended?
            && Cost(CreateCalls, ev) == (if w.exec.pc.Creating? then 1 else 0)
            && (!w.exec.pc.Creating? ==> Left(CreateCalls, NextPc(w.exec, ev)) == Left(CreateCalls, w.exec.pc))
  {
  }

  lemma OnwardBusy(l: Limits, w: World)
    requires HandAgrees(w) && CallsToCome(w) && !w.exec.pc.Idle?
    ensures Can(w, Onward(w)) && Onward(w) != Observe(SwitchSet(true))
    ensures var w' := Do(l, w, Onward(w));
            if w.exec.pc.Creating? then |w'.calls| > |w.calls|
            else
              && CallsToCome(w') && w'.calls == w.calls && WaitingCount(w') <= WaitingCount(w)
              && Left(Steps, w'.exec.pc) < Left(Steps, w.exec.pc)
  {
    assert Can(w, Onward(w));
    var ev := Onward(w).event;
    EventEffects(w, ev);
    ExecuteKeepsVerdicts(w, ev);
    StepPaidFor(Steps, w.exec, ev);
    OnwardKeepsCalls(w);
    hide ExecuteEvent, NewEntry, GoesStray, CallsMade, HandAfter, PlacementOf, HandAgrees, Left;
  }

  lemma OnwardStep(l: Limits, w: World)
    requires HandAgrees(w) && CallsToCome(w) && w.taken <= |w.approved|
    ensures Can(w, Onward(w)) && Onward(w) != Observe(SwitchSet(true))
    ensures var w' := Do(l, w, Onward(w));
            if w.exec.pc.Creating? then |w'.calls| > |w.calls|
            else
              && CallsToCome(w') && w'.calls == w.calls && WaitingCount(w') <= WaitingCount(w)
              && (w.exec.pc.Idle? ==> WaitingCount(w') < WaitingCount(w))
              && (!w.exec.pc.Idle? ==> Left(Steps, w'.exec.pc) < Left(Steps, w.exec.pc))
  {
    if w.exec.pc.Idle? {
      OnwardIdle(l, w);
    } else {
      OnwardBusy(l, w);
    }
  }

  lemma StepsLeft(w: World)
    requires HandAgrees(w)
    ensures Left(Steps, w.exec.pc) >= 0 && |Approving(w.verdict)| >= 0
  {
    LeftNonnegative(Steps, w.exec);
  }

  lemma TakenWithin(l: Limits, w: World, s: Step)
    requires Can(w, s) && w.taken <= |w.approved|
    ensures Do(l, w, s).taken <= |Do(l, w, s).approved|
  {
    match s {
      case Execute(ev) => hide Enabled, Next, NewEntry, CallsMade, GoesStray, HandAfter;
      case _ => hide Validate, ApplyResult;
    }
  }

  /** As long as there are calls to come, a run leads to one without the switch being touched. */
  lemma Drive(l: Limits, w: World) returns (steps: seq<Step>)
    requires HandAgrees(w) && CallsToCome(w) && w.taken <= |w.approved|
    ensures Runs(l, w, steps) && NeverSwitchedOn(steps) && |Run(l, w, steps).value.calls| > |w.calls|
    decreases WaitingCount(w), Left(Steps, w.exec.pc)
  {
    OnwardStep(l, w);
    var s := Onward(w);
    var w' := Do(l, w, s);
    HandKept(l, w, s);
    TakenWithin(l, w, s);
    StepsLeft(w);
    if w.exec.pc.Creating? {
      hide Do, Can;
      steps := [s];
      assert steps == [s] + [] && Run(l, w', []) == Some(w');
      RunCons(l, w, s, []);
    } else {
      hide Do, Can, HandAgrees, CallsToCome, WaitingCount, Left;
      var rest := Drive(l, w');
      steps := [s] + rest;
      RunCons(l, w, s, rest);
    }
  }

  lemma EndedStep(l: Limits, w: World, s: Step)
    requires HandAgrees(w) && Can(w, s) && (w.exec.pc.Ended? || w.exec.dryRun)
    ensures var v := Do(l, w, s); v.calls == w.calls && (v.exec.pc.Ended? || v.exec.dryRun)
  {
    match s {
      case Execute(ev) => EventEffects(w, ev);
      case _ => hide Validate, ApplyResult;
    }
  }

  /** A task that has ended never calls again. */
  lemma {:induction false} EndedCallsNothing(l: Limits, w: World, steps: seq<Step>)
    requires HandAgrees(w) && Runs(l, w, steps) && (w.exec.pc.Ended? || w.exec.dryRun)
    ensures var v := Run(l, w, steps).value;
            HandAgrees(v) && v.calls == w.calls && (v.exec.pc.Ended? || v.exec.dryRun)
  {
    if steps != [] {
      var init, s := steps[..|steps| - 1], steps[|steps| - 1];
      Before(l, w, steps);
      EndedCallsNothing(l, w, init);
      var v := Run(l, w, init).value;
      HandKept(l, v, s);
      hide HandAgrees, Can, Run;
      EndedStep(l, v, s);
    }
  }

  lemma NoCallsLeft(w: World, v: World)
    requires !CallsToCome(w) && !w.exec.pc.Ended? && !w.exec.dryRun && HandAgrees(w) && HandAgrees(v)
    requires w.taken <= |w.approved| && v.taken <= |v.approved| && CallsInAll(v) <= CallsInAll(w)
    ensures |v.calls| <= |w.calls|
  {
    LeftByHand(w);
    LeftByHand(v);
    hide Left, HandAgrees;
  }

  /** After the switch is off the exchange can still be asked for an order exactly when this is no dry run, the executor's
      task has not ended, and the order in hand has an attempt left, or some order is approved and unread, or a
      verdict to approve has been reached. */
  lemma FurtherCallIff(l: Limits, w: World)
    requires Inv(w) && !w.risk.enabled
    ensures (exists steps :: Runs(l, w, steps) && NeverSwitchedOn(steps) && |Run(l, w, steps).value.calls| > |w.calls|)
       <==> CallsToCome(w)
  {
    if CallsToCome(w) {
      var steps := Drive(l, w);
    } else {
      forall steps | Runs(l, w, steps) && NeverSwitchedOn(steps) ensures |Run(l, w, steps).value.calls| <= |w.calls| {
        if w.exec.pc.Ended? || w.exec.dryRun {
          EndedCallsNothing(l, w, steps);
        } else {
          StaysOff(l, w, steps);
          Drain(l, w, steps);
          InvOnwards(l, w, steps);
          hide Run, HandAgrees, JudgedAccounted;
          NoCallsLeft(w, Run(l, w, steps).value);
        }
      }
    }
  }

  // ---- a halt

  ghost predicate ResetsAt(l: Limits, w: World, steps: seq<Step>, i: nat)
    requires i < |steps|
  {
    var v := Run(l, w, steps[..i]);
    steps[i].Observe? && steps[i].risk.ResetChecked? && v.Some? && ResetDue(v.value.risk, steps[i].risk.now)
  }

  /** No daily reset of the run takes effect. */
  ghost predicate NeverReset(l: Limits, w: World, steps: seq<Step>) {
    forall i | 0 <= i < |steps| :: !ResetsAt(l, w, steps, i)
  }

  lemma HaltKept(l: Limits, w: World, s: Step)
    requires Can(w, s) && w.risk.halted
    requires s.Observe? && s.risk.ResetChecked? ==> !ResetDue(w.risk, s.risk.now)
    ensures Do(l, w, s).risk.halted
  {
    match s {
      case Execute(ev) => ExecuteKeepsVerdicts(w, ev);
      case _ => hide Settle, SumValues;
    }
  }

  lemma {:induction false} StaysHalted(l: Limits, w: World, steps: seq<Step>)
    requires Runs(l, w, steps) && w.risk.halted && NeverReset(l, w, steps)
    ensures Run(l, w, steps).value.risk.halted
    ensures ShutThroughout(l, w, steps)
  {
    if steps != [] {
      var n := |steps| - 1;
      Before(l, w, steps);
      forall i | 0 <= i < n ensures !ResetsAt(l, w, steps[..n], i) {
        assert steps[..n][..i] == steps[..i] && !ResetsAt(l, w, steps, i);
      }
      StaysHalted(l, w, steps[..n]);
      assert !ResetsAt(l, w, steps, n);
      HaltKept(l, Run(l, w, steps[..n]).value, steps[n]);
      ShutLonger(l, w, steps);
    }
  }

  lemma AdmittedNotHalted(l: Limits, s: RiskState, o: OrderRequest)
    ensures Validate(l, s, o).0.None? ==> !Validate(l, s, o).1.halted
  {
    hide SumValues, Estimate;
  }

  lemma ApprovalNotHalted(l: Limits, w: World, s: Step)
    requires Can(w, s) && (w.verdict.ToApprove? ==> !w.risk.halted)
    ensures Do(l, w, s).verdict.ToApprove? ==> !Do(l, w, s).risk.halted
  {
    match s {
      case Execute(ev) => ExecuteKeepsVerdicts(w, ev); hide ExecuteEvent;
      case Judge => AdmittedNotHalted(l, w.risk, w.requests[w.judged]); hide Validate;
      case _ => hide Settle;
    }
  }

  /** Only a judgement halts trading, and it then rejects: no verdict to approve is ever held by a halted manager. */
  lemma {:induction false} HaltedHoldsNoApproval(l: Limits, dryRun: bool, risk: RiskState, steps: seq<Step>)
    requires Runs(l, Start(dryRun, risk), steps)
    ensures var w := Run(l, Start(dryRun, risk), steps).value; w.verdict.ToApprove? ==> !w.risk.halted
  {
    if steps != [] {
      var init, s := steps[..|steps| - 1], steps[|steps| - 1];
      Before(l, Start(dryRun, risk), steps);
      HaltedHoldsNoApproval(l, dryRun, risk, init);
      hide Do, Can;
      ApprovalNotHalted(l, Run(l, Start(dryRun, risk), init).value, s);
    }
  }

  /** Halt: after a breach of the daily loss or the drawdown limit, and until a daily reset takes effect, nothing at
      all is approved, and later create calls are three at most for each order then approved and unread or in hand,
      whatever prices, fills, the switch and the account do. */
  lemma HaltDrain(l: Limits, dryRun: bool, risk: RiskState, before: seq<Step>, steps: seq<Step>)
    requires Runs(l, Start(dryRun, risk), before)
    requires Runs(l, Run(l, Start(dryRun, risk), before).value, steps)
    requires var w := Run(l, Start(dryRun, risk), before).value; w.risk.halted && NeverReset(l, w, steps)
    ensures var w := Run(l, Start(dryRun, risk), before).value;
            var v := Run(l, w, steps).value;
            && v.approved == w.approved
            && |v.calls| <= |w.calls| + 3 * (|w.approved| - w.taken + |InHand(w.hand)|)
  {
    StaysHalted(l, Run(l, Start(dryRun, risk), before).value, steps);
    HaltedHoldsNoApproval(l, dryRun, risk, before);
    DrainOfRun(l, dryRun, risk, before, steps);
  }
}
