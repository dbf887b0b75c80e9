/** What one pass of the driver's main loop does, told from the instance alone. */
module LoopMoves {
  import opened Domain
  import opened Events
  import opened Fold
  import opened FoldLaws
  import opened Planner
  import opened Driver
  import opened Legality
  import opened Batches
  import opened Phases
  import opened Fields
  import opened Waves
  import opened Policies
  import opened Traces

  /** A running instance with nothing in flight, as the loop finds it. */
  ghost predicate InLoop(d: Definition, i: Instance) {
    Valid(d) && Inv(d, i) && Boundary(d, i) && i.status == WfRunning && i.RunningSteps() == {} && i.Covers(d)
  }

  /** The move ends the drive and leaves the instance at `j`. */
  ghost predicate Ends(d: Definition, i: Instance, mv: Move, j: Instance) {
    mv.Finish? && mv.wakeup == None && Lands(d, i, mv.drafts, j)
  }

  ghost predicate SomeWanted(d: Definition, i: Instance, now: Time) {
    exists k :: 0 <= k < |d.steps| && Wanted(d, i, now, k)
  }

  ghost predicate SomeDelayed(d: Definition, i: Instance, now: Time) {
    exists k :: 0 <= k < |d.steps| && Delayed(i, d.steps[k], now)
  }

  /** The plan's fields that decide the move, from what the plan says. */
  lemma PlanDecides(d: Definition, i: Instance, now: Time)
    requires InLoop(d, i)
    ensures var p := PlanOf(d, i, now);
            && (p.terminalFailure.None? <==> NoFailure(d, i))
            && (p.approvalNeeded != [] <==> NoFailure(d, i) && !NoGate(d, i, now))
            && (p.budgetBlocked.Some? <==>
                  NoFailure(d, i) && NoGate(d, i, now) && i.BudgetOut() && SomeWanted(d, i, now))
            && (p.dispatch != [] <==>
                  NoFailure(d, i) && NoGate(d, i, now) && !i.BudgetOut() && SomeWanted(d, i, now))
            && (p.allSettled <==> AllSettled(d, i)) && (p.retryWakeup.Some? <==> SomeDelayed(d, i, now))
  {
    var p := PlanOf(d, i, now);
    PlanSays(d, i, now);
    assert |i.RunningSteps()| == 0;
    if p.approvalNeeded != [] { assert p.approvalNeeded[0] in p.approvalNeeded; }
    DispatchDecides(d, i, now, p);
  }

  lemma DispatchDecides(d: Definition, i: Instance, now: Time, p: Plan)
    requires InLoop(d, i) && SaysDispatch(d, i, now, p)
    ensures p.dispatch != [] <==>
              NoFailure(d, i) && NoGate(d, i, now) && !i.BudgetOut() && SomeWanted(d, i, now)
  {
    if p.dispatch != [] {
      assert p.dispatch[0] in p.dispatch && Indexed(d, i, p.dispatch[0]);
      var k :| 0 <= k < |d.steps| && p.dispatch[0] == AttemptAt(d, i, k);
      assert Wanted(d, i, now, k);
    }
  }

  /** A step has failed for good: the drive ends by the failure policy, applied to the first such step. */
  lemma FailureEndsIt(d: Definition, i: Instance, worker: string, inp: Input, k: nat) returns (j: Instance)
    requires InLoop(d, i) && k < |d.steps| && Exhausted(i, d.steps[k])
    requires forall m :: 0 <= m < k ==> !Exhausted(i, d.steps[m])
    ensures var mv, s := Looped(d, i, worker, inp), d.steps[k].stepId;
            && Ends(d, i, mv, j) && j.status == PolicyStatus(d, i, s, inp.undo)
            && j.escalations == i.escalations + PolicyRefs(d, i, s, inp.undo, NewId(inp.ids, 0))
  {
    var p, s := PlanOf(d, i, inp.now), d.steps[k].stepId;
    PlanDecides(d, i, inp.now);
    PlanSays(d, i, inp.now);
    assert p.terminalFailure == Some(s);
    j := LoopedSound(d, i, worker, inp);
    FailureMove(d, i, worker, inp, s);
    PolicyMeans(d, i, s, inp.undo, NewId(inp.ids, 0), inp.now, j);
  }

  lemma FailureMove(d: Definition, i: Instance, worker: string, inp: Input, s: StepId)
    requires i.status == WfRunning && i.Covers(d)
    requires var p := PlanOf(d, i, inp.now);
             p.terminalFailure == Some(s) && p.approvalNeeded == [] && p.budgetBlocked.None?
    ensures var mv := Looped(d, i, worker, inp);
            mv.Finish? && mv.drafts == PolicyDrafts(d, i, s, inp.undo, NewId(inp.ids, 0), inp.now)
  {
  }

  /** No step has failed for good and some need an approval nobody asked for: the drive asks for all of them and
      ends waiting. */
  lemma GatesEndIt(d: Definition, i: Instance, worker: string, inp: Input)
    returns (j: Instance, gates: seq<StepId>, refs: seq<EscalationRef>)
    requires InLoop(d, i) && NoFailure(d, i) && !NoGate(d, i, inp.now)
    ensures forall s :: s in gates <==> Gated(d, i, inp.now, s)
    ensures forall s :: s in gates ==> d.Has(s)
    ensures var mv := Looped(d, i, worker, inp);
            && Ends(d, i, mv, j) && j.status == WfWaiting
            && j.escalations == i.escalations + refs && AsksFor(d, gates, inp.ids, inp.now, refs)
  {
    PlanDecides(d, i, inp.now);
    PlanSays(d, i, inp.now);
    gates := PlanOf(d, i, inp.now).approvalNeeded;
    GatesHave(d, i, inp.now, gates);
    GateMove(d, i, worker, inp, gates);
    j := LoopedSound(d, i, worker, inp);
    refs := GatesMeanWaiting(d, i, gates, inp.ids, inp.now, j);
  }

  lemma GateMove(d: Definition, i: Instance, worker: string, inp: Input, gates: seq<StepId>)
    requires i.status == WfRunning && i.Covers(d) && forall s :: s in gates ==> d.Has(s)
    requires PlanOf(d, i, inp.now).approvalNeeded == gates != [] && PlanOf(d, i, inp.now).budgetBlocked.None?
    ensures Looped(d, i, worker, inp)
            == Finish(GateDrafts(d, i, gates, inp.ids, inp.now) + [Moved(WfRunning, WfWaiting, inp.now)], None,
                      DoneWaiting)
  {
  }

  lemma GatesHave(d: Definition, i: Instance, now: Time, gates: seq<StepId>)
    requires forall s :: s in gates ==> Gated(d, i, now, s)
    ensures forall s :: s in gates ==> d.Has(s)
  {
  }

  /** Neither, but the budget is out and a step is wanted: the drive pauses on the first such step. */
  lemma BlockEndsIt(d: Definition, i: Instance, worker: string, inp: Input, k: nat) returns (j: Instance)
    requires InLoop(d, i) && NoFailure(d, i) && NoGate(d, i, inp.now) && i.BudgetOut()
    requires k < |d.steps| && Wanted(d, i, inp.now, k) && forall m :: 0 <= m < k ==> !Wanted(d, i, inp.now, m)
    ensures Blocks(d, i, Looped(d, i, worker, inp), d.steps[k].stepId, inp.now, j)
  {
    var s := d.steps[k].stepId;
    PlanBlocks(d, i, inp.now, k);
    BlockMove(d, i, worker, inp, s);
    j := BlockLands(d, i, Looped(d, i, worker, inp), s, inp.now);
  }

  lemma BlockLands(d: Definition, i: Instance, mv: Move, s: StepId, now: Time) returns (j: Instance)
    requires Boundary(d, i) && i.status == WfRunning && i.RunningSteps() == {} && i.budgetLimit.Some?
    requires mv == Finish([Draft(BudgetExceeded(s, 0.0, i.budgetLimit.value - i.cost), now),
                           Moved(WfRunning, WfPaused, now)], None, DonePaused)
    ensures Blocks(d, i, mv, s, now, j)
  {
    j := BudgetSound(d, i, s, i.budgetLimit.value - i.cost, now);
    BlockMeans(d, i, s, i.budgetLimit.value - i.cost, now, j);
  }

  /** The move pauses the instance and records which step the budget stopped, and what was left of it. */
  ghost predicate Blocks(d: Definition, i: Instance, mv: Move, s: StepId, now: Time, j: Instance) {
    && Ends(d, i, mv, j) && i.budgetLimit.Some? && j.status == WfPaused
    && mv.drafts == [Draft(BudgetExceeded(s, 0.0, i.budgetLimit.value - i.cost), now), Moved(WfRunning, WfPaused, now)]
    && j.errors == i.errors + [ErrorRecord(Some(s), "BudgetExceededError", "projected > remaining", now)]
  }

  lemma PlanBlocks(d: Definition, i: Instance, now: Time, k: nat)
    requires Valid(d) && NoFailure(d, i) && NoGate(d, i, now) && i.BudgetOut()
    requires k < |d.steps| && Wanted(d, i, now, k) && forall m :: 0 <= m < k ==> !Wanted(d, i, now, m)
    ensures PlanOf(d, i, now).budgetBlocked == Some(d.steps[k].stepId)
  {
    PlanSays(d, i, now);
  }

  lemma BlockMove(d: Definition, i: Instance, worker: string, inp: Input, s: StepId)
    requires i.status == WfRunning && i.Covers(d) && i.budgetLimit.Some?
    requires PlanOf(d, i, inp.now).budgetBlocked == Some(s)
    ensures Looped(d, i, worker, inp)
            == Finish([Draft(BudgetExceeded(s, 0.0, i.budgetLimit.value - i.cost), inp.now),
                       Moved(WfRunning, WfPaused, inp.now)], None, DonePaused)
  {
  }

  /** Neither, there is budget, and a step is wanted: the drive starts as many as there are slots, in definition
      order, each on its next attempt. */
  lemma WantedStarts(d: Definition, i: Instance, worker: string, inp: Input) returns (j: Instance)
    requires InLoop(d, i) && NoFailure(d, i) && NoGate(d, i, inp.now) && !i.BudgetOut() && SomeWanted(d, i, inp.now)
    ensures var mv := Looped(d, i, worker, inp);
            && mv.Append? && mv.next.Executing? && Lands(d, i, mv.drafts, j) && mv.next.dispatch != []
            && InOrder(d, mv.next.dispatch) && Fills(d, i, inp.now, mv.next.dispatch)
            && (forall c :: c in mv.next.dispatch ==> Started(j, c)) && j.RunningSteps() == IdsOf(mv.next.dispatch)
  {
    PlanDecides(d, i, inp.now);
    PlanSays(d, i, inp.now);
    StartMove(d, i, worker, inp);
    j := LoopedSound(d, i, worker, inp);
  }

  lemma StartMove(d: Definition, i: Instance, worker: string, inp: Input)
    requires i.status == WfRunning && i.Covers(d)
    requires var p := PlanOf(d, i, inp.now);
             p.dispatch != [] && p.terminalFailure.None? && p.approvalNeeded == [] && p.budgetBlocked.None?
    ensures var mv := Looped(d, i, worker, inp); mv.Append? && mv.next == Executing(PlanOf(d, i, inp.now).dispatch)
  {
  }

  /** Everything is settled: the drive completes the instance, with the collected outputs in its context. */
  lemma SettledCompletes(d: Definition, i: Instance, worker: string, inp: Input) returns (j: Instance, outputs: Data)
    requires InLoop(d, i) && AllSettled(d, i)
    ensures Ends(d, i, Looped(d, i, worker, inp), j)
    ensures j.status == WfCompleted && j.completedAt == Some(inp.now) && Collects(i, outputs)
    ensures forall key :: Look(j.context, key)
                          == if key == "_outputs" && outputs != map[] then Some(Dict(outputs)) else Look(i.context, key)
  {
    PlanDecides(d, i, inp.now);
    NothingLeft(d, i, inp.now);
    j := LoopedSound(d, i, worker, inp);
    CompleteMove(d, i, worker, inp);
    outputs := CompletionMeans(d, i, inp.now, j);
  }

  lemma NothingLeft(d: Definition, i: Instance, now: Time)
    requires AllSettled(d, i)
    ensures NoFailure(d, i) && NoGate(d, i, now) && !SomeWanted(d, i, now)
  {
  }

  lemma CompleteMove(d: Definition, i: Instance, worker: string, inp: Input)
    requires i.status == WfRunning && i.Covers(d)
    requires var p := PlanOf(d, i, inp.now);
             && p.allSettled && p.dispatch == [] && p.terminalFailure.None? && p.approvalNeeded == []
             && p.budgetBlocked.None?
    ensures Looped(d, i, worker, inp)
            == Finish([Moved(WfRunning, WfCompleted, inp.now), Draft(InstanceCompleted(Outputs(i)), inp.now)], None,
                      DoneCompleted)
  {
  }

  /** Nothing to do now but a retry to come: the drive parks the instance until the earliest one. */
  lemma DelayedParks(d: Definition, i: Instance, worker: string, inp: Input) returns (at: Time)
    requires InLoop(d, i) && NoFailure(d, i) && NoGate(d, i, inp.now) && !SomeWanted(d, i, inp.now)
    requires SomeDelayed(d, i, inp.now)
    ensures Looped(d, i, worker, inp) == Finish([Moved(WfRunning, WfRetrying, inp.now)], Some(at), DoneParked)
    ensures exists k :: 0 <= k < |d.steps| && Delayed(i, d.steps[k], inp.now)
                        && i.Step(d.steps[k].stepId).nextRetryAt == Some(at)
    ensures forall k :: 0 <= k < |d.steps| && Delayed(i, d.steps[k], inp.now) ==>
              at <= i.Step(d.steps[k].stepId).nextRetryAt.value
  {
    var p := PlanOf(d, i, inp.now);
    PlanDecides(d, i, inp.now);
    PlanSays(d, i, inp.now);
    var k :| 0 <= k < |d.steps| && Delayed(i, d.steps[k], inp.now);
    assert !AllSettled(d, i);
    at := p.retryWakeup.value;
    ParkMove(d, i, worker, inp, at);
  }

  lemma ParkMove(d: Definition, i: Instance, worker: string, inp: Input, at: Time)
    requires i.status == WfRunning && i.Covers(d)
    requires var p := PlanOf(d, i, inp.now);
             && !p.allSettled && p.dispatch == [] && p.terminalFailure.None? && p.approvalNeeded == []
             && p.budgetBlocked.None? && p.retryWakeup == Some(at)
    ensures Looped(d, i, worker, inp) == Finish([Moved(WfRunning, WfRetrying, inp.now)], Some(at), DoneParked)
  {
  }

  /** An instance that is not running: a new or a parked one is set running, any other ends the drive with
      nothing written. */
  lemma OtherwiseRests(d: Definition, i: Instance, worker: string, inp: Input)
    requires i.status != WfRunning
    ensures var mv := Looped(d, i, worker, inp);
            match i.status
            case WfPending => mv == Append([Moved(WfPending, WfRunning, inp.now)], None, Looping)
            case WfRetrying => mv == Append([Moved(WfRetrying, WfRunning, inp.now)], None, Looping)
            case WfCompleted => mv == Finish([], None, DoneCompleted)
            case WfRolledBack => mv == Finish([], None, DoneRolledBack)
            case WfDeadLettered => mv == Finish([], None, DoneDeadLettered)
            case WfWaiting => mv == Finish([], None, DoneWaiting)
            case _ => mv == Finish([], None, DonePaused)
  {
  }

  // --- a whole wave ----------------------------------------------------------------------------------

  /** How an attempt leaves its step once its wave is closed: completed with its output, held for review with its
      output if it asked for one, or failed and due again as its policy says. */
  ghost predicate ClosedAs(d: Definition, j: Instance, r: StepRun, now: Time)
    requires d.Has(r.stepId)
  {
    var st := j.Step(r.stepId);
    if r.outcome.Success?
    then st.output == Some(r.outcome.output) && st.status == if r.outcome.review.Some? then Waiting else Completed
    else st.status == Failed && st.nextRetryAt == RetryTime(d.StepOf(r.stepId), r, now)
  }

  lemma ReviewedStep(runs: seq<StepRun>, r: StepRun)
    requires DistinctRuns(runs) && r in runs
    ensures r.stepId in RunIds(Reviewed(runs)) <==> WantsReview(r)
  {
    if WantsReview(r) { assert r in Reviewed(runs); }
    if r.stepId in RunIds(Reviewed(runs)) {
      var k :| 0 <= k < |Reviewed(runs)| && Reviewed(runs)[k].stepId == r.stepId;
      assert Reviewed(runs)[k] in runs;
      SameRun(runs, r, Reviewed(runs)[k]);
    }
  }

  lemma SameRun(runs: seq<StepRun>, q: StepRun, r: StepRun)
    requires DistinctRuns(runs) && q in runs && r in runs && q.stepId == r.stepId
    ensures q == r
  {
    var a :| 0 <= a < |runs| && runs[a] == q;
    var b :| 0 <= b < |runs| && runs[b] == r;
  }

  /** The review batch holds exactly the steps that asked for a review. */
  lemma ReviewsHold(d: Definition, i: Instance, runs: seq<StepRun>, ids: seq<string>, now: Time, j: Instance)
    requires Valid(d) && Inv(d, i) && WaveDone(d, i, runs) && Lands(d, i, ReviewDrafts(runs, ids, now), j)
    ensures j.status == if Reviewed(runs) == [] then WfRunning else WfWaiting
    ensures forall s :: j.Step(s) == if s in RunIds(Reviewed(runs)) then i.Step(s).(status := Waiting) else i.Step(s)
  {
    var rs := Reviewed(runs);
    if rs != [] {
      ReviewedAreDistinct(runs);
      var m := ReviewsLegal(d, i, rs, ids, now);
      ReplayConcat(Some(d), i, RaiseReviews(rs, ids, now), [Moved(WfRunning, WfWaiting, now)]);
      ReplayOne(Some(d), m, Moved(WfRunning, WfWaiting, now));
      StepsStay(d, m, now, j);
    }
  }

  lemma StepsStay(d: Definition, m: Instance, now: Time, j: Instance)
    requires Advance(Some(d), m, Moved(WfRunning, WfWaiting, now)) == Ok(j)
    ensures j.status == WfWaiting && forall s :: j.Step(s) == m.Step(s)
  {
  }

  /** The wave's four batches, one after the other. */
  lemma WaveCloses(d: Definition, i: Instance, runs: seq<StepRun>, a: Time, b: Time, c: Time, ids: seq<string>,
                   k: Instance, m: Instance, j: Instance, r: StepRun)
    requires Valid(d) && Inv(d, m) && WaveDone(d, k, runs) && WaveDone(d, m, runs) && r in runs
    requires Replay(Some(d), i, OutcomeDrafts(runs, a)) == Ok(k) && AwaitsRetry(d, k, r)
    requires Replay(Some(d), k, RetryDrafts(d, runs, b)) == Ok(m) && OnlyRetries(k, m, runs)
    requires Lands(d, m, ReviewDrafts(runs, ids, c), j)
    ensures ClosedAs(d, j, r, b)
  {
    OutcomesMean(d, i, runs, a, k, r);
    if r.outcome.Failure? { RetriesMean(d, k, runs, b, m, r); }
    ReviewsHold(d, m, runs, ids, c, j);
    ReviewedStep(runs, r);
  }

  lemma WaveTrace(d: Definition, i: Instance, dispatch: seq<Attempt>, worker: string, a: Input, b: Input, c: Input,
                  e: Input, runs: seq<StepRun>, k: Instance, m: Instance, j: Instance)
    requires |a.outcomes| == |dispatch| && runs == Runs(dispatch, a.outcomes) && forall r :: r in runs ==>
               d.Has(r.stepId)
    requires Replay(Some(d), i, OutcomeDrafts(runs, a.now)) == Ok(k)
    requires Replay(Some(d), k, RetryDrafts(d, runs, c.now)) == Ok(m)
    requires Replay(Some(d), m, ReviewDrafts(runs, e.ids, e.now)) == Ok(j)
    ensures Trace(d, i, Executing(dispatch), worker, [a] + [b] + [c] + [e])
            == Leg(OutcomeDrafts(runs, a.now) + [] + RetryDrafts(d, runs, c.now) + ReviewDrafts(runs, e.ids, e.now), j,
                   Some(Looping))
  {
    var ph, ds := Executing(dispatch), OutcomeDrafts(runs, a.now);
    LegOf(d, i, ph, worker, a, NextMove(d, i, ph, worker, a), k);
    TraceOne(d, i, ph, worker, a);
    TracksMore(d, i, ph, worker, [a], ds, k, Billing(runs), b, NextMove(d, k, Billing(runs), worker, b), k);
    TracksMore(d, i, ph, worker, [a] + [b], ds + [], k, Scheduling(runs), c,
               NextMove(d, k, Scheduling(runs), worker, c), m);
    TracksMore(d, i, ph, worker, [a] + [b] + [c], ds + [] + RetryDrafts(d, runs, c.now), m, Reviewing(runs), e,
               NextMove(d, m, Reviewing(runs), worker, e), j);
  }

  /** The states between a wave's batches. */
  lemma WaveStates(d: Definition, i: Instance, dispatch: seq<Attempt>, runs: seq<StepRun>, outcomes: seq<StepOutcome>,
                   a: Time, c: Time, e: Time, ids: seq<string>) returns (k: Instance, m: Instance, j: Instance)
    requires Valid(d) && Inv(d, i) && Boundary(d, i) && PhaseOk(d, i, Executing(dispatch))
    requires |outcomes| == |dispatch| && runs == Runs(dispatch, outcomes)
    ensures WaveDone(d, k, runs) && (forall r :: r in runs ==> AwaitsRetry(d, k, r)) && Inv(d, m)
            && WaveDone(d, m, runs)
    ensures Replay(Some(d), i, OutcomeDrafts(runs, a)) == Ok(k) && OnlyRetries(k, m, runs)
    ensures Replay(Some(d), k, RetryDrafts(d, runs, c)) == Ok(m) && Lands(d, m, ReviewDrafts(runs, ids, e), j)
  {
    k := ExecuteSound(d, i, dispatch, outcomes, a);
    AllLegalKeepsInv(d, i, OutcomeDrafts(runs, a));
    m := RetriesLegal(d, k, runs, c);
    var n := ScheduleSound(d, k, runs, c);
    AllLegalKeepsInv(d, k, RetryDrafts(d, runs, c));
    j := ReviewSound(d, m, runs, ids, e);
  }

  /** What an undisturbed wave leaves, whatever its attempts did: each step closed as its own attempt says, and the
      instance waiting exactly if some attempt asked for a review. */
  lemma WaveMeans(d: Definition, i: Instance, dispatch: seq<Attempt>, worker: string, a: Input, b: Input, c: Input,
                  e: Input) returns (x: Leg)
    requires Valid(d) && Inv(d, i) && Boundary(d, i) && PhaseOk(d, i, Executing(dispatch))
    requires |a.outcomes| == |dispatch|
    ensures x == Trace(d, i, Executing(dispatch), worker, [a] + [b] + [c] + [e]) && x.phase == Some(Looping)
    ensures forall r :: r in Runs(dispatch, a.outcomes) ==> d.Has(r.stepId) && ClosedAs(d, x.inst, r, c.now)
    ensures x.inst.status
            == if exists r :: r in Runs(dispatch, a.outcomes) && WantsReview(r) then WfWaiting else WfRunning
  {
    var runs := Runs(dispatch, a.outcomes);
    var k, m, j := WaveStates(d, i, dispatch, runs, a.outcomes, a.now, c.now, e.now, e.ids);
    WaveTrace(d, i, dispatch, worker, a, b, c, e, runs, k, m, j);
    x := Trace(d, i, Executing(dispatch), worker, [a] + [b] + [c] + [e]);
    forall r | r in runs ensures ClosedAs(d, j, r, c.now) {
      WaveCloses(d, i, runs, a.now, c.now, e.now, e.ids, k, m, j, r);
    }
    ReviewsHold(d, m, runs, e.ids, e.now, j);
    SomeReviewed(runs);
  }

  lemma SomeReviewed(runs: seq<StepRun>)
    ensures Reviewed(runs) != [] <==> exists r :: r in runs && WantsReview(r)
  {
    if Reviewed(runs) != [] { assert Reviewed(runs)[0] in Reviewed(runs); }
  }
}
