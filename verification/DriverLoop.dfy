/** The driver's own loops (src/agentforge/core/driver.py): the lists of events it grows, the wave and
    the bounded main loop. What comes from outside is an environment fixed in advance, so a statement
    for every environment is a statement for every clock, outcome, id and lost lease. */
module DriverLoop {
  import opened Domain
  import opened Events
  import opened Fold
  import opened FoldLaws
  import opened Planner
  import opened Driver
  import opened Legality
  import opened Batches
  import opened Phases
  import opened Seeding
  import opened Convergence
  import opened Traces

  /** Answers of the outside world in round `n` of a drive. */
  datatype Env = Env(
    clock: nat -> Time,
    run: (nat, Attempt) -> StepOutcome,
    ids: nat -> seq<string>,
    undo: Undo,
    lost: (nat, nat) -> bool)

  lemma Grow(done: seq<Draft>, one: seq<Draft>, rest: seq<Draft>, whole: seq<Draft>)
    requires done + (one + rest) == whole
    ensures (done + one) + rest == whole
  {
  }

  // --- growing the batches -----------------------------------------------------------------

  method StartedEvents(i: Instance, dispatch: seq<Attempt>, worker: string, at: Time) returns (started: seq<Draft>)
    ensures started == StartDrafts(i, dispatch, worker, at)
  {
    started := [];
    var k := 0;
    while k < |dispatch|
      invariant 0 <= k <= |dispatch|
      invariant started + StartDrafts(i, dispatch[k..], worker, at) == StartDrafts(i, dispatch, worker, at)
    {
      var c := dispatch[k];
      assert dispatch[k..][1..] == dispatch[k + 1..];
      var one := [Draft(StepStarted(c.0, c.1, worker, None), at)];
      if i.Step(c.0).status == Pending {
        one := [Draft(StepStatusChanged(c.0, Pending, Ready), at)] + one;
      }
      assert one == StartOne(i, c, worker, at);
      Grow(started, one, StartDrafts(i, dispatch[k + 1..], worker, at), StartDrafts(i, dispatch, worker, at));
      started := started + one;
      k := k + 1;
    }
  }

  method RecordingEvents(s: StepId, attempt: nat, recs: seq<Recording>, at: Time) returns (drafts: seq<Draft>)
    ensures drafts == RecordingDrafts(s, attempt, recs, at)
  {
    drafts := [];
    var k := 0;
    while k < |recs|
      invariant 0 <= k <= |recs|
      invariant drafts + RecordingDrafts(s, attempt, recs[k..], at) == RecordingDrafts(s, attempt, recs, at)
    {
      assert recs[k..][1..] == recs[k + 1..];
      var one := [Draft(LLMCallRecorded(s, attempt, recs[k]), at)];
      Grow(drafts, one, RecordingDrafts(s, attempt, recs[k + 1..], at), RecordingDrafts(s, attempt, recs, at));
      drafts := drafts + one;
      k := k + 1;
    }
  }

  method ChargeEvents(s: StepId, charges: seq<Charge>, at: Time) returns (drafts: seq<Draft>)
    ensures drafts == ChargeDrafts(s, charges, at)
  {
    drafts := [];
    var k := 0;
    while k < |charges|
      invariant 0 <= k <= |charges|
      invariant drafts + ChargeDrafts(s, charges[k..], at) == ChargeDrafts(s, charges, at)
    {
      assert charges[k..][1..] == charges[k + 1..];
      var c := charges[k];
      var one := [Draft(CostCharged(Some(s), c.amount, c.tokensIn, c.tokensOut), at)];
      Grow(drafts, one, ChargeDrafts(s, charges[k + 1..], at), ChargeDrafts(s, charges, at));
      drafts := drafts + one;
      k := k + 1;
    }
  }

  method EffectEvents(s: StepId, effects: seq<EffectOutcome>, at: Time) returns (drafts: seq<Draft>)
    ensures drafts == EffectDrafts(s, effects, at)
  {
    drafts := [];
    var k := 0;
    while k < |effects|
      invariant 0 <= k <= |effects|
      invariant drafts + EffectDrafts(s, effects[k..], at) == EffectDrafts(s, effects, at)
    {
      assert effects[k..][1..] == effects[k + 1..];
      var e := effects[k];
      var one := [Draft(SideEffectExecuted(s, e.key), at)];
      if !e.deduplicated {
        one := [Draft(SideEffectIntentRecorded(s, e.effectName, e.key), at)] + one;
      }
      assert one == EffectOne(s, e, at);
      Grow(drafts, one, EffectDrafts(s, effects[k + 1..], at), EffectDrafts(s, effects, at));
      drafts := drafts + one;
      k := k + 1;
    }
  }

  method OutcomeEvents(runs: seq<StepRun>, at: Time) returns (drafts: seq<Draft>)
    ensures drafts == OutcomeDrafts(runs, at)
  {
    drafts := [];
    var k := 0;
    while k < |runs|
      invariant 0 <= k <= |runs|
      invariant drafts + OutcomeDrafts(runs[k..], at) == OutcomeDrafts(runs, at)
    {
      assert runs[k..][1..] == runs[k + 1..];
      var r := runs[k];
      var recorded := RecordingEvents(r.stepId, r.attempt, r.outcome.recordings, at);
      var charged := ChargeEvents(r.stepId, r.outcome.charges, at);
      var effects := EffectEvents(r.stepId, r.outcome.effects, at);
      var one := recorded + charged + effects + [Verdict(r, at)];
      Grow(drafts, one, OutcomeDrafts(runs[k + 1..], at), OutcomeDrafts(runs, at));
      drafts := drafts + one;
      k := k + 1;
    }
  }

  /** The event schedules the next attempt of a failed one: retryable, with retries left, after its backoff. */
  predicate SchedulesRetry(d: Definition, r: StepRun, now: Time, x: Draft)
    requires d.Has(r.stepId)
  {
    var policy := d.StepOf(r.stepId).retry;
    && r.outcome.Failure? && r.outcome.retryable && r.attempt <= policy.maxRetries
    && x == Draft(StepRetryScheduled(r.stepId, r.attempt + 1, now + BackoffDelay(policy, r.attempt)), now)
  }

  lemma {:induction false} RetriesAre(d: Definition, runs: seq<StepRun>, now: Time)
    requires forall r :: r in runs ==> d.Has(r.stepId)
    ensures forall x :: x in RetryDrafts(d, runs, now) <==> exists r :: r in runs && SchedulesRetry(d, r, now, x)
    decreases |runs|
  {
    if runs != [] {
      RetriesAre(d, runs[1..], now);
      forall x ensures x in RetryDrafts(d, runs, now)
                       <==> SchedulesRetry(d, runs[0], now, x) || x in RetryDrafts(d, runs[1..], now) {
      }
      forall r ensures r in runs <==> r == runs[0] || r in runs[1..] {
      }
    }
  }

  method RetryEvents(d: Definition, runs: seq<StepRun>, now: Time) returns (drafts: seq<Draft>)
    requires forall r :: r in runs ==> d.Has(r.stepId)
    ensures drafts == RetryDrafts(d, runs, now)
    ensures forall x :: x in drafts <==> exists r :: r in runs && SchedulesRetry(d, r, now, x)
  {
    RetriesAre(d, runs, now);
    drafts := [];
    var k := 0;
    while k < |runs|
      invariant 0 <= k <= |runs|
      invariant drafts + RetryDrafts(d, runs[k..], now) == RetryDrafts(d, runs, now)
    {
      assert runs[k..][1..] == runs[k + 1..];
      var r := runs[k];
      var one := [];
      if r.outcome.Failure? && r.outcome.retryable && r.attempt <= d.StepOf(r.stepId).retry.maxRetries {
        var runAt := now + BackoffDelay(d.StepOf(r.stepId).retry, r.attempt);
        one := [Draft(StepRetryScheduled(r.stepId, r.attempt + 1, runAt), now)];
      }
      Grow(drafts, one, RetryDrafts(d, runs[k + 1..], now), RetryDrafts(d, runs, now));
      drafts := drafts + one;
      k := k + 1;
    }
  }

  method ApprovalEvents(d: Definition, i: Instance, gates: seq<StepId>, ids: seq<string>, now: Time)
    returns (drafts: seq<Draft>)
    requires forall s :: s in gates ==> d.Has(s)
    ensures drafts == GateDrafts(d, i, gates, ids, now) + [Moved(WfRunning, WfWaiting, now)]
  {
    drafts := [];
    var rest, unused := gates, ids;
    while rest != []
      invariant forall s :: s in rest ==> d.Has(s)
      invariant drafts + GateDrafts(d, i, rest, unused, now) == GateDrafts(d, i, gates, ids, now)
      decreases |rest|
    {
      var s, id := rest[0], NewId(unused, 0);
      var one := [Draft(EscalationRaised(id, s, "explicit_approval", Deadline(d.StepOf(s).approvalTimeout, now),
                                         d.StepOf(s).approvalAutoAction), now)];
      if i.Step(s).status == Pending {
        one := [Draft(StepStatusChanged(s, Pending, Ready), now)] + one;
      }
      assert one == GateOne(d, i, s, id, now);
      rest, unused := rest[1..], if unused == [] then [] else unused[1..];
      Grow(drafts, one, GateDrafts(d, i, rest, unused, now), GateDrafts(d, i, gates, ids, now));
      drafts := drafts + one;
    }
    drafts := drafts + [Moved(WfRunning, WfWaiting, now)];
  }

  // --- one append ------------------------------------------------------------------------------

  /** An append of nothing succeeds; any other may find the lease or the version gone. */
  method AppendEvents(d: Definition, i: Instance, drafts: seq<Draft>, lost: bool) returns (r: Option<Instance>)
    requires Replay(Some(d), i, drafts).Ok?
    ensures r.None? <==> drafts != [] && lost
    ensures r.Some? ==> Replay(Some(d), i, drafts) == Ok(r.value)
  {
    if drafts == [] { return Some(i); }
    if lost { return None; }
    var folded := Replay(Some(d), i, drafts);
    return Some(folded.value);
  }

  /** Everything written so far is legal; when nothing was lost the projection is what it folds to. */
  ghost predicate Wrote(d: Definition, start: Instance, written: seq<Draft>, r: Option<Instance>) {
    AllLegal(d, start, written) && (r.Some? ==> Replay(Some(d), start, written) == Ok(r.value))
  }

  lemma WroteMore(d: Definition, start: Instance, written: seq<Draft>, i: Instance, ds: seq<Draft>, r: Option<Instance>)
    requires Wrote(d, start, written, Some(i)) && AllLegal(d, i, ds)
             && (r.Some? ==> Replay(Some(d), i, ds) == Ok(r.value))
    ensures Wrote(d, start, written + ds, r)
  {
    AllLegalConcat(d, start, written, ds);
    ReplayConcat(Some(d), start, written, ds);
  }

  ghost predicate AtRest(d: Definition, i: Instance) {
    Inv(d, i) && Boundary(d, i) && i.RunningSteps() == {}
  }

  // --- the status a batch leaves ----------------------------------------------------------

  function StatusNext(b: EventBody, s: WorkflowStatus): WorkflowStatus {
    if b.InstanceStatusChanged? then b.wfTo else if b.WorkflowRequeued? then WfRunning else s
  }

  function StatusThrough(ds: seq<Draft>, s: WorkflowStatus): WorkflowStatus
    decreases |ds|
  {
    if ds == [] then s else StatusThrough(ds[1..], StatusNext(ds[0].body, s))
  }

  lemma {:induction false} StatusIs(d: Definition, i: Instance, ds: seq<Draft>, j: Instance)
    requires Lands(d, i, ds, j)
    ensures j.status == StatusThrough(ds, i.status)
    decreases |ds|
  {
    if ds != [] {
      StatusAfter(d, i, ds[0].body, ds[0].at);
      StatusIs(d, Advance(Some(d), i, ds[0]).value, ds[1..], j);
    }
  }

  predicate EndsIn(ds: seq<Draft>, to: WorkflowStatus) {
    ds != [] && ds[|ds| - 1].body.InstanceStatusChanged? && ds[|ds| - 1].body.wfTo == to
  }

  lemma {:induction false} LastMoveWins(ds: seq<Draft>, to: WorkflowStatus, s: WorkflowStatus)
    requires EndsIn(ds, to)
    ensures StatusThrough(ds, s) == to
    decreases |ds|
  {
    var next := StatusNext(ds[0].body, s);
    if |ds| == 1 {
      assert StatusThrough(ds[1..], next) == next;
    } else {
      LastMoveWins(ds[1..], to, next);
    }
  }

  predicate Live(s: WorkflowStatus) {
    s == WfRunning || s == WfWaiting
  }

  lemma ReviewsLeaveLive(d: Definition, i: Instance, runs: seq<StepRun>, ids: seq<string>, now: Time, j: Instance)
    requires i.status == WfRunning && Lands(d, i, ReviewDrafts(runs, ids, now), j)
    ensures Live(j.status)
  {
    StatusIs(d, i, ReviewDrafts(runs, ids, now), j);
    if Reviewed(runs) != [] { LastMoveWins(ReviewDrafts(runs, ids, now), WfWaiting, WfRunning); }
  }

  // --- a wave --------------------------------------------------------------------------------

  /** The inputs recorded by a wave lead from `i` to where it stopped; if nothing was lost, back to the loop. */
  ghost predicate Waved(d: Definition, i: Instance, ph: Phase, worker: string, inps: seq<Input>, written: seq<Draft>,
                        r: Option<Instance>) {
    if r.Some? then Tracks(d, i, ph, worker, inps, written, r.value, Some(Looping))
    else Trace(d, i, ph, worker, inps).written == written
  }

  /** The last append of a wave: reviews. */
  method CloseReviews(d: Definition, i: Instance, runs: seq<StepRun>, worker: string, env: Env, n: nat, inp: Input)
    returns (r: Option<Instance>, written: seq<Draft>, inps: seq<Input>)
    requires Valid(d) && Inv(d, i) && Boundary(d, i) && PhaseOk(d, i, Reviewing(runs))
    ensures Wrote(d, i, written, r) && Waved(d, i, Reviewing(runs), worker, inps, written, r)
    ensures r.Some? ==>
              && AtRest(d, r.value) && Live(r.value.status)
              && Remaining(d, r.value, |d.steps|) <= Remaining(d, i, |d.steps|)
  {
    inps := [];
    ghost var e := WaveMove(d, i, Reviewing(runs), worker, inp);
    written := ReviewDrafts(runs, inp.ids, inp.now);
    r := AppendEvents(d, i, written, env.lost(n, 3));
    if r.None? { written := []; return; }
    ReviewsLeaveLive(d, i, runs, inp.ids, inp.now, r.value);
    LegOf(d, i, Reviewing(runs), worker, inp, NextMove(d, i, Reviewing(runs), worker, inp), r.value);
    TraceOne(d, i, Reviewing(runs), worker, inp);
    inps := [inp];
  }

  /** The last two appends of a wave: retries and reviews. */
  method CloseWave(d: Definition, i: Instance, runs: seq<StepRun>, worker: string, env: Env, n: nat, inp: Input)
    returns (r: Option<Instance>, written: seq<Draft>, inps: seq<Input>)
    requires Valid(d) && Inv(d, i) && Boundary(d, i) && PhaseOk(d, i, Scheduling(runs))
    ensures Wrote(d, i, written, r) && Waved(d, i, Scheduling(runs), worker, inps, written, r)
    ensures r.Some? ==>
              && AtRest(d, r.value) && Live(r.value.status)
              && Remaining(d, r.value, |d.steps|) <= Remaining(d, i, |d.steps|)
  {
    inps := [];
    ghost var m := WaveMove(d, i, Scheduling(runs), worker, inp);
    written := RetryEvents(d, runs, inp.now);
    r := AppendEvents(d, i, written, env.lost(n, 2));
    if r.None? { written := []; return; }
    var inst := r.value;
    LegOf(d, i, Scheduling(runs), worker, inp, NextMove(d, i, Scheduling(runs), worker, inp), inst);
    TraceOne(d, i, Scheduling(runs), worker, inp);
    var rest, more;
    r, rest, more := CloseReviews(d, inst, runs, worker, env, n, inp);
    WroteMore(d, i, written, inst, rest, r);
    WavedMore(d, i, Scheduling(runs), worker, [inp], written, inst, Reviewing(runs), more, rest, r);
    inps, written := [inp] + more, written + rest;
  }

  lemma BillingLeg(d: Definition, i: Instance, runs: seq<StepRun>, worker: string, inp: Input)
    ensures OneLeg(d, i, Billing(runs), worker, inp) == Leg([], i, Some(Scheduling(runs)))
  {
  }

  /** Recording the outcomes, and the ledger entry that follows it. */
  lemma ThenBilled(d: Definition, i: Instance, dispatch: seq<Attempt>, worker: string, inp: Input, j: Instance)
    requires |inp.outcomes| == |dispatch|
    requires Replay(Some(d), i, OutcomeDrafts(Runs(dispatch, inp.outcomes), inp.now)) == Ok(j)
    ensures var runs := Runs(dispatch, inp.outcomes);
            Tracks(d, i, Executing(dispatch), worker, [inp] + [inp], OutcomeDrafts(runs, inp.now), j,
                   Some(Scheduling(runs)))
  {
    var runs := Runs(dispatch, inp.outcomes);
    var mv := NextMove(d, i, Executing(dispatch), worker, inp);
    LegOf(d, i, Executing(dispatch), worker, inp, mv, j);
    TraceOne(d, i, Executing(dispatch), worker, inp);
    BillingLeg(d, j, runs, worker, inp);
    TraceSnoc(d, i, Executing(dispatch), worker, [inp], Leg(mv.drafts, j, Some(Billing(runs))), inp,
              Leg([], j, Some(Scheduling(runs))));
    assert mv.drafts + [] == mv.drafts;
  }

  /** The tail of a wave: outcomes, retries and reviews, each in its own append. */
  method FinishWave(d: Definition, i: Instance, dispatch: seq<Attempt>, worker: string, env: Env, n: nat)
    returns (r: Option<Instance>, written: seq<Draft>, inps: seq<Input>)
    requires Valid(d) && Inv(d, i) && Boundary(d, i) && PhaseOk(d, i, Executing(dispatch))
    ensures Wrote(d, i, written, r) && Waved(d, i, Executing(dispatch), worker, inps, written, r)
    ensures r.Some? ==>
              && AtRest(d, r.value) && Live(r.value.status)
              && Remaining(d, r.value, |d.steps|) <= Remaining(d, i, |d.steps|)
  {
    var outcomes := seq(|dispatch|, k requires 0 <= k < |dispatch| => env.run(n, dispatch[k]));
    var inp := Input(env.clock(n), [], outcomes, env.ids(n), env.undo);
    var runs := Runs(dispatch, outcomes);
    ghost var j := WaveMove(d, i, Executing(dispatch), worker, inp);
    inps := [];
    written := OutcomeEvents(runs, inp.now);
    r := AppendEvents(d, i, written, env.lost(n, 1));
    if r.None? { written := []; return; }
    var inst := r.value;
    ThenBilled(d, i, dispatch, worker, inp, inst);
    var rest, more;
    r, rest, more := CloseWave(d, inst, runs, worker, env, n, inp);
    WroteMore(d, i, written, inst, rest, r);
    WavedMore(d, i, Executing(dispatch), worker, [inp] + [inp], written, inst, Scheduling(runs), more, rest, r);
    inps, written := [inp] + [inp] + more, written + rest;
  }

  lemma WavedMore(d: Definition, i: Instance, ph: Phase, worker: string, a: seq<Input>, ds: seq<Draft>, j: Instance,
                  at: Phase, b: seq<Input>, es: seq<Draft>, r: Option<Instance>)
    requires Tracks(d, i, ph, worker, a, ds, j, Some(at)) && Waved(d, j, at, worker, b, es, r)
    ensures Waved(d, i, ph, worker, a + b, ds + es, r)
  {
    TraceConcat(d, i, ph, worker, a, b);
  }

  lemma StartLeg(d: Definition, i: Instance, worker: string, inp: Input, j: Instance)
    requires i.Covers(d) && i.status == WfRunning && Looped(d, i, worker, inp).Append?
    requires Replay(Some(d), i, StartDrafts(i, PlanOf(d, i, inp.now).dispatch, worker, inp.now)) == Ok(j)
    ensures var dispatch := PlanOf(d, i, inp.now).dispatch;
            Tracks(d, i, Looping, worker, [inp], StartDrafts(i, dispatch, worker, inp.now), j,
                   Some(Executing(dispatch)))
  {
    LegOf(d, i, Looping, worker, inp, Looped(d, i, worker, inp), j);
    TraceOne(d, i, Looping, worker, inp);
  }

  /** A wave starts its steps and records how they ended; it leaves nothing running and at least one
      dispatch fewer. What it appends are the moves of the drive, one after the other. */
  method DispatchWave(d: Definition, i: Instance, dispatch: seq<Attempt>, worker: string, env: Env, n: nat,
                      inp: Input)
    returns (r: Option<Instance>, written: seq<Draft>, inps: seq<Input>)
    requires Valid(d) && AtRest(d, i) && i.status == WfRunning && dispatch == PlanOf(d, i, env.clock(n)).dispatch != []
    requires i.Covers(d) && inp.now == env.clock(n) && Looped(d, i, worker, inp).Append?
    ensures Wrote(d, i, written, r) && Waved(d, i, Looping, worker, inps, written, r)
    ensures r.Some? ==>
              && AtRest(d, r.value) && Live(r.value.status)
              && Remaining(d, r.value, |d.steps|) < Remaining(d, i, |d.steps|)
  {
    ghost var j := DispatchUsesUp(d, i, worker, env.clock(n));
    inps := [];
    written := StartedEvents(i, dispatch, worker, env.clock(n));
    AllLegalKeepsInv(d, i, written);
    r := AppendEvents(d, i, written, env.lost(n, 0));
    if r.None? { written := []; return; }
    var inst := r.value;
    StartLeg(d, i, worker, inp, inst);
    var rest, more;
    r, rest, more := FinishWave(d, inst, dispatch, worker, env, n);
    WroteMore(d, i, written, inst, rest, r);
    WavedMore(d, i, Looping, worker, [inp], written, inst, Executing(dispatch), more, rest, r);
    inps, written := [inp] + more, written + rest;
  }

  // --- what a finished drive reports --------------------------------------------------------------

  predicate Reports(result: DriveResult, s: WorkflowStatus) {
    match result
    case DoneCompleted => s == WfCompleted
    case DonePaused => s == WfPaused || s == WfFailed
    case DoneDeadLettered => s == WfDeadLettered
    case DoneRolledBack => s == WfRolledBack
    case DoneParked => s == WfRetrying
    case DoneWaiting => s == WfWaiting
    case DoneIdle => s == WfRunning
  }

  /** Where the failure policy leaves the instance. */
  function PolicyStatus(d: Definition, i: Instance, s: StepId, undo: Undo): WorkflowStatus {
    if || i.Step(s).errorType == Some("BudgetExceededError") || d.onFailure.Escalate?
       || (d.onFailure.Rollback? && undo.Stuck?) then WfWaiting
    else if d.onFailure.Rollback? then WfRolledBack
    else if d.onFailure.DeadLetter? then WfDeadLettered else WfPaused
  }

  lemma PolicyReports(d: Definition, i: Instance, s: StepId, undo: Undo, id: string, now: Time)
    ensures EndsIn(PolicyDrafts(d, i, s, undo, id, now), PolicyStatus(d, i, s, undo))
  {
  }

  lemma CompletedReports(i: Instance, now: Time)
    ensures StatusThrough([Moved(WfRunning, WfCompleted, now), Draft(InstanceCompleted(Outputs(i)), now)], WfRunning)
            == WfCompleted
  {
    var ds := [Moved(WfRunning, WfCompleted, now), Draft(InstanceCompleted(Outputs(i)), now)];
    assert ds[1..][1..] == [];
    assert StatusThrough(ds[1..], WfCompleted) == StatusThrough(ds[1..][1..], WfCompleted);
  }

  lemma PlannedReports(d: Definition, i: Instance, worker: string, inp: Input)
    requires i.status == WfRunning
    ensures var mv := Planned(d, i, worker, inp);
            mv.Finish? && mv.drafts != [] && mv.result != DoneCompleted ==>
              exists to :: EndsIn(mv.drafts, to) && Reports(mv.result, to)
  {
    var p := PlanOf(d, i, inp.now);
    var mv := Planned(d, i, worker, inp);
    if mv.Finish? && mv.drafts != [] && mv.result != DoneCompleted {
      if p.terminalFailure.Some? { PolicyReports(d, i, p.terminalFailure.value, inp.undo, NewId(inp.ids, 0), inp.now); }
      assert EndsIn(mv.drafts, mv.drafts[|mv.drafts| - 1].body.wfTo);
    }
  }

  /** The report of a drive names the status its last append leaves the instance in. */
  lemma FinishReports(d: Definition, i: Instance, worker: string, inp: Input)
    ensures var mv := Looped(d, i, worker, inp); mv.Finish? ==> Reports(mv.result, StatusThrough(mv.drafts, i.status))
  {
    var mv := Looped(d, i, worker, inp);
    if mv.Finish? && i.status == WfRunning && mv.drafts != [] {
      PlannedReports(d, i, worker, inp);
      CompletedReports(i, inp.now);
      if mv.result != DoneCompleted {
        var to :| EndsIn(mv.drafts, to) && Reports(mv.result, to);
        LastMoveWins(mv.drafts, to, i.status);
      }
    }
  }

  // --- the main loop --------------------------------------------------------------------------------

  const MAX_ITERATIONS := 1000

  datatype Ending = Finished(result: DriveResult) | LeaseLost | Faulted | DidNotConverge

  lemma RunningNext(d: Definition, i: Instance, worker: string, inp: Input)
    requires Looped(d, i, worker, inp).Append?
    ensures var mv := Looped(d, i, worker, inp);
            if mv.next.Looping?
            then (i.status == WfPending || i.status == WfRetrying) && mv.drafts == [Moved(i.status, WfRunning, inp.now)]
            else && i.status == WfRunning && mv.next == Executing(PlanOf(d, i, inp.now).dispatch)
                 && PlanOf(d, i, inp.now).dispatch != []
  {
  }

  /** A move of the main loop either returns what it reports, or moves the instance to RUNNING, or
      starts the planned wave. */
  ghost predicate Sensible(d: Definition, i: Instance, mv: Move, now: Time, j: Instance) {
    && !mv.Fault? && Lands(d, i, mv.drafts, j)
    && (mv.Finish? ==> Reports(mv.result, j.status))
    && (mv.Append? && mv.next.Looping? ==>
          AtRest(d, j) && (i.status == WfPending || i.status == WfRetrying)
          && mv.drafts == [Moved(i.status, WfRunning, now)])
    && (mv.Append? && !mv.next.Looping? ==>
          i.status == WfRunning && mv.next == Executing(PlanOf(d, i, now).dispatch) && PlanOf(d, i, now).dispatch != [])
  }

  lemma IterationSound(d: Definition, i: Instance, worker: string, inp: Input) returns (j: Instance)
    requires Valid(d) && AtRest(d, i)
    ensures Sensible(d, i, Looped(d, i, worker, inp), inp.now, j)
  {
    j := LoopedSound(d, i, worker, inp);
    var mv := Looped(d, i, worker, inp);
    AllLegalKeepsInv(d, i, mv.drafts);
    StatusIs(d, i, mv.drafts, j);
    FinishReports(d, i, worker, inp);
    if mv.Append? { RunningNext(d, i, worker, inp); }
  }

  lemma ToRunning(d: Definition, i: Instance, at: Time, j: Instance)
    requires Lands(d, i, [Moved(i.status, WfRunning, at)], j)
    ensures j.status == WfRunning && j.steps == i.steps
  {
    AllLegalOne(d, i, Moved(i.status, WfRunning, at));
  }

  lemma {:induction false} SameRemaining(d: Definition, i: Instance, j: Instance, n: nat)
    requires n <= |d.steps| && j.steps == i.steps
    ensures Remaining(d, j, n) == Remaining(d, i, n)
  {
    if n > 0 {
      SameRemaining(d, i, j, n - 1);
      assert j.Step(d.steps[n - 1].stepId) == i.Step(d.steps[n - 1].stepId);
    }
  }

  /** Iterations left: one per dispatch still possible, one to return, and one to get to RUNNING. */
  function RoundsLeft(d: Definition, i: Instance): nat {
    Remaining(d, i, |d.steps|) + if i.status == WfPending || i.status == WfRetrying then 2 else 1
  }

  ghost predicate Progress(d: Definition, i: Instance, j: Instance) {
    AtRest(d, j) && RoundsLeft(d, j) < RoundsLeft(d, i)
  }

  lemma ResumeProgresses(d: Definition, i: Instance, at: Time, j: Instance)
    requires AtRest(d, j) && Lands(d, i, [Moved(i.status, WfRunning, at)], j)
             && (i.status == WfPending || i.status == WfRetrying)
    ensures Progress(d, i, j)
  {
    ToRunning(d, i, at, j);
    SameRemaining(d, i, j, |d.steps|);
  }

  lemma WaveProgresses(d: Definition, i: Instance, j: Instance)
    requires AtRest(d, j) && Live(j.status) && i.status == WfRunning
             && Remaining(d, j, |d.steps|) < Remaining(d, i, |d.steps|)
    ensures Progress(d, i, j)
  {
  }

  /** The recorded inputs lead the drive through what it wrote; while it goes on, back to the loop. */
  ghost predicate Went(d: Definition, i: Instance, ph: Phase, worker: string, inps: seq<Input>, wrote: seq<Draft>,
                       j: Instance, on: bool) {
    if on then Tracks(d, i, ph, worker, inps, wrote, j, Some(Looping))
    else Trace(d, i, ph, worker, inps).written == wrote
  }

  lemma WentMore(d: Definition, i: Instance, ph: Phase, worker: string, a: seq<Input>, ds: seq<Draft>, j: Instance,
                 b: seq<Input>, es: seq<Draft>, k: Instance, on: bool)
    requires Tracks(d, i, ph, worker, a, ds, j, Some(Looping)) && Went(d, j, Looping, worker, b, es, k, on)
    ensures Went(d, i, ph, worker, a + b, ds + es, k, on)
  {
    TraceConcat(d, i, ph, worker, a, b);
  }

  /** What was written is legal on the projection with every step present, and folds to it. */
  ghost predicate WroteOn(d: Definition, start: Instance, written: seq<Draft>, j: Instance, lost: bool) {
    Wrote(d, Seeded(d, start), written, if lost then None else Some(Seeded(d, j)))
  }

  lemma CoversStays(d: Definition, i: Instance, ds: seq<Draft>, j: Instance)
    requires Valid(d) && Inv(d, Seeded(d, i)) && AllLegal(d, Seeded(d, i), ds) && Replay(Some(d), i, ds) == Ok(j)
             && i.Covers(d)
    ensures j.Covers(d) && Seeded(d, i) == i && Seeded(d, j) == j
  {
    SeedIdempotent(d, i);
    AllLegalKeepsInv(d, i, ds);
    InvCovers(d, j);
    SeedIdempotent(d, j);
  }

  /** An iteration without a wave: the append, and what it leaves. */
  method PlainIteration(d: Definition, i: Instance, mv: Move, worker: string, env: Env, n: nat, inp: Input)
    returns (end: Option<Ending>, j: Instance, wrote: seq<Draft>, inps: seq<Input>)
    requires Valid(d) && AtRest(d, Seeded(d, i)) && inp.now == env.clock(n) && mv == Looped(d, i, worker, inp)
    requires !mv.Fault? && (mv.Append? ==> mv.next.Looping?)
    ensures end == None || end == Some(LeaseLost) || end.value.Finished?
    ensures WroteOn(d, i, wrote, j, end == Some(LeaseLost)) && Went(d, i, Looping, worker, inps, wrote, j, end.None?)
    ensures end.Some? && end.value.Finished? ==> Reports(end.value.result, j.status)
    ensures end.None? ==> Progress(d, Seeded(d, i), Seeded(d, j)) && (i.Covers(d) ==> j.Covers(d))
  {
    ghost var e := Chooses(d, i, worker, inp);
    LocalFold(d, i, mv.drafts);
    inps := [];
    var r := AppendEvents(d, i, mv.drafts, env.lost(n, 0));
    if r.None? { return Some(LeaseLost), i, [], []; }
    j, wrote, inps := r.value, mv.drafts, [inp];
    LegOf(d, i, Looping, worker, inp, mv, j);
    TraceOne(d, i, Looping, worker, inp);
    if mv.Finish? { return Some(Finished(mv.result)), j, wrote, inps; }
    ResumeProgresses(d, Seeded(d, i), env.clock(n), Seeded(d, j));
    if i.Covers(d) { CoversStays(d, i, mv.drafts, j); }
    end := None;
  }

  /** An iteration that runs a wave; only a projection with every defined step gets here. */
  method WaveIteration(d: Definition, i: Instance, dispatch: seq<Attempt>, worker: string, env: Env, n: nat,
                       inp: Input)
    returns (end: Option<Ending>, j: Instance, wrote: seq<Draft>, inps: seq<Input>)
    requires Valid(d) && AtRest(d, i) && i.Covers(d) && i.status == WfRunning && inp.now == env.clock(n)
    requires dispatch == PlanOf(d, i, env.clock(n)).dispatch != [] && Looped(d, i, worker, inp).Append?
    ensures end == None || end == Some(LeaseLost)
    ensures WroteOn(d, i, wrote, j, end == Some(LeaseLost)) && Went(d, i, Looping, worker, inps, wrote, j, end.None?)
    ensures end.None? ==> Progress(d, Seeded(d, i), Seeded(d, j)) && j.Covers(d)
  {
    SeedIdempotent(d, i);
    var r;
    r, wrote, inps := DispatchWave(d, i, dispatch, worker, env, n, inp);
    if r.None? { return Some(LeaseLost), i, wrote, inps; }
    j := r.value;
    WaveProgresses(d, i, j);
    InvCovers(d, j);
    SeedIdempotent(d, j);
    end := None;
  }

  /** What the main loop chooses to do, and that a fault ends the drive with nothing written. */
  ghost predicate Chosen(d: Definition, i: Instance, worker: string, inp: Input, mv: Move, e: Instance) {
    if mv.Fault? then
      && i.status == WfRunning && !i.Covers(d)
      && Wrote(d, Seeded(d, i), [], Some(Seeded(d, i))) && Trace(d, i, Looping, worker, [inp]).written == []
    else
      && Sensible(d, Seeded(d, i), mv, inp.now, e)
      && (mv.Append? && !mv.next.Looping? ==>
            && AtRest(d, i) && i.Covers(d) && i.status == WfRunning
            && mv.next == Executing(PlanOf(d, i, inp.now).dispatch) && PlanOf(d, i, inp.now).dispatch != [])
  }

  lemma ChosenMove(d: Definition, i: Instance, worker: string, inp: Input, mv: Move, e: Instance)
    requires AtRest(d, Seeded(d, i)) && Sensible(d, Seeded(d, i), mv, inp.now, e)
             && (mv.Append? && !mv.next.Looping? ==> i.Covers(d))
    ensures Chosen(d, i, worker, inp, mv, e)
  {
    SeedIdempotent(d, i);
  }

  lemma ChosenFault(d: Definition, i: Instance, worker: string, inp: Input, e: Instance)
    requires i.status == WfRunning && !i.Covers(d)
    ensures Chosen(d, i, worker, inp, Fault, e)
  {
    Nothing(d, Seeded(d, i));
    TraceOne(d, i, Looping, worker, inp);
  }

  lemma Chooses(d: Definition, i: Instance, worker: string, inp: Input) returns (e: Instance)
    requires Valid(d) && AtRest(d, Seeded(d, i))
    ensures Chosen(d, i, worker, inp, Looped(d, i, worker, inp), e)
  {
    SameMove(d, i, Looping, worker, inp);
    e := IterationSound(d, Seeded(d, i), worker, inp);
    var mv := NextMove(d, i, Looping, worker, inp);
    if mv.Fault? && !i.Covers(d) {
      ChosenFault(d, i, worker, inp, e);
    } else {
      ChosenMove(d, i, worker, inp, mv, e);
    }
  }

  /** One pass of the main loop on the driver's own projection. */
  method Iteration(d: Definition, i: Instance, worker: string, env: Env, n: nat)
    returns (end: Option<Ending>, j: Instance, wrote: seq<Draft>, inps: seq<Input>)
    requires Valid(d) && AtRest(d, Seeded(d, i))
    ensures end != Some(DidNotConverge)
    ensures WroteOn(d, i, wrote, j, end == Some(LeaseLost)) && Went(d, i, Looping, worker, inps, wrote, j, end.None?)
    ensures end.Some? && end.value.Finished? ==> Reports(end.value.result, j.status)
    ensures end.None? ==> Progress(d, Seeded(d, i), Seeded(d, j)) && (i.Covers(d) ==> j.Covers(d))
    ensures end == Some(Faulted) ==> i.status == WfRunning && !i.Covers(d) && j == i
  {
    var inp := Input(env.clock(n), [], [], env.ids(n), env.undo);
    ghost var e := Chooses(d, i, worker, inp);
    var mv := Looped(d, i, worker, inp);
    if mv.Fault? { return Some(Faulted), i, [], [inp]; }
    if mv.Append? && !mv.next.Looping? {
      end, j, wrote, inps := WaveIteration(d, i, mv.next.dispatch, worker, env, n, inp);
    } else {
      end, j, wrote, inps := PlainIteration(d, i, mv, worker, env, n, inp);
    }
  }

  lemma WroteOnMore(d: Definition, start: Instance, written: seq<Draft>, i: Instance, ds: seq<Draft>, j: Instance,
                    lost: bool)
    requires WroteOn(d, start, written, i, false) && WroteOn(d, i, ds, j, lost)
    ensures WroteOn(d, start, written + ds, j, lost)
  {
    WroteMore(d, Seeded(d, start), written, Seeded(d, i), ds, if lost then None else Some(Seeded(d, j)));
  }

  /** The main loop, on whatever projection the driver has read. All it writes is legal and is the row of
      the drive's moves; its report is true of the instance it leaves; it takes at most two iterations more
      than the dispatches the definition allows, so with an allowance of up to 998 the convergence error
      cannot happen; and it faults only if the projection lacks a defined step. */
  method RunLoop(d: Definition, start: Instance, worker: string, env: Env)
    returns (end: Ending, inst: Instance, written: seq<Draft>, rounds: nat, inps: seq<Input>)
    requires Valid(d) && AtRest(d, Seeded(d, start))
    ensures WroteOn(d, start, written, inst, end.LeaseLost?)
            && Trace(d, start, Looping, worker, inps).written == written
    ensures end.Finished? ==> Reports(end.result, inst.status)
    ensures end.Faulted? ==> inst.status == WfRunning && !start.Covers(d)
    ensures rounds <= 2 + Allowance(d, |d.steps|)
    ensures end.DidNotConverge? ==> rounds == 1000 && 2 + Allowance(d, |d.steps|) > 1000
  {
    RemainingFitsAllowance(d, Seeded(d, start), |d.steps|);
    inst, written, rounds, inps := start, [], 0, [];
    while rounds < MAX_ITERATIONS
      invariant WroteOn(d, start, written, inst, false) && AtRest(d, Seeded(d, inst))
                && (start.Covers(d) ==> inst.Covers(d))
      invariant Tracks(d, start, Looping, worker, inps, written, inst, Some(Looping))
      invariant rounds + RoundsLeft(d, Seeded(d, inst)) <= 2 + Allowance(d, |d.steps|)
      invariant rounds <= MAX_ITERATIONS
    {
      var ended, next, wrote, more;
      ended, next, wrote, more := Iteration(d, inst, worker, env, rounds);
      rounds := rounds + 1;
      WroteOnMore(d, start, written, inst, wrote, next, ended == Some(LeaseLost));
      WentMore(d, start, Looping, worker, inps, written, inst, more, wrote, next, ended.None?);
      written, inps := written + wrote, inps + more;
      inst := next;
      if ended.Some? { return ended.value, inst, written, rounds, inps; }
    }
    end := DidNotConverge;
  }

  lemma RecoverySeeded(d: Definition, read: Instance, stale: seq<StepId>)
    requires Enumerates(stale, read)
    ensures Enumerates(stale, Seeded(d, read))
  {
    assert Seeded(d, read).RunningSteps() == read.RunningSteps();
  }

  /** A whole drive: put back what a crashed worker left running, then loop. */
  method Drive(d: Definition, read: Instance, stale: seq<StepId>, worker: string, env: Env)
    returns (end: Ending, inst: Instance, written: seq<Draft>, rounds: nat, inps: seq<Input>)
    requires Valid(d) && Inv(d, Seeded(d, read)) && Boundary(d, Seeded(d, read)) && Enumerates(stale, read)
    ensures WroteOn(d, read, written, inst, end.LeaseLost?)
            && Trace(d, read, Recovering, worker, inps).written == written
    ensures end.Finished? ==> Reports(end.result, inst.status)
    ensures end.Faulted? ==> inst.status == WfRunning && !read.Covers(d)
    ensures rounds <= 2 + Allowance(d, |d.steps|)
    ensures end.DidNotConverge? ==> rounds == 1000 && 2 + Allowance(d, |d.steps|) > 1000
  {
    RecoverySeeded(d, read, stale);
    ghost var j := RecoverSound(d, Seeded(d, read), stale, env.clock(0));
    var recovered := RecoverDrafts(stale, env.clock(0));
    AllLegalKeepsInv(d, Seeded(d, read), recovered);
    LocalFold(d, read, recovered);
    var r := AppendEvents(d, read, recovered, env.lost(0, 4));
    if r.None? { return LeaseLost, read, [], 0, []; }
    var back := r.value;
    var inp := Input(env.clock(0), stale, [], [], env.undo);
    LegOf(d, read, Recovering, worker, inp, NextMove(d, read, Recovering, worker, inp), back);
    TraceOne(d, read, Recovering, worker, inp);
    if read.Covers(d) { CoversStays(d, read, recovered, back); }
    var rest, more;
    end, inst, rest, rounds, more := RunLoop(d, back, worker, env);
    WroteOnMore(d, read, recovered, back, rest, inst, end.LeaseLost?);
    TraceConcat(d, read, Recovering, worker, [inp], more);
    written, inps := recovered + rest, [inp] + more;
  }
}
