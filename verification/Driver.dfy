/** The batches the driver appends and the order in which one `drive` appends them
    (src/agentforge/core/driver.py). Step outcomes, clocks and new ids are inputs. */
module Driver {
  import opened Domain
  import opened Events
  import opened Planner

  // --- outcomes of a step attempt ---------------------------------------------

  datatype Charge = Charge(amount: real, tokensIn: int, tokensOut: int)

  datatype EffectOutcome = EffectOutcome(effectName: string, key: string, deduplicated: bool)

  datatype Review = Review(reason: string, timeout: Option<Time>, autoAction: string)

  datatype StepOutcome =
    | Success(output: Data, model: Option<string>, charges: seq<Charge>, effects: seq<EffectOutcome>,
              recordings: seq<Recording>, review: Option<Review>)
    | Failure(errorType: string, errorMessage: string, retryable: bool, charges: seq<Charge>,
              effects: seq<EffectOutcome>, recordings: seq<Recording>)

  datatype StepRun = StepRun(stepId: StepId, attempt: nat, outcome: StepOutcome)

  function Runs(dispatch: seq<Attempt>, outcomes: seq<StepOutcome>): (runs: seq<StepRun>)
    requires |outcomes| == |dispatch|
    ensures |runs| == |dispatch|
    ensures forall k :: 0 <= k < |runs| ==> runs[k] == StepRun(dispatch[k].0, dispatch[k].1, outcomes[k])
  {
    seq(|dispatch|, k requires 0 <= k < |dispatch| => StepRun(dispatch[k].0, dispatch[k].1, outcomes[k]))
  }

  // --- retry backoff -------------------------------------------------------

  function Power(base: real, n: nat): real {
    if n == 0 then 1.0 else base * Power(base, n - 1)
  }

  function BackoffDelay(p: RetryPolicy, attempt: nat): real {
    var raw := p.backoffBase * Power(p.backoffMultiplier, if attempt > 0 then attempt - 1 else 0);
    if raw <= p.backoffMax then raw else p.backoffMax
  }

  // --- drafts ----------------------------------------------------------------

  function Moved(frm: WorkflowStatus, to: WorkflowStatus, at: Time): Draft {
    Draft(InstanceStatusChanged(frm, to), at)
  }

  function StartOne(i: Instance, c: Attempt, worker: string, at: Time): seq<Draft> {
    (if i.Step(c.0).status == Pending then [Draft(StepStatusChanged(c.0, Pending, Ready), at)] else [])
    + [Draft(StepStarted(c.0, c.1, worker, None), at)]
  }

  function StartDrafts(i: Instance, dispatch: seq<Attempt>, worker: string, at: Time): seq<Draft> {
    if dispatch == [] then [] else StartOne(i, dispatch[0], worker, at) + StartDrafts(i, dispatch[1..], worker, at)
  }

  function RecordingDrafts(s: StepId, attempt: nat, recs: seq<Recording>, at: Time): seq<Draft> {
    if recs == [] then []
    else [Draft(LLMCallRecorded(s, attempt, recs[0]), at)] + RecordingDrafts(s, attempt, recs[1..], at)
  }

  function ChargeDrafts(s: StepId, charges: seq<Charge>, at: Time): seq<Draft> {
    if charges == [] then []
    else [Draft(CostCharged(Some(s), charges[0].amount, charges[0].tokensIn, charges[0].tokensOut), at)]
         + ChargeDrafts(s, charges[1..], at)
  }

  function EffectDrafts(s: StepId, effects: seq<EffectOutcome>, at: Time): seq<Draft> {
    if effects == [] then [] else EffectOne(s, effects[0], at) + EffectDrafts(s, effects[1..], at)
  }

  function EffectOne(s: StepId, e: EffectOutcome, at: Time): seq<Draft> {
    (if e.deduplicated then [] else [Draft(SideEffectIntentRecorded(s, e.effectName, e.key), at)])
    + [Draft(SideEffectExecuted(s, e.key), at)]
  }

  function Verdict(r: StepRun, at: Time): Draft {
    match r.outcome
    case Success(output, model, _, _, _, _) => Draft(StepCompleted(r.stepId, r.attempt, output, model), at)
    case Failure(kind, message, retryable, _, _, _) =>
      Draft(StepFailed(r.stepId, r.attempt, kind, message, retryable), at)
  }

  function OutcomeOne(r: StepRun, at: Time): seq<Draft> {
    RecordingDrafts(r.stepId, r.attempt, r.outcome.recordings, at)
    + ChargeDrafts(r.stepId, r.outcome.charges, at)
    + EffectDrafts(r.stepId, r.outcome.effects, at)
    + [Verdict(r, at)]
  }

  function OutcomeDrafts(runs: seq<StepRun>, at: Time): seq<Draft> {
    if runs == [] then [] else OutcomeOne(runs[0], at) + OutcomeDrafts(runs[1..], at)
  }

  function SumCharges(charges: seq<Charge>): real {
    if charges == [] then 0.0 else charges[0].amount + SumCharges(charges[1..])
  }

  function Spent(runs: seq<StepRun>): real {
    if runs == [] then 0.0 else SumCharges(runs[0].outcome.charges) + Spent(runs[1..])
  }

  predicate Retries(d: Definition, r: StepRun)
    requires d.Has(r.stepId)
  {
    r.outcome.Failure? && r.outcome.retryable && r.attempt <= d.StepOf(r.stepId).retry.maxRetries
  }

  function RetryDrafts(d: Definition, runs: seq<StepRun>, now: Time): seq<Draft>
    requires forall r :: r in runs ==> d.Has(r.stepId)
  {
    if runs == [] then []
    else
      var r := runs[0];
      (if Retries(d, r) then
         [Draft(StepRetryScheduled(r.stepId, r.attempt + 1, now + BackoffDelay(d.StepOf(r.stepId).retry, r.attempt)),
                now)]
       else [])
      + RetryDrafts(d, runs[1..], now)
  }

  predicate WantsReview(r: StepRun) {
    r.outcome.Success? && r.outcome.review.Some?
  }

  function Reviewed(runs: seq<StepRun>): (rs: seq<StepRun>)
    ensures forall r :: r in rs <==> r in runs && WantsReview(r)
  {
    if runs == [] then [] else (if WantsReview(runs[0]) then [runs[0]] else []) + Reviewed(runs[1..])
  }

  function NewId(ids: seq<string>, k: nat): string {
    if k < |ids| then ids[k] else ""
  }

  function Deadline(timeout: Option<Time>, now: Time): Option<Time> {
    if timeout.Some? && timeout.value != 0.0 then Some(now + timeout.value) else None
  }

  function RaiseReviews(rs: seq<StepRun>, ids: seq<string>, now: Time): seq<Draft>
    requires forall r :: r in rs ==> WantsReview(r)
  {
    if rs == [] then []
    else
      assert WantsReview(rs[0]);
      var v := rs[0].outcome.review.value;
      [Draft(EscalationRaised(NewId(ids, 0), rs[0].stepId, v.reason, Deadline(v.timeout, now), v.autoAction), now)]
      + RaiseReviews(rs[1..], if ids == [] then [] else ids[1..], now)
  }

  function ReviewDrafts(runs: seq<StepRun>, ids: seq<string>, now: Time): seq<Draft> {
    if Reviewed(runs) == [] then [] else RaiseReviews(Reviewed(runs), ids, now) + [Moved(WfRunning, WfWaiting, now)]
  }

  function GateOne(d: Definition, i: Instance, s: StepId, id: string, now: Time): seq<Draft>
    requires d.Has(s)
  {
    (if i.Step(s).status == Pending then [Draft(StepStatusChanged(s, Pending, Ready), now)] else [])
    + [Draft(EscalationRaised(id, s, "explicit_approval", Deadline(d.StepOf(s).approvalTimeout, now),
                              d.StepOf(s).approvalAutoAction), now)]
  }

  function GateDrafts(d: Definition, i: Instance, gates: seq<StepId>, ids: seq<string>, now: Time): seq<Draft>
    requires forall s :: s in gates ==> d.Has(s)
  {
    if gates == [] then []
    else GateOne(d, i, gates[0], NewId(ids, 0), now)
         + GateDrafts(d, i, gates[1..], if ids == [] then [] else ids[1..], now)
  }

  function RecoverDrafts(stale: seq<StepId>, at: Time): seq<Draft> {
    if stale == [] then [] else [Draft(StepStatusChanged(stale[0], Running, Ready), at)] + RecoverDrafts(stale[1..], at)
  }

  function EscalateDrafts(s: StepId, reason: string, id: string, now: Time): seq<Draft> {
    [Draft(EscalationRaised(id, s, reason, None, "abort"), now), Moved(WfRunning, WfWaiting, now)]
  }

  function UndoneDrafts(undone: seq<(StepId, string)>, at: Time): seq<Draft> {
    if undone == [] then []
    else [Draft(SideEffectCompensated(undone[0].0, undone[0].1), at)] + UndoneDrafts(undone[1..], at)
  }

  predicate Compensable(i: Instance, w: WorkflowStep) {
    w.compensationAction.Some? && w.compensationAction.value != "" && i.Step(w.stepId).status == Completed
  }

  /** Completed steps with a compensation action, last definition order first. */
  function CompensateDrafts(i: Instance, ws: seq<WorkflowStep>, at: Time): seq<Draft> {
    if ws == [] then []
    else
      var w := ws[|ws| - 1];
      (if Compensable(i, w) then [Draft(StepCompensated(w.stepId, w.compensationAction.value), at)] else [])
      + CompensateDrafts(i, ws[..|ws| - 1], at)
  }

  function Outputs(i: Instance): Data {
    map s | s in i.steps && i.steps[s].status == Completed && i.steps[s].output.Some? :: Dict(i.steps[s].output.value)
  }

  /** How undoing the external effects and running the step handlers ended. */
  datatype Undo = Stuck | Undone(effects: seq<(StepId, string)>)

  function RollbackDrafts(d: Definition, i: Instance, undo: Undo, id: string, now: Time): seq<Draft> {
    match undo
    case Stuck => EscalateDrafts("", "compensation_failed", id, now)
    case Undone(effects) =>
      UndoneDrafts(effects, now) + CompensateDrafts(i, d.steps, now) + [Moved(WfRunning, WfRolledBack, now)]
  }

  function PolicyDrafts(d: Definition, i: Instance, s: StepId, undo: Undo, id: string, now: Time): seq<Draft> {
    if i.Step(s).errorType == Some("BudgetExceededError") then EscalateDrafts(s, "cost_threshold", id, now)
    else match d.onFailure
      case Escalate => EscalateDrafts(s, "max_retries", id, now)
      case Rollback => RollbackDrafts(d, i, undo, id, now)
      case DeadLetter => [Moved(WfRunning, WfDeadLettered, now)]
      case Pause => [Moved(WfRunning, WfPaused, now)]
  }

  // --- one drive as a sequence of appends ---------------------------------------

  /** Where a drive stands between two appends. */
  datatype Phase =
    | Recovering
    | Looping
    | Executing(dispatch: seq<Attempt>)
    | Billing(runs: seq<StepRun>)
    | Scheduling(runs: seq<StepRun>)
    | Reviewing(runs: seq<StepRun>)

  datatype DriveResult =
    | DoneCompleted | DonePaused | DoneDeadLettered | DoneRolledBack | DoneParked | DoneWaiting | DoneIdle

  /** The next append (possibly of nothing), the wakeup it stores, and what follows it. */
  datatype Move =
    | Append(drafts: seq<Draft>, wakeup: Option<Time>, next: Phase)
    | Finish(drafts: seq<Draft>, wakeup: Option<Time>, result: DriveResult)
    | Fault

  datatype Input = Input(now: Time, stale: seq<StepId>, outcomes: seq<StepOutcome>, ids: seq<string>, undo: Undo)

  function Planned(d: Definition, i: Instance, worker: string, inp: Input): Move {
    var p := PlanOf(d, i, inp.now);
    if p.budgetBlocked.Some? then
      Finish([Draft(BudgetExceeded(p.budgetBlocked.value, 0.0,
                                   if i.RemainingBudget().Some? then i.RemainingBudget().value else 0.0), inp.now),
              Moved(WfRunning, WfPaused, inp.now)], None, DonePaused)
    else if p.approvalNeeded != [] then
      if forall s :: s in p.approvalNeeded ==> d.Has(s) then
        Finish(GateDrafts(d, i, p.approvalNeeded, inp.ids, inp.now) + [Moved(WfRunning, WfWaiting, inp.now)], None,
               DoneWaiting)
      else Fault
    else if p.terminalFailure.Some? then
      Finish(PolicyDrafts(d, i, p.terminalFailure.value, inp.undo, NewId(inp.ids, 0), inp.now), None,
             if || i.Step(p.terminalFailure.value).errorType == Some("BudgetExceededError") || d.onFailure.Escalate?
                || (d.onFailure.Rollback? && inp.undo.Stuck?) then DoneWaiting
             else if d.onFailure.Rollback? then DoneRolledBack
             else if d.onFailure.DeadLetter? then DoneDeadLettered else DonePaused)
    else if p.dispatch != [] then
      Append(StartDrafts(i, p.dispatch, worker, inp.now), None, Executing(p.dispatch))
    else if p.allSettled then
      Finish([Moved(WfRunning, WfCompleted, inp.now), Draft(InstanceCompleted(Outputs(i)), inp.now)], None,
             DoneCompleted)
    else if p.retryWakeup.Some? then
      Finish([Moved(WfRunning, WfRetrying, inp.now)], p.retryWakeup, DoneParked)
    else Finish([], None, DoneIdle)
  }

  function Looped(d: Definition, i: Instance, worker: string, inp: Input): Move {
    match i.status
    case WfCompleted => Finish([], None, DoneCompleted)
    case WfRolledBack => Finish([], None, DoneRolledBack)
    case WfPaused => Finish([], None, DonePaused)
    case WfDeadLettered => Finish([], None, DoneDeadLettered)
    case WfWaiting => Finish([], None, DoneWaiting)
    case WfFailed => Finish([], None, DonePaused)
    case WfPending => Append([Moved(WfPending, WfRunning, inp.now)], None, Looping)
    case WfRetrying => Append([Moved(WfRetrying, WfRunning, inp.now)], None, Looping)
    case WfRunning => if i.Covers(d) then Planned(d, i, worker, inp) else Fault
  }

  /** The stale list enumerates the in-flight steps, in some order. */
  predicate Enumerates(stale: seq<StepId>, i: Instance) {
    && (set s | s in stale) == i.RunningSteps()
    && (forall a, b :: 0 <= a < b < |stale| ==> stale[a] != stale[b])
  }

  predicate Fits(d: Definition, i: Instance, ph: Phase, inp: Input) {
    match ph
    case Recovering => Enumerates(inp.stale, i)
    case Executing(dispatch) => |inp.outcomes| == |dispatch|
    case Scheduling(runs) => forall r :: r in runs ==> d.Has(r.stepId)
    case _ => true
  }

  function NextMove(d: Definition, i: Instance, ph: Phase, worker: string, inp: Input): Move
    requires Fits(d, i, ph, inp)
  {
    match ph
    case Recovering => Append(RecoverDrafts(inp.stale, inp.now), None, Looping)
    case Looping => Looped(d, i, worker, inp)
    case Executing(dispatch) =>
      var runs := Runs(dispatch, inp.outcomes);
      Append(OutcomeDrafts(runs, inp.now), None, Billing(runs))
    case Billing(runs) => Append([], None, Scheduling(runs))
    case Scheduling(runs) => Append(RetryDrafts(d, runs, inp.now), None, Reviewing(runs))
    case Reviewing(runs) => Append(ReviewDrafts(runs, inp.ids, inp.now), None, Looping)
  }
}
