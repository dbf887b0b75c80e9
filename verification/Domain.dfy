/** State vocabularies, the two transition tables, workflow definitions and the
    instance projection (src/agentforge/core/domain). Times and money are reals. */
module Domain {

  datatype Option<+T> = None | Some(value: T)

  datatype Result<+T, +E> = Ok(value: T) | Err(error: E)

  type StepId = string
  type Time = real
  datatype Json = Text(text: string) | Dict(entries: map<string, Json>)
  type Data = map<string, Json>

  datatype WorkflowStatus =
    | WfPending | WfRunning | WfPaused | WfWaiting | WfRetrying
    | WfFailed | WfDeadLettered | WfCompleted | WfRolledBack

  datatype StepStatus =
    | Pending | Ready | Running | Waiting | Completed | Failed | Skipped | Compensated

  datatype OnFailure = Pause | Rollback | DeadLetter | Escalate

  predicate Terminal(s: WorkflowStatus) {
    s.WfCompleted? || s.WfRolledBack?
  }

  function WorkflowTargets(s: WorkflowStatus): set<WorkflowStatus> {
    match s
    case WfPending => {WfRunning, WfPaused, WfFailed, WfRolledBack}
    case WfRunning => {WfPaused, WfWaiting, WfRetrying, WfFailed, WfCompleted, WfDeadLettered, WfRolledBack}
    case WfRetrying => {WfRunning, WfFailed, WfDeadLettered}
    case WfPaused => {WfRunning, WfRolledBack, WfFailed}
    case WfWaiting => {WfRunning, WfRolledBack, WfFailed, WfDeadLettered}
    case WfFailed => {WfRunning, WfRetrying, WfRolledBack, WfDeadLettered}
    case WfDeadLettered => {WfRunning}
    case WfCompleted => {}
    case WfRolledBack => {}
  }

  function StepTargets(s: StepStatus): set<StepStatus> {
    match s
    case Pending => {Ready, Skipped}
    case Ready => {Running, Skipped, Waiting}
    case Running => {Completed, Failed, Waiting, Ready}
    case Waiting => {Ready, Running, Completed, Skipped, Failed}
    case Failed => {Ready, Running, Skipped, Compensated, Waiting}
    case Completed => {Compensated, Waiting}
    case Skipped => {}
    case Compensated => {}
  }

  predicate WorkflowTransitionAllowed(src: WorkflowStatus, dst: WorkflowStatus) {
    dst in WorkflowTargets(src)
  }

  predicate StepTransitionAllowed(src: StepStatus, dst: StepStatus) {
    src == dst || dst in StepTargets(src)
  }

  /** A dependency in one of these states no longer holds its dependents back. */
  predicate Done(s: StepStatus) {
    s.Completed? || s.Skipped?
  }

  predicate Settled(s: StepStatus) {
    s.Completed? || s.Skipped? || s.Compensated?
  }

  datatype RetryPolicy = RetryPolicy(maxRetries: nat, backoffBase: real, backoffMultiplier: real, backoffMax: real)

  datatype WorkflowStep = WorkflowStep(
    stepId: StepId,
    dependencies: seq<StepId>,
    retry: RetryPolicy,
    requiresApproval: bool,
    approvalTimeout: Option<Time>,
    approvalAutoAction: string,
    compensationAction: Option<string>,
    sideEffects: seq<string>)

  datatype Definition = Definition(steps: seq<WorkflowStep>, maxConcurrent: nat, onFailure: OnFailure) {

    predicate Has(s: StepId) {
      exists k :: 0 <= k < |steps| && steps[k].stepId == s
    }

    ghost predicate DistinctIds() {
      forall j, k :: 0 <= j < k < |steps| ==> steps[j].stepId != steps[k].stepId
    }

    /** The first step carrying the id, as the source's linear search returns it. */
    function StepOf(s: StepId): (w: WorkflowStep)
      requires Has(s)
      ensures w in steps && w.stepId == s
    {
      StepFrom(steps, s)
    }

    static function StepFrom(ws: seq<WorkflowStep>, s: StepId): (w: WorkflowStep)
      requires exists k :: 0 <= k < |ws| && ws[k].stepId == s
      ensures w in ws && w.stepId == s
    {
      if ws[0].stepId == s then ws[0] else StepFrom(ws[1..], s)
    }

    function Ids(): set<StepId> {
      set k | 0 <= k < |steps| :: steps[k].stepId
    }
  }

  datatype Tokens = Tokens(input: int, output: int) {
    function Plus(i: int, o: int): Tokens { Tokens(input + i, output + o) }
  }

  datatype Recording = Recording(requestDigest: string, model: string, response: Data)

  datatype StepState = StepState(
    status: StepStatus,
    attempts: nat,
    output: Option<Data>,
    errorType: Option<string>,
    errorMessage: Option<string>,
    modelUsed: Option<string>,
    cost: real,
    tokens: Tokens,
    startedAt: Option<Time>,
    completedAt: Option<Time>,
    nextRetryAt: Option<Time>,
    llmCalls: seq<Recording>)

  /** The default projection of a step no event has touched. */
  const UNTOUCHED: StepState :=
    StepState(Pending, 0, None, None, None, None, 0.0, Tokens(0, 0), None, None, None, [])

  datatype ErrorRecord = ErrorRecord(stepId: Option<StepId>, errorType: string, errorMessage: string, at: Time)

  datatype EscalationRef = EscalationRef(
    escalationId: string, stepId: StepId, reason: string, deadline: Option<Time>, resolved: bool)

  datatype EffectStatus = EffectPending | EffectExecuted | EffectCompensated

  datatype EffectRef = EffectRef(key: string, stepId: StepId, effectName: string, status: EffectStatus)

  datatype Instance = Instance(
    instanceId: string,
    tenantId: string,
    workflowId: string,
    workflowVersion: string,
    status: WorkflowStatus,
    context: Data,
    steps: map<StepId, StepState>,
    cost: real,
    tokens: Tokens,
    budgetLimit: Option<real>,
    errors: seq<ErrorRecord>,
    escalations: seq<EscalationRef>,
    effects: seq<EffectRef>,
    version: nat,
    createdAt: Option<Time>,
    updatedAt: Option<Time>,
    completedAt: Option<Time>)
  {
    /** Lookup with the default the fold would create. */
    function Step(s: StepId): StepState {
      if s in steps then steps[s] else UNTOUCHED
    }

    function RemainingBudget(): Option<real> {
      match budgetLimit
      case None => None
      case Some(limit) => Some(limit - cost)
    }

    predicate BudgetOut() {
      RemainingBudget().Some? && RemainingBudget().value <= 0.0
    }

    function RunningSteps(): set<StepId> {
      set s | s in steps && steps[s].status == Running
    }

    predicate Covers(d: Definition) {
      forall k :: 0 <= k < |d.steps| ==> d.steps[k].stepId in steps
    }

    /** An escalation on the step is still open. */
    predicate Open(s: StepId) {
      exists k :: 0 <= k < |escalations| && escalations[k].stepId == s && !escalations[k].resolved
    }

    /** Some escalation on the step has been resolved. */
    predicate Granted(s: StepId) {
      exists k :: 0 <= k < |escalations| && escalations[k].stepId == s && escalations[k].resolved
    }
  }

  function NewInstance(instanceId: string, tenantId: string, workflowId: string, workflowVersion: string): Instance {
    Instance(instanceId, tenantId, workflowId, workflowVersion, WfPending, map[], map[], 0.0, Tokens(0, 0),
             None, [], [], [], 0, None, None, None)
  }
}
