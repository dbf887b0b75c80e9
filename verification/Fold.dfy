/** `fold`: rebuild an instance from its event stream (src/agentforge/core/events/fold.py). */
module Fold {
  import opened Domain
  import opened Events

  datatype FoldError = StreamError | InvalidTransition

  type Folded = Result<Instance, FoldError>

  // --- shared updates --------------------------------------------------

  function Put(i: Instance, s: StepId, st: StepState): Instance {
    i.(steps := i.steps[s := st])
  }

  function SetStepStatus(st: StepState, target: StepStatus): Result<StepState, FoldError> {
    if !StepTransitionAllowed(st.status, target) then Err(InvalidTransition) else Ok(st.(status := target))
  }

  function SetWorkflowStatus(i: Instance, target: WorkflowStatus, declared: Option<WorkflowStatus>): Folded {
    if declared.Some? && declared.value != i.status then Err(StreamError)
    else if i.status != target && !WorkflowTransitionAllowed(i.status, target) then Err(InvalidTransition)
    else Ok(i.(status := target))
  }

  function ResolveRefs(refs: seq<EscalationRef>, id: string): (r: seq<EscalationRef>)
    ensures |r| == |refs|
    ensures forall k :: 0 <= k < |r| ==>
                          r[k] == if refs[k].escalationId == id then refs[k].(resolved := true) else refs[k]
  {
    seq(|refs|, k requires 0 <= k < |refs| =>
      if refs[k].escalationId == id then refs[k].(resolved := true) else refs[k])
  }

  /** Position of the first reference with the key, or the length when there is none. */
  function EffectIndex(refs: seq<EffectRef>, key: string): (k: nat)
    ensures k <= |refs|
  {
    if refs == [] || refs[0].key == key then 0 else 1 + EffectIndex(refs[1..], key)
  }

  function MarkEffect(refs: seq<EffectRef>, key: string, status: EffectStatus): seq<EffectRef> {
    var k := EffectIndex(refs, key);
    if k < |refs| then refs[k := refs[k].(status := status)] else refs
  }

  /** `setdefault` over the definition's steps. */
  function SeedSteps(d: Definition, steps: map<StepId, StepState>): map<StepId, StepState> {
    (map s | s in d.Ids() :: UNTOUCHED) + steps
  }

  function Seeded(d: Definition, i: Instance): Instance {
    i.(steps := SeedSteps(d, i.steps))
  }

  // --- handlers -----------------------------------------------------------
  // Each handler of the source is split into what it does to the step it names
  // (`OnStep`) and what it does to the rest of the instance (`OnInstance`).

  /** The step entry the event creates or updates, if it names one. */
  function Touched(b: EventBody): Option<StepId> {
    match b
    case StepStatusChanged(s, _, _) => Some(s)
    case StepStarted(s, _, _, _) => Some(s)
    case StepCompleted(s, _, _, _) => Some(s)
    case StepFailed(s, _, _, _, _) => Some(s)
    case StepRetryScheduled(s, _, _) => Some(s)
    case StepSkipped(s) => Some(s)
    case StepCompensated(s, _) => Some(s)
    case LLMCallRecorded(s, _, _) => Some(s)
    case EscalationRaised(_, s, _, _, _) => if s == "" then None else Some(s)
    case CostCharged(s, _, _, _) => if s == Some("") then None else s
    case WorkflowRequeued(s) => s
    case _ => None
  }

  function OnStep(st: StepState, b: EventBody, at: Time): Result<StepState, FoldError> {
    match b
    case StepStatusChanged(_, frm, to) => if frm != st.status then Err(StreamError) else SetStepStatus(st, to)
    case StepStarted(_, attempt, _, model) =>
      SetStepStatus(st.(attempts := attempt, startedAt := Some(at), nextRetryAt := None,
                        modelUsed := if model.Some? then model else st.modelUsed), Running)
    case StepCompleted(_, _, output, model) =>
      SetStepStatus(st.(output := Some(output), completedAt := Some(at),
                        modelUsed := if model.Some? then model else st.modelUsed), Completed)
    case StepFailed(_, _, kind, message, _) =>
      SetStepStatus(st.(errorType := Some(kind), errorMessage := Some(message), llmCalls := []), Failed)
    case StepRetryScheduled(_, _, runAt) => Ok(st.(nextRetryAt := Some(runAt)))
    case StepSkipped(_) => SetStepStatus(st, Skipped)
    case StepCompensated(_, _) => SetStepStatus(st, Compensated)
    case LLMCallRecorded(_, _, recording) =>
      Ok(st.(modelUsed := Some(recording.model), llmCalls := st.llmCalls + [recording]))
    case EscalationRaised(_, _, _, _, _) => SetStepStatus(st, Waiting)
    case CostCharged(_, amount, tin, tout) => Ok(st.(cost := st.cost + amount, tokens := st.tokens.Plus(tin, tout)))
    case WorkflowRequeued(_) =>
      Ok(st.(status := Ready, attempts := 0, nextRetryAt := None, errorType := None, errorMessage := None))
    case _ => Ok(st)
  }

  function OnInstance(i: Instance, b: EventBody, at: Time): Folded {
    match b
    case InstanceCreated(_, _, context, budget) =>
      Ok(i.(context := context, budgetLimit := budget, createdAt := Some(at)))
    case InstanceStatusChanged(frm, to) =>
      var r := SetWorkflowStatus(i, to, Some(frm));
      if r.Err? then r
      else Ok(if Terminal(to) then r.value.(completedAt := Some(at)) else r.value)
    case InstanceCompleted(outputs) =>
      var r := SetWorkflowStatus(i, WfCompleted, None);
      if r.Err? then r
      else Ok(r.value.(completedAt := Some(at),
                       context := if outputs != map[] then i.context["_outputs" := Dict(outputs)] else i.context))
    case InstanceFailed(kind, message) =>
      var r := SetWorkflowStatus(i, WfFailed, None);
      if r.Err? then r
      else Ok(r.value.(errors := i.errors + [ErrorRecord(None, kind, message, at)]))
    case WorkflowRequeued(_) => SetWorkflowStatus(i, WfRunning, None)
    case WorkflowBudgetAdjusted(newLimit) => Ok(i.(budgetLimit := newLimit))
    case StepFailed(s, _, kind, message, _) =>
      Ok(i.(errors := i.errors + [ErrorRecord(Some(s), kind, message, at)]))
    case SideEffectIntentRecorded(s, name, key) =>
      Ok(if EffectIndex(i.effects, key) < |i.effects| then i
         else i.(effects := i.effects + [EffectRef(key, s, name, EffectPending)]))
    case SideEffectExecuted(s, key) =>
      Ok(i.(effects := if EffectIndex(i.effects, key) < |i.effects| then MarkEffect(i.effects, key, EffectExecuted)
                       else i.effects + [EffectRef(key, s, "", EffectExecuted)]))
    case SideEffectCompensated(_, key) => Ok(i.(effects := MarkEffect(i.effects, key, EffectCompensated)))
    case EscalationRaised(id, s, reason, deadline, _) =>
      Ok(i.(escalations := i.escalations + [EscalationRef(id, s, reason, deadline, false)]))
    case EscalationResolved(id, _, _, modified) =>
      Ok(i.(escalations := ResolveRefs(i.escalations, id), context := i.context + modified))
    case EscalationTimedOut(id, _, _) => Ok(i.(escalations := ResolveRefs(i.escalations, id)))
    case CostCharged(_, amount, tin, tout) => Ok(i.(cost := i.cost + amount, tokens := i.tokens.Plus(tin, tout)))
    case BudgetExceeded(s, _, _) =>
      Ok(i.(errors := i.errors + [ErrorRecord(Some(s), "BudgetExceededError", "projected > remaining", at)]))
    case _ => Ok(i)
  }

  function Handle(defn: Option<Definition>, i: Instance, b: EventBody, at: Time): Folded {
    var r := OnInstance(i, b, at);
    if r.Err? then r
    else if b.InstanceCreated? && defn.Some? then Ok(Seeded(defn.value, r.value))
    else if Touched(b).None? then r
    else
      var s := Touched(b).value;
      var st := OnStep(i.Step(s), b, at);
      if st.Err? then Err(st.error) else Ok(Put(r.value, s, st.value))
  }

  /** One event applied to an existing projection: handler, then the version stamp. */
  function Advance(defn: Option<Definition>, i: Instance, d: Draft): Folded {
    var r := Handle(defn, i, d.body, d.at);
    if r.Err? then r else Ok(r.value.(updatedAt := Some(d.at), version := i.version + 1))
  }

  /** A run of drafts applied in order, stopping at the first rejection. */
  function Replay(defn: Option<Definition>, i: Instance, ds: seq<Draft>): Folded
    decreases |ds|
  {
    if ds == [] then Ok(i)
    else
      var r := Advance(defn, i, ds[0]);
      if r.Err? then r else Replay(defn, r.value, ds[1..])
  }

  function Version(o: Option<Instance>): nat {
    if o.Some? then o.value.version else 0
  }

  /** One iteration of the fold loop: contiguity, opening event, handler. */
  function FoldOne(defn: Option<Definition>, o: Option<Instance>, ev: Event): Folded {
    if ev.sequence != Version(o) + 1 then Err(StreamError)
    else if o.Some? then Advance(defn, o.value, ev.draft)
    else if !ev.draft.body.InstanceCreated? then Err(StreamError)
    else Advance(defn, NewInstance(ev.instanceId, ev.tenantId, ev.draft.body.workflowId, ev.draft.body.workflowVersion),
                 ev.draft)
  }

  function FoldAll(defn: Option<Definition>, o: Option<Instance>, evs: seq<Event>): Result<Option<Instance>, FoldError>
    decreases |evs|
  {
    if evs == [] then Ok(o)
    else
      var r := FoldOne(defn, o, evs[0]);
      if r.Err? then Err(r.error) else FoldAll(defn, Some(r.value), evs[1..])
  }

  function FoldFrom(defn: Option<Definition>, base: Option<Instance>, evs: seq<Event>): Folded {
    var r := FoldAll(defn, base, evs);
    if r.Err? then Err(r.error) else if r.value.None? then Err(StreamError) else Ok(r.value.value)
  }

  /** The source's loop: it consumes the stream left to right over a private copy of the base. */
  method FoldEvents(defn: Option<Definition>, base: Option<Instance>, evs: seq<Event>) returns (r: Folded)
    ensures r == FoldFrom(defn, base, evs)
  {
    var inst := base;
    var k := 0;
    while k < |evs|
      invariant 0 <= k <= |evs|
      invariant FoldAll(defn, base, evs) == FoldAll(defn, inst, evs[k..])
    {
      var step := FoldOne(defn, inst, evs[k]);
      assert evs[k..][1..] == evs[k + 1..];
      if step.Err? { return Err(step.error); }
      inst := Some(step.value);
      k := k + 1;
    }
    if inst.None? { return Err(StreamError); }
    return Ok(inst.value);
  }
}
