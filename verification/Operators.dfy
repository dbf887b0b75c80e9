/** The two unguarded writers: the operator (src/agentforge/core/control.py) and the escalation
    controller (src/agentforge/core/escalation.py). */
module Operators {
  import opened Domain
  import opened Events
  import opened Fold
  import opened FoldLaws
  import opened Planner
  import opened Driver
  import opened Legality
  import opened Batches
  import opened Phases

  // --- the escalation controller -------------------------------------------------

  datatype Resolution = Approve | Modify | Skip | Abort

  function ResolutionName(r: Resolution): string {
    match r
    case Approve => "approve"
    case Modify => "modify"
    case Skip => "skip"
    case Abort => "abort"
  }

  /** The action of a timed-out escalation; anything unknown aborts. */
  function AutoAction(name: string): Resolution {
    if name == "approve" then Approve else if name == "skip" then Skip else Abort
  }

  /** Where a resolution sends the step: a step that already ran keeps its output, a gated one queues. */
  function StepTarget(st: StepState, r: Resolution): StepStatus {
    if r.Skip? then Skipped else if st.output.Some? then Completed else Ready
  }

  predicate OnKnownStep(i: Instance, s: StepId) {
    s != "" && s in i.steps
  }

  function WorkflowTarget(i: Instance, s: StepId, r: Resolution): WorkflowStatus {
    if r.Abort? then WfFailed else if OnKnownStep(i, s) then WfRunning else WfRolledBack
  }

  function TransitionDrafts(i: Instance, s: StepId, r: Resolution, now: Time): seq<Draft> {
    (if OnKnownStep(i, s) && !r.Abort? then
       [Draft(StepStatusChanged(s, i.Step(s).status, StepTarget(i.Step(s), r)), now)] else [])
    + [Moved(i.status, WorkflowTarget(i, s, r), now)]
  }

  /** Either the human's decision or the deadline's. */
  datatype Decision =
    | Resolved(resolution: Resolution, modified: Data, newBudget: Option<real>)
    | TimedOut(autoAction: string)
  {
    function Choice(): Resolution {
      if Resolved? then resolution else AutoAction(autoAction)
    }
  }

  function Opening(id: string, s: StepId, c: Decision, now: Time): seq<Draft> {
    match c
    case Resolved(r, modified, newBudget) =>
      [Draft(EscalationResolved(id, s, ResolutionName(r), modified), now)]
      + (if newBudget.Some? then [Draft(WorkflowBudgetAdjusted(newBudget), now)] else [])
    case TimedOut(name) => [Draft(EscalationTimedOut(id, s, ResolutionName(AutoAction(name))), now)]
  }

  function DecisionDrafts(i: Instance, id: string, s: StepId, c: Decision, now: Time): seq<Draft> {
    Opening(id, s, c, now) + TransitionDrafts(i, s, c.Choice(), now)
  }

  /** The controller grows its list of events branch by branch: at most one move of the step, then one of the
      instance. */
  method TransitionEvents(i: Instance, s: StepId, r: Resolution, now: Time) returns (out: seq<Draft>)
    ensures out == TransitionDrafts(i, s, r, now)
    ensures s != "" && s in i.steps && (r == Approve || r == Modify) ==>
              out == [Draft(StepStatusChanged(s, i.steps[s].status,
                                              if i.steps[s].output.Some? then Completed else Ready), now),
                      Draft(InstanceStatusChanged(i.status, WfRunning), now)]
    ensures s != "" && s in i.steps && r == Skip ==>
              out == [Draft(StepStatusChanged(s, i.steps[s].status, Skipped), now),
                      Draft(InstanceStatusChanged(i.status, WfRunning), now)]
    ensures r == Abort ==> out == [Draft(InstanceStatusChanged(i.status, WfFailed), now)]
    ensures !(s != "" && s in i.steps) && r != Abort ==>
              out == [Draft(InstanceStatusChanged(i.status, WfRolledBack), now)]
  {
    out := [];
    if s != "" && s in i.steps {
      var st := i.steps[s];
      if r.Approve? || r.Modify? {
        var alreadyRan := st.output.Some?;
        out := out + [Draft(StepStatusChanged(s, st.status, if alreadyRan then Completed else Ready), now)];
        out := out + [Moved(i.status, WfRunning, now)];
      } else if r.Skip? {
        out := out + [Draft(StepStatusChanged(s, st.status, Skipped), now)];
        out := out + [Moved(i.status, WfRunning, now)];
      } else {
        out := out + [Moved(i.status, WfFailed, now)];
      }
    } else {
      var target := if r.Approve? || r.Modify? || r.Skip? then WfRolledBack else WfFailed;
      out := out + [Moved(i.status, target, now)];
    }
  }

  /** The step table lets the named step move to where the decision sends it. */
  predicate Permitted(i: Instance, s: StepId, r: Resolution) {
    OnKnownStep(i, s) && !r.Abort? ==> StepTransitionAllowed(i.Step(s).status, StepTarget(i.Step(s), r))
  }

  // --- when the fold takes a decision ----------------------------------------------

  /** The opening event leaves the status and every step alone. */
  lemma OpeningQuiet(i: Instance, id: string, s: StepId, c: Decision, now: Time) returns (m: Instance)
    ensures Replay(None, i, Opening(id, s, c, now)) == Ok(m) && m.status == i.status && m.steps == i.steps
  {
    var ds := Opening(id, s, c, now);
    var a := Advance(None, i, ds[0]).value;
    if |ds| == 1 {
      ReplayOne(None, i, ds[0]);
      assert ds == [ds[0]];
      m := a;
    } else {
      ReplayOne(None, a, ds[1]);
      assert ds[1..] == [ds[1]];
      m := Advance(None, a, ds[1]).value;
    }
  }

  lemma TransitionAccepted(i: Instance, m: Instance, s: StepId, r: Resolution, now: Time)
    requires i.status == WfWaiting && m.status == i.status && m.steps == i.steps
    ensures Replay(None, m, TransitionDrafts(i, s, r, now)).Ok?
            <==> Permitted(i, s, r)
  {
    var wf := Moved(i.status, WorkflowTarget(i, s, r), now);
    if OnKnownStep(i, s) && !r.Abort? {
      var x := Draft(StepStatusChanged(s, i.Step(s).status, StepTarget(i.Step(s), r)), now);
      assert TransitionDrafts(i, s, r, now) == [x] + [wf];
      ReplayConcat(None, m, [x], [wf]);
      ReplayOne(None, m, x);
      var y := Advance(None, m, x);
      if y.Ok? { ReplayOne(None, y.value, wf); }
    } else {
      assert TransitionDrafts(i, s, r, now) == [wf];
      ReplayOne(None, m, wf);
    }
  }

  /** On a waiting instance a decision, stale or not, is accepted exactly when the step table lets the
      named step move to where the decision sends it; an abort and a workflow-level decision always are. */
  lemma DecisionAcceptedIff(i: Instance, id: string, s: StepId, c: Decision, now: Time)
    requires i.status == WfWaiting
    ensures Replay(None, i, DecisionDrafts(i, id, s, c, now)).Ok? <==> Permitted(i, s, c.Choice())
  {
    var m := OpeningQuiet(i, id, s, c, now);
    ReplayConcat(None, i, Opening(id, s, c, now), TransitionDrafts(i, s, c.Choice(), now));
    TransitionAccepted(i, m, s, c.Choice(), now);
  }

  // --- decisions on reachable states -------------------------------------------------

  /** Resolving the open reference of a step closes the step's only open escalation. */
  lemma ResolvedRefs(i: Instance, id: string, s: StepId, m: Instance)
    requires OneOpenEach(i) && OpenRef(i, id, s) && s != "" && m.escalations == ResolveRefs(i.escalations, id)
    ensures !m.Open(s) && i.Open(s)
  {
    var k :| 0 <= k < |i.escalations|
             && i.escalations[k].escalationId == id && i.escalations[k].stepId == s && !i.escalations[k].resolved;
    forall n | 0 <= n < |i.escalations| && i.escalations[n].stepId == s && n != k ensures i.escalations[n].resolved {
    }
  }

  /** Resolving any other id leaves the step's open escalation open. */
  lemma UnresolvedRefs(i: Instance, id: string, s: StepId, m: Instance)
    requires !OpenRef(i, id, s) && m.escalations == ResolveRefs(i.escalations, id)
    ensures m.Open(s) <==> i.Open(s)
  {
    if i.Open(s) {
      var k :| 0 <= k < |i.escalations| && i.escalations[k].stepId == s && !i.escalations[k].resolved;
      assert m.escalations[k].stepId == s && !m.escalations[k].resolved;
    }
  }

  lemma OpeningLegal(d: Definition, i: Instance, id: string, s: StepId, c: Decision, now: Time) returns (m: Instance)
    requires i.status == WfWaiting && RefOn(i, id, s)
    ensures Lands(d, i, Opening(id, s, c, now), m)
    ensures m.status == i.status && m.steps == i.steps && m.cost == i.cost
            && m.escalations == ResolveRefs(i.escalations, id)
    ensures m.budgetLimit == if c.Resolved? && c.newBudget.Some? then c.newBudget else i.budgetLimit
  {
    var ds := Opening(id, s, c, now);
    var a := One(d, i, ds[0]);
    if |ds| == 1 {
      assert ds == [ds[0]];
      m := a;
    } else {
      m := One(d, a, ds[1]);
      Join(d, i, [ds[0]], a, [ds[1]], m);
      assert ds == [ds[0]] + [ds[1]];
    }
  }

  lemma StepMoveLegal(d: Definition, i: Instance, s: StepId, frm: StepStatus, to: StepStatus, now: Time)
    returns (j: Instance)
    requires LegalStepMove(d, i, s, frm, to)
    ensures Lands(d, i, [Draft(StepStatusChanged(s, frm, to), now)], j)
    ensures OnlyStep(i, j, s) && j.Step(s) == i.Step(s).(status := to) && j.cost == i.cost
  {
    j := One(d, i, Draft(StepStatusChanged(s, frm, to), now));
  }

  /** What a decision may do to a step it may name at all: an escalated step has left PENDING. */
  lemma PermittedIsLegal(d: Definition, i: Instance, m: Instance, s: StepId, r: Resolution)
    requires Valid(d) && Inv(d, i) && i.status == WfWaiting && m.status == i.status && m.steps == i.steps
    requires OnKnownStep(i, s) && Escalated(i, s) && !r.Abort? && Permitted(i, s, r)
    ensures LegalStepMove(d, m, s, i.Step(s).status, StepTarget(i.Step(s), r))
  {
    InvHas(d, i, s);
    var k := InvAt(d, i, s);
  }

  /** What a decision does to the steps: it moves the one it names and no other. */
  ghost predicate Decided(i: Instance, j: Instance, s: StepId, r: Resolution) {
    forall t :: j.Step(t) == if OnKnownStep(i, s) && !r.Abort? && t == s
                             then i.Step(s).(status := StepTarget(i.Step(s), r)) else i.Step(t)
  }

  lemma SameStep(i: Instance, j: Instance)
    requires j.steps == i.steps
    ensures forall t :: j.Step(t) == i.Step(t)
  {
  }

  lemma TransitionLegal(d: Definition, i: Instance, m: Instance, s: StepId, r: Resolution, now: Time)
    returns (j: Instance)
    requires Boundary(d, i) && i.status == WfWaiting && m.status == i.status && m.steps == i.steps
    requires OnKnownStep(i, s) && !r.Abort? ==>
               d.Has(s) && LegalStepMove(d, m, s, i.Step(s).status, StepTarget(i.Step(s), r))
    ensures Lands(d, m, TransitionDrafts(i, s, r, now), j) && Boundary(d, j)
    ensures j.cost == m.cost && j.budgetLimit == m.budgetLimit && j.status == WorkflowTarget(i, s, r)
    ensures j.escalations == m.escalations
    ensures Decided(i, j, s, r)
  {
    var to := WorkflowTarget(i, s, r);
    ResumeRests(d, i, m);
    if OnKnownStep(i, s) && !r.Abort? {
      var frm, st := i.Step(s).status, StepTarget(i.Step(s), r);
      var n := StepMoveLegal(d, m, s, frm, st, now);
      j := MoveLegal(d, n, WfWaiting, to, now);
      Join(d, m, [Draft(StepStatusChanged(s, frm, st), now)], n, [Moved(WfWaiting, to, now)], j);
      MovedBoundary(d, m, n, s, st);
      ResumeRests(d, n, j);
      SameStep(i, m);
      SameStep(n, j);
    } else {
      j := MoveLegal(d, m, WfWaiting, to, now);
      assert TransitionDrafts(i, s, r, now) == [Moved(WfWaiting, to, now)];
      ResumeRests(d, m, j);
      SameStep(i, j);
    }
  }

  lemma MovedBoundary(d: Definition, i: Instance, j: Instance, s: StepId, to: StepStatus)
    requires Boundary(d, i) && OnlyStep(i, j, s) && to != Compensated && j.Step(s) == i.Step(s).(status := to)
             && d.Has(s)
    ensures Boundary(d, j)
  {
    BoundaryAt(d, i, s);
  }

  /** A decision on an escalation the instance has, still open or long resolved, that the step table
      permits: the batch is legal event by event, keeps the between-commit invariant and moves no money. */
  lemma DecisionSound(d: Definition, i: Instance, id: string, s: StepId, c: Decision, now: Time) returns (j: Instance)
    requires Valid(d) && Inv(d, i) && Boundary(d, i) && i.status == WfWaiting && RefOn(i, id, s)
             && Permitted(i, s, c.Choice())
    ensures Lands(d, i, DecisionDrafts(i, id, s, c, now), j) && Boundary(d, j)
    ensures j.cost == i.cost && j.status == WorkflowTarget(i, s, c.Choice())
    ensures j.budgetLimit == if c.Resolved? && c.newBudget.Some? then c.newBudget else i.budgetLimit
    ensures j.escalations == ResolveRefs(i.escalations, id)
    ensures Decided(i, j, s, c.Choice())
  {
    var m;
    m, j := DecisionParts(d, i, id, s, c, now);
    Join(d, i, Opening(id, s, c, now), m, TransitionDrafts(i, s, c.Choice(), now), j);
  }

  /** A decision's two halves: closing the escalation, then moving the step and the instance. */
  lemma DecisionParts(d: Definition, i: Instance, id: string, s: StepId, c: Decision, now: Time)
    returns (m: Instance, j: Instance)
    requires Valid(d) && Inv(d, i) && Boundary(d, i) && i.status == WfWaiting && RefOn(i, id, s)
             && Permitted(i, s, c.Choice())
    ensures Lands(d, i, Opening(id, s, c, now), m) && m.escalations == ResolveRefs(i.escalations, id)
    ensures Lands(d, m, TransitionDrafts(i, s, c.Choice(), now), j) && Boundary(d, j)
    ensures j.cost == i.cost && j.status == WorkflowTarget(i, s, c.Choice()) && j.escalations == m.escalations
    ensures j.budgetLimit == if c.Resolved? && c.newBudget.Some? then c.newBudget else i.budgetLimit
    ensures Decided(i, j, s, c.Choice())
  {
    m := OpeningLegal(d, i, id, s, c, now);
    if OnKnownStep(i, s) && !c.Choice().Abort? {
      InvHas(d, i, s);
      PermittedIsLegal(d, i, m, s, c.Choice());
    }
    j := TransitionLegal(d, i, m, s, c.Choice(), now);
  }

  // --- the operator -------------------------------------------------------------------

  datatype Request = PauseIt | ResumeIt | AbortIt

  function Target(q: Request): WorkflowStatus {
    match q
    case PauseIt => WfPaused
    case ResumeIt => WfRunning
    case AbortIt => WfFailed
  }

  datatype Answer = Refused | AlreadyThere | Write(draft: Draft)

  function Control(i: Instance, q: Request, now: Time): Answer {
    if Terminal(i.status) then Refused
    else if i.status == Target(q) then AlreadyThere
    else if !WorkflowTransitionAllowed(i.status, Target(q)) then Refused
    else Write(Moved(i.status, Target(q), now))
  }

  lemma ControlSound(d: Definition, i: Instance, q: Request, now: Time) returns (j: Instance)
    requires Valid(d) && Inv(d, i) && Boundary(d, i) && Control(i, q, now).Write?
    ensures Lands(d, i, [Control(i, q, now).draft], j) && Boundary(d, j)
    ensures j.status == Target(q) && j.steps == i.steps && j.cost == i.cost && j.budgetLimit == i.budgetLimit
  {
    j := MoveLegal(d, i, i.status, Target(q), now);
    ResumeRests(d, i, j);
  }

  // --- requeue ---------------------------------------------------------------------------

  /** A requeue limited to a failed step of a dead-lettered instance is legal and moves no money. */
  lemma RequeueSound(d: Definition, i: Instance, s: Option<StepId>, now: Time) returns (j: Instance)
    requires Boundary(d, i) && Legal(d, i, WorkflowRequeued(s))
    ensures Lands(d, i, [Draft(WorkflowRequeued(s), now)], j) && Boundary(d, j)
    ensures j.status == WfRunning && j.cost == i.cost && j.budgetLimit == i.budgetLimit
  {
    j := One(d, i, Draft(WorkflowRequeued(s), now));
    forall k | 0 <= k < |d.steps|
      ensures var st := j.Step(d.steps[k].stepId);
              (st.status == Compensated ==> j.status == WfRolledBack) && (st.output.None? ==> st.llmCalls == [])
    {
      BoundaryAt(d, i, d.steps[k].stepId);
    }
  }
}
