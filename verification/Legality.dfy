/** Which event may follow which state, and the invariants every such event keeps.
    An event is legal when the engine had a right to write it at the state the log
    before it folds to; all claims about histories are drawn from this. */
module Legality {
  import opened Domain
  import opened Events
  import opened Fold
  import opened FoldLaws
  import opened Planner

  // --- vocabulary ----------------------------------------------------------

  ghost predicate Escalated(i: Instance, s: StepId) {
    exists k :: 0 <= k < |i.escalations| && i.escalations[k].stepId == s
  }

  predicate OpenRef(i: Instance, id: string, s: StepId) {
    exists k :: 0 <= k < |i.escalations|
                && i.escalations[k].escalationId == id && i.escalations[k].stepId == s && !i.escalations[k].resolved
  }

  /** The instance has an escalation of this id on this step, open or not. */
  predicate RefOn(i: Instance, id: string, s: StepId) {
    exists k :: 0 <= k < |i.escalations| && i.escalations[k].escalationId == id && i.escalations[k].stepId == s
  }

  ghost predicate DependentsPending(d: Definition, i: Instance, s: StepId) {
    forall k :: 0 <= k < |d.steps| && s in d.steps[k].dependencies ==> i.Step(d.steps[k].stepId).status == Pending
  }

  // --- legality ---------------------------------------------------------------

  ghost predicate LegalStart(d: Definition, i: Instance, s: StepId, attempt: nat) {
    && d.Has(s) && i.status == WfRunning
    && (i.Step(s).status == Ready || i.Step(s).status == Failed)
    && DepsDone(i, d.StepOf(s))
    && attempt == i.Step(s).attempts + 1
    && !i.Open(s) && (d.StepOf(s).requiresApproval ==> i.Granted(s))
    && !i.BudgetOut()
    && |i.RunningSteps()| < d.maxConcurrent
    && i.Step(s).output.None? && i.Step(s).llmCalls == []
  }

  ghost predicate LegalStepMove(d: Definition, i: Instance, s: StepId, frm: StepStatus, to: StepStatus) {
    && d.Has(s) && i.Step(s).status == frm
    && match frm
       case Pending => to == Ready && i.status == WfRunning && DepsDone(i, d.StepOf(s))
       case Running => to == Ready
       case Waiting =>
         && i.status == WfWaiting
         && (to == Skipped || to == if i.Step(s).output.Some? then Completed else Ready)
       case Ready => i.status == WfWaiting && (to == Skipped || to == Ready)
       case Failed => i.status == WfWaiting && (to == Skipped || to == Ready)
       case Completed => i.status == WfWaiting && to == Completed
       case Skipped => i.status == WfWaiting && to == Skipped
       case _ => false
  }

  ghost predicate LegalRaise(d: Definition, i: Instance, s: StepId, reason: string) {
    && i.status == WfRunning
    && (s != "" ==>
          && d.Has(s) && !i.Open(s)
          && (i.Step(s).status == Ready || i.Step(s).status == Failed || i.Step(s).status == Completed)
          && (i.Step(s).status == Completed ==> DependentsPending(d, i, s))
          && (d.StepOf(s).requiresApproval && !Escalated(i, s) ==> reason == "explicit_approval"))
  }

  ghost predicate Legal(d: Definition, i: Instance, b: EventBody) {
    match b
    case InstanceStatusChanged(frm, to) =>
      && frm == i.status && WorkflowTransitionAllowed(frm, to)
      && (to == WfCompleted ==> AllSettled(d, i)) && (to == WfWaiting ==> i.RunningSteps() == {})
    case InstanceCompleted(_) => i.status == WfCompleted
    case WorkflowRequeued(s) =>
      && i.status == WfDeadLettered
      && (s.Some? ==> d.Has(s.value) && i.Step(s.value).status == Failed)
    case WorkflowBudgetAdjusted(_) => true
    case StepStatusChanged(s, frm, to) => LegalStepMove(d, i, s, frm, to)
    case StepStarted(s, attempt, _, _) => LegalStart(d, i, s, attempt)
    case StepCompleted(s, attempt, _, _) => d.Has(s) && i.Step(s).status == Running && attempt == i.Step(s).attempts
    case StepFailed(s, attempt, _, _, _) => d.Has(s) && i.Step(s).status == Running && attempt == i.Step(s).attempts
    case StepRetryScheduled(s, next, _) =>
      && d.Has(s) && i.Step(s).status == Failed && i.Step(s).nextRetryAt.None?
      && next == i.Step(s).attempts + 1 && 1 <= i.Step(s).attempts <= d.StepOf(s).retry.maxRetries
    case StepCompensated(s, _) => d.Has(s) && i.Step(s).status == Completed && i.status == WfRunning
    case LLMCallRecorded(s, attempt, _) => d.Has(s) && i.Step(s).status == Running && attempt == i.Step(s).attempts
    case CostCharged(s, _, _, _) => s.Some? && d.Has(s.value) && i.Step(s.value).status == Running
    case SideEffectIntentRecorded(_, _, _) => true
    case SideEffectExecuted(_, _) => true
    case SideEffectCompensated(_, _) => true
    case EscalationRaised(_, s, reason, _, _) => LegalRaise(d, i, s, reason)
    case EscalationResolved(id, s, _, _) => i.status == WfWaiting && RefOn(i, id, s)
    case EscalationTimedOut(id, s, _) => i.status == WfWaiting && RefOn(i, id, s)
    case BudgetExceeded(_, _, _) => true
    case _ => false
  }

  // --- invariants -------------------------------------------------------------

  ghost predicate StepInv(d: Definition, i: Instance, w: WorkflowStep) {
    var st := i.Step(w.stepId);
    && (st.status != Pending ==>
          forall k :: 0 <= k < |w.dependencies| ==> Settled(i.Step(w.dependencies[k]).status))
    && (st.output.Some? ==> st.status == Waiting || Settled(st.status))
    && (st.status == Completed || st.status == Compensated ==> st.output.Some?)
    && (i.Open(w.stepId) ==> st.status != Pending && st.status != Running && st.status != Failed)
    && (Escalated(i, w.stepId) ==> st.status != Pending)
    && (w.requiresApproval && (st.output.Some? || st.status == Running || st.status == Failed) ==> i.Granted(w.stepId))
    && (st.status == Running || st.status == Failed ==> st.attempts >= 1)
    && (st.status == Running ==> st.nextRetryAt.None?)
    && (st.status == Failed && st.nextRetryAt.Some? ==> st.attempts <= w.retry.maxRetries)
  }

  ghost predicate OneOpenEach(i: Instance) {
    forall j, k :: 0 <= j < k < |i.escalations| && i.escalations[j].stepId == i.escalations[k].stepId != "" ==>
                     i.escalations[j].resolved || i.escalations[k].resolved
  }

  ghost predicate Inv(d: Definition, i: Instance) {
    && i.steps.Keys == d.Ids()
    && (forall k :: 0 <= k < |d.steps| ==> StepInv(d, i, d.steps[k]))
    && OneOpenEach(i)
    && (i.status == WfCompleted ==> AllSettled(d, i))
    && |i.RunningSteps()| <= d.maxConcurrent
    && (i.status == WfWaiting ==> i.RunningSteps() == {})
  }

  // --- legal events are accepted ------------------------------------------------

  lemma LegalAccepted(d: Definition, i: Instance, b: EventBody, at: Time)
    requires Legal(d, i, b)
    ensures Handle(Some(d), i, b, at).Ok?
  {
  }

  // --- legal events keep the invariants --------------------------------------------

  /** The shape of an accepted legal event: one step replaced, the rest of the map untouched. */
  lemma LegalShape(d: Definition, i: Instance, b: EventBody, at: Time)
    requires Legal(d, i, b)
    ensures Handle(Some(d), i, b, at).Ok?
    ensures var j := Handle(Some(d), i, b, at).value;
            if Touched(b).None? then j.steps == i.steps
            else j.steps == i.steps[Touched(b).value := j.Step(Touched(b).value)]
                 && OnStep(i.Step(Touched(b).value), b, at) == Ok(j.Step(Touched(b).value))
                 && d.Has(Touched(b).value)
  {
    LegalAccepted(d, i, b, at);
    OnInstanceLocal(i, b, at, i.steps);
  }

  /** Escalations only gain references and only turn resolved. */
  lemma EscalationsGrow(d: Definition, i: Instance, b: EventBody, at: Time)
    requires Legal(d, i, b) && Handle(Some(d), i, b, at).Ok?
    ensures var j := Handle(Some(d), i, b, at).value;
            && (forall s :: i.Granted(s) ==> j.Granted(s))
            && (forall s :: j.Open(s) ==> i.Open(s) || (b.EscalationRaised? && b.stepId == s))
            && (forall s :: Escalated(j, s) ==> Escalated(i, s) || (b.EscalationRaised? && b.stepId == s))
  {
    var j := Handle(Some(d), i, b, at).value;
    SameEscalations(d, i, b, at);
    forall s | i.Granted(s) ensures j.Granted(s) {
      var k :| 0 <= k < |i.escalations| && i.escalations[k].stepId == s && i.escalations[k].resolved;
      assert j.escalations[k].stepId == s && j.escalations[k].resolved;
    }
    forall s | j.Open(s) ensures i.Open(s) || (b.EscalationRaised? && b.stepId == s) {
      var k :| 0 <= k < |j.escalations| && j.escalations[k].stepId == s && !j.escalations[k].resolved;
      if k < |i.escalations| { assert i.escalations[k].stepId == s && !i.escalations[k].resolved; }
    }
    forall s | Escalated(j, s) ensures Escalated(i, s) || (b.EscalationRaised? && b.stepId == s) {
      var k :| 0 <= k < |j.escalations| && j.escalations[k].stepId == s;
      if k < |i.escalations| { assert i.escalations[k].stepId == s; }
    }
  }

  function EscalationsAfter(i: Instance, b: EventBody): seq<EscalationRef> {
    match b
    case EscalationRaised(id, s, reason, deadline, _) => i.escalations + [EscalationRef(id, s, reason, deadline, false)]
    case EscalationResolved(id, _, _, _) => ResolveRefs(i.escalations, id)
    case EscalationTimedOut(id, _, _) => ResolveRefs(i.escalations, id)
    case _ => i.escalations
  }

  lemma SameEscalations(d: Definition, i: Instance, b: EventBody, at: Time)
    requires Handle(Some(d), i, b, at).Ok?
    ensures Handle(Some(d), i, b, at).value.escalations == EscalationsAfter(i, b)
  {
  }

  /** Only raising an escalation on a completed step takes a step out of the settled states. */
  lemma SettledKept(d: Definition, i: Instance, b: EventBody, at: Time, t: StepId)
    requires Legal(d, i, b) && Settled(i.Step(t).status)
    requires !(b.EscalationRaised? && b.stepId == t != "")
    ensures Handle(Some(d), i, b, at).Ok? && Settled(Handle(Some(d), i, b, at).value.Step(t).status)
  {
    LegalShape(d, i, b, at);
  }

  ghost predicate DepsSettled(i: Instance, w: WorkflowStep) {
    forall k :: 0 <= k < |w.dependencies| ==> Settled(i.Step(w.dependencies[k]).status)
  }

  lemma LeavesPending(d: Definition, i: Instance, b: EventBody, at: Time, k: nat)
    requires Valid(d) && k < |d.steps| && Legal(d, i, b) && Handle(Some(d), i, b, at).Ok?
    requires i.Step(d.steps[k].stepId).status == Pending
    requires Handle(Some(d), i, b, at).value.Step(d.steps[k].stepId).status != Pending
    ensures DepsSettled(i, d.steps[k]) && !b.EscalationRaised?
  {
    LegalShape(d, i, b, at);
    StepOfAt(d, k);
  }

  /** A step that has left PENDING keeps settled dependencies. */
  lemma DepsSettledKept(d: Definition, i: Instance, b: EventBody, at: Time, k: nat)
    requires Valid(d) && k < |d.steps| && Legal(d, i, b) && Handle(Some(d), i, b, at).Ok?
    requires i.Step(d.steps[k].stepId).status != Pending ==> DepsSettled(i, d.steps[k])
    requires Handle(Some(d), i, b, at).value.Step(d.steps[k].stepId).status != Pending
    ensures DepsSettled(Handle(Some(d), i, b, at).value, d.steps[k])
  {
    var w := d.steps[k];
    if i.Step(w.stepId).status == Pending { LeavesPending(d, i, b, at, k); }
    forall n | 0 <= n < |w.dependencies|
      ensures Settled(Handle(Some(d), i, b, at).value.Step(w.dependencies[n]).status)
    {
      var t := w.dependencies[n];
      assert Settled(i.Step(t).status);
      SettledKept(d, i, b, at, t);
    }
  }

  /** The step an event names. */
  lemma TouchedStepKept(d: Definition, i: Instance, b: EventBody, at: Time, k: nat)
    requires Valid(d) && k < |d.steps| && StepInv(d, i, d.steps[k]) && Legal(d, i, b)
    requires Touched(b) == Some(d.steps[k].stepId)
    ensures Handle(Some(d), i, b, at).Ok? && StepInv(d, Handle(Some(d), i, b, at).value, d.steps[k])
  {
    var w := d.steps[k];
    LegalShape(d, i, b, at);
    EscalationsGrow(d, i, b, at);
    StepOfAt(d, k);
    var j := Handle(Some(d), i, b, at).value;
    if j.Step(w.stepId).status != Pending { DepsSettledKept(d, i, b, at, k); }
  }

  /** Every other step. */
  lemma OtherStepKept(d: Definition, i: Instance, b: EventBody, at: Time, k: nat)
    requires Valid(d) && k < |d.steps| && StepInv(d, i, d.steps[k]) && Legal(d, i, b)
    requires Touched(b) != Some(d.steps[k].stepId)
    ensures Handle(Some(d), i, b, at).Ok? && StepInv(d, Handle(Some(d), i, b, at).value, d.steps[k])
  {
    var w := d.steps[k];
    LegalShape(d, i, b, at);
    EscalationsGrow(d, i, b, at);
    var j := Handle(Some(d), i, b, at).value;
    assert j.Step(w.stepId) == i.Step(w.stepId);
    if j.Step(w.stepId).status != Pending { DepsSettledKept(d, i, b, at, k); }
    assert w.stepId in d.Ids();
  }

  lemma OneOpenKept(d: Definition, i: Instance, b: EventBody, at: Time)
    requires OneOpenEach(i) && Legal(d, i, b) && Handle(Some(d), i, b, at).Ok?
    ensures OneOpenEach(Handle(Some(d), i, b, at).value)
  {
    SameEscalations(d, i, b, at);
    var j := Handle(Some(d), i, b, at).value;
    forall m, n | 0 <= m < n < |j.escalations| && j.escalations[m].stepId == j.escalations[n].stepId != ""
      ensures j.escalations[m].resolved || j.escalations[n].resolved
    {
      if n < |i.escalations| {
        assert i.escalations[m].stepId == i.escalations[n].stepId;
      }
    }
  }

  lemma StatusAfter(d: Definition, i: Instance, b: EventBody, at: Time)
    requires Legal(d, i, b) && Handle(Some(d), i, b, at).Ok?
    ensures var j := Handle(Some(d), i, b, at).value;
            j.status == if b.InstanceStatusChanged? then b.wfTo else if b.WorkflowRequeued? then WfRunning else i.status
  {
  }

  /** A step event is never legal on a completed instance, so a completed instance stays settled. */
  lemma CompletedStaysSettled(d: Definition, i: Instance, b: EventBody, at: Time)
    requires Valid(d) && Legal(d, i, b) && Handle(Some(d), i, b, at).Ok?
    requires i.status == WfCompleted ==> AllSettled(d, i)
    ensures var j := Handle(Some(d), i, b, at).value; j.status == WfCompleted ==> AllSettled(d, j)
  {
    var j := Handle(Some(d), i, b, at).value;
    StatusAfter(d, i, b, at);
    LegalShape(d, i, b, at);
    if j.status == WfCompleted {
      assert AllSettled(d, i);
      forall k | 0 <= k < |d.steps| ensures Settled(j.Step(d.steps[k].stepId).status) {
        SettledKept(d, i, b, at, d.steps[k].stepId);
      }
    }
  }

  lemma RunningBounded(d: Definition, i: Instance, b: EventBody, at: Time)
    requires Legal(d, i, b) && Handle(Some(d), i, b, at).Ok?
    requires |i.RunningSteps()| <= d.maxConcurrent
    ensures var j := Handle(Some(d), i, b, at).value;
            && |j.RunningSteps()| <= d.maxConcurrent
            && (!b.StepStarted? ==> j.RunningSteps() <= i.RunningSteps())
            && (b.StepStarted? ==> j.RunningSteps() == i.RunningSteps() + {b.stepId})
  {
    var j := Handle(Some(d), i, b, at).value;
    RunningAfter(d, i, b, at);
    if !b.StepStarted? { Shrinks(j.RunningSteps(), i.RunningSteps()); }
  }

  lemma RunningAfter(d: Definition, i: Instance, b: EventBody, at: Time)
    requires Legal(d, i, b) && Handle(Some(d), i, b, at).Ok?
    ensures var j := Handle(Some(d), i, b, at).value;
            && (!b.StepStarted? ==> j.RunningSteps() <= i.RunningSteps())
            && (b.StepStarted? ==> j.RunningSteps() == i.RunningSteps() + {b.stepId})
  {
    LegalShape(d, i, b, at);
    if Touched(b).Some? {
      RunningOnStep(i.Step(Touched(b).value), b, at);
      RunningUpdate(i, Handle(Some(d), i, b, at).value, Touched(b).value, b.StepStarted?);
    }
  }

  lemma RunningUpdate(i: Instance, j: Instance, s: StepId, started: bool)
    requires j.steps == i.steps[s := j.Step(s)]
    requires if started then j.Step(s).status == Running
             else j.Step(s).status == Running ==> i.Step(s).status == Running
    ensures if started then j.RunningSteps() == i.RunningSteps() + {s} else j.RunningSteps() <= i.RunningSteps()
  {
  }

  /** Only a start makes a step RUNNING. */
  lemma RunningOnStep(st: StepState, b: EventBody, at: Time)
    requires OnStep(st, b, at).Ok? && (b.StepStatusChanged? ==> b.stTo != Running)
    ensures b.StepStarted? ==> OnStep(st, b, at).value.status == Running
    ensures !b.StepStarted? && OnStep(st, b, at).value.status == Running ==> st.status == Running
  {
  }

  lemma Shrinks(a: set<StepId>, b: set<StepId>)
    requires a <= b
    ensures |a| <= |b|
  {
    assert b == a + (b - a);
  }

  lemma HasInIds(d: Definition, s: StepId)
    ensures d.Has(s) <==> s in d.Ids()
  {
  }

  /** A legal event is accepted by the fold and keeps every invariant. */
  lemma LegalKeepsInv(d: Definition, i: Instance, x: Draft)
    requires Valid(d) && Inv(d, i) && Legal(d, i, x.body)
    ensures Advance(Some(d), i, x).Ok? && Inv(d, Advance(Some(d), i, x).value)
  {
    LegalAccepted(d, i, x.body, x.at);
    StepsKept(d, i, x.body, x.at);
    KeysKept(d, i, x.body, x.at);
    OneOpenKept(d, i, x.body, x.at);
    CompletedStaysSettled(d, i, x.body, x.at);
    RunningBounded(d, i, x.body, x.at);
    WaitingRests(d, i, x.body, x.at);
    Restamp(d, Handle(Some(d), i, x.body, x.at).value, Advance(Some(d), i, x).value);
  }

  /** Nothing runs while an instance waits for a human. */
  lemma WaitingRests(d: Definition, i: Instance, b: EventBody, at: Time)
    requires Legal(d, i, b) && Handle(Some(d), i, b, at).Ok? && (i.status == WfWaiting ==> i.RunningSteps() == {})
    ensures var j := Handle(Some(d), i, b, at).value; j.status == WfWaiting ==> j.RunningSteps() == {}
  {
    StatusAfter(d, i, b, at);
    RunningAfter(d, i, b, at);
  }

  lemma StepsKept(d: Definition, i: Instance, b: EventBody, at: Time)
    requires Valid(d) && Inv(d, i) && Legal(d, i, b) && Handle(Some(d), i, b, at).Ok?
    ensures forall k :: 0 <= k < |d.steps| ==> StepInv(d, Handle(Some(d), i, b, at).value, d.steps[k])
  {
    forall k | 0 <= k < |d.steps| ensures StepInv(d, Handle(Some(d), i, b, at).value, d.steps[k]) {
      if Touched(b) == Some(d.steps[k].stepId) {
        TouchedStepKept(d, i, b, at, k);
      } else {
        OtherStepKept(d, i, b, at, k);
      }
    }
  }

  lemma KeysKept(d: Definition, i: Instance, b: EventBody, at: Time)
    requires i.steps.Keys == d.Ids() && Legal(d, i, b) && Handle(Some(d), i, b, at).Ok?
    ensures Handle(Some(d), i, b, at).value.steps.Keys == d.Ids()
  {
    LegalShape(d, i, b, at);
    if Touched(b).Some? { HasInIds(d, Touched(b).value); }
  }

  /** The version and timestamps play no part in the invariants. */
  lemma Restamp(d: Definition, i: Instance, j: Instance)
    requires j == i.(updatedAt := j.updatedAt, version := j.version) && Inv(d, i)
    ensures Inv(d, j)
  {
    assert i.RunningSteps() == j.RunningSteps();
    forall s ensures i.Open(s) == j.Open(s) && i.Granted(s) == j.Granted(s) && i.Step(s) == j.Step(s) {
    }
    forall k | 0 <= k < |d.steps| ensures StepInv(d, j, d.steps[k]) {
      assert StepInv(d, i, d.steps[k]);
    }
  }

  // --- runs of legal events --------------------------------------------------------

  ghost predicate AllLegal(d: Definition, i: Instance, ds: seq<Draft>)
    decreases |ds|
  {
    ds == []
    || (&& Legal(d, i, ds[0].body) && Advance(Some(d), i, ds[0]).Ok?
        && AllLegal(d, Advance(Some(d), i, ds[0]).value, ds[1..]))
  }

  lemma {:induction false} AllLegalKeepsInv(d: Definition, i: Instance, ds: seq<Draft>)
    requires Valid(d) && Inv(d, i) && AllLegal(d, i, ds)
    ensures Replay(Some(d), i, ds).Ok? && Inv(d, Replay(Some(d), i, ds).value)
    decreases |ds|
  {
    if ds != [] {
      LegalKeepsInv(d, i, ds[0]);
      AllLegalKeepsInv(d, Advance(Some(d), i, ds[0]).value, ds[1..]);
    }
  }

  lemma {:induction false} AllLegalConcat(d: Definition, i: Instance, a: seq<Draft>, b: seq<Draft>)
    requires AllLegal(d, i, a)
    ensures Replay(Some(d), i, a).Ok?
    ensures AllLegal(d, i, a + b) <==> AllLegal(d, Replay(Some(d), i, a).value, b)
    decreases |a|
  {
    if a == [] {
      assert a + b == b;
    } else {
      assert (a + b)[1..] == a[1..] + b;
      AllLegalConcat(d, Advance(Some(d), i, a[0]).value, a[1..], b);
    }
  }

  /** Every event of a legal run is legal at the state the events before it replay to. */
  lemma {:induction false} AllLegalAt(d: Definition, i: Instance, ds: seq<Draft>, k: nat)
    requires AllLegal(d, i, ds) && k < |ds|
    ensures Replay(Some(d), i, ds[..k]).Ok? && Legal(d, Replay(Some(d), i, ds[..k]).value, ds[k].body)
    decreases |ds|
  {
    if k > 0 {
      AllLegalAt(d, Advance(Some(d), i, ds[0]).value, ds[1..], k - 1);
      assert ds[..k][1..] == ds[1..][..k - 1];
    }
  }

  lemma AllLegalOne(d: Definition, i: Instance, x: Draft)
    requires Legal(d, i, x.body)
    ensures AllLegal(d, i, [x]) && Replay(Some(d), i, [x]) == Advance(Some(d), i, x)
  {
    LegalAccepted(d, i, x.body, x.at);
    ReplayOne(Some(d), i, x);
  }

  // --- between commits --------------------------------------------------------

  /** Holds between commits though not inside every batch: a compensated step belongs to a rolled
      back instance, and a step that has not finished has no recorded model calls. */
  ghost predicate Boundary(d: Definition, i: Instance) {
    forall k :: 0 <= k < |d.steps| ==>
                  var st := i.Step(d.steps[k].stepId);
                  && (st.status == Compensated ==> i.status == WfRolledBack)
                  && (st.output.None? ==> st.llmCalls == [])
  }
}
