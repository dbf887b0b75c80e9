/** What each answer to an escalation and each operator request does, spelled out. */
module Answers {
  import opened Domain
  import opened Events
  import opened Fold
  import opened FoldLaws
  import opened Planner
  import opened Driver
  import opened Legality
  import opened Batches
  import opened Phases
  import opened Operators
  import opened Fields

  // --- the three kinds of answer ---------------------------------------------------------------

  /** Approved or modified by a human, or approved by default. */
  predicate Approves(c: Decision) {
    (c.Resolved? && (c.resolution == Approve || c.resolution == Modify)) || (c.TimedOut? && c.autoAction == "approve")
  }

  predicate Skips(c: Decision) {
    (c.Resolved? && c.resolution == Skip) || (c.TimedOut? && c.autoAction == "skip")
  }

  /** Aborted by a human, or timed out with any other action. */
  predicate Aborts(c: Decision) {
    !Approves(c) && !Skips(c)
  }

  predicate KnownStep(i: Instance, s: StepId) {
    s != "" && s in i.steps
  }

  lemma ChoiceIs(c: Decision)
    ensures Approves(c) <==> c.Choice() == Approve || c.Choice() == Modify
    ensures (Skips(c) <==> c.Choice() == Skip) && (Aborts(c) <==> c.Choice() == Abort)
  {
  }

  // --- when an answer is taken -----------------------------------------------------------------

  /** A finished step cannot be skipped any more, and a skipped one cannot be approved. */
  predicate TooLate(i: Instance, s: StepId, c: Decision) {
    KnownStep(i, s) && ((Skips(c) && i.Step(s).status == Completed) || (Approves(c) && i.Step(s).status == Skipped))
  }

  /** An escalated step of a waiting instance. */
  predicate Answerable(st: StepState) {
    match st.status
    case Ready => st.output.None?
    case Failed => st.output.None?
    case Completed => st.output.Some?
    case Waiting => true
    case Skipped => true
    case _ => false
  }

  lemma EscalatedIsAnswerable(d: Definition, i: Instance, s: StepId)
    requires Valid(d) && Inv(d, i) && Boundary(d, i) && i.status == WfWaiting && Escalated(i, s) && KnownStep(i, s)
    ensures Answerable(i.Step(s))
  {
    InvHas(d, i, s);
    var k := InvAt(d, i, s);
    BoundaryAt(d, i, s);
    RunningMeans(i);
  }

  lemma PermittedUnlessLate(i: Instance, s: StepId, c: Decision)
    requires KnownStep(i, s) ==> Answerable(i.Step(s))
    ensures Permitted(i, s, c.Choice()) <==> !TooLate(i, s, c)
  {
    ChoiceIs(c);
  }

  /** On a waiting instance an answer to an escalation it has or had is taken unless it comes too late. */
  lemma AnswerTakenIff(d: Definition, i: Instance, id: string, s: StepId, c: Decision, now: Time)
    requires Valid(d) && Inv(d, i) && Boundary(d, i) && i.status == WfWaiting && RefOn(i, id, s)
    ensures Replay(None, i, DecisionDrafts(i, id, s, c, now)).Ok? <==> !TooLate(i, s, c)
    ensures Permitted(i, s, c.Choice()) <==> !TooLate(i, s, c)
  {
    if KnownStep(i, s) { EscalatedIsAnswerable(d, i, s); }
    PermittedUnlessLate(i, s, c);
    DecisionAcceptedIff(i, id, s, c, now);
  }

  // --- what it does ----------------------------------------------------------------------------------

  /** The step's new status; every other step is as it was. */
  ghost predicate StepsAnswered(i: Instance, j: Instance, s: StepId, c: Decision) {
    && (forall t :: t != s || !KnownStep(i, s) || Aborts(c) ==> j.Step(t) == i.Step(t))
    && (KnownStep(i, s) && Approves(c) && i.Step(s).output.Some? ==> j.Step(s) == i.Step(s).(status := Completed))
    && (KnownStep(i, s) && Approves(c) && i.Step(s).output.None? ==> j.Step(s) == i.Step(s).(status := Ready))
    && (KnownStep(i, s) && Skips(c) ==> j.Step(s) == i.Step(s).(status := Skipped))
  }

  /** An answer about a step resumes the instance, one about the workflow ends its rollback, an abort fails it. */
  predicate WorkflowAnswered(i: Instance, j: Instance, s: StepId, c: Decision) {
    if Aborts(c) then j.status == WfFailed
    else if KnownStep(i, s) then j.status == WfRunning
    else j.status == WfRolledBack
  }

  /** The escalation is closed, and no other one. */
  ghost predicate RefsAnswered(i: Instance, j: Instance, id: string) {
    && |j.escalations| == |i.escalations|
    && forall k :: 0 <= k < |i.escalations| ==>
         j.escalations[k]
         == if i.escalations[k].escalationId == id then i.escalations[k].(resolved := true) else i.escalations[k]
  }

  /** A human's modification overrides the context key by key; a new limit replaces the old one. */
  ghost predicate DataAnswered(i: Instance, j: Instance, c: Decision) {
    && (forall key :: Look(j.context, key)
                      == if c.Resolved? && key in c.modified then Some(c.modified[key]) else Look(i.context, key))
    && j.budgetLimit == if c.Resolved? && c.newBudget.Some? then c.newBudget else i.budgetLimit
  }

  lemma DecidedAnswers(i: Instance, j: Instance, s: StepId, c: Decision)
    requires Decided(i, j, s, c.Choice())
    ensures StepsAnswered(i, j, s, c)
  {
    ChoiceIs(c);
    assert OnKnownStep(i, s) == KnownStep(i, s);
  }

  lemma DecisionWrites(i: Instance, id: string, s: StepId, c: Decision, now: Time, key: string)
    ensures var ds := DecisionDrafts(i, id, s, c, now);
            && ds != []
            && Written(Context(key), ds[0]) == (if c.Resolved? && key in c.modified
                                                then Some(OfJson(Some(c.modified[key]))) else None)
            && forall k :: 1 <= k < |ds| ==> Written(Context(key), ds[k]).None?
  {
    var ds := DecisionDrafts(i, id, s, c, now);
    assert ds[0] == Opening(id, s, c, now)[0];
    forall k | 1 <= k < |ds| ensures Written(Context(key), ds[k]).None? {
      if k < |Opening(id, s, c, now)| {
        assert ds[k] == Opening(id, s, c, now)[k];
      } else {
        assert ds[k] == TransitionDrafts(i, s, c.Choice(), now)[k - |Opening(id, s, c, now)|];
      }
    }
  }

  lemma ContextAnswered(d: Definition, i: Instance, id: string, s: StepId, c: Decision, now: Time, j: Instance,
                        key: string)
    requires Replay(Some(d), i, DecisionDrafts(i, id, s, c, now)) == Ok(j)
    ensures Look(j.context, key)
            == if c.Resolved? && key in c.modified then Some(c.modified[key]) else Look(i.context, key)
  {
    var ds := DecisionDrafts(i, id, s, c, now);
    DecisionWrites(i, id, s, c, now, key);
    LastWriterWins(Context(key), Some(d), i, ds, j);
    FirstIsLast(Context(key), ds, Read(Context(key), i), Read(Context(key), j));
  }

  lemma FirstIsLast(f: Field, ds: seq<Draft>, was: Value, now: Value)
    requires ds != [] && LastWrote(f, ds, was, now) && forall k :: 1 <= k < |ds| ==> Written(f, ds[k]).None?
    ensures now == if Written(f, ds[0]).Some? then Written(f, ds[0]).value else was
  {
  }

  /** What an answer that is taken does to the instance: to its steps, its status, its escalations, its
      context and its limit. */
  lemma AnswerMeans(d: Definition, i: Instance, id: string, s: StepId, c: Decision, now: Time) returns (j: Instance)
    requires Valid(d) && Inv(d, i) && Boundary(d, i) && i.status == WfWaiting && RefOn(i, id, s) && !TooLate(i, s, c)
    ensures Lands(d, i, DecisionDrafts(i, id, s, c, now), j) && Inv(d, j) && Boundary(d, j)
    ensures StepsAnswered(i, j, s, c) && WorkflowAnswered(i, j, s, c) && RefsAnswered(i, j, id) && DataAnswered(i, j, c)
  {
    AnswerTakenIff(d, i, id, s, c, now);
    j := DecisionSound(d, i, id, s, c, now);
    AllLegalKeepsInv(d, i, DecisionDrafts(i, id, s, c, now));
    DecidedAnswers(i, j, s, c);
    ChoiceIs(c);
    forall key ensures Look(j.context, key)
                       == if c.Resolved? && key in c.modified then Some(c.modified[key]) else Look(i.context, key) {
      ContextAnswered(d, i, id, s, c, now, j, key);
    }
  }

  /** The log shows who decided what: a human's answer by its name, a deadline's by the action taken. */
  lemma AnswerIsOnRecord(i: Instance, id: string, s: StepId, c: Decision, now: Time)
    ensures DecisionDrafts(i, id, s, c, now) != []
    ensures var b := DecisionDrafts(i, id, s, c, now)[0].body;
            match c
            case Resolved(Approve, modified, _) => b == EscalationResolved(id, s, "approve", modified)
            case Resolved(Modify, modified, _) => b == EscalationResolved(id, s, "modify", modified)
            case Resolved(Skip, modified, _) => b == EscalationResolved(id, s, "skip", modified)
            case Resolved(Abort, modified, _) => b == EscalationResolved(id, s, "abort", modified)
            case TimedOut(name) =>
              b == EscalationTimedOut(id, s, if name == "approve" || name == "skip" then name else "abort")
  {
    assert DecisionDrafts(i, id, s, c, now)[0] == Opening(id, s, c, now)[0];
  }

  // --- what follows -------------------------------------------------------------------------------------

  /** Approving or modifying a step that waits before its first run puts it in reach of the planner at once:
      it is a candidate nothing holds back. */
  lemma ApprovedMayRun(d: Definition, i: Instance, id: string, k: nat, c: Decision, now: Time, later: Time)
    returns (j: Instance)
    requires Valid(d) && Inv(d, i) && Boundary(d, i) && i.status == WfWaiting && k < |d.steps|
    requires OpenRef(i, id, d.steps[k].stepId) && Approves(c)
    requires i.Step(d.steps[k].stepId).status == Waiting && i.Step(d.steps[k].stepId).output.None?
    requires DepsDone(i, d.steps[k])
    ensures Lands(d, i, DecisionDrafts(i, id, d.steps[k].stepId, c, now), j) && j.status == WfRunning
    ensures Wanted(d, j, later, k) && j.Granted(d.steps[k].stepId)
  {
    var s := d.steps[k].stepId;
    assert RefOn(i, id, s);
    InvHas(d, i, s);
    NotEmptyId(d, s);
    j := AnswerMeans(d, i, id, s, c, now);
    AnsweredIsWanted(d, i, id, k, c, j, later);
  }

  lemma AnsweredIsWanted(d: Definition, i: Instance, id: string, k: nat, c: Decision, j: Instance, later: Time)
    requires k < |d.steps| && KnownStep(i, d.steps[k].stepId) && OneOpenEach(i) && OpenRef(i, id, d.steps[k].stepId)
    requires i.Step(d.steps[k].stepId).status == Waiting && i.Step(d.steps[k].stepId).output.None?
    requires DepsDone(i, d.steps[k]) && Approves(c)
    requires StepsAnswered(i, j, d.steps[k].stepId, c) && RefsAnswered(i, j, id)
    ensures Wanted(d, j, later, k) && j.Granted(d.steps[k].stepId)
  {
    var s := d.steps[k].stepId;
    ResolvedIsGranted(i, id, s, j);
    DepsStayDone(i, j, d.steps[k], s);
    ReadyIsWanted(d, j, later, k);
  }

  lemma ReadyIsWanted(d: Definition, j: Instance, later: Time, k: nat)
    requires k < |d.steps| && j.Step(d.steps[k].stepId).status == Ready
    requires DepsDone(j, d.steps[k]) && !j.Open(d.steps[k].stepId)
    ensures Wanted(d, j, later, k)
  {
  }

  lemma DepsStayDone(i: Instance, j: Instance, w: WorkflowStep, s: StepId)
    requires DepsDone(i, w) && !Done(i.Step(s).status) && forall t :: t != s ==> j.Step(t) == i.Step(t)
    ensures DepsDone(j, w)
  {
    forall n | 0 <= n < |w.dependencies| ensures Done(j.Step(w.dependencies[n]).status) {
      assert Done(i.Step(w.dependencies[n]).status);
    }
  }

  /** Closing the step's one open escalation leaves it with none open and one granted. */
  lemma ResolvedIsGranted(i: Instance, id: string, s: StepId, j: Instance)
    requires OneOpenEach(i) && OpenRef(i, id, s) && s != "" && RefsAnswered(i, j, id)
    ensures !j.Open(s) && j.Granted(s)
  {
    var k :| 0 <= k < |i.escalations|
             && i.escalations[k].escalationId == id && i.escalations[k].stepId == s && !i.escalations[k].resolved;
    assert j.escalations[k].stepId == s && j.escalations[k].resolved;
    forall n | 0 <= n < |j.escalations| && j.escalations[n].stepId == s ensures j.escalations[n].resolved {
      assert i.escalations[n].stepId == s;
    }
  }

  lemma SkippedStays(d: Definition, i: Instance, x: Draft, s: StepId)
    requires Legal(d, i, x.body) && i.Step(s).status == Skipped
    ensures Advance(Some(d), i, x).Ok? && Advance(Some(d), i, x).value.Step(s).status == Skipped
  {
    LegalShape(d, i, x.body, x.at);
  }

  /** A skipped step stays skipped whatever the engine, humans and operators do: it is never a candidate. */
  lemma {:induction false} SkippedForGood(d: Definition, i: Instance, ds: seq<Draft>, j: Instance, k: nat, now: Time)
    requires k < |d.steps| && Lands(d, i, ds, j) && i.Step(d.steps[k].stepId).status == Skipped
    ensures j.Step(d.steps[k].stepId).status == Skipped && !Candidate(j, d.steps[k], now)
    decreases |ds|
  {
    if ds != [] {
      SkippedStays(d, i, ds[0], d.steps[k].stepId);
      SkippedForGood(d, Advance(Some(d), i, ds[0]).value, ds[1..], j, k, now);
    }
  }

  // --- the operator ----------------------------------------------------------------------------------------

  /** Pause is open to a pending or running instance; resume to one that is pending, parked, paused, waiting,
      failed or dead-lettered; abort to any that is neither failed, dead-lettered nor finished. */
  predicate MayRequest(s: WorkflowStatus, q: Request) {
    match q
    case PauseIt => s == WfPending || s == WfRunning
    case ResumeIt =>
      || s == WfPending || s == WfRetrying || s == WfPaused || s == WfWaiting || s == WfFailed || s == WfDeadLettered
    case AbortIt => s == WfPending || s == WfRunning || s == WfRetrying || s == WfPaused || s == WfWaiting
  }

  /** A request writes exactly when it is open to the instance, and is unneeded exactly when already met. Once
      written the instance is paused, running or failed, and nothing else about it has changed. */
  lemma RequestMeans(d: Definition, i: Instance, q: Request, now: Time)
    ensures Control(i, q, now).Write? <==> MayRequest(i.status, q)
    ensures Control(i, q, now).AlreadyThere?
            <==> (q == PauseIt && i.status == WfPaused) || (q == ResumeIt && i.status == WfRunning)
                 || (q == AbortIt && i.status == WfFailed)
    ensures MayRequest(i.status, q) ==>
              var to := match q case PauseIt => WfPaused case ResumeIt => WfRunning case AbortIt => WfFailed;
              && Control(i, q, now).draft == Draft(InstanceStatusChanged(i.status, to), now)
              && Advance(Some(d), i, Control(i, q, now).draft)
                 == Ok(i.(status := to, updatedAt := Some(now), version := i.version + 1))
  {
  }
}
