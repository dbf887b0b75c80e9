/** What the driver's closing moves leave behind: rollback, failure policy, approvals, reviews, completion. */
module Policies {
  import opened Domain
  import opened Events
  import opened Fold
  import opened FoldLaws
  import opened Planner
  import opened Driver
  import opened Legality
  import opened Batches
  import opened Phases
  import opened Fields
  import opened Waves

  // --- compensation ------------------------------------------------------------------------------------

  /** The step finished and has a compensation to run. */
  predicate Undoable(i: Instance, w: WorkflowStep) {
    i.Step(w.stepId).status == Completed && w.compensationAction.Some? && w.compensationAction.value != ""
  }

  function StepIds(ws: seq<WorkflowStep>): set<StepId> {
    set k | 0 <= k < |ws| :: ws[k].stepId
  }

  ghost predicate DistinctSteps(ws: seq<WorkflowStep>) {
    forall a, b :: 0 <= a < b < |ws| ==> ws[a].stepId != ws[b].stepId
  }

  function UndoneStep(i: Instance, w: WorkflowStep, at: Time): seq<Draft> {
    if Undoable(i, w) then [Draft(StepCompensated(w.stepId, w.compensationAction.value), at)] else []
  }

  lemma CompensateSnoc(i: Instance, ws: seq<WorkflowStep>, at: Time)
    requires ws != []
    ensures CompensateDrafts(i, ws, at)
            == UndoneStep(i, ws[|ws| - 1], at) + CompensateDrafts(i, ws[..|ws| - 1], at)
  {
  }

  lemma {:induction false} CompensationsName(i: Instance, ws: seq<WorkflowStep>, at: Time)
    ensures AllName(CompensateDrafts(i, ws, at), StepIds(ws))
    decreases |ws|
  {
    if ws != [] {
      CompensateSnoc(i, ws, at);
      CompensationsName(i, ws[..|ws| - 1], at);
      assert ws[|ws| - 1].stepId in StepIds(ws);
      forall s | s in StepIds(ws[..|ws| - 1]) ensures s in StepIds(ws) {
        var k :| 0 <= k < |ws| - 1 && ws[..|ws| - 1][k].stepId == s;
        assert ws[k].stepId == s;
      }
    }
  }

  lemma {:induction false} CompensationsLeave(i: Instance, ws: seq<WorkflowStep>, at: Time, k: nat)
    requires DistinctSteps(ws) && k < |ws|
    ensures Final(StateOf(ws[k].stepId), CompensateDrafts(i, ws, at))
            == if Undoable(i, ws[k]) then Some(OfStatus(Compensated)) else None
    decreases |ws|
  {
    var f, w, front := StateOf(ws[k].stepId), ws[|ws| - 1], ws[..|ws| - 1];
    var head, rest := UndoneStep(i, w, at), CompensateDrafts(i, front, at);
    CompensateSnoc(i, ws, at);
    FinalConcat(f, head, rest);
    if head != [] { FinalOne(f, head[0]); }
    if k == |ws| - 1 {
      CompensationsName(i, front, at);
      NotInFront(ws);
      UnnamedIsSilent(f, rest, StepIds(front));
    } else {
      assert front[k] == ws[k];
      CompensationsLeave(i, front, at, k);
    }
  }

  lemma NotInFront(ws: seq<WorkflowStep>)
    requires ws != [] && DistinctSteps(ws)
    ensures ws[|ws| - 1].stepId !in StepIds(ws[..|ws| - 1])
  {
  }

  ghost predicate UndoesOneOf(d: Definition, i: Instance, n: nat, x: Draft)
    requires n <= |d.steps|
  {
    exists k :: 0 <= k < n && Undoable(i, d.steps[k])
                && x.body == StepCompensated(d.steps[k].stepId, d.steps[k].compensationAction.value)
  }

  /** The steps are compensated one by one, the last of the definition first, each with its own action. */
  ghost predicate Backwards(d: Definition, i: Instance, n: nat, ds: seq<Draft>)
    requires n <= |d.steps|
  {
    && (forall a :: 0 <= a < |ds| ==> UndoesOneOf(d, i, n, ds[a]))
    && (forall a, b :: 0 <= a < b < |ds| ==>
          ds[a].body.StepCompensated? && ds[b].body.StepCompensated? && Before(d, ds[b].body.stepId, ds[a].body.stepId))
  }

  lemma {:induction false} CompensatesBackwards(d: Definition, i: Instance, n: nat, at: Time)
    requires d.DistinctIds() && n <= |d.steps|
    ensures Backwards(d, i, n, CompensateDrafts(i, d.steps[..n], at))
    decreases n
  {
    if n > 0 {
      var ws := d.steps[..n];
      assert ws[n - 1] == d.steps[n - 1] && ws[..n - 1] == d.steps[..n - 1];
      CompensateSnoc(i, ws, at);
      CompensatesBackwards(d, i, n - 1, at);
      BackwardsCons(d, i, n, UndoneStep(i, d.steps[n - 1], at), CompensateDrafts(i, d.steps[..n - 1], at));
    }
  }

  lemma BackwardsCons(d: Definition, i: Instance, n: nat, head: seq<Draft>, rest: seq<Draft>)
    requires d.DistinctIds() && 0 < n <= |d.steps| && Backwards(d, i, n - 1, rest) && |head| <= 1
    requires head != [] ==>
               && Undoable(i, d.steps[n - 1])
               && head[0].body == StepCompensated(d.steps[n - 1].stepId, d.steps[n - 1].compensationAction.value)
    ensures Backwards(d, i, n, head + rest)
  {
    forall b | 0 <= b < |rest|
      ensures rest[b].body.StepCompensated? && Before(d, rest[b].body.stepId, d.steps[n - 1].stepId)
      ensures UndoesOneOf(d, i, n, rest[b])
    {
      UndoneBefore(d, i, n, rest[b]);
    }
    if head != [] { assert UndoesOneOf(d, i, n, head[0]); }
  }

  lemma UndoneBefore(d: Definition, i: Instance, n: nat, x: Draft)
    requires d.DistinctIds() && 0 < n <= |d.steps| && UndoesOneOf(d, i, n - 1, x)
    ensures x.body.StepCompensated? && Before(d, x.body.stepId, d.steps[n - 1].stepId) && UndoesOneOf(d, i, n, x)
  {
    var k :| 0 <= k < n - 1 && Undoable(i, d.steps[k])
             && x.body == StepCompensated(d.steps[k].stepId, d.steps[k].compensationAction.value);
    IsBefore(d, k, n - 1);
  }

  // --- rollback --------------------------------------------------------------------------------------

  lemma {:induction false} UndosName(undone: seq<(StepId, string)>, at: Time)
    ensures AllName(UndoneDrafts(undone, at), {})
    ensures forall k :: 0 <= k < |UndoneDrafts(undone, at)| ==> UndoneDrafts(undone, at)[k].body.SideEffectCompensated?
    ensures forall u :: u in undone ==> Draft(SideEffectCompensated(u.0, u.1), at) in UndoneDrafts(undone, at)
    decreases |undone|
  {
    if undone != [] { UndosName(undone[1..], at); }
  }

  function RollbackBatch(d: Definition, i: Instance, undone: seq<(StepId, string)>, now: Time): seq<Draft> {
    UndoneDrafts(undone, now) + CompensateDrafts(i, d.steps, now) + [Moved(WfRunning, WfRolledBack, now)]
  }

  lemma RollbackLeaves(d: Definition, i: Instance, undone: seq<(StepId, string)>, now: Time, k: nat)
    requires d.DistinctIds() && k < |d.steps|
    ensures Final(StateOf(d.steps[k].stepId), RollbackBatch(d, i, undone, now))
            == if Undoable(i, d.steps[k]) then Some(OfStatus(Compensated)) else None
    ensures Final(WorkflowState, RollbackBatch(d, i, undone, now)) == Some(OfWorkflow(WfRolledBack))
    ensures Final(FinishedAt, RollbackBatch(d, i, undone, now)) == Some(OfTime(Some(now)))
  {
    var f, a, b := StateOf(d.steps[k].stepId), UndoneDrafts(undone, now), CompensateDrafts(i, d.steps, now);
    var c := [Moved(WfRunning, WfRolledBack, now)];
    UndosName(undone, now);
    UnnamedIsSilent(f, a, {});
    CompensationsLeave(i, d.steps, now, k);
    FinalConcat(f, a, b);
    FinalConcat(f, a + b, c);
    FinalOne(f, c[0]);
  }

  lemma StatusIs(i: Instance, j: Instance, s: StepId, o: Option<Value>, undo: bool)
    requires Read(StateOf(s), j) == Or(o,
                                       Read(StateOf(s), i)) && o == if undo then Some(OfStatus(Compensated)) else None
    ensures j.Step(s).status == if undo then Compensated else i.Step(s).status
  {
  }

  lemma EndIs(j: Instance, to: WorkflowStatus, at: Time)
    requires Read(WorkflowState, j) == OfWorkflow(to) && Read(FinishedAt, j) == OfTime(Some(at))
    ensures j.status == to && j.completedAt == Some(at)
  {
  }

  /** After a rollback a step is compensated exactly if it had finished and has a compensation; the instance is
      rolled back and finished. */
  lemma RollbackMeans(d: Definition, i: Instance, undone: seq<(StepId, string)>, now: Time, j: Instance, k: nat)
    requires d.DistinctIds() && k < |d.steps| && Replay(Some(d), i, RollbackBatch(d, i, undone, now)) == Ok(j)
    ensures var w := d.steps[k];
            j.Step(w.stepId).status
            == if i.Step(w.stepId).status == Completed && w.compensationAction.Some? && w.compensationAction.value != ""
               then Compensated else i.Step(w.stepId).status
    ensures j.status == WfRolledBack && j.completedAt == Some(now)
  {
    var ds, f := RollbackBatch(d, i, undone, now), StateOf(d.steps[k].stepId);
    RollbackLeaves(d, i, undone, now, k);
    ReadsFinal(f, Some(d), i, ds, j);
    ReadsFinal(WorkflowState, Some(d), i, ds, j);
    ReadsFinal(FinishedAt, Some(d), i, ds, j);
    StatusIs(i, j, d.steps[k].stepId, Final(f, ds), Undoable(i, d.steps[k]));
    EndIs(j, WfRolledBack, now);
  }

  lemma {:induction false} CompensationsPlain(i: Instance, ws: seq<WorkflowStep>, at: Time)
    ensures forall k :: 0 <= k < |CompensateDrafts(i, ws, at)| ==> CompensateDrafts(i, ws, at)[k].body.StepCompensated?
    decreases |ws|
  {
    if ws != [] {
      CompensateSnoc(i, ws, at);
      CompensationsPlain(i, ws[..|ws| - 1], at);
    }
  }

  /** Every undone effect the instance has on record is on record as compensated. */
  lemma UndosAreOnRecord(d: Definition, i: Instance, undone: seq<(StepId, string)>, now: Time, j: Instance,
                         u: (StepId, string))
    requires u in undone && EffectAt(i.effects, u.1).Some?
             && Replay(Some(d), i, RollbackBatch(d, i, undone, now)) == Ok(j)
    ensures Stands(j, u.1, EffectCompensated)
  {
    var ds, x := RollbackBatch(d, i, undone, now), Draft(SideEffectCompensated(u.0, u.1), now);
    UndosName(undone, now);
    CompensationsPlain(i, d.steps, now);
    assert x in UndoneDrafts(undone, now) && x in ds;
    var k :| 0 <= k < |ds| && ds[k] == x;
    CompensatedIsOnRecord(Some(d), i, ds, j, u.1, k);
  }

  // --- failure policy ----------------------------------------------------------------------------------

  /** A blown budget goes to a human whatever the policy; otherwise the policy decides: a human, a rollback or,
      if that is stuck, a human about the workflow, the dead-letter queue, or a pause. */
  function PolicyStatus(d: Definition, i: Instance, s: StepId, undo: Undo): WorkflowStatus {
    if i.Step(s).errorType == Some("BudgetExceededError") then WfWaiting
    else
      match d.onFailure
      case Escalate => WfWaiting
      case Rollback => if undo == Stuck then WfWaiting else WfRolledBack
      case DeadLetter => WfDeadLettered
      case Pause => WfPaused
  }

  /** The escalation the policy raises, if it hands the failure to a human. */
  function PolicyRefs(d: Definition, i: Instance, s: StepId, undo: Undo, id: string): seq<EscalationRef> {
    if i.Step(s).errorType == Some("BudgetExceededError") then [EscalationRef(id, s, "cost_threshold", None, false)]
    else if d.onFailure == Escalate then [EscalationRef(id, s, "max_retries", None, false)]
    else if d.onFailure == Rollback && undo == Stuck then [EscalationRef(id, "", "compensation_failed", None, false)]
    else []
  }

  lemma PolicyLeaves(d: Definition, i: Instance, s: StepId, undo: Undo, id: string, now: Time)
    ensures var ds := PolicyDrafts(d, i, s, undo, id, now);
            Final(WorkflowState, ds) == Some(OfWorkflow(PolicyStatus(d, i, s, undo)))
  {
    var ds := PolicyDrafts(d, i, s, undo, id, now);
    assert ds != [] && ds[|ds| - 1] == Moved(WfRunning, PolicyStatus(d, i, s, undo), now);
  }

  lemma RaisesNothing(ds: seq<Draft>)
    requires forall k :: 0 <= k < |ds| ==> !ds[k].body.EscalationRaised?
    ensures RaisedBy(ds) == []
    decreases |ds|
  {
    if ds != [] {
      assert forall k :: 0 <= k < |ds[1..]| ==> ds[1..][k] == ds[k + 1];
      RaisesNothing(ds[1..]);
    }
  }

  lemma EscalateRaises(s: StepId, reason: string, id: string, now: Time)
    ensures ClosesNone(EscalateDrafts(s, reason, id, now))
    ensures RaisedBy(EscalateDrafts(s, reason, id, now)) == [EscalationRef(id, s, reason, None, false)]
  {
    var x, y := Draft(EscalationRaised(id, s, reason, None, "abort"), now), Moved(WfRunning, WfWaiting, now);
    assert EscalateDrafts(s, reason, id, now) == [x] + [y];
    RaisedConcat([x], [y]);
    RaisesNothing([y]);
    RaisesOne(x);
  }

  lemma RaisesOne(x: Draft)
    requires x.body.EscalationRaised?
    ensures RaisedBy([x])
            == [EscalationRef(x.body.escalationId, x.body.stepId, x.body.reason, x.body.deadline, false)]
  {
    assert [x][1..] == [] && !ClosedIn([], x.body.escalationId);
  }

  lemma PolicyRaises(d: Definition, i: Instance, s: StepId, undo: Undo, id: string, now: Time)
    ensures var ds := PolicyDrafts(d, i, s, undo, id, now);
            ClosesNone(ds) && RaisedBy(ds) == PolicyRefs(d, i, s, undo, id)
  {
    var ds := PolicyDrafts(d, i, s, undo, id, now);
    if i.Step(s).errorType == Some("BudgetExceededError") {
      EscalateRaises(s, "cost_threshold", id, now);
    } else if d.onFailure == Escalate {
      EscalateRaises(s, "max_retries", id, now);
    } else if d.onFailure == Rollback && undo == Stuck {
      EscalateRaises("", "compensation_failed", id, now);
    } else {
      if undo.Undone? { UndosName(undo.effects, now); }
      CompensationsPlain(i, d.steps, now);
      RaisesNothing(ds);
    }
  }

  /** What the failure policy leaves: the instance's status and the escalation raised. */
  lemma PolicyMeans(d: Definition, i: Instance, s: StepId, undo: Undo, id: string, now: Time, j: Instance)
    requires Replay(Some(d), i, PolicyDrafts(d, i, s, undo, id, now)) == Ok(j)
    ensures j.status == PolicyStatus(d, i, s, undo)
    ensures j.escalations == i.escalations + PolicyRefs(d, i, s, undo, id)
  {
    var ds := PolicyDrafts(d, i, s, undo, id, now);
    PolicyLeaves(d, i, s, undo, id, now);
    PolicyRaises(d, i, s, undo, id, now);
    ReadsFinal(WorkflowState, Some(d), i, ds, j);
    OnlyAdds(Some(d), i, ds, j);
    WorkflowIs(j, PolicyStatus(d, i, s, undo));
  }

  lemma WorkflowIs(j: Instance, to: WorkflowStatus)
    requires Read(WorkflowState, j) == OfWorkflow(to)
    ensures j.status == to
  {
  }

  // --- approvals and reviews ---------------------------------------------------------------------------

  /** An escalation is due its timeout from now; no timeout, or none to speak of, means no deadline. */
  function DueAt(timeout: Option<Time>, now: Time): Option<Time> {
    match timeout
    case None => None
    case Some(t) => if t == 0.0 then None else Some(now + t)
  }

  /** The k-th gated step asks for an explicit approval under the k-th new id, due after the step's timeout. */
  ghost predicate AsksFor(d: Definition, gates: seq<StepId>, ids: seq<string>, now: Time, refs: seq<EscalationRef>)
    requires forall s :: s in gates ==> d.Has(s)
  {
    && |refs| == |gates|
    && forall k :: 0 <= k < |gates| ==>
         refs[k] == EscalationRef(if k < |ids| then ids[k] else "", gates[k], "explicit_approval",
                                  DueAt(d.StepOf(gates[k]).approvalTimeout, now), false)
  }

  lemma GateRaises(d: Definition, i: Instance, s: StepId, id: string, now: Time)
    requires d.Has(s)
    ensures ClosesNone(GateOne(d, i, s, id, now))
    ensures RaisedBy(GateOne(d, i, s, id, now))
            == [EscalationRef(id, s, "explicit_approval", DueAt(d.StepOf(s).approvalTimeout, now), false)]
  {
    var x := Draft(EscalationRaised(id, s, "explicit_approval", Deadline(d.StepOf(s).approvalTimeout, now),
                                    d.StepOf(s).approvalAutoAction), now);
    RaisesOne(x);
    if i.Step(s).status == Pending {
      var y := Draft(StepStatusChanged(s, Pending, Ready), now);
      assert GateOne(d, i, s, id, now) == [y] + [x];
      RaisedConcat([y], [x]);
      RaisesNothing([y]);
    } else {
      assert GateOne(d, i, s, id, now) == [x];
    }
  }

  lemma {:induction false} GatesRaise(d: Definition, i: Instance, gates: seq<StepId>, ids: seq<string>, now: Time)
    requires forall s :: s in gates ==> d.Has(s)
    ensures ClosesNone(GateDrafts(d, i, gates, ids, now))
    ensures AsksFor(d, gates, ids, now, RaisedBy(GateDrafts(d, i, gates, ids, now)))
    decreases |gates|
  {
    if gates != [] {
      var more := if ids == [] then [] else ids[1..];
      GateRaises(d, i, gates[0], NewId(ids, 0), now);
      GatesRaise(d, i, gates[1..], more, now);
      RaisedConcat(GateOne(d, i, gates[0], NewId(ids, 0), now), GateDrafts(d, i, gates[1..], more, now));
      AsksCons(d, gates, ids, now, RaisedBy(GateOne(d, i, gates[0], NewId(ids, 0), now)),
               RaisedBy(GateDrafts(d, i, gates[1..], more, now)));
    }
  }

  lemma AsksCons(d: Definition, gates: seq<StepId>, ids: seq<string>, now: Time, head: seq<EscalationRef>,
                 rest: seq<EscalationRef>)
    requires gates != [] && forall s :: s in gates ==> d.Has(s)
    requires head == [EscalationRef(NewId(ids, 0), gates[0], "explicit_approval",
                                    DueAt(d.StepOf(gates[0]).approvalTimeout, now), false)]
    requires AsksFor(d, gates[1..], if ids == [] then [] else ids[1..], now, rest)
    ensures AsksFor(d, gates, ids, now, head + rest)
  {
    var more := if ids == [] then [] else ids[1..];
    forall k | 1 <= k < |gates|
      ensures gates[k] == gates[1..][k - 1]
      ensures (if k < |ids| then ids[k] else "") == if k - 1 < |more| then more[k - 1] else ""
    {
    }
  }

  /** Asking for approvals: the instance waits, with one new open escalation per gated step. */
  lemma GatesMeanWaiting(d: Definition, i: Instance, gates: seq<StepId>, ids: seq<string>, now: Time, j: Instance)
    returns (refs: seq<EscalationRef>)
    requires forall s :: s in gates ==> d.Has(s)
    requires Replay(Some(d), i, GateDrafts(d, i, gates, ids, now) + [Moved(WfRunning, WfWaiting, now)]) == Ok(j)
    ensures j.status == WfWaiting && j.escalations == i.escalations + refs && AsksFor(d, gates, ids, now, refs)
  {
    var a, b := GateDrafts(d, i, gates, ids, now), [Moved(WfRunning, WfWaiting, now)];
    GatesRaise(d, i, gates, ids, now);
    RaisedConcat(a, b);
    RaisesNothing(b);
    refs := RaisedBy(a);
    OnlyAdds(Some(d), i, a + b, j);
    ReadsFinal(WorkflowState, Some(d), i, a + b, j);
    WorkflowIs(j, WfWaiting);
  }

  /** The k-th reviewed step asks for its own reason, due after its own timeout. */
  ghost predicate AsksReview(rs: seq<StepRun>, ids: seq<string>, now: Time, refs: seq<EscalationRef>)
    requires forall r :: r in rs ==> WantsReview(r)
  {
    && |refs| == |rs|
    && forall k :: 0 <= k < |rs| ==>
         WantsReview(rs[k]) &&
         refs[k] == EscalationRef(if k < |ids| then ids[k] else "", rs[k].stepId, rs[k].outcome.review.value.reason,
                                  DueAt(rs[k].outcome.review.value.timeout, now), false)
  }

  lemma {:induction false} ReviewsRaise(rs: seq<StepRun>, ids: seq<string>, now: Time)
    requires forall r :: r in rs ==> WantsReview(r)
    ensures ClosesNone(RaiseReviews(rs, ids, now)) && AsksReview(rs, ids, now, RaisedBy(RaiseReviews(rs, ids, now)))
    decreases |rs|
  {
    if rs != [] {
      var more := if ids == [] then [] else ids[1..];
      var head, rest := [RaiseReviews(rs, ids, now)[0]], RaiseReviews(rs[1..], more, now);
      assert WantsReview(rs[0]) && RaiseReviews(rs, ids, now) == head + rest;
      ReviewsRaise(rs[1..], more, now);
      RaisesOne(head[0]);
      RaisedConcat(head, rest);
      ReviewCons(rs, ids, now, RaisedBy(head), RaisedBy(rest));
    }
  }

  lemma ReviewCons(rs: seq<StepRun>, ids: seq<string>, now: Time, head: seq<EscalationRef>, rest: seq<EscalationRef>)
    requires rs != [] && (forall r :: r in rs ==> WantsReview(r)) && WantsReview(rs[0])
    requires head == [EscalationRef(NewId(ids, 0), rs[0].stepId, rs[0].outcome.review.value.reason,
                                    DueAt(rs[0].outcome.review.value.timeout, now), false)]
    requires AsksReview(rs[1..], if ids == [] then [] else ids[1..], now, rest)
    ensures AsksReview(rs, ids, now, head + rest)
  {
    var more := if ids == [] then [] else ids[1..];
    forall k | 1 <= k < |rs|
      ensures rs[k] == rs[1..][k - 1]
      ensures (if k < |ids| then ids[k] else "") == if k - 1 < |more| then more[k - 1] else ""
    {
    }
  }

  // --- automatic actions -------------------------------------------------------------------------------

  /** Every approval the batch asks for names the step's own automatic action. */
  ghost predicate StepActions(d: Definition, ds: seq<Draft>) {
    forall k :: 0 <= k < |ds| && ds[k].body.EscalationRaised? ==>
                  d.Has(ds[k].body.stepId) && ds[k].body.autoAction == d.StepOf(ds[k].body.stepId).approvalAutoAction
  }

  lemma {:induction false} GateActions(d: Definition, i: Instance, gates: seq<StepId>, ids: seq<string>, now: Time)
    requires forall s :: s in gates ==> d.Has(s)
    ensures StepActions(d, GateDrafts(d, i, gates, ids, now))
    decreases |gates|
  {
    if gates != [] { GateActions(d, i, gates[1..], if ids == [] then [] else ids[1..], now); }
  }

  /** The escalation carries out what the step's own attempt asked for. */
  ghost predicate RunsAction(rs: seq<StepRun>, x: Draft) {
    exists r :: r in rs && WantsReview(r) && x.body.EscalationRaised? && x.body.stepId == r.stepId
                && x.body.autoAction == r.outcome.review.value.autoAction
  }

  lemma {:induction false} ReviewActions(rs: seq<StepRun>, ids: seq<string>, now: Time)
    requires forall r :: r in rs ==> WantsReview(r)
    ensures forall k :: 0 <= k < |RaiseReviews(rs, ids, now)| ==> RunsAction(rs, RaiseReviews(rs, ids, now)[k])
    decreases |rs|
  {
    if rs != [] {
      var more := if ids == [] then [] else ids[1..];
      var all, rest := RaiseReviews(rs, ids, now), RaiseReviews(rs[1..], more, now);
      ReviewActions(rs[1..], more, now);
      assert rs[0] in rs && RunsAction(rs, all[0]);
      forall k | 1 <= k < |all| ensures RunsAction(rs, all[k]) {
        assert all[k] == rest[k - 1] && RunsAction(rs[1..], rest[k - 1]);
      }
    }
  }

  /** An escalation raised by the failure policy aborts if nobody answers it. */
  lemma PolicyActions(d: Definition, i: Instance, s: StepId, undo: Undo, id: string, now: Time)
    ensures var ds := PolicyDrafts(d, i, s, undo, id, now);
            forall k :: 0 <= k < |ds| && ds[k].body.EscalationRaised? ==> ds[k].body.autoAction == "abort"
  {
    if undo.Undone? { UndosName(undo.effects, now); }
    CompensationsPlain(i, d.steps, now);
  }

  /** Reviews asked for by a wave: the instance waits, with one new open escalation per step to be reviewed. */
  lemma ReviewsMeanWaiting(d: Definition, i: Instance, runs: seq<StepRun>, ids: seq<string>, now: Time, j: Instance)
    returns (refs: seq<EscalationRef>)
    requires Replay(Some(d), i, ReviewDrafts(runs, ids, now)) == Ok(j) && Reviewed(runs) != []
    ensures j.status == WfWaiting && j.escalations == i.escalations + refs && AsksReview(Reviewed(runs), ids, now, refs)
  {
    var a, b := RaiseReviews(Reviewed(runs), ids, now), [Moved(WfRunning, WfWaiting, now)];
    ReviewsRaise(Reviewed(runs), ids, now);
    RaisedConcat(a, b);
    RaisesNothing(b);
    refs := RaisedBy(a);
    OnlyAdds(Some(d), i, a + b, j);
    ReadsFinal(WorkflowState, Some(d), i, a + b, j);
    WorkflowIs(j, WfWaiting);
  }

  // --- completion --------------------------------------------------------------------------------------

  /** The collected outputs: one entry for each completed step with an output, and no other. */
  ghost predicate Collects(i: Instance, outputs: Data) {
    forall s :: Look(outputs, s)
                == if s in i.steps && i.steps[s].status == Completed && i.steps[s].output.Some?
                   then Some(Dict(i.steps[s].output.value)) else None
  }

  /** Completion: the instance is completed and finished, and its context carries the collected outputs, or is
      as it was if there are none. */
  lemma CompletionMeans(d: Definition, i: Instance, now: Time, j: Instance) returns (outputs: Data)
    requires Replay(Some(d), i, [Moved(WfRunning, WfCompleted, now), Draft(InstanceCompleted(Outputs(i)), now)])
             == Ok(j)
    ensures j.status == WfCompleted && j.completedAt == Some(now) && Collects(i, outputs)
    ensures forall key :: Look(j.context, key)
                          == if key == "_outputs" && outputs != map[] then Some(Dict(outputs)) else Look(i.context, key)
  {
    outputs := Outputs(i);
    var ds := [Moved(WfRunning, WfCompleted, now), Draft(InstanceCompleted(outputs), now)];
    ReadsFinal(WorkflowState, Some(d), i, ds, j);
    ReadsFinal(FinishedAt, Some(d), i, ds, j);
    EndIs(j, WfCompleted, now);
    forall key ensures Look(j.context, key)
                       == if key == "_outputs" && outputs != map[] then Some(Dict(outputs)) else Look(i.context, key) {
      CompletionWrites(now, outputs, key);
      ReadsFinal(Context(key), Some(d), i, ds, j);
    }
  }

  lemma CompletionWrites(now: Time, outputs: Data, key: string)
    ensures Final(Context(key), [Moved(WfRunning, WfCompleted, now), Draft(InstanceCompleted(outputs), now)])
            == if key == "_outputs" && outputs != map[] then Some(OfJson(Some(Dict(outputs)))) else None
  {
    var x, y := Moved(WfRunning, WfCompleted, now), Draft(InstanceCompleted(outputs), now);
    assert [x, y] == [x] + [y];
    FinalConcat(Context(key), [x], [y]);
    FinalOne(Context(key), x);
    FinalOne(Context(key), y);
  }

  // --- the budget --------------------------------------------------------------------------------------

  lemma BlockWrites(s: StepId, rest: real, now: Time)
    ensures var ds := [Draft(BudgetExceeded(s, 0.0, rest), now), Moved(WfRunning, WfPaused, now)];
            && Final(WorkflowState, ds) == Some(OfWorkflow(WfPaused))
            && ErrorsOf(ds) == [ErrorRecord(Some(s), "BudgetExceededError", "projected > remaining", now)]
  {
    var x, y := Draft(BudgetExceeded(s, 0.0, rest), now), Moved(WfRunning, WfPaused, now);
    assert [x, y][1..] == [y] && [y][1..] == [];
    assert ErrorsOf([y]) == ErrorsIn(y) + ErrorsOf([]);
  }

  /** A blown budget pauses the instance and puts the step it stopped on record. */
  lemma BlockMeans(d: Definition, i: Instance, s: StepId, rest: real, now: Time, j: Instance)
    requires Replay(Some(d), i, [Draft(BudgetExceeded(s, 0.0, rest), now), Moved(WfRunning, WfPaused, now)]) == Ok(j)
    ensures j.status == WfPaused
    ensures j.errors == i.errors + [ErrorRecord(Some(s), "BudgetExceededError", "projected > remaining", now)]
  {
    var ds := [Draft(BudgetExceeded(s, 0.0, rest), now), Moved(WfRunning, WfPaused, now)];
    BlockWrites(s, rest, now);
    ReadsFinal(WorkflowState, Some(d), i, ds, j);
    WorkflowIs(j, WfPaused);
    InstanceBooks(Some(d), i, ds, j);
  }
}
