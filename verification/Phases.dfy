/** What the driver knows between two of its appends, and the proof that each append is legal
    and re-establishes it: the whole of one `drive`, move by move. */
module Phases {
  import opened Domain
  import opened Events
  import opened Fold
  import opened FoldLaws
  import opened Planner
  import opened Driver
  import opened Legality
  import opened Batches

  // --- phase assertions --------------------------------------------------------

  ghost predicate WaveDone(d: Definition, i: Instance, runs: seq<StepRun>) {
    && i.status == WfRunning && i.RunningSteps() == {} && DistinctRuns(runs)
    && (forall r :: r in runs ==> d.Has(r.stepId))
    && (forall r :: r in runs && r.outcome.Success? ==> Reviewable(d, i, r.stepId))
  }

  ghost predicate PhaseOk(d: Definition, i: Instance, ph: Phase) {
    match ph
    case Recovering => true
    case Looping => i.RunningSteps() == {}
    case Executing(dispatch) =>
      && i.status == WfRunning && !i.BudgetOut() && Distinct(dispatch) && |dispatch| <= d.maxConcurrent
      && i.RunningSteps() == IdsOf(dispatch)
      && (forall c :: c in dispatch ==> d.Has(c.0) && Started(i, c))
    case Billing(runs) => WaveDone(d, i, runs) && forall r :: r in runs ==> AwaitsRetry(d, i, r)
    case Scheduling(runs) => WaveDone(d, i, runs) && forall r :: r in runs ==> AwaitsRetry(d, i, r)
    case Reviewing(runs) => WaveDone(d, i, runs)
  }

  lemma InvHas(d: Definition, i: Instance, s: StepId)
    requires Inv(d, i)
    ensures d.Has(s) <==> s in i.steps
  {
    HasInIds(d, s);
  }

  lemma InvAt(d: Definition, i: Instance, s: StepId) returns (k: nat)
    requires Valid(d) && Inv(d, i) && d.Has(s)
    ensures k < |d.steps| && d.steps[k].stepId == s && d.StepOf(s) == d.steps[k] && StepInv(d, i, d.steps[k])
  {
    k :| 0 <= k < |d.steps| && d.steps[k].stepId == s;
    StepOfAt(d, k);
  }

  lemma NotEmptyId(d: Definition, s: StepId)
    requires Valid(d) && d.Has(s)
    ensures s != ""
  {
    HasInIds(d, s);
  }

  lemma BoundaryAt(d: Definition, i: Instance, s: StepId)
    requires Boundary(d, i) && d.Has(s)
    ensures i.Step(s).status == Compensated ==> i.status == WfRolledBack
    ensures i.Step(s).output.None? ==> i.Step(s).llmCalls == []
  {
    var k :| 0 <= k < |d.steps| && d.steps[k].stepId == s;
  }

  /** The RUNNING set is what the step statuses say. */
  lemma RunningMeans(i: Instance)
    ensures forall s :: s in i.RunningSteps() <==> i.Step(s).status == Running
    ensures i.RunningSteps() == {} <==> forall s :: i.Step(s).status != Running
  {
    if i.RunningSteps() != {} {
      var s :| s in i.RunningSteps();
      assert i.Step(s).status == Running;
    }
  }

  // --- recovery ------------------------------------------------------------------

  lemma RecoverSound(d: Definition, i: Instance, stale: seq<StepId>, at: Time) returns (j: Instance)
    requires Valid(d) && Inv(d, i) && Boundary(d, i) && Enumerates(stale, i)
    ensures Lands(d, i, RecoverDrafts(stale, at), j) && Boundary(d, j) && j.RunningSteps() == {}
    ensures OnlyRecovered(i, j, stale)
  {
    forall s | s in stale ensures d.Has(s) && i.Step(s).status == Running {
      assert s in i.RunningSteps();
      InvHas(d, i, s);
    }
    j := RecoverLegal(d, i, stale, at);
    RecoveredRests(d, i, j, stale);
  }

  lemma RecoveredRests(d: Definition, i: Instance, j: Instance, stale: seq<StepId>)
    requires Boundary(d, i) && Enumerates(stale, i) && OnlyRecovered(i, j, stale)
    ensures Boundary(d, j) && j.RunningSteps() == {}
  {
    RunningMeans(i);
    RunningMeans(j);
    forall s ensures j.Step(s).status != Running {
      assert s in stale <==> s in i.RunningSteps();
    }
  }

  // --- executing a wave --------------------------------------------------------------

  /** A step that has not settled has only PENDING dependents. */
  lemma UnsettledHoldsBack(d: Definition, i: Instance, s: StepId)
    requires Valid(d) && Inv(d, i) && !Settled(i.Step(s).status)
    ensures DependentsPending(d, i, s)
  {
    forall k | 0 <= k < |d.steps| && s in d.steps[k].dependencies ensures i.Step(d.steps[k].stepId).status == Pending {
      assert StepInv(d, i, d.steps[k]);
    }
  }

  lemma FinishedIsReviewable(d: Definition, i: Instance, j: Instance, runs: seq<StepRun>, r: StepRun)
    requires Valid(d) && Inv(d, i) && r in runs && r.outcome.Success? && d.Has(r.stepId)
    requires i.RunningSteps() == RunIds(runs) && i.Step(r.stepId).status == Running
    requires WaveConcluded(i, j, runs)
    ensures Reviewable(d, j, r.stepId)
  {
    var s := r.stepId;
    UnsettledHoldsBack(d, i, s);
    var k := InvAt(d, i, s);
    NotEmptyId(d, s);
    assert Concluded(j, r);
    forall m | 0 <= m < |d.steps| && s in d.steps[m].dependencies ensures j.Step(d.steps[m].stepId).status == Pending {
      assert d.steps[m].stepId !in i.RunningSteps();
    }
    if d.StepOf(s).requiresApproval {
      assert i.Granted(s);
      var n :| 0 <= n < |i.escalations| && i.escalations[n].stepId == s && i.escalations[n].resolved;
      assert j.escalations[n].stepId == s;
    }
  }

  lemma ConcludedBoundary(d: Definition, i: Instance, j: Instance, runs: seq<StepRun>)
    requires Boundary(d, i) && i.status == WfRunning && WaveConcluded(i, j, runs)
    ensures Boundary(d, j)
  {
    forall k | 0 <= k < |d.steps|
      ensures var st := j.Step(d.steps[k].stepId);
              (st.status == Compensated ==> j.status == WfRolledBack) && (st.output.None? ==> st.llmCalls == [])
    {
      var s := d.steps[k].stepId;
      if s in RunIds(runs) {
        var n :| 0 <= n < |runs| && runs[n].stepId == s;
        assert Concluded(j, runs[n]);
      } else {
        assert j.Step(s) == i.Step(s);
      }
    }
  }

  lemma RunsOfWave(d: Definition, i: Instance, dispatch: seq<Attempt>, outcomes: seq<StepOutcome>)
    requires Valid(d) && PhaseOk(d, i, Executing(dispatch)) && |outcomes| == |dispatch|
    ensures var runs := Runs(dispatch, outcomes);
            && DistinctRuns(runs) && RunIds(runs) == IdsOf(dispatch)
            && (forall r :: r in runs ==> AwaitsVerdict(d, i, r))
  {
    var runs := Runs(dispatch, outcomes);
    assert RunIds(runs) == IdsOf(dispatch) by {
      forall s ensures s in RunIds(runs) <==> s in IdsOf(dispatch) {
        if s in RunIds(runs) {
          var k :| 0 <= k < |runs| && runs[k].stepId == s;
          assert dispatch[k].0 == s;
        }
        if s in IdsOf(dispatch) {
          var k :| 0 <= k < |dispatch| && dispatch[k].0 == s;
          assert runs[k].stepId == s;
        }
      }
    }
    forall r | r in runs ensures AwaitsVerdict(d, i, r) {
      var k :| 0 <= k < |runs| && runs[k] == r;
      assert dispatch[k] in dispatch && Started(i, dispatch[k]);
      NotEmptyId(d, r.stepId);
    }
  }

  lemma ExecuteSound(d: Definition, i: Instance, dispatch: seq<Attempt>, outcomes: seq<StepOutcome>, at: Time)
    returns (j: Instance)
    requires Valid(d) && Inv(d, i) && Boundary(d, i) && PhaseOk(d, i, Executing(dispatch)) && |outcomes| == |dispatch|
    ensures var runs := Runs(dispatch, outcomes);
            && Lands(d, i, OutcomeDrafts(runs, at), j) && Boundary(d, j) && PhaseOk(d, j, Billing(runs))
            && j.cost == i.cost + Spent(runs) && j.budgetLimit == i.budgetLimit
  {
    var runs := Runs(dispatch, outcomes);
    RunsOfWave(d, i, dispatch, outcomes);
    j := OutcomesLegal(d, i, runs, at);
    ConcludedBoundary(d, i, j, runs);
    forall r | r in runs
      ensures d.Has(r.stepId) && AwaitsRetry(d, j, r) && (r.outcome.Success? ==> Reviewable(d, j, r.stepId))
    {
      assert AwaitsVerdict(d, i, r) && Concluded(j, r);
      var k := InvAt(d, i, r.stepId);
      if r.outcome.Success? { FinishedIsReviewable(d, i, j, runs, r); }
    }
    AllConcluded(i, j, runs);
  }

  lemma AllConcluded(i: Instance, j: Instance, runs: seq<StepRun>)
    requires WaveConcluded(i, j, runs) && i.RunningSteps() == RunIds(runs)
    ensures j.RunningSteps() == {}
  {
    RunningMeans(i);
    RunningMeans(j);
    forall s ensures j.Step(s).status != Running {
      if s in RunIds(runs) {
        var n :| 0 <= n < |runs| && runs[n].stepId == s;
        assert Concluded(j, runs[n]);
      } else {
        assert j.Step(s) == i.Step(s);
      }
    }
  }

  // --- retries and reviews ---------------------------------------------------------

  lemma ScheduleSound(d: Definition, i: Instance, runs: seq<StepRun>, now: Time) returns (j: Instance)
    requires Valid(d) && Inv(d, i) && Boundary(d, i) && PhaseOk(d, i, Scheduling(runs))
    requires forall r :: r in runs ==> d.Has(r.stepId)
    ensures Lands(d, i, RetryDrafts(d, runs, now), j) && Boundary(d, j) && PhaseOk(d, j, Reviewing(runs))
    ensures j.cost == i.cost && j.budgetLimit == i.budgetLimit
  {
    j := RetriesLegal(d, i, runs, now);
    RunningMeans(i);
    RunningMeans(j);
    RetriesKeepWave(d, i, j, runs);
  }

  lemma RetriesKeepWave(d: Definition, i: Instance, j: Instance, runs: seq<StepRun>)
    requires Boundary(d, i) && WaveDone(d, i, runs) && OnlyRetries(i, j, runs) && j.RunningSteps() == {}
    ensures Boundary(d, j) && WaveDone(d, j, runs)
  {
    forall r | r in runs && r.outcome.Success? ensures Reviewable(d, j, r.stepId) {
      assert Reviewable(d, i, r.stepId);
    }
  }

  lemma {:induction false} ReviewedAreDistinct(runs: seq<StepRun>)
    requires DistinctRuns(runs)
    ensures DistinctRuns(Reviewed(runs))
    decreases |runs|
  {
    if runs != [] {
      RunIdsSplit(runs);
      ReviewedAreDistinct(runs[1..]);
      var rest := Reviewed(runs[1..]);
      forall k | 0 <= k < |rest| ensures rest[k].stepId != runs[0].stepId {
        assert rest[k] in rest;
      }
    }
  }

  lemma RaisedBoundary(d: Definition, i: Instance, j: Instance, ids: set<StepId>)
    requires Boundary(d, i) && i.status == WfRunning && OnlyRaised(i, j, ids) && i.RunningSteps() == {}
    ensures Boundary(d, j) && j.RunningSteps() == {}
  {
    RunningMeans(i);
    RunningMeans(j);
  }

  /** Raised escalations followed by the move to WAITING_APPROVAL. */
  lemma ThenWaits(d: Definition, i: Instance, ds: seq<Draft>, m: Instance, ids: set<StepId>, at: Time)
    returns (j: Instance)
    requires Boundary(d, i) && i.status == WfRunning && i.RunningSteps() == {}
    requires Lands(d, i, ds, m) && OnlyRaised(i, m, ids)
    ensures Lands(d, i, ds + [Moved(WfRunning, WfWaiting, at)], j) && Boundary(d, j) && j.RunningSteps() == {}
    ensures j.cost == i.cost && j.budgetLimit == i.budgetLimit
  {
    RaisedBoundary(d, i, m, ids);
    j := MoveLegal(d, m, WfRunning, WfWaiting, at);
    Join(d, i, ds, m, [Moved(WfRunning, WfWaiting, at)], j);
    SameMap(d, m, j);
  }

  lemma SameMap(d: Definition, i: Instance, j: Instance)
    requires j.steps == i.steps && Boundary(d, i) && i.status == WfRunning
    ensures Boundary(d, j) && j.RunningSteps() == i.RunningSteps()
  {
    forall s ensures j.Step(s) == i.Step(s) {
    }
  }

  lemma ReviewSound(d: Definition, i: Instance, runs: seq<StepRun>, ids: seq<string>, now: Time) returns (j: Instance)
    requires Valid(d) && Inv(d, i) && Boundary(d, i) && PhaseOk(d, i, Reviewing(runs))
    ensures Lands(d, i, ReviewDrafts(runs, ids, now), j) && Boundary(d, j) && PhaseOk(d, j, Looping)
    ensures j.cost == i.cost && j.budgetLimit == i.budgetLimit
  {
    var rs := Reviewed(runs);
    if rs == [] {
      Nothing(d, i);
      j := i;
    } else {
      ReviewedAreDistinct(runs);
      var m := ReviewsLegal(d, i, rs, ids, now);
      j := ThenWaits(d, i, RaiseReviews(rs, ids, now), m, RunIds(rs), now);
    }
  }

  // --- acting on a plan -------------------------------------------------------------

  lemma DispatchSound(d: Definition, i: Instance, worker: string, now: Time) returns (j: Instance)
    requires Valid(d) && Inv(d, i) && Boundary(d, i) && i.status == WfRunning && i.RunningSteps() == {}
    requires PlanOf(d, i, now).dispatch != []
    ensures var dispatch := PlanOf(d, i, now).dispatch;
            && Lands(d, i, StartDrafts(i, dispatch, worker, now), j) && Boundary(d, j)
            && PhaseOk(d, j, Executing(dispatch))
            && j.cost == i.cost && j.budgetLimit == i.budgetLimit
  {
    var dispatch := PlanOf(d, i, now).dispatch;
    DispatchMeans(d, i, now);
    forall c | c in dispatch ensures CanStart(d, i, c) && !i.BudgetOut() {
      StartableCanStart(d, i, now, c);
    }
    assert dispatch[0] in dispatch;
    j := StartLegal(d, i, i, dispatch, worker, now);
    WaveBoundary(d, i, j, dispatch);
    WaveExecutes(d, i, j, dispatch);
  }

  lemma WaveExecutes(d: Definition, i: Instance, j: Instance, dispatch: seq<Attempt>)
    requires i.status == WfRunning && !i.BudgetOut() && i.RunningSteps() == {} && Distinct(dispatch)
             && |dispatch| <= d.maxConcurrent
    requires WaveStarted(i, j, dispatch) && forall c :: c in dispatch ==> CanStart(d, i, c)
    ensures PhaseOk(d, j, Executing(dispatch))
  {
    forall c | c in dispatch ensures d.Has(c.0) && Started(j, c) {
      assert CanStart(d, i, c);
    }
  }

  lemma StartableCanStart(d: Definition, i: Instance, now: Time, c: Attempt)
    requires Valid(d) && Inv(d, i) && Boundary(d, i) && i.status == WfRunning && Startable(d, i, now, c)
    ensures CanStart(d, i, c) && !i.BudgetOut()
  {
    var k :| 0 <= k < |d.steps| && c.0 == d.steps[k].stepId && Candidate(i, d.steps[k], now)
             && c.1 == i.Step(c.0).attempts + 1
             && !i.Open(c.0) && (d.steps[k].requiresApproval ==> i.Granted(c.0)) && !i.BudgetOut();
    StepOfAt(d, k);
    CandidateIsReady(d, i, now, k);
  }

  /** A candidate's dependencies are done, also when it is a due retry, and it has produced nothing yet. */
  lemma CandidateIsReady(d: Definition, i: Instance, now: Time, k: nat)
    requires Valid(d) && Inv(d, i) && Boundary(d, i) && i.status == WfRunning && k < |d.steps|
             && Candidate(i, d.steps[k], now)
    ensures DepsDone(i, d.steps[k]) && i.Step(d.steps[k].stepId).output.None?
            && i.Step(d.steps[k].stepId).llmCalls == []
  {
    assert StepInv(d, i, d.steps[k]);
    if i.Step(d.steps[k].stepId).status == Failed { SettledIsDone(d, i, k); }
  }

  /** Between commits of a live instance a settled dependency is a done one. */
  lemma SettledIsDone(d: Definition, i: Instance, k: nat)
    requires Valid(d) && Inv(d, i) && Boundary(d, i) && i.status == WfRunning
    requires k < |d.steps| && i.Step(d.steps[k].stepId).status != Pending
    ensures DepsDone(i, d.steps[k])
  {
    assert StepInv(d, i, d.steps[k]);
    forall n | 0 <= n < |d.steps[k].dependencies| ensures Done(i.Step(d.steps[k].dependencies[n]).status) {
      var dep := d.steps[k].dependencies[n];
      DepsKnown(d, k, dep);
      BoundaryAt(d, i, dep);
    }
  }

  lemma WaveBoundary(d: Definition, i: Instance, j: Instance, dispatch: seq<Attempt>)
    requires Boundary(d, i) && i.status == WfRunning && WaveStarted(i, j, dispatch)
    ensures Boundary(d, j)
  {
    forall k | 0 <= k < |d.steps|
      ensures var st := j.Step(d.steps[k].stepId);
              (st.status == Compensated ==> j.status == WfRolledBack) && (st.output.None? ==> st.llmCalls == [])
    {
      var s := d.steps[k].stepId;
      if s in IdsOf(dispatch) {
        var n :| 0 <= n < |dispatch| && dispatch[n].0 == s;
        assert dispatch[n] in dispatch && Started(j, dispatch[n]);
      } else {
        assert j.Step(s) == i.Step(s);
      }
    }
  }

  lemma GateSound(d: Definition, i: Instance, ids: seq<string>, now: Time) returns (j: Instance)
    requires Valid(d) && Inv(d, i) && Boundary(d, i) && i.status == WfRunning && i.RunningSteps() == {}
    ensures var gates := PlanOf(d, i, now).approvalNeeded;
            && (forall s :: s in gates ==> d.Has(s))
            && Lands(d, i, GateDrafts(d, i, gates, ids, now) + [Moved(WfRunning, WfWaiting, now)], j)
            && Boundary(d, j) && j.cost == i.cost && j.budgetLimit == i.budgetLimit
  {
    var gates := PlanOf(d, i, now).approvalNeeded;
    GatesMean(d, i, now);
    forall s | s in gates ensures d.Has(s) && Gateable(d, i, s) {
      assert Gated(d, i, now, s);
      var k :| 0 <= k < |d.steps| && d.steps[k].stepId == s && Candidate(i, d.steps[k], now)
               && d.steps[k].requiresApproval && !i.Open(s) && !i.Granted(s);
      StepOfAt(d, k);
      NotEmptyId(d, s);
      assert StepInv(d, i, d.steps[k]);
    }
    var m := GatesLegal(d, i, i, gates, ids, now);
    j := ThenWaits(d, i, GateDrafts(d, i, gates, ids, now), m, SetOf(gates), now);
  }

  lemma BudgetSound(d: Definition, i: Instance, s: StepId, rest: real, now: Time) returns (j: Instance)
    requires Boundary(d, i) && i.status == WfRunning && i.RunningSteps() == {}
    ensures Lands(d, i, [Draft(BudgetExceeded(s, 0.0, rest), now), Moved(WfRunning, WfPaused, now)], j)
    ensures Boundary(d, j) && j.cost == i.cost && j.budgetLimit == i.budgetLimit
  {
    var x := Draft(BudgetExceeded(s, 0.0, rest), now);
    var m := One(d, i, x);
    j := MoveLegal(d, m, WfRunning, WfPaused, now);
    Join(d, i, [x], m, [Moved(WfRunning, WfPaused, now)], j);
    assert [x] + [Moved(WfRunning, WfPaused, now)] == [x, Moved(WfRunning, WfPaused, now)];
    SameMap(d, i, j);
  }

  lemma CompleteSound(d: Definition, i: Instance, now: Time) returns (j: Instance)
    requires Boundary(d, i) && i.status == WfRunning && AllSettled(d, i)
    ensures Lands(d, i, [Moved(WfRunning, WfCompleted, now), Draft(InstanceCompleted(Outputs(i)), now)], j)
    ensures Boundary(d, j) && j.status == WfCompleted && j.cost == i.cost && j.budgetLimit == i.budgetLimit
  {
    var x := Draft(InstanceCompleted(Outputs(i)), now);
    var m := MoveLegal(d, i, WfRunning, WfCompleted, now);
    j := One(d, m, x);
    Join(d, i, [Moved(WfRunning, WfCompleted, now)], m, [x], j);
    assert [Moved(WfRunning, WfCompleted, now)] + [x] == [Moved(WfRunning, WfCompleted, now), x];
    SameMap(d, i, j);
  }

  lemma EscalateSound(d: Definition, i: Instance, s: StepId, reason: string, id: string, now: Time)
    returns (j: Instance)
    requires Boundary(d, i) && i.status == WfRunning && i.RunningSteps() == {} && LegalRaise(d, i, s, reason)
    ensures Lands(d, i, EscalateDrafts(s, reason, id, now), j)
    ensures Boundary(d, j) && j.cost == i.cost && j.budgetLimit == i.budgetLimit
  {
    var x := Draft(EscalationRaised(id, s, reason, None, "abort"), now);
    var m := RaiseLegal(d, i, x);
    j := ThenWaits(d, i, [x], m, if s == "" then {} else {s}, now);
    assert [x] + [Moved(WfRunning, WfWaiting, now)] == EscalateDrafts(s, reason, id, now);
  }

  lemma RollbackSound(d: Definition, i: Instance, undone: seq<(StepId, string)>, now: Time) returns (j: Instance)
    requires Valid(d) && Boundary(d, i) && i.status == WfRunning
    ensures Lands(d, i, UndoneDrafts(undone, now) + CompensateDrafts(i, d.steps, now)
                  + [Moved(WfRunning, WfRolledBack, now)], j)
    ensures Boundary(d, j) && j.status == WfRolledBack && j.cost == i.cost && j.budgetLimit == i.budgetLimit
  {
    var m := UndoneLegal(d, i, undone, now);
    forall k | 0 <= k < |d.steps|
      ensures d.Has(d.steps[k].stepId) && i.Step(d.steps[k].stepId) == m.Step(d.steps[k].stepId)
    {
    }
    var n := CompensateLegal(d, i, m, d.steps, now);
    Join(d, i, UndoneDrafts(undone, now), m, CompensateDrafts(i, d.steps, now), n);
    j := MoveLegal(d, n, WfRunning, WfRolledBack, now);
    Join(d, i, UndoneDrafts(undone, now) + CompensateDrafts(i, d.steps, now), n, [Moved(WfRunning, WfRolledBack, now)],
         j);
    CompensatedBoundary(d, i, n, j);
  }

  lemma CompensatedBoundary(d: Definition, i: Instance, n: Instance, j: Instance)
    requires Boundary(d, i) && forall s :: n.Step(s) == i.Step(s)
                                           || (i.Step(s).status == Completed
                                               && n.Step(s) == i.Step(s).(status := Compensated))
    requires j.status == WfRolledBack && j.steps == n.steps
    ensures Boundary(d, j)
  {
    forall s ensures j.Step(s) == n.Step(s) {
    }
  }

  lemma GrantedIsEscalated(i: Instance, s: StepId)
    requires i.Granted(s)
    ensures Escalated(i, s)
  {
    var n :| 0 <= n < |i.escalations| && i.escalations[n].stepId == s && i.escalations[n].resolved;
  }

  /** A terminally failed step may always be handed to a human. */
  lemma FailedMayEscalate(d: Definition, i: Instance, k: nat, reason: string)
    requires Valid(d) && Inv(d, i) && i.status == WfRunning && k < |d.steps|
             && i.Step(d.steps[k].stepId).status == Failed
    ensures LegalRaise(d, i, d.steps[k].stepId, reason)
  {
    StepOfAt(d, k);
    assert StepInv(d, i, d.steps[k]);
    if d.steps[k].requiresApproval { GrantedIsEscalated(i, d.steps[k].stepId); }
  }

  lemma ExhaustedMayEscalate(d: Definition, i: Instance, s: StepId, reason: string)
    requires Valid(d) && Inv(d, i) && i.status == WfRunning && FirstExhausted(d, i, |d.steps|) == Some(s)
    ensures LegalRaise(d, i, s, reason)
  {
    FirstExhaustedMeans(d, i, |d.steps|);
    var k :| 0 <= k < |d.steps| && Exhausted(i, d.steps[k]) && d.steps[k].stepId == s;
    FailedMayEscalate(d, i, k, reason);
  }

  lemma PolicySound(d: Definition, i: Instance, s: StepId, undo: Undo, id: string, now: Time) returns (j: Instance)
    requires Valid(d) && Inv(d, i) && Boundary(d, i) && i.status == WfRunning && i.RunningSteps() == {}
    requires FirstExhausted(d, i, |d.steps|) == Some(s)
    ensures Lands(d, i, PolicyDrafts(d, i, s, undo, id, now), j)
    ensures Boundary(d, j) && j.cost == i.cost && j.budgetLimit == i.budgetLimit
  {
    if i.Step(s).errorType == Some("BudgetExceededError") {
      ExhaustedMayEscalate(d, i, s, "cost_threshold");
      j := EscalateSound(d, i, s, "cost_threshold", id, now);
    } else {
      match d.onFailure {
        case Escalate =>
          ExhaustedMayEscalate(d, i, s, "max_retries");
          j := EscalateSound(d, i, s, "max_retries", id, now);
        case Rollback =>
          match undo {
            case Stuck => j := EscalateSound(d, i, "", "compensation_failed", id, now);
            case Undone(effects) => j := RollbackSound(d, i, effects, now);
          }
        case DeadLetter =>
          j := MoveLegal(d, i, WfRunning, WfDeadLettered, now);
          SameMap(d, i, j);
        case Pause =>
          j := MoveLegal(d, i, WfRunning, WfPaused, now);
          SameMap(d, i, j);
      }
    }
  }

  /** A move whose batch is legal and leaves what its next phase relies on, at no cost. */
  ghost predicate Sound(d: Definition, i: Instance, mv: Move, j: Instance) {
    && !mv.Fault? && Lands(d, i, mv.drafts, j) && Boundary(d, j) && (mv.Append? ==> PhaseOk(d, j, mv.next))
    && j.cost == i.cost && j.budgetLimit == i.budgetLimit
  }

  lemma PlannedSound(d: Definition, i: Instance, worker: string, inp: Input) returns (j: Instance)
    requires Valid(d) && Inv(d, i) && Boundary(d, i) && i.status == WfRunning && i.RunningSteps() == {}
    ensures Sound(d, i, Planned(d, i, worker, inp), j)
  {
    var p := PlanOf(d, i, inp.now);
    if p.budgetBlocked.Some? {
      j := BudgetSound(d, i, p.budgetBlocked.value,
                       if i.RemainingBudget().Some? then i.RemainingBudget().value else 0.0, inp.now);
    } else if p.approvalNeeded != [] {
      j := GateSound(d, i, inp.ids, inp.now);
    } else if p.terminalFailure.Some? {
      j := PolicySound(d, i, p.terminalFailure.value, inp.undo, NewId(inp.ids, 0), inp.now);
    } else {
      j := UnblockedSound(d, i, worker, inp);
    }
  }

  lemma UnblockedSound(d: Definition, i: Instance, worker: string, inp: Input) returns (j: Instance)
    requires Valid(d) && Inv(d, i) && Boundary(d, i) && i.status == WfRunning && i.RunningSteps() == {}
    requires var p := PlanOf(d, i, inp.now); p.budgetBlocked.None? && p.approvalNeeded == [] && p.terminalFailure.None?
    ensures Sound(d, i, Planned(d, i, worker, inp), j)
  {
    var p := PlanOf(d, i, inp.now);
    if p.dispatch != [] {
      j := DispatchSound(d, i, worker, inp.now);
    } else if p.allSettled {
      j := CompleteSound(d, i, inp.now);
    } else if p.retryWakeup.Some? {
      j := MoveLegal(d, i, WfRunning, WfRetrying, inp.now);
      SameMap(d, i, j);
    } else {
      Nothing(d, i);
      j := i;
    }
  }

  lemma LoopedSound(d: Definition, i: Instance, worker: string, inp: Input) returns (j: Instance)
    requires Valid(d) && Inv(d, i) && Boundary(d, i) && i.RunningSteps() == {}
    ensures Sound(d, i, Looped(d, i, worker, inp), j)
  {
    if i.status == WfRunning {
      forall k | 0 <= k < |d.steps| ensures d.steps[k].stepId in i.steps {
        InvHas(d, i, d.steps[k].stepId);
      }
      j := PlannedSound(d, i, worker, inp);
    } else if i.status == WfPending || i.status == WfRetrying {
      j := MoveLegal(d, i, i.status, WfRunning, inp.now);
      ResumeRests(d, i, j);
    } else {
      Nothing(d, i);
      j := i;
    }
  }

  lemma ResumeRests(d: Definition, i: Instance, j: Instance)
    requires Boundary(d, i) && i.status != WfRolledBack && j.steps == i.steps
    ensures Boundary(d, j) && j.RunningSteps() == i.RunningSteps()
  {
    forall s ensures j.Step(s) == i.Step(s) {
    }
  }

  function Bill(ph: Phase, inp: Input): real {
    if ph.Executing? && |inp.outcomes| == |ph.dispatch| then Spent(Runs(ph.dispatch, inp.outcomes)) else 0.0
  }

  /** Every append of a drive is accepted event by event, and leaves the state its next move relies on.
      Only the outcome batch moves the cost; no move changes the budget limit. */
  lemma MoveSound(d: Definition, i: Instance, ph: Phase, worker: string, inp: Input) returns (j: Instance)
    requires Valid(d) && Inv(d, i) && Boundary(d, i) && PhaseOk(d, i, ph) && Fits(d, i, ph, inp)
    ensures var mv := NextMove(d, i, ph, worker, inp);
            && !mv.Fault? && Lands(d, i, mv.drafts, j) && Boundary(d, j) && (mv.Append? ==> PhaseOk(d, j, mv.next))
            && j.cost == i.cost + Bill(ph, inp) && j.budgetLimit == i.budgetLimit
  {
    match ph {
      case Recovering => j := RecoverSound(d, i, inp.stale, inp.now);
      case Looping => j := LoopedSound(d, i, worker, inp);
      case Executing(dispatch) => j := ExecuteSound(d, i, dispatch, inp.outcomes, inp.now);
      case Billing(runs) => Nothing(d, i); j := i;
      case Scheduling(runs) => j := ScheduleSound(d, i, runs, inp.now);
      case Reviewing(runs) => j := ReviewSound(d, i, runs, inp.ids, inp.now);
    }
  }
}
