/** Every batch the driver emits is a run of legal events, so the fold accepts it; and the
    state it leaves is the one the driver's next phase relies on. */
module Batches {
  import opened Domain
  import opened Events
  import opened Fold
  import opened FoldLaws
  import opened Planner
  import opened Driver
  import opened Legality

  /** From `i`, the batch is legal throughout, accepted, and leads to `j`. */
  ghost predicate Lands(d: Definition, i: Instance, ds: seq<Draft>, j: Instance) {
    AllLegal(d, i, ds) && Replay(Some(d), i, ds) == Ok(j)
  }

  lemma Nothing(d: Definition, i: Instance)
    ensures Lands(d, i, [], i)
  {
  }

  lemma One(d: Definition, i: Instance, x: Draft) returns (j: Instance)
    requires Legal(d, i, x.body)
    ensures Lands(d, i, [x], j) && Advance(Some(d), i, x) == Ok(j)
  {
    AllLegalOne(d, i, x);
    j := Advance(Some(d), i, x).value;
  }

  /** Two legal runs in a row are one legal run. */
  lemma Join(d: Definition, i: Instance, a: seq<Draft>, m: Instance, b: seq<Draft>, j: Instance)
    requires Lands(d, i, a, m) && Lands(d, m, b, j)
    ensures Lands(d, i, a + b, j)
  {
    AllLegalConcat(d, i, a, b);
    ReplayConcat(Some(d), i, a, b);
  }

  /** Everything outside the step map and the books that a wave leaves alone. */
  ghost predicate SameOutside(i: Instance, j: Instance) {
    j.status == i.status && j.escalations == i.escalations && j.budgetLimit == i.budgetLimit
  }

  ghost predicate OnlyStep(i: Instance, j: Instance, s: StepId) {
    SameOutside(i, j) && forall t :: t != s ==> j.Step(t) == i.Step(t)
  }

  function IdsOf(dispatch: seq<Attempt>): set<StepId> {
    set k | 0 <= k < |dispatch| :: dispatch[k].0
  }

  function RunIds(runs: seq<StepRun>): set<StepId> {
    set k | 0 <= k < |runs| :: runs[k].stepId
  }

  ghost predicate DistinctRuns(runs: seq<StepRun>) {
    forall a, b :: 0 <= a < b < |runs| ==> runs[a].stepId != runs[b].stepId
  }

  lemma IdsSplit(dispatch: seq<Attempt>)
    requires dispatch != [] && Distinct(dispatch)
    ensures Distinct(dispatch[1..])
    ensures IdsOf(dispatch) == {dispatch[0].0} + IdsOf(dispatch[1..])
    ensures dispatch[0].0 !in IdsOf(dispatch[1..])
    ensures forall c :: c in dispatch <==> c == dispatch[0] || c in dispatch[1..]
    ensures forall c :: c in dispatch[1..] ==> c.0 != dispatch[0].0
  {
    forall s | s in IdsOf(dispatch) ensures s == dispatch[0].0 || s in IdsOf(dispatch[1..]) {
      var k :| 0 <= k < |dispatch| && dispatch[k].0 == s;
      if k > 0 { assert dispatch[1..][k - 1].0 == s; }
    }
    assert dispatch == [dispatch[0]] + dispatch[1..];
  }

  lemma RunIdsSplit(runs: seq<StepRun>)
    requires runs != [] && DistinctRuns(runs)
    ensures DistinctRuns(runs[1..])
    ensures RunIds(runs) == {runs[0].stepId} + RunIds(runs[1..])
    ensures runs[0].stepId !in RunIds(runs[1..])
    ensures forall r :: r in runs <==> r == runs[0] || r in runs[1..]
    ensures forall r :: r in runs[1..] ==> r.stepId != runs[0].stepId
  {
    forall s | s in RunIds(runs) ensures s == runs[0].stepId || s in RunIds(runs[1..]) {
      var k :| 0 <= k < |runs| && runs[k].stepId == s;
      if k > 0 { assert runs[1..][k - 1].stepId == s; }
    }
    assert runs == [runs[0]] + runs[1..];
  }

  // --- recovery ------------------------------------------------------------

  ghost predicate OnlyRecovered(i: Instance, j: Instance, stale: seq<StepId>) {
    && SameOutside(i, j) && j.cost == i.cost
    && forall s :: j.Step(s) == if s in stale then i.Step(s).(status := Ready) else i.Step(s)
  }

  /** Recovery puts exactly the in-flight steps back to READY and changes nothing else. */
  lemma {:induction false} RecoverLegal(d: Definition, i: Instance, stale: seq<StepId>, at: Time) returns (j: Instance)
    requires forall a, b :: 0 <= a < b < |stale| ==> stale[a] != stale[b]
    requires forall s :: s in stale ==> d.Has(s) && i.Step(s).status == Running
    ensures Lands(d, i, RecoverDrafts(stale, at), j) && OnlyRecovered(i, j, stale)
    decreases |stale|
  {
    if stale == [] {
      Nothing(d, i);
      j := i;
    } else {
      var x := Draft(StepStatusChanged(stale[0], Running, Ready), at);
      assert d.Has(stale[0]) && i.Step(stale[0]).status == Running;
      var m := One(d, i, x);
      forall s | s in stale[1..] ensures d.Has(s) && m.Step(s).status == Running && s != stale[0] {
        assert s in stale;
      }
      j := RecoverLegal(d, m, stale[1..], at);
      Join(d, i, [x], m, RecoverDrafts(stale[1..], at), j);
    }
  }

  // --- starting a wave ---------------------------------------------------------

  /** What the planner guarantees of a step it dispatches. */
  ghost predicate CanStart(d: Definition, i: Instance, c: Attempt) {
    && d.Has(c.0)
    && (i.Step(c.0).status == Pending || i.Step(c.0).status == Ready || i.Step(c.0).status == Failed)
    && DepsDone(i, d.StepOf(c.0))
    && c.1 == i.Step(c.0).attempts + 1
    && !i.Open(c.0) && (d.StepOf(c.0).requiresApproval ==> i.Granted(c.0))
    && i.Step(c.0).output.None? && i.Step(c.0).llmCalls == []
  }

  ghost predicate Started(j: Instance, c: Attempt) {
    var st := j.Step(c.0);
    st.status == Running && st.attempts == c.1 && st.output.None? && st.llmCalls == [] && st.nextRetryAt.None?
  }

  ghost predicate OneStarted(i: Instance, j: Instance, c: Attempt) {
    OnlyStep(i, j, c.0) && j.cost == i.cost && Started(j, c) && j.RunningSteps() == i.RunningSteps() + {c.0}
  }

  lemma ReadyKeepsStart(d: Definition, i: Instance, m: Instance, c: Attempt)
    requires CanStart(d, i, c) && i.Step(c.0).status == Pending
    requires OnlyStep(i, m, c.0) && m.Step(c.0) == i.Step(c.0).(status := Ready)
    ensures CanStart(d, m, c)
  {
  }

  lemma StartedEffect(d: Definition, i: Instance, c: Attempt, worker: string, at: Time) returns (j: Instance)
    requires CanStart(d, i, c) && i.Step(c.0).status != Pending && i.status == WfRunning && !i.BudgetOut()
    requires |i.RunningSteps()| < d.maxConcurrent
    ensures Lands(d, i, [Draft(StepStarted(c.0, c.1, worker, None), at)], j) && OneStarted(i, j, c)
  {
    var b := StepStarted(c.0, c.1, worker, None);
    j := One(d, i, Draft(b, at));
    RunningAfter(d, i, b, at);
    assert j.RunningSteps() == Handle(Some(d), i, b, at).value.RunningSteps();
  }

  /** Starting one step: READY first when it was PENDING, then RUNNING with the next attempt. */
  lemma StartOneLegal(d: Definition, i: Instance, c: Attempt, worker: string, at: Time) returns (j: Instance)
    requires CanStart(d, i, c) && i.status == WfRunning && !i.BudgetOut()
    requires |i.RunningSteps()| < d.maxConcurrent
    ensures Lands(d, i, StartOne(i, c, worker, at), j) && OneStarted(i, j, c)
  {
    var started := Draft(StepStarted(c.0, c.1, worker, None), at);
    if i.Step(c.0).status == Pending {
      var ready := Draft(StepStatusChanged(c.0, Pending, Ready), at);
      var m := One(d, i, ready);
      assert m.RunningSteps() == i.RunningSteps();
      ReadyKeepsStart(d, i, m, c);
      j := StartedEffect(d, m, c, worker, at);
      Join(d, i, [ready], m, [started], j);
      assert StartOne(i, c, worker, at) == [ready] + [started];
    } else {
      j := StartedEffect(d, i, c, worker, at);
      assert StartOne(i, c, worker, at) == [] + [started] == [started];
    }
  }

  ghost predicate WaveStarted(i: Instance, j: Instance, dispatch: seq<Attempt>) {
    && SameOutside(i, j) && j.cost == i.cost
    && (forall s :: s !in IdsOf(dispatch) ==> j.Step(s) == i.Step(s))
    && (forall c :: c in dispatch ==> Started(j, c))
    && j.RunningSteps() == i.RunningSteps() + IdsOf(dispatch)
  }

  lemma WaveGrows(i: Instance, m: Instance, j: Instance, dispatch: seq<Attempt>)
    requires dispatch != [] && Distinct(dispatch)
    requires OneStarted(i, m, dispatch[0]) && WaveStarted(m, j, dispatch[1..])
    ensures WaveStarted(i, j, dispatch)
  {
    IdsSplit(dispatch);
    assert j.Step(dispatch[0].0) == m.Step(dispatch[0].0);
  }

  lemma RestCanStart(d: Definition, i0: Instance, i: Instance, m: Instance, dispatch: seq<Attempt>)
    requires dispatch != [] && Distinct(dispatch) && OnlyStep(i, m, dispatch[0].0)
    requires forall c :: c in dispatch ==> CanStart(d, i, c) && i0.Step(c.0) == i.Step(c.0)
    ensures forall e :: e in dispatch[1..] ==> CanStart(d, m, e) && i0.Step(e.0) == m.Step(e.0)
  {
    IdsSplit(dispatch);
    assert CanStart(d, i, dispatch[0]);
    forall e | e in dispatch[1..] ensures CanStart(d, m, e) && i0.Step(e.0) == m.Step(e.0) {
      assert CanStart(d, i, e);
    }
  }

  /** A whole wave starts: every dispatched step runs its next attempt, nothing else moves. */
  lemma {:induction false} StartLegal(d: Definition, i0: Instance, i: Instance, dispatch: seq<Attempt>, worker: string,
                                      at: Time)
    returns (j: Instance)
    requires Distinct(dispatch) && i.status == WfRunning && !i.BudgetOut()
    requires forall c :: c in dispatch ==> CanStart(d, i, c) && i0.Step(c.0) == i.Step(c.0)
    requires |i.RunningSteps()| + |dispatch| <= d.maxConcurrent
    ensures Lands(d, i, StartDrafts(i0, dispatch, worker, at), j) && WaveStarted(i, j, dispatch)
    decreases |dispatch|
  {
    if dispatch == [] {
      Nothing(d, i);
      assert i.RunningSteps() == i.RunningSteps() + IdsOf(dispatch);
      j := i;
    } else {
      var c, rest := dispatch[0], dispatch[1..];
      assert CanStart(d, i, c);
      var m := StartOneLegal(d, i, c, worker, at);
      RestCanStart(d, i0, i, m, dispatch);
      IdsSplit(dispatch);
      j := StartLegal(d, i0, m, rest, worker, at);
      Join(d, i, StartOne(i, c, worker, at), m, StartDrafts(i0, rest, worker, at), j);
      assert StartOne(i0, c, worker, at) == StartOne(i, c, worker, at);
      WaveGrows(i, m, j, dispatch);
    }
  }

  // --- recording a wave's outcomes ---------------------------------------------

  /** The running step keeps its attempt while its recordings, charges and effects are written. */
  ghost predicate StillRunning(i: Instance, j: Instance, s: StepId) {
    && OnlyStep(i, j, s)
    && j.Step(s).status == Running && j.Step(s).attempts == i.Step(s).attempts
    && j.Step(s).output == i.Step(s).output && j.Step(s).nextRetryAt == i.Step(s).nextRetryAt
  }

  lemma {:induction false} RecordingsLegal(d: Definition, i: Instance, s: StepId, attempt: nat, recs: seq<Recording>,
                                           at: Time)
    returns (j: Instance)
    requires d.Has(s) && i.Step(s).status == Running && attempt == i.Step(s).attempts
    ensures Lands(d, i, RecordingDrafts(s, attempt, recs, at), j) && StillRunning(i, j, s) && j.cost == i.cost
    decreases |recs|
  {
    if recs == [] {
      Nothing(d, i);
      j := i;
    } else {
      var x := Draft(LLMCallRecorded(s, attempt, recs[0]), at);
      var m := One(d, i, x);
      j := RecordingsLegal(d, m, s, attempt, recs[1..], at);
      Join(d, i, [x], m, RecordingDrafts(s, attempt, recs[1..], at), j);
    }
  }

  lemma {:induction false} ChargesLegal(d: Definition, i: Instance, s: StepId, charges: seq<Charge>, at: Time)
    returns (j: Instance)
    requires d.Has(s) && s != "" && i.Step(s).status == Running
    ensures Lands(d, i, ChargeDrafts(s, charges, at), j) && StillRunning(i, j, s)
            && j.cost == i.cost + SumCharges(charges)
    decreases |charges|
  {
    if charges == [] {
      Nothing(d, i);
      j := i;
    } else {
      var x := Draft(CostCharged(Some(s), charges[0].amount, charges[0].tokensIn, charges[0].tokensOut), at);
      var m := One(d, i, x);
      j := ChargesLegal(d, m, s, charges[1..], at);
      Join(d, i, [x], m, ChargeDrafts(s, charges[1..], at), j);
    }
  }

  ghost predicate SameSteps(i: Instance, j: Instance) {
    SameOutside(i, j) && j.steps == i.steps && j.cost == i.cost
  }

  lemma QuietLegal(d: Definition, i: Instance, x: Draft) returns (j: Instance)
    requires x.body.SideEffectIntentRecorded? || x.body.SideEffectExecuted? || x.body.SideEffectCompensated?
    ensures Lands(d, i, [x], j) && SameSteps(i, j)
  {
    j := One(d, i, x);
  }

  lemma {:induction false} EffectsLegal(d: Definition, i: Instance, s: StepId, effects: seq<EffectOutcome>, at: Time)
    returns (j: Instance)
    ensures Lands(d, i, EffectDrafts(s, effects, at), j) && SameSteps(i, j)
    decreases |effects|
  {
    if effects == [] {
      Nothing(d, i);
      j := i;
    } else {
      var intent := Draft(SideEffectIntentRecorded(s, effects[0].effectName, effects[0].key), at);
      var done := Draft(SideEffectExecuted(s, effects[0].key), at);
      var head := if effects[0].deduplicated then [] else [intent];
      var m := i;
      if effects[0].deduplicated { Nothing(d, i); } else { m := QuietLegal(d, i, intent); }
      var n := QuietLegal(d, m, done);
      j := EffectsLegal(d, n, s, effects[1..], at);
      Join(d, i, head, m, [done], n);
      Join(d, i, head + [done], n, EffectDrafts(s, effects[1..], at), j);
    }
  }

  /** How a run leaves its step. */
  ghost predicate Concluded(j: Instance, r: StepRun) {
    var st := j.Step(r.stepId);
    if r.outcome.Success? then st.status == Completed && st.output.Some?
    else st.status == Failed && st.output.None? && st.attempts == r.attempt && st.nextRetryAt.None? && st.llmCalls == []
  }

  ghost predicate AwaitsVerdict(d: Definition, i: Instance, r: StepRun) {
    var st := i.Step(r.stepId);
    && d.Has(r.stepId) && r.stepId != ""
    && st.status == Running && st.attempts == r.attempt && st.output.None? && st.nextRetryAt.None?
  }

  lemma VerdictLegal(d: Definition, i: Instance, r: StepRun, at: Time) returns (j: Instance)
    requires AwaitsVerdict(d, i, r)
    ensures Lands(d, i, [Verdict(r, at)], j) && OnlyStep(i, j, r.stepId) && j.cost == i.cost && Concluded(j, r)
  {
    j := One(d, i, Verdict(r, at));
  }

  lemma OutcomeOneLegal(d: Definition, i: Instance, r: StepRun, at: Time) returns (j: Instance)
    requires AwaitsVerdict(d, i, r)
    ensures Lands(d, i, OutcomeOne(r, at), j)
    ensures OnlyStep(i, j, r.stepId) && j.cost == i.cost + SumCharges(r.outcome.charges) && Concluded(j, r)
  {
    var s := r.stepId;
    var a := RecordingDrafts(s, r.attempt, r.outcome.recordings, at);
    var b := ChargeDrafts(s, r.outcome.charges, at);
    var c := EffectDrafts(s, r.outcome.effects, at);
    var i1 := RecordingsLegal(d, i, s, r.attempt, r.outcome.recordings, at);
    var i2 := ChargesLegal(d, i1, s, r.outcome.charges, at);
    var i3 := EffectsLegal(d, i2, s, r.outcome.effects, at);
    j := VerdictLegal(d, i3, r, at);
    Join(d, i, a, i1, b, i2);
    Join(d, i, a + b, i2, c, i3);
    Join(d, i, a + b + c, i3, [Verdict(r, at)], j);
  }

  ghost predicate WaveConcluded(i: Instance, j: Instance, runs: seq<StepRun>) {
    && SameOutside(i, j) && j.cost == i.cost + Spent(runs)
    && (forall s :: s !in RunIds(runs) ==> j.Step(s) == i.Step(s))
    && (forall r :: r in runs ==> Concluded(j, r))
  }

  lemma WaveConcludes(i: Instance, m: Instance, j: Instance, runs: seq<StepRun>)
    requires runs != [] && DistinctRuns(runs) && OnlyStep(i, m, runs[0].stepId)
    requires m.cost == i.cost + SumCharges(runs[0].outcome.charges) && Concluded(m, runs[0])
    requires WaveConcluded(m, j, runs[1..])
    ensures WaveConcluded(i, j, runs)
  {
    RunIdsSplit(runs);
    assert j.Step(runs[0].stepId) == m.Step(runs[0].stepId);
  }

  lemma OthersAwaitVerdict(d: Definition, i: Instance, m: Instance, runs: seq<StepRun>)
    requires runs != [] && DistinctRuns(runs) && OnlyStep(i, m, runs[0].stepId)
    requires forall r :: r in runs ==> AwaitsVerdict(d, i, r)
    ensures forall r :: r in runs[1..] ==> AwaitsVerdict(d, m, r)
  {
    RunIdsSplit(runs);
    forall r | r in runs[1..] ensures AwaitsVerdict(d, m, r) {
      assert AwaitsVerdict(d, i, r);
    }
  }

  /** A wave's outcomes are written: each step ends as its run says, and the cost moves by what was charged. */
  lemma {:induction false} OutcomesLegal(d: Definition, i: Instance, runs: seq<StepRun>, at: Time) returns (j: Instance)
    requires DistinctRuns(runs) && forall r :: r in runs ==> AwaitsVerdict(d, i, r)
    ensures Lands(d, i, OutcomeDrafts(runs, at), j) && WaveConcluded(i, j, runs)
    decreases |runs|
  {
    if runs == [] {
      Nothing(d, i);
      j := i;
    } else {
      assert AwaitsVerdict(d, i, runs[0]);
      var m := OutcomeOneLegal(d, i, runs[0], at);
      OthersAwaitVerdict(d, i, m, runs);
      RunIdsSplit(runs);
      j := OutcomesLegal(d, m, runs[1..], at);
      Join(d, i, OutcomeOne(runs[0], at), m, OutcomeDrafts(runs[1..], at), j);
      WaveConcludes(i, m, j, runs);
    }
  }

  // --- scheduling retries --------------------------------------------------------

  /** The step failed on this attempt and no retry is scheduled for it yet. */
  ghost predicate AwaitsRetry(d: Definition, i: Instance, r: StepRun) {
    && d.Has(r.stepId)
    && (r.outcome.Failure? ==>
          && i.Step(r.stepId).status == Failed && i.Step(r.stepId).nextRetryAt.None?
          && i.Step(r.stepId).attempts == r.attempt >= 1)
  }

  ghost predicate OnlyRetries(i: Instance, j: Instance, runs: seq<StepRun>) {
    && SameOutside(i, j) && j.cost == i.cost
    && (forall s :: j.Step(s) == i.Step(s).(nextRetryAt := j.Step(s).nextRetryAt))
    && (forall s :: j.Step(s) != i.Step(s) ==> i.Step(s).status == Failed && s in RunIds(runs))
  }

  lemma OthersAwaitRetry(d: Definition, i: Instance, m: Instance, runs: seq<StepRun>)
    requires runs != [] && DistinctRuns(runs) && OnlyStep(i, m, runs[0].stepId)
    requires forall r :: r in runs ==> AwaitsRetry(d, i, r)
    ensures forall r :: r in runs[1..] ==> AwaitsRetry(d, m, r)
  {
    RunIdsSplit(runs);
    forall r | r in runs[1..] ensures AwaitsRetry(d, m, r) {
      assert AwaitsRetry(d, i, r);
    }
  }

  lemma RetryGrows(i: Instance, m: Instance, j: Instance, runs: seq<StepRun>, runAt: Time)
    requires runs != [] && DistinctRuns(runs) && OnlyStep(i, m, runs[0].stepId) && m.cost == i.cost
    requires i.Step(runs[0].stepId).status == Failed
    requires m.Step(runs[0].stepId) == i.Step(runs[0].stepId).(nextRetryAt := Some(runAt))
    requires OnlyRetries(m, j, runs[1..])
    ensures OnlyRetries(i, j, runs)
  {
    RunIdsSplit(runs);
  }

  lemma RetrySkips(i: Instance, j: Instance, runs: seq<StepRun>)
    requires runs != [] && DistinctRuns(runs) && OnlyRetries(i, j, runs[1..])
    ensures OnlyRetries(i, j, runs)
  {
    RunIdsSplit(runs);
  }

  lemma RetryOneLegal(d: Definition, i: Instance, r: StepRun, runAt: Time, at: Time) returns (j: Instance)
    requires AwaitsRetry(d, i, r) && Retries(d, r)
    ensures Lands(d, i, [Draft(StepRetryScheduled(r.stepId, r.attempt + 1, runAt), at)], j)
    ensures OnlyStep(i, j, r.stepId) && j.cost == i.cost
    ensures j.Step(r.stepId) == i.Step(r.stepId).(nextRetryAt := Some(runAt))
  {
    j := One(d, i, Draft(StepRetryScheduled(r.stepId, r.attempt + 1, runAt), at));
  }

  lemma {:induction false} RetriesLegal(d: Definition, i: Instance, runs: seq<StepRun>, now: Time) returns (j: Instance)
    requires DistinctRuns(runs) && (forall r :: r in runs ==> d.Has(r.stepId))
    requires forall r :: r in runs ==> AwaitsRetry(d, i, r)
    ensures Lands(d, i, RetryDrafts(d, runs, now), j) && OnlyRetries(i, j, runs)
    decreases |runs|
  {
    if runs == [] {
      Nothing(d, i);
      j := i;
    } else {
      var r, rest := runs[0], runs[1..];
      RunIdsSplit(runs);
      assert AwaitsRetry(d, i, r);
      if Retries(d, r) {
        var runAt := now + BackoffDelay(d.StepOf(r.stepId).retry, r.attempt);
        var x := Draft(StepRetryScheduled(r.stepId, r.attempt + 1, runAt), now);
        assert RetryDrafts(d, runs, now) == [x] + RetryDrafts(d, rest, now);
        var m := RetryOneLegal(d, i, r, runAt, now);
        OthersAwaitRetry(d, i, m, runs);
        j := RetriesLegal(d, m, rest, now);
        Join(d, i, [x], m, RetryDrafts(d, rest, now), j);
        RetryGrows(i, m, j, runs, runAt);
      } else {
        j := RetriesLegal(d, i, rest, now);
        RetrySkips(i, j, runs);
        assert RetryDrafts(d, runs, now) == [] + RetryDrafts(d, rest, now) == RetryDrafts(d, rest, now);
      }
    }
  }

  // --- raising escalations ---------------------------------------------------------

  /** Raising on a set of steps: they wait for a human, nothing else in the step map moves. */
  ghost predicate OnlyRaised(i: Instance, j: Instance, ids: set<StepId>) {
    && j.status == i.status && j.budgetLimit == i.budgetLimit && j.cost == i.cost
    && (forall s :: j.Step(s) == if s in ids then i.Step(s).(status := Waiting) else i.Step(s))
    && (forall s :: s !in ids && s != "" ==>
                      j.Open(s) == i.Open(s) && j.Granted(s) == i.Granted(s) && Escalated(j, s) == Escalated(i, s))
  }

  lemma RaisedRefs(i: Instance, j: Instance, b: EventBody)
    requires b.EscalationRaised?
    requires j.escalations == i.escalations + [EscalationRef(b.escalationId, b.stepId, b.reason, b.deadline, false)]
    ensures forall s :: s != b.stepId ==>
                          j.Open(s) == i.Open(s) && j.Granted(s) == i.Granted(s) && Escalated(j, s) == Escalated(i, s)
  {
    forall s | s != b.stepId
      ensures j.Open(s) == i.Open(s) && j.Granted(s) == i.Granted(s) && Escalated(j, s) == Escalated(i, s)
    {
      var n := |i.escalations|;
      assert forall k :: 0 <= k < n ==> j.escalations[k] == i.escalations[k];
      assert j.escalations[n].stepId == b.stepId;
    }
  }

  lemma RaiseLegal(d: Definition, i: Instance, x: Draft) returns (j: Instance)
    requires x.body.EscalationRaised? && LegalRaise(d, i, x.body.stepId, x.body.reason)
    ensures Lands(d, i, [x], j) && OnlyRaised(i, j, if x.body.stepId == "" then {} else {x.body.stepId})
  {
    j := One(d, i, x);
    RaisedRefs(i, j, x.body);
  }

  lemma RaisedChain(i: Instance, m: Instance, j: Instance, a: set<StepId>, b: set<StepId>)
    requires OnlyRaised(i, m, a) && OnlyRaised(m, j, b) && a !! b
    ensures OnlyRaised(i, j, a + b)
  {
  }

  /** The step finished in this wave and may be held for review. */
  ghost predicate Reviewable(d: Definition, i: Instance, s: StepId) {
    && d.Has(s) && s != "" && !i.Open(s) && i.Step(s).status == Completed && DependentsPending(d, i, s)
    && (d.StepOf(s).requiresApproval ==> Escalated(i, s))
  }

  lemma OthersReviewable(d: Definition, i: Instance, m: Instance, rs: seq<StepRun>)
    requires rs != [] && DistinctRuns(rs) && OnlyRaised(i, m, {rs[0].stepId})
    requires forall r :: r in rs ==> Reviewable(d, i, r.stepId)
    ensures forall r :: r in rs[1..] ==> Reviewable(d, m, r.stepId)
  {
    RunIdsSplit(rs);
    assert Reviewable(d, i, rs[0].stepId);
    forall r | r in rs[1..] ensures Reviewable(d, m, r.stepId) {
      assert Reviewable(d, i, r.stepId);
    }
  }

  lemma {:induction false} ReviewsLegal(d: Definition, i: Instance, rs: seq<StepRun>, ids: seq<string>, now: Time)
    returns (j: Instance)
    requires DistinctRuns(rs) && i.status == WfRunning
    requires forall r :: r in rs ==> WantsReview(r)
    requires forall r :: r in rs ==> Reviewable(d, i, r.stepId)
    ensures Lands(d, i, RaiseReviews(rs, ids, now), j) && OnlyRaised(i, j, RunIds(rs))
    decreases |rs|
  {
    if rs == [] {
      Nothing(d, i);
      j := i;
    } else {
      RunIdsSplit(rs);
      assert Reviewable(d, i, rs[0].stepId);
      var x := RaiseReviews(rs, ids, now)[0];
      var m := RaiseLegal(d, i, x);
      OthersReviewable(d, i, m, rs);
      j := ReviewsLegal(d, m, rs[1..], if ids == [] then [] else ids[1..], now);
      Join(d, i, [x], m, RaiseReviews(rs[1..], if ids == [] then [] else ids[1..], now), j);
      RaisedChain(i, m, j, {rs[0].stepId}, RunIds(rs[1..]));
    }
  }

  // --- approval gates ---------------------------------------------------------------

  ghost predicate Gateable(d: Definition, i: Instance, s: StepId) {
    && d.Has(s) && s != "" && !i.Open(s)
    && (i.Step(s).status == Pending || i.Step(s).status == Ready)
    && DepsDone(i, d.StepOf(s))
  }

  lemma GateOneLegal(d: Definition, i: Instance, s: StepId, id: string, now: Time) returns (j: Instance)
    requires Gateable(d, i, s) && i.status == WfRunning
    ensures Lands(d, i, GateOne(d, i, s, id, now), j) && OnlyRaised(i, j, {s})
  {
    var raise := Draft(EscalationRaised(id, s, "explicit_approval", Deadline(d.StepOf(s).approvalTimeout, now),
                                        d.StepOf(s).approvalAutoAction), now);
    if i.Step(s).status == Pending {
      var ready := Draft(StepStatusChanged(s, Pending, Ready), now);
      var m := One(d, i, ready);
      assert OnlyStep(i, m, s);
      j := RaiseLegal(d, m, raise);
      Join(d, i, [ready], m, [raise], j);
    } else {
      j := RaiseLegal(d, i, raise);
      assert GateOne(d, i, s, id, now) == [] + [raise] == [raise];
    }
  }

  lemma OthersGateable(d: Definition, i0: Instance, i: Instance, m: Instance, gates: seq<StepId>)
    requires gates != [] && (forall a, b :: 0 <= a < b < |gates| ==> gates[a] != gates[b])
             && OnlyRaised(i, m, {gates[0]})
    requires forall s :: s in gates ==> Gateable(d, i, s) && i0.Step(s) == i.Step(s)
    ensures forall s :: s in gates[1..] ==> Gateable(d, m, s) && i0.Step(s) == m.Step(s)
  {
    assert Gateable(d, i, gates[0]);
    forall s | s in gates[1..] ensures Gateable(d, m, s) && i0.Step(s) == m.Step(s) {
      assert s in gates && s != gates[0] && Gateable(d, i, s);
    }
  }

  function SetOf(gates: seq<StepId>): set<StepId> {
    set s | s in gates
  }

  lemma SetOfCons(gates: seq<StepId>)
    requires gates != []
    ensures SetOf(gates) == {gates[0]} + SetOf(gates[1..])
  {
  }

  lemma {:induction false} GatesLegal(d: Definition, i0: Instance, i: Instance, gates: seq<StepId>, ids: seq<string>,
                                      now: Time)
    returns (j: Instance)
    requires i.status == WfRunning && (forall a, b :: 0 <= a < b < |gates| ==> gates[a] != gates[b])
    requires forall s :: s in gates ==> d.Has(s)
    requires forall s :: s in gates ==> Gateable(d, i, s) && i0.Step(s) == i.Step(s)
    ensures Lands(d, i, GateDrafts(d, i0, gates, ids, now), j) && OnlyRaised(i, j, SetOf(gates))
    decreases |gates|
  {
    if gates == [] {
      Nothing(d, i);
      j := i;
    } else {
      var s, rest, more := gates[0], gates[1..], if ids == [] then [] else ids[1..];
      assert Gateable(d, i, s);
      var m := GateOneLegal(d, i, s, NewId(ids, 0), now);
      OthersGateable(d, i0, i, m, gates);
      j := GatesLegal(d, i0, m, rest, more, now);
      Join(d, i, GateOne(d, i, s, NewId(ids, 0), now), m, GateDrafts(d, i0, rest, more, now), j);
      assert GateOne(d, i0, s, NewId(ids, 0), now) == GateOne(d, i, s, NewId(ids, 0), now);
      SetOfCons(gates);
      RaisedChain(i, m, j, {s}, SetOf(rest));
    }
  }

  // --- rollback -----------------------------------------------------------------

  lemma {:induction false} UndoneLegal(d: Definition, i: Instance, undone: seq<(StepId, string)>, at: Time)
    returns (j: Instance)
    ensures Lands(d, i, UndoneDrafts(undone, at), j) && SameSteps(i, j)
    decreases |undone|
  {
    if undone == [] {
      Nothing(d, i);
      j := i;
    } else {
      var x := Draft(SideEffectCompensated(undone[0].0, undone[0].1), at);
      var m := QuietLegal(d, i, x);
      j := UndoneLegal(d, m, undone[1..], at);
      Join(d, i, [x], m, UndoneDrafts(undone[1..], at), j);
    }
  }

  ghost predicate OnlyCompensated(i: Instance, j: Instance) {
    && SameOutside(i, j) && j.cost == i.cost
    && forall s :: j.Step(s) == i.Step(s)
                   || (i.Step(s).status == Completed && j.Step(s) == i.Step(s).(status := Compensated))
  }

  lemma CompensateOne(d: Definition, i: Instance, x: Draft) returns (j: Instance)
    requires x.body.StepCompensated? && i.status == WfRunning && d.Has(x.body.stepId)
    requires i.Step(x.body.stepId).status == Completed
    ensures Lands(d, i, [x], j) && OnlyStep(i, j, x.body.stepId) && j.cost == i.cost
    ensures j.Step(x.body.stepId) == i.Step(x.body.stepId).(status := Compensated)
  {
    j := One(d, i, x);
  }

  lemma CompensatedChain(i: Instance, m: Instance, j: Instance, s: StepId)
    requires OnlyStep(i, m, s) && i.Step(s).status == Completed && m.Step(s) == i.Step(s).(status := Compensated)
    requires m.cost == i.cost && OnlyCompensated(m, j)
    ensures OnlyCompensated(i, j)
  {
  }

  lemma {:induction false} CompensateLegal(d: Definition, i0: Instance, i: Instance, ws: seq<WorkflowStep>, at: Time)
    returns (j: Instance)
    requires i.status == WfRunning
    requires forall a, b :: 0 <= a < b < |ws| ==> ws[a].stepId != ws[b].stepId
    requires forall k :: 0 <= k < |ws| ==> d.Has(ws[k].stepId) && i0.Step(ws[k].stepId) == i.Step(ws[k].stepId)
    ensures Lands(d, i, CompensateDrafts(i0, ws, at), j) && OnlyCompensated(i, j)
    decreases |ws|
  {
    if ws == [] {
      Nothing(d, i);
      j := i;
    } else {
      var w, rest := ws[|ws| - 1], ws[..|ws| - 1];
      if Compensable(i0, w) {
        var x := Draft(StepCompensated(w.stepId, w.compensationAction.value), at);
        var m := CompensateOne(d, i, x);
        j := CompensateLegal(d, i0, m, rest, at);
        Join(d, i, [x], m, CompensateDrafts(i0, rest, at), j);
        CompensatedChain(i, m, j, w.stepId);
      } else {
        j := CompensateLegal(d, i0, i, rest, at);
        assert CompensateDrafts(i0, ws, at) == [] + CompensateDrafts(i0, rest, at) == CompensateDrafts(i0, rest, at);
      }
    }
  }

  // --- workflow transitions ---------------------------------------------------------

  lemma MoveLegal(d: Definition, i: Instance, frm: WorkflowStatus, to: WorkflowStatus, at: Time) returns (j: Instance)
    requires i.status == frm && WorkflowTransitionAllowed(frm, to)
    requires (to == WfCompleted ==> AllSettled(d, i)) && (to == WfWaiting ==> i.RunningSteps() == {})
    ensures Lands(d, i, [Moved(frm, to, at)], j)
    ensures j.status == to && j.steps == i.steps && j.escalations == i.escalations && j.cost == i.cost
            && j.budgetLimit == i.budgetLimit
  {
    j := One(d, i, Moved(frm, to, at));
  }
}
