/** Why a drive ends: every wave uses up one of the dispatches its steps have left. */
module Convergence {
  import opened Domain
  import opened Events
  import opened Fold
  import opened FoldLaws
  import opened Planner
  import opened Driver
  import opened Legality
  import opened Batches
  import opened Phases
  import opened History

  function Minus(x: nat, y: nat): nat {
    if x > y then x - y else 0
  }

  /** How many more times a drive may dispatch the step. */
  function Dispatches(st: StepState, retries: nat): nat {
    match st.status
    case Pending => 1 + Minus(retries, st.attempts)
    case Ready => 1 + Minus(retries, st.attempts)
    case Running => Minus(retries + 1, st.attempts)
    case Failed => Minus(retries + 1, st.attempts)
    case _ => 0
  }

  function DispatchesAt(d: Definition, i: Instance, k: nat): nat
    requires k < |d.steps|
  {
    Dispatches(i.Step(d.steps[k].stepId), d.steps[k].retry.maxRetries)
  }

  function Remaining(d: Definition, i: Instance, n: nat): nat
    requires n <= |d.steps|
  {
    if n == 0 then 0 else Remaining(d, i, n - 1) + DispatchesAt(d, i, n - 1)
  }

  /** One dispatch and its retries, for every step. */
  function Allowance(d: Definition, n: nat): nat
    requires n <= |d.steps|
  {
    if n == 0 then 0 else Allowance(d, n - 1) + 1 + d.steps[n - 1].retry.maxRetries
  }

  lemma {:induction false} RemainingFitsAllowance(d: Definition, i: Instance, n: nat)
    requires n <= |d.steps|
    ensures Remaining(d, i, n) <= Allowance(d, n)
  {
    if n > 0 { RemainingFitsAllowance(d, i, n - 1); }
  }

  ghost predicate NoMore(d: Definition, i: Instance, j: Instance) {
    forall k :: 0 <= k < |d.steps| ==> DispatchesAt(d, j, k) <= DispatchesAt(d, i, k)
  }

  lemma {:induction false} RemainingFalls(d: Definition, i: Instance, j: Instance, n: nat)
    requires n <= |d.steps| && NoMore(d, i, j)
    ensures Remaining(d, j, n) <= Remaining(d, i, n)
    ensures (exists k :: 0 <= k < n && DispatchesAt(d, j, k) < DispatchesAt(d, i, k)) ==>
              Remaining(d, j, n) < Remaining(d, i, n)
  {
    if n > 0 { RemainingFalls(d, i, j, n - 1); }
  }

  // --- events a wave writes -------------------------------------------------------------

  predicate QuietOne(b: EventBody) {
    (b.StepStatusChanged? ==> b.stFrom == Pending) && !b.WorkflowRequeued?
  }

  /** Nothing that puts a running, waiting or failed step back to READY: that is for recovery, the
      controller and requeue. */
  predicate Quiet(ds: seq<Draft>) {
    forall k :: 0 <= k < |ds| ==> QuietOne(ds[k].body)
  }

  lemma QuietAfter(d: Definition, i: Instance, x: Draft, k: nat)
    requires Valid(d) && k < |d.steps| && Legal(d, i, x.body) && QuietOne(x.body)
    ensures Advance(Some(d), i, x).Ok? && DispatchesAt(d, After(d, i, x), k) <= DispatchesAt(d, i, k)
  {
    StepAfter(d, i, x, d.steps[k].stepId);
  }

  /** No legal event of a wave gives a step a dispatch back. */
  lemma {:induction false} QuietNoMore(d: Definition, i: Instance, ds: seq<Draft>, j: Instance, k: nat)
    requires Valid(d) && Lands(d, i, ds, j) && Quiet(ds) && k < |d.steps|
    ensures DispatchesAt(d, j, k) <= DispatchesAt(d, i, k)
    decreases |ds|
  {
    if ds != [] {
      QuietAfter(d, i, ds[0], k);
      QuietNoMore(d, After(d, i, ds[0]), ds[1..], j, k);
    }
  }

  lemma QuietAll(d: Definition, i: Instance, ds: seq<Draft>, j: Instance)
    requires Valid(d) && Lands(d, i, ds, j) && Quiet(ds)
    ensures NoMore(d, i, j)
  {
    forall k | 0 <= k < |d.steps| ensures DispatchesAt(d, j, k) <= DispatchesAt(d, i, k) {
      QuietNoMore(d, i, ds, j, k);
    }
  }

  lemma {:induction false} QuietStarts(i: Instance, dispatch: seq<Attempt>, worker: string, at: Time)
    ensures Quiet(StartDrafts(i, dispatch, worker, at))
    decreases |dispatch|
  {
    if dispatch != [] { QuietStarts(i, dispatch[1..], worker, at); }
  }

  lemma {:induction false} QuietRecordings(s: StepId, attempt: nat, recs: seq<Recording>, at: Time)
    ensures Quiet(RecordingDrafts(s, attempt, recs, at))
    decreases |recs|
  {
    if recs != [] { QuietRecordings(s, attempt, recs[1..], at); }
  }

  lemma {:induction false} QuietCharges(s: StepId, charges: seq<Charge>, at: Time)
    ensures Quiet(ChargeDrafts(s, charges, at))
    decreases |charges|
  {
    if charges != [] { QuietCharges(s, charges[1..], at); }
  }

  lemma {:induction false} QuietEffects(s: StepId, effects: seq<EffectOutcome>, at: Time)
    ensures Quiet(EffectDrafts(s, effects, at))
    decreases |effects|
  {
    if effects != [] { QuietEffects(s, effects[1..], at); }
  }

  lemma {:induction false} QuietOutcomes(runs: seq<StepRun>, at: Time)
    ensures Quiet(OutcomeDrafts(runs, at))
    decreases |runs|
  {
    if runs != [] {
      QuietOutcome(runs[0], at);
      QuietOutcomes(runs[1..], at);
    }
  }

  lemma QuietOutcome(r: StepRun, at: Time)
    ensures Quiet(OutcomeOne(r, at))
  {
    QuietRecordings(r.stepId, r.attempt, r.outcome.recordings, at);
    QuietCharges(r.stepId, r.outcome.charges, at);
    QuietEffects(r.stepId, r.outcome.effects, at);
  }

  lemma {:induction false} QuietRetries(d: Definition, runs: seq<StepRun>, now: Time)
    requires forall r :: r in runs ==> d.Has(r.stepId)
    ensures Quiet(RetryDrafts(d, runs, now))
    decreases |runs|
  {
    if runs != [] { QuietRetries(d, runs[1..], now); }
  }

  lemma {:induction false} QuietRaises(rs: seq<StepRun>, ids: seq<string>, now: Time)
    requires forall r :: r in rs ==> WantsReview(r)
    ensures Quiet(RaiseReviews(rs, ids, now))
    decreases |rs|
  {
    if rs != [] { QuietRaises(rs[1..], if ids == [] then [] else ids[1..], now); }
  }

  /** The moves of a wave, and the move that starts one, give no dispatch back. */
  lemma WaveMoveQuiet(d: Definition, i: Instance, ph: Phase, worker: string, inp: Input)
    requires Fits(d, i, ph, inp) && !ph.Recovering? && !ph.Looping?
    ensures Quiet(NextMove(d, i, ph, worker, inp).drafts)
  {
    match ph {
      case Executing(dispatch) => QuietOutcomes(Runs(dispatch, inp.outcomes), inp.now);
      case Billing(_) =>
      case Scheduling(runs) => QuietRetries(d, runs, inp.now);
      case Reviewing(runs) => QuietRaises(Reviewed(runs), inp.ids, inp.now);
    }
  }

  // --- a dispatch is used up ----------------------------------------------------------------

  /** Starting a planned step costs it a dispatch. */
  lemma StartUsesOne(d: Definition, i: Instance, j: Instance, now: Time, c: Attempt) returns (k: nat)
    requires Valid(d) && Inv(d, i) && Startable(d, i, now, c) && Started(j, c)
    ensures k < |d.steps| && DispatchesAt(d, j, k) < DispatchesAt(d, i, k)
  {
    k :| 0 <= k < |d.steps| && c.0 == d.steps[k].stepId && Candidate(i, d.steps[k], now)
         && c.1 == i.Step(c.0).attempts + 1;
    assert StepInv(d, i, d.steps[k]);
    OneLess(i.Step(c.0), j.Step(c.0), d.steps[k].retry.maxRetries);
  }

  lemma OneLess(before: StepState, after: StepState, retries: nat)
    requires before.status == Pending || before.status == Ready
             || (before.status == Failed && before.attempts <= retries)
    requires after.status == Running && after.attempts == before.attempts + 1
    ensures Dispatches(after, retries) < Dispatches(before, retries)
  {
  }

  lemma DispatchUsesUp(d: Definition, i: Instance, worker: string, now: Time) returns (j: Instance)
    requires Valid(d) && Inv(d, i) && Boundary(d, i) && i.status == WfRunning && i.RunningSteps() == {}
    requires PlanOf(d, i, now).dispatch != []
    ensures var dispatch := PlanOf(d, i, now).dispatch;
            && Lands(d, i, StartDrafts(i, dispatch, worker, now), j) && Boundary(d, j)
            && PhaseOk(d, j, Executing(dispatch))
    ensures NoMore(d, i, j) && Remaining(d, j, |d.steps|) < Remaining(d, i, |d.steps|)
  {
    var dispatch := PlanOf(d, i, now).dispatch;
    j := DispatchSound(d, i, worker, now);
    QuietStarts(i, dispatch, worker, now);
    QuietAll(d, i, StartDrafts(i, dispatch, worker, now), j);
    DispatchMeans(d, i, now);
    assert dispatch[0] in dispatch;
    var k := StartUsesOne(d, i, j, now, dispatch[0]);
    RemainingFalls(d, i, j, |d.steps|);
  }

  /** A move inside a wave. */
  lemma WaveMove(d: Definition, i: Instance, ph: Phase, worker: string, inp: Input) returns (j: Instance)
    requires Valid(d) && Inv(d, i) && Boundary(d, i) && PhaseOk(d, i, ph) && Fits(d, i, ph, inp) && !ph.Recovering?
             && !ph.Looping?
    ensures var mv := NextMove(d, i, ph, worker, inp);
            && mv.Append? && Lands(d, i, mv.drafts, j) && Inv(d, j) && Boundary(d, j) && PhaseOk(d, j, mv.next)
            && Remaining(d, j, |d.steps|) <= Remaining(d, i, |d.steps|)
  {
    j := MoveSound(d, i, ph, worker, inp);
    var mv := NextMove(d, i, ph, worker, inp);
    AllLegalKeepsInv(d, i, mv.drafts);
    WaveMoveQuiet(d, i, ph, worker, inp);
    QuietAll(d, i, mv.drafts, j);
    RemainingFalls(d, i, j, |d.steps|);
  }
}
