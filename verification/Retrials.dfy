/** Over an undisturbed drive a step is given up only when its policy says so. */
module Retrials {
  import opened Domain
  import opened Events
  import opened Fold
  import opened FoldLaws
  import opened Planner
  import opened Driver
  import opened Legality
  import opened Batches
  import opened Phases
  import opened Fields
  import opened Waves
  import opened Traces

  predicate Fails(b: EventBody, s: StepId) {
    b.StepFailed? && b.stepId == s
  }

  /** The attempt and the verdict of the step's last failure in the batch. */
  function LastFail(ds: seq<Draft>, s: StepId): Option<(nat, bool)> {
    if ds == [] then None
    else
      var b := ds[|ds| - 1].body;
      if Fails(b, s) then Some((b.attempt, b.retryable)) else LastFail(ds[..|ds| - 1], s)
  }

  lemma {:induction false} LastFailConcat(a: seq<Draft>, b: seq<Draft>, s: StepId)
    ensures LastFail(a + b, s) == if LastFail(b, s).Some? then LastFail(b, s) else LastFail(a, s)
    decreases |b|
  {
    if b == [] {
      assert a + b == a;
    } else {
      assert (a + b)[..|a + b| - 1] == a + b[..|b| - 1];
      LastFailConcat(a, b[..|b| - 1], s);
    }
  }

  // --- batches in which nothing fails -----------------------------------------------------------------

  ghost predicate NoFail(ds: seq<Draft>) {
    forall k :: 0 <= k < |ds| ==> !ds[k].body.StepFailed?
  }

  lemma {:induction false} NoFailMeans(ds: seq<Draft>, s: StepId)
    requires NoFail(ds)
    ensures LastFail(ds, s) == None
    decreases |ds|
  {
    if ds != [] { NoFailMeans(ds[..|ds| - 1], s); }
  }

  lemma {:induction false} RecoverPlain(stale: seq<StepId>, at: Time)
    ensures NoFail(RecoverDrafts(stale, at))
    decreases |stale|
  {
    if stale != [] { RecoverPlain(stale[1..], at); }
  }

  lemma {:induction false} StartPlain(i: Instance, dispatch: seq<Attempt>, worker: string, at: Time)
    ensures NoFail(StartDrafts(i, dispatch, worker, at))
    decreases |dispatch|
  {
    if dispatch != [] { StartPlain(i, dispatch[1..], worker, at); }
  }

  lemma {:induction false} RetryPlain(d: Definition, runs: seq<StepRun>, now: Time)
    requires forall r :: r in runs ==> d.Has(r.stepId)
    ensures NoFail(RetryDrafts(d, runs, now))
    decreases |runs|
  {
    if runs != [] { RetryPlain(d, runs[1..], now); }
  }

  lemma {:induction false} RaisePlain(rs: seq<StepRun>, ids: seq<string>, now: Time)
    requires forall r :: r in rs ==> WantsReview(r)
    ensures NoFail(RaiseReviews(rs, ids, now))
    decreases |rs|
  {
    if rs != [] { RaisePlain(rs[1..], if ids == [] then [] else ids[1..], now); }
  }

  lemma {:induction false} GatePlain(d: Definition, i: Instance, gates: seq<StepId>, ids: seq<string>, now: Time)
    requires forall s :: s in gates ==> d.Has(s)
    ensures NoFail(GateDrafts(d, i, gates, ids, now))
    decreases |gates|
  {
    if gates != [] { GatePlain(d, i, gates[1..], if ids == [] then [] else ids[1..], now); }
  }

  lemma {:induction false} UndonePlain(undone: seq<(StepId, string)>, at: Time)
    ensures NoFail(UndoneDrafts(undone, at))
    decreases |undone|
  {
    if undone != [] { UndonePlain(undone[1..], at); }
  }

  lemma {:induction false} CompensatePlain(i: Instance, ws: seq<WorkflowStep>, at: Time)
    ensures NoFail(CompensateDrafts(i, ws, at))
    decreases |ws|
  {
    if ws != [] { CompensatePlain(i, ws[..|ws| - 1], at); }
  }

  lemma PolicyPlain(d: Definition, i: Instance, s: StepId, undo: Undo, id: string, now: Time)
    ensures NoFail(PolicyDrafts(d, i, s, undo, id, now))
  {
    CompensatePlain(i, d.steps, now);
    if undo.Undone? { UndonePlain(undo.effects, now); }
  }

  lemma PlannedPlain(d: Definition, i: Instance, worker: string, inp: Input)
    ensures var mv := Planned(d, i, worker, inp); !mv.Fault? ==> NoFail(mv.drafts)
  {
    var p := PlanOf(d, i, inp.now);
    if p.terminalFailure.Some? {
      PolicyPlain(d, i, p.terminalFailure.value, inp.undo, NewId(inp.ids, 0), inp.now);
    }
    if forall s :: s in p.approvalNeeded ==> d.Has(s) { GatePlain(d, i, p.approvalNeeded, inp.ids, inp.now); }
    StartPlain(i, p.dispatch, worker, inp.now);
  }

  /** Only recording a wave's outcomes fails a step. */
  lemma MovePlain(d: Definition, i: Instance, ph: Phase, worker: string, inp: Input)
    requires Fits(d, i, ph, inp) && !ph.Executing?
    ensures var mv := NextMove(d, i, ph, worker, inp); !mv.Fault? ==> NoFail(mv.drafts)
  {
    match ph {
      case Recovering => RecoverPlain(inp.stale, inp.now);
      case Looping => PlannedPlain(d, i, worker, inp);
      case Scheduling(runs) => RetryPlain(d, runs, inp.now);
      case Reviewing(runs) => RaisePlain(Reviewed(runs), inp.ids, inp.now);
      case Billing(_) =>
    }
  }

  // --- steps given up ---------------------------------------------------------------------------------

  predicate GivenUp(i: Instance, s: StepId) {
    i.Step(s).status == Failed && i.Step(s).nextRetryAt.None?
  }

  lemma GivenUpBefore(d: Definition, i: Instance, x: Draft, s: StepId)
    requires Legal(d, i, x.body) && !x.body.StepFailed?
    ensures Advance(Some(d), i, x).Ok? && (GivenUp(Advance(Some(d), i, x).value, s) ==> GivenUp(i, s))
  {
    LegalShape(d, i, x.body, x.at);
  }

  /** A batch in which nothing fails gives no step up. */
  lemma {:induction false} PlainGivesNoneUp(d: Definition, i: Instance, ds: seq<Draft>, j: Instance, s: StepId)
    requires Lands(d, i, ds, j) && NoFail(ds)
    ensures GivenUp(j, s) ==> GivenUp(i, s)
    decreases |ds|
  {
    if ds != [] {
      GivenUpBefore(d, i, ds[0], s);
      PlainGivesNoneUp(d, Advance(Some(d), i, ds[0]).value, ds[1..], j, s);
    }
  }

  // --- outcomes ------------------------------------------------------------------------------------------

  lemma {:induction false} PlainRecords(s: StepId, attempt: nat, recs: seq<Recording>, at: Time)
    ensures NoFail(RecordingDrafts(s, attempt, recs, at))
    decreases |recs|
  {
    if recs != [] { PlainRecords(s, attempt, recs[1..], at); }
  }

  lemma {:induction false} PlainChargeDrafts(s: StepId, charges: seq<Charge>, at: Time)
    ensures NoFail(ChargeDrafts(s, charges, at))
    decreases |charges|
  {
    if charges != [] { PlainChargeDrafts(s, charges[1..], at); }
  }

  lemma {:induction false} PlainEffects(s: StepId, effects: seq<EffectOutcome>, at: Time)
    ensures NoFail(EffectDrafts(s, effects, at))
    decreases |effects|
  {
    if effects != [] { PlainEffects(s, effects[1..], at); }
  }

  function FailOf(r: StepRun): Option<(nat, bool)> {
    if r.outcome.Failure? then Some((r.attempt, r.outcome.retryable)) else None
  }

  lemma OutcomeFails(r: StepRun, at: Time, s: StepId)
    ensures LastFail(OutcomeOne(r, at), s) == if s == r.stepId then FailOf(r) else None
  {
    var a := RecordingDrafts(r.stepId, r.attempt, r.outcome.recordings, at)
             + ChargeDrafts(r.stepId, r.outcome.charges, at) + EffectDrafts(r.stepId, r.outcome.effects, at);
    PlainRecords(r.stepId, r.attempt, r.outcome.recordings, at);
    PlainChargeDrafts(r.stepId, r.outcome.charges, at);
    PlainEffects(r.stepId, r.outcome.effects, at);
    assert NoFail(a);
    NoFailMeans(a, s);
    assert OutcomeOne(r, at)[..|OutcomeOne(r, at)| - 1] == a;
  }

  lemma {:induction false} OutcomesFail(runs: seq<StepRun>, at: Time, s: StepId)
    requires DistinctRuns(runs)
    ensures s !in RunIds(runs) ==> LastFail(OutcomeDrafts(runs, at), s) == None
    ensures forall r :: r in runs && r.stepId == s ==> LastFail(OutcomeDrafts(runs, at), s) == FailOf(r)
    decreases |runs|
  {
    if runs != [] {
      TailIds(runs);
      OutcomeFails(runs[0], at, s);
      OutcomesFail(runs[1..], at, s);
      LastFailConcat(OutcomeOne(runs[0], at), OutcomeDrafts(runs[1..], at), s);
      forall r | r in runs && r.stepId == s ensures r == runs[0] || r in runs[1..] {
      }
      if s == runs[0].stepId {
        forall r | r in runs[1..] ensures r.stepId != s {
          assert r.stepId in RunIds(runs[1..]);
        }
      } else if s in RunIds(runs) {
        var k :| 0 <= k < |runs| && runs[k].stepId == s;
        assert runs[k] == runs[1..][k - 1];
      }
    }
  }

  // --- the account ----------------------------------------------------------------------------------------

  /** The step's last failure may not be retried, or its attempts have used up the policy. */
  ghost predicate Justified(d: Definition, ds: seq<Draft>, s: StepId)
    requires d.Has(s)
  {
    LastFail(ds, s).Some? && (!LastFail(ds, s).value.1 || LastFail(ds, s).value.0 > d.StepOf(s).retry.maxRetries)
  }

  predicate Closing(ph: Option<Phase>) {
    ph.Some? && (ph.value.Billing? || ph.value.Scheduling?)
  }

  /** Every step the drive has failed and not put back is given up with reason, or is still in hand. */
  ghost predicate Accounts(d: Definition, ds: seq<Draft>, i: Instance, ph: Option<Phase>) {
    && (forall s :: d.Has(s) && GivenUp(i, s) && LastFail(ds, s).Some? ==>
          Justified(d, ds, s) || (Closing(ph) && s in RunIds(ph.value.runs)))
    && (Closing(ph) ==> forall r :: r in ph.value.runs && r.outcome.Failure? ==> LastFail(ds, r.stepId) == FailOf(r))
  }

  lemma PlainAccounts(d: Definition, ds: seq<Draft>, i: Instance, ph: Option<Phase>, es: seq<Draft>, j: Instance,
                      next: Option<Phase>)
    requires Accounts(d, ds, i, ph) && Lands(d, i, es, j) && NoFail(es)
    requires if Closing(ph) then Closing(next) && next.value.runs == ph.value.runs else !Closing(next)
    ensures Accounts(d, ds + es, j, next)
  {
    forall s ensures LastFail(ds + es, s) == LastFail(ds, s) && (GivenUp(j, s) ==> GivenUp(i, s)) {
      LastFailConcat(ds, es, s);
      NoFailMeans(es, s);
      PlainGivesNoneUp(d, i, es, j, s);
    }
  }

  lemma OutcomesAccount(d: Definition, ds: seq<Draft>, i: Instance, runs: seq<StepRun>, at: Time, j: Instance)
    requires Accounts(d, ds, i, None) && DistinctRuns(runs) && WaveConcluded(i, j, runs)
    ensures Accounts(d, ds + OutcomeDrafts(runs, at), j, Some(Billing(runs)))
  {
    var es := OutcomeDrafts(runs, at);
    forall s | s !in RunIds(runs) ensures LastFail(ds + es, s) == LastFail(ds, s) {
      LastFailConcat(ds, es, s);
      OutcomesFail(runs, at, s);
    }
    forall r | r in runs && r.outcome.Failure? ensures LastFail(ds + es, r.stepId) == FailOf(r) {
      LastFailConcat(ds, es, r.stepId);
      OutcomesFail(runs, at, r.stepId);
    }
  }

  lemma RetryAccounts(d: Definition, ds: seq<Draft>, i: Instance, runs: seq<StepRun>, now: Time, j: Instance)
    requires Accounts(d, ds, i, Some(Scheduling(runs))) && WaveDone(d, i, runs)
    requires (forall r :: r in runs ==> AwaitsRetry(d, i, r)) && Lands(d, i, RetryDrafts(d, runs, now), j)
    ensures Accounts(d, ds + RetryDrafts(d, runs, now), j, Some(Reviewing(runs)))
  {
    var es := RetryDrafts(d, runs, now);
    RetryPlain(d, runs, now);
    forall s ensures LastFail(ds + es, s) == LastFail(ds, s) && (GivenUp(j, s) ==> GivenUp(i, s)) {
      LastFailConcat(ds, es, s);
      NoFailMeans(es, s);
      PlainGivesNoneUp(d, i, es, j, s);
    }
    forall s | d.Has(s) && GivenUp(j, s) && LastFail(ds, s).Some? ensures Justified(d, ds, s) {
      if s in RunIds(runs) { RetryJustifies(d, ds, i, runs, now, j, s); }
    }
  }

  lemma RetryJustifies(d: Definition, ds: seq<Draft>, i: Instance, runs: seq<StepRun>, now: Time, j: Instance,
                       s: StepId)
    requires Accounts(d, ds, i, Some(Scheduling(runs))) && WaveDone(d, i, runs) && s in RunIds(runs) && d.Has(s)
    requires (forall r :: r in runs ==> AwaitsRetry(d, i, r)) && Lands(d, i, RetryDrafts(d, runs, now), j)
    requires GivenUp(j, s) && GivenUp(i, s)
    ensures Justified(d, ds, s)
  {
    var k :| 0 <= k < |runs| && runs[k].stepId == s;
    var r := runs[k];
    assert r in runs && AwaitsRetry(d, i, r);
    if r.outcome.Failure? { RetriesMean(d, i, runs, now, j, r); }
  }

  // --- along a drive -------------------------------------------------------------------------------------

  ghost predicate Going(d: Definition, i: Instance, ph: Phase) {
    Inv(d, i) && Boundary(d, i) && PhaseOk(d, i, ph)
  }

  lemma ExecuteAccounts(d: Definition, ds: seq<Draft>, i: Instance, dispatch: seq<Attempt>, inp: Input, j: Instance)
    requires Valid(d) && Going(d, i, Executing(dispatch)) && |inp.outcomes| == |dispatch|
    requires Accounts(d, ds, i, Some(Executing(dispatch)))
    requires Lands(d, i, OutcomeDrafts(Runs(dispatch, inp.outcomes), inp.now), j)
    ensures var runs := Runs(dispatch, inp.outcomes);
            Accounts(d, ds + OutcomeDrafts(runs, inp.now), j, Some(Billing(runs)))
  {
    var runs := Runs(dispatch, inp.outcomes);
    RunsOfWave(d, i, dispatch, inp.outcomes);
    var k := OutcomesLegal(d, i, runs, inp.now);
    OutcomesAccount(d, ds, i, runs, inp.now, j);
  }

  lemma MoveAccounts(d: Definition, ds: seq<Draft>, i: Instance, ph: Phase, worker: string, inp: Input, j: Instance)
    requires Valid(d) && Going(d, i, ph) && Fits(d, i, ph, inp) && Accounts(d, ds, i, Some(ph))
    requires var mv := NextMove(d, i, ph, worker, inp); !mv.Fault? && Lands(d, i, mv.drafts, j)
    ensures var mv := NextMove(d, i, ph, worker, inp);
            Accounts(d, ds + mv.drafts, j, if mv.Append? then Some(mv.next) else None)
  {
    match ph {
      case Executing(dispatch) => ExecuteAccounts(d, ds, i, dispatch, inp, j);
      case Scheduling(runs) => RetryAccounts(d, ds, i, runs, inp.now, j);
      case _ =>
        var mv := NextMove(d, i, ph, worker, inp);
        MovePlain(d, i, ph, worker, inp);
        QuietNext(d, i, ph, worker, inp);
        PlainAccounts(d, ds, i, Some(ph), mv.drafts, j, if mv.Append? then Some(mv.next) else None);
    }
  }

  lemma QuietNext(d: Definition, i: Instance, ph: Phase, worker: string, inp: Input)
    requires Fits(d, i, ph, inp) && !ph.Executing? && !ph.Scheduling?
    ensures var mv := NextMove(d, i, ph, worker, inp);
            if ph.Billing? then mv.Append? && mv.next == Scheduling(ph.runs)
            else mv.Append? ==> !Closing(Some(mv.next))
  {
  }

  lemma LegAccounts(d: Definition, ds: seq<Draft>, i: Instance, ph: Phase, worker: string, inp: Input, x: Leg)
    requires Valid(d) && Going(d, i, ph) && Accounts(d, ds, i, Some(ph)) && x == OneLeg(d, i, ph, worker, inp)
    ensures Accounts(d, ds + x.written, x.inst, x.phase) && (x.phase.Some? ==> Going(d, x.inst, x.phase.value))
  {
    if Fits(d, i, ph, inp) {
      var j := MoveSound(d, i, ph, worker, inp);
      var mv := NextMove(d, i, ph, worker, inp);
      AllLegalKeepsInv(d, i, mv.drafts);
      MoveAccounts(d, ds, i, ph, worker, inp, j);
    } else {
      assert ds + [] == ds;
    }
  }

  lemma {:induction false} TraceAccounts(d: Definition, ds: seq<Draft>, i: Instance, ph: Phase, worker: string,
                                         inps: seq<Input>)
    requires Valid(d) && Going(d, i, ph) && Accounts(d, ds, i, Some(ph))
    ensures var x := Trace(d, i, ph, worker, inps); Accounts(d, ds + x.written, x.inst, x.phase)
    decreases |inps|, 0
  {
    if inps == [] {
      assert ds + [] == ds;
    } else {
      var x := OneLeg(d, i, ph, worker, inps[0]);
      LegAccounts(d, ds, i, ph, worker, inps[0], x);
      ContinueAccounts(d, ds, x, worker, inps[1..]);
    }
  }

  lemma {:induction false} ContinueAccounts(d: Definition, ds: seq<Draft>, x: Leg, worker: string, inps: seq<Input>)
    requires Valid(d) && Accounts(d, ds + x.written, x.inst, x.phase)
             && (x.phase.Some? ==> Going(d, x.inst, x.phase.value))
    ensures var y := Continue(d, x, worker, inps); Accounts(d, ds + y.written, y.inst, y.phase)
    decreases |inps|, 1
  {
    if x.phase.Some? {
      var y := Trace(d, x.inst, x.phase.value, worker, inps);
      TraceAccounts(d, ds + x.written, x.inst, x.phase.value, worker, inps);
      Assoc(ds, x.written, y.written);
    }
  }

  lemma NothingFailedYet(d: Definition, i: Instance)
    ensures Accounts(d, [], i, Some(Recovering))
  {
  }

  lemma DriveAccounts(d: Definition, i: Instance, worker: string, inps: seq<Input>, x: Leg)
    requires Valid(d) && Inv(d, i) && Boundary(d, i) && x == Trace(d, i, Recovering, worker, inps)
    ensures Accounts(d, x.written, x.inst, x.phase)
  {
    NothingFailedYet(d, i);
    TraceAccounts(d, [], i, Recovering, worker, inps);
    assert [] + x.written == x.written;
  }

  /** When an undisturbed drive has closed its waves, a step that failed in it stands FAILED without a retry only
      if its last failure could not be retried or its attempts had used up the policy. */
  lemma GivesUpOnlyWhenSpent(d: Definition, i: Instance, worker: string, inps: seq<Input>, x: Leg, s: StepId)
    requires Valid(d) && Inv(d, i) && Boundary(d, i) && d.Has(s) && x == Trace(d, i, Recovering, worker, inps)
    requires !Closing(x.phase) && x.inst.Step(s).status == Failed && x.inst.Step(s).nextRetryAt.None?
    ensures LastFail(x.written, s).Some? ==>
              || !LastFail(x.written, s).value.1
              || LastFail(x.written, s).value.0 > d.StepOf(s).retry.maxRetries
  {
    DriveAccounts(d, i, worker, inps, x);
  }
}
