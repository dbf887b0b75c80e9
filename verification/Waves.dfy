/** What the batches of a wave leave in the projection: attempts started, outcomes recorded, retries set. */
module Waves {
  import opened Domain
  import opened Events
  import opened Fold
  import opened FoldLaws
  import opened Planner
  import opened Driver
  import opened Legality
  import opened Batches
  import opened Fields

  // --- batches that name some steps only -----------------------------------------------------------

  predicate Names(x: Draft, ids: set<StepId>) {
    Touched(x.body).Some? ==> Touched(x.body).value in ids
  }

  ghost predicate AllName(ds: seq<Draft>, ids: set<StepId>) {
    forall k :: 0 <= k < |ds| ==> Names(ds[k], ids)
  }

  /** Fields of a step no event of the batch names are not written. */
  lemma {:induction false} UnnamedIsSilent(f: Field, ds: seq<Draft>, ids: set<StepId>)
    requires !OnTheInstance(f) && f.step !in ids && AllName(ds, ids)
    ensures Final(f, ds) == None
    decreases |ds|
  {
    if ds != [] {
      var front, x := ds[..|ds| - 1], ds[|ds| - 1];
      assert Names(x, ids) && forall k :: 0 <= k < |front| ==> front[k] == ds[k];
      UnnamedIsSilent(f, front, ids);
    }
  }

  lemma NamesJoin(a: seq<Draft>, b: seq<Draft>, ids: set<StepId>)
    requires AllName(a, ids) && AllName(b, ids)
    ensures AllName(a + b, ids)
  {
  }

  // --- retries --------------------------------------------------------------------------------------

  /** When the step is to be tried again: after its backoff if the failure may be retried and retries are left. */
  function RetryTime(w: WorkflowStep, r: StepRun, now: Time): Option<Time> {
    if r.outcome.Failure? && r.outcome.retryable && r.attempt <= w.retry.maxRetries
    then Some(now + BackoffDelay(w.retry, r.attempt)) else None
  }

  function HeadRetry(d: Definition, r: StepRun, now: Time): seq<Draft>
    requires d.Has(r.stepId)
  {
    var at := RetryTime(d.StepOf(r.stepId), r, now);
    if at.Some? then [Draft(StepRetryScheduled(r.stepId, r.attempt + 1, at.value), now)] else []
  }

  lemma RetryCons(d: Definition, runs: seq<StepRun>, now: Time)
    requires runs != [] && forall r :: r in runs ==> d.Has(r.stepId)
    ensures RetryDrafts(d, runs, now) == HeadRetry(d, runs[0], now) + RetryDrafts(d, runs[1..], now)
  {
  }

  lemma {:induction false} RetriesName(d: Definition, runs: seq<StepRun>, now: Time)
    requires forall r :: r in runs ==> d.Has(r.stepId)
    ensures AllName(RetryDrafts(d, runs, now), RunIds(runs))
    decreases |runs|
  {
    if runs != [] {
      RetryCons(d, runs, now);
      RetriesName(d, runs[1..], now);
      TailIds(runs);
    }
  }

  lemma TailIds(runs: seq<StepRun>)
    requires runs != []
    ensures runs[0].stepId in RunIds(runs) && RunIds(runs[1..]) <= RunIds(runs)
    ensures DistinctRuns(runs) ==> runs[0].stepId !in RunIds(runs[1..]) && DistinctRuns(runs[1..])
  {
    forall s | s in RunIds(runs[1..]) ensures s in RunIds(runs) {
      var k :| 0 <= k < |runs[1..]| && runs[1..][k].stepId == s;
      assert runs[k + 1].stepId == s;
    }
  }

  lemma {:induction false} RetriesLeave(d: Definition, runs: seq<StepRun>, now: Time, r: StepRun)
    requires DistinctRuns(runs) && (forall q :: q in runs ==> d.Has(q.stepId)) && r in runs
    ensures var at := RetryTime(d.StepOf(r.stepId), r, now);
            Final(RetryOf(r.stepId), RetryDrafts(d, runs, now)) == if at.Some? then Some(OfTime(at)) else None
    decreases |runs|
  {
    var f, head, rest := RetryOf(r.stepId), HeadRetry(d, runs[0], now), RetryDrafts(d, runs[1..], now);
    RetryCons(d, runs, now);
    FinalConcat(f, head, rest);
    TailIds(runs);
    if head != [] { FinalOne(f, head[0]); }
    if r == runs[0] {
      RetriesName(d, runs[1..], now);
      UnnamedIsSilent(f, rest, RunIds(runs[1..]));
    } else {
      assert r in runs[1..];
      RetriesLeave(d, runs[1..], now, r);
      assert r.stepId in RunIds(runs[1..]);
    }
  }

  /** A batch that leaves `at` as the retry time, or nothing, in a projection without one. */
  lemma RetryIs(i: Instance, j: Instance, s: StepId, o: Option<Value>, at: Option<Time>)
    requires Read(RetryOf(s), j) == Or(o, Read(RetryOf(s), i)) && i.Step(s).nextRetryAt.None?
    requires o == if at.Some? then Some(OfTime(at)) else None
    ensures j.Step(s).nextRetryAt == at
  {
  }

  /** After the retry batch each failed step of the wave is due again after its backoff, exactly if its failure
      may be retried and its attempts have not used up the policy. */
  lemma RetriesMean(d: Definition, i: Instance, runs: seq<StepRun>, now: Time, j: Instance, r: StepRun)
    requires DistinctRuns(runs) && (forall q :: q in runs ==> d.Has(q.stepId)) && r in runs && r.outcome.Failure?
    requires Replay(Some(d), i, RetryDrafts(d, runs, now)) == Ok(j) && i.Step(r.stepId).nextRetryAt.None?
    ensures j.Step(r.stepId).nextRetryAt == RetryTime(d.StepOf(r.stepId), r, now)
  {
    var ds := RetryDrafts(d, runs, now);
    RetriesLeave(d, runs, now, r);
    ReadsFinal(RetryOf(r.stepId), Some(d), i, ds, j);
    RetryIs(i, j, r.stepId, Final(RetryOf(r.stepId), ds), RetryTime(d.StepOf(r.stepId), r, now));
  }

  // --- outcomes ---------------------------------------------------------------------------------------

  lemma {:induction false} RecordingsName(s: StepId, attempt: nat, recs: seq<Recording>, at: Time)
    ensures AllName(RecordingDrafts(s, attempt, recs, at), {s})
    decreases |recs|
  {
    if recs != [] { RecordingsName(s, attempt, recs[1..], at); }
  }

  lemma {:induction false} ChargesName(s: StepId, charges: seq<Charge>, at: Time)
    ensures AllName(ChargeDrafts(s, charges, at), {s})
    decreases |charges|
  {
    if charges != [] { ChargesName(s, charges[1..], at); }
  }

  lemma {:induction false} EffectsName(s: StepId, effects: seq<EffectOutcome>, at: Time)
    ensures AllName(EffectDrafts(s, effects, at), {})
    decreases |effects|
  {
    if effects != [] {
      EffectsName(s, effects[1..], at);
      NamesJoin(EffectOne(s, effects[0], at), EffectDrafts(s, effects[1..], at), {});
    }
  }

  lemma OutcomeNames(r: StepRun, at: Time)
    ensures AllName(OutcomeOne(r, at), {r.stepId})
  {
    RecordingsName(r.stepId, r.attempt, r.outcome.recordings, at);
    ChargesName(r.stepId, r.outcome.charges, at);
    EffectsName(r.stepId, r.outcome.effects, at);
  }

  lemma {:induction false} OutcomesName(runs: seq<StepRun>, at: Time)
    ensures AllName(OutcomeDrafts(runs, at), RunIds(runs))
    decreases |runs|
  {
    if runs != [] {
      OutcomeNames(runs[0], at);
      OutcomesName(runs[1..], at);
      TailIds(runs);
    }
  }

  /** The verdict comes last, so what it writes stands. */
  lemma VerdictStands(f: Field, r: StepRun, at: Time)
    requires Written(f, Verdict(r, at)).Some?
    ensures Final(f, OutcomeOne(r, at)) == Written(f, Verdict(r, at))
  {
    assert OutcomeOne(r, at)[|OutcomeOne(r, at)| - 1] == Verdict(r, at);
  }

  lemma {:induction false} OutcomesLeave(f: Field, runs: seq<StepRun>, at: Time, r: StepRun)
    requires DistinctRuns(runs) && r in runs && !OnTheInstance(f) && f.step == r.stepId
    ensures Final(f, OutcomeDrafts(runs, at)) == Final(f, OutcomeOne(r, at))
    decreases |runs|
  {
    FinalConcat(f, OutcomeOne(runs[0], at), OutcomeDrafts(runs[1..], at));
    TailIds(runs);
    if r == runs[0] {
      OutcomesName(runs[1..], at);
      UnnamedIsSilent(f, OutcomeDrafts(runs[1..], at), RunIds(runs[1..]));
    } else {
      assert r in runs[1..];
      OutcomesLeave(f, runs[1..], at, r);
      OutcomeNames(runs[0], at);
      assert r.stepId in RunIds(runs[1..]);
      UnnamedIsSilent(f, OutcomeOne(runs[0], at), {runs[0].stepId});
    }
  }

  lemma OutcomeReads(f: Field, d: Definition, i: Instance, runs: seq<StepRun>, at: Time, j: Instance, r: StepRun,
                     v: Value)
    requires DistinctRuns(runs) && r in runs && !OnTheInstance(f) && f.step == r.stepId
    requires Replay(Some(d), i, OutcomeDrafts(runs, at)) == Ok(j) && Written(f, Verdict(r, at)) == Some(v)
    ensures Read(f, j) == v
  {
    VerdictStands(f, r, at);
    OutcomesLeave(f, runs, at, r);
    ReadsFinal(f, Some(d), i, OutcomeDrafts(runs, at), j);
  }

  /** How an attempt leaves its step: completed with its output, or failed with its error. */
  ghost predicate EndsAs(st: StepState, r: StepRun, at: Time) {
    if r.outcome.Success?
    then st.status == Completed && st.output == Some(r.outcome.output) && st.completedAt == Some(at)
    else && st.status == Failed && st.errorType == Some(r.outcome.errorType)
         && st.errorMessage == Some(r.outcome.errorMessage)
  }

  lemma SucceedsAs(j: Instance, r: StepRun, at: Time)
    requires r.outcome.Success? && Read(StateOf(r.stepId), j) == OfStatus(Completed)
    requires Read(OutputOf(r.stepId), j) == OfData(Some(r.outcome.output))
    requires Read(EndOf(r.stepId), j) == OfTime(Some(at))
    ensures EndsAs(j.Step(r.stepId), r, at)
  {
  }

  lemma FailsAs(j: Instance, r: StepRun, at: Time)
    requires r.outcome.Failure? && Read(StateOf(r.stepId), j) == OfStatus(Failed)
    requires Read(ErrorOf(r.stepId), j) == OfError(Some(r.outcome.errorType), Some(r.outcome.errorMessage))
    ensures EndsAs(j.Step(r.stepId), r, at)
  {
  }

  lemma VerdictWrites(r: StepRun, at: Time)
    ensures r.outcome.Success? ==>
              && Written(StateOf(r.stepId), Verdict(r, at)) == Some(OfStatus(Completed))
              && Written(OutputOf(r.stepId), Verdict(r, at)) == Some(OfData(Some(r.outcome.output)))
              && Written(EndOf(r.stepId), Verdict(r, at)) == Some(OfTime(Some(at)))
    ensures r.outcome.Failure? ==>
              && Written(StateOf(r.stepId), Verdict(r, at)) == Some(OfStatus(Failed))
              && Written(ErrorOf(r.stepId), Verdict(r, at))
                 == Some(OfError(Some(r.outcome.errorType), Some(r.outcome.errorMessage)))
  {
  }

  /** Each step of the wave ends as its own attempt did. */
  lemma OutcomesMean(d: Definition, i: Instance, runs: seq<StepRun>, at: Time, j: Instance, r: StepRun)
    requires DistinctRuns(runs) && r in runs && Replay(Some(d), i, OutcomeDrafts(runs, at)) == Ok(j)
    ensures EndsAs(j.Step(r.stepId), r, at)
  {
    var s := r.stepId;
    VerdictWrites(r, at);
    if r.outcome.Success? {
      OutcomeReads(StateOf(s), d, i, runs, at, j, r, OfStatus(Completed));
      OutcomeReads(OutputOf(s), d, i, runs, at, j, r, OfData(Some(r.outcome.output)));
      OutcomeReads(EndOf(s), d, i, runs, at, j, r, OfTime(Some(at)));
      SucceedsAs(j, r, at);
    } else {
      OutcomeReads(StateOf(s), d, i, runs, at, j, r, OfStatus(Failed));
      OutcomeReads(ErrorOf(s), d, i, runs, at, j, r, OfError(Some(r.outcome.errorType), Some(r.outcome.errorMessage)));
      FailsAs(j, r, at);
    }
  }

  // --- what a wave costs, step by step ----------------------------------------------------------------

  function TokensIn(charges: seq<Charge>): int {
    if charges == [] then 0 else charges[0].tokensIn + TokensIn(charges[1..])
  }

  function TokensOut(charges: seq<Charge>): int {
    if charges == [] then 0 else charges[0].tokensOut + TokensOut(charges[1..])
  }

  /** The batch books this much money and these tokens on the step. */
  ghost predicate BooksTo(ds: seq<Draft>, s: StepId, amount: real, tokensIn: int, tokensOut: int) {
    StepCost(ds, s) == amount && StepTokens(ds, s) == Tokens(tokensIn, tokensOut)
  }

  lemma {:induction false} BooksConcat(a: seq<Draft>, b: seq<Draft>, s: StepId)
    ensures BooksTo(a + b, s, StepCost(a, s) + StepCost(b, s), StepTokens(a, s).input + StepTokens(b, s).input,
                    StepTokens(a, s).output + StepTokens(b, s).output)
    decreases |a|
  {
    if a == [] {
      assert a + b == b;
    } else {
      assert (a + b)[1..] == a[1..] + b;
      BooksConcat(a[1..], b, s);
    }
  }

  lemma {:induction false} FreeOfCharge(ds: seq<Draft>, s: StepId)
    requires forall k :: 0 <= k < |ds| ==> !ChargedTo(ds[k].body, s)
    ensures BooksTo(ds, s, 0.0, 0, 0)
    decreases |ds|
  {
    if ds != [] { FreeOfCharge(ds[1..], s); }
  }

  lemma OthersAreFree(ds: seq<Draft>, ids: set<StepId>, s: StepId)
    requires AllName(ds, ids) && s !in ids
    ensures BooksTo(ds, s, 0.0, 0, 0)
  {
    forall k | 0 <= k < |ds| ensures !ChargedTo(ds[k].body, s) {
      assert Names(ds[k], ids);
    }
    FreeOfCharge(ds, s);
  }

  lemma {:induction false} ChargesBook(s: StepId, charges: seq<Charge>, at: Time)
    requires s != ""
    ensures BooksTo(ChargeDrafts(s, charges, at), s, SumCharges(charges), TokensIn(charges), TokensOut(charges))
    decreases |charges|
  {
    if charges != [] {
      var x := Draft(CostCharged(Some(s), charges[0].amount, charges[0].tokensIn, charges[0].tokensOut), at);
      var ds := ChargeDrafts(s, charges, at);
      assert ds[0] == x && ds[1..] == ChargeDrafts(s, charges[1..], at);
      ChargesBook(s, charges[1..], at);
    }
  }

  lemma {:induction false} RecordingsAreFree(s: StepId, attempt: nat, recs: seq<Recording>, at: Time)
    ensures BooksTo(RecordingDrafts(s, attempt, recs, at), s, 0.0, 0, 0)
    decreases |recs|
  {
    if recs != [] {
      assert RecordingDrafts(s, attempt, recs, at)[1..] == RecordingDrafts(s, attempt, recs[1..], at);
      RecordingsAreFree(s, attempt, recs[1..], at);
    }
  }

  lemma OutcomeBooks(r: StepRun, at: Time)
    requires r.stepId != ""
    ensures var c := r.outcome.charges; BooksTo(OutcomeOne(r, at), r.stepId, SumCharges(c), TokensIn(c), TokensOut(c))
  {
    var s := r.stepId;
    var a, b := RecordingDrafts(s, r.attempt, r.outcome.recordings, at), ChargeDrafts(s, r.outcome.charges, at);
    var c, e := EffectDrafts(s, r.outcome.effects, at), [Verdict(r, at)];
    BooksConcat(a, b, s);
    BooksConcat(a + b, c, s);
    BooksConcat(a + b + c, e, s);
    RecordingsAreFree(s, r.attempt, r.outcome.recordings, at);
    ChargesBook(s, r.outcome.charges, at);
    EffectsName(s, r.outcome.effects, at);
    OthersAreFree(c, {}, s);
    FreeOfCharge(e, s);
  }

  lemma {:induction false} OutcomesBook(runs: seq<StepRun>, at: Time, r: StepRun)
    requires DistinctRuns(runs) && r in runs && r.stepId != ""
    ensures var c := r.outcome.charges; BooksTo(OutcomeDrafts(runs, at), r.stepId, SumCharges(c), TokensIn(c),
                                                TokensOut(c))
    decreases |runs|
  {
    BooksConcat(OutcomeOne(runs[0], at), OutcomeDrafts(runs[1..], at), r.stepId);
    TailIds(runs);
    if r == runs[0] {
      OutcomeBooks(r, at);
      OutcomesName(runs[1..], at);
      OthersAreFree(OutcomeDrafts(runs[1..], at), RunIds(runs[1..]), r.stepId);
    } else {
      assert r in runs[1..];
      OutcomesBook(runs[1..], at, r);
      OutcomeNames(runs[0], at);
      assert r.stepId in RunIds(runs[1..]);
      OthersAreFree(OutcomeOne(runs[0], at), {runs[0].stepId}, r.stepId);
    }
  }

  /** What an attempt charged, money and tokens, is booked on its own step. */
  lemma ChargesAreBooked(d: Definition, i: Instance, runs: seq<StepRun>, at: Time, j: Instance, r: StepRun)
    requires DistinctRuns(runs) && r in runs && r.stepId != "" && Replay(Some(d), i, OutcomeDrafts(runs, at)) == Ok(j)
    ensures var c := r.outcome.charges;
            && j.Step(r.stepId).cost == i.Step(r.stepId).cost + SumCharges(c)
            && j.Step(r.stepId).tokens == i.Step(r.stepId).tokens.Plus(TokensIn(c), TokensOut(c))
  {
    OutcomesBook(runs, at, r);
    StepBooks(Some(d), i, OutcomeDrafts(runs, at), j, r.stepId);
  }

  // --- starts --------------------------------------------------------------------------------------------

  /** The attempts a batch starts, in order, and for whom. */
  function StartsIn(ds: seq<Draft>): seq<(StepId, nat, string)> {
    if ds == [] then []
    else
      var b := ds[0].body;
      (if b.StepStarted? then [(b.stepId, b.attempt, b.workerId)] else []) + StartsIn(ds[1..])
  }

  lemma {:induction false} StartsConcat(a: seq<Draft>, b: seq<Draft>)
    ensures StartsIn(a + b) == StartsIn(a) + StartsIn(b)
    decreases |a|
  {
    if a == [] {
      assert a + b == b;
    } else {
      var b0 := a[0].body;
      assert (a + b)[1..] == a[1..] + b;
      StartsConcat(a[1..], b);
      Assoc(if b0.StepStarted? then [(b0.stepId, b0.attempt, b0.workerId)] else [], StartsIn(a[1..]), StartsIn(b));
    }
  }

  lemma StartOneStarts(i: Instance, c: Attempt, worker: string, at: Time)
    ensures StartsIn(StartOne(i, c, worker, at)) == [(c.0, c.1, worker)]
  {
    var y := Draft(StepStarted(c.0, c.1, worker, None), at);
    assert [y][1..] == [] && StartsIn([y]) == [(c.0, c.1, worker)] + StartsIn([]);
    if i.Step(c.0).status == Pending {
      var x := Draft(StepStatusChanged(c.0, Pending, Ready), at);
      assert StartOne(i, c, worker, at) == [x, y] && [x, y][1..] == [y];
    } else {
      assert StartOne(i, c, worker, at) == [y];
    }
  }

  /** A wave starts exactly the dispatched attempts, in order, all in the worker's name. */
  lemma {:induction false} StartsAreDispatched(i: Instance, dispatch: seq<Attempt>, worker: string, at: Time)
    ensures var starts := StartsIn(StartDrafts(i, dispatch, worker, at));
            && |starts| == |dispatch|
            && forall k :: 0 <= k < |dispatch| ==> starts[k] == (dispatch[k].0, dispatch[k].1, worker)
    decreases |dispatch|
  {
    if dispatch != [] {
      StartsAreDispatched(i, dispatch[1..], worker, at);
      StartOneStarts(i, dispatch[0], worker, at);
      StartsConcat(StartOne(i, dispatch[0], worker, at), StartDrafts(i, dispatch[1..], worker, at));
      InTheName(dispatch, worker, StartsIn(StartDrafts(i, dispatch[1..], worker, at)));
    }
  }

  lemma InTheName(dispatch: seq<Attempt>, worker: string, rest: seq<(StepId, nat, string)>)
    requires dispatch != [] && |rest| == |dispatch| - 1
    requires forall k :: 0 <= k < |rest| ==> rest[k] == (dispatch[1..][k].0, dispatch[1..][k].1, worker)
    ensures var all := [(dispatch[0].0, dispatch[0].1, worker)] + rest;
            |all| == |dispatch| && forall k :: 0 <= k < |all| ==> all[k] == (dispatch[k].0, dispatch[k].1, worker)
  {
  }

  // --- effects ------------------------------------------------------------------------------------------

  ghost predicate NoCompensation(ds: seq<Draft>) {
    forall k :: 0 <= k < |ds| ==> !ds[k].body.SideEffectCompensated?
  }

  lemma {:induction false} PlainRecordings(s: StepId, attempt: nat, recs: seq<Recording>, at: Time)
    ensures NoCompensation(RecordingDrafts(s, attempt, recs, at))
    decreases |recs|
  {
    if recs != [] { PlainRecordings(s, attempt, recs[1..], at); }
  }

  lemma {:induction false} PlainCharges(s: StepId, charges: seq<Charge>, at: Time)
    ensures NoCompensation(ChargeDrafts(s, charges, at))
    decreases |charges|
  {
    if charges != [] { PlainCharges(s, charges[1..], at); }
  }

  lemma {:induction false} EffectsExecute(s: StepId, effects: seq<EffectOutcome>, at: Time)
    ensures NoCompensation(EffectDrafts(s, effects, at))
    ensures forall e :: e in effects ==> Draft(SideEffectExecuted(s, e.key), at) in EffectDrafts(s, effects, at)
    decreases |effects|
  {
    if effects != [] {
      EffectsExecute(s, effects[1..], at);
      assert Draft(SideEffectExecuted(s, effects[0].key), at) in EffectOne(s, effects[0], at);
    }
  }

  lemma OutcomeExecutes(r: StepRun, at: Time)
    ensures NoCompensation(OutcomeOne(r, at))
    ensures forall e :: e in r.outcome.effects ==> Draft(SideEffectExecuted(r.stepId, e.key), at) in OutcomeOne(r, at)
  {
    PlainRecordings(r.stepId, r.attempt, r.outcome.recordings, at);
    PlainCharges(r.stepId, r.outcome.charges, at);
    EffectsExecute(r.stepId, r.outcome.effects, at);
  }

  lemma {:induction false} OutcomesExecute(runs: seq<StepRun>, at: Time)
    ensures NoCompensation(OutcomeDrafts(runs, at))
    ensures forall r, e :: r in runs && e in r.outcome.effects ==>
              Draft(SideEffectExecuted(r.stepId, e.key), at) in OutcomeDrafts(runs, at)
    decreases |runs|
  {
    if runs != [] {
      OutcomeExecutes(runs[0], at);
      OutcomesExecute(runs[1..], at);
    }
  }

  function EffectNow(was: Option<EffectRef>, s: StepId, e: EffectOutcome): EffectRef {
    if was.Some? then was.value.(status := EffectExecuted)
    else EffectRef(e.key, s, if e.deduplicated then "" else e.effectName, EffectExecuted)
  }

  lemma EffectTwice(was: Option<EffectRef>, s: StepId, e: EffectOutcome)
    ensures var x, y := SideEffectExecuted(s, e.key), SideEffectIntentRecorded(s, e.effectName, e.key);
            (if e.deduplicated then EffectAfter(was, x, e.key) else EffectAfter(EffectAfter(was, y, e.key), x, e.key))
            == Some(EffectNow(was, s, e))
  {
  }

  lemma ReplayTwo(defn: Option<Definition>, i: Instance, x: Draft, y: Draft, j: Instance) returns (m: Instance)
    requires Replay(defn, i, [x] + [y]) == Ok(j)
    ensures Advance(defn, i, x) == Ok(m) && Advance(defn, m, y) == Ok(j)
  {
    ReplayConcat(defn, i, [x], [y]);
    ReplayOne(defn, i, x);
    m := Advance(defn, i, x).value;
    ReplayOne(defn, m, y);
  }

  /** One reported effect: a new one is on record as executed under its name, one the provider had already under
      no name, and one on record keeps its entry and is executed. */
  lemma EffectMeans(d: Definition, i: Instance, s: StepId, e: EffectOutcome, at: Time, j: Instance)
    requires Replay(Some(d), i, EffectOne(s, e, at)) == Ok(j)
    ensures EffectAt(j.effects, e.key) == Some(EffectNow(EffectAt(i.effects, e.key), s, e))
  {
    var x, y := Draft(SideEffectExecuted(s, e.key), at), Draft(SideEffectIntentRecorded(s, e.effectName, e.key), at);
    EffectTwice(EffectAt(i.effects, e.key), s, e);
    if e.deduplicated {
      assert EffectOne(s, e, at) == [x];
      ReplayOne(Some(d), i, x);
      AdvanceEffect(Some(d), i, x, j, e.key);
    } else {
      var m := ReplayTwo(Some(d), i, y, x, j);
      AdvanceEffect(Some(d), i, y, m, e.key);
      AdvanceEffect(Some(d), m, x, j, e.key);
    }
  }

  /** Every effect an attempt reports is on record as executed once the wave is. */
  lemma EffectsAreOnRecord(d: Definition, i: Instance, runs: seq<StepRun>, at: Time, j: Instance, r: StepRun,
                           e: EffectOutcome)
    requires r in runs && e in r.outcome.effects && Replay(Some(d), i, OutcomeDrafts(runs, at)) == Ok(j)
    ensures Stands(j, e.key, EffectExecuted)
  {
    var ds, x := OutcomeDrafts(runs, at), Draft(SideEffectExecuted(r.stepId, e.key), at);
    OutcomesExecute(runs, at);
    assert x in ds;
    var k :| 0 <= k < |ds| && ds[k] == x;
    ExecutedIsOnRecord(Some(d), i, ds, j, e.key, k);
  }

  // --- recorded model calls ------------------------------------------------------------------------------

  lemma {:induction false} RecordedConcat(a: seq<Draft>, b: seq<Draft>, s: StepId)
    ensures Recorded(a + b, s) == (if Forgets(b, s) then [] else Recorded(a, s)) + Recorded(b, s)
    decreases |b|
  {
    if b == [] {
      assert a + b == a;
    } else {
      var x, front := b[|b| - 1].body, b[..|b| - 1];
      assert (a + b)[..|a + b| - 1] == a + front && (a + b)[|a + b| - 1] == b[|b| - 1];
      RecordedConcat(a, front, s);
      ForgetsSnoc(b, s);
      if !(x.StepFailed? && x.stepId == s) {
        Assoc(if Forgets(front, s) then [] else Recorded(a, s), Recorded(front, s),
              if x.LLMCallRecorded? && x.stepId == s then [x.recording] else []);
      }
    }
  }

  lemma {:induction false} RecordingsAre(s: StepId, attempt: nat, recs: seq<Recording>, at: Time)
    ensures Recorded(RecordingDrafts(s, attempt, recs, at), s) == recs
            && !Forgets(RecordingDrafts(s, attempt, recs, at), s)
    decreases |recs|
  {
    if recs != [] {
      var x := Draft(LLMCallRecorded(s, attempt, recs[0]), at);
      RecordingsAre(s, attempt, recs[1..], at);
      RecordedConcat([x], RecordingDrafts(s, attempt, recs[1..], at), s);
      RecordedOne(x, s);
    }
  }

  lemma RecordedOne(x: Draft, s: StepId)
    requires !(x.body.StepFailed? && x.body.stepId == s)
    ensures Recorded([x], s) == if x.body.LLMCallRecorded? && x.body.stepId == s then [x.body.recording] else []
  {
    assert [x][..0] == [];
  }

  /** The batch neither records a call of the step nor fails it. */
  ghost predicate Mute(ds: seq<Draft>, s: StepId) {
    forall k :: 0 <= k < |ds| ==>
      !(ds[k].body.LLMCallRecorded? && ds[k].body.stepId == s) && !(ds[k].body.StepFailed? && ds[k].body.stepId == s)
  }

  lemma {:induction false} MuteRecords(ds: seq<Draft>, s: StepId)
    requires Mute(ds, s)
    ensures Recorded(ds, s) == [] && !Forgets(ds, s)
    decreases |ds|
  {
    if ds != [] {
      assert forall k :: 0 <= k < |ds| - 1 ==> ds[..|ds| - 1][k] == ds[k];
      MuteRecords(ds[..|ds| - 1], s);
    }
  }

  lemma UnnamedIsMute(ds: seq<Draft>, ids: set<StepId>, s: StepId)
    requires AllName(ds, ids) && s !in ids
    ensures Mute(ds, s)
  {
    forall k | 0 <= k < |ds|
      ensures !(ds[k].body.LLMCallRecorded? && ds[k].body.stepId == s)
      ensures !(ds[k].body.StepFailed? && ds[k].body.stepId == s)
    {
      assert Names(ds[k], ids);
    }
  }

  lemma {:induction false} ChargesAreMute(s: StepId, charges: seq<Charge>, at: Time)
    ensures Mute(ChargeDrafts(s, charges, at), s)
    decreases |charges|
  {
    if charges != [] { ChargesAreMute(s, charges[1..], at); }
  }

  /** Appending a batch that is mute about the step adds nothing. */
  lemma ThenMute(a: seq<Draft>, b: seq<Draft>, s: StepId)
    requires Mute(b, s) && !Forgets(a, s)
    ensures Recorded(a + b, s) == Recorded(a, s) && !Forgets(a + b, s)
  {
    RecordedConcat(a, b, s);
    MuteRecords(b, s);
    forall k | 0 <= k < |a + b| ensures !((a + b)[k].body.StepFailed? && (a + b)[k].body.stepId == s) {
      if k < |a| { assert (a + b)[k] == a[k]; } else { assert (a + b)[k] == b[k - |a|]; }
    }
  }

  lemma AfterMute(a: seq<Draft>, b: seq<Draft>, s: StepId)
    requires Mute(a, s) && !Forgets(b, s)
    ensures Recorded(a + b, s) == Recorded(b, s) && !Forgets(a + b, s)
  {
    RecordedConcat(a, b, s);
    MuteRecords(a, s);
    forall k | 0 <= k < |a + b| ensures !((a + b)[k].body.StepFailed? && (a + b)[k].body.stepId == s) {
      if k < |a| { assert (a + b)[k] == a[k]; } else { assert (a + b)[k] == b[k - |a|]; }
    }
  }

  lemma SuccessRecords(r: StepRun, at: Time)
    requires r.outcome.Success?
    ensures Recorded(OutcomeOne(r, at), r.stepId) == r.outcome.recordings && !Forgets(OutcomeOne(r, at), r.stepId)
  {
    var s := r.stepId;
    var a, b := RecordingDrafts(s, r.attempt, r.outcome.recordings, at), ChargeDrafts(s, r.outcome.charges, at);
    var c, e := EffectDrafts(s, r.outcome.effects, at), [Verdict(r, at)];
    RecordingsAre(s, r.attempt, r.outcome.recordings, at);
    ChargesAreMute(s, r.outcome.charges, at);
    EffectsName(s, r.outcome.effects, at);
    UnnamedIsMute(c, {}, s);
    ThenMute(a, b, s);
    ThenMute(a + b, c, s);
    ThenMute(a + b + c, e, s);
  }

  lemma {:induction false} WaveRecords(runs: seq<StepRun>, at: Time, r: StepRun)
    requires DistinctRuns(runs) && r in runs && r.outcome.Success?
    ensures Recorded(OutcomeDrafts(runs, at), r.stepId) == r.outcome.recordings
    ensures !Forgets(OutcomeDrafts(runs, at), r.stepId)
    decreases |runs|
  {
    var s, head, rest := r.stepId, OutcomeOne(runs[0], at), OutcomeDrafts(runs[1..], at);
    TailIds(runs);
    if r == runs[0] {
      SuccessRecords(r, at);
      OutcomesName(runs[1..], at);
      UnnamedIsMute(rest, RunIds(runs[1..]), s);
      ThenMute(head, rest, s);
    } else {
      assert r in runs[1..];
      WaveRecords(runs[1..], at, r);
      OutcomeNames(runs[0], at);
      assert s in RunIds(runs[1..]);
      UnnamedIsMute(head, {runs[0].stepId}, s);
      AfterMute(head, rest, s);
    }
  }

  /** A completed attempt's model calls are on record after those recorded before it. */
  lemma CallsAreOnRecord(d: Definition, i: Instance, runs: seq<StepRun>, at: Time, j: Instance, r: StepRun)
    requires DistinctRuns(runs) && r in runs && r.outcome.Success?
             && Replay(Some(d), i, OutcomeDrafts(runs, at)) == Ok(j)
    ensures j.Step(r.stepId).llmCalls == i.Step(r.stepId).llmCalls + r.outcome.recordings
  {
    WaveRecords(runs, at, r);
    CallsSinceFailure(Some(d), i, OutcomeDrafts(runs, at), j, r.stepId);
  }
}
