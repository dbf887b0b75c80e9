/** What a run of legal events says about the past: completions, attempts, retries, approvals. */
module History {
  import opened Domain
  import opened Events
  import opened Fold
  import opened FoldLaws
  import opened Planner
  import opened Legality

  function After(d: Definition, i: Instance, x: Draft): Instance
    requires Advance(Some(d), i, x).Ok?
  {
    Advance(Some(d), i, x).value
  }

  /** The projection of one step after a legal event. */
  lemma StepAfter(d: Definition, i: Instance, x: Draft, s: StepId)
    requires Legal(d, i, x.body)
    ensures Advance(Some(d), i, x).Ok?
    ensures Touched(x.body) != Some(s) ==> After(d, i, x).Step(s) == i.Step(s)
    ensures Touched(x.body) == Some(s) ==> OnStep(i.Step(s), x.body, x.at) == Ok(After(d, i, x).Step(s))
  {
    LegalShape(d, i, x.body, x.at);
  }

  // --- at most one completion ------------------------------------------------

  function Completions(ds: seq<Draft>, s: StepId): nat {
    if ds == [] then 0
    else (if ds[0].body.StepCompleted? && ds[0].body.stepId == s then 1 else 0) + Completions(ds[1..], s)
  }

  function HasOutput(i: Instance, s: StepId): nat {
    if i.Step(s).output.Some? then 1 else 0
  }

  lemma RunningHasNoOutput(d: Definition, i: Instance, s: StepId)
    requires Inv(d, i) && d.Has(s) && i.Step(s).status == Running
    ensures i.Step(s).output.None?
  {
    var k :| 0 <= k < |d.steps| && d.steps[k].stepId == s;
    assert StepInv(d, i, d.steps[k]);
  }

  lemma OutputAfter(d: Definition, i: Instance, x: Draft, s: StepId)
    requires Inv(d, i) && Legal(d, i, x.body)
    ensures Advance(Some(d), i, x).Ok?
    ensures HasOutput(After(d, i, x), s)
            == HasOutput(i, s) + if x.body.StepCompleted? && x.body.stepId == s then 1 else 0
  {
    if x.body.StepCompleted? && x.body.stepId == s { RunningHasNoOutput(d, i, s); }
    OutputOf(d, i, x, s);
  }

  lemma OutputOf(d: Definition, i: Instance, x: Draft, s: StepId)
    requires Legal(d, i, x.body)
    ensures Advance(Some(d), i, x).Ok?
    ensures After(d, i, x).Step(s).output
            == if x.body.StepCompleted? && x.body.stepId == s then Some(x.body.output) else i.Step(s).output
  {
    StepAfter(d, i, x, s);
  }

  /** A step has completed in the log exactly as often as its projection holds an output: never or once. */
  lemma {:induction false} CompletionsExact(d: Definition, i: Instance, ds: seq<Draft>, s: StepId)
    requires Valid(d) && Inv(d, i) && AllLegal(d, i, ds)
    ensures Replay(Some(d), i, ds).Ok?
    ensures HasOutput(i, s) + Completions(ds, s) == HasOutput(Replay(Some(d), i, ds).value, s)
    decreases |ds|
  {
    if ds != [] {
      OutputAfter(d, i, ds[0], s);
      LegalKeepsInv(d, i, ds[0]);
      CompletionsExact(d, After(d, i, ds[0]), ds[1..], s);
    }
  }

  // --- attempts ----------------------------------------------------------------

  /** The attempt numbers of a step's starts, in log order. */
  function Starts(ds: seq<Draft>, s: StepId): seq<nat> {
    if ds == [] then []
    else (if ds[0].body.StepStarted? && ds[0].body.stepId == s then [ds[0].body.attempt] else []) + Starts(ds[1..], s)
  }

  function Count(lo: nat, hi: nat): seq<nat>
    requires lo <= hi
    decreases hi - lo
  {
    if lo == hi then [] else [lo + 1] + Count(lo + 1, hi)
  }

  /** `Count` is lo + 1, lo + 2, ..., hi. */
  lemma {:induction false} CountMeans(lo: nat, hi: nat)
    requires lo <= hi
    ensures |Count(lo, hi)| == hi - lo && forall k :: 0 <= k < hi - lo ==> Count(lo, hi)[k] == lo + 1 + k
    decreases hi - lo
  {
    if lo < hi { CountMeans(lo + 1, hi); }
  }

  predicate Requeues(b: EventBody, s: StepId) {
    b.WorkflowRequeued? && b.requeued == Some(s)
  }

  predicate NeverRequeued(ds: seq<Draft>, s: StepId) {
    forall k :: 0 <= k < |ds| ==> !Requeues(ds[k].body, s)
  }

  lemma AttemptsAfter(d: Definition, i: Instance, x: Draft, s: StepId)
    requires Legal(d, i, x.body) && !Requeues(x.body, s)
    ensures Advance(Some(d), i, x).Ok?
    ensures if x.body.StepStarted? && x.body.stepId == s
            then After(d, i, x).Step(s).attempts == i.Step(s).attempts + 1 == x.body.attempt
            else After(d, i, x).Step(s).attempts == i.Step(s).attempts
  {
    StepAfter(d, i, x, s);
  }

  /** Until a step is requeued its starts are numbered consecutively, with no gap, across crashes, retries
      and approvals. */
  lemma StartsAreConsecutive(d: Definition, i: Instance, ds: seq<Draft>, s: StepId)
    requires AllLegal(d, i, ds) && NeverRequeued(ds, s)
    ensures Replay(Some(d), i, ds).Ok? && Replay(Some(d), i, ds).value.Step(s).attempts >= i.Step(s).attempts
    ensures Starts(ds, s) == Count(i.Step(s).attempts, Replay(Some(d), i, ds).value.Step(s).attempts)
  {
    AllLegalConcat(d, i, ds, []);
    StartsCount(d, i, ds, Replay(Some(d), i, ds).value, s);
  }

  lemma {:induction false} StartsCount(d: Definition, i: Instance, ds: seq<Draft>, j: Instance, s: StepId)
    requires AllLegal(d, i, ds) && NeverRequeued(ds, s) && Replay(Some(d), i, ds) == Ok(j)
    ensures j.Step(s).attempts >= i.Step(s).attempts && Starts(ds, s) == Count(i.Step(s).attempts, j.Step(s).attempts)
    decreases |ds|
  {
    if ds != [] {
      NeverRequeuedTail(ds, s);
      var mid := AttemptsOf(d, i, ds[0], s);
      StartsCount(d, After(d, i, ds[0]), ds[1..], j, s);
      StartsSplit(ds, s, i.Step(s).attempts, mid, j.Step(s).attempts);
    }
  }

  lemma NeverRequeuedTail(ds: seq<Draft>, s: StepId)
    requires ds != [] && NeverRequeued(ds, s)
    ensures NeverRequeued(ds[1..], s) && !Requeues(ds[0].body, s)
  {
  }

  /** The attempts after one event. */
  lemma AttemptsOf(d: Definition, i: Instance, x: Draft, s: StepId) returns (mid: nat)
    requires Legal(d, i, x.body) && !Requeues(x.body, s)
    ensures Advance(Some(d), i, x).Ok? && After(d, i, x).Step(s).attempts == mid
    ensures NextAttempts(x.body, s, i.Step(s).attempts, mid)
  {
    AttemptsAfter(d, i, x, s);
    mid := After(d, i, x).Step(s).attempts;
  }

  predicate NextAttempts(b: EventBody, s: StepId, lo: nat, mid: nat) {
    if b.StepStarted? && b.stepId == s then b.attempt == mid == lo + 1 else mid == lo
  }

  lemma StartsSplit(ds: seq<Draft>, s: StepId, lo: nat, mid: nat, hi: nat)
    requires ds != [] && NextAttempts(ds[0].body, s, lo, mid) && mid <= hi && Starts(ds[1..], s) == Count(mid, hi)
    ensures lo <= hi && Starts(ds, s) == Count(lo, hi)
  {
  }

  lemma RunningComesFromStart(d: Definition, i: Instance, x: Draft, s: StepId)
    requires Legal(d, i, x.body)
    ensures Advance(Some(d), i, x).Ok?
    ensures After(d, i, x).Step(s).status == Running && !(x.body.StepStarted? && x.body.stepId == s) ==>
              i.Step(s).status == Running && i.Step(s).attempts == After(d, i, x).Step(s).attempts
    ensures x.body.StepStarted? && x.body.stepId == s ==> After(d, i, x).Step(s).attempts == x.body.attempt
  {
    StepAfter(d, i, x, s);
  }

  /** A running step runs the attempt of its latest start, requeued or not. */
  lemma {:induction false} RunsItsLatestStart(d: Definition, i: Instance, ds: seq<Draft>, s: StepId)
    requires AllLegal(d, i, ds)
    ensures Replay(Some(d), i, ds).Ok?
    ensures var j, starts := Replay(Some(d), i, ds).value, Starts(ds, s);
            j.Step(s).status == Running ==>
              if starts == [] then i.Step(s).status == Running && i.Step(s).attempts == j.Step(s).attempts
              else starts[|starts| - 1] == j.Step(s).attempts
    decreases |ds|
  {
    if ds != [] {
      RunningComesFromStart(d, i, ds[0], s);
      RunsItsLatestStart(d, After(d, i, ds[0]), ds[1..], s);
    }
  }

  /** A completion carries the number of the step's latest start, which precedes it. */
  lemma CompletionFollowsStart(d: Definition, i: Instance, ds: seq<Draft>, k: nat)
    requires AllLegal(d, i, ds) && k < |ds| && ds[k].body.StepCompleted?
    requires i.Step(ds[k].body.stepId).status != Running
    ensures var starts := Starts(ds[..k], ds[k].body.stepId);
            starts != [] && starts[|starts| - 1] == ds[k].body.attempt
  {
    PrefixLegal(d, i, ds, k);
    AllLegalAt(d, i, ds, k);
    RunsItsLatestStart(d, i, ds[..k], ds[k].body.stepId);
  }

  lemma {:induction false} PrefixLegal(d: Definition, i: Instance, ds: seq<Draft>, k: nat)
    requires AllLegal(d, i, ds) && k <= |ds|
    ensures AllLegal(d, i, ds[..k])
    decreases k
  {
    if k > 0 {
      PrefixLegal(d, After(d, i, ds[0]), ds[1..], k - 1);
      assert ds[..k][1..] == ds[1..][..k - 1];
    }
  }

  // --- retries ------------------------------------------------------------------

  function RetriesOf(ds: seq<Draft>, s: StepId): nat {
    if ds == [] then 0
    else (if ds[0].body.StepRetryScheduled? && ds[0].body.stepId == s then 1 else 0) + RetriesOf(ds[1..], s)
  }

  /** How many retries may still be scheduled: one per attempt number not yet used up. */
  function RetriesLeft(st: StepState, limit: nat): nat {
    var next := if st.nextRetryAt.None? then (if st.attempts == 0 then 1 else st.attempts) else st.attempts + 1;
    if next > limit then 0 else limit - next + 1
  }

  lemma RetriesAfter(d: Definition, i: Instance, x: Draft, s: StepId)
    requires Legal(d, i, x.body) && d.Has(s) && !Requeues(x.body, s)
    ensures Advance(Some(d), i, x).Ok?
    ensures var limit := d.StepOf(s).retry.maxRetries;
            RetriesLeft(After(d, i, x).Step(s), limit)
            + (if x.body.StepRetryScheduled? && x.body.stepId == s then 1 else 0)
            <= RetriesLeft(i.Step(s), limit)
  {
    StepAfter(d, i, x, s);
  }

  /** Until it is requeued no step is scheduled for more retries than its policy allows. */
  lemma {:induction false} RetriesAreBounded(d: Definition, i: Instance, ds: seq<Draft>, s: StepId)
    requires AllLegal(d, i, ds) && d.Has(s) && NeverRequeued(ds, s)
    ensures Replay(Some(d), i, ds).Ok?
    ensures var limit := d.StepOf(s).retry.maxRetries;
            RetriesOf(ds, s) + RetriesLeft(Replay(Some(d), i, ds).value.Step(s), limit) <= RetriesLeft(i.Step(s), limit)
    decreases |ds|
  {
    if ds != [] {
      RetriesAfter(d, i, ds[0], s);
      RetriesAreBounded(d, After(d, i, ds[0]), ds[1..], s);
    }
  }

  // --- approvals -------------------------------------------------------------------

  ghost predicate RaisedIn(ds: seq<Draft>, s: StepId) {
    exists k :: 0 <= k < |ds| && ds[k].body.EscalationRaised? && ds[k].body.stepId == s
  }

  lemma EscalatedAfter(d: Definition, i: Instance, x: Draft, s: StepId)
    requires Legal(d, i, x.body)
    ensures Advance(Some(d), i, x).Ok?
    ensures Escalated(After(d, i, x), s) <==> Escalated(i, s) || (x.body.EscalationRaised? && x.body.stepId == s)
  {
    LegalAccepted(d, i, x.body, x.at);
    SameEscalations(d, i, x.body, x.at);
    var j := After(d, i, x);
    if Escalated(i, s) {
      var k :| 0 <= k < |i.escalations| && i.escalations[k].stepId == s;
      assert j.escalations[k].stepId == s;
    }
    if x.body.EscalationRaised? && x.body.stepId == s {
      assert j.escalations[|i.escalations|].stepId == s;
    }
  }

  lemma {:induction false} EscalatedIffRaised(d: Definition, i: Instance, ds: seq<Draft>, s: StepId)
    requires AllLegal(d, i, ds)
    ensures Replay(Some(d), i, ds).Ok?
    ensures Escalated(Replay(Some(d), i, ds).value, s) <==> Escalated(i, s) || RaisedIn(ds, s)
    decreases |ds|
  {
    if ds != [] {
      EscalatedAfter(d, i, ds[0], s);
      EscalatedIffRaised(d, After(d, i, ds[0]), ds[1..], s);
      assert RaisedIn(ds, s) <==> (ds[0].body.EscalationRaised? && ds[0].body.stepId == s) || RaisedIn(ds[1..], s) by {
        if k :| 0 <= k < |ds[1..]| && ds[1..][k].body.EscalationRaised? && ds[1..][k].body.stepId == s {
          assert ds[k + 1].body.EscalationRaised? && ds[k + 1].body.stepId == s;
        }
        if k :| 0 <= k < |ds| && ds[k].body.EscalationRaised? && ds[k].body.stepId == s {
          if k > 0 { assert ds[1..][k - 1] == ds[k]; }
        }
      }
    }
  }

  /** The first escalation on a step that requires approval is the explicit approval. */
  lemma FirstEscalationIsApproval(d: Definition, i: Instance, ds: seq<Draft>, k: nat)
    requires AllLegal(d, i, ds) && k < |ds| && ds[k].body.EscalationRaised?
    requires d.Has(ds[k].body.stepId) && d.StepOf(ds[k].body.stepId).requiresApproval && ds[k].body.stepId != ""
    requires !Escalated(i, ds[k].body.stepId) && !RaisedIn(ds[..k], ds[k].body.stepId)
    ensures ds[k].body.reason == "explicit_approval"
  {
    PrefixLegal(d, i, ds, k);
    AllLegalAt(d, i, ds, k);
    EscalatedIffRaised(d, i, ds[..k], ds[k].body.stepId);
  }

  // --- requeue ---------------------------------------------------------------------------

  /** The fold takes one more event. */
  lemma Snoc(i: Instance, a: seq<Draft>, j: Instance, x: Draft, k: Instance)
    requires Replay(None, i, a) == Ok(j) && Advance(None, j, x) == Ok(k)
    ensures Replay(None, i, a + [x]) == Ok(k)
  {
    ReplayConcat(None, i, a, [x]);
    ReplayOne(None, j, x);
  }

  /** What the fold makes of a step it may start, complete or requeue. */
  lemma FoldMoves(i: Instance, frm: WorkflowStatus, to: WorkflowStatus, at: Time, s: StepId) returns (j: Instance)
    requires i.status == frm && WorkflowTransitionAllowed(frm, to)
    ensures Advance(None, i, Draft(InstanceStatusChanged(frm, to), at)) == Ok(j) && j.status == to
            && j.Step(s) == i.Step(s)
  {
    j := Advance(None, i, Draft(InstanceStatusChanged(frm, to), at)).value;
  }

  lemma FoldReadies(i: Instance, s: StepId, at: Time) returns (j: Instance)
    requires i.Step(s).status == Pending
    ensures Advance(None, i, Draft(StepStatusChanged(s, Pending, Ready), at)) == Ok(j) && j.Step(s).status == Ready
            && j.status == i.status
  {
    j := Advance(None, i, Draft(StepStatusChanged(s, Pending, Ready), at)).value;
  }

  lemma FoldRequeues(i: Instance, s: StepId, at: Time) returns (j: Instance)
    requires i.status == WfDeadLettered
    ensures Advance(None, i, Draft(WorkflowRequeued(Some(s)), at)) == Ok(j) && j.Step(s).status == Ready
  {
    j := Advance(None, i, Draft(WorkflowRequeued(Some(s)), at)).value;
  }

  lemma FoldStarts(i: Instance, s: StepId, worker: string, at: Time) returns (j: Instance)
    requires i.Step(s).status == Ready
    ensures Advance(None, i, Draft(StepStarted(s, 1, worker, None), at)) == Ok(j) && j.Step(s).status == Running
            && j.status == i.status
  {
    j := Advance(None, i, Draft(StepStarted(s, 1, worker, None), at)).value;
  }

  lemma FoldCompletes(i: Instance, s: StepId, output: Data, at: Time) returns (j: Instance)
    requires i.Step(s).status == Running
    ensures Advance(None, i, Draft(StepCompleted(s, 1, output, None), at)) == Ok(j) && j.status == i.status
  {
    j := Advance(None, i, Draft(StepCompleted(s, 1, output, None), at)).value;
  }

  /** Requeued, started and completed once more. */
  function Again(s: StepId, worker: string, output: Data, at: Time): seq<Draft> {
    [Draft(WorkflowRequeued(Some(s)), at)] + [Draft(StepStarted(s, 1, worker, None), at)]
    + [Draft(StepCompleted(s, 1, output, None), at)]
  }

  lemma AgainFolds(i: Instance, s: StepId, worker: string, output: Data, at: Time)
    requires i.status == WfDeadLettered
    ensures Replay(None, i, Again(s, worker, output, at)).Ok?
  {
    var a := FoldRequeues(i, s, at);
    var b := FoldStarts(a, s, worker, at);
    var c := FoldCompletes(b, s, output, at);
    var x, y := Draft(WorkflowRequeued(Some(s)), at), Draft(StepStarted(s, 1, worker, None), at);
    var z := Draft(StepCompleted(s, 1, output, None), at);
    ReplayOne(None, i, x);
    Snoc(i, [x], a, y, b);
    Snoc(i, [x] + [y], b, z, c);
  }

  lemma {:induction false} CompletionsConcat(a: seq<Draft>, b: seq<Draft>, s: StepId)
    ensures Completions(a + b, s) == Completions(a, s) + Completions(b, s)
    decreases |a|
  {
    if a == [] {
      assert a + b == b;
    } else {
      assert (a + b)[1..] == a[1..] + b;
      CompletionsConcat(a[1..], b, s);
    }
  }

  lemma AgainCompletes(s: StepId, worker: string, output: Data, at: Time)
    ensures Completions(Again(s, worker, output, at), s) == 1
  {
    var x, y := [Draft(WorkflowRequeued(Some(s)), at)], [Draft(StepStarted(s, 1, worker, None), at)];
    var z := [Draft(StepCompleted(s, 1, output, None), at)];
    CompletionsConcat(x + y, z, s);
    CompletionsConcat(x, y, s);
    assert Completions(x, s) == 0 && Completions(y, s) == 0 && Completions(z, s) == 1;
  }

  /** When a requeue that checks nothing repeats a completion. The fold takes it on every dead-lettered
      instance, whatever the step's state, and lets the step start and complete. That is the step's second
      completion exactly when the step holds an output; a FAILED step, which a requeue may be limited to,
      holds none. */
  lemma RequeueRepeatsIff(d: Definition, i: Instance, ds: seq<Draft>, j: Instance, s: StepId, worker: string,
                          output: Data, at: Time)
    requires Valid(d) && Inv(d, i) && i.Step(s).output.None? && AllLegal(d, i, ds) && Replay(Some(d), i, ds) == Ok(j)
    requires j.status == WfDeadLettered
    ensures Replay(None, j, Again(s, worker, output, at)).Ok?
    ensures Completions(ds + Again(s, worker, output, at), s) == 2 <==> j.Step(s).output.Some?
    ensures Legal(d, j, WorkflowRequeued(Some(s))) ==> Completions(ds + Again(s, worker, output, at), s) == 1
  {
    AgainFolds(j, s, worker, output, at);
    AgainCompletes(s, worker, output, at);
    CompletionsConcat(ds, Again(s, worker, output, at), s);
    CompletionsExact(d, i, ds, s);
    if Legal(d, j, WorkflowRequeued(Some(s))) {
      AllLegalKeepsInv(d, i, ds);
      FailedHasNoOutput(d, j, s);
    }
  }

  lemma FailedHasNoOutput(d: Definition, i: Instance, s: StepId)
    requires Inv(d, i) && d.Has(s) && i.Step(s).status == Failed
    ensures i.Step(s).output.None?
  {
    var k :| 0 <= k < |d.steps| && d.steps[k].stepId == s;
    assert StepInv(d, i, d.steps[k]);
  }

  /** A log in which the step completes and the instance is dead-lettered on another account. */
  function DeadAfterSuccess(created: Draft, s: StepId, worker: string, output: Data, at: Time): seq<Draft> {
    [created] + [Draft(InstanceStatusChanged(WfPending, WfRunning), at)]
    + [Draft(StepStatusChanged(s, Pending, Ready), at)]
    + [Draft(StepStarted(s, 1, worker, None), at)] + [Draft(StepCompleted(s, 1, output, None), at)]
    + [Draft(InstanceStatusChanged(WfRunning, WfDeadLettered), at)]
  }

  /** A log the fold accepts in which one step completes twice. */
  lemma TwoCompletions(instance: string, tenant: string, created: Draft, s: StepId, worker: string, output: Data,
                       at: Time)
    requires created.body.InstanceCreated?
    ensures var blank := NewInstance(instance, tenant, created.body.workflowId, created.body.workflowVersion);
            var log := DeadAfterSuccess(created, s, worker, output, at) + Again(s, worker, output, at);
            Replay(None, blank, log).Ok? && Completions(log, s) == 2
  {
    var blank := NewInstance(instance, tenant, created.body.workflowId, created.body.workflowVersion);
    var i0 := Advance(None, blank, created).value;
    assert i0.Step(s) == UNTOUCHED && i0.status == WfPending;
    var i1 := FoldMoves(i0, WfPending, WfRunning, at, s);
    var i2 := FoldReadies(i1, s, at);
    var i3 := FoldStarts(i2, s, worker, at);
    var i4 := FoldCompletes(i3, s, output, at);
    var i5 := FoldMoves(i4, WfRunning, WfDeadLettered, at, s);
    var x1 := Draft(InstanceStatusChanged(WfPending, WfRunning), at);
    var x2 := Draft(StepStatusChanged(s, Pending, Ready), at);
    var x3, x4 := Draft(StepStarted(s, 1, worker, None), at), Draft(StepCompleted(s, 1, output, None), at);
    var x5 := Draft(InstanceStatusChanged(WfRunning, WfDeadLettered), at);
    ReplayOne(None, blank, created);
    Snoc(blank, [created], i0, x1, i1);
    Snoc(blank, [created] + [x1], i1, x2, i2);
    Snoc(blank, [created] + [x1] + [x2], i2, x3, i3);
    Snoc(blank, [created] + [x1] + [x2] + [x3], i3, x4, i4);
    Snoc(blank, [created] + [x1] + [x2] + [x3] + [x4], i4, x5, i5);
    AgainFolds(i5, s, worker, output, at);
    ReplayConcat(None, blank, DeadAfterSuccess(created, s, worker, output, at), Again(s, worker, output, at));
    DeadCompletes(created, s, worker, output, at);
    AgainCompletes(s, worker, output, at);
    CompletionsConcat(DeadAfterSuccess(created, s, worker, output, at), Again(s, worker, output, at), s);
  }

  lemma DeadCompletes(created: Draft, s: StepId, worker: string, output: Data, at: Time)
    requires created.body.InstanceCreated?
    ensures Completions(DeadAfterSuccess(created, s, worker, output, at), s) == 1
  {
    var x0, x1 := [created], [Draft(InstanceStatusChanged(WfPending, WfRunning), at)];
    var x2, x3 := [Draft(StepStatusChanged(s, Pending, Ready), at)], [Draft(StepStarted(s, 1, worker, None), at)];
    var x4 := [Draft(StepCompleted(s, 1, output, None), at)];
    var x5 := [Draft(InstanceStatusChanged(WfRunning, WfDeadLettered), at)];
    CompletionsConcat(x0 + x1 + x2 + x3 + x4, x5, s);
    CompletionsConcat(x0 + x1 + x2 + x3, x4, s);
    CompletionsConcat(x0 + x1 + x2, x3, s);
    CompletionsConcat(x0 + x1, x2, s);
    CompletionsConcat(x0, x1, s);
    assert Completions(x0, s) == 0 && Completions(x1, s) == 0 && Completions(x2, s) == 0;
    assert Completions(x3, s) == 0 && Completions(x4, s) == 1 && Completions(x5, s) == 0;
  }
}
