/** What holds in every run: any number of workers, any interleaving, crashes between any two appends,
    operator requests and escalation decisions at any time. */
module Theorems {
  import opened Domain
  import opened Events
  import opened Fold
  import opened FoldLaws
  import opened Planner
  import opened Driver
  import opened Legality
  import opened Phases
  import opened Seeding
  import opened History
  import opened Operators
  import opened Leasing
  import opened Protocol
  import opened Logs
  import opened Safety
  import opened Answers

  /** A state some run of a validated definition reaches from the instance's creation. */
  ghost predicate Reachable(w: World, created: Draft, acts: seq<Action>, st: Sys) {
    Valid(w.def) && created.body.InstanceCreated? && st == Run(w, Initial(created), acts)
  }

  lemma ReachableInv(w: World, created: Draft, acts: seq<Action>, st: Sys)
    requires Reachable(w, created, acts, st)
    ensures SysInv(w, st)
  {
    InitialInv(w, created);
    RunKeeps(w, Initial(created), acts);
  }

  // --- steps -----------------------------------------------------------------------------

  /** A step completes at most once, and its completion answers its own latest start. */
  lemma CompletesAtMostOnce(w: World, created: Draft, acts: seq<Action>, st: Sys, s: StepId)
    requires Reachable(w, created, acts, st)
    ensures |st.log| >= 1 && Completions(st.log[1..], s) <= 1
    ensures forall k :: 0 <= k < |st.log| - 1 && st.log[1..][k].body.StepCompleted? ==>
                          var starts := Starts(st.log[1..][..k], st.log[1..][k].body.stepId);
                          starts != [] && starts[|starts| - 1] == st.log[1..][k].body.attempt
  {
    ReachableInv(w, created, acts, st);
    var g, ds := Genesis(w, st.log[0]), st.log[1..];
    GenesisInv(w, st.log[0]);
    CompletionsExact(w.def, g, ds, s);
    forall k | 0 <= k < |ds| && ds[k].body.StepCompleted?
      ensures var starts := Starts(ds[..k], ds[k].body.stepId);
              starts != [] && starts[|starts| - 1] == ds[k].body.attempt
    {
      CompletionFollowsStart(w.def, g, ds, k);
    }
  }

  /** In every prefix of the log: a COMPLETED instance has every step settled, at most the allowed number
      of steps run, each step has at most one open escalation, and no step under one runs or has failed. */
  lemma EveryPrefix(w: World, created: Draft, acts: seq<Action>, st: Sys, v: nat) returns (i: Instance)
    requires Reachable(w, created, acts, st) && 1 <= v <= |st.log|
    ensures Canon(w, st.log[..v]) == Ok(i) && i.version == v
    ensures i.status == WfCompleted ==> AllSettled(w.def, i)
    ensures |i.RunningSteps()| <= w.def.maxConcurrent
    ensures OneOpenEach(i)
    ensures forall s :: w.def.Has(s) && i.Open(s) ==>
                          i.Step(s).status != Pending && i.Step(s).status != Running && i.Step(s).status != Failed
  {
    ReachableInv(w, created, acts, st);
    PrefixGood(w, st.log, v);
    i := GoodProjects(w, st.log[..v]);
    forall s | w.def.Has(s) && i.Open(s)
      ensures i.Step(s).status != Pending && i.Step(s).status != Running && i.Step(s).status != Failed
    {
      var k := InvAt(w.def, i, s);
    }
  }

  /** Every start in the log was due: dependencies done (also on a restart from FAILED, where the planner
      does not look again), approval given, no open escalation, budget left, a free slot, the next attempt
      number, no output yet, and no recorded model call to replay. */
  lemma EveryStartWasDue(w: World, created: Draft, acts: seq<Action>, st: Sys, k: nat) returns (i: Instance)
    requires Reachable(w, created, acts, st) && k < |st.log| && st.log[k].body.StepStarted?
    ensures k >= 1 && Canon(w, st.log[..k]) == Ok(i)
    ensures LegalStart(w.def, i, st.log[k].body.stepId, st.log[k].body.attempt)
    ensures forall dep :: dep in w.def.StepOf(st.log[k].body.stepId).dependencies ==>
              i.Step(dep).status == Completed || i.Step(dep).status == Skipped
  {
    ReachableInv(w, created, acts, st);
    i := GoodAt(w, st.log, k);
    DepsAreDone(i, w.def.StepOf(st.log[k].body.stepId));
  }

  lemma DepsAreDone(i: Instance, v: WorkflowStep)
    requires DepsDone(i, v)
    ensures forall dep :: dep in v.dependencies ==> i.Step(dep).status == Completed || i.Step(dep).status == Skipped
  {
  }

  /** The events between two versions are legal from the one projection and lead to the other. */
  lemma Window(w: World, log: seq<Draft>, a: nat, b: nat) returns (i: Instance, j: Instance)
    requires Valid(w.def) && GoodLog(w, log) && 1 <= a <= b <= |log|
    ensures At(w, log[..a], i) && Inv(w.def, i) && At(w, log[..b], j) && AllLegal(w.def, i, log[a..b])
    ensures Replay(Some(w.def), i, log[a..b]) == Ok(j)
  {
    PrefixGood(w, log, a);
    PrefixGood(w, log, b);
    i := GoodProjects(w, log[..a]);
    j := GoodProjects(w, log[..b]);
    CanonFromGenesis(w, log[..a]);
    assert log[..b] == log[..a] + log[a..b];
    ReplayConcat(Some(w.def), Blank(w), log[..a], log[a..b]);
    TailOf(log[..a], log[a..b]);
    AllLegalConcat(w.def, Genesis(w, log[0]), log[..a][1..], log[a..b]);
  }

  /** Between creation, or any requeue of a step, and its next requeue, the step's attempts are 1, 2, 3, ...
      without a gap, and no more retries are scheduled than its policy allows. */
  lemma AttemptsAndRetries(w: World, created: Draft, acts: seq<Action>, st: Sys, s: StepId, a: nat, b: nat)
    returns (i: Instance, j: Instance)
    requires Reachable(w, created, acts, st) && 1 <= a <= b <= |st.log| && NeverRequeued(st.log[a..b], s)
    ensures Canon(w, st.log[..a]) == Ok(i) && Canon(w, st.log[..b]) == Ok(j)
    ensures i.Step(s).attempts <= j.Step(s).attempts
    ensures Starts(st.log[a..b], s) == Count(i.Step(s).attempts, j.Step(s).attempts)
    ensures a == 1 || Requeues(st.log[a - 1].body, s) ==> i.Step(s).attempts == 0
    ensures w.def.Has(s) ==> RetriesOf(st.log[a..b], s) <= w.def.StepOf(s).retry.maxRetries
  {
    ReachableInv(w, created, acts, st);
    i, j := Window(w, st.log, a, b);
    WindowCounts(w.def, i, st.log[a..b], j, s);
    FreshAttempts(w, st.log, a, s, i);
  }

  lemma WindowCounts(d: Definition, i: Instance, ds: seq<Draft>, j: Instance, s: StepId)
    requires AllLegal(d, i, ds) && Replay(Some(d), i, ds) == Ok(j) && NeverRequeued(ds, s)
    ensures i.Step(s).attempts <= j.Step(s).attempts && Starts(ds, s) == Count(i.Step(s).attempts, j.Step(s).attempts)
    ensures d.Has(s) ==> RetriesOf(ds, s) <= d.StepOf(s).retry.maxRetries
  {
    StartsAreConsecutive(d, i, ds, s);
    if d.Has(s) { RetriesAreBounded(d, i, ds, s); }
  }

  /** A new instance and a requeued step have no attempts. */
  lemma FreshAttempts(w: World, log: seq<Draft>, a: nat, s: StepId, i: Instance)
    requires Valid(w.def) && GoodLog(w, log) && 1 <= a <= |log| && Canon(w, log[..a]) == Ok(i)
    ensures a == 1 || Requeues(log[a - 1].body, s) ==> i.Step(s).attempts == 0
  {
    if a == 1 {
      GenesisInv(w, log[0]);
      CanonFromGenesis(w, log[..1]);
    } else if Requeues(log[a - 1].body, s) {
      var m := GoodAt(w, log, a - 1);
      CanonSnoc(w, log, a - 1, m);
      RequeueResets(w.def, m, log[a - 1], s);
    }
  }

  lemma CanonSnoc(w: World, log: seq<Draft>, k: nat, m: Instance)
    requires k < |log| && Canon(w, log[..k]) == Ok(m)
    ensures Canon(w, log[..k + 1]) == Advance(Some(w.def), m, log[k])
  {
    assert log[..k + 1] == log[..k] + [log[k]];
    ReplayConcat(Some(w.def), Blank(w), log[..k], [log[k]]);
    ReplayOne(Some(w.def), m, log[k]);
  }

  lemma RequeueResets(d: Definition, i: Instance, x: Draft, s: StepId)
    requires Legal(d, i, x.body) && Requeues(x.body, s)
    ensures Advance(Some(d), i, x).Ok? && Advance(Some(d), i, x).value.Step(s).attempts == 0
  {
    StepAfter(d, i, x, s);
  }

  /** The first escalation raised on a step that requires approval is the explicit approval. */
  lemma ApprovalComesFirst(w: World, created: Draft, acts: seq<Action>, st: Sys, k: nat)
    requires Reachable(w, created, acts, st) && k < |st.log| - 1
    requires var ds := st.log[1..];
             && ds[k].body.EscalationRaised? && w.def.Has(ds[k].body.stepId)
             && w.def.StepOf(ds[k].body.stepId).requiresApproval
             && !RaisedIn(ds[..k], ds[k].body.stepId)
    ensures st.log[1..][k].body.reason == "explicit_approval"
  {
    ReachableInv(w, created, acts, st);
    GenesisInv(w, st.log[0]);
    NotEmptyId(w.def, st.log[1..][k].body.stepId);
    FirstEscalationIsApproval(w.def, Genesis(w, st.log[0]), st.log[1..], k);
  }

  // --- progress ----------------------------------------------------------------------------

  lemma IdleMove(d: Definition, i: Instance, ph: Phase, worker: string, inp: Input)
    requires Fits(d, i, ph, inp) && NextMove(d, i, ph, worker, inp) == Finish([], None, DoneIdle)
    ensures ph.Looping? && i.status == WfRunning && i.Covers(d) && Idle(PlanOf(d, i, inp.now))
  {
  }

  ghost predicate HeldByHuman(d: Definition, i: Instance) {
    exists k :: 0 <= k < |d.steps| && (i.Step(d.steps[k].stepId).status == Waiting || i.Open(d.steps[k].stepId))
  }

  lemma IdleIsHeld(d: Definition, i: Instance, now: Time)
    requires Valid(d) && Boundary(d, i) && i.status == WfRunning && i.Covers(d) && i.RunningSteps() == {}
    requires Idle(PlanOf(d, i, now))
    ensures HeldByHuman(d, i)
  {
    IdleOnlyIfBlocked(d, i, now);
    var k :| 0 <= k < |d.steps| && Blocked(i, d.steps[k].stepId);
  }

  /** A drive gives up as IDLE only while some step waits for a human or is under an open escalation: the
      graph itself never leaves the planner without a move. */
  lemma IdleOnlyWhenHeld(w: World, created: Draft, acts: seq<Action>, st: Sys, f: nat, inp: Input)
    requires Reachable(w, created, acts, st) && f in st.drives
    requires var dr := st.drives[f];
             && Fits(w.def, dr.proj, dr.phase, inp)
             && NextMove(w.def, dr.proj, dr.phase, dr.lease.worker, inp) == Finish([], None, DoneIdle)
    ensures HeldByHuman(w.def, st.drives[f].proj)
  {
    ReachableInv(w, created, acts, st);
    DriveProjects(w, st, f);
    var dr := st.drives[f];
    IdleMove(w.def, dr.proj, dr.phase, dr.lease.worker, inp);
    SeedIdempotent(w.def, dr.proj);
    IdleIsHeld(w.def, dr.proj, inp.now);
  }

  /** A gate that is not there now is not there later: only failed steps become candidates by waiting,
      and a failed step has its approval. */
  lemma GateIsNotLate(d: Definition, i: Instance, now: Time, later: Time, s: StepId)
    requires Valid(d) && Inv(d, i) && Gated(d, i, later, s)
    ensures Gated(d, i, now, s)
  {
    var k :| 0 <= k < |d.steps| && d.steps[k].stepId == s && Candidate(i, d.steps[k], later)
             && d.steps[k].requiresApproval && !i.Open(s) && !i.Granted(s);
    assert StepInv(d, i, d.steps[k]);
    assert Candidate(i, d.steps[k], now);
  }

  lemma GatedIsNeeded(d: Definition, i: Instance, now: Time, s: StepId)
    requires Valid(d) && Gated(d, i, now, s)
    ensures s in NeedApproval(d, i, Candidates(d, i, now, |d.steps|))
  {
    var k :| 0 <= k < |d.steps| && d.steps[k].stepId == s && Candidate(i, d.steps[k], now)
             && d.steps[k].requiresApproval && !i.Open(s) && !i.Granted(s);
    CandidateIsProposed(d, i, now, k);
    StepOfAt(d, k);
    NeedApprovalMeans(d, i, Candidates(d, i, now, |d.steps|));
  }

  lemma NoLateGates(d: Definition, i: Instance, now: Time, later: Time)
    requires Valid(d) && Inv(d, i) && NeedApproval(d, i, Candidates(d, i, now, |d.steps|)) == []
    ensures PlanOf(d, i, later).approvalNeeded == []
  {
    var gates := PlanOf(d, i, later).approvalNeeded;
    GatesMean(d, i, later);
    if gates != [] {
      assert gates[0] in gates;
      GateIsNotLate(d, i, now, later, gates[0]);
      GatedIsNeeded(d, i, now, gates[0]);
    }
  }

  lemma ParkedMove(d: Definition, i: Instance, ph: Phase, worker: string, inp: Input, at: Option<Time>)
    requires Fits(d, i, ph, inp)
             && NextMove(d, i, ph, worker, inp) == Finish([Moved(WfRunning, WfRetrying, inp.now)], at, DoneParked)
    ensures ph.Looping? && i.status == WfRunning && i.Covers(d) && PlanOf(d, i, inp.now).retryWakeup == at && at.Some?
    ensures PlanOf(d, i, inp.now).terminalFailure.None?
            && NeedApproval(d, i, Candidates(d, i, inp.now, |d.steps|)) == []
  {
  }

  lemma WakeupActs(d: Definition, i: Instance, now: Time, later: Time)
    requires Valid(d) && Inv(d, i) && i.RunningSteps() == {} && PlanOf(d, i, now).terminalFailure.None?
    requires PlanOf(d, i, now).retryWakeup.Some? && later >= PlanOf(d, i, now).retryWakeup.value
    requires NeedApproval(d, i, Candidates(d, i, now, |d.steps|)) == []
    ensures PlanOf(d, i, later).dispatch != [] || PlanOf(d, i, later).budgetBlocked.Some?
  {
    forall k | 0 <= k < |d.steps| && i.Open(d.steps[k].stepId) ensures i.Step(d.steps[k].stepId).status != Failed {
      assert StepInv(d, i, d.steps[k]);
    }
    WakeupIsProductive(d, i, now, later);
    NoLateGates(d, i, now, later);
  }

  /** The time is the earliest retry after `now` among the steps that wait for one. */
  ghost predicate EarliestRetry(d: Definition, i: Instance, now: Time, at: Time) {
    && at > now
    && (exists k :: 0 <= k < |d.steps| && Delayed(i, d.steps[k], now)
                    && i.Step(d.steps[k].stepId).nextRetryAt == Some(at))
    && (forall k :: 0 <= k < |d.steps| && Delayed(i, d.steps[k], now) ==>
          at <= i.Step(d.steps[k].stepId).nextRetryAt.value)
  }

  ghost predicate HasWork(d: Definition, i: Instance, later: Time) {
    PlanOf(d, i, later).dispatch != [] || PlanOf(d, i, later).budgetBlocked.Some?
  }

  /** The planner's half: what a parking plan says about its wakeup. */
  lemma ParkedPlan(d: Definition, i: Instance, now: Time, at: Time, later: Time)
    requires Valid(d) && Inv(d, i) && i.RunningSteps() == {} && PlanOf(d, i, now).terminalFailure.None?
    requires PlanOf(d, i, now).retryWakeup == Some(at) && NeedApproval(d, i, Candidates(d, i, now, |d.steps|)) == []
    ensures EarliestRetry(d, i, now, at) && (later >= at ==> HasWork(d, i, later))
  {
    WakeIsEarliest(d, i, now, at);
    if later >= at { WakeupActs(d, i, now, later); }
  }

  lemma WakeIsEarliest(d: Definition, i: Instance, now: Time, at: Time)
    requires PlanOf(d, i, now).retryWakeup == Some(at)
    ensures EarliestRetry(d, i, now, at)
  {
    EarliestMeans(d, i, now, |d.steps|);
  }

  lemma CoveredDrive(w: World, created: Draft, acts: seq<Action>, st: Sys, f: nat)
    requires Reachable(w, created, acts, st) && f in st.drives && st.drives[f].proj.Covers(w.def)
             && st.drives[f].phase.Looping?
    ensures Inv(w.def, st.drives[f].proj) && st.drives[f].proj.RunningSteps() == {}
  {
    ReachableInv(w, created, acts, st);
    DriveProjects(w, st, f);
    SeedIdempotent(w.def, st.drives[f].proj);
  }

  /** A parked instance sleeps until exactly the earliest scheduled retry, and from then on the planner has
      a step to dispatch or to block on the budget. */
  lemma ParkedWakesToWork(w: World, created: Draft, acts: seq<Action>, st: Sys, f: nat, inp: Input, at: Option<Time>,
                          later: Time)
    requires Reachable(w, created, acts, st) && f in st.drives
    requires var dr := st.drives[f];
             && Fits(w.def, dr.proj, dr.phase, inp)
             && NextMove(w.def, dr.proj, dr.phase, dr.lease.worker, inp)
                == Finish([Moved(WfRunning, WfRetrying, inp.now)], at, DoneParked)
    ensures at.Some? && EarliestRetry(w.def, st.drives[f].proj, inp.now, at.value)
    ensures later >= at.value ==> HasWork(w.def, st.drives[f].proj, later)
  {
    var dr := st.drives[f];
    ParkedMove(w.def, dr.proj, dr.phase, dr.lease.worker, inp, at);
    CoveredDrive(w, created, acts, st, f);
    ParkedPlan(w.def, dr.proj, inp.now, at.value, later);
  }

  lemma UncoveredFaults(d: Definition, i: Instance, worker: string, inp: Input)
    requires i.status == WfRunning && !i.Covers(d)
    ensures NextMove(d, i, Looping, worker, inp).Fault?
  {
  }

  /** A drive's move faults exactly when the planner meets a projection that lacks a defined step. */
  lemma FaultsExactly(w: World, created: Draft, acts: seq<Action>, st: Sys, f: nat, inp: Input)
    requires Reachable(w, created, acts, st) && f in st.drives
    requires Fits(w.def, st.drives[f].proj, st.drives[f].phase, inp)
    ensures var dr := st.drives[f];
            NextMove(w.def, dr.proj, dr.phase, dr.lease.worker, inp).Fault?
            <==> dr.phase.Looping? && dr.proj.status == WfRunning && !dr.proj.Covers(w.def)
  {
    ReachableInv(w, created, acts, st);
    var dr := st.drives[f];
    var j := MoveOf(w, st, f, inp);
    if dr.phase.Looping? && dr.proj.status == WfRunning && !dr.proj.Covers(w.def) {
      UncoveredFaults(w.def, dr.proj, dr.lease.worker, inp);
    }
  }

  /** A drive's batch is never rejected by the fold: its append fails exactly when there is something to
      append and the lease or the version is lost. */
  lemma MovesAreAccepted(w: World, created: Draft, acts: seq<Action>, st: Sys, f: nat, inp: Input)
    requires Reachable(w, created, acts, st) && f in st.drives
    requires Fits(w.def, st.drives[f].proj, st.drives[f].phase, inp)
    ensures var dr := st.drives[f];
            var mv := NextMove(w.def, dr.proj, dr.phase, dr.lease.worker, inp);
            !mv.Fault? ==> (DoAppend(w, st, f, mv.drafts, mv.wakeup).None? <==> mv.drafts != [] && !Current(st, f))
  {
    ReachableInv(w, created, acts, st);
    var dr := st.drives[f];
    var mv := NextMove(w.def, dr.proj, dr.phase, dr.lease.worker, inp);
    var j := MoveOf(w, st, f, inp);
    if !mv.Fault? { AppendOutcome(w, st, f, mv.drafts, mv.wakeup, j); }
  }

  lemma WaitingIsPermitted(i: Instance, s: StepId, r: Resolution)
    requires s == "" || i.Step(s).status == Waiting
    ensures Permitted(i, s, r)
  {
  }

  /** When the unguarded writers' batches commit. A decision from a row seen pending at any earlier time
      commits exactly when the instance is waiting and the step table permits its move, which it always does
      while the step waits; an operator's request commits exactly when it is allowed. */
  lemma WritersAreAccepted(w: World, created: Draft, acts: seq<Action>, st: Sys, id: string, s: StepId, c: Decision,
                           q: Request, now: Time) returns (i: Instance)
    requires Reachable(w, created, acts, st)
    ensures Canon(w, st.log) == Ok(i)
    ensures DoDecide(w, st, id, s, c, now).log
            == if (id, s) in st.looked && i.status == WfWaiting && Permitted(i, s, c.Choice())
               then st.log + DecisionDrafts(i, id, s, c, now) else st.log
    ensures s == "" || i.Step(s).status == Waiting ==> Permitted(i, s, c.Choice())
    ensures DoOperate(w, st, q, now).log
            == if Control(i, q, now).Write? then st.log + [Control(i, q, now).draft] else st.log
  {
    ReachableInv(w, created, acts, st);
    var j;
    i, j := DecideKeeps(w, st, id, s, c, now);
    var a, b := OperateKeeps(w, st, q, now);
    if s == "" || i.Step(s).status == Waiting { WaitingIsPermitted(i, s, c.Choice()); }
  }

  /** What a decision in a run does. From a row seen pending at any earlier time it is taken exactly when the
      instance waits and the answer does not come too late for the step; then the log projects to the answered
      instance, and otherwise nothing is written. */
  lemma DecideMeans(w: World, created: Draft, acts: seq<Action>, st: Sys, id: string, s: StepId, c: Decision, now: Time)
    returns (i: Instance, j: Instance)
    requires Reachable(w, created, acts, st) && (id, s) in st.looked
    ensures Canon(w, st.log) == Ok(i) && Canon(w, DoDecide(w, st, id, s, c, now).log) == Ok(j)
    ensures if i.status == WfWaiting && !TooLate(i, s, c)
            then StepsAnswered(i, j, s, c) && WorkflowAnswered(i, j, s, c) && RefsAnswered(i, j, id)
                 && DataAnswered(i, j, c)
            else DoDecide(w, st, id, s, c, now).log == st.log
  {
    ReachableInv(w, created, acts, st);
    var i', raw := DecideReads(w, st, id, s, c, now);
    i, j := DecideKeeps(w, st, id, s, c, now);
    if i.status == WfWaiting {
      AnswerTakenIff(w.def, i, id, s, c, now);
      if !TooLate(i, s, c) {
        var k := AnswerMeans(w.def, i, id, s, c, now);
        Extend(w, st.log, i, DecisionDrafts(i, id, s, c, now), k);
      }
    }
  }

  /** A driver's private projection equals the fold of the durable log up to its version, whatever others
      have appended since; with every step present it is that fold exactly. */
  lemma ProjectionIsTheLog(w: World, created: Draft, acts: seq<Action>, st: Sys, f: nat)
    requires Reachable(w, created, acts, st) && f in st.drives
    ensures var p := st.drives[f].proj;
            && 1 <= p.version <= |st.log| && Canon(w, st.log[..p.version]) == Ok(Seeded(w.def, p))
            && (p.Covers(w.def) ==> Canon(w, st.log[..p.version]) == Ok(p))
  {
    ReachableInv(w, created, acts, st);
    DriveProjects(w, st, f);
    SeedIdempotent(w.def, st.drives[f].proj);
  }

  // --- controllers ----------------------------------------------------------------------------

  /** The escalation was pending in some prefix of the log. */
  ghost predicate SeenOpen(w: World, log: seq<Draft>, p: (string, StepId)) {
    exists v :: 0 <= v <= |log| && OpenAt(w, log, v, p)
  }

  predicate OpenAt(w: World, log: seq<Draft>, v: nat, p: (string, StepId))
    requires v <= |log|
  {
    Raw(w, log[..v]).Ok? && OpenRef(Raw(w, log[..v]).value, p.0, p.1)
  }

  lemma StaysSeen(w: World, log: seq<Draft>, more: seq<Draft>, p: (string, StepId))
    requires SeenOpen(w, log, p) && log <= more
    ensures SeenOpen(w, more, p)
  {
    var v :| 0 <= v <= |log| && OpenAt(w, log, v, p);
    assert more[..v] == log[..v] && OpenAt(w, more, v, p);
  }

  lemma LookedGrows(w: World, st: Sys, a: Action)
    ensures var t := Apply(w, st, a);
            t.looked == st.looked
            || (a.Look? && t.looked == st.looked + {(a.id, a.stepId)} && t.log == st.log
                && Raw(w, st.log).Ok? && OpenRef(Raw(w, st.log).value, a.id, a.stepId))
  {
    if a.Step? { StepLeavesLooked(w, st, a.fence, a.input); }
  }

  lemma StepLeavesLooked(w: World, st: Sys, f: nat, inp: Input)
    ensures DoStep(w, st, f, inp).looked == st.looked
  {
  }

  lemma ActionSees(w: World, st: Sys, a: Action)
    requires forall p :: p in st.looked ==> SeenOpen(w, st.log, p)
    ensures forall p :: p in Apply(w, st, a).looked ==> SeenOpen(w, Apply(w, st, a).log, p)
  {
    var t := Apply(w, st, a);
    LookedGrows(w, st, a);
    ActionGrows(w, st, a);
    forall p | p in t.looked ensures SeenOpen(w, t.log, p) {
      if p in st.looked {
        StaysSeen(w, st.log, t.log, p);
      } else {
        assert st.log[..|st.log|] == st.log && OpenAt(w, t.log, |t.log|, p);
      }
    }
  }

  lemma {:induction false} RunSees(w: World, st: Sys, acts: seq<Action>)
    requires forall p :: p in st.looked ==> SeenOpen(w, st.log, p)
    ensures forall p :: p in Run(w, st, acts).looked ==> SeenOpen(w, Run(w, st, acts).log, p)
    decreases |acts|
  {
    if acts != [] {
      ActionSees(w, st, acts[0]);
      RunSees(w, Apply(w, st, acts[0]), acts[1..]);
    }
  }

  /** Every row a controller decides from was pending in some prefix of the log. */
  lemma DecidesFromPendingRows(w: World, created: Draft, acts: seq<Action>, st: Sys, p: (string, StepId))
    requires Reachable(w, created, acts, st) && p in st.looked
    ensures exists v :: 0 <= v <= |st.log| && OpenAt(w, st.log, v, p)
  {
    RunSees(w, Initial(created), acts);
  }

  // --- fencing --------------------------------------------------------------------------------

  /** Grants are numbered 1, 2, 3, ...; at any moment exactly the latest one passes the guard. */
  lemma OnlyTheLatestGrantPasses(w: World, created: Draft, acts: seq<Action>, st: Sys, k: nat)
    requires Reachable(w, created, acts, st) && k < |st.issued|
    ensures st.issued[k].fence == k + 1
    ensures Guard(st, st.issued[k]) <==> k == |st.issued| - 1
  {
    ReachableInv(w, created, acts, st);
  }

  ghost predicate Grows(st: Sys, t: Sys) {
    st.log <= t.log && st.authors <= t.authors && st.issued <= t.issued
  }

  lemma StepGrows(w: World, st: Sys, f: nat, inp: Input)
    ensures Grows(st, DoStep(w, st, f, inp))
  {
  }

  lemma ActionGrows(w: World, st: Sys, a: Action)
    ensures Grows(st, Apply(w, st, a))
  {
    if a.Step? { StepGrows(w, st, a.fence, a.input); }
  }

  /** The log, its authors and the grants are append-only. */
  lemma {:induction false} RunGrows(w: World, st: Sys, acts: seq<Action>)
    ensures Grows(st, Run(w, st, acts))
    decreases |acts|
  {
    if acts != [] {
      ActionGrows(w, st, acts[0]);
      RunGrows(w, Apply(w, st, acts[0]), acts[1..]);
    }
  }

  lemma {:induction false} RunConcat(w: World, st: Sys, a: seq<Action>, b: seq<Action>)
    ensures Run(w, st, a + b) == Run(w, Run(w, st, a), b)
    decreases |a|
  {
    if a == [] {
      assert a + b == b;
    } else {
      assert (a + b)[1..] == a[1..] + b;
      RunConcat(w, Apply(w, st, a[0]), a[1..], b);
    }
  }

  /** Once a later lease has been granted, an earlier one never passes the guard again. */
  lemma SupersededForGood(w: World, created: Draft, acts: seq<Action>, st: Sys, k: nat, more: seq<Action>)
    requires Reachable(w, created, acts, st) && k + 1 < |st.issued|
    ensures !Guard(Run(w, st, more), st.issued[k])
  {
    RunConcat(w, Initial(created), acts, more);
    RunGrows(w, st, more);
    OnlyTheLatestGrantPasses(w, created, acts + more, Run(w, st, more), k);
  }

  /** Fences of guarded events never decrease along the log. */
  lemma GuardedFencesRise(w: World, created: Draft, acts: seq<Action>, st: Sys)
    requires Reachable(w, created, acts, st)
    ensures |st.authors| == |st.log| && FencesRise(st.authors)
  {
    ReachableInv(w, created, acts, st);
  }

  // --- linearity -------------------------------------------------------------------------------

  /** Two commits at the same expected version never both succeed, whatever happens in between. */
  lemma OneWinnerPerVersion(w: World, st: Sys, v: nat, a: Author, ds: seq<Draft>, b: Author, es: seq<Draft>,
                            wakeup: Option<Time>, acts: seq<Action>)
    requires ds != [] && Commit(w, st, a, v, ds, wakeup).Some?
    ensures Commit(w, Run(w, Commit(w, st, a, v, ds, wakeup).value, acts), b, v, es, wakeup).None?
  {
    RunGrows(w, Commit(w, st, a, v, ds, wakeup).value, acts);
  }

  /** All events of one drive form one contiguous run right after the log it read, so whoever wrote in
      between was read: an operator's transition is never overwritten by a driver that had not seen it. */
  lemma DriveWritesOneRun(w: World, created: Draft, acts: seq<Action>, st: Sys, k: nat, l: nat)
    requires Reachable(w, created, acts, st) && k < l < |st.authors|
    requires st.authors[l].ByDrive? && st.authors[k] != st.authors[l]
    ensures st.authors[l].fence in st.begun && k < st.begun[st.authors[l].fence] <= l
    ensures forall j :: 0 <= j <= k ==> st.authors[j] != st.authors[l]
  {
    ReachableInv(w, created, acts, st);
    assert Own(st.authors, st.begun, l);
    forall j | 0 <= j <= k ensures st.authors[j] != st.authors[l] {
      assert Own(st.authors, st.begun, j);
    }
  }
}
