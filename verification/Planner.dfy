/** The driver's planner (`WorkflowDriver._plan`) and what it guarantees. */
module Planner {
  import opened Domain
  import Dag

  // --- validated definitions ------------------------------------------------

  function GraphOf(d: Definition): Dag.Graph {
    map s | s in d.Ids() :: d.StepOf(s).dependencies
  }

  /** What `WorkflowDefinition` validation leaves standing. */
  ghost predicate Valid(d: Definition) {
    && d.DistinctIds() && "" !in d.Ids() && d.maxConcurrent >= 1
    && Dag.Known(GraphOf(d)) && Dag.Acyclic(GraphOf(d))
  }

  lemma {:induction false} StepFromUnique(ws: seq<WorkflowStep>, k: nat)
    requires forall i, j :: 0 <= i < j < |ws| ==> ws[i].stepId != ws[j].stepId
    requires k < |ws|
    ensures Definition.StepFrom(ws, ws[k].stepId) == ws[k]
    decreases |ws|
  {
    if k > 0 { StepFromUnique(ws[1..], k - 1); }
  }

  lemma StepOfAt(d: Definition, k: nat)
    requires d.DistinctIds() && k < |d.steps|
    ensures d.Has(d.steps[k].stepId) && d.StepOf(d.steps[k].stepId) == d.steps[k]
  {
    StepFromUnique(d.steps, k);
  }

  lemma DepsKnown(d: Definition, k: nat, dep: StepId)
    requires Valid(d) && k < |d.steps| && dep in d.steps[k].dependencies
    ensures d.Has(dep) && Dag.DependsOn(GraphOf(d), d.steps[k].stepId, dep)
  {
    StepOfAt(d, k);
    assert Dag.DependsOn(GraphOf(d), d.steps[k].stepId, dep);
  }

  // --- the plan ------------------------------------------------------------

  type Attempt = (StepId, nat)

  datatype Plan = Plan(
    dispatch: seq<Attempt>,
    approvalNeeded: seq<StepId>,
    terminalFailure: Option<StepId>,
    retryWakeup: Option<Time>,
    allSettled: bool,
    budgetBlocked: Option<StepId>)

  const EMPTY_PLAN := Plan([], [], None, None, false, None)

  predicate DepsDone(i: Instance, w: WorkflowStep) {
    forall k :: 0 <= k < |w.dependencies| ==> Done(i.Step(w.dependencies[k]).status)
  }

  predicate Candidate(i: Instance, w: WorkflowStep, now: Time) {
    var st := i.Step(w.stepId);
    if st.status == Pending || st.status == Ready then DepsDone(i, w)
    else st.status == Failed && st.nextRetryAt.Some? && st.nextRetryAt.value <= now
  }

  predicate Exhausted(i: Instance, w: WorkflowStep) {
    i.Step(w.stepId).status == Failed && i.Step(w.stepId).nextRetryAt.None?
  }

  predicate Delayed(i: Instance, w: WorkflowStep, now: Time) {
    i.Step(w.stepId).status == Failed && i.Step(w.stepId).nextRetryAt.Some? && i.Step(w.stepId).nextRetryAt.value > now
  }

  /** A step is a candidate exactly if it has not run and every dependency is completed or skipped, or if it failed
      and its retry is due. */
  lemma CandidateIff(i: Instance, w: WorkflowStep, now: Time)
    ensures var st := i.Step(w.stepId);
            Candidate(i, w, now)
            <==> || ((st.status == Pending || st.status == Ready)
                     && forall k :: 0 <= k < |w.dependencies| ==>
                          i.Step(w.dependencies[k]).status == Completed || i.Step(w.dependencies[k]).status == Skipped)
                 || (st.status == Failed && st.nextRetryAt.Some? && st.nextRetryAt.value <= now)
  {
    if DepsDone(i, w) {
      forall k | 0 <= k < |w.dependencies|
        ensures i.Step(w.dependencies[k]).status == Completed || i.Step(w.dependencies[k]).status == Skipped
      {
        assert Done(i.Step(w.dependencies[k]).status);
      }
    }
  }

  function Candidates(d: Definition, i: Instance, now: Time, n: nat): (cs: seq<Attempt>)
    requires n <= |d.steps|
    ensures forall c :: c in cs ==> d.Has(c.0)
  {
    if n == 0 then []
    else
      var w := d.steps[n - 1];
      Candidates(d, i, now, n - 1) + if Candidate(i, w, now) then [(w.stepId, i.Step(w.stepId).attempts + 1)] else []
  }

  function FirstExhausted(d: Definition, i: Instance, n: nat): Option<StepId>
    requires n <= |d.steps|
  {
    if n == 0 then None
    else
      var r := FirstExhausted(d, i, n - 1);
      if r.None? && Exhausted(i, d.steps[n - 1]) then Some(d.steps[n - 1].stepId) else r
  }

  function Earliest(d: Definition, i: Instance, now: Time, n: nat): Option<Time>
    requires n <= |d.steps|
  {
    if n == 0 then None
    else
      var r := Earliest(d, i, now, n - 1);
      if !Delayed(i, d.steps[n - 1], now) then r
      else
        var t := i.Step(d.steps[n - 1].stepId).nextRetryAt.value;
        if r.None? || t < r.value then Some(t) else r
  }

  function NeedApproval(d: Definition, i: Instance, cs: seq<Attempt>): seq<StepId>
    requires forall c :: c in cs ==> d.Has(c.0)
  {
    if cs == [] then []
    else
      var c := cs[|cs| - 1];
      NeedApproval(d, i, cs[..|cs| - 1])
      + if d.StepOf(c.0).requiresApproval && !i.Open(c.0) && !i.Granted(c.0) then [c.0] else []
  }

  function NotHeld(i: Instance, cs: seq<Attempt>): seq<Attempt> {
    if cs == [] then []
    else
      var c := cs[|cs| - 1];
      NotHeld(i, cs[..|cs| - 1]) + if i.Open(c.0) then [] else [c]
  }

  function Free(d: Definition, i: Instance): nat {
    if d.maxConcurrent > |i.RunningSteps()| then d.maxConcurrent - |i.RunningSteps()| else 0
  }

  predicate AllSettled(d: Definition, i: Instance) {
    forall k :: 0 <= k < |d.steps| ==> Settled(i.Step(d.steps[k].stepId).status)
  }

  function PlanOf(d: Definition, i: Instance, now: Time): Plan {
    var n := |d.steps|;
    var cs := Candidates(d, i, now, n);
    var wake := Earliest(d, i, now, n);
    var failed := FirstExhausted(d, i, n);
    var gates := NeedApproval(d, i, cs);
    var free := NotHeld(i, cs);
    var dispatch := if |free| <= Free(d, i) then free else free[..Free(d, i)];
    if failed.Some? then EMPTY_PLAN.(terminalFailure := failed, retryWakeup := wake)
    else if gates != [] then EMPTY_PLAN.(approvalNeeded := gates, retryWakeup := wake)
    else if free != [] && i.BudgetOut() then EMPTY_PLAN.(budgetBlocked := Some(free[0].0), retryWakeup := wake)
    else EMPTY_PLAN.(dispatch := dispatch, retryWakeup := wake,
                     allSettled := dispatch == [] && wake.None? && i.RunningSteps() == {} && AllSettled(d, i))
  }

  /** The planner's pass over the steps: candidates, the first exhausted failure, the earliest retry. */
  method ScanSteps(d: Definition, i: Instance, now: Time)
    returns (candidates: seq<Attempt>, failed: Option<StepId>, wake: Option<Time>)
    requires i.Covers(d)
    ensures candidates == Candidates(d, i, now, |d.steps|)
    ensures failed == FirstExhausted(d, i, |d.steps|) && wake == Earliest(d, i, now, |d.steps|)
  {
    candidates, failed, wake := [], None, None;
    var k := 0;
    while k < |d.steps|
      invariant 0 <= k <= |d.steps|
      invariant candidates == Candidates(d, i, now, k)
      invariant failed == FirstExhausted(d, i, k) && wake == Earliest(d, i, now, k)
    {
      var w := d.steps[k];
      var st := i.steps[w.stepId];
      if st.status == Pending || st.status == Ready {
        if DepsDone(i, w) {
          candidates := candidates + [(w.stepId, st.attempts + 1)];
        }
      } else if st.status == Failed {
        if st.nextRetryAt.None? {
          if failed.None? { failed := Some(w.stepId); }
        } else if st.nextRetryAt.value <= now {
          candidates := candidates + [(w.stepId, st.attempts + 1)];
        } else if wake.None? || st.nextRetryAt.value < wake.value {
          wake := st.nextRetryAt;
        }
      }
      k := k + 1;
    }
  }

  /** The planner's filters over the candidates: those that need an approval, those not held by one. */
  method SortOut(d: Definition, i: Instance, candidates: seq<Attempt>) returns (gates: seq<StepId>, free: seq<Attempt>)
    requires forall c :: c in candidates ==> d.Has(c.0)
    ensures gates == NeedApproval(d, i, candidates) && free == NotHeld(i, candidates)
  {
    gates, free := [], [];
    var k := 0;
    while k < |candidates|
      invariant 0 <= k <= |candidates|
      invariant gates == NeedApproval(d, i, candidates[..k]) && free == NotHeld(i, candidates[..k])
    {
      var c := candidates[k];
      assert candidates[..k + 1][..k] == candidates[..k];
      if d.StepOf(c.0).requiresApproval && !i.Open(c.0) && !i.Granted(c.0) { gates := gates + [c.0]; }
      if !i.Open(c.0) { free := free + [c]; }
      k := k + 1;
    }
    assert candidates[..k] == candidates;
  }

  /** The source's planner: one pass over the steps, then filters over the candidate list. */
  method MakePlan(d: Definition, i: Instance, now: Time) returns (plan: Plan)
    requires i.Covers(d)
    ensures plan == PlanOf(d, i, now) && (Valid(d) ==> Says(d, i, now, plan))
  {
    if Valid(d) { PlanSays(d, i, now); }
    var candidates, failed, wake := ScanSteps(d, i, now);
    plan := EMPTY_PLAN.(retryWakeup := wake);
    if failed.Some? { return plan.(terminalFailure := failed); }
    var gates, free := SortOut(d, i, candidates);
    if gates != [] { return plan.(approvalNeeded := gates); }
    if free != [] && i.BudgetOut() { return plan.(budgetBlocked := Some(free[0].0)); }
    var slots := Free(d, i);
    plan := plan.(dispatch := if |free| <= slots then free else free[..slots]);
    if plan.dispatch == [] && wake.None? && i.RunningSteps() == {} {
      plan := plan.(allSettled := AllSettled(d, i));
    }
  }

  // --- what a plan means ------------------------------------------------

  ghost predicate Distinct(cs: seq<Attempt>) {
    forall a, b :: 0 <= a < b < |cs| ==> cs[a].0 != cs[b].0
  }

  /** Among the first `n` steps, one is a candidate for exactly this attempt. */
  ghost predicate Proposed(d: Definition, i: Instance, now: Time, n: nat, c: Attempt)
    requires n <= |d.steps|
  {
    exists k :: 0 <= k < n && Candidate(i, d.steps[k], now)
                && c == (d.steps[k].stepId, i.Step(d.steps[k].stepId).attempts + 1)
  }

  lemma {:induction false} CandidatesMean(d: Definition, i: Instance, now: Time, n: nat)
    requires d.DistinctIds() && n <= |d.steps|
    ensures forall c :: c in Candidates(d, i, now, n) <==> Proposed(d, i, now, n, c)
    ensures Distinct(Candidates(d, i, now, n))
    decreases n
  {
    if n > 0 {
      CandidatesMean(d, i, now, n - 1);
      var w := d.steps[n - 1];
      var front, all := Candidates(d, i, now, n - 1), Candidates(d, i, now, n);
      forall c ensures c in all <==> Proposed(d, i, now, n, c) {
        assert Proposed(d, i, now, n, c)
               <==> Proposed(d, i, now, n - 1, c)
                    || (Candidate(i, w, now) && c == (w.stepId, i.Step(w.stepId).attempts + 1));
      }
      forall a, b | 0 <= a < b < |all| ensures all[a].0 != all[b].0 {
        assert all[a] in front;
        assert Proposed(d, i, now, n - 1, all[a]);
      }
    }
  }

  lemma {:induction false} FirstExhaustedMeans(d: Definition, i: Instance, n: nat)
    requires n <= |d.steps|
    ensures var r := FirstExhausted(d, i, n);
            && (r.None? <==> forall k :: 0 <= k < n ==> !Exhausted(i, d.steps[k]))
            && (r.Some? ==> exists k :: 0 <= k < n && Exhausted(i, d.steps[k]) && d.steps[k].stepId == r.value)
    decreases n
  {
    if n > 0 { FirstExhaustedMeans(d, i, n - 1); }
  }

  /** The wakeup is the minimum over the retries still in the future. */
  lemma {:induction false} EarliestMeans(d: Definition, i: Instance, now: Time, n: nat)
    requires n <= |d.steps|
    ensures var r := Earliest(d, i, now, n);
            && (r.None? <==> forall k :: 0 <= k < n ==> !Delayed(i, d.steps[k], now))
            && (r.Some? ==> r.value > now
                            && (exists k :: 0 <= k < n && Delayed(i, d.steps[k], now)
                                            && i.Step(d.steps[k].stepId).nextRetryAt == r)
                            && (forall k :: 0 <= k < n && Delayed(i, d.steps[k], now)
                                            ==> r.value <= i.Step(d.steps[k].stepId).nextRetryAt.value))
    decreases n
  {
    if n > 0 { EarliestMeans(d, i, now, n - 1); }
  }

  lemma {:induction false} NeedApprovalMeans(d: Definition, i: Instance, cs: seq<Attempt>)
    requires forall c :: c in cs ==> d.Has(c.0)
    requires Distinct(cs)
    ensures var r := NeedApproval(d, i, cs);
            && (forall s :: s in r <==>
                  exists c :: c in cs && c.0 == s && d.StepOf(s).requiresApproval && !i.Open(s) && !i.Granted(s))
            && (forall a, b :: 0 <= a < b < |r| ==> r[a] != r[b])
    decreases |cs|
  {
    if cs != [] {
      var front := cs[..|cs| - 1];
      NeedApprovalMeans(d, i, front);
      assert cs == front + [cs[|cs| - 1]];
      var r := NeedApproval(d, i, front);
      forall a | 0 <= a < |r| ensures r[a] != cs[|cs| - 1].0 {
        assert r[a] in r;
        var c :| c in front && c.0 == r[a];
      }
    }
  }

  lemma {:induction false} NotHeldMeans(i: Instance, cs: seq<Attempt>)
    requires Distinct(cs)
    ensures var r := NotHeld(i, cs);
            && (forall c :: c in r <==> c in cs && !i.Open(c.0))
            && Distinct(r)
    decreases |cs|
  {
    if cs != [] {
      var front := cs[..|cs| - 1];
      NotHeldMeans(i, front);
      assert cs == front + [cs[|cs| - 1]];
      var r := NotHeld(i, front);
      forall a | 0 <= a < |r| ensures r[a].0 != cs[|cs| - 1].0 {
        assert r[a] in r;
      }
    }
  }

  /** A step the planner may start: its own state, its dependencies, its approval, the budget. */
  ghost predicate Startable(d: Definition, i: Instance, now: Time, c: Attempt) {
    exists k :: 0 <= k < |d.steps| && c.0 == d.steps[k].stepId && Candidate(i, d.steps[k], now)
                && c.1 == i.Step(c.0).attempts + 1
                && !i.Open(c.0) && (d.steps[k].requiresApproval ==> i.Granted(c.0)) && !i.BudgetOut()
  }

  ghost predicate Gated(d: Definition, i: Instance, now: Time, s: StepId) {
    exists k :: 0 <= k < |d.steps| && d.steps[k].stepId == s && Candidate(i, d.steps[k], now)
                && d.steps[k].requiresApproval && !i.Open(s) && !i.Granted(s)
  }

  lemma ProposedStep(d: Definition, i: Instance, now: Time, c: Attempt) returns (k: nat)
    requires d.DistinctIds() && Proposed(d, i, now, |d.steps|, c)
    ensures k < |d.steps| && d.steps[k].stepId == c.0 && d.Has(c.0) && d.StepOf(c.0) == d.steps[k]
    ensures Candidate(i, d.steps[k], now) && c.1 == i.Step(c.0).attempts + 1
  {
    k :| 0 <= k < |d.steps| && Candidate(i, d.steps[k], now)
         && c == (d.steps[k].stepId, i.Step(d.steps[k].stepId).attempts + 1);
    StepOfAt(d, k);
  }

  lemma UngatedIsStartable(d: Definition, i: Instance, now: Time, c: Attempt)
    requires d.DistinctIds() && !i.BudgetOut()
    requires c in NotHeld(i, Candidates(d, i, now, |d.steps|))
    requires NeedApproval(d, i, Candidates(d, i, now, |d.steps|)) == []
    ensures Startable(d, i, now, c)
  {
    var cs := Candidates(d, i, now, |d.steps|);
    CandidatesMean(d, i, now, |d.steps|);
    NotHeldMeans(i, cs);
    var k := ProposedStep(d, i, now, c);
    NeedApprovalMeans(d, i, cs);
    assert c.0 !in NeedApproval(d, i, cs);
  }

  /** Every dispatched step is startable, once, and the wave fits the concurrency limit. */
  lemma DispatchMeans(d: Definition, i: Instance, now: Time)
    requires Valid(d)
    ensures var p := PlanOf(d, i, now);
            && (forall c :: c in p.dispatch ==> Startable(d, i, now, c))
            && Distinct(p.dispatch)
            && (p.dispatch != [] ==> |i.RunningSteps()| + |p.dispatch| <= d.maxConcurrent)
  {
    var p := PlanOf(d, i, now);
    if p.dispatch != [] {
      var cs := Candidates(d, i, now, |d.steps|);
      CandidatesMean(d, i, now, |d.steps|);
      NotHeldMeans(i, cs);
      PrefixOf(p.dispatch, NotHeld(i, cs));
      forall c | c in p.dispatch ensures Startable(d, i, now, c) {
        UngatedIsStartable(d, i, now, c);
      }
    }
  }

  lemma PrefixOf(p: seq<Attempt>, q: seq<Attempt>)
    requires p <= q && Distinct(q)
    ensures Distinct(p) && forall c :: c in p ==> c in q
  {
    assert forall k :: 0 <= k < |p| ==> p[k] == q[k];
  }

  /** The planner gates, once each, candidates whose approval nobody has asked for yet. */
  lemma GatesMean(d: Definition, i: Instance, now: Time)
    requires Valid(d)
    ensures var gates := PlanOf(d, i, now).approvalNeeded;
            && (forall s :: s in gates ==> Gated(d, i, now, s))
            && (forall a, b :: 0 <= a < b < |gates| ==> gates[a] != gates[b])
  {
    var cs := Candidates(d, i, now, |d.steps|);
    CandidatesMean(d, i, now, |d.steps|);
    NeedApprovalMeans(d, i, cs);
    forall s | s in NeedApproval(d, i, cs) ensures Gated(d, i, now, s) {
      var c :| c in cs && c.0 == s && d.StepOf(s).requiresApproval && !i.Open(s) && !i.Granted(s);
      var k := ProposedStep(d, i, now, c);
    }
  }

  // --- what a plan leaves out ------------------------------------------------

  /** The step may be worked on now: a candidate that no open escalation holds. */
  predicate Wanted(d: Definition, i: Instance, now: Time, k: int)
    requires 0 <= k < |d.steps|
  {
    Candidate(i, d.steps[k], now) && !i.Open(d.steps[k].stepId)
  }

  function AttemptAt(d: Definition, i: Instance, k: int): Attempt
    requires 0 <= k < |d.steps|
  {
    (d.steps[k].stepId, i.Step(d.steps[k].stepId).attempts + 1)
  }

  ghost predicate NoFailure(d: Definition, i: Instance) {
    forall k :: 0 <= k < |d.steps| ==> !Exhausted(i, d.steps[k])
  }

  ghost predicate NoGate(d: Definition, i: Instance, now: Time) {
    forall s :: !Gated(d, i, now, s)
  }

  /** The terminal failure is the first step, in definition order, that failed with no retry to come. */
  ghost predicate SaysFailure(d: Definition, i: Instance, p: Plan) {
    && (p.terminalFailure.None? <==> NoFailure(d, i))
    && (forall k :: 0 <= k < |d.steps| ==>
          (p.terminalFailure == Some(d.steps[k].stepId)
           <==> Exhausted(i, d.steps[k]) && forall m :: 0 <= m < k ==> !Exhausted(i, d.steps[m])))
  }

  /** Without one, exactly the gated steps need an approval. */
  ghost predicate SaysGates(d: Definition, i: Instance, now: Time, p: Plan) {
    forall s :: s in p.approvalNeeded <==> NoFailure(d, i) && Gated(d, i, now, s)
  }

  /** Without either, a budget that is out blocks the first wanted step, in definition order. */
  ghost predicate SaysBlock(d: Definition, i: Instance, now: Time, p: Plan) {
    var open := NoFailure(d, i) && NoGate(d, i, now) && i.BudgetOut();
    && (p.budgetBlocked.Some? <==> open && exists k :: 0 <= k < |d.steps| && Wanted(d, i, now, k))
    && (forall k :: 0 <= k < |d.steps| ==>
          (p.budgetBlocked == Some(d.steps[k].stepId)
           <==> open && Wanted(d, i, now, k) && forall m :: 0 <= m < k ==> !Wanted(d, i, now, m)))
  }

  /** The one step stands before the other in the definition. */
  ghost predicate Before(d: Definition, s: StepId, t: StepId) {
    forall m, n :: 0 <= m < |d.steps| && 0 <= n < |d.steps| && d.steps[m].stepId == s && d.steps[n].stepId == t ==>
      m < n
  }

  ghost predicate InOrder(d: Definition, cs: seq<Attempt>) {
    forall a, b :: 0 <= a < b < |cs| ==> Before(d, cs[a].0, cs[b].0)
  }

  /** The attempt is the next one of a defined step. */
  ghost predicate Indexed(d: Definition, i: Instance, c: Attempt) {
    exists k :: 0 <= k < |d.steps| && c == AttemptAt(d, i, k)
  }

  /** Otherwise wanted steps are dispatched, first come first served, and one is left out only when every
      slot is taken. */
  ghost predicate SaysDispatch(d: Definition, i: Instance, now: Time, p: Plan) {
    && InOrder(d, p.dispatch)
    && (forall k :: 0 <= k < |d.steps| && AttemptAt(d, i, k) in p.dispatch ==> Wanted(d, i, now, k))
    && (forall c :: c in p.dispatch ==> Indexed(d, i, c))
    && (NoFailure(d, i) && NoGate(d, i, now) && !i.BudgetOut() ==> Fills(d, i, now, p.dispatch))
    && (!NoFailure(d, i) || !NoGate(d, i, now) || i.BudgetOut() ==> p.dispatch == [])
  }

  ghost predicate Fills(d: Definition, i: Instance, now: Time, dispatch: seq<Attempt>) {
    && (forall k :: 0 <= k < |d.steps| && Wanted(d, i, now, k) && AttemptAt(d, i, k) !in dispatch ==>
          |dispatch| == if |i.RunningSteps()| <= d.maxConcurrent then d.maxConcurrent - |i.RunningSteps()| else 0)
    && (forall m, n :: 0 <= m < n < |d.steps| && Wanted(d, i, now, m) && AttemptAt(d, i, n) in dispatch ==>
          AttemptAt(d, i, m) in dispatch)
  }

  /** The plan says that all is settled exactly when it is and nothing runs. */
  ghost predicate SaysSettled(d: Definition, i: Instance, p: Plan) {
    p.allSettled <==> AllSettled(d, i) && i.RunningSteps() == {}
  }

  /** The wakeup is the earliest retry still to come. */
  ghost predicate SaysWakeup(d: Definition, i: Instance, now: Time, p: Plan) {
    && (p.retryWakeup.Some? <==> exists k :: 0 <= k < |d.steps| && Delayed(i, d.steps[k], now))
    && (forall at :: p.retryWakeup == Some(at) ==>
          && (exists k :: 0 <= k < |d.steps| && Delayed(i, d.steps[k], now)
                          && i.Step(d.steps[k].stepId).nextRetryAt == Some(at))
          && (forall k :: 0 <= k < |d.steps| && Delayed(i, d.steps[k], now) ==>
                at <= i.Step(d.steps[k].stepId).nextRetryAt.value))
  }

  /** What a plan says about the instance: everything in it, and nothing missing from it. */
  ghost predicate Says(d: Definition, i: Instance, now: Time, p: Plan) {
    && SaysFailure(d, i, p) && SaysGates(d, i, now, p) && SaysBlock(d, i, now, p)
    && SaysDispatch(d, i, now, p) && SaysSettled(d, i, p) && SaysWakeup(d, i, now, p)
  }

  lemma {:induction false} FirstExhaustedAt(d: Definition, i: Instance, n: nat, k: nat)
    requires d.DistinctIds() && n <= |d.steps| && k < |d.steps|
    ensures FirstExhausted(d, i, n) == Some(d.steps[k].stepId)
            <==> k < n && Exhausted(i, d.steps[k]) && forall m :: 0 <= m < k ==> !Exhausted(i, d.steps[m])
    decreases n
  {
    if n > 0 {
      FirstExhaustedAt(d, i, n - 1, k);
      FirstExhaustedMeans(d, i, n - 1);
      if d.steps[n - 1].stepId == d.steps[k].stepId { SameIndex(d, n - 1, k); }
    }
  }

  lemma FirstExhaustedIs(d: Definition, i: Instance, n: nat)
    requires d.DistinctIds() && n <= |d.steps|
    ensures FirstExhausted(d, i, n).None? <==> forall k :: 0 <= k < n ==> !Exhausted(i, d.steps[k])
    ensures forall k :: 0 <= k < |d.steps| ==>
              (FirstExhausted(d, i, n) == Some(d.steps[k].stepId)
               <==> k < n && Exhausted(i, d.steps[k]) && forall m :: 0 <= m < k ==> !Exhausted(i, d.steps[m]))
  {
    FirstExhaustedMeans(d, i, n);
    forall k | 0 <= k < |d.steps|
      ensures FirstExhausted(d, i, n) == Some(d.steps[k].stepId)
              <==> k < n && Exhausted(i, d.steps[k]) && forall m :: 0 <= m < k ==> !Exhausted(i, d.steps[m])
    {
      FirstExhaustedAt(d, i, n, k);
    }
  }

  lemma SameIndex(d: Definition, m: nat, n: nat)
    requires d.DistinctIds() && m < |d.steps| && n < |d.steps| && d.steps[m].stepId == d.steps[n].stepId
    ensures m == n
  {
  }

  lemma IsBefore(d: Definition, m: nat, n: nat)
    requires d.DistinctIds() && m < n < |d.steps|
    ensures Before(d, d.steps[m].stepId, d.steps[n].stepId)
  {
  }

  /** The candidates of the first steps stand before a later one. */
  lemma CandidatesBefore(d: Definition, i: Instance, now: Time, n: nat, a: nat)
    requires d.DistinctIds() && n < |d.steps| && a < |Candidates(d, i, now, n)|
    ensures Before(d, Candidates(d, i, now, n)[a].0, d.steps[n].stepId)
  {
    var c := Candidates(d, i, now, n)[a];
    CandidatesMean(d, i, now, n);
    assert Proposed(d, i, now, n, c);
    var k :| 0 <= k < n && Candidate(i, d.steps[k], now)
             && c == (d.steps[k].stepId, i.Step(d.steps[k].stepId).attempts + 1);
    IsBefore(d, k, n);
  }

  lemma {:induction false} CandidatesInOrder(d: Definition, i: Instance, now: Time, n: nat)
    requires d.DistinctIds() && n <= |d.steps|
    ensures InOrder(d, Candidates(d, i, now, n))
    decreases n
  {
    if n > 0 {
      CandidatesInOrder(d, i, now, n - 1);
      var front, all := Candidates(d, i, now, n - 1), Candidates(d, i, now, n);
      forall a, b | 0 <= a < b < |all| ensures Before(d, all[a].0, all[b].0) {
        assert all[a] == front[a];
        if b == |front| { CandidatesBefore(d, i, now, n - 1, a); }
      }
    }
  }

  lemma {:induction false} NotHeldInOrder(d: Definition, i: Instance, cs: seq<Attempt>)
    requires InOrder(d, cs)
    ensures InOrder(d, NotHeld(i, cs)) && forall c :: c in NotHeld(i, cs) ==> c in cs
    decreases |cs|
  {
    if cs != [] {
      var front, last := cs[..|cs| - 1], cs[|cs| - 1];
      NotHeldInOrder(d, i, front);
      var r := NotHeld(i, front);
      forall a | 0 <= a < |r| ensures Before(d, r[a].0, last.0) {
        assert r[a] in front;
        var l :| 0 <= l < |front| && front[l] == r[a];
        assert cs[l] == r[a];
      }
    }
  }

  /** The wanted steps' next attempts, all of them, in definition order. */
  ghost predicate AllWanted(d: Definition, i: Instance, now: Time, free: seq<Attempt>) {
    && InOrder(d, free)
    && (forall k :: 0 <= k < |d.steps| ==> (AttemptAt(d, i, k) in free <==> Wanted(d, i, now, k)))
    && (forall c :: c in free ==> Indexed(d, i, c))
  }

  lemma FreeAreWanted(d: Definition, i: Instance, now: Time)
    requires d.DistinctIds()
    ensures AllWanted(d, i, now, NotHeld(i, Candidates(d, i, now, |d.steps|)))
  {
    var cs := Candidates(d, i, now, |d.steps|);
    CandidatesInOrder(d, i, now, |d.steps|);
    CandidatesMean(d, i, now, |d.steps|);
    NotHeldInOrder(d, i, cs);
    NotHeldMeans(i, cs);
    forall k | 0 <= k < |d.steps| ensures AttemptAt(d, i, k) in cs <==> Candidate(i, d.steps[k], now) {
      ProposedAt(d, i, now, k);
    }
    forall c | c in cs ensures Indexed(d, i, c) {
      assert Proposed(d, i, now, |d.steps|, c);
    }
  }

  lemma ProposedAt(d: Definition, i: Instance, now: Time, k: nat)
    requires d.DistinctIds() && k < |d.steps|
    ensures Proposed(d, i, now, |d.steps|, AttemptAt(d, i, k)) <==> Candidate(i, d.steps[k], now)
  {
    if Proposed(d, i, now, |d.steps|, AttemptAt(d, i, k)) {
      var m :| 0 <= m < |d.steps| && Candidate(i, d.steps[m], now)
               && AttemptAt(d, i, k) == (d.steps[m].stepId, i.Step(d.steps[m].stepId).attempts + 1);
      SameIndex(d, k, m);
    }
  }

  /** A prefix of the wanted steps serves first what comes first. */
  lemma PrefixServes(d: Definition, i: Instance, now: Time, free: seq<Attempt>, n: nat, k: nat, l: nat)
    requires d.DistinctIds() && AllWanted(d, i, now, free) && n <= |free| && k < l < |d.steps|
    requires Wanted(d, i, now, k) && AttemptAt(d, i, l) in free[..n]
    ensures AttemptAt(d, i, k) in free[..n]
  {
    var a :| 0 <= a < |free| && free[a] == AttemptAt(d, i, k);
    var b :| 0 <= b < n && free[..n][b] == AttemptAt(d, i, l);
    assert free[b] == AttemptAt(d, i, l);
    assert free[..n][a] == AttemptAt(d, i, k);
  }

  lemma PrefixSays(d: Definition, i: Instance, now: Time, free: seq<Attempt>, n: nat)
    requires d.DistinctIds() && AllWanted(d, i, now, free) && n <= |free|
    ensures InOrder(d, free[..n]) && forall c :: c in free[..n] ==> Indexed(d, i, c)
    ensures forall k :: 0 <= k < |d.steps| && AttemptAt(d, i, k) in free[..n] ==> Wanted(d, i, now, k)
    ensures forall k, l :: 0 <= k < l < |d.steps| && Wanted(d, i, now, k) && AttemptAt(d, i, l) in free[..n] ==>
              AttemptAt(d, i, k) in free[..n]
  {
    forall k, l | 0 <= k < l < |d.steps| && Wanted(d, i, now, k) && AttemptAt(d, i, l) in free[..n]
      ensures AttemptAt(d, i, k) in free[..n]
    {
      PrefixServes(d, i, now, free, n, k, l);
    }
  }

  lemma GatedIsCandidate(d: Definition, i: Instance, now: Time, s: StepId)
    requires Valid(d)
    ensures Gated(d, i, now, s) <==> s in NeedApproval(d, i, Candidates(d, i, now, |d.steps|))
  {
    var cs := Candidates(d, i, now, |d.steps|);
    CandidatesMean(d, i, now, |d.steps|);
    NeedApprovalMeans(d, i, cs);
    if s in NeedApproval(d, i, cs) {
      var c :| c in cs && c.0 == s && d.StepOf(s).requiresApproval && !i.Open(s) && !i.Granted(s);
      var k := ProposedStep(d, i, now, c);
    }
    if Gated(d, i, now, s) {
      var k :| 0 <= k < |d.steps| && d.steps[k].stepId == s && Candidate(i, d.steps[k], now)
               && d.steps[k].requiresApproval && !i.Open(s) && !i.Granted(s);
      CandidateIsProposed(d, i, now, k);
      StepOfAt(d, k);
    }
  }

  lemma GatesAreGated(d: Definition, i: Instance, now: Time, gates: seq<StepId>)
    requires Valid(d) && gates == NeedApproval(d, i, Candidates(d, i, now, |d.steps|))
    ensures (forall s :: s in gates <==> Gated(d, i, now, s)) && (gates == [] <==> NoGate(d, i, now))
  {
    forall s ensures s in gates <==> Gated(d, i, now, s) {
      GatedIsCandidate(d, i, now, s);
    }
    if gates != [] { assert gates[0] in gates; }
  }

  lemma FirstIsLeast(d: Definition, free: seq<Attempt>, a: nat, first: nat, m: nat)
    requires d.DistinctIds() && InOrder(d, free) && a < |free| && first < |d.steps| && m < |d.steps|
    requires free[0].0 == d.steps[first].stepId && free[a].0 == d.steps[m].stepId
    ensures first <= m
  {
    if a == 0 {
      SameIndex(d, first, m);
    } else {
      assert Before(d, free[0].0, free[a].0);
    }
  }

  /** The first of the wanted steps has no wanted step before it. */
  lemma FirstWanted(d: Definition, i: Instance, now: Time, free: seq<Attempt>, k: nat)
    requires d.DistinctIds() && AllWanted(d, i, now, free) && free != [] && k < |d.steps|
    ensures free[0].0 == d.steps[k].stepId
            <==> Wanted(d, i, now, k) && forall m :: 0 <= m < k ==> !Wanted(d, i, now, m)
  {
    assert free[0] in free && Indexed(d, i, free[0]);
    var first :| 0 <= first < |d.steps| && free[0] == AttemptAt(d, i, first);
    forall m | 0 <= m < |d.steps| && Wanted(d, i, now, m) ensures first <= m {
      var a :| 0 <= a < |free| && free[a] == AttemptAt(d, i, m);
      FirstIsLeast(d, free, a, first, m);
    }
    if free[0].0 == d.steps[k].stepId { SameIndex(d, first, k); }
  }

  /** A plan field by field, from its four ingredients. */
  ghost predicate MadeOf(d: Definition, i: Instance, p: Plan, failed: Option<StepId>, gates: seq<StepId>,
                         free: seq<Attempt>, wake: Option<Time>) {
    var blocked := free != [] && i.BudgetOut();
    && p.terminalFailure == failed && p.retryWakeup == wake
    && p.approvalNeeded == (if failed.None? then gates else [])
    && p.budgetBlocked == (if failed.None? && gates == [] && blocked then Some(free[0].0) else None)
    && p.dispatch == (if failed.Some? || gates != [] || blocked then []
                      else if |free| <= Free(d, i) then free else free[..Free(d, i)])
    && (p.allSettled <==> failed.None? && gates == [] && !blocked && p.dispatch == [] && wake.None?
                          && i.RunningSteps() == {} && AllSettled(d, i))
  }

  lemma PlanIsMade(d: Definition, i: Instance, now: Time)
    ensures var cs := Candidates(d, i, now, |d.steps|);
            MadeOf(d, i, PlanOf(d, i, now), FirstExhausted(d, i, |d.steps|), NeedApproval(d, i, cs), NotHeld(i, cs),
                   Earliest(d, i, now, |d.steps|))
  {
  }

  lemma BlockSays(d: Definition, i: Instance, now: Time, p: Plan, failed: Option<StepId>, gates: seq<StepId>,
                  free: seq<Attempt>, wake: Option<Time>)
    requires d.DistinctIds() && MadeOf(d, i, p, failed, gates, free, wake) && AllWanted(d, i, now, free)
    requires (failed.None? <==> NoFailure(d, i)) && (gates == [] <==> NoGate(d, i, now))
    ensures SaysBlock(d, i, now, p)
  {
    if free == [] {
      assert forall k :: 0 <= k < |d.steps| ==> AttemptAt(d, i, k) !in free;
    } else {
      assert free[0] in free && Indexed(d, i, free[0]);
      forall k | 0 <= k < |d.steps|
        ensures free[0].0 == d.steps[k].stepId
                <==> Wanted(d, i, now, k) && forall m :: 0 <= m < k ==> !Wanted(d, i, now, m)
      {
        FirstWanted(d, i, now, free, k);
      }
    }
  }

  lemma DispatchSays(d: Definition, i: Instance, now: Time, p: Plan, failed: Option<StepId>, gates: seq<StepId>,
                     free: seq<Attempt>, wake: Option<Time>)
    requires d.DistinctIds() && MadeOf(d, i, p, failed, gates, free, wake) && AllWanted(d, i, now, free)
    requires (failed.None? <==> NoFailure(d, i)) && (gates == [] <==> NoGate(d, i, now))
    ensures SaysDispatch(d, i, now, p)
  {
    if p.dispatch != [] {
      var n := if |free| <= Free(d, i) then |free| else Free(d, i);
      assert p.dispatch == free[..n];
      PrefixSays(d, i, now, free, n);
    }
    if NoFailure(d, i) && NoGate(d, i, now) && !i.BudgetOut() { SlotsFill(d, i, now, p.dispatch, free); }
  }

  lemma SlotsFill(d: Definition, i: Instance, now: Time, dispatch: seq<Attempt>, free: seq<Attempt>)
    requires d.DistinctIds() && AllWanted(d, i, now, free)
    requires dispatch == if |free| <= Free(d, i) then free else free[..Free(d, i)]
    ensures Fills(d, i, now, dispatch)
  {
    var n := |dispatch|;
    assert dispatch == free[..n];
    PrefixSays(d, i, now, free, n);
    if |free| <= Free(d, i) { assert free[..n] == free; }
  }

  lemma SettledSays(d: Definition, i: Instance, now: Time)
    requires Valid(d)
    ensures SaysSettled(d, i, PlanOf(d, i, now))
  {
    var cs := Candidates(d, i, now, |d.steps|);
    PlanIsMade(d, i, now);
    if AllSettled(d, i) {
      NoneProposed(d, i, now, |d.steps|);
      FirstExhaustedMeans(d, i, |d.steps|);
      EarliestMeans(d, i, now, |d.steps|);
    }
  }

  lemma {:induction false} NoneProposed(d: Definition, i: Instance, now: Time, n: nat)
    requires n <= |d.steps| && AllSettled(d, i)
    ensures Candidates(d, i, now, n) == []
    decreases n
  {
    if n > 0 { NoneProposed(d, i, now, n - 1); }
  }

  lemma WakeupSays(d: Definition, i: Instance, now: Time)
    ensures SaysWakeup(d, i, now, PlanOf(d, i, now))
  {
    PlanIsMade(d, i, now);
    EarliestMeans(d, i, now, |d.steps|);
  }

  /** The plan says what it should. */
  lemma PlanSays(d: Definition, i: Instance, now: Time)
    requires Valid(d)
    ensures Says(d, i, now, PlanOf(d, i, now))
  {
    var p, cs := PlanOf(d, i, now), Candidates(d, i, now, |d.steps|);
    var failed, gates, free := FirstExhausted(d, i, |d.steps|), NeedApproval(d, i, cs), NotHeld(i, cs);
    PlanIsMade(d, i, now);
    FirstExhaustedIs(d, i, |d.steps|);
    GatesAreGated(d, i, now, gates);
    FreeAreWanted(d, i, now);
    BlockSays(d, i, now, p, failed, gates, free, Earliest(d, i, now, |d.steps|));
    DispatchSays(d, i, now, p, failed, gates, free, Earliest(d, i, now, |d.steps|));
    SettledSays(d, i, now);
    WakeupSays(d, i, now);
  }

  // --- progress ----------------------------------------------------------

  /** Nothing to act on: `_run` falls through to IDLE. */
  predicate Idle(p: Plan) {
    p == EMPTY_PLAN
  }

  /** The step is held back by a human or by a finished rollback. */
  ghost predicate Blocked(i: Instance, s: StepId) {
    i.Step(s).status == Waiting || i.Step(s).status == Compensated || i.Open(s)
  }

  /** With nothing in flight the planner falls through exactly when no step has failed for good,
      no retry is pending, every candidate is under an open escalation, and not all is settled. */
  lemma IdleExactly(d: Definition, i: Instance, now: Time)
    requires Valid(d) && i.RunningSteps() == {}
    ensures Idle(PlanOf(d, i, now))
            <==> && !AllSettled(d, i)
                 && forall k :: 0 <= k < |d.steps| ==>
                                  && !Exhausted(i, d.steps[k]) && !Delayed(i, d.steps[k], now)
                                  && (Candidate(i, d.steps[k], now) ==> i.Open(d.steps[k].stepId))
  {
    var cs := Candidates(d, i, now, |d.steps|);
    CandidatesMean(d, i, now, |d.steps|);
    FirstExhaustedMeans(d, i, |d.steps|);
    EarliestMeans(d, i, now, |d.steps|);
    HeldExactly(d, i, now);
    GatesAreNotHeld(d, i, cs);
  }

  lemma GatesAreNotHeld(d: Definition, i: Instance, cs: seq<Attempt>)
    requires (forall c :: c in cs ==> d.Has(c.0)) && Distinct(cs)
    ensures NotHeld(i, cs) == [] ==> NeedApproval(d, i, cs) == []
  {
    NeedApprovalMeans(d, i, cs);
    NotHeldMeans(i, cs);
    if NeedApproval(d, i, cs) != [] {
      var s := NeedApproval(d, i, cs)[0];
      assert s in NeedApproval(d, i, cs);
      var c :| c in cs && c.0 == s && !i.Open(s);
      assert c in NotHeld(i, cs);
    }
  }

  lemma HeldExactly(d: Definition, i: Instance, now: Time)
    requires d.DistinctIds()
    ensures NotHeld(i, Candidates(d, i, now, |d.steps|)) == []
            <==> forall k :: 0 <= k < |d.steps| && Candidate(i, d.steps[k], now) ==> i.Open(d.steps[k].stepId)
  {
    var cs := Candidates(d, i, now, |d.steps|);
    CandidatesMean(d, i, now, |d.steps|);
    NotHeldMeans(i, cs);
    if NotHeld(i, cs) == [] {
      forall k | 0 <= k < |d.steps| && Candidate(i, d.steps[k], now) ensures i.Open(d.steps[k].stepId) {
        var c := (d.steps[k].stepId, i.Step(d.steps[k].stepId).attempts + 1);
        assert Proposed(d, i, now, |d.steps|, c);
        assert c !in NotHeld(i, cs);
      }
    } else {
      var c := NotHeld(i, cs)[0];
      assert c in NotHeld(i, cs);
      var k := ProposedStep(d, i, now, c);
    }
  }

  /** The graph alone never blocks: on a validated definition, with nothing in flight, the planner falls
      through only if some step is waiting for a human, compensated, or under an open escalation. */
  lemma IdleOnlyIfBlocked(d: Definition, i: Instance, now: Time)
    requires Valid(d) && i.Covers(d) && i.RunningSteps() == {}
    requires Idle(PlanOf(d, i, now))
    ensures exists k :: 0 <= k < |d.steps| && Blocked(i, d.steps[k].stepId)
  {
    IdleExactly(d, i, now);
    var k0 :| 0 <= k0 < |d.steps| && !Settled(i.Step(d.steps[k0].stepId).status);
    var k := SourceStep(d, i, k0);
    assert d.steps[k].stepId !in i.RunningSteps();
    assert Blocked(i, d.steps[k].stepId);
  }

  /** Among the steps that are not done one has all its dependencies done. */
  lemma SourceStep(d: Definition, i: Instance, k0: nat) returns (k: nat)
    requires Valid(d) && k0 < |d.steps| && !Done(i.Step(d.steps[k0].stepId).status)
    ensures k < |d.steps| && !Done(i.Step(d.steps[k].stepId).status) && DepsDone(i, d.steps[k])
  {
    var u := set k | 0 <= k < |d.steps| && !Done(i.Step(d.steps[k].stepId).status) :: d.steps[k].stepId;
    assert d.steps[k0].stepId in u;
    var s := Dag.AcyclicHasSource(GraphOf(d), u);
    k :| 0 <= k < |d.steps| && !Done(i.Step(d.steps[k].stepId).status) && d.steps[k].stepId == s;
    forall j | 0 <= j < |d.steps[k].dependencies| ensures Done(i.Step(d.steps[k].dependencies[j]).status) {
      var dep := d.steps[k].dependencies[j];
      DepsKnown(d, k, dep);
      var m :| 0 <= m < |d.steps| && d.steps[m].stepId == dep;
      assert dep !in u;
    }
  }

  /** A parked instance is worth waking: at any time from its wakeup on, the planner acts. */
  lemma WakeupIsProductive(d: Definition, i: Instance, now: Time, later: Time)
    requires Valid(d) && i.RunningSteps() == {}
    requires PlanOf(d, i, now).retryWakeup.Some? && PlanOf(d, i, now).terminalFailure.None?
    requires later >= PlanOf(d, i, now).retryWakeup.value
    requires forall k :: 0 <= k < |d.steps| && i.Open(d.steps[k].stepId) ==> i.Step(d.steps[k].stepId).status != Failed
    ensures var p := PlanOf(d, i, later);
            p.dispatch != [] || p.budgetBlocked.Some? || p.approvalNeeded != []
  {
    var n := |d.steps|;
    EarliestMeans(d, i, now, n);
    var k :| 0 <= k < n && Delayed(i, d.steps[k], now)
             && i.Step(d.steps[k].stepId).nextRetryAt == Earliest(d, i, now, n);
    CandidateIsFree(d, i, later, k);
  }

  lemma CandidateIsProposed(d: Definition, i: Instance, now: Time, k: nat)
    requires Valid(d) && k < |d.steps| && Candidate(i, d.steps[k], now)
    ensures (d.steps[k].stepId, i.Step(d.steps[k].stepId).attempts + 1) in Candidates(d, i, now, |d.steps|)
    ensures Distinct(Candidates(d, i, now, |d.steps|))
  {
    CandidatesMean(d, i, now, |d.steps|);
    assert Proposed(d, i, now, |d.steps|, (d.steps[k].stepId, i.Step(d.steps[k].stepId).attempts + 1));
  }

  lemma CandidateIsFree(d: Definition, i: Instance, now: Time, k: nat)
    requires Valid(d) && k < |d.steps| && Candidate(i, d.steps[k], now) && !i.Open(d.steps[k].stepId)
    ensures NotHeld(i, Candidates(d, i, now, |d.steps|)) != []
  {
    CandidateIsProposed(d, i, now, k);
    NotHeldMeans(i, Candidates(d, i, now, |d.steps|));
  }
}
