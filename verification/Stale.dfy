/** A run in which a controller decides from a row that has been answered in the meantime: the sweep reads
    the due row of an approval, a human approves, the step runs and fails and is escalated again, and the
    sweep then applies the approval's automatic action to the step waiting for the second escalation. */
module Stale {
  import opened Domain
  import opened Events
  import opened Fold
  import opened FoldLaws
  import Dag
  import opened Planner
  import opened Driver
  import opened Legality
  import opened Batches
  import opened Phases
  import opened Operators
  import opened Leasing
  import opened Traces
  import opened Protocol
  import opened Logs
  import opened Safety
  import opened Theorems
  import opened Solo
  import opened Tidiness

  // --- the cast ------------------------------------------------------------------------------

  const GATED := WorkflowStep("s", [], RetryPolicy(0, 1.0, 1.0, 1.0), true, None, "approve", None, [])
  const DEF := Definition([GATED], 1, Escalate)
  const WORLD := World(DEF, "i", "t", "wf", "1", 1.0, true)
  const CREATED := Draft(InstanceCreated("wf", "1", map[], None), 0.0)
  const FAILURE := Failure("Error", "failed", false, [], [], [])

  lemma DefIsValid()
    ensures Valid(DEF) && DEF.Has("s") && DEF.StepOf("s") == GATED && DEF.Ids() == {"s"}
  {
    assert DEF.steps[0] == GATED;
    var g := GraphOf(DEF);
    assert forall a, b :: !Dag.DependsOn(g, a, b);
    forall c ensures !Dag.Cycle(g, c) {
      if |c| > 1 { assert !Dag.DependsOn(g, c[0], c[1]); }
    }
  }

  function In(now: Time, ids: seq<string>, outcomes: seq<StepOutcome>): Input {
    Input(now, [], outcomes, ids, Stuck)
  }

  /** What matters of the instance along the run. */
  ghost predicate Looks(i: Instance, wf: WorkflowStatus, st: StepStatus, attempts: nat, refs: seq<EscalationRef>) {
    && i.status == wf && i.budgetLimit == None && i.escalations == refs && i.steps.Keys == {"s"}
    && i.steps["s"].status == st && i.steps["s"].attempts == attempts && i.steps["s"].output.None?
    && i.steps["s"].nextRetryAt.None? && i.steps["s"].errorType != Some("BudgetExceededError")
  }

  function Gate(resolved: bool): EscalationRef {
    EscalationRef("A", "s", "explicit_approval", None, resolved)
  }

  const AGAIN := EscalationRef("B", "s", "max_retries", None, false)

  // --- the driver's moves -----------------------------------------------------------------------

  lemma Two(i: Instance, x: Draft, j: Instance, y: Draft, k: Instance)
    requires Advance(Some(DEF), i, x) == Ok(j) && Advance(Some(DEF), j, y) == Ok(k)
    ensures Replay(Some(DEF), i, [x, y]) == Ok(k)
  {
    ReplayOne(Some(DEF), j, y);
    assert [x, y][1..] == [y];
  }

  lemma LegRecover(i: Instance, worker: string, now: Time)
    requires i.RunningSteps() == {}
    ensures OneLeg(DEF, i, Recovering, worker, In(now, [], [])) == Leg([], i, Some(Looping))
  {
  }

  lemma LegResume(i: Instance, worker: string, now: Time) returns (j: Instance)
    requires Looks(i, WfPending, Pending, 0, [])
    ensures OneLeg(DEF, i, Looping, worker, In(now, [], []))
            == Leg([Moved(WfPending, WfRunning, now)], j, Some(Looping))
    ensures Looks(j, WfRunning, Pending, 0, [])
  {
    var x := Moved(WfPending, WfRunning, now);
    ReplayOne(Some(DEF), i, x);
    j := Advance(Some(DEF), i, x).value;
  }

  lemma OneCandidate(i: Instance, now: Time)
    requires i.Step("s").status == Pending || i.Step("s").status == Ready
    ensures Candidates(DEF, i, now, 1) == [("s", i.Step("s").attempts + 1)]
    ensures FirstExhausted(DEF, i, 1) == None && Earliest(DEF, i, now, 1) == None
  {
    assert DEF.steps[0] == GATED && DepsDone(i, GATED);
    assert Candidates(DEF, i, now, 0) == [];
  }

  lemma PlanGate(i: Instance, now: Time)
    requires Looks(i, WfRunning, Pending, 0, [])
    ensures PlanOf(DEF, i, now) == EMPTY_PLAN.(approvalNeeded := ["s"])
  {
    DefIsValid();
    OneCandidate(i, now);
    var cs := Candidates(DEF, i, now, 1);
    assert !i.Open("s") && !i.Granted("s");
    assert NeedApproval(DEF, i, []) == [] && NotHeld(i, []) == [];
    assert cs == [] + [cs[0]] && cs[..0] == [];
    assert NeedApproval(DEF, i, cs) == ["s"];
  }

  lemma GateEffect(i: Instance, now: Time) returns (j: Instance)
    requires Looks(i, WfRunning, Pending, 0, [])
    ensures Replay(Some(DEF), i, [Draft(StepStatusChanged("s", Pending, Ready), now),
                                  Draft(EscalationRaised("A", "s", "explicit_approval", None, "approve"), now)])
            == Ok(j)
    ensures Looks(j, WfRunning, Waiting, 0, [Gate(false)])
  {
    var x := Draft(StepStatusChanged("s", Pending, Ready), now);
    var y := Draft(EscalationRaised("A", "s", "explicit_approval", None, "approve"), now);
    var a := ReadyEffect(i, now);
    j := AskEffect(a, now);
    Two(i, x, a, y, j);
  }

  lemma ReadyEffect(i: Instance, now: Time) returns (j: Instance)
    requires Looks(i, WfRunning, Pending, 0, [])
    ensures Advance(Some(DEF), i, Draft(StepStatusChanged("s", Pending, Ready), now)) == Ok(j)
            && Looks(j, WfRunning, Ready, 0, [])
  {
    j := Advance(Some(DEF), i, Draft(StepStatusChanged("s", Pending, Ready), now)).value;
  }

  lemma AskEffect(i: Instance, now: Time) returns (j: Instance)
    requires Looks(i, WfRunning, Ready, 0, [])
    ensures Advance(Some(DEF), i, Draft(EscalationRaised("A", "s", "explicit_approval", None, "approve"), now)) == Ok(j)
    ensures Looks(j, WfRunning, Waiting, 0, [Gate(false)])
  {
    j := Advance(Some(DEF), i, Draft(EscalationRaised("A", "s", "explicit_approval", None, "approve"), now)).value;
  }

  lemma WaitEffect(i: Instance, now: Time, refs: seq<EscalationRef>, attempts: nat) returns (j: Instance)
    requires Looks(i, WfRunning, Waiting, attempts, refs)
    ensures Advance(Some(DEF), i, Moved(WfRunning, WfWaiting, now)) == Ok(j)
            && Looks(j, WfWaiting, Waiting, attempts, refs)
  {
    j := Advance(Some(DEF), i, Moved(WfRunning, WfWaiting, now)).value;
  }

  /** The approval batch, and the instance waiting for it. */
  lemma LegGate(i: Instance, worker: string, now: Time) returns (ds: seq<Draft>, j: Instance)
    requires Looks(i, WfRunning, Pending, 0, [])
    ensures OneLeg(DEF, i, Looping, worker, In(now, ["A"], [])) == Leg(ds, j, None)
    ensures Looks(j, WfWaiting, Waiting, 0, [Gate(false)])
  {
    GateBatch(i, now);
    var z := Moved(WfRunning, WfWaiting, now);
    ds := GateDrafts(DEF, i, ["s"], ["A"], now) + [z];
    var b := GateEffect(i, now);
    j := WaitEffect(b, now, [Gate(false)], 0);
    ReplayConcat(Some(DEF), i, GateDrafts(DEF, i, ["s"], ["A"], now), [z]);
    ReplayOne(Some(DEF), b, z);
    GateMove(i, worker, now, ds);
    LegOf(DEF, i, Looping, worker, In(now, ["A"], []), Finish(ds, None, DoneWaiting), j);
  }

  lemma GateBatch(i: Instance, now: Time)
    requires i.Step("s").status == Pending
    ensures DEF.Has("s")
    ensures GateDrafts(DEF, i, ["s"], ["A"], now)
            == [Draft(StepStatusChanged("s", Pending, Ready), now),
                Draft(EscalationRaised("A", "s", "explicit_approval", None, "approve"), now)]
  {
    DefIsValid();
    assert ["s"][1..] == [] && ["A"][1..] == [];
    assert GateDrafts(DEF, i, [], [], now) == [];
  }

  lemma GateMove(i: Instance, worker: string, now: Time, ds: seq<Draft>)
    requires Looks(i, WfRunning, Pending, 0, []) && DEF.Has("s")
    requires ds == GateDrafts(DEF, i, ["s"], ["A"], now) + [Moved(WfRunning, WfWaiting, now)]
    ensures NextMove(DEF, i, Looping, worker, In(now, ["A"], [])) == Finish(ds, None, DoneWaiting)
  {
    PlanGate(i, now);
    assert DEF.steps[0] == GATED;
  }

  lemma PlanDispatch(i: Instance, now: Time)
    requires Looks(i, WfRunning, Ready, 0, [Gate(true)])
    ensures PlanOf(DEF, i, now) == EMPTY_PLAN.(dispatch := [("s", 1)])
  {
    DefIsValid();
    OneCandidate(i, now);
    var cs := Candidates(DEF, i, now, 1);
    assert i.escalations[0].stepId == "s" && i.escalations[0].resolved;
    assert !i.Open("s") && i.Granted("s");
    assert NeedApproval(DEF, i, []) == [] && NotHeld(i, []) == [];
    assert cs[..0] == [];
    assert NeedApproval(DEF, i, cs) == [] && NotHeld(i, cs) == [("s", 1)];
    assert i.RunningSteps() == {};
  }

  lemma StartEffect(i: Instance, worker: string, now: Time) returns (j: Instance)
    requires Looks(i, WfRunning, Ready, 0, [Gate(true)])
    ensures Replay(Some(DEF), i, [Draft(StepStarted("s", 1, worker, None), now)]) == Ok(j)
    ensures Looks(j, WfRunning, Running, 1, [Gate(true)])
  {
    var x := Draft(StepStarted("s", 1, worker, None), now);
    ReplayOne(Some(DEF), i, x);
    j := Advance(Some(DEF), i, x).value;
  }

  lemma StartMove(i: Instance, worker: string, now: Time)
    requires Looks(i, WfRunning, Ready, 0, [Gate(true)])
    ensures NextMove(DEF, i, Looping, worker, In(now, [], []))
            == Append([Draft(StepStarted("s", 1, worker, None), now)], None, Executing([("s", 1)]))
  {
    PlanDispatch(i, now);
    assert [("s", 1)][1..] == [] && StartDrafts(i, [], worker, now) == [];
    assert StartDrafts(i, [("s", 1)], worker, now) == [Draft(StepStarted("s", 1, worker, None), now)];
    assert DEF.steps[0] == GATED;
  }

  lemma LegStart(i: Instance, worker: string, now: Time) returns (ds: seq<Draft>, j: Instance)
    requires Looks(i, WfRunning, Ready, 0, [Gate(true)])
    ensures OneLeg(DEF, i, Looping, worker, In(now, [], [])) == Leg(ds, j, Some(Executing([("s", 1)])))
    ensures Looks(j, WfRunning, Running, 1, [Gate(true)])
  {
    StartMove(i, worker, now);
    ds := [Draft(StepStarted("s", 1, worker, None), now)];
    j := StartEffect(i, worker, now);
    LegOf(DEF, i, Looping, worker, In(now, [], []), Append(ds, None, Executing([("s", 1)])), j);
  }

  lemma FailEffect(i: Instance, now: Time) returns (j: Instance)
    requires Looks(i, WfRunning, Running, 1, [Gate(true)])
    ensures Replay(Some(DEF), i, [Draft(StepFailed("s", 1, "Error", "failed", false), now)]) == Ok(j)
    ensures Looks(j, WfRunning, Failed, 1, [Gate(true)])
  {
    var x := Draft(StepFailed("s", 1, "Error", "failed", false), now);
    ReplayOne(Some(DEF), i, x);
    j := Advance(Some(DEF), i, x).value;
  }

  lemma FailMove(i: Instance, worker: string, now: Time)
    ensures NextMove(DEF, i, Executing([("s", 1)]), worker, In(now, [], [FAILURE]))
            == Append([Draft(StepFailed("s", 1, "Error", "failed", false), now)], None,
                      Billing([StepRun("s", 1, FAILURE)]))
  {
    var x := Draft(StepFailed("s", 1, "Error", "failed", false), now);
    var run := StepRun("s", 1, FAILURE);
    assert Runs([("s", 1)], [FAILURE]) == [run];
    assert OutcomeOne(run, now) == [x];
    assert [run][1..] == [] && OutcomeDrafts([], now) == [];
    assert OutcomeDrafts([run], now) == [x];
  }

  lemma LegFail(i: Instance, worker: string, now: Time) returns (ds: seq<Draft>, j: Instance)
    requires Looks(i, WfRunning, Running, 1, [Gate(true)])
    ensures OneLeg(DEF, i, Executing([("s", 1)]), worker, In(now, [], [FAILURE]))
            == Leg(ds, j, Some(Billing([StepRun("s", 1, FAILURE)])))
    ensures Looks(j, WfRunning, Failed, 1, [Gate(true)])
  {
    FailMove(i, worker, now);
    ds := [Draft(StepFailed("s", 1, "Error", "failed", false), now)];
    j := FailEffect(i, now);
    LegOf(DEF, i, Executing([("s", 1)]), worker, In(now, [], [FAILURE]),
          Append(ds, None, Billing([StepRun("s", 1, FAILURE)])), j);
  }

  /** Billing, no retry, no review. */
  lemma LegsQuiet(i: Instance, worker: string, now: Time)
    ensures var runs := [StepRun("s", 1, FAILURE)];
            && OneLeg(DEF, i, Billing(runs), worker, In(now, [], [])) == Leg([], i, Some(Scheduling(runs)))
            && OneLeg(DEF, i, Scheduling(runs), worker, In(now, [], [])) == Leg([], i, Some(Reviewing(runs)))
            && OneLeg(DEF, i, Reviewing(runs), worker, In(now, [], [])) == Leg([], i, Some(Looping))
  {
    DefIsValid();
    var runs := [StepRun("s", 1, FAILURE)];
    assert runs[1..] == [];
    assert !WantsReview(runs[0]) && Reviewed(runs[1..]) == [];
    assert RetryDrafts(DEF, runs[1..], now) == [] && !Retries(DEF, runs[0]);
    assert RetryDrafts(DEF, runs, now) == [] && Reviewed(runs) == [];
  }

  lemma PlanEscalate(i: Instance, now: Time)
    requires Looks(i, WfRunning, Failed, 1, [Gate(true)])
    ensures PlanOf(DEF, i, now) == EMPTY_PLAN.(terminalFailure := Some("s"))
  {
    assert DEF.steps[0] == GATED;
    assert FirstExhausted(DEF, i, 1) == Some("s") && Earliest(DEF, i, now, 1) == None;
  }

  lemma RaiseEffect(i: Instance, now: Time) returns (j: Instance)
    requires Looks(i, WfRunning, Failed, 1, [Gate(true)])
    ensures Advance(Some(DEF), i, Draft(EscalationRaised("B", "s", "max_retries", None, "abort"), now)) == Ok(j)
    ensures Looks(j, WfRunning, Waiting, 1, [Gate(true), AGAIN])
  {
    j := Advance(Some(DEF), i, Draft(EscalationRaised("B", "s", "max_retries", None, "abort"), now)).value;
  }

  lemma EscalateMove(i: Instance, worker: string, now: Time)
    requires Looks(i, WfRunning, Failed, 1, [Gate(true)])
    ensures NextMove(DEF, i, Looping, worker, In(now, ["B"], []))
            == Finish(EscalateDrafts("s", "max_retries", "B", now), None, DoneWaiting)
  {
    PlanEscalate(i, now);
    assert DEF.steps[0] == GATED;
  }

  lemma LegEscalate(i: Instance, worker: string, now: Time) returns (ds: seq<Draft>, j: Instance)
    requires Looks(i, WfRunning, Failed, 1, [Gate(true)])
    ensures OneLeg(DEF, i, Looping, worker, In(now, ["B"], [])) == Leg(ds, j, None)
    ensures Looks(j, WfWaiting, Waiting, 1, [Gate(true), AGAIN])
  {
    EscalateMove(i, worker, now);
    ds := EscalateDrafts("s", "max_retries", "B", now);
    var a := RaiseEffect(i, now);
    j := WaitEffect(a, now, [Gate(true), AGAIN], 1);
    Two(i, ds[0], a, ds[1], j);
    LegOf(DEF, i, Looping, worker, In(now, ["B"], []), Finish(ds, None, DoneWaiting), j);
  }

  // --- the two drives -----------------------------------------------------------------------------

  /** The first drive resumes the instance and gates the step. */
  lemma FirstDrive(i: Instance, worker: string, now: Time) returns (inps: seq<Input>, ds: seq<Draft>, j: Instance)
    requires Looks(i, WfPending, Pending, 0, []) && i.RunningSteps() == {}
    ensures Trace(DEF, i, Recovering, worker, inps) == Leg(ds, j, None)
            && Looks(j, WfWaiting, Waiting, 0, [Gate(false)])
  {
    var a, b, c := In(now, [], []), In(now, [], []), In(now, ["A"], []);
    LegRecover(i, worker, now);
    TraceOne(DEF, i, Recovering, worker, a);
    var i1 := LegResume(i, worker, now);
    var x := Moved(WfPending, WfRunning, now);
    TraceSnoc(DEF, i, Recovering, worker, [a], Leg([], i, Some(Looping)), b, Leg([x], i1, Some(Looping)));
    var es;
    es, j := LegGate(i1, worker, now);
    TraceSnoc(DEF, i, Recovering, worker, [a] + [b], Then(Leg([], i, Some(Looping)), Leg([x], i1, Some(Looping))), c,
              Leg(es, j, None));
    inps, ds := [a] + [b] + [c], [] + [x] + es;
  }

  /** The second drive starts the approved step, sees it fail, and escalates it. */
  lemma SecondDrive(i: Instance, worker: string, now: Time) returns (inps: seq<Input>, ds: seq<Draft>, j: Instance)
    requires Looks(i, WfRunning, Ready, 0, [Gate(true)]) && i.RunningSteps() == {}
    ensures Trace(DEF, i, Recovering, worker, inps) == Leg(ds, j, None)
            && Looks(j, WfWaiting, Waiting, 1, [Gate(true), AGAIN])
  {
    var a, b, c := In(now, [], []), In(now, [], [FAILURE]), In(now, ["B"], []);
    LegRecover(i, worker, now);
    TraceOne(DEF, i, Recovering, worker, a);
    var d1, i1 := LegStart(i, worker, now);
    var d2, i2 := LegFail(i1, worker, now);
    LegsQuiet(i2, worker, now);
    var d3;
    d3, j := LegEscalate(i2, worker, now);
    var runs := [StepRun("s", 1, FAILURE)];
    var x1, x2 := Leg([], i, Some(Looping)), Leg(d1, i1, Some(Executing([("s", 1)])));
    var x3, x4 := Leg(d2, i2, Some(Billing(runs))), Leg([], i2, Some(Scheduling(runs)));
    var x5, x6, x7 := Leg([], i2, Some(Reviewing(runs))), Leg([], i2, Some(Looping)), Leg(d3, j, None);
    TraceSnoc(DEF, i, Recovering, worker, [a], x1, a, x2);
    TraceSnoc(DEF, i, Recovering, worker, [a] + [a], Then(x1, x2), b, x3);
    TraceSnoc(DEF, i, Recovering, worker, [a] + [a] + [b], Then(Then(x1, x2), x3), a, x4);
    TraceSnoc(DEF, i, Recovering, worker, [a] + [a] + [b] + [a], Then(Then(Then(x1, x2), x3), x4), a, x5);
    TraceSnoc(DEF, i, Recovering, worker, [a] + [a] + [b] + [a] + [a], Then(Then(Then(Then(x1, x2), x3), x4), x5), a,
              x6);
    TraceSnoc(DEF, i, Recovering, worker, [a] + [a] + [b] + [a] + [a] + [a],
              Then(Then(Then(Then(Then(x1, x2), x3), x4), x5), x6), c, x7);
    inps := [a] + [a] + [b] + [a] + [a] + [a] + [c];
    ds := Trace(DEF, i, Recovering, worker, inps).written;
  }

  // --- the run ------------------------------------------------------------------------------------

  /** Nobody is driving the instance. */
  ghost predicate Resting(st: Sys, i: Instance) {
    SysInv(WORLD, st) && At(WORLD, st.log, i) && st.drives == map[]
  }

  lemma AtCreation() returns (st: Sys, i: Instance)
    ensures st == Initial(CREATED) && Resting(st, i) && Looks(i, WfPending, Pending, 0, []) && i.RunningSteps() == {}
  {
    DefIsValid();
    InitialInv(WORLD, CREATED);
    st, i := Initial(CREATED), Genesis(WORLD, CREATED);
    GenesisShape(WORLD, CREATED);
    CanonFromGenesis(WORLD, [CREATED]);
    assert i.steps == SeedSteps(DEF, map[]);
  }

  lemma DecidedLooks(i: Instance, j: Instance, c: Decision, attempts: nat, refs: seq<EscalationRef>)
    requires Looks(i, WfWaiting, Waiting, attempts, refs) && c.Choice().Approve?
    requires Decided(i, j, "s", c.Choice()) && j.status == WorkflowTarget(i, "s", c.Choice()) && Inv(DEF, j)
    requires j.escalations == ResolveRefs(refs, "A") && j.budgetLimit == None
    ensures Looks(j, WfRunning, Ready, attempts, ResolveRefs(refs, "A")) && j.RunningSteps() == {}
  {
    DefIsValid();
    assert j.Step("s") == i.Step("s").(status := Ready);
  }

  lemma Answered(resolved: bool)
    ensures ResolveRefs([Gate(resolved)], "A") == [Gate(true)]
            && ResolveRefs([Gate(resolved), AGAIN], "A") == [Gate(true), AGAIN]
  {
  }

  lemma GateIsOpen(i: Instance)
    requires i.escalations == [Gate(false)]
    ensures OpenRef(i, "A", "s")
  {
    assert i.escalations[0] == Gate(false);
  }

  /** The step is gated and the sweep has read the row. */
  lemma Gated() returns (acts: seq<Action>, st: Sys, i: Instance)
    ensures st == Run(WORLD, Initial(CREATED), acts) && Resting(st, i) && ("A", "s") in st.looked
    ensures Looks(i, WfWaiting, Waiting, 0, [Gate(false)]) && st.lease.Some? && st.lease.value.expiresAt == 1.0
  {
    DefIsValid();
    var s0, i0 := AtCreation();
    var inps, ds, i1 := FirstDrive(i0, "w1", 0.0);
    var a1, s1 := WholeDrive(WORLD, s0, i0, "w1", 0.0, inps, ds, i1);
    GateIsOpen(i1);
    st := LooksAt(WORLD, s1, i1, "A", "s");
    i := i1;
    acts := a1 + [Look("A", "s")];
    RunConcat(WORLD, s0, a1, [Look("A", "s")]);
  }

  /** The step goes back to the queue on the strength of row A, whatever it waits for. */
  lemma SentBack(st: Sys, i: Instance, c: Decision, now: Time, attempts: nat, refs: seq<EscalationRef>, u: Sys)
    returns (j: Instance)
    requires Resting(st, i) && ("A", "s") in st.looked && Looks(i, WfWaiting, Waiting, attempts, refs)
             && c.Choice().Approve?
    requires (c.Resolved? ==> c.newBudget.None?) && u == Run(WORLD, st, [Decide("A", "s", c, now)])
    ensures Resting(u, j) && u.looked == st.looked && u.lease == st.lease
    ensures u.wakeup == None && Looks(j, WfRunning, Ready, attempts, ResolveRefs(refs, "A")) && j.RunningSteps() == {}
  {
    DefIsValid();
    WaitingIsPermitted(i, "s", Approve);
    j := DecidesTo(WORLD, st, i, "A", "s", c, now, u);
    DecidedLooks(i, j, c, attempts, refs);
  }

  /** A human approves. */
  lemma FirstAct() returns (acts: seq<Action>, st: Sys, i: Instance)
    ensures st == Run(WORLD, Initial(CREATED), acts) && Resting(st, i) && ("A", "s") in st.looked && st.wakeup == None
    ensures Looks(i, WfRunning, Ready, 0, [Gate(true)]) && i.RunningSteps() == {}
    ensures st.lease.Some? && st.lease.value.expiresAt == 1.0
  {
    var a1, s1, i1 := Gated();
    var c := Resolved(Approve, map[], None);
    st := Run(WORLD, s1, [Decide("A", "s", c, 1.0)]);
    i := SentBack(s1, i1, c, 1.0, 0, [Gate(false)], st);
    Answered(false);
    acts := a1 + [Decide("A", "s", c, 1.0)];
    RunConcat(WORLD, Initial(CREATED), a1, [Decide("A", "s", c, 1.0)]);
  }

  /** The step runs, fails and is escalated. */
  lemma SecondAct() returns (acts: seq<Action>, st: Sys, i: Instance)
    ensures st == Run(WORLD, Initial(CREATED), acts) && Resting(st, i) && ("A", "s") in st.looked
    ensures Looks(i, WfWaiting, Waiting, 1, [Gate(true), AGAIN])
  {
    DefIsValid();
    var a1, s1, i1 := FirstAct();
    var inps, ds, i2 := SecondDrive(i1, "w2", 10.0);
    var a2;
    a2, st := WholeDrive(WORLD, s1, i1, "w2", 10.0, inps, ds, i2);
    i, acts := i2, a1 + a2;
    RunConcat(WORLD, Initial(CREATED), a1, a2);
  }

  /** The stale decision. The run is made of a drive that gates the step, the sweep's look at the row, the
      human's approval, a drive in which the step fails and is escalated, and the sweep's decision. It ends
      with the step in the queue under an open escalation: the projection is not tidy, the planner is idle
      at all times, and no step waits. */
  lemma LateSweep() returns (acts: seq<Action>, st: Sys, i: Instance)
    ensures Reachable(WORLD, CREATED, acts, st) && Canon(WORLD, st.log) == Ok(i)
    ensures Looks(i, WfRunning, Ready, 1, [Gate(true), AGAIN]) && !Tidy(DEF, i)
    ensures forall now :: Idle(PlanOf(DEF, i, now))
  {
    DefIsValid();
    var a2, s2, i2 := SecondAct();
    var c := TimedOut("approve");
    st := Run(WORLD, s2, [Decide("A", "s", c, 20.0)]);
    i := SentBack(s2, i2, c, 20.0, 1, [Gate(true), AGAIN], st);
    Answered(true);
    acts := a2 + [Decide("A", "s", c, 20.0)];
    RunConcat(WORLD, Initial(CREATED), a2, [Decide("A", "s", c, 20.0)]);
    HeldUntidy(i);
  }

  lemma HeldUntidy(i: Instance)
    requires Looks(i, WfRunning, Ready, 1, [Gate(true), AGAIN])
    ensures !Tidy(DEF, i) && forall now :: Idle(PlanOf(DEF, i, now))
  {
    assert i.escalations[1] == AGAIN;
    assert i.Open("s") && DEF.steps[0] == GATED;
    DefIsValid();
    forall now ensures Idle(PlanOf(DEF, i, now)) {
      OneCandidate(i, now);
      var cs := Candidates(DEF, i, now, 1);
      assert cs[..0] == [];
      assert NeedApproval(DEF, i, []) == [] && NotHeld(i, []) == [];
      assert NeedApproval(DEF, i, cs) == [] && NotHeld(i, cs) == [];
      assert !Domain.Settled(i.Step("s").status);
    }
  }
}
