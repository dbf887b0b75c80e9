/** When "every open escalation's step waits" holds. A controller decides from a row it read earlier, so
    a decision can come late; this module says exactly which decisions spoil the property. */
module Tidiness {
  import opened Domain
  import opened Events
  import opened Fold
  import opened FoldLaws
  import opened Planner
  import opened Driver
  import opened Legality
  import opened Batches
  import opened Phases
  import opened Seeding
  import opened History
  import opened Operators
  import opened Convergence
  import opened Leasing
  import opened Protocol
  import opened Logs
  import opened Safety
  import opened Theorems
  import opened Money

  ghost predicate Tidy(d: Definition, i: Instance) {
    forall k :: 0 <= k < |d.steps| && i.Open(d.steps[k].stepId) ==> i.Step(d.steps[k].stepId).status == Waiting
  }

  /** The event does not move a step out from under an open escalation. */
  predicate Calm(i: Instance, b: EventBody) {
    b.StepStatusChanged? ==> !i.Open(b.stepId)
  }

  // --- one event -----------------------------------------------------------------------------

  lemma CalmKeepsTidy(d: Definition, i: Instance, x: Draft)
    requires Valid(d) && Legal(d, i, x.body) && Tidy(d, i) && Calm(i, x.body)
    ensures Advance(Some(d), i, x).Ok? && Tidy(d, After(d, i, x))
  {
    LegalAccepted(d, i, x.body, x.at);
    EscalationsGrow(d, i, x.body, x.at);
    var j := After(d, i, x);
    assert forall s :: j.Open(s) == Handle(Some(d), i, x.body, x.at).value.Open(s);
    forall k | 0 <= k < |d.steps| && j.Open(d.steps[k].stepId) ensures j.Step(d.steps[k].stepId).status == Waiting {
      assert d.Has(d.steps[k].stepId);
      NotEmptyId(d, d.steps[k].stepId);
      OpenStepWaits(d, i, x, k);
    }
  }

  lemma OpenStepWaits(d: Definition, i: Instance, x: Draft, k: nat)
    requires Legal(d, i, x.body) && Tidy(d, i) && Calm(i, x.body) && k < |d.steps|
    requires i.Open(d.steps[k].stepId) || (x.body.EscalationRaised? && x.body.stepId == d.steps[k].stepId != "")
    ensures Advance(Some(d), i, x).Ok? && After(d, i, x).Step(d.steps[k].stepId).status == Waiting
  {
    StepAfter(d, i, x, d.steps[k].stepId);
  }

  lemma UncalmSpoils(d: Definition, i: Instance, x: Draft)
    requires Legal(d, i, x.body) && Tidy(d, i) && !Calm(i, x.body)
    ensures Advance(Some(d), i, x).Ok? && !Tidy(d, After(d, i, x))
  {
    var s := x.body.stepId;
    StepAfter(d, i, x, s);
    SameEscalations(d, i, x.body, x.at);
    var j := After(d, i, x);
    var k :| 0 <= k < |d.steps| && d.steps[k].stepId == s;
    assert j.escalations == i.escalations;
    assert j.Open(d.steps[k].stepId);
  }

  /** A legal event keeps a tidy projection tidy if and only if it is calm. */
  lemma TidyIffCalm(d: Definition, i: Instance, x: Draft)
    requires Valid(d) && Legal(d, i, x.body) && Tidy(d, i)
    ensures Advance(Some(d), i, x).Ok? && (Tidy(d, After(d, i, x)) <==> Calm(i, x.body))
  {
    if Calm(i, x.body) { CalmKeepsTidy(d, i, x); } else { UncalmSpoils(d, i, x); }
  }

  // --- whole logs ------------------------------------------------------------------------------

  ghost predicate TidyAt(w: World, log: seq<Draft>, v: nat)
    requires v <= |log|
  {
    Canon(w, log[..v]).Ok? && Tidy(w.def, Canon(w, log[..v]).value)
  }

  ghost predicate CalmAt(w: World, log: seq<Draft>, k: nat)
    requires k < |log|
  {
    Canon(w, log[..k]).Ok? && Calm(Canon(w, log[..k]).value, log[k].body)
  }

  ghost predicate CalmLog(w: World, log: seq<Draft>) {
    forall k {:trigger CalmAt(w, log, k)} :: 1 <= k < |log| ==> CalmAt(w, log, k)
  }

  lemma StepTidy(w: World, log: seq<Draft>, k: nat)
    requires Valid(w.def) && GoodLog(w, log) && 1 <= k < |log| && TidyAt(w, log, k)
    ensures TidyAt(w, log, k + 1) <==> CalmAt(w, log, k)
  {
    var i := GoodAt(w, log, k);
    TidyIffCalm(w.def, i, log[k]);
    CanonSnoc(w, log, k, i);
  }

  lemma GenesisTidy(w: World, log: seq<Draft>)
    requires Valid(w.def) && GoodLog(w, log)
    ensures TidyAt(w, log, 1)
  {
    GenesisInv(w, log[0]);
    CanonFromGenesis(w, log[..1]);
    NothingOpen(w.def, Genesis(w, log[0]));
  }

  lemma NothingOpen(d: Definition, i: Instance)
    requires forall s :: !Escalated(i, s)
    ensures Tidy(d, i)
  {
    forall k | 0 <= k < |d.steps| ensures !i.Open(d.steps[k].stepId) {
      assert !Escalated(i, d.steps[k].stepId);
    }
  }

  lemma {:induction false} CalmIsTidy(w: World, log: seq<Draft>, v: nat)
    requires Valid(w.def) && GoodLog(w, log) && CalmLog(w, log) && 1 <= v <= |log|
    ensures TidyAt(w, log, v)
    decreases v
  {
    if v == 1 {
      GenesisTidy(w, log);
    } else {
      CalmIsTidy(w, log, v - 1);
      assert CalmAt(w, log, v - 1);
      StepTidy(w, log, v - 1);
    }
  }

  /** In a good log every prefix is tidy if and only if every event is calm where it stands. */
  lemma TidyLogIffCalm(w: World, log: seq<Draft>)
    requires Valid(w.def) && GoodLog(w, log)
    ensures CalmLog(w, log) <==> forall v {:trigger TidyAt(w, log, v)} :: 1 <= v <= |log| ==> TidyAt(w, log, v)
  {
    if CalmLog(w, log) {
      forall v | 1 <= v <= |log| ensures TidyAt(w, log, v) {
        CalmIsTidy(w, log, v);
      }
    }
    if forall v {:trigger TidyAt(w, log, v)} :: 1 <= v <= |log| ==> TidyAt(w, log, v) {
      forall k | 1 <= k < |log| ensures CalmAt(w, log, k) {
        assert TidyAt(w, log, k) && TidyAt(w, log, k + 1);
        StepTidy(w, log, k);
      }
    }
  }

  // --- batches ---------------------------------------------------------------------------------

  ghost predicate BatchCalm(d: Definition, i: Instance, ds: seq<Draft>)
    decreases |ds|
  {
    ds == [] || (Calm(i, ds[0].body) && Advance(Some(d), i, ds[0]).Ok? && BatchCalm(d, After(d, i, ds[0]), ds[1..]))
  }

  lemma {:induction false} BatchCalmAt(d: Definition, i: Instance, ds: seq<Draft>, k: nat)
    requires BatchCalm(d, i, ds) && k < |ds|
    ensures Replay(Some(d), i, ds[..k]).Ok? && Calm(Replay(Some(d), i, ds[..k]).value, ds[k].body)
    decreases |ds|
  {
    if k > 0 {
      BatchCalmAt(d, After(d, i, ds[0]), ds[1..], k - 1);
      assert ds[..k][1..] == ds[1..][..k - 1];
    }
  }

  lemma {:induction false} BatchCalmConcat(d: Definition, i: Instance, a: seq<Draft>, m: Instance, b: seq<Draft>)
    requires BatchCalm(d, i, a) && Replay(Some(d), i, a) == Ok(m) && BatchCalm(d, m, b)
    ensures BatchCalm(d, i, a + b)
    decreases |a|
  {
    if a == [] {
      assert a + b == b;
    } else {
      TailOf(a, b);
      BatchCalmConcat(d, After(d, i, a[0]), a[1..], m, b);
    }
  }

  lemma ExtendCalmAt(w: World, log: seq<Draft>, i: Instance, ds: seq<Draft>, k: nat)
    requires At(w, log, i) && CalmLog(w, log) && BatchCalm(w.def, i, ds) && 1 <= k < |log| + |ds|
    ensures CalmAt(w, log + ds, k)
  {
    SplitOf(log, ds, k);
    if k < |log| {
      assert CalmAt(w, log, k);
    } else {
      BatchCalmAt(w.def, i, ds, k - |log|);
      ReplayConcat(Some(w.def), Blank(w), log, ds[..k - |log|]);
    }
  }

  /** A calm batch keeps the log calm. */
  lemma ExtendCalm(w: World, log: seq<Draft>, i: Instance, ds: seq<Draft>)
    requires At(w, log, i) && CalmLog(w, log) && BatchCalm(w.def, i, ds)
    ensures CalmLog(w, log + ds)
  {
    forall k | 1 <= k < |log + ds| ensures CalmAt(w, log + ds, k) {
      ExtendCalmAt(w, log, i, ds, k);
    }
  }

  // --- the driver is calm ------------------------------------------------------------------------

  /** The driver moves steps by hand only out of PENDING and RUNNING. */
  predicate Drivers(b: EventBody) {
    b.StepStatusChanged? ==> b.stFrom == Pending || b.stFrom == Running
  }

  predicate AllDrivers(ds: seq<Draft>) {
    forall k :: 0 <= k < |ds| ==> Drivers(ds[k].body)
  }

  lemma DriversIsCalm(d: Definition, i: Instance, b: EventBody)
    requires Inv(d, i) && Legal(d, i, b) && Drivers(b)
    ensures Calm(i, b)
  {
    if b.StepStatusChanged? {
      var k :| 0 <= k < |d.steps| && d.steps[k].stepId == b.stepId;
      assert StepInv(d, i, d.steps[k]);
    }
  }

  lemma {:induction false} DriversBatchCalm(d: Definition, i: Instance, ds: seq<Draft>)
    requires Valid(d) && Inv(d, i) && AllLegal(d, i, ds) && AllDrivers(ds)
    ensures BatchCalm(d, i, ds)
    decreases |ds|
  {
    if ds != [] {
      DriversIsCalm(d, i, ds[0].body);
      LegalKeepsInv(d, i, ds[0]);
      DriversBatchCalm(d, After(d, i, ds[0]), ds[1..]);
    }
  }

  lemma {:induction false} RecoverDrivers(stale: seq<StepId>, at: Time)
    ensures AllDrivers(RecoverDrafts(stale, at))
    decreases |stale|
  {
    if stale != [] { RecoverDrivers(stale[1..], at); }
  }

  lemma {:induction false} GateDrivers(d: Definition, i: Instance, gates: seq<StepId>, ids: seq<string>, now: Time)
    requires forall s :: s in gates ==> d.Has(s)
    ensures AllDrivers(GateDrafts(d, i, gates, ids, now))
    decreases |gates|
  {
    if gates != [] { GateDrivers(d, i, gates[1..], if ids == [] then [] else ids[1..], now); }
  }

  lemma {:induction false} UndoneDrivers(undone: seq<(StepId, string)>, at: Time)
    ensures AllDrivers(UndoneDrafts(undone, at))
    decreases |undone|
  {
    if undone != [] { UndoneDrivers(undone[1..], at); }
  }

  lemma {:induction false} CompensateDrivers(i: Instance, ws: seq<WorkflowStep>, at: Time)
    ensures AllDrivers(CompensateDrafts(i, ws, at))
    decreases |ws|
  {
    if ws != [] { CompensateDrivers(i, ws[..|ws| - 1], at); }
  }

  lemma PolicyDrivers(d: Definition, i: Instance, s: StepId, undo: Undo, id: string, now: Time)
    ensures AllDrivers(PolicyDrafts(d, i, s, undo, id, now))
  {
    if undo.Undone? { UndoneDrivers(undo.effects, now); }
    CompensateDrivers(i, d.steps, now);
  }

  lemma QuietIsDrivers(ds: seq<Draft>)
    requires Quiet(ds)
    ensures AllDrivers(ds)
  {
    forall k | 0 <= k < |ds| ensures Drivers(ds[k].body) {
      assert QuietOne(ds[k].body);
    }
  }

  lemma PlannedDrivers(d: Definition, i: Instance, worker: string, inp: Input)
    requires !Planned(d, i, worker, inp).Fault?
    ensures AllDrivers(Planned(d, i, worker, inp).drafts)
  {
    var p := PlanOf(d, i, inp.now);
    if p.budgetBlocked.None? && p.approvalNeeded != [] {
      GateDrivers(d, i, p.approvalNeeded, inp.ids, inp.now);
    } else if p.terminalFailure.Some? {
      PolicyDrivers(d, i, p.terminalFailure.value, inp.undo, NewId(inp.ids, 0), inp.now);
    }
    QuietStarts(i, p.dispatch, worker, inp.now);
    QuietIsDrivers(StartDrafts(i, p.dispatch, worker, inp.now));
  }

  lemma MoveDrivers(d: Definition, i: Instance, ph: Phase, worker: string, inp: Input)
    requires Fits(d, i, ph, inp) && !NextMove(d, i, ph, worker, inp).Fault?
    ensures AllDrivers(NextMove(d, i, ph, worker, inp).drafts)
  {
    if ph.Recovering? {
      RecoverDrivers(inp.stale, inp.now);
    } else if ph.Looping? {
      if i.status == WfRunning { PlannedDrivers(d, i, worker, inp); }
    } else {
      WaveMoveQuiet(d, i, ph, worker, inp);
      QuietIsDrivers(NextMove(d, i, ph, worker, inp).drafts);
    }
  }

  // --- decisions ------------------------------------------------------------------------------------

  /** The decision would move a step whose open escalation is another one than it answers. */
  predicate Spoils(i: Instance, id: string, s: StepId, r: Resolution) {
    OnKnownStep(i, s) && !r.Abort? && i.Open(s) && !OpenRef(i, id, s)
  }

  lemma ResolvedOpen(i: Instance, j: Instance, id: string, t: StepId)
    requires j.escalations == ResolveRefs(i.escalations, id) && j.Open(t)
    ensures i.Open(t)
  {
    var k :| 0 <= k < |j.escalations| && j.escalations[k].stepId == t && !j.escalations[k].resolved;
    assert i.escalations[k].stepId == t && !i.escalations[k].resolved;
  }

  lemma HarmlessKeepsTidy(d: Definition, i: Instance, id: string, s: StepId, r: Resolution, j: Instance)
    requires Tidy(d, i) && OneOpenEach(i) && j.escalations == ResolveRefs(i.escalations, id) && Decided(i, j, s, r)
    requires !Spoils(i, id, s, r)
    ensures Tidy(d, j)
  {
    forall k | 0 <= k < |d.steps| && j.Open(d.steps[k].stepId) ensures j.Step(d.steps[k].stepId).status == Waiting {
      var t := d.steps[k].stepId;
      ResolvedOpen(i, j, id, t);
      if t == s && OnKnownStep(i, s) && !r.Abort? { ResolvedRefs(i, id, s, j); }
    }
  }

  lemma SpoilingUnties(d: Definition, i: Instance, id: string, s: StepId, r: Resolution, j: Instance)
    requires d.Has(s) && Tidy(d, i) && j.escalations == ResolveRefs(i.escalations, id) && Decided(i, j, s, r)
    requires Spoils(i, id, s, r)
    ensures !Tidy(d, j)
  {
    UnresolvedRefs(i, id, s, j);
    var k :| 0 <= k < |d.steps| && d.steps[k].stepId == s;
    assert j.Open(d.steps[k].stepId) && j.Step(d.steps[k].stepId).status != Waiting;
  }

  /** A permitted decision, from however old a row, keeps "every open escalation's step waits" if and only if
      it aborts, concerns no step, answers the open escalation, or finds none open on the step. In every case
      each step keeps at most one open escalation. */
  lemma DecisionTidyIff(d: Definition, i: Instance, id: string, s: StepId, c: Decision, now: Time) returns (j: Instance)
    requires Valid(d) && Inv(d, i) && Boundary(d, i) && Tidy(d, i)
    requires i.status == WfWaiting && RefOn(i, id, s) && Permitted(i, s, c.Choice())
    ensures Lands(d, i, DecisionDrafts(i, id, s, c, now), j) && OneOpenEach(j)
    ensures Tidy(d, j) <==> !Spoils(i, id, s, c.Choice())
  {
    j := DecisionSound(d, i, id, s, c, now);
    AllLegalKeepsInv(d, i, DecisionDrafts(i, id, s, c, now));
    if Spoils(i, id, s, c.Choice()) {
      InvHas(d, i, s);
      SpoilingUnties(d, i, id, s, c.Choice(), j);
    } else {
      HarmlessKeepsTidy(d, i, id, s, c.Choice(), j);
    }
  }

  predicate NoStepMoves(ds: seq<Draft>) {
    forall k :: 0 <= k < |ds| ==> !ds[k].body.StepStatusChanged?
  }

  lemma {:induction false} NoStepMovesCalm(d: Definition, i: Instance, ds: seq<Draft>)
    requires AllLegal(d, i, ds) && NoStepMoves(ds)
    ensures BatchCalm(d, i, ds)
    decreases |ds|
  {
    if ds != [] { NoStepMovesCalm(d, After(d, i, ds[0]), ds[1..]); }
  }

  lemma TransitionCalm(d: Definition, i: Instance, m: Instance, s: StepId, r: Resolution, now: Time)
    requires AllLegal(d, m, TransitionDrafts(i, s, r, now)) && (OnKnownStep(i, s) && !r.Abort? ==> !m.Open(s))
    ensures BatchCalm(d, m, TransitionDrafts(i, s, r, now))
  {
    var ds := TransitionDrafts(i, s, r, now);
    NoStepMovesCalm(d, After(d, m, ds[0]), ds[1..]);
  }

  lemma ClosedBefore(i: Instance, id: string, s: StepId, r: Resolution, m: Instance)
    requires OneOpenEach(i) && m.escalations == ResolveRefs(i.escalations, id) && !Spoils(i, id, s, r)
    ensures OnKnownStep(i, s) && !r.Abort? ==> !m.Open(s)
  {
    if OnKnownStep(i, s) && !r.Abort? {
      if OpenRef(i, id, s) { ResolvedRefs(i, id, s, m); } else { UnresolvedRefs(i, id, s, m); }
    }
  }

  lemma DecisionCalm(d: Definition, i: Instance, id: string, s: StepId, c: Decision, now: Time)
    requires Valid(d) && Inv(d, i) && Boundary(d, i) && i.status == WfWaiting && RefOn(i, id, s)
             && Permitted(i, s, c.Choice())
    requires !Spoils(i, id, s, c.Choice())
    ensures BatchCalm(d, i, DecisionDrafts(i, id, s, c, now))
  {
    var a, b := Opening(id, s, c, now), TransitionDrafts(i, s, c.Choice(), now);
    var m, j := DecisionParts(d, i, id, s, c, now);
    NoStepMovesCalm(d, i, a);
    ClosedBefore(i, id, s, c.Choice(), m);
    TransitionCalm(d, i, m, s, c.Choice(), now);
    BatchCalmConcat(d, i, a, m, b);
  }

  // --- runs ---------------------------------------------------------------------------------------------

  /** The action is no decision that would spoil the projection it is appended to. */
  predicate Steady(w: World, st: Sys, a: Action) {
    a.Decide? && Canon(w, st.log).Ok? ==> !Spoils(Canon(w, st.log).value, a.id, a.stepId, a.decision.Choice())
  }

  predicate AllSteady(w: World, st: Sys, acts: seq<Action>)
    decreases |acts|
  {
    acts == [] || (Steady(w, st, acts[0]) && AllSteady(w, Apply(w, st, acts[0]), acts[1..]))
  }

  lemma OneMoveCalm(w: World, log: seq<Draft>, i: Instance, x: Draft, j: Instance)
    requires At(w, log, i) && CalmLog(w, log) && At(w, log + [x], j) && !x.body.StepStatusChanged?
    ensures CalmLog(w, log + [x])
  {
    ReplayConcat(Some(w.def), Blank(w), log, [x]);
    ReplayOne(Some(w.def), i, x);
    assert [x][1..] == [];
    assert BatchCalm(w.def, After(w.def, i, x), [x][1..]);
    ExtendCalm(w, log, i, [x]);
  }

  lemma OperateCalm(w: World, st: Sys, q: Request, now: Time)
    requires Valid(w.def) && SysInv(w, st) && CalmLog(w, st.log)
    ensures CalmLog(w, DoOperate(w, st, q, now).log)
  {
    var i, j := OperateKeeps(w, st, q, now);
    if Control(i, q, now).Write? { OneMoveCalm(w, st.log, i, Control(i, q, now).draft, j); }
  }

  lemma RequeueCalm(w: World, st: Sys, s: Option<StepId>, now: Time)
    requires Valid(w.def) && SysInv(w, st) && CalmLog(w, st.log)
    ensures CalmLog(w, DoRequeue(w, st, s, now).log)
  {
    var i, j := RequeueKeeps(w, st, s, now);
    if DoRequeue(w, st, s, now).log != st.log { OneMoveCalm(w, st.log, i, Draft(WorkflowRequeued(s), now), j); }
  }

  lemma DecideCalm(w: World, st: Sys, id: string, s: StepId, c: Decision, now: Time)
    requires Valid(w.def) && SysInv(w, st) && CalmLog(w, st.log) && Steady(w, st, Decide(id, s, c, now))
    ensures CalmLog(w, DoDecide(w, st, id, s, c, now).log)
  {
    var i, j := DecideKeeps(w, st, id, s, c, now);
    if DoDecide(w, st, id, s, c, now).log != st.log {
      var k, raw := DecideReads(w, st, id, s, c, now);
      DecisionCalm(w.def, i, id, s, c, now);
      ExtendCalm(w, st.log, i, DecisionDrafts(i, id, s, c, now));
    }
  }

  lemma StepCalm(w: World, st: Sys, f: nat, inp: Input)
    requires Valid(w.def) && SysInv(w, st) && CalmLog(w, st.log)
    ensures CalmLog(w, DoStep(w, st, f, inp).log)
  {
    if Moves(w, st, f, inp).Some? {
      var dr := st.drives[f];
      var mv := Moves(w, st, f, inp).value;
      PerformLog(w, st, f, mv);
      if Succeeds(w, st, f, mv) && mv.drafts != [] {
        var i := Seeded(w.def, dr.proj);
        StepCost(w, st, f, inp);
        var j := MoveOf(w, st, f, inp);
        DriveProjects(w, st, f);
        MoveDrivers(w.def, dr.proj, dr.phase, dr.lease.worker, inp);
        DriversBatchCalm(w.def, i, mv.drafts);
        ExtendCalm(w, st.log, i, mv.drafts);
      } else if Succeeds(w, st, f, mv) {
        assert st.log + mv.drafts == st.log;
      }
    }
  }

  lemma ActionCalm(w: World, st: Sys, a: Action)
    requires Valid(w.def) && SysInv(w, st) && CalmLog(w, st.log) && Steady(w, st, a)
    ensures CalmLog(w, Apply(w, st, a).log)
  {
    match a {
      case Step(f, inp) => StepCalm(w, st, f, inp);
      case Operate(q, now) => OperateCalm(w, st, q, now);
      case Requeue(s, now) => RequeueCalm(w, st, s, now);
      case Decide(id, s, c, now) => DecideCalm(w, st, id, s, c, now);
      case _ => LogStays(w, st, a);
    }
  }

  lemma {:induction false} RunCalm(w: World, st: Sys, acts: seq<Action>)
    requires Valid(w.def) && SysInv(w, st) && CalmLog(w, st.log) && AllSteady(w, st, acts)
    ensures CalmLog(w, Run(w, st, acts).log)
    decreases |acts|
  {
    if acts != [] {
      ActionCalm(w, st, acts[0]);
      ActionKeeps(w, st, acts[0]);
      RunCalm(w, Apply(w, st, acts[0]), acts[1..]);
    }
  }

  /** In every run without a spoiling decision, every open escalation's step waits, in every prefix of the log. */
  lemma SteadyRunsAreTidy(w: World, created: Draft, acts: seq<Action>, st: Sys, v: nat) returns (i: Instance)
    requires Reachable(w, created, acts, st) && AllSteady(w, Initial(created), acts) && 1 <= v <= |st.log|
    ensures Canon(w, st.log[..v]) == Ok(i) && Tidy(w.def, i)
  {
    InitialInv(w, created);
    ReachableInv(w, created, acts, st);
    RunCalm(w, Initial(created), acts);
    CalmIsTidy(w, st.log, v);
    i := Canon(w, st.log[..v]).value;
  }

  /** In such a run every decision on an open escalation of a waiting instance commits, with exactly its events. */
  lemma SteadyDecisionsCommit(w: World, created: Draft, acts: seq<Action>, st: Sys, id: string, s: StepId, c: Decision,
                              now: Time)
    returns (i: Instance)
    requires Reachable(w, created, acts, st) && AllSteady(w, Initial(created), acts)
    ensures Canon(w, st.log) == Ok(i)
    ensures OpenRef(i, id, s) && i.status == WfWaiting && (id, s) in st.looked ==>
              DoDecide(w, st, id, s, c, now).log == st.log + DecisionDrafts(i, id, s, c, now)
  {
    ReachableInv(w, created, acts, st);
    i := SteadyRunsAreTidy(w, created, acts, st, |st.log|);
    assert st.log[..|st.log|] == st.log;
    var a, j := DecideKeeps(w, st, id, s, c, now);
    if OpenRef(i, id, s) && OnKnownStep(i, s) {
      var m := GoodProjects(w, st.log);
      OpenWaits(w.def, i, id, s);
      WaitingIsPermitted(i, s, c.Choice());
    }
  }

  lemma OpenWaits(d: Definition, i: Instance, id: string, s: StepId)
    requires Inv(d, i) && Tidy(d, i) && OpenRef(i, id, s) && OnKnownStep(i, s)
    ensures i.Step(s).status == Waiting
  {
    InvHas(d, i, s);
    var k :| 0 <= k < |d.steps| && d.steps[k].stepId == s;
    var n :| 0 <= n < |i.escalations|
             && i.escalations[n].escalationId == id && i.escalations[n].stepId == s && !i.escalations[n].resolved;
    assert i.Open(d.steps[k].stepId);
  }
}
