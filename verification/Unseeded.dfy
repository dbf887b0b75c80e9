/** What becomes of an instance whose reads never carry the defined steps, as reads through a snapshot made
    without the definition do: nobody ever starts a step of it. */
module Unseeded {
  import opened Domain
  import opened Events
  import opened Fold
  import opened FoldLaws
  import opened Planner
  import opened Driver
  import opened Operators
  import opened Leasing
  import opened Protocol
  import opened Theorems

  /** The log holds nothing but the creation and moves of the status by drives and operators. */
  ghost predicate OnlyMoves(log: seq<Draft>) {
    && log != [] && log[0].body.InstanceCreated?
    && forall k :: 1 <= k < |log| ==> Mover(log[k].body)
  }

  predicate Mover(b: EventBody) {
    b.InstanceStatusChanged? && (b.wfTo == WfRunning || b.wfTo == WfPaused || b.wfTo == WfFailed)
  }

  /** No step has an entry and no escalation was raised. */
  predicate Bare(i: Instance) {
    && i.steps == map[] && i.escalations == []
    && (i.status == WfPending || i.status == WfRunning || i.status == WfPaused || i.status == WfFailed)
  }

  lemma MoveStaysBare(defn: Option<Definition>, i: Instance, x: Draft)
    requires Bare(i) && Mover(x.body) && Advance(defn, i, x).Ok?
    ensures Bare(Advance(defn, i, x).value)
  {
  }

  lemma {:induction false} MovesStayBare(i: Instance, ds: seq<Draft>)
    requires Bare(i) && Replay(None, i, ds).Ok? && forall k :: 0 <= k < |ds| ==> Mover(ds[k].body)
    ensures Bare(Replay(None, i, ds).value)
    decreases |ds|
  {
    if ds != [] {
      MoveStaysBare(None, i, ds[0]);
      MovesStayBare(Advance(None, i, ds[0]).value, ds[1..]);
    }
  }

  lemma LogIsBare(w: World, log: seq<Draft>)
    requires OnlyMoves(log) && Raw(w, log).Ok?
    ensures Bare(Raw(w, log).value)
  {
    MovesStayBare(Advance(None, Blank(w), log[0]).value, log[1..]);
  }

  ghost predicate Barren(w: World, st: Sys) {
    && OnlyMoves(st.log) && st.looked == {}
    && forall f :: f in st.drives ==> Idles(st.drives[f])
  }

  predicate Idles(dr: Drive) {
    Bare(dr.proj) && (dr.phase.Recovering? || dr.phase.Looping?)
  }

  lemma MovesMore(log: seq<Draft>, x: Draft)
    requires OnlyMoves(log) && Mover(x.body)
    ensures OnlyMoves(log + [x])
  {
  }

  // --- drives -----------------------------------------------------------------------------------------

  /** Such a drive writes nothing but a move to RUNNING, and faults when it comes to plan. */
  lemma IdlesOn(d: Definition, p: Instance, ph: Phase, worker: string, inp: Input)
    requires d.steps != [] && Bare(p) && (ph.Recovering? || ph.Looping?) && Fits(d, p, ph, inp)
    ensures var mv := NextMove(d, p, ph, worker, inp);
            || mv.Fault? || (mv.Finish? && mv.drafts == []) || mv == Append([], None, Looping)
            || mv == Append([Moved(WfPending, WfRunning, inp.now)], None, Looping)
  {
    if ph.Recovering? {
      assert forall k :: 0 <= k < |inp.stale| ==> inp.stale[k] in p.RunningSteps();
    } else {
      assert d.steps[0].stepId !in p.steps;
    }
  }

  lemma AppendMove(w: World, st: Sys, f: nat, x: Draft, t: Sys)
    requires Barren(w, st) && f in st.drives && Mover(x.body) && t == Perform(w, st, f, Append([x], None, Looping))
    ensures Barren(w, t)
  {
    MovesMore(st.log, x);
    ReplayOne(Some(w.def), st.drives[f].proj, x);
    if Advance(Some(w.def), st.drives[f].proj, x).Ok? { MoveStaysBare(Some(w.def), st.drives[f].proj, x); }
  }

  lemma StepStaysBarren(w: World, st: Sys, f: nat, inp: Input)
    requires w.def.steps != [] && Barren(w, st)
    ensures Barren(w, DoStep(w, st, f, inp))
  {
    if f in st.drives && Fits(w.def, st.drives[f].proj, st.drives[f].phase, inp) {
      var dr := st.drives[f];
      var mv := NextMove(w.def, dr.proj, dr.phase, dr.lease.worker, inp);
      IdlesOn(w.def, dr.proj, dr.phase, dr.lease.worker, inp);
      if mv.Append? && mv.drafts != [] { AppendMove(w, st, f, mv.drafts[0], DoStep(w, st, f, inp)); }
    }
  }

  // --- the others ---------------------------------------------------------------------------------------

  lemma BeginStaysBarren(w: World, st: Sys, f: nat)
    requires Barren(w, st)
    ensures Barren(w, DoBegin(w, st, f, false))
  {
    if Raw(w, st.log).Ok? { LogIsBare(w, st.log); }
  }

  lemma OperateStaysBarren(w: World, st: Sys, q: Request, now: Time)
    requires Barren(w, st)
    ensures Barren(w, DoOperate(w, st, q, now))
  {
    if Raw(w, st.log).Ok? && Control(Raw(w, st.log).value, q, now).Write? {
      MovesMore(st.log, Control(Raw(w, st.log).value, q, now).draft);
    }
  }

  lemma RefusedHere(w: World, st: Sys, id: string, s: StepId, c: Decision, r: Option<StepId>, now: Time)
    requires Barren(w, st)
    ensures DoLook(w, st, id, s) == st && DoDecide(w, st, id, s, c, now) == st && DoRequeue(w, st, r, now) == st
  {
    if Raw(w, st.log).Ok? { LogIsBare(w, st.log); }
  }

  lemma ActionStaysBarren(w: World, st: Sys, a: Action)
    requires w.def.steps != [] && Barren(w, st) && (a.Begin? ==> !a.seeded)
    ensures Barren(w, Apply(w, st, a))
  {
    match a {
      case Begin(f, _) => BeginStaysBarren(w, st, f);
      case Step(f, inp) => StepStaysBarren(w, st, f, inp);
      case Operate(q, now) => OperateStaysBarren(w, st, q, now);
      case Look(id, s) => RefusedHere(w, st, id, s, TimedOut(""), None, 0.0);
      case Decide(id, s, c, now) => RefusedHere(w, st, id, s, c, None, now);
      case Requeue(s, now) => RefusedHere(w, st, "", "", TimedOut(""), s, now);
      case _ =>
    }
  }

  lemma {:induction false} RunStaysBarren(w: World, st: Sys, acts: seq<Action>)
    requires w.def.steps != [] && Barren(w, st) && forall a :: a in acts && a.Begin? ==> !a.seeded
    ensures Barren(w, Run(w, st, acts))
    decreases |acts|
  {
    if acts != [] {
      assert acts[0] in acts && forall a :: a in acts[1..] ==> a in acts;
      ActionStaysBarren(w, st, acts[0]);
      RunStaysBarren(w, Apply(w, st, acts[0]), acts[1..]);
    }
  }

  /** If no read carries the defined steps, then in every run of a workflow with at least one step every event
      after the creation moves the instance's status: no step is ever readied, gated or started. */
  lemma UnseededNeverStarts(w: World, created: Draft, acts: seq<Action>, st: Sys, k: nat)
    requires Reachable(w, created, acts, st) && w.def.steps != [] && 1 <= k < |st.log|
    requires forall a :: a in acts && a.Begin? ==> !a.seeded
    ensures st.log[k].body.InstanceStatusChanged?
  {
    RunStaysBarren(w, Initial(created), acts);
  }

  // --- the fault is reached ----------------------------------------------------------------------------

  function Fresh(w: World, created: Draft): Instance
    requires created.body.InstanceCreated?
  {
    Advance(None, Blank(w), created).value
  }

  lemma FreshIs(w: World, created: Draft)
    requires created.body.InstanceCreated?
    ensures Raw(w, [created]) == Ok(Fresh(w, created)) && Bare(Fresh(w, created))
    ensures Fresh(w, created).status == WfPending && Fresh(w, created).version == 1
  {
    ReplayOne(None, Blank(w), created);
  }

  /** One worker with the first lease and one drive. */
  ghost predicate Alone(st: Sys, worker: string, log: seq<Draft>, p: Instance, ph: Phase) {
    && st.log == log && st.lease.Some? && st.lease.value.worker == worker && st.lease.value.fence == 1
    && st.drives == map[1 := Drive(Lease(worker, 1), p, ph)]
  }

  lemma Enter(w: World, created: Draft, worker: string, now: Time, st: Sys)
    requires created.body.InstanceCreated?
    requires st == Apply(w, Apply(w, Initial(created), Acquire(worker, now)), Begin(1, false))
    ensures Alone(st, worker, [created], Fresh(w, created), Recovering)
  {
    FreshIs(w, created);
  }

  lemma RecoverNothing(w: World, st: Sys, worker: string, log: seq<Draft>, p: Instance, inp: Input, t: Sys)
    requires Alone(st, worker, log, p, Recovering) && Bare(p) && inp.stale == [] && t == Apply(w, st, Step(1, inp))
    ensures Alone(t, worker, log, p, Looping)
  {
    assert p.RunningSteps() == {};
    assert Fits(w.def, p, Recovering, inp);
  }

  lemma SetRunning(w: World, st: Sys, worker: string, log: seq<Draft>, p: Instance, inp: Input, t: Sys)
    requires Alone(st, worker, log, p, Looping) && p.status == WfPending && p.version == |log| && Raw(w, log) == Ok(p)
    requires t == Apply(w, st, Step(1, inp))
    ensures var x := Moved(WfPending, WfRunning, inp.now);
            && Advance(Some(w.def), p, x).Ok? && Alone(t, worker, log + [x], Advance(Some(w.def), p, x).value, Looping)
  {
    var x := Moved(WfPending, WfRunning, inp.now);
    ReplayOne(Some(w.def), p, x);
    ReplayOne(None, p, x);
    ReplayConcat(None, Blank(w), log, [x]);
  }

  /** The drive's next move is the planner's failed lookup. */
  ghost predicate AboutToFault(w: World, st: Sys, f: nat, inp: Input) {
    && f in st.drives && Fits(w.def, st.drives[f].proj, st.drives[f].phase, inp)
    && NextMove(w.def, st.drives[f].proj, st.drives[f].phase, st.drives[f].lease.worker, inp).Fault?
  }

  /** And the fault is reached at once: the first drive of any new instance of a workflow with at least one step sets
      it running, comes to plan and fails. */
  lemma FirstDriveFaults(w: World, created: Draft, worker: string, inp: Input) returns (st: Sys)
    requires w.def.steps != [] && created.body.InstanceCreated? && inp.stale == []
    ensures st == Run(w, Initial(created),
                      [Acquire(worker, inp.now), Begin(1, false)] + [Step(1, inp), Step(1, inp)])
    ensures st.log == [created] + [Moved(WfPending, WfRunning, inp.now)] && AboutToFault(w, st, 1, inp)
  {
    var a := Apply(w, Apply(w, Initial(created), Acquire(worker, inp.now)), Begin(1, false));
    var b := Apply(w, a, Step(1, inp));
    st := Apply(w, b, Step(1, inp));
    FreshIs(w, created);
    Enter(w, created, worker, inp.now, a);
    RecoverNothing(w, a, worker, [created], Fresh(w, created), inp, b);
    SetRunning(w, b, worker, [created], Fresh(w, created), inp, st);
    MoveStaysBare(Some(w.def), Fresh(w, created), Moved(WfPending, WfRunning, inp.now));
    RunFour(w, Initial(created), Acquire(worker, inp.now), Begin(1, false), Step(1, inp), Step(1, inp));
    PlanFaults(w, st, inp);
  }

  lemma PlanFaults(w: World, st: Sys, inp: Input)
    requires w.def.steps != [] && 1 in st.drives && st.drives[1].phase.Looping?
    requires st.drives[1].proj.steps == map[] && st.drives[1].proj.status == WfRunning
    ensures AboutToFault(w, st, 1, inp)
  {
    assert w.def.steps[0].stepId !in st.drives[1].proj.steps;
  }

  lemma RunFour(w: World, st: Sys, a: Action, b: Action, c: Action, e: Action)
    ensures Run(w, st, [a, b] + [c, e]) == Apply(w, Apply(w, Apply(w, Apply(w, st, a), b), c), e)
  {
    RunConcat(w, st, [a, b], [c, e]);
    RunPair(w, st, a, b);
    RunPair(w, Apply(w, Apply(w, st, a), b), c, e);
  }

  lemma RunPair(w: World, st: Sys, a: Action, b: Action)
    ensures Run(w, st, [a, b]) == Apply(w, Apply(w, st, a), b)
  {
    assert [a, b][1..] == [b] && [b][1..] == [];
    assert Run(w, Apply(w, st, a), [b]) == Run(w, Apply(w, Apply(w, st, a), b), []);
  }
}
