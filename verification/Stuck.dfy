/** What becomes of an instance whose driver finds nothing to do while escalations are still open: no
    decision is accepted, because the instance is no longer waiting, and no worker starts a step again. */
module Stuck {
  import opened Domain
  import opened Events
  import opened Fold
  import opened FoldLaws
  import opened Planner
  import opened Driver
  import opened Legality
  import opened Batches
  import opened Phases
  import opened Seeding
  import opened Operators
  import opened Leasing
  import opened Protocol
  import opened Logs
  import opened Safety
  import opened Theorems

  // --- stranded instances ----------------------------------------------------------------------

  predicate Unstarted(i: Instance, s: StepId) {
    i.Step(s).status == Pending || i.Step(s).status == Ready
  }

  /** No retry is due or to come, and if the step could start an escalation holds it. */
  predicate Held(i: Instance, w: WorkflowStep) {
    i.Step(w.stepId).status != Failed && (Unstarted(i, w.stepId) && DepsDone(i, w) ==> i.Open(w.stepId))
  }

  ghost predicate AllHeld(d: Definition, i: Instance) {
    forall k :: 0 <= k < |d.steps| ==> Held(i, d.steps[k])
  }

  /** Nothing runs, nothing may start, not everything is settled, and the instance is not waiting. */
  ghost predicate Stranded(d: Definition, i: Instance) {
    && (i.status == WfRunning || i.status == WfPaused || i.status == WfFailed)
    && i.RunningSteps() == {} && !AllSettled(d, i) && AllHeld(d, i)
  }

  /** With nothing in flight, whether the planner is idle does not depend on the time. */
  lemma IdleIffHeld(d: Definition, i: Instance, now: Time)
    requires Valid(d) && Inv(d, i) && i.RunningSteps() == {}
    ensures Idle(PlanOf(d, i, now)) <==> !AllSettled(d, i) && AllHeld(d, i)
  {
    IdleExactly(d, i, now);
    forall k | 0 <= k < |d.steps|
      ensures Held(i, d.steps[k])
              <==> && !Exhausted(i, d.steps[k]) && !Delayed(i, d.steps[k], now)
                   && (Candidate(i, d.steps[k], now) ==> i.Open(d.steps[k].stepId))
    {
      assert StepInv(d, i, d.steps[k]);
    }
  }

  lemma IdleStrands(d: Definition, i: Instance, now: Time)
    requires Valid(d) && Inv(d, i) && i.status == WfRunning && i.RunningSteps() == {} && Idle(PlanOf(d, i, now))
    ensures Stranded(d, i)
  {
    IdleIffHeld(d, i, now);
  }

  // --- the driver writes nothing ------------------------------------------------------------------

  lemma StrandedLoop(d: Definition, p: Instance, worker: string, inp: Input)
    requires Valid(d) && Inv(d, Seeded(d, p)) && Stranded(d, Seeded(d, p))
    ensures var mv := Looped(d, p, worker, inp); mv.Fault? || (mv.Finish? && mv.drafts == [])
  {
    if p.status == WfRunning && p.Covers(d) {
      SeedIdempotent(d, p);
      IdleIffHeld(d, p, inp.now);
    }
  }

  lemma NothingToRecover(d: Definition, p: Instance, worker: string, inp: Input)
    requires Fits(d, p, Recovering, inp) && Stranded(d, Seeded(d, p))
    ensures NextMove(d, p, Recovering, worker, inp) == Append([], None, Looping)
  {
    assert Seeded(d, p).RunningSteps() == p.RunningSteps();
    assert forall k :: 0 <= k < |inp.stale| ==> inp.stale[k] in p.RunningSteps();
  }

  /** A drive that has read a stranded instance and written nothing. */
  ghost predicate Spectator(w: World, dr: Drive) {
    (dr.phase.Recovering? || dr.phase.Looping?) && Stranded(w.def, Seeded(w.def, dr.proj))
  }

  ghost predicate SameOthers(st: Sys, t: Sys, f: nat) {
    && t.log == st.log && t.issued == st.issued
    && forall g :: g in t.drives && g != f ==> g in st.drives && t.drives[g] == st.drives[g]
  }

  lemma PerformNothing(w: World, st: Sys, f: nat, mv: Move, t: Sys)
    requires f in st.drives && t == Perform(w, st, f, mv) && (mv.Fault? || mv.drafts == [])
    ensures SameOthers(st, t, f) && (f in t.drives ==> mv.Append?)
    ensures mv.Append? ==> f in t.drives && t.drives[f] == st.drives[f].(phase := mv.next)
  {
  }

  lemma PerformOverruled(w: World, st: Sys, f: nat, mv: Move, t: Sys)
    requires f in st.drives && t == Perform(w, st, f, mv) && !Guard(st, st.drives[f].lease)
    ensures SameOthers(st, t, f)
  {
    if mv.Fault? || mv.drafts == [] {
      PerformNothing(w, st, f, mv, t);
    } else {
      assert DoAppend(w, st, f, mv.drafts, mv.wakeup).None?;
    }
  }

  lemma SpectatorMove(w: World, p: Instance, ph: Phase, worker: string, inp: Input)
    requires Valid(w.def) && Inv(w.def, Seeded(w.def, p)) && Stranded(w.def, Seeded(w.def, p))
    requires (ph.Recovering? || ph.Looping?) && Fits(w.def, p, ph, inp)
    ensures var mv := NextMove(w.def, p, ph, worker, inp);
            (mv.Fault? || mv.drafts == []) && (mv.Append? ==> mv.next.Looping?)
  {
    if ph.Looping? {
      StrandedLoop(w.def, p, worker, inp);
    } else {
      NothingToRecover(w.def, p, worker, inp);
    }
  }

  lemma SpectatorStep(w: World, st: Sys, f: nat, inp: Input, t: Sys)
    requires Valid(w.def) && SysInv(w, st) && f in st.drives && Spectator(w, st.drives[f]) && t == DoStep(w, st, f, inp)
    ensures SameOthers(st, t, f) && (f in t.drives ==> Spectator(w, t.drives[f]))
  {
    var dr := st.drives[f];
    DriveProjects(w, st, f);
    if Fits(w.def, dr.proj, dr.phase, inp) {
      SpectatorMove(w, dr.proj, dr.phase, dr.lease.worker, inp);
      PerformNothing(w, st, f, NextMove(w.def, dr.proj, dr.phase, dr.lease.worker, inp), t);
    }
  }

  lemma OverruledGuard(w: World, st: Sys, f: nat)
    requires LeaseInv(st) && DrivesInv(w, st) && f in st.drives && f != |st.issued|
    ensures !Guard(st, st.drives[f].lease)
  {
    assert DriveInv(w, st, f, st.drives[f]);
  }

  /** A drive under an earlier lease can no longer write. */
  lemma OverruledStep(w: World, st: Sys, f: nat, inp: Input, t: Sys)
    requires SysInv(w, st) && f in st.drives && f != |st.issued| && t == DoStep(w, st, f, inp)
    ensures SameOthers(st, t, f)
  {
    OverruledGuard(w, st, f);
    var dr := st.drives[f];
    if Fits(w.def, dr.proj, dr.phase, inp) {
      PerformOverruled(w, st, f, NextMove(w.def, dr.proj, dr.phase, dr.lease.worker, inp), t);
    }
  }

  // --- the whole system -----------------------------------------------------------------------------

  /** The log leaves the instance stranded, and so it was when the drive under the latest lease read it. */
  ghost predicate Stuck(w: World, st: Sys) {
    StrandedLog(w, st.log) && (|st.issued| in st.drives ==> Spectator(w, st.drives[|st.issued|]))
  }

  ghost predicate StrandedLog(w: World, log: seq<Draft>) {
    Canon(w, log).Ok? && Stranded(w.def, Canon(w, log).value)
  }

  /** Only the instance's status has moved. */
  ghost predicate OnlyStatus(a: seq<Draft>, b: seq<Draft>) {
    a <= b && forall k :: |a| <= k < |b| ==> b[k].body.InstanceStatusChanged?
  }

  lemma OnlyStatusChain(a: seq<Draft>, b: seq<Draft>, c: seq<Draft>)
    requires OnlyStatus(a, b) && OnlyStatus(b, c)
    ensures OnlyStatus(a, c)
  {
    forall k | |a| <= k < |c| ensures c[k].body.InstanceStatusChanged? {
      if k < |b| { assert c[k] == b[k]; }
    }
  }

  lemma StuckStep(w: World, st: Sys, f: nat, inp: Input, t: Sys)
    requires Valid(w.def) && SysInv(w, st) && Stuck(w, st) && t == DoStep(w, st, f, inp)
    ensures Stuck(w, t) && t.log == st.log
  {
    if f in st.drives {
      if f == |st.issued| {
        SpectatorStep(w, st, f, inp, t);
      } else {
        OverruledStep(w, st, f, inp, t);
      }
    }
  }

  lemma StuckBegin(w: World, st: Sys, f: nat, seeded: bool, t: Sys)
    requires Valid(w.def) && LogInv(w, st) && Stuck(w, st) && t == DoBegin(w, st, f, seeded)
    ensures Stuck(w, t) && t.log == st.log
  {
    var i := GoodProjects(w, st.log);
    ReadIsProjection(w, st.log, seeded, i);
    if t != st { StuckBegun(w, st, f, t); }
  }

  lemma StuckBegun(w: World, st: Sys, f: nat, t: Sys)
    requires Stuck(w, st) && f in t.drives && t.log == st.log && t.issued == st.issued
    requires t.drives == st.drives[f := t.drives[f]]
    requires Ok(Seeded(w.def, t.drives[f].proj)) == Canon(w, st.log) && t.drives[f].phase.Recovering?
    ensures Stuck(w, t)
  {
  }

  lemma StillStranded(d: Definition, i: Instance, j: Instance, q: Request)
    requires Stranded(d, i) && j.status == Target(q) && j.steps == i.steps && j.escalations == i.escalations
    ensures Stranded(d, j)
  {
    SameStep(i, j);
    forall k | 0 <= k < |d.steps| ensures Held(j, d.steps[k]) {
      assert Held(i, d.steps[k]);
      assert i.Open(d.steps[k].stepId) ==> j.Open(d.steps[k].stepId);
    }
  }

  lemma ControlStrands(d: Definition, i: Instance, q: Request, now: Time) returns (j: Instance)
    requires Valid(d) && Inv(d, i) && Boundary(d, i) && Stranded(d, i) && Control(i, q, now).Write?
    ensures Lands(d, i, [Control(i, q, now).draft], j) && Boundary(d, j) && Stranded(d, j)
  {
    j := ControlSound(d, i, q, now);
    ReplayOne(Some(d), i, Control(i, q, now).draft);
    StillStranded(d, i, j, q);
  }

  lemma StuckOperate(w: World, st: Sys, q: Request, now: Time, t: Sys)
    requires Valid(w.def) && LogInv(w, st) && Stuck(w, st) && t == DoOperate(w, st, q, now)
    ensures Stuck(w, t) && OnlyStatus(st.log, t.log)
  {
    var i := GoodProjects(w, st.log);
    OperateIs(w, st, q, now, i);
    if Control(i, q, now).Write? {
      var j := ControlStrands(w.def, i, q, now);
      CommitLands(w, st, Outside, i, [Control(i, q, now).draft], j, None);
      StuckCommit(w, st, Control(i, q, now).draft, j, t);
    }
  }

  lemma StuckCommit(w: World, st: Sys, x: Draft, j: Instance, t: Sys)
    requires Stuck(w, st) && x.body.InstanceStatusChanged? && t.log == st.log + [x]
    requires t.issued == st.issued && t.drives == st.drives
    requires Canon(w, t.log) == Ok(j) && Stranded(w.def, j)
    ensures Stuck(w, t) && OnlyStatus(st.log, t.log)
  {
  }

  /** Neither a decision nor a requeue is taken: the instance is neither waiting nor dead-lettered. */
  lemma StuckRefuses(w: World, st: Sys, id: string, s: StepId, c: Decision, r: Option<StepId>, now: Time)
    requires Valid(w.def) && LogInv(w, st) && StrandedLog(w, st.log)
    ensures DoDecide(w, st, id, s, c, now) == st && DoRequeue(w, st, r, now) == st
  {
    var i := GoodProjects(w, st.log);
    ReadIsProjection(w, st.log, false, i);
  }

  /** A lease nobody has been granted yet has no drive. */
  lemma NoFutureDrive(w: World, st: Sys, f: nat)
    requires DrivesInv(w, st) && f > |st.issued|
    ensures f !in st.drives
  {
    forall g | g in st.drives ensures g <= |st.issued| {
      assert DriveInv(w, st, g, st.drives[g]);
    }
  }

  lemma StuckAcquire(w: World, st: Sys, worker: string, now: Time, t: Sys)
    requires SysInv(w, st) && Stuck(w, st) && t == DoAcquire(w, st, worker, now)
    ensures Stuck(w, t) && t.log == st.log
  {
    NoFutureDrive(w, st, |st.issued| + 1);
  }

  lemma StuckAction(w: World, st: Sys, a: Action, t: Sys)
    requires Valid(w.def) && SysInv(w, st) && Stuck(w, st) && t == Apply(w, st, a)
    ensures Stuck(w, t) && OnlyStatus(st.log, t.log)
  {
    match a {
      case Acquire(worker, now) => StuckAcquire(w, st, worker, now, t);
      case Begin(f, seeded) => StuckBegin(w, st, f, seeded, t);
      case Step(f, inp) => StuckStep(w, st, f, inp, t);
      case Operate(q, now) => StuckOperate(w, st, q, now, t);
      case Decide(id, s, c, now) => StuckRefuses(w, st, id, s, c, None, now);
      case Requeue(s, now) => StuckRefuses(w, st, "", "", TimedOut(""), s, now);
      case _ => StuckSame(w, st, a, t);
    }
  }

  lemma StuckSame(w: World, st: Sys, a: Action, t: Sys)
    requires Stuck(w, st) && (a.Heartbeat? || a.Release? || a.Look? || a.Crash?) && t == Apply(w, st, a)
    ensures Stuck(w, t) && t.log == st.log
  {
  }

  /** From a stuck state on, every event of every continuation is a change of the instance's status: no
      step starts, completes, fails or is skipped ever again, and no escalation is ever answered. */
  lemma {:induction false} StuckForGood(w: World, st: Sys, acts: seq<Action>)
    requires Valid(w.def) && SysInv(w, st) && Stuck(w, st)
    ensures Stuck(w, Run(w, st, acts)) && OnlyStatus(st.log, Run(w, st, acts).log)
    decreases |acts|
  {
    if acts != [] {
      var t := Apply(w, st, acts[0]);
      ActionKeeps(w, st, acts[0]);
      StuckAction(w, st, acts[0], t);
      StuckForGood(w, t, acts[1..]);
      OnlyStatusChain(st.log, t.log, Run(w, t, acts[1..]).log);
    }
  }

  lemma CurrentIsLatest(w: World, st: Sys, f: nat)
    requires SysInv(w, st) && f in st.drives && Current(st, f)
    ensures f == |st.issued|
  {
    if f != |st.issued| { OverruledGuard(w, st, f); }
  }

  /** When a drive that is up to date gives up as IDLE, the instance is stuck for good, whatever workers,
      operators and controllers do from then on. */
  lemma IdleForGood(w: World, created: Draft, acts: seq<Action>, st: Sys, f: nat, inp: Input, more: seq<Action>)
    requires Reachable(w, created, acts, st) && f in st.drives && Current(st, f)
    requires var dr := st.drives[f];
             && Fits(w.def, dr.proj, dr.phase, inp)
             && NextMove(w.def, dr.proj, dr.phase, dr.lease.worker, inp) == Finish([], None, DoneIdle)
    ensures OnlyStatus(st.log, Run(w, st, more).log)
  {
    ReachableInv(w, created, acts, st);
    var dr := st.drives[f];
    DriveProjects(w, st, f);
    IdleMove(w.def, dr.proj, dr.phase, dr.lease.worker, inp);
    SeedIdempotent(w.def, dr.proj);
    IdleStrands(w.def, dr.proj, inp.now);
    CurrentAt(w, st, f);
    CurrentIsLatest(w, st, f);
    StuckForGood(w, st, more);
  }

  // --- what a caller can check before resolving ---------------------------------------------------

  /** An escalation other than `id` is open on the step. */
  predicate OtherOpen(i: Instance, id: string, s: StepId) {
    exists k :: 0 <= k < |i.escalations| && i.escalations[k].stepId == s && !i.escalations[k].resolved
                && i.escalations[k].escalationId != id
  }

  predicate DepsDoneBut(i: Instance, w: WorkflowStep, s: StepId) {
    forall k :: 0 <= k < |w.dependencies| ==> w.dependencies[k] == s || Done(i.Step(w.dependencies[k]).status)
  }

  /** Even with `s` out of the way, the step has no retry to come and cannot start but for another escalation. */
  predicate HeldBut(i: Instance, id: string, s: StepId, w: WorkflowStep) {
    && i.Step(w.stepId).status != Failed
    && (Unstarted(i, w.stepId) && DepsDoneBut(i, w, s) ==> OtherOpen(i, id, w.stepId))
  }

  /** Another step is unsettled, and every other step is held by another escalation or behind one. */
  predicate Strands(d: Definition, i: Instance, id: string, s: StepId) {
    && (exists k :: 0 <= k < |d.steps| && d.steps[k].stepId != s && !Settled(i.Step(d.steps[k].stepId).status))
    && (forall k :: 0 <= k < |d.steps| && d.steps[k].stepId != s ==> HeldBut(i, id, s, d.steps[k]))
  }

  /** `j` is `i` with the escalation answered, its step done and no other step touched. */
  ghost predicate DoneWith(i: Instance, id: string, s: StepId, j: Instance) {
    && Done(j.Step(s).status) && (forall t :: t != s ==> j.Step(t) == i.Step(t))
    && j.escalations == ResolveRefs(i.escalations, id)
  }

  lemma OpenAfter(i: Instance, id: string, j: Instance, t: StepId)
    requires j.escalations == ResolveRefs(i.escalations, id)
    ensures j.Open(t) <==> OtherOpen(i, id, t)
  {
    if OtherOpen(i, id, t) {
      var k :| 0 <= k < |i.escalations| && i.escalations[k].stepId == t && !i.escalations[k].resolved
               && i.escalations[k].escalationId != id;
      assert j.escalations[k].stepId == t && !j.escalations[k].resolved;
    }
    if j.Open(t) {
      var k :| 0 <= k < |j.escalations| && j.escalations[k].stepId == t && !j.escalations[k].resolved;
      assert i.escalations[k].stepId == t && !i.escalations[k].resolved && i.escalations[k].escalationId != id;
    }
  }

  lemma HeldAfter(i: Instance, id: string, s: StepId, j: Instance, w: WorkflowStep)
    requires DoneWith(i, id, s, j) && w.stepId != s
    ensures Held(j, w) <==> HeldBut(i, id, s, w)
  {
    OpenAfter(i, id, j, w.stepId);
    assert DepsDone(j, w) <==> DepsDoneBut(i, w, s);
  }

  lemma AllHeldAfter(d: Definition, i: Instance, id: string, s: StepId, j: Instance)
    requires DoneWith(i, id, s, j)
    ensures AllHeld(d, j)
            <==> forall k :: 0 <= k < |d.steps| && d.steps[k].stepId != s ==> HeldBut(i, id, s, d.steps[k])
  {
    forall k | 0 <= k < |d.steps|
      ensures Held(j, d.steps[k]) <==> d.steps[k].stepId == s || HeldBut(i, id, s, d.steps[k])
    {
      if d.steps[k].stepId != s { HeldAfter(i, id, s, j, d.steps[k]); }
    }
  }

  lemma SettledAfter(d: Definition, i: Instance, id: string, s: StepId, j: Instance)
    requires DoneWith(i, id, s, j)
    ensures AllSettled(d, j)
            <==> forall k :: 0 <= k < |d.steps| && d.steps[k].stepId != s ==>
                               Settled(i.Step(d.steps[k].stepId).status)
  {
    assert forall k :: 0 <= k < |d.steps| && d.steps[k].stepId != s ==>
                         j.Step(d.steps[k].stepId) == i.Step(d.steps[k].stepId);
  }

  /** Whether answering an escalation leads into the dead end can be read off the instance beforehand: once
      the step is done and nothing else has moved, the planner is idle, at any time, exactly when every
      other step is held by another open escalation or behind one. */
  lemma StrandsIff(d: Definition, i: Instance, id: string, s: StepId, j: Instance, now: Time)
    requires Valid(d) && Inv(d, j) && j.RunningSteps() == {} && DoneWith(i, id, s, j)
    ensures Idle(PlanOf(d, j, now)) <==> Strands(d, i, id, s)
  {
    IdleIffHeld(d, j, now);
    SettledAfter(d, i, id, s, j);
    AllHeldAfter(d, i, id, s, j);
  }

  lemma DecisionIsDoneWith(i: Instance, id: string, s: StepId, r: Resolution, j: Instance)
    requires OnKnownStep(i, s) && !r.Abort? && Decided(i, j, s, r) && Done(StepTarget(i.Step(s), r))
    requires j.escalations == ResolveRefs(i.escalations, id)
    ensures DoneWith(i, id, s, j)
  {
  }

  lemma DecisionRests(d: Definition, i: Instance, s: StepId, r: Resolution, j: Instance)
    requires Inv(d, i) && i.status == WfWaiting && Decided(i, j, s, r)
    ensures j.RunningSteps() == {}
  {
    forall t ensures i.Step(t).status != Running {
      assert t !in i.RunningSteps();
    }
    assert forall t :: t in j.RunningSteps() ==> j.Step(t).status == Running;
  }

  /** A decision that skips a step, or accepts the work of one that has run, strands the instance at once
      exactly when `Strands` holds beforehand. */
  lemma DecisionStrandsIff(d: Definition, i: Instance, id: string, s: StepId, c: Decision, now: Time, later: Time)
    returns (j: Instance)
    requires Valid(d) && Inv(d, i) && Boundary(d, i) && i.status == WfWaiting && RefOn(i, id, s)
    requires OnKnownStep(i, s) && !c.Choice().Abort? && Permitted(i, s, c.Choice())
             && Done(StepTarget(i.Step(s), c.Choice()))
    ensures Replay(Some(d), i, DecisionDrafts(i, id, s, c, now)) == Ok(j)
    ensures Idle(PlanOf(d, j, later)) <==> Strands(d, i, id, s)
  {
    j := DecisionSound(d, i, id, s, c, now);
    AllLegalKeepsInv(d, i, DecisionDrafts(i, id, s, c, now));
    DecisionIsDoneWith(i, id, s, c.Choice(), j);
    DecisionRests(d, i, s, c.Choice(), j);
    StrandsIff(d, i, id, s, j, later);
  }
}
