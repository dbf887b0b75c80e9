/** A drive that nobody disturbs. Its appends are the moves `NextMove` yields one after the other, and as
    actions of the protocol they extend the log by exactly what the driver's own loop writes. */
module Solo {
  import opened Domain
  import opened Events
  import opened Fold
  import opened FoldLaws
  import opened Planner
  import opened Driver
  import opened Legality
  import opened Batches
  import opened Phases
  import opened Operators
  import opened Seeding
  import opened Traces
  import opened Leasing
  import opened Protocol
  import opened Logs
  import opened Safety
  import opened Theorems

  // --- the same as protocol actions --------------------------------------------------------------------

  function StepsOf(f: nat, inps: seq<Input>): seq<Action> {
    if inps == [] then [] else [Step(f, inps[0])] + StepsOf(f, inps[1..])
  }

  /** The drive is in flight, up to date, and holds the latest lease. */
  ghost predicate Alone(w: World, st: Sys, f: nat, i: Instance, ph: Phase, worker: string) {
    && SysInv(w, st) && f in st.drives && Current(st, f)
    && st.drives[f].proj == i && st.drives[f].phase == ph && st.drives[f].lease.worker == worker
  }

  lemma AppendsHere(w: World, st: Sys, f: nat, ds: seq<Draft>, wakeup: Option<Time>, e: Instance)
    returns (t: Sys, p: Instance)
    requires SysInv(w, st) && f in st.drives && Current(st, f)
    requires Lands(w.def, Seeded(w.def, st.drives[f].proj), ds, e) && Boundary(w.def, e)
    ensures DoAppend(w, st, f, ds, wakeup) == Some((t, p)) && Replay(Some(w.def), st.drives[f].proj, ds) == Ok(p)
    ensures t == st.(log := st.log + ds, authors := t.authors, wakeup := t.wakeup) && p.version == |t.log|
    ensures ds != [] ==> t.wakeup == wakeup
  {
    if ds == [] {
      assert st.log + ds == st.log;
      t, p := st, st.drives[f].proj;
    } else {
      t, p := AppendCommits(w, st, f, ds, wakeup, e);
      LocalAgrees(w, st, f, ds, wakeup, t, p);
    }
  }

  lemma LocalAgrees(w: World, st: Sys, f: nat, ds: seq<Draft>, wakeup: Option<Time>, t: Sys, p: Instance)
    requires f in st.drives && ds != [] && DoAppend(w, st, f, ds, wakeup) == Some((t, p))
    ensures Replay(Some(w.def), st.drives[f].proj, ds) == Ok(p)
  {
  }

  /** A drive touches only the log and its own private state. */
  ghost predicate Framed(st: Sys, f: nat, u: Sys) {
    u.issued == st.issued && u.lease == st.lease && u.looked == st.looked && u.begun == st.begun
    && u.drives - {f} == st.drives - {f}
  }

  lemma FramedDrives(drives: map<nat, Drive>, f: nat, dr: Drive)
    ensures drives[f := dr] - {f} == drives - {f} && drives - {f} - {f} == drives - {f}
  {
  }

  /** A performed move of an undisturbed drive: the log grows by its batch and the drive stays up to date. */
  lemma PerformAlone(w: World, st: Sys, f: nat, mv: Move, e: Instance) returns (p: Instance)
    requires SysInv(w, st) && f in st.drives && Current(st, f) && MoveOk(w, st, f, mv, e) && !mv.Fault?
    ensures Replay(Some(w.def), st.drives[f].proj, mv.drafts) == Ok(p)
    ensures var u := Perform(w, st, f, mv);
            && u.log == st.log + mv.drafts && Framed(st, f, u)
            && u.drives == (if mv.Append? then st.drives[f := Drive(st.drives[f].lease, p, mv.next)]
                            else st.drives - {f})
            && (mv.Append? ==> Current(u, f))
  {
    var t;
    t, p := AppendsHere(w, st, f, mv.drafts, mv.wakeup, e);
    FramedDrives(st.drives, f, Drive(st.drives[f].lease, p, if mv.Append? then mv.next else Recovering));
  }

  /** Where a stretch of an undisturbed drive has brought the system. */
  ghost predicate Reached(w: World, st: Sys, f: nat, worker: string, leg: Leg, u: Sys) {
    && SysInv(w, u) && u.log == st.log + leg.written && Framed(st, f, u)
    && (leg.phase.Some? ==> Alone(w, u, f, leg.inst, leg.phase.value, worker))
    && (leg.phase.None? ==> f !in u.drives)
  }

  lemma FaultReaches(w: World, st: Sys, f: nat, worker: string, i: Instance, u: Sys)
    requires f in st.drives && u == Quit(st, f) && SysInv(w, u)
    ensures Reached(w, st, f, worker, Leg([], i, None), u)
  {
    assert st.log + [] == st.log;
    FramedDrives(st.drives, f, st.drives[f]);
  }

  lemma LegReaches(w: World, st: Sys, f: nat, worker: string, mv: Move, p: Instance, u: Sys)
    requires f in st.drives && st.drives[f].lease.worker == worker && !mv.Fault? && SysInv(w, u)
    requires u.log == st.log + mv.drafts && Framed(st, f, u) && (mv.Append? ==> f in u.drives && Current(u, f))
    requires u.drives == if mv.Append? then st.drives[f := Drive(st.drives[f].lease, p, mv.next)] else st.drives - {f}
    ensures Reached(w, st, f, worker, Leg(mv.drafts, p, if mv.Append? then Some(mv.next) else None), u)
  {
  }

  lemma MoveReaches(w: World, st: Sys, f: nat, i: Instance, ph: Phase, worker: string, inp: Input, mv: Move,
                    e: Instance, u: Sys)
    requires Alone(w, st, f, i, ph, worker) && Fits(w.def, i, ph, inp) && mv == NextMove(w.def, i, ph, worker, inp)
    requires MoveOk(w, st, f, mv, e) && u == Perform(w, st, f, mv) && SysInv(w, u)
    ensures Reached(w, st, f, worker, OneLeg(w.def, i, ph, worker, inp), u)
  {
    if mv.Fault? {
      FaultReaches(w, st, f, worker, i, u);
    } else {
      var p := PerformAlone(w, st, f, mv, e);
      LegOf(w.def, i, ph, worker, inp, mv, p);
      LegReaches(w, st, f, worker, mv, p, u);
    }
  }

  lemma StepAlone(w: World, st: Sys, f: nat, i: Instance, ph: Phase, worker: string, inp: Input)
    requires Valid(w.def) && Alone(w, st, f, i, ph, worker)
    ensures Reached(w, st, f, worker, OneLeg(w.def, i, ph, worker, inp), DoStep(w, st, f, inp))
  {
    if Fits(w.def, i, ph, inp) {
      StepKeeps(w, st, f, inp);
      var e := MoveOf(w, st, f, inp);
      MoveReaches(w, st, f, i, ph, worker, inp, NextMove(w.def, i, ph, worker, inp), e, DoStep(w, st, f, inp));
    } else {
      assert st.log + [] == st.log;
    }
  }

  /** A drive that is gone takes no further step. */
  lemma {:induction false} GoneStays(w: World, st: Sys, f: nat, inps: seq<Input>)
    requires f !in st.drives
    ensures Run(w, st, StepsOf(f, inps)) == st
    decreases |inps|
  {
    if inps != [] {
      assert StepsOf(f, inps)[1..] == StepsOf(f, inps[1..]);
      GoneStays(w, st, f, inps[1..]);
    }
  }

  lemma ReachedThen(w: World, st: Sys, f: nat, worker: string, one: Leg, u: Sys, rest: Leg, v: Sys)
    requires Reached(w, st, f, worker, one, u) && Reached(w, u, f, worker, rest, v)
    ensures Reached(w, st, f, worker, Then(one, rest), v)
  {
    Assoc(st.log, one.written, rest.written);
  }

  lemma Assoc(a: seq<Draft>, b: seq<Draft>, c: seq<Draft>)
    ensures a + b + c == a + (b + c)
  {
  }

  lemma RunSteps(w: World, st: Sys, f: nat, inps: seq<Input>)
    requires inps != []
    ensures Run(w, st, StepsOf(f, inps)) == Run(w, DoStep(w, st, f, inps[0]), StepsOf(f, inps[1..]))
  {
    assert StepsOf(f, inps)[1..] == StepsOf(f, inps[1..]);
  }

  lemma StepOnce(w: World, st: Sys, f: nat, i: Instance, ph: Phase, worker: string, inp: Input, one: Leg, u: Sys)
    requires Valid(w.def) && Alone(w, st, f, i, ph, worker)
    requires one == OneLeg(w.def, i, ph, worker, inp) && u == DoStep(w, st, f, inp)
    ensures Reached(w, st, f, worker, one, u)
  {
    StepAlone(w, st, f, i, ph, worker, inp);
  }

  /** As protocol actions, an undisturbed drive's moves extend the log by exactly its trace. */
  lemma {:induction false} TraceIsARun(w: World, st: Sys, f: nat, i: Instance, ph: Phase, worker: string,
                                       inps: seq<Input>)
    requires Valid(w.def) && Alone(w, st, f, i, ph, worker)
    ensures Reached(w, st, f, worker, Trace(w.def, i, ph, worker, inps), Run(w, st, StepsOf(f, inps)))
    decreases |inps|, 0
  {
    if inps == [] {
      assert st.log + [] == st.log;
    } else {
      var one, u := OneLeg(w.def, i, ph, worker, inps[0]), DoStep(w, st, f, inps[0]);
      RunSteps(w, st, f, inps);
      StepOnce(w, st, f, i, ph, worker, inps[0], one, u);
      ContinueIsARun(w, st, f, worker, one, u, inps[1..]);
    }
  }

  lemma {:induction false} ContinueIsARun(w: World, st: Sys, f: nat, worker: string, one: Leg, u: Sys, inps: seq<Input>)
    requires Valid(w.def) && Reached(w, st, f, worker, one, u)
    ensures Reached(w, st, f, worker, Continue(w.def, one, worker, inps), Run(w, u, StepsOf(f, inps)))
    decreases |inps|, 1
  {
    if one.phase.None? {
      GoneStays(w, u, f, inps);
    } else {
      TraceIsARun(w, u, f, one.inst, one.phase.value, worker, inps);
      ReachedThen(w, st, f, worker, one, u, Trace(w.def, one.inst, one.phase.value, worker, inps),
                  Run(w, u, StepsOf(f, inps)));
    }
  }

  // --- getting there -------------------------------------------------------------------------------------

  /** A grant of a claimable instance. */
  lemma TakesLease(w: World, st: Sys, i: Instance, worker: string, now: Time) returns (t: Sys)
    requires Valid(w.def) && SysInv(w, st) && At(w, st.log, i) && Claimable(i.status, st.wakeup, st.lease, now)
    ensures t == DoAcquire(w, st, worker, now) && SysInv(w, t)
    ensures t == st.(lease := Some(LeaseRow(worker, |st.issued| + 1, now, now + w.ttl)),
                     issued := st.issued + [Lease(worker, |st.issued| + 1)])
  {
    ReadIsProjection(w, st.log, false, i);
    AcquireKeeps(w, st, worker, now);
    t := DoAcquire(w, st, worker, now);
  }

  /** The drive under the latest grant reads the instance with its steps seeded. */
  lemma Begins(w: World, st: Sys, f: nat, i: Instance, worker: string) returns (u: Sys)
    requires Valid(w.def) && SysInv(w, st) && At(w, st.log, i) && f == |st.issued| >= 1 && f !in st.begun
    requires st.issued[f - 1] == Lease(worker, f) && st.lease.Some? && st.lease.value.worker == worker
    ensures u == DoBegin(w, st, f, true) && Alone(w, u, f, i, Recovering, worker)
    ensures u == st.(begun := u.begun, drives := st.drives[f := Drive(Lease(worker, f), i, Recovering)])
  {
    ReadIsProjection(w, st.log, true, i);
    var p := GoodProjects(w, st.log);
    BeginKeeps(w, st, f, true);
    u := DoBegin(w, st, f, true);
  }

  lemma RunTwo(w: World, st: Sys, a: Action, b: Action)
    ensures Run(w, st, [a, b]) == Apply(w, Apply(w, st, a), b)
  {
    assert [a, b][1..] == [b] && [b][1..] == [];
    assert Run(w, Apply(w, st, a), [b]) == Run(w, Apply(w, Apply(w, st, a), b), []);
  }

  /** A worker takes the lease and begins a drive. */
  lemma Enters(w: World, st: Sys, i: Instance, worker: string, now: Time) returns (f: nat, u: Sys)
    requires Valid(w.def) && SysInv(w, st) && At(w, st.log, i) && Claimable(i.status, st.wakeup, st.lease, now)
    ensures u == Run(w, st, [Acquire(worker, now), Begin(f, true)]) && Alone(w, u, f, i, Recovering, worker)
    ensures u.log == st.log && u.looked == st.looked && u.drives - {f} == st.drives - {f}
    ensures u.lease.Some? && u.lease.value.expiresAt == now + w.ttl
  {
    f := |st.issued| + 1;
    var t := TakesLease(w, st, i, worker, now);
    NotBegun(w, st, f);
    u := Begins(w, t, f, i, worker);
    FramedDrives(st.drives, f, Drive(Lease(worker, f), i, Recovering));
    AcquireBegin(w, st, worker, now, t, f, u);
  }

  lemma AcquireBegin(w: World, st: Sys, worker: string, now: Time, t: Sys, f: nat, u: Sys)
    requires t == DoAcquire(w, st, worker, now) && u == DoBegin(w, t, f, true)
    ensures u == Run(w, st, [Acquire(worker, now), Begin(f, true)])
  {
    RunTwo(w, st, Acquire(worker, now), Begin(f, true));
  }

  lemma NotBegun(w: World, st: Sys, f: nat)
    requires AuthorInv(st) && f > |st.issued|
    ensures f !in st.begun
  {
  }

  /** A whole undisturbed drive: the log grows by its trace, and the instance is what the trace ends with. */
  lemma DriveIsARun(w: World, st: Sys, f: nat, i: Instance, worker: string, inps: seq<Input>, ds: seq<Draft>,
                    j: Instance)
    requires Valid(w.def) && Alone(w, st, f, i, Recovering, worker) && At(w, st.log, i)
    requires Trace(w.def, i, Recovering, worker, inps) == Leg(ds, j, None)
    ensures var u := Run(w, st, StepsOf(f, inps));
            SysInv(w, u) && u.log == st.log + ds && At(w, u.log, j) && Framed(st, f, u) && f !in u.drives
  {
    TraceIsARun(w, st, f, i, Recovering, worker, inps);
    TraceReplays(w.def, i, Recovering, worker, inps);
    ReplayConcat(Some(w.def), Blank(w), st.log, ds);
  }

  lemma EmptyBut(drives: map<nat, Drive>, f: nat)
    requires drives - {f} == map[] && f !in drives
    ensures drives == map[]
  {
    assert drives == drives - {f};
  }

  /** From an instance nobody drives: lease, begin, drive to the end. */
  lemma WholeDrive(w: World, st: Sys, i: Instance, worker: string, now: Time, inps: seq<Input>, ds: seq<Draft>,
                   j: Instance)
    returns (acts: seq<Action>, u: Sys)
    requires Valid(w.def) && SysInv(w, st) && At(w, st.log, i) && st.drives == map[]
             && Claimable(i.status, st.wakeup, st.lease, now)
    requires Trace(w.def, i, Recovering, worker, inps) == Leg(ds, j, None)
    ensures u == Run(w, st, acts) && SysInv(w, u) && At(w, u.log, j) && u.drives == map[] && u.looked == st.looked
    ensures u.lease.Some? && u.lease.value.expiresAt == now + w.ttl
  {
    var f, t := Enters(w, st, i, worker, now);
    DriveIsARun(w, t, f, i, worker, inps, ds, j);
    u := Run(w, t, StepsOf(f, inps));
    EmptyBut(u.drives, f);
    acts := [Acquire(worker, now), Begin(f, true)] + StepsOf(f, inps);
    RunConcat(w, st, [Acquire(worker, now), Begin(f, true)], StepsOf(f, inps));
  }

  lemma RunOne(w: World, st: Sys, a: Action)
    ensures Run(w, st, [a]) == Apply(w, st, a)
  {
    assert [a][1..] == [];
    assert Run(w, Apply(w, st, a), []) == Apply(w, st, a);
  }

  lemma DecideIs(w: World, st: Sys, id: string, s: StepId, c: Decision, now: Time, ds: seq<Draft>)
    requires Raw(w, st.log).Ok? && (id, s) in st.looked && Raw(w, st.log).value.status == WfWaiting
    requires Raw(w, st.log).value.version == |st.log| && DecisionDrafts(Raw(w, st.log).value, id, s, c, now) == ds
    requires Commit(w, st, Outside, |st.log|, ds, None).Some?
    ensures DoDecide(w, st, id, s, c, now) == Commit(w, st, Outside, |st.log|, ds, None).value
  {
  }

  lemma RunDecide(w: World, st: Sys, id: string, s: StepId, c: Decision, now: Time, u: Sys)
    requires u == Run(w, st, [Decide(id, s, c, now)])
    ensures u == DoDecide(w, st, id, s, c, now)
  {
    RunOne(w, st, Decide(id, s, c, now));
  }

  /** A permitted decision as one action. */
  lemma DecidesTo(w: World, st: Sys, i: Instance, id: string, s: StepId, c: Decision, now: Time, u: Sys)
    returns (j: Instance)
    requires Valid(w.def) && SysInv(w, st) && At(w, st.log, i) && (id, s) in st.looked && i.status == WfWaiting
             && Permitted(i, s, c.Choice())
    requires u == Run(w, st, [Decide(id, s, c, now)])
    ensures SysInv(w, u) && At(w, u.log, j)
    ensures u.drives == st.drives && u.looked == st.looked && u.lease == st.lease && u.wakeup == None
    ensures Inv(w.def, j) && Decided(i, j, s, c.Choice()) && j.status == WorkflowTarget(i, s, c.Choice())
    ensures j.escalations == ResolveRefs(i.escalations, id)
    ensures j.budgetLimit == if c.Resolved? && c.newBudget.Some? then c.newBudget else i.budgetLimit
  {
    j := DecisionLands(w, st, i, id, s, c, now);
    DecidesOn(w, st, i, id, s, c, now, j, u);
  }

  lemma DecisionLands(w: World, st: Sys, i: Instance, id: string, s: StepId, c: Decision, now: Time)
    returns (j: Instance)
    requires Valid(w.def) && SysInv(w, st) && At(w, st.log, i) && (id, s) in st.looked && i.status == WfWaiting
             && Permitted(i, s, c.Choice())
    ensures Lands(w.def, i, DecisionDrafts(i, id, s, c, now), j) && Boundary(w.def, j)
    ensures Inv(w.def, j) && Decided(i, j, s, c.Choice()) && j.status == WorkflowTarget(i, s, c.Choice())
    ensures j.escalations == ResolveRefs(i.escalations, id)
    ensures j.budgetLimit == if c.Resolved? && c.newBudget.Some? then c.newBudget else i.budgetLimit
  {
    var k, raw := DecideReads(w, st, id, s, c, now);
    j := DecisionSound(w.def, i, id, s, c, now);
    AllLegalKeepsInv(w.def, i, DecisionDrafts(i, id, s, c, now));
  }

  lemma DecidesOn(w: World, st: Sys, i: Instance, id: string, s: StepId, c: Decision, now: Time, j: Instance, u: Sys)
    requires Valid(w.def) && SysInv(w, st) && At(w, st.log, i) && (id, s) in st.looked && i.status == WfWaiting
    requires Lands(w.def, i, DecisionDrafts(i, id, s, c, now), j) && Boundary(w.def, j)
    requires u == Run(w, st, [Decide(id, s, c, now)])
    ensures SysInv(w, u) && At(w, u.log, j)
    ensures u.drives == st.drives && u.looked == st.looked && u.lease == st.lease && u.wakeup == None
  {
    var ds := DecisionDrafts(i, id, s, c, now);
    OutsideKeeps(w, st, i, ds, j);
    RunDecide(w, st, id, s, c, now, u);
    var k, raw := DecideReads(w, st, id, s, c, now);
    DecideIs(w, st, id, s, c, now, ds);
  }

  /** Reading the row of an open escalation. */
  lemma LooksAt(w: World, st: Sys, i: Instance, id: string, s: StepId) returns (u: Sys)
    requires Valid(w.def) && SysInv(w, st) && At(w, st.log, i) && OpenRef(i, id, s)
    ensures u == Run(w, st, [Look(id, s)]) && SysInv(w, u) && u == st.(looked := st.looked + {(id, s)})
  {
    ReadIsProjection(w, st.log, false, i);
    LookKeeps(w, st, id, s);
    u := DoLook(w, st, id, s);
    RunOne(w, st, Look(id, s));
  }
}
