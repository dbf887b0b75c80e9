/** One instance served by any number of workers: the log, the lease row, the drives in flight, the
    operator and the escalation controller, interleaved in any order and crashing between any two
    appends. Every transaction of the store is one atomic step. */
module Protocol {
  import opened Domain
  import opened Events
  import opened Fold
  import opened Planner
  import opened Driver
  import opened Legality
  import opened Operators
  import opened Leasing

  // --- the world and its state ----------------------------------------------------

  /** What is fixed for an instance; `metered` says whether a budget service records the spend. */
  datatype World = World(def: Definition, instanceId: string, tenantId: string, workflowId: string,
                         workflowVersion: string, ttl: Time, metered: bool)

  function Blank(w: World): Instance {
    NewInstance(w.instanceId, w.tenantId, w.workflowId, w.workflowVersion)
  }

  /** The store's own projection of a log, made without a definition. */
  function Raw(w: World, log: seq<Draft>): Folded {
    Replay(None, Blank(w), log)
  }

  /** The projection with every defined step present. */
  function Canon(w: World, log: seq<Draft>): Folded {
    Replay(Some(w.def), Blank(w), log)
  }

  /** Who wrote an event: the creator, the drive under a lease, or an unguarded writer. */
  datatype Author = Creator | ByDrive(fence: nat) | Outside

  /** A worker's private state inside one `drive` call. */
  datatype Drive = Drive(lease: Lease, proj: Instance, phase: Phase)

  /** `issued[k]` is the k-th lease ever granted; `begun[f]` is the length of the log that the drive
      under fence `f` read; `looked` are the escalation rows some controller has read while they were
      pending; `ledger` and `lost` are the spend recorded and the spend forgotten in crashes. */
  datatype Sys = Sys(
    log: seq<Draft>,
    authors: seq<Author>,
    wakeup: Option<Time>,
    lease: Option<LeaseRow>,
    issued: seq<Lease>,
    begun: map<nat, nat>,
    drives: map<nat, Drive>,
    looked: set<(string, StepId)>,
    ledger: real,
    lost: real)

  function Initial(created: Draft): Sys {
    Sys([created], [Creator], None, None, [], map[], map[], {}, 0.0, 0.0)
  }

  // --- commits ------------------------------------------------------------------

  predicate Guard(st: Sys, l: Lease) {
    Passes(st.lease, l)
  }

  function Repeat(a: Author, n: nat): (r: seq<Author>)
    ensures |r| == n && forall k :: 0 <= k < n ==> r[k] == a
  {
    seq(n, _ => a)
  }

  /** A commit at an expected version: refused on a version conflict or when the fold rejects the batch. */
  function Commit(w: World, st: Sys, author: Author, expected: nat, drafts: seq<Draft>,
                  wakeup: Option<Time>): Option<Sys> {
    if expected != |st.log| || Raw(w, st.log + drafts).Err? then None
    else Some(st.(log := st.log + drafts, authors := st.authors + Repeat(author, |drafts|), wakeup := wakeup))
  }

  // --- actions ------------------------------------------------------------------

  datatype Action =
    | Acquire(worker: string, now: Time)
    | Heartbeat(worker: string, now: Time)
    | Release(worker: string)
    | Begin(fence: nat, seeded: bool)
    | Step(fence: nat, input: Input)
    | Crash(fence: nat)
    | Operate(request: Request, now: Time)
    | Look(id: string, stepId: StepId)
    | Decide(id: string, stepId: StepId, decision: Decision, now: Time)
    | Requeue(requeued: Option<StepId>, now: Time)

  function DoAcquire(w: World, st: Sys, worker: string, now: Time): Sys {
    if Raw(w, st.log).Err? || !Claimable(Raw(w, st.log).value.status, st.wakeup, st.lease, now) then st
    else
      var row := Grant(st.lease, worker, now, w.ttl);
      st.(lease := Some(row), issued := st.issued + [Lease(worker, row.fence)])
  }

  function DoHeartbeat(w: World, st: Sys, worker: string, now: Time): Sys {
    if st.lease.None? || st.lease.value.worker != worker then st
    else st.(lease := Some(Renewed(st.lease.value, now, w.ttl)))
  }

  function DoRelease(st: Sys, worker: string): Sys {
    if st.lease.None? || st.lease.value.worker != worker then st else st.(lease := Some(Dropped(st.lease.value)))
  }

  /** A drive begins by reading the instance; the read may or may not have seeded the defined steps. */
  function DoBegin(w: World, st: Sys, f: nat, seeded: bool): Sys {
    if !(1 <= f <= |st.issued|) || f in st.begun then st
    else
      var read := if seeded then Canon(w, st.log) else Raw(w, st.log);
      if read.Err? then st
      else st.(begun := st.begun[f := |st.log|],
               drives := st.drives[f := Drive(st.issued[f - 1], read.value, Recovering)])
  }

  function Quit(st: Sys, f: nat): Sys {
    st.(drives := st.drives - {f})
  }

  /** One append of a drive: guarded, at the version of its own projection, folded locally on success. */
  function DoAppend(w: World, st: Sys, f: nat, drafts: seq<Draft>, wakeup: Option<Time>): Option<(Sys, Instance)>
    requires f in st.drives
  {
    var dr := st.drives[f];
    if drafts == [] then Some((st, dr.proj))
    else if !Guard(st, dr.lease) then None
    else
      var c := Commit(w, st, ByDrive(f), dr.proj.version, drafts, wakeup);
      var local := Replay(Some(w.def), dr.proj, drafts);
      if c.None? || local.Err? then None else Some((c.value, local.value))
  }

  function Owes(ph: Phase): real {
    if ph.Billing? && Spent(ph.runs) > 0.0 then Spent(ph.runs) else 0.0
  }

  function Perform(w: World, st: Sys, f: nat, mv: Move): Sys
    requires f in st.drives
  {
    match mv
    case Fault => Quit(st, f)
    case Finish(drafts, wakeup, _) =>
      var r := DoAppend(w, st, f, drafts, wakeup);
      if r.None? then Quit(st, f) else Quit(r.value.0, f)
    case Append(drafts, wakeup, next) =>
      var dr := st.drives[f];
      var r := DoAppend(w, st, f, drafts, wakeup);
      if r.None? then Quit(st, f)
      else r.value.0.(drives := r.value.0.drives[f := Drive(dr.lease, r.value.1, next)],
                      ledger := st.ledger + if w.metered then Owes(dr.phase) else 0.0)
  }

  function DoStep(w: World, st: Sys, f: nat, inp: Input): Sys {
    if f !in st.drives then st
    else
      var dr := st.drives[f];
      if !Fits(w.def, dr.proj, dr.phase, inp) then st
      else Perform(w, st, f, NextMove(w.def, dr.proj, dr.phase, dr.lease.worker, inp))
  }

  function DoCrash(st: Sys, f: nat): Sys {
    if f !in st.drives then st else Quit(st, f).(lost := st.lost + Owes(st.drives[f].phase))
  }

  /** The operator reads and appends at the version read; a conflict means another read, so the
      successful try is one step. */
  function DoOperate(w: World, st: Sys, q: Request, now: Time): Sys {
    var i := Raw(w, st.log);
    if i.Err? then st
    else
      var answer := Control(i.value, q, now);
      if !answer.Write? then st
      else
        var c := Commit(w, st, Outside, i.value.version, [answer.draft], None);
        if c.None? then st else c.value
  }

  /** A controller reads an escalation row and finds it pending. */
  function DoLook(w: World, st: Sys, id: string, s: StepId): Sys {
    var i := Raw(w, st.log);
    if i.Err? || !OpenRef(i.value, id, s) then st else st.(looked := st.looked + {(id, s)})
  }

  /** Later, in another transaction, it reads the instance and appends at the version read. The row may
      have been resolved in the meantime; only the instance's status is looked at again. */
  function DoDecide(w: World, st: Sys, id: string, s: StepId, c: Decision, now: Time): Sys {
    var i := Raw(w, st.log);
    if i.Err? || (id, s) !in st.looked || i.value.status != WfWaiting then st
    else
      var r := Commit(w, st, Outside, i.value.version, DecisionDrafts(i.value, id, s, c, now), None);
      if r.None? then st else r.value
  }

  /** A requeue of a dead-lettered instance by an operator who checks that the step has failed. */
  function DoRequeue(w: World, st: Sys, s: Option<StepId>, now: Time): Sys {
    var i := Raw(w, st.log);
    if i.Err? || i.value.status != WfDeadLettered || (s.Some? && i.value.Step(s.value).status != Failed) then st
    else
      var r := Commit(w, st, Outside, i.value.version, [Draft(WorkflowRequeued(s), now)], None);
      if r.None? then st else r.value
  }

  function Apply(w: World, st: Sys, a: Action): Sys {
    match a
    case Acquire(worker, now) => DoAcquire(w, st, worker, now)
    case Heartbeat(worker, now) => DoHeartbeat(w, st, worker, now)
    case Release(worker) => DoRelease(st, worker)
    case Begin(f, seeded) => DoBegin(w, st, f, seeded)
    case Step(f, inp) => DoStep(w, st, f, inp)
    case Crash(f) => DoCrash(st, f)
    case Operate(q, now) => DoOperate(w, st, q, now)
    case Look(id, s) => DoLook(w, st, id, s)
    case Decide(id, s, c, now) => DoDecide(w, st, id, s, c, now)
    case Requeue(s, now) => DoRequeue(w, st, s, now)
  }

  function Run(w: World, st: Sys, acts: seq<Action>): Sys
    decreases |acts|
  {
    if acts == [] then st else Run(w, Apply(w, st, acts[0]), acts[1..])
  }
}
