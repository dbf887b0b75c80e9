/** The invariant of the protocol and its preservation by every action, hence along every run. */
module Safety {
  import opened Domain
  import opened Events
  import opened Fold
  import opened FoldLaws
  import opened Planner
  import opened Driver
  import opened Legality
  import opened Batches
  import opened Phases
  import opened Seeding
  import opened Operators
  import opened Leasing
  import opened Protocol
  import opened Logs

  // --- the invariant -----------------------------------------------------------------

  ghost predicate LogInv(w: World, st: Sys) {
    && |st.authors| == |st.log| && GoodLog(w, st.log)
    && Canon(w, st.log).Ok? && Boundary(w.def, Canon(w, st.log).value) && OnRecord(Canon(w, st.log).value, st.looked)
  }

  /** Every row a controller has read belongs to an escalation of the instance. */
  ghost predicate OnRecord(i: Instance, looked: set<(string, StepId)>) {
    forall p :: p in looked ==> RefOn(i, p.0, p.1)
  }

  lemma StaysOnRecord(d: Definition, i: Instance, ds: seq<Draft>, j: Instance, looked: set<(string, StepId)>)
    requires Lands(d, i, ds, j) && OnRecord(i, looked)
    ensures OnRecord(j, looked)
  {
    forall p | p in looked ensures RefOn(j, p.0, p.1) {
      RefPersists(d, i, ds, j, p.0, p.1);
    }
  }

  /** The row always carries the latest grant, and the k-th grant has fence k. */
  ghost predicate LeaseInv(st: Sys) {
    && (st.lease.None? <==> st.issued == [])
    && (st.lease.Some? ==>
          && st.lease.value.fence == |st.issued|
          && st.lease.value.worker == st.issued[|st.issued| - 1].worker)
    && (forall k :: 0 <= k < |st.issued| ==> st.issued[k].fence == k + 1)
  }

  /** The event at `k` was written by a drive that owns everything from the log it read up to `k`. */
  ghost predicate Own(authors: seq<Author>, begun: map<nat, nat>, k: nat)
    requires k < |authors|
  {
    authors[k].ByDrive? ==>
      && authors[k].fence in begun && begun[authors[k].fence] <= k
      && forall j :: begun[authors[k].fence] <= j <= k ==> authors[j] == authors[k]
  }

  ghost predicate FencesRise(authors: seq<Author>) {
    forall j, k :: 0 <= j < k < |authors| && authors[j].ByDrive? && authors[k].ByDrive? ==>
      authors[j].fence <= authors[k].fence
  }

  ghost predicate AuthorInv(st: Sys) {
    && (forall f :: f in st.begun ==> 1 <= f <= |st.issued|)
    && (forall k :: 0 <= k < |st.authors| ==> Own(st.authors, st.begun, k))
    && FencesRise(st.authors)
  }

  /** A drive's private projection is the fold of the log up to its version, its phase assertion holds
      there, and what it has written is exactly what lies between the log it read and that version. */
  ghost predicate DriveBase(w: World, st: Sys, f: nat, lease: Lease, p: Instance) {
    && f in st.begun && 1 <= f <= |st.issued| && lease == st.issued[f - 1]
    && 1 <= st.begun[f] <= p.version <= |st.log| == |st.authors|
    && At(w, st.log[..p.version], Seeded(w.def, p)) && Boundary(w.def, Seeded(w.def, p))
    && (forall k :: st.begun[f] <= k < p.version ==> st.authors[k] == ByDrive(f))
    && (forall k :: 0 <= k < |st.authors| && st.authors[k] == ByDrive(f) ==> k < p.version)
  }

  ghost predicate PhaseInv(w: World, p: Instance, ph: Phase) {
    PhaseOk(w.def, Seeded(w.def, p), ph) && (ph.Recovering? || ph.Looping? || p.Covers(w.def))
  }

  ghost predicate DriveInv(w: World, st: Sys, f: nat, dr: Drive) {
    DriveBase(w, st, f, dr.lease, dr.proj) && PhaseInv(w, dr.proj, dr.phase)
  }

  ghost predicate DrivesInv(w: World, st: Sys) {
    forall f :: f in st.drives ==> DriveInv(w, st, f, st.drives[f])
  }

  ghost predicate OthersOk(w: World, st: Sys, f: nat) {
    forall g :: g in st.drives && g != f ==> DriveInv(w, st, g, st.drives[g])
  }

  ghost predicate SysInv(w: World, st: Sys) {
    LogInv(w, st) && LeaseInv(st) && AuthorInv(st) && DrivesInv(w, st)
  }

  lemma InitialInv(w: World, created: Draft)
    requires Valid(w.def) && created.body.InstanceCreated?
    ensures SysInv(w, Initial(created))
  {
    GenesisInv(w, created);
    CanonFromGenesis(w, [created]);
  }

  // --- commits -------------------------------------------------------------------------

  /** A legal batch at the current version commits, whoever writes it. */
  lemma CommitLands(w: World, st: Sys, a: Author, i: Instance, ds: seq<Draft>, j: Instance, wakeup: Option<Time>)
    requires LogInv(w, st) && At(w, st.log, i) && Lands(w.def, i, ds, j) && Boundary(w.def, j)
    ensures Commit(w, st, a, |st.log|, ds, wakeup).Some?
    ensures var t := Commit(w, st, a, |st.log|, ds, wakeup).value; At(w, t.log, j) && LogInv(w, t)
  {
    Extend(w, st.log, i, ds, j);
    RawOfCanon(w, st.log + ds);
    StaysOnRecord(w.def, i, ds, j, st.looked);
  }

  /** Appending does not disturb a drive that did not write it. */
  lemma OthersUndisturbed(w: World, st: Sys, t: Sys, ds: seq<Draft>, a: Author, g: nat, dr: Drive)
    requires DriveInv(w, st, g, dr) && a != ByDrive(g)
    requires t.log == st.log + ds && t.authors == st.authors + Repeat(a, |ds|) && t.issued == st.issued
             && t.begun == st.begun
    ensures DriveInv(w, t, g, dr)
  {
    assert t.log[..dr.proj.version] == st.log[..dr.proj.version];
  }

  /** Appending keeps the authorship invariant when the writer owns the end of the log. */
  lemma AuthorsExtend(st: Sys, t: Sys, n: nat, a: Author)
    requires AuthorInv(st) && t.authors == st.authors + Repeat(a, n) && t.begun == st.begun && t.issued == st.issued
    requires a.ByDrive? ==>
               && a.fence in st.begun && st.begun[a.fence] <= |st.authors| && a.fence == |st.issued|
               && forall k :: st.begun[a.fence] <= k < |st.authors| ==> st.authors[k] == a
    ensures AuthorInv(t)
  {
    forall k | 0 <= k < |t.authors| ensures Own(t.authors, t.begun, k) {
      if k < |st.authors| { assert Own(st.authors, st.begun, k); }
    }
    forall j, k | 0 <= j < k < |t.authors| && t.authors[j].ByDrive? && t.authors[k].ByDrive?
      ensures t.authors[j].fence <= t.authors[k].fence
    {
      if j < |st.authors| { assert Own(st.authors, st.begun, j); }
    }
  }

  lemma AllUndisturbed(w: World, st: Sys, t: Sys, ds: seq<Draft>, a: Author)
    requires t.log == st.log + ds && t.authors == st.authors + Repeat(a, |ds|) && t.issued == st.issued
             && t.begun == st.begun
    requires forall f :: f in t.drives ==> f in st.drives && t.drives[f] == st.drives[f] && a != ByDrive(f)
    requires DrivesInv(w, st)
    ensures DrivesInv(w, t)
  {
    forall f | f in t.drives ensures DriveInv(w, t, f, t.drives[f]) {
      OthersUndisturbed(w, st, t, ds, a, f, st.drives[f]);
    }
  }

  // --- actions that write no event ----------------------------------------------------

  /** Issuing more leases or forgetting drives disturbs neither the log nor the drives that go on. */
  ghost predicate Carries(st: Sys, t: Sys) {
    && t.log == st.log && t.authors == st.authors && t.begun == st.begun && st.issued <= t.issued
    && t.looked == st.looked
    && forall f :: f in t.drives ==> f in st.drives && t.drives[f] == st.drives[f]
  }

  lemma DriveCarries(w: World, st: Sys, t: Sys, f: nat)
    requires Carries(st, t) && f in t.drives && DriveInv(w, st, f, st.drives[f])
    ensures DriveInv(w, t, f, t.drives[f])
  {
  }

  lemma AuthorsCarry(st: Sys, t: Sys)
    requires Carries(st, t) && AuthorInv(st)
    ensures AuthorInv(t)
  {
    forall k | 0 <= k < |t.authors| ensures Own(t.authors, t.begun, k) {
      assert Own(st.authors, st.begun, k);
    }
  }

  lemma CarryKeeps(w: World, st: Sys, t: Sys)
    requires SysInv(w, st) && Carries(st, t) && LeaseInv(t)
    ensures SysInv(w, t)
  {
    AuthorsCarry(st, t);
    forall f | f in t.drives ensures DriveInv(w, t, f, t.drives[f]) {
      DriveCarries(w, st, t, f);
    }
  }

  lemma AcquireKeeps(w: World, st: Sys, worker: string, now: Time)
    requires SysInv(w, st)
    ensures SysInv(w, DoAcquire(w, st, worker, now))
  {
    CarryKeeps(w, st, DoAcquire(w, st, worker, now));
  }

  lemma HeartbeatKeeps(w: World, st: Sys, worker: string, now: Time)
    requires SysInv(w, st)
    ensures SysInv(w, DoHeartbeat(w, st, worker, now))
  {
    CarryKeeps(w, st, DoHeartbeat(w, st, worker, now));
  }

  lemma ReleaseKeeps(w: World, st: Sys, worker: string)
    requires SysInv(w, st)
    ensures SysInv(w, DoRelease(st, worker))
  {
    CarryKeeps(w, st, DoRelease(st, worker));
  }

  lemma CrashKeeps(w: World, st: Sys, f: nat)
    requires SysInv(w, st)
    ensures SysInv(w, DoCrash(st, f))
  {
    CarryKeeps(w, st, DoCrash(st, f));
  }

  // --- a drive begins -------------------------------------------------------------------

  /** Either read yields a projection whose seeded form is the log's. */
  lemma ReadIsProjection(w: World, log: seq<Draft>, seeded: bool, i: Instance)
    requires Valid(w.def) && At(w, log, i)
    ensures var r := if seeded then Canon(w, log) else Raw(w, log);
            r.Ok? && Seeded(w.def, r.value) == i && r.value.version == |log|
  {
    RawOfCanon(w, log);
    SeedIdempotent(w.def, Raw(w, log).value);
    ReplayVersion(None, Blank(w), log);
  }

  lemma BeginKeeps(w: World, st: Sys, f: nat, seeded: bool)
    requires Valid(w.def) && SysInv(w, st)
    ensures SysInv(w, DoBegin(w, st, f, seeded))
  {
    var t := DoBegin(w, st, f, seeded);
    if t != st {
      var i := GoodProjects(w, st.log);
      ReadIsProjection(w, st.log, seeded, i);
      BegunAuthors(st, t, f);
      BegunDrives(w, st, t, f);
      BegunDrive(w, t, f, t.drives[f].proj);
    }
  }

  lemma BegunDrive(w: World, t: Sys, f: nat, p: Instance)
    requires At(w, t.log, Seeded(w.def, p)) && Boundary(w.def, Seeded(w.def, p)) && p.version == |t.log| == |t.authors|
    requires f in t.begun && t.begun[f] == |t.log| && 1 <= f <= |t.issued|
    requires forall k :: 0 <= k < |t.authors| ==> t.authors[k] != ByDrive(f)
    ensures DriveInv(w, t, f, Drive(t.issued[f - 1], p, Recovering))
  {
    assert t.log[..|t.log|] == t.log;
  }

  lemma BegunAuthors(st: Sys, t: Sys, f: nat)
    requires AuthorInv(st) && f !in st.begun && 1 <= f <= |st.issued| && |st.authors| == |st.log|
    requires t.authors == st.authors && t.issued == st.issued && t.begun == st.begun[f := |st.log|]
    ensures AuthorInv(t)
    ensures forall k :: 0 <= k < |t.authors| ==> t.authors[k] != ByDrive(f)
  {
    forall k | 0 <= k < |t.authors| ensures Own(t.authors, t.begun, k) && t.authors[k] != ByDrive(f) {
      assert Own(st.authors, st.begun, k);
    }
  }

  lemma BegunDrives(w: World, st: Sys, t: Sys, f: nat)
    requires DrivesInv(w, st) && f !in st.begun
    requires t.log == st.log && t.authors == st.authors && t.issued == st.issued && t.begun == st.begun[f := |st.log|]
    ensures forall g :: g in st.drives ==> g != f && DriveInv(w, t, g, st.drives[g])
  {
    forall g | g in st.drives ensures g != f && DriveInv(w, t, g, st.drives[g]) {
      assert DriveInv(w, st, g, st.drives[g]);
    }
  }

  // --- the unguarded writers -------------------------------------------------------------

  /** A legal batch from outside any drive commits and keeps everything; drives in flight now hold a
      projection of an older version. */
  lemma OutsideKeeps(w: World, st: Sys, i: Instance, ds: seq<Draft>, j: Instance)
    requires SysInv(w, st) && At(w, st.log, i) && Lands(w.def, i, ds, j) && Boundary(w.def, j)
    ensures Commit(w, st, Outside, |st.log|, ds, None).Some?
    ensures var t := Commit(w, st, Outside, |st.log|, ds, None).value; SysInv(w, t) && At(w, t.log, j)
  {
    CommitLands(w, st, Outside, i, ds, j, None);
    var t := Commit(w, st, Outside, |st.log|, ds, None).value;
    AuthorsExtend(st, t, |ds|, Outside);
    AllUndisturbed(w, st, t, ds, Outside);
  }

  lemma OperateIs(w: World, st: Sys, q: Request, now: Time, i: Instance)
    requires Valid(w.def) && At(w, st.log, i)
    ensures var answer := Control(i, q, now);
            && (!answer.Write? ==> DoOperate(w, st, q, now) == st)
            && (answer.Write? && Commit(w, st, Outside, |st.log|, [answer.draft], None).Some? ==>
                  DoOperate(w, st, q, now) == Commit(w, st, Outside, |st.log|, [answer.draft], None).value)
  {
    ReadIsProjection(w, st.log, false, i);
    assert Control(Raw(w, st.log).value, q, now) == Control(i, q, now);
  }

  lemma OperateKeeps(w: World, st: Sys, q: Request, now: Time) returns (i: Instance, j: Instance)
    requires Valid(w.def) && SysInv(w, st)
    ensures var t := DoOperate(w, st, q, now);
            && SysInv(w, t) && At(w, st.log, i) && At(w, t.log, j) && j.cost == i.cost && j.budgetLimit == i.budgetLimit
            && t.log == (if Control(i, q, now).Write? then st.log + [Control(i, q, now).draft] else st.log)
  {
    i := GoodProjects(w, st.log);
    OperateIs(w, st, q, now, i);
    j := i;
    if Control(i, q, now).Write? {
      j := ControlSound(w.def, i, q, now);
      OutsideKeeps(w, st, i, [Control(i, q, now).draft], j);
    }
  }

  /** The controller reads the store's projection; it decides as it would on the seeded one. */
  lemma SameDecision(d: Definition, raw: Instance, id: string, s: StepId, c: Decision, now: Time)
    requires RefsKnown(raw) && RefOn(raw, id, s)
    ensures RefOn(Seeded(d, raw), id, s) && Permitted(raw, s, c.Choice()) == Permitted(Seeded(d, raw), s, c.Choice())
    ensures DecisionDrafts(raw, id, s, c, now) == DecisionDrafts(Seeded(d, raw), id, s, c, now)
  {
    var i := Seeded(d, raw);
    assert OnKnownStep(raw, s) == OnKnownStep(i, s);
    SeedStep(d, raw, s);
    assert TransitionDrafts(raw, s, c.Choice(), now) == TransitionDrafts(i, s, c.Choice(), now);
  }

  lemma LookKeeps(w: World, st: Sys, id: string, s: StepId)
    requires SysInv(w, st)
    ensures SysInv(w, DoLook(w, st, id, s))
  {
    var t := DoLook(w, st, id, s);
    if t != st {
      RawOfCanon(w, st.log);
      assert RefOn(Canon(w, st.log).value, id, s);
      AuthorsSame(st, t);
      forall f | f in t.drives ensures DriveInv(w, t, f, t.drives[f]) {
        DriveSame(w, st, t, f, st.drives[f]);
      }
    }
  }

  /** What a decision is made from: the instance as it is, and a row seen earlier. */
  lemma DecideReads(w: World, st: Sys, id: string, s: StepId, c: Decision, now: Time)
    returns (i: Instance, raw: Instance)
    requires Valid(w.def) && SysInv(w, st) && (id, s) in st.looked
    ensures At(w, st.log, i) && Inv(w.def, i) && Boundary(w.def, i) && RefOn(i, id, s) && i.version == |st.log|
    ensures Raw(w, st.log) == Ok(raw) && raw.version == |st.log| && raw.status == i.status
    ensures Permitted(raw, s, c.Choice()) == Permitted(i, s, c.Choice())
    ensures DecisionDrafts(raw, id, s, c, now) == DecisionDrafts(i, id, s, c, now)
  {
    i := GoodProjects(w, st.log);
    ReadIsProjection(w, st.log, false, i);
    raw := Raw(w, st.log).value;
    RefsStayKnown(Blank(w), st.log);
    assert RefOn(raw, id, s);
    SameDecision(w.def, raw, id, s, c, now);
  }

  /** A decision the step table forbids changes nothing. */
  lemma ForbiddenDecision(w: World, st: Sys, id: string, s: StepId, c: Decision, now: Time, raw: Instance)
    requires Raw(w, st.log) == Ok(raw) && raw.status == WfWaiting && !Permitted(raw, s, c.Choice())
    ensures DoDecide(w, st, id, s, c, now) == st
  {
    DecisionAcceptedIff(raw, id, s, c, now);
    ReplayConcat(None, Blank(w), st.log, DecisionDrafts(raw, id, s, c, now));
  }

  lemma PermittedDecision(w: World, st: Sys, id: string, s: StepId, c: Decision, now: Time, i: Instance)
    returns (j: Instance)
    requires Valid(w.def) && SysInv(w, st) && At(w, st.log, i) && Inv(w.def, i) && Boundary(w.def, i)
    requires i.status == WfWaiting && RefOn(i, id, s) && Permitted(i, s, c.Choice())
    ensures Commit(w, st, Outside, |st.log|, DecisionDrafts(i, id, s, c, now), None).Some?
    ensures var t := Commit(w, st, Outside, |st.log|, DecisionDrafts(i, id, s, c, now), None).value;
            SysInv(w, t) && At(w, t.log, j)
    ensures j.cost == i.cost
    ensures j.budgetLimit == if c.Resolved? && c.newBudget.Some? then c.newBudget else i.budgetLimit
  {
    j := DecisionSound(w.def, i, id, s, c, now);
    OutsideKeeps(w, st, i, DecisionDrafts(i, id, s, c, now), j);
  }

  /** A decision from a row seen pending at any earlier time commits exactly when the instance is waiting
      and the step table permits its move; then the log grows by exactly its events. */
  lemma DecideKeeps(w: World, st: Sys, id: string, s: StepId, c: Decision, now: Time) returns (i: Instance, j: Instance)
    requires Valid(w.def) && SysInv(w, st)
    ensures var t := DoDecide(w, st, id, s, c, now);
            && SysInv(w, t) && At(w, st.log, i) && At(w, t.log, j) && j.cost == i.cost
            && j.budgetLimit == (if t.log != st.log && c.Resolved? && c.newBudget.Some? then c.newBudget
                                 else i.budgetLimit)
            && t.log == if (id, s) in st.looked && i.status == WfWaiting && Permitted(i, s, c.Choice())
                        then st.log + DecisionDrafts(i, id, s, c, now) else st.log
  {
    if (id, s) !in st.looked {
      i := GoodProjects(w, st.log);
      j := i;
    } else {
      var raw;
      i, raw := DecideReads(w, st, id, s, c, now);
      j := i;
      if i.status == WfWaiting && Permitted(i, s, c.Choice()) {
        j := PermittedDecision(w, st, id, s, c, now, i);
      } else if i.status == WfWaiting {
        ForbiddenDecision(w, st, id, s, c, now, raw);
      }
    }
  }

  lemma RequeueIs(w: World, st: Sys, s: Option<StepId>, now: Time, i: Instance)
    requires Valid(w.def) && At(w, st.log, i)
    ensures var c := Commit(w, st, Outside, |st.log|, [Draft(WorkflowRequeued(s), now)], None);
            var due := i.status == WfDeadLettered && (s.Some? ==> i.Step(s.value).status == Failed);
            && (!due ==> DoRequeue(w, st, s, now) == st)
            && (due && c.Some? ==> DoRequeue(w, st, s, now) == c.value)
  {
    ReadIsProjection(w, st.log, false, i);
    if s.Some? { SeedStep(w.def, Raw(w, st.log).value, s.value); }
  }

  /** A requeue of a failed step commits and keeps everything. */
  lemma RequeueKeeps(w: World, st: Sys, s: Option<StepId>, now: Time) returns (i: Instance, j: Instance)
    requires Valid(w.def) && SysInv(w, st)
    ensures var t := DoRequeue(w, st, s, now);
            && SysInv(w, t) && At(w, st.log, i) && At(w, t.log, j) && j.cost == i.cost && j.budgetLimit == i.budgetLimit
            && t.log == if i.status == WfDeadLettered && (s.Some? ==> i.Step(s.value).status == Failed)
                        then st.log + [Draft(WorkflowRequeued(s), now)] else st.log
  {
    i := GoodProjects(w, st.log);
    RequeueIs(w, st, s, now, i);
    j := i;
    if i.status == WfDeadLettered && (s.Some? ==> i.Step(s.value).status == Failed) {
      if s.Some? { InvHas(w.def, i, s.value); }
      j := RequeueSound(w.def, i, s, now);
      OutsideKeeps(w, st, i, [Draft(WorkflowRequeued(s), now)], j);
    }
  }

  // --- a drive moves -----------------------------------------------------------------------

  /** A legal, guarded append at the drive's version commits, and the local fold agrees with the log. */
  lemma AppendCommits(w: World, st: Sys, f: nat, ds: seq<Draft>, wakeup: Option<Time>, j: Instance)
    returns (t: Sys, p: Instance)
    requires SysInv(w, st) && f in st.drives && ds != []
    requires Lands(w.def, Seeded(w.def, st.drives[f].proj), ds, j) && Boundary(w.def, j)
    requires Guard(st, st.drives[f].lease) && st.drives[f].proj.version == |st.log|
    ensures DoAppend(w, st, f, ds, wakeup) == Some((t, p))
    ensures t == st.(log := st.log + ds, authors := st.authors + Repeat(ByDrive(f), |ds|), wakeup := wakeup)
    ensures LogInv(w, t) && At(w, t.log, j) && Seeded(w.def, p) == j && p.version == |t.log|
    ensures st.drives[f].proj.Covers(w.def) ==> p == j
  {
    var dr := st.drives[f];
    CurrentAt(w, st, f);
    CommitLands(w, st, ByDrive(f), Seeded(w.def, dr.proj), ds, j, wakeup);
    LocalFold(w.def, dr.proj, ds);
    ReplayVersion(Some(w.def), dr.proj, ds);
    SeedIdempotent(w.def, dr.proj);
    t := Commit(w, st, ByDrive(f), |st.log|, ds, wakeup).value;
    p := Replay(Some(w.def), dr.proj, ds).value;
  }

  /** Its guard passes only for the latest grant, so the writer owns the end of the log. */
  lemma AppendAuthors(w: World, st: Sys, f: nat, n: nat, t: Sys)
    requires SysInv(w, st) && f in st.drives && Guard(st, st.drives[f].lease) && st.drives[f].proj.version == |st.log|
    requires t.authors == st.authors + Repeat(ByDrive(f), n) && t.begun == st.begun && t.issued == st.issued
    ensures AuthorInv(t) && f == |st.issued|
  {
    assert DriveInv(w, st, f, st.drives[f]);
    AuthorsExtend(st, t, n, ByDrive(f));
  }

  /** After the append the writer's projection is that of the longer log. */
  lemma AppendedDrive(w: World, st: Sys, f: nat, ds: seq<Draft>, t: Sys, p: Instance, j: Instance)
    requires f in st.drives && DriveInv(w, st, f, st.drives[f]) && st.drives[f].proj.version == |st.log|
    requires t.log == st.log + ds && t.authors == st.authors + Repeat(ByDrive(f), |ds|) && t.issued == st.issued
             && t.begun == st.begun
    requires At(w, t.log, j) && Seeded(w.def, p) == j && p.version == |t.log| && Boundary(w.def, j)
    ensures DriveBase(w, t, f, st.drives[f].lease, p)
  {
    assert t.log[..p.version] == t.log;
  }

  lemma DriveProjects(w: World, st: Sys, f: nat)
    requires Valid(w.def) && SysInv(w, st) && f in st.drives
    ensures DriveInv(w, st, f, st.drives[f]) && Inv(w.def, Seeded(w.def, st.drives[f].proj))
  {
    var dr := st.drives[f];
    assert DriveInv(w, st, f, dr);
    var i := GoodProjects(w, st.log[..dr.proj.version]);
  }

  /** A drive's next move never goes wrong, except that the planner faults on a projection that lacks a
      defined step. */
  lemma MoveOf(w: World, st: Sys, f: nat, inp: Input) returns (j: Instance)
    requires Valid(w.def) && SysInv(w, st) && f in st.drives
    requires Fits(w.def, st.drives[f].proj, st.drives[f].phase, inp)
    ensures var dr := st.drives[f];
            var mv := NextMove(w.def, dr.proj, dr.phase, dr.lease.worker, inp);
            var i := Seeded(w.def, dr.proj);
            if mv.Fault? then !dr.proj.Covers(w.def) && dr.phase.Looping? && dr.proj.status == WfRunning
            else
              && Lands(w.def, i, mv.drafts, j) && Inv(w.def, j) && Boundary(w.def, j)
              && (mv.Append? ==> PhaseOk(w.def, j, mv.next) && (mv.next.Looping? || dr.proj.Covers(w.def)))
              && j.cost == i.cost + Bill(dr.phase, inp) && j.budgetLimit == i.budgetLimit
  {
    var dr := st.drives[f];
    DriveProjects(w, st, f);
    SameMove(w.def, dr.proj, dr.phase, dr.lease.worker, inp);
    j := MoveSound(w.def, Seeded(w.def, dr.proj), dr.phase, dr.lease.worker, inp);
    AllLegalKeepsInv(w.def, Seeded(w.def, dr.proj),
                     NextMove(w.def, Seeded(w.def, dr.proj), dr.phase, dr.lease.worker, inp).drafts);
  }

  /** Replacing one drive's private state leaves the rest of the invariant alone. */
  lemma ReplaceDrive(w: World, st: Sys, f: nat, dr: Drive, ledger: real)
    requires LogInv(w, st) && LeaseInv(st) && AuthorInv(st) && DriveInv(w, st, f, dr)
    requires OthersOk(w, st, f)
    ensures SysInv(w, st.(drives := st.drives[f := dr], ledger := ledger))
  {
    var t := st.(drives := st.drives[f := dr], ledger := ledger);
    AuthorsSame(st, t);
    forall g | g in t.drives ensures DriveInv(w, t, g, t.drives[g]) {
      DriveSame(w, st, t, g, t.drives[g]);
    }
  }

  ghost predicate SameShared(st: Sys, t: Sys) {
    t.log == st.log && t.authors == st.authors && t.begun == st.begun && t.issued == st.issued
  }

  lemma AuthorsSame(st: Sys, t: Sys)
    requires SameShared(st, t) && AuthorInv(st)
    ensures AuthorInv(t)
  {
    forall k | 0 <= k < |t.authors| ensures Own(t.authors, t.begun, k) {
      assert Own(st.authors, st.begun, k);
    }
  }

  lemma DriveSame(w: World, st: Sys, t: Sys, f: nat, dr: Drive)
    requires SameShared(st, t) && DriveInv(w, st, f, dr)
    ensures DriveInv(w, t, f, dr)
  {
  }

  lemma DropDrive(w: World, st: Sys, f: nat)
    requires LogInv(w, st) && LeaseInv(st) && AuthorInv(st)
    requires OthersOk(w, st, f)
    ensures SysInv(w, Quit(st, f))
  {
    var t := Quit(st, f);
    AuthorsSame(st, t);
    forall g | g in t.drives ensures DriveInv(w, t, g, t.drives[g]) {
      DriveSame(w, st, t, g, t.drives[g]);
    }
  }

  lemma OthersAfterAppend(w: World, st: Sys, f: nat, ds: seq<Draft>, t: Sys)
    requires DrivesInv(w, st) && t.log == st.log + ds && t.authors == st.authors + Repeat(ByDrive(f), |ds|)
    requires t.issued == st.issued && t.begun == st.begun && t.drives == st.drives
    ensures OthersOk(w, t, f)
  {
    forall g | g in t.drives && g != f ensures DriveInv(w, t, g, t.drives[g]) {
      OthersUndisturbed(w, st, t, ds, ByDrive(f), g, st.drives[g]);
    }
  }

  /** The system after a drive's successful append of `ds`, with `p` the drive's new projection. */
  ghost predicate Appended(w: World, st: Sys, f: nat, ds: seq<Draft>, j: Instance, t: Sys, p: Instance)
    requires f in st.drives
  {
    && LogInv(w, t) && LeaseInv(t) && AuthorInv(t)
    && t == st.(log := st.log + ds, authors := t.authors, wakeup := t.wakeup)
    && OthersOk(w, t, f)
    && DriveBase(w, t, f, st.drives[f].lease, p) && Seeded(w.def, p) == j
    && (ds != [] ==> At(w, t.log, j) && At(w, st.log, Seeded(w.def, st.drives[f].proj)))
    && (st.drives[f].proj.Covers(w.def) ==> p == j)
  }

  predicate Current(st: Sys, f: nat)
    requires f in st.drives
  {
    Guard(st, st.drives[f].lease) && st.drives[f].proj.version == |st.log|
  }

  lemma EmptyAppend(w: World, st: Sys, f: nat, j: Instance)
    requires SysInv(w, st) && f in st.drives && Lands(w.def, Seeded(w.def, st.drives[f].proj), [], j)
    ensures Appended(w, st, f, [], j, st, st.drives[f].proj)
  {
    assert DriveInv(w, st, f, st.drives[f]);
    SeedIdempotent(w.def, st.drives[f].proj);
    assert st.log + [] == st.log;
  }

  lemma RealAppend(w: World, st: Sys, f: nat, ds: seq<Draft>, wakeup: Option<Time>, j: Instance)
    requires SysInv(w, st) && f in st.drives && ds != [] && Current(st, f)
    requires Lands(w.def, Seeded(w.def, st.drives[f].proj), ds, j) && Boundary(w.def, j)
    ensures var r := DoAppend(w, st, f, ds, wakeup); r.Some? && Appended(w, st, f, ds, j, r.value.0, r.value.1)
  {
    var t, p := AppendCommits(w, st, f, ds, wakeup, j);
    CommittedIsAppended(w, st, f, ds, t, p, j);
  }

  lemma CommittedIsAppended(w: World, st: Sys, f: nat, ds: seq<Draft>, t: Sys, p: Instance, j: Instance)
    requires SysInv(w, st) && f in st.drives && Current(st, f)
    requires t == st.(log := st.log + ds, authors := st.authors + Repeat(ByDrive(f), |ds|), wakeup := t.wakeup)
    requires LogInv(w, t) && At(w, t.log, j) && Seeded(w.def, p) == j && p.version == |t.log| && Boundary(w.def, j)
    requires st.drives[f].proj.Covers(w.def) ==> p == j
    ensures Appended(w, st, f, ds, j, t, p)
  {
    AppendAuthors(w, st, f, |ds|, t);
    OthersAfterAppend(w, st, f, ds, t);
    AppendedDrive(w, st, f, ds, t, p, j);
    CurrentAt(w, st, f);
    LeaseSame(st, t);
  }

  lemma CurrentAt(w: World, st: Sys, f: nat)
    requires DrivesInv(w, st) && f in st.drives && st.drives[f].proj.version == |st.log|
    ensures At(w, st.log, Seeded(w.def, st.drives[f].proj))
  {
    assert DriveInv(w, st, f, st.drives[f]);
    assert st.log[..|st.log|] == st.log;
  }

  lemma LeaseSame(st: Sys, t: Sys)
    requires LeaseInv(st) && t.lease == st.lease && t.issued == st.issued
    ensures LeaseInv(t)
  {
  }

  /** A drive's append can fail only because the lease or the version is lost; the fold never rejects it. */
  lemma AppendOutcome(w: World, st: Sys, f: nat, ds: seq<Draft>, wakeup: Option<Time>, j: Instance)
    requires SysInv(w, st) && f in st.drives
    requires Lands(w.def, Seeded(w.def, st.drives[f].proj), ds, j) && Boundary(w.def, j)
    ensures DoAppend(w, st, f, ds, wakeup).None? <==> ds != [] && !Current(st, f)
    ensures var r := DoAppend(w, st, f, ds, wakeup); r.Some? ==> Appended(w, st, f, ds, j, r.value.0, r.value.1)
  {
    if ds == [] {
      EmptyAppend(w, st, f, j);
    } else if Current(st, f) {
      RealAppend(w, st, f, ds, wakeup, j);
    }
  }

  lemma AdvanceDrive(w: World, st: Sys, f: nat, ds: seq<Draft>, j: Instance, t: Sys, p: Instance, next: Phase, u: Sys)
    requires f in st.drives && Appended(w, st, f, ds, j, t, p)
    requires u == t.(drives := t.drives[f := Drive(st.drives[f].lease, p, next)], ledger := u.ledger)
    requires Inv(w.def, j) && PhaseOk(w.def, j, next) && (next.Looping? || st.drives[f].proj.Covers(w.def))
    ensures SysInv(w, u)
  {
    InvCovers(w.def, j);
    ReplaceDrive(w, t, f, Drive(st.drives[f].lease, p, next), u.ledger);
  }

  /** What is known of a move before it is performed. */
  ghost predicate MoveOk(w: World, st: Sys, f: nat, mv: Move, j: Instance)
    requires f in st.drives
  {
    !mv.Fault? ==>
      && Lands(w.def, Seeded(w.def, st.drives[f].proj), mv.drafts, j) && Inv(w.def, j) && Boundary(w.def, j)
      && (mv.Append? ==> PhaseOk(w.def, j, mv.next) && (mv.next.Looping? || st.drives[f].proj.Covers(w.def)))
  }

  lemma QuitKeeps(w: World, st: Sys, f: nat)
    requires SysInv(w, st)
    ensures SysInv(w, Quit(st, f))
  {
    DropDrive(w, st, f);
  }

  lemma FinishKeeps(w: World, st: Sys, f: nat, ds: seq<Draft>, j: Instance, t: Sys, p: Instance)
    requires f in st.drives && Appended(w, st, f, ds, j, t, p)
    ensures SysInv(w, Quit(t, f))
  {
    DropDrive(w, t, f);
  }

  lemma PerformAppend(w: World, st: Sys, f: nat, mv: Move, j: Instance)
    requires SysInv(w, st) && f in st.drives && MoveOk(w, st, f, mv, j) && mv.Append?
    ensures SysInv(w, Perform(w, st, f, mv))
  {
    AppendOutcome(w, st, f, mv.drafts, mv.wakeup, j);
    var r := DoAppend(w, st, f, mv.drafts, mv.wakeup);
    if r.None? {
      QuitKeeps(w, st, f);
    } else {
      AdvanceDrive(w, st, f, mv.drafts, j, r.value.0, r.value.1, mv.next, Perform(w, st, f, mv));
    }
  }

  lemma PerformFinish(w: World, st: Sys, f: nat, mv: Move, j: Instance)
    requires SysInv(w, st) && f in st.drives && MoveOk(w, st, f, mv, j) && mv.Finish?
    ensures SysInv(w, Perform(w, st, f, mv))
  {
    AppendOutcome(w, st, f, mv.drafts, mv.wakeup, j);
    var r := DoAppend(w, st, f, mv.drafts, mv.wakeup);
    if r.None? {
      QuitKeeps(w, st, f);
    } else {
      FinishKeeps(w, st, f, mv.drafts, j, r.value.0, r.value.1);
    }
  }

  lemma PerformKeeps(w: World, st: Sys, f: nat, mv: Move, j: Instance)
    requires SysInv(w, st) && f in st.drives && MoveOk(w, st, f, mv, j)
    ensures SysInv(w, Perform(w, st, f, mv))
  {
    match mv {
      case Fault => QuitKeeps(w, st, f);
      case Finish(_, _, _) => PerformFinish(w, st, f, mv, j);
      case Append(_, _, _) => PerformAppend(w, st, f, mv, j);
    }
  }

  lemma StepKeeps(w: World, st: Sys, f: nat, inp: Input)
    requires Valid(w.def) && SysInv(w, st)
    ensures SysInv(w, DoStep(w, st, f, inp))
  {
    if f in st.drives && Fits(w.def, st.drives[f].proj, st.drives[f].phase, inp) {
      var dr := st.drives[f];
      var j := MoveOf(w, st, f, inp);
      PerformKeeps(w, st, f, NextMove(w.def, dr.proj, dr.phase, dr.lease.worker, inp), j);
    }
  }

  // --- every action, every run -------------------------------------------------------------

  lemma ActionKeeps(w: World, st: Sys, a: Action)
    requires Valid(w.def) && SysInv(w, st)
    ensures SysInv(w, Apply(w, st, a))
  {
    match a {
      case Acquire(worker, now) => AcquireKeeps(w, st, worker, now);
      case Heartbeat(worker, now) => HeartbeatKeeps(w, st, worker, now);
      case Release(worker) => ReleaseKeeps(w, st, worker);
      case Begin(f, seeded) => BeginKeeps(w, st, f, seeded);
      case Step(f, inp) => StepKeeps(w, st, f, inp);
      case Crash(f) => CrashKeeps(w, st, f);
      case Operate(q, now) => var i, j := OperateKeeps(w, st, q, now);
      case Look(id, s) => LookKeeps(w, st, id, s);
      case Decide(id, s, c, now) => var i, j := DecideKeeps(w, st, id, s, c, now);
      case Requeue(s, now) => var i, j := RequeueKeeps(w, st, s, now);
    }
  }

  /** The invariant holds after every sequence of actions. */
  lemma {:induction false} RunKeeps(w: World, st: Sys, acts: seq<Action>)
    requires Valid(w.def) && SysInv(w, st)
    ensures SysInv(w, Run(w, st, acts))
    decreases |acts|
  {
    if acts != [] {
      ActionKeeps(w, st, acts[0]);
      RunKeeps(w, Apply(w, st, acts[0]), acts[1..]);
    }
  }
}
