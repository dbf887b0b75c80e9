/** Spend along every run: the tenant ledger against the instance's cost, and the cost against its limit. */
module Money {
  import opened Domain
  import opened Events
  import opened Fold
  import opened FoldLaws
  import opened Planner
  import opened Driver
  import opened Legality
  import opened Batches
  import opened Phases
  import opened Seeding
  import opened Operators
  import opened Leasing
  import opened Protocol
  import opened Logs
  import opened Safety
  import opened Theorems

  function CostOf(w: World, st: Sys): real {
    var i := Canon(w, st.log); if i.Ok? then i.value.cost else 0.0
  }

  function LimitOf(w: World, st: Sys): Option<real> {
    var i := Canon(w, st.log); if i.Ok? then i.value.budgetLimit else None
  }

  // --- cost moved by one action ------------------------------------------------------------

  /** The append a step would make, when it makes one. */
  function Moves(w: World, st: Sys, f: nat, inp: Input): Option<Move> {
    if f !in st.drives || !Fits(w.def, st.drives[f].proj, st.drives[f].phase, inp) then None
    else Some(NextMove(w.def, st.drives[f].proj, st.drives[f].phase, st.drives[f].lease.worker, inp))
  }

  predicate Succeeds(w: World, st: Sys, f: nat, mv: Move)
    requires f in st.drives
  {
    !mv.Fault? && DoAppend(w, st, f, mv.drafts, mv.wakeup).Some?
  }

  lemma EmptyOutcome(runs: seq<StepRun>, at: Time)
    ensures OutcomeDrafts(runs, at) == [] <==> runs == []
  {
    if runs != [] { assert |OutcomeOne(runs[0], at)| >= 1; }
  }

  lemma SilentIsFree(d: Definition, i: Instance, ph: Phase, worker: string, inp: Input)
    requires Fits(d, i, ph, inp)
    ensures var mv := NextMove(d, i, ph, worker, inp);
            && (!mv.Append? ==> ph.Looping?)
            && (!mv.Fault? && mv.drafts == [] ==> Bill(ph, inp) == 0.0)
  {
    if ph.Executing? {
      EmptyOutcome(Runs(ph.dispatch, inp.outcomes), inp.now);
    }
  }

  lemma PerformLog(w: World, st: Sys, f: nat, mv: Move)
    requires f in st.drives
    ensures Perform(w, st, f, mv).log == if Succeeds(w, st, f, mv) then st.log + mv.drafts else st.log
  {
    if Succeeds(w, st, f, mv) && mv.drafts == [] { assert st.log + mv.drafts == st.log; }
  }

  /** Only a committed outcome batch moves the cost, by exactly what its attempts charged; no step of a
      drive moves the limit. */
  lemma StepCost(w: World, st: Sys, f: nat, inp: Input)
    requires Valid(w.def) && SysInv(w, st) && Moves(w, st, f, inp).Some?
    ensures var mv := Moves(w, st, f, inp).value;
            && CostOf(w, DoStep(w, st, f, inp))
               == CostOf(w, st) + (if Succeeds(w, st, f, mv) then Bill(st.drives[f].phase, inp) else 0.0)
            && LimitOf(w, DoStep(w, st, f, inp)) == LimitOf(w, st)
            && (Succeeds(w, st, f, mv) && mv.drafts != [] ==> At(w, st.log, Seeded(w.def, st.drives[f].proj)))
  {
    var mv := Moves(w, st, f, inp).value;
    var dr := st.drives[f];
    SilentIsFree(w.def, dr.proj, dr.phase, dr.lease.worker, inp);
    PerformLog(w, st, f, mv);
    var j := MoveOf(w, st, f, inp);
    if Succeeds(w, st, f, mv) && mv.drafts != [] {
      AppendOutcome(w, st, f, mv.drafts, mv.wakeup, j);
      AppendedCosts(w, st, f, mv.drafts, j, DoAppend(w, st, f, mv.drafts, mv.wakeup).value.0,
                    DoAppend(w, st, f, mv.drafts, mv.wakeup).value.1);
    } else if Succeeds(w, st, f, mv) {
      assert st.log + mv.drafts == st.log;
    }
  }

  lemma AppendedCosts(w: World, st: Sys, f: nat, ds: seq<Draft>, j: Instance, t: Sys, p: Instance)
    requires f in st.drives && Appended(w, st, f, ds, j, t, p) && ds != []
    ensures t.log == st.log + ds && Canon(w, st.log + ds) == Ok(j)
            && Canon(w, st.log) == Ok(Seeded(w.def, st.drives[f].proj))
    ensures At(w, st.log, Seeded(w.def, st.drives[f].proj))
  {
  }

  // --- what the drives in flight still owe the ledger ----------------------------------------

  function OwedBy(drives: map<nat, Drive>, f: nat): real {
    if f in drives then Owes(drives[f].phase) else 0.0
  }

  function Owed(drives: map<nat, Drive>, n: nat): real {
    if n == 0 then 0.0 else Owed(drives, n - 1) + OwedBy(drives, n)
  }

  lemma {:induction false} OwedChanges(a: map<nat, Drive>, b: map<nat, Drive>, n: nat, f: nat)
    requires forall g :: g != f ==> OwedBy(a, g) == OwedBy(b, g)
    ensures Owed(b, n) == Owed(a, n) + if 1 <= f <= n then OwedBy(b, f) - OwedBy(a, f) else 0.0
  {
    if n > 0 { OwedChanges(a, b, n - 1, f); }
  }

  lemma {:induction false} OwedPositive(drives: map<nat, Drive>, n: nat)
    ensures Owed(drives, n) >= 0.0
  {
    if n > 0 { OwedPositive(drives, n - 1); }
  }

  lemma {:induction false} OwedSettled(drives: map<nat, Drive>, n: nat)
    requires forall f :: f in drives ==> !drives[f].phase.Billing?
    ensures Owed(drives, n) == 0.0
  {
    if n > 0 { OwedSettled(drives, n - 1); }
  }

  // --- the books ------------------------------------------------------------------------------

  /** No attempt reports a negative charge. */
  predicate NonNegative(a: Action) {
    a.Step? ==> forall o :: o in a.input.outcomes ==> forall c :: c in o.charges ==> c.amount >= 0.0
  }

  lemma {:induction false} SumPositive(cs: seq<Charge>)
    requires forall c :: c in cs ==> c.amount >= 0.0
    ensures SumCharges(cs) >= 0.0
    decreases |cs|
  {
    if cs != [] { SumPositive(cs[1..]); }
  }

  lemma {:induction false} SpentPositive(runs: seq<StepRun>)
    requires forall k :: 0 <= k < |runs| ==> SumCharges(runs[k].outcome.charges) >= 0.0
    ensures Spent(runs) >= 0.0
    decreases |runs|
  {
    if runs != [] { SpentPositive(runs[1..]); }
  }

  lemma BillPositive(ph: Phase, inp: Input)
    requires NonNegative(Step(0, inp))
    ensures Bill(ph, inp) >= 0.0
  {
    if ph.Executing? && |inp.outcomes| == |ph.dispatch| {
      var runs := Runs(ph.dispatch, inp.outcomes);
      forall k | 0 <= k < |runs| ensures SumCharges(runs[k].outcome.charges) >= 0.0 {
        assert inp.outcomes[k] in inp.outcomes;
        SumPositive(runs[k].outcome.charges);
      }
      SpentPositive(runs);
    }
  }

  /** With a budget service every charged unit is recorded, forgotten in a crash, or about to be recorded;
      without one nothing is recorded. */
  ghost predicate Books(w: World, st: Sys) {
    && CostOf(w, st) >= 0.0 && st.lost >= 0.0
    && if w.metered then CostOf(w, st) == st.ledger + st.lost + Owed(st.drives, |st.issued|) else st.ledger == 0.0
  }

  /** The books' view of one performed move. */
  lemma PerformBooks(w: World, st: Sys, f: nat, mv: Move)
    requires f in st.drives
    ensures var t := Perform(w, st, f, mv);
            && t.lost == st.lost && t.issued == st.issued
            && (forall g :: g != f ==> OwedBy(t.drives, g) == OwedBy(st.drives, g))
            && (mv.Append? && Succeeds(w, st, f, mv) ==>
                  && OwedBy(t.drives, f) == Owes(mv.next)
                  && t.ledger == st.ledger + if w.metered then Owes(st.drives[f].phase) else 0.0)
            && (!(mv.Append? && Succeeds(w, st, f, mv)) ==> OwedBy(t.drives, f) == 0.0 && t.ledger == st.ledger)
  {
  }

  /** What a move owes afterwards is what it billed. */
  lemma MoveOwes(d: Definition, i: Instance, ph: Phase, worker: string, inp: Input)
    requires Fits(d, i, ph, inp) && Bill(ph, inp) >= 0.0
    ensures var mv := NextMove(d, i, ph, worker, inp);
            && (ph.Billing? ==> mv == Append([], None, Scheduling(ph.runs)))
            && (mv.Append? ==> Owes(mv.next) == Bill(ph, inp))
            && (!ph.Billing? ==> Owes(ph) == 0.0)
  {
  }

  lemma Fenced(w: World, st: Sys, f: nat)
    requires DrivesInv(w, st)
    ensures f in st.drives ==> f in st.begun && 1 <= f <= |st.issued|
  {
  }

  lemma StepBooks(w: World, st: Sys, f: nat, inp: Input)
    requires Valid(w.def) && SysInv(w, st) && Books(w, st) && NonNegative(Step(f, inp))
    ensures Books(w, DoStep(w, st, f, inp))
  {
    if Moves(w, st, f, inp).Some? {
      var dr := st.drives[f];
      var mv := Moves(w, st, f, inp).value;
      BillPositive(dr.phase, inp);
      StepCost(w, st, f, inp);
      PerformBooks(w, st, f, mv);
      MoveOwes(w.def, dr.proj, dr.phase, dr.lease.worker, inp);
      SilentIsFree(w.def, dr.proj, dr.phase, dr.lease.worker, inp);
      Fenced(w, st, f);
      OwedChanges(st.drives, Perform(w, st, f, mv).drives, |st.issued|, f);
    }
  }

  lemma RowBooks(w: World, st: Sys, a: Action)
    requires Books(w, st) && (a.Heartbeat? || a.Release? || a.Look?)
    ensures Books(w, Apply(w, st, a))
  {
  }

  lemma AcquireBooks(w: World, st: Sys, worker: string, now: Time)
    requires SysInv(w, st) && Books(w, st)
    ensures Books(w, DoAcquire(w, st, worker, now))
  {
    var t := DoAcquire(w, st, worker, now);
    var n := |st.issued|;
    Fenced(w, st, n + 1);
    assert Owed(st.drives, n + 1) == Owed(st.drives, n) + OwedBy(st.drives, n + 1);
  }

  lemma BeginBooks(w: World, st: Sys, f: nat, seeded: bool)
    requires SysInv(w, st) && Books(w, st)
    ensures Books(w, DoBegin(w, st, f, seeded))
  {
    var t := DoBegin(w, st, f, seeded);
    if t != st {
      Fenced(w, st, f);
      BegunOwesNothing(st.drives, t.drives, |st.issued|, f);
    }
  }

  lemma BegunOwesNothing(a: map<nat, Drive>, b: map<nat, Drive>, n: nat, f: nat)
    requires f !in a && f in b && b == a[f := b[f]] && b[f].phase.Recovering?
    ensures Owed(b, n) == Owed(a, n)
  {
    if 1 <= f <= n { OwedChanges(a, b, n, f); }
  }

  lemma CrashBooks(w: World, st: Sys, f: nat)
    requires SysInv(w, st) && Books(w, st)
    ensures Books(w, DoCrash(st, f))
  {
    if f in st.drives {
      Fenced(w, st, f);
      OwedChanges(st.drives, DoCrash(st, f).drives, |st.issued|, f);
    }
  }

  ghost predicate SameBooks(st: Sys, t: Sys) {
    t.drives == st.drives && t.issued == st.issued && t.ledger == st.ledger && t.lost == st.lost
  }

  lemma OutsideFrame(w: World, st: Sys, a: Action)
    requires a.Operate? || a.Decide? || a.Requeue?
    ensures SameBooks(st, Apply(w, st, a))
  {
  }

  /** The unguarded writers move no money, and only a decision moves the limit. */
  lemma OutsideCost(w: World, st: Sys, a: Action)
    requires Valid(w.def) && SysInv(w, st) && (a.Operate? || a.Decide? || a.Requeue?)
    ensures CostOf(w, Apply(w, st, a)) == CostOf(w, st)
    ensures LimitOf(w, Apply(w, st, a)) == LimitOf(w, st)
            || (a.Decide? && a.decision.Resolved? && a.decision.newBudget.Some?
                && LimitOf(w, Apply(w, st, a)) == a.decision.newBudget)
  {
    match a {
      case Operate(q, now) => var i, j := OperateKeeps(w, st, q, now);
      case Decide(id, s, c, now) => var i, j := DecideKeeps(w, st, id, s, c, now);
      case Requeue(s, now) => var i, j := RequeueKeeps(w, st, s, now);
    }
  }

  lemma OutsideBooks(w: World, st: Sys, t: Sys)
    requires Books(w, st) && SameBooks(st, t) && CostOf(w, t) == CostOf(w, st)
    ensures Books(w, t)
  {
  }

  lemma QuietBooks(w: World, st: Sys, a: Action)
    requires Valid(w.def) && SysInv(w, st) && Books(w, st) && (a.Operate? || a.Decide? || a.Requeue?)
    ensures Books(w, Apply(w, st, a))
  {
    OutsideCost(w, st, a);
    OutsideFrame(w, st, a);
    OutsideBooks(w, st, Apply(w, st, a));
  }

  lemma ActionBooks(w: World, st: Sys, a: Action)
    requires Valid(w.def) && SysInv(w, st) && Books(w, st) && NonNegative(a)
    ensures Books(w, Apply(w, st, a))
  {
    match a {
      case Acquire(worker, now) => AcquireBooks(w, st, worker, now);
      case Heartbeat(_, _) => RowBooks(w, st, a);
      case Release(_) => RowBooks(w, st, a);
      case Begin(f, seeded) => BeginBooks(w, st, f, seeded);
      case Step(f, inp) => StepBooks(w, st, f, inp);
      case Crash(f) => CrashBooks(w, st, f);
      case Operate(_, _) => QuietBooks(w, st, a);
      case Look(_, _) => RowBooks(w, st, a);
      case Decide(_, _, _, _) => QuietBooks(w, st, a);
      case Requeue(_, _) => QuietBooks(w, st, a);
    }
  }

  lemma {:induction false} RunBooks(w: World, st: Sys, acts: seq<Action>)
    requires Valid(w.def) && SysInv(w, st) && Books(w, st) && forall a :: a in acts ==> NonNegative(a)
    ensures Books(w, Run(w, st, acts))
    decreases |acts|
  {
    if acts != [] {
      ActionBooks(w, st, acts[0]);
      ActionKeeps(w, st, acts[0]);
      RunBooks(w, Apply(w, st, acts[0]), acts[1..]);
    }
  }

  lemma {:induction false} NothingLost(w: World, st: Sys, acts: seq<Action>)
    requires forall a :: a in acts ==> !a.Crash?
    ensures Run(w, st, acts).lost == st.lost
    decreases |acts|
  {
    if acts != [] {
      assert Apply(w, st, acts[0]).lost == st.lost;
      NothingLost(w, Apply(w, st, acts[0]), acts[1..]);
    }
  }

  lemma CostIsCharges(w: World, st: Sys)
    requires Canon(w, st.log).Ok?
    ensures CostOf(w, st) == TotalCharged(st.log)
  {
    CostIsSumOfCharges(Some(w.def), Blank(w), st.log);
  }

  /** With non-negative charges what the ledger records for an instance never exceeds what its log charges;
      with a budget service and without crashes it equals it whenever no drive stands between charging and
      recording. */
  lemma LedgerNeverExceedsCharges(w: World, created: Draft, acts: seq<Action>, st: Sys)
    requires Reachable(w, created, acts, st) && forall a :: a in acts ==> NonNegative(a)
    ensures st.ledger <= TotalCharged(st.log) == CostOf(w, st)
    ensures w.metered && (forall a :: a in acts ==> !a.Crash?)
            && (forall f :: f in st.drives ==> !st.drives[f].phase.Billing?) ==>
              st.ledger == TotalCharged(st.log)
  {
    ReachableInv(w, created, acts, st);
    InitialInv(w, created);
    InitialBooks(w, created);
    RunBooks(w, Initial(created), acts);
    OwedPositive(st.drives, |st.issued|);
    CostIsCharges(w, st);
    if && w.metered && (forall a :: a in acts ==> !a.Crash?)
       && forall f :: f in st.drives ==> !st.drives[f].phase.Billing? {
      NothingLost(w, Initial(created), acts);
      OwedSettled(st.drives, |st.issued|);
    }
  }

  lemma InitialBooks(w: World, created: Draft)
    requires Valid(w.def) && created.body.InstanceCreated?
    ensures Books(w, Initial(created)) && LimitOf(w, Initial(created)) == created.body.budget
            && CostOf(w, Initial(created)) == 0.0
  {
    CanonFromGenesis(w, [created]);
    GenesisShape(w, created);
  }

  /** One instance of a tenant and how it got where it is. */
  datatype Served = Served(w: World, created: Draft, acts: seq<Action>, st: Sys)

  ghost predicate Honest(x: Served) {
    Reachable(x.w, x.created, x.acts, x.st) && forall a :: a in x.acts ==> NonNegative(a)
  }

  function TenantLedger(xs: seq<Served>): real {
    if xs == [] then 0.0 else xs[0].st.ledger + TenantLedger(xs[1..])
  }

  function TenantCharges(xs: seq<Served>): real {
    if xs == [] then 0.0 else TotalCharged(xs[0].st.log) + TenantCharges(xs[1..])
  }

  /** Over all of a tenant's instances the ledger never runs ahead of the logs. */
  lemma {:induction false} TenantLedgerNeverExceeds(xs: seq<Served>)
    requires forall k :: 0 <= k < |xs| ==> Honest(xs[k])
    ensures TenantLedger(xs) <= TenantCharges(xs)
    decreases |xs|
  {
    if xs != [] {
      var x := xs[0];
      assert Honest(x);
      LedgerNeverExceedsCharges(x.w, x.created, x.acts, x.st);
      TenantLedgerNeverExceeds(xs[1..]);
    }
  }

  // --- the spend bound ---------------------------------------------------------------------------

  predicate Capped(inp: Input, cap: real) {
    forall o :: o in inp.outcomes ==> SumCharges(o.charges) <= cap
  }

  /** No attempt charges more than `cap`, and no decision lowers the limit. */
  predicate Thrifty(w: World, st: Sys, a: Action, cap: real) {
    && (a.Step? ==> Capped(a.input, cap))
    && (a.Decide? && a.decision.Resolved? && a.decision.newBudget.Some? ==>
          LimitOf(w, st).Some? ==> LimitOf(w, st).value <= a.decision.newBudget.value)
  }

  predicate AllThrifty(w: World, st: Sys, acts: seq<Action>, cap: real)
    decreases |acts|
  {
    acts == [] || (Thrifty(w, st, acts[0], cap) && AllThrifty(w, Apply(w, st, acts[0]), acts[1..], cap))
  }

  /** The cost exceeds the limit by less than `room`. */
  ghost predicate Bounded(w: World, st: Sys, room: real) {
    LimitOf(w, st).Some? && CostOf(w, st) < LimitOf(w, st).value + room
  }

  /** What one full wave may charge. */
  function Wave(w: World, cap: real): real {
    Times(w.def.maxConcurrent, cap)
  }

  function Times(n: nat, x: real): real {
    if n == 0 then 0.0 else x + Times(n - 1, x)
  }

  lemma {:induction false} TimesIs(n: nat, x: real)
    ensures Times(n, x) == n as real * x
  {
    if n > 0 {
      TimesIs(n - 1, x);
      assert n as real * x == (n - 1) as real * x + x;
    }
  }

  lemma {:induction false} SpentBounded(runs: seq<StepRun>, cap: real)
    requires forall k :: 0 <= k < |runs| ==> SumCharges(runs[k].outcome.charges) <= cap
    ensures Spent(runs) <= Times(|runs|, cap)
    decreases |runs|
  {
    if runs != [] { SpentBounded(runs[1..], cap); }
  }

  lemma {:induction false} TimesRises(a: nat, b: nat, cap: real)
    requires a <= b && cap >= 0.0
    ensures Times(a, cap) <= Times(b, cap)
    decreases b
  {
    if a < b { TimesRises(a, b - 1, cap); }
  }

  lemma BillBounded(w: World, ph: Phase, inp: Input, cap: real)
    requires (ph.Executing? ==> |ph.dispatch| <= w.def.maxConcurrent) && cap >= 0.0 && Capped(inp, cap)
    ensures Bill(ph, inp) <= Wave(w, cap)
  {
    TimesRises(0, w.def.maxConcurrent, cap);
    if ph.Executing? && |inp.outcomes| == |ph.dispatch| {
      var runs := Runs(ph.dispatch, inp.outcomes);
      forall k | 0 <= k < |runs| ensures SumCharges(runs[k].outcome.charges) <= cap {
        assert inp.outcomes[k] in inp.outcomes;
      }
      SpentBounded(runs, cap);
      TimesRises(|runs|, w.def.maxConcurrent, cap);
    }
  }

  lemma Room(w: World, st: Sys, i: Instance)
    requires Canon(w, st.log) == Ok(i) && LimitOf(w, st).Some?
    ensures i.BudgetOut() || CostOf(w, st) < LimitOf(w, st).value
  {
  }

  lemma DrivePhase(w: World, st: Sys, f: nat)
    requires DrivesInv(w, st) && f in st.drives
    ensures PhaseOk(w.def, Seeded(w.def, st.drives[f].proj), st.drives[f].phase)
  {
    assert DriveInv(w, st, f, st.drives[f]);
  }

  /** A step of a drive raises the cost only from below the limit, and then by its bill. */
  lemma StepSpend(w: World, st: Sys, f: nat, inp: Input)
    requires Valid(w.def) && SysInv(w, st) && LimitOf(w, st).Some? && f in st.drives
    ensures LimitOf(w, DoStep(w, st, f, inp)) == LimitOf(w, st)
    ensures || CostOf(w, DoStep(w, st, f, inp)) == CostOf(w, st)
            || (CostOf(w, DoStep(w, st, f, inp)) == CostOf(w, st) + Bill(st.drives[f].phase, inp)
                && CostOf(w, st) < LimitOf(w, st).value)
  {
    if Moves(w, st, f, inp).Some? {
      var dr := st.drives[f];
      StepCost(w, st, f, inp);
      SilentIsFree(w.def, dr.proj, dr.phase, dr.lease.worker, inp);
      if dr.phase.Executing? && At(w, st.log, Seeded(w.def, dr.proj)) {
        DrivePhase(w, st, f);
        Room(w, st, Seeded(w.def, dr.proj));
      }
    }
  }

  lemma StepBill(w: World, st: Sys, f: nat, inp: Input, cap: real)
    requires DrivesInv(w, st) && f in st.drives && cap >= 0.0 && Capped(inp, cap)
    ensures Bill(st.drives[f].phase, inp) <= Wave(w, cap)
  {
    DrivePhase(w, st, f);
    BillBounded(w, st.drives[f].phase, inp, cap);
  }

  lemma StepBound(w: World, st: Sys, f: nat, inp: Input, room: real)
    requires Valid(w.def) && SysInv(w, st) && Bounded(w, st, room)
    requires f in st.drives ==> Bill(st.drives[f].phase, inp) <= room
    ensures Bounded(w, DoStep(w, st, f, inp), room)
  {
    if f in st.drives { StepSpend(w, st, f, inp); }
  }

  lemma OutsideBound(w: World, st: Sys, a: Action, cap: real, room: real)
    requires Valid(w.def) && SysInv(w, st) && Bounded(w, st, room) && Thrifty(w, st, a, cap)
    requires a.Operate? || a.Decide? || a.Requeue?
    ensures Bounded(w, Apply(w, st, a), room)
  {
    OutsideCost(w, st, a);
  }

  lemma LogStays(w: World, st: Sys, a: Action)
    requires !a.Step? && !a.Operate? && !a.Decide? && !a.Requeue?
    ensures Apply(w, st, a).log == st.log
  {
  }

  lemma CappedBound(w: World, st: Sys, f: nat, inp: Input, cap: real, room: real)
    requires Valid(w.def) && SysInv(w, st) && Bounded(w, st, room) && cap >= 0.0 && Capped(inp, cap)
             && room == Wave(w, cap)
    ensures Bounded(w, DoStep(w, st, f, inp), room)
  {
    if f in st.drives { StepBill(w, st, f, inp, cap); }
    StepBound(w, st, f, inp, room);
  }

  lemma ActionBound(w: World, st: Sys, a: Action, cap: real, room: real)
    requires Valid(w.def) && SysInv(w, st) && Bounded(w, st, room) && cap >= 0.0 && Thrifty(w, st, a, cap)
             && room == Wave(w, cap)
    ensures Bounded(w, Apply(w, st, a), room)
  {
    match a {
      case Step(f, inp) => CappedBound(w, st, f, inp, cap, room);
      case Operate(_, _) => OutsideBound(w, st, a, cap, room);
      case Decide(_, _, _, _) => OutsideBound(w, st, a, cap, room);
      case Requeue(_, _) => OutsideBound(w, st, a, cap, room);
      case _ => LogStays(w, st, a);
    }
  }

  lemma {:induction false} RunBound(w: World, st: Sys, acts: seq<Action>, cap: real)
    requires Valid(w.def) && SysInv(w, st) && Bounded(w, st, Wave(w, cap)) && cap >= 0.0 && AllThrifty(w, st, acts, cap)
    ensures Bounded(w, Run(w, st, acts), Wave(w, cap))
    decreases |acts|
  {
    if acts != [] {
      ActionBound(w, st, acts[0], cap, Wave(w, cap));
      ActionKeeps(w, st, acts[0]);
      RunBound(w, Apply(w, st, acts[0]), acts[1..], cap);
    }
  }

  /** With a positive limit that is never lowered and attempts that charge at most `cap`, the cost stays
      below the limit plus one wave. */
  lemma SpendIsBounded(w: World, created: Draft, acts: seq<Action>, st: Sys, cap: real)
    requires Reachable(w, created, acts, st) && created.body.budget.Some? && created.body.budget.value > 0.0
             && cap >= 0.0
    requires AllThrifty(w, Initial(created), acts, cap)
    ensures LimitOf(w, st).Some? && CostOf(w, st) < LimitOf(w, st).value + w.def.maxConcurrent as real * cap
  {
    InitialInv(w, created);
    InitialBooks(w, created);
    TimesRises(0, w.def.maxConcurrent, cap);
    RunBound(w, Initial(created), acts, cap);
    TimesIs(w.def.maxConcurrent, cap);
  }
}
