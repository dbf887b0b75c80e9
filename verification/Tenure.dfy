/** How long a lease is good for: exactly when it is granted, and that nobody takes it from its holder
    before it expires. */
module Tenure {
  import opened Domain
  import opened Events
  import opened Fold
  import opened Planner
  import Driver
  import opened Leasing
  import opened Protocol
  import opened Logs
  import opened Safety
  import opened Theorems

  /** The grant, spelled out. */
  ghost predicate GrantedTo(w: World, st: Sys, worker: string, now: Time, t: Sys) {
    t == st.(lease := Some(LeaseRow(worker, |st.issued| + 1, now, now + w.ttl)),
             issued := st.issued + [Lease(worker, |st.issued| + 1)])
  }

  lemma GrantIs(st: Sys, worker: string, now: Time, ttl: Time)
    requires LeaseInv(st)
    ensures Grant(st.lease, worker, now, ttl) == LeaseRow(worker, |st.issued| + 1, now, now + ttl)
  {
  }

  /** A worker is granted the instance exactly when it is pending, running or parked, its wakeup has come, and
      the last lease, if any, has expired; otherwise nothing changes. */
  lemma AcquireExactly(w: World, created: Draft, acts: seq<Action>, st: Sys, worker: string, now: Time)
    returns (i: Instance)
    requires Reachable(w, created, acts, st)
    ensures Canon(w, st.log) == Ok(i)
    ensures var t := Apply(w, st, Acquire(worker, now));
            if && (i.status == WfPending || i.status == WfRunning || i.status == WfRetrying)
               && (st.wakeup.Some? ==> st.wakeup.value <= now) && (st.lease.Some? ==> st.lease.value.expiresAt < now)
            then GrantedTo(w, st, worker, now, t)
            else t == st
  {
    ReachableInv(w, created, acts, st);
    i := GoodProjects(w, st.log);
    ReadIsProjection(w, st.log, false, i);
    GrantIs(st, worker, now, w.ttl);
  }

  /** Until then: no acquire after the time, no release by the holder, and the holder's heartbeats do not
      shorten the lease. */
  predicate Respects(w: World, until: Time, holder: string, a: Action) {
    match a
    case Acquire(_, now) => now <= until
    case Heartbeat(worker, now) => worker == holder ==> now + w.ttl >= until
    case Release(worker) => worker != holder
    case _ => true
  }

  ghost predicate Holds(st: Sys, until: Time, holder: string, fence: nat, issued: seq<Lease>) {
    && st.lease.Some? && st.lease.value.worker == holder && st.lease.value.fence == fence
    && st.lease.value.expiresAt >= until && st.issued == issued
  }

  lemma StepLeavesLease(w: World, st: Sys, f: nat, inp: Driver.Input)
    ensures DoStep(w, st, f, inp).lease == st.lease && DoStep(w, st, f, inp).issued == st.issued
  {
  }

  lemma ActionHolds(w: World, st: Sys, a: Action, until: Time, holder: string, fence: nat, issued: seq<Lease>)
    requires Holds(st, until, holder, fence, issued) && Respects(w, until, holder, a)
    ensures Holds(Apply(w, st, a), until, holder, fence, issued)
  {
    if a.Step? { StepLeavesLease(w, st, a.fence, a.input); }
  }

  lemma {:induction false} RunHolds(w: World, st: Sys, acts: seq<Action>, until: Time, holder: string, fence: nat,
                                    issued: seq<Lease>)
    requires Holds(st, until, holder, fence, issued) && forall a :: a in acts ==> Respects(w, until, holder, a)
    ensures Holds(Run(w, st, acts), until, holder, fence, issued)
    decreases |acts|
  {
    if acts != [] {
      assert acts[0] in acts && forall a :: a in acts[1..] ==> a in acts;
      ActionHolds(w, st, acts[0], until, holder, fence, issued);
      RunHolds(w, Apply(w, st, acts[0]), acts[1..], until, holder, fence, issued);
    }
  }

  /** Until a lease expires nobody else is granted the instance, and every lease that passes the guard still
      does, whatever drives, operators and controllers do. */
  lemma HeldUntilExpiry(w: World, st: Sys, acts: seq<Action>, l: Lease)
    requires st.lease.Some?
    requires forall a :: a in acts ==> Respects(w, st.lease.value.expiresAt, st.lease.value.worker, a)
    ensures Run(w, st, acts).issued == st.issued && (Guard(Run(w, st, acts), l) <==> Guard(st, l))
  {
    var row := st.lease.value;
    RunHolds(w, st, acts, row.expiresAt, row.worker, row.fence, st.issued);
  }

  /** A heartbeat at `now` keeps the lease until `now + ttl`; a release ends it before the last heartbeat. Both
      leave everyone else's lease alone. */
  lemma HeartbeatAndRelease(w: World, st: Sys, worker: string, now: Time)
    requires st.lease.Some?
    ensures var row, h, r := st.lease.value, Apply(w, st, Heartbeat(worker, now)), Apply(w, st, Release(worker));
            if row.worker != worker then h == st && r == st
            else && h == st.(lease := Some(LeaseRow(worker, row.fence, now, now + w.ttl)))
                 && r == st.(lease := Some(LeaseRow(worker, row.fence, row.heartbeatAt, row.heartbeatAt - 1.0)))
  {
  }
}
