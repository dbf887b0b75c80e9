/** Lease rows and the lease store (src/agentforge/core/leasing.py). */
module Leasing {
  import opened Domain

  datatype LeaseRow = LeaseRow(worker: string, fence: nat, heartbeatAt: Time, expiresAt: Time)

  datatype Lease = Lease(worker: string, fence: nat)

  // --- one row -----------------------------------------------------------------------

  predicate Runnable(s: WorkflowStatus) {
    s.WfPending? || s.WfRunning? || s.WfRetrying?
  }

  /** What the claim query selects. */
  predicate Claimable(status: WorkflowStatus, wakeup: Option<Time>, row: Option<LeaseRow>, now: Time) {
    && Runnable(status) && (wakeup.None? || wakeup.value <= now) && (row.None? || row.value.expiresAt < now)
  }

  /** The upsert of a grant: fence 1 for a new row, one more than before for an old one. */
  function Grant(row: Option<LeaseRow>, worker: string, now: Time, ttl: Time): LeaseRow {
    LeaseRow(worker, if row.None? then 1 else row.value.fence + 1, now, now + ttl)
  }

  function Renewed(row: LeaseRow, now: Time, ttl: Time): LeaseRow {
    row.(heartbeatAt := now, expiresAt := now + ttl)
  }

  function Dropped(row: LeaseRow): LeaseRow {
    row.(expiresAt := row.heartbeatAt - 1.0)
  }

  /** The guard compares worker and fence; it does not look at the expiry. */
  predicate Passes(row: Option<LeaseRow>, l: Lease) {
    row.Some? && row.value.worker == l.worker && row.value.fence == l.fence
  }

  // --- the store ------------------------------------------------------------------------

  datatype IndexEntry = IndexEntry(instanceId: string, status: WorkflowStatus, wakeup: Option<Time>)

  datatype Claim = Claim(instanceId: string, lease: Lease)

  function Find(rows: map<string, LeaseRow>, id: string): Option<LeaseRow> {
    if id in rows then Some(rows[id]) else None
  }

  /** The ids the claim query returns: the eligible ones in order, up to the limit. */
  function Eligible(rows: map<string, LeaseRow>, cs: seq<IndexEntry>, limit: int, now: Time): seq<string> {
    if cs == [] || limit <= 0 then []
    else if Claimable(cs[0].status, cs[0].wakeup, Find(rows, cs[0].instanceId), now) then
      [cs[0].instanceId] + Eligible(rows, cs[1..], limit - 1, now)
    else Eligible(rows, cs[1..], limit, now)
  }

  predicate DistinctIds(cs: seq<IndexEntry>) {
    forall j, k :: 0 <= j < k < |cs| ==> cs[j].instanceId != cs[k].instanceId
  }

  /** An index entry the claim query may return for the id. */
  ghost predicate Selectable(rows: map<string, LeaseRow>, cs: seq<IndexEntry>, now: Time, id: string) {
    exists j :: 0 <= j < |cs| && cs[j].instanceId == id && Claimable(cs[j].status, cs[j].wakeup, Find(rows, id), now)
  }

  lemma {:induction false} EligibleIsSelectable(rows: map<string, LeaseRow>, cs: seq<IndexEntry>, limit: int, now: Time,
                                                id: string)
    ensures id in Eligible(rows, cs, limit, now) ==> Selectable(rows, cs, now, id)
    decreases |cs|
  {
    if cs == [] || limit <= 0 {
    } else if id == cs[0].instanceId && Claimable(cs[0].status, cs[0].wakeup, Find(rows, id), now) {
    } else if id in Eligible(rows, cs, limit, now) {
      var taken := Claimable(cs[0].status, cs[0].wakeup, Find(rows, cs[0].instanceId), now);
      EligibleIsSelectable(rows, cs[1..], if taken then limit - 1 else limit, now, id);
      var j :| 0 <= j < |cs[1..]| && cs[1..][j].instanceId == id
               && Claimable(cs[1..][j].status, cs[1..][j].wakeup, Find(rows, id), now);
      assert cs[j + 1] == cs[1..][j];
    }
  }

  lemma HeadIsNotLater(rows: map<string, LeaseRow>, cs: seq<IndexEntry>, now: Time)
    requires DistinctIds(cs) && cs != []
    ensures !Selectable(rows, cs[1..], now, cs[0].instanceId) && DistinctIds(cs[1..])
  {
    forall j | 0 <= j < |cs[1..]| ensures cs[1..][j].instanceId != cs[0].instanceId {
      assert cs[1..][j] == cs[j + 1];
    }
  }

  predicate DistinctKeys(ids: seq<string>) {
    forall j, k :: 0 <= j < k < |ids| ==> ids[j] != ids[k]
  }

  /** The query stays within the limit and returns each instance once. */
  lemma {:induction false} EligibleFits(rows: map<string, LeaseRow>, cs: seq<IndexEntry>, limit: int, now: Time)
    requires DistinctIds(cs)
    ensures |Eligible(rows, cs, limit, now)| <= (if limit <= 0 then 0 else limit)
            && DistinctKeys(Eligible(rows, cs, limit, now))
    decreases |cs|
  {
    if cs != [] && limit > 0 {
      var taken := Claimable(cs[0].status, cs[0].wakeup, Find(rows, cs[0].instanceId), now);
      var rest := Eligible(rows, cs[1..], if taken then limit - 1 else limit, now);
      EligibleFits(rows, cs[1..], if taken then limit - 1 else limit, now);
      EligibleIsSelectable(rows, cs[1..], if taken then limit - 1 else limit, now, cs[0].instanceId);
      HeadIsNotLater(rows, cs, now);
    }
  }

  function Claimed(claims: seq<Claim>): (ids: seq<string>)
    ensures |ids| == |claims| && forall k :: 0 <= k < |ids| ==> ids[k] == claims[k].instanceId
  {
    seq(|claims|, k requires 0 <= k < |claims| => claims[k].instanceId)
  }

  // --- what the claim query leaves out ------------------------------------------------

  predicate ClaimableAt(rows: map<string, LeaseRow>, cs: seq<IndexEntry>, now: Time, k: int)
    requires 0 <= k < |cs|
  {
    Claimable(cs[k].status, cs[k].wakeup, Find(rows, cs[k].instanceId), now)
  }

  /** The one instance stands before the other among the candidates. */
  ghost predicate Precedes(cs: seq<IndexEntry>, s: string, t: string) {
    forall m, n :: 0 <= m < |cs| && 0 <= n < |cs| && cs[m].instanceId == s && cs[n].instanceId == t ==> m < n
  }

  ghost predicate InTurn(cs: seq<IndexEntry>, ids: seq<string>) {
    forall a, b :: 0 <= a < b < |ids| ==> Precedes(cs, ids[a], ids[b])
  }

  /** A claimable instance goes without a grant only if the limit is used up by claimable ones before it. */
  ghost predicate Serves(rows: map<string, LeaseRow>, cs: seq<IndexEntry>, limit: int, now: Time, ids: seq<string>) {
    && |ids| <= (if limit <= 0 then 0 else limit) && InTurn(cs, ids)
    && (forall id :: id in ids ==> Selectable(rows, cs, now, id))
    && (forall k :: 0 <= k < |cs| && ClaimableAt(rows, cs, now, k) && cs[k].instanceId !in ids ==>
          |ids| == if limit <= 0 then 0 else limit)
    && (forall k, l :: 0 <= k < l < |cs| && ClaimableAt(rows, cs, now, k) && cs[l].instanceId in ids ==>
          cs[k].instanceId in ids)
  }

  lemma TailPrecedes(cs: seq<IndexEntry>, s: string, t: string)
    requires cs != [] && Precedes(cs[1..], s, t) && cs[0].instanceId != s && cs[0].instanceId != t
    ensures Precedes(cs, s, t)
  {
    forall m, n | 0 <= m < |cs| && 0 <= n < |cs| && cs[m].instanceId == s && cs[n].instanceId == t ensures m < n {
      assert cs[1..][m - 1] == cs[m] && cs[1..][n - 1] == cs[n];
    }
  }

  lemma HeadPrecedes(cs: seq<IndexEntry>, t: string)
    requires cs != [] && DistinctIds(cs) && t != cs[0].instanceId
    ensures Precedes(cs, cs[0].instanceId, t)
  {
  }

  /** Nothing the query returns from the tail is the head. */
  lemma TailIsNotHead(rows: map<string, LeaseRow>, cs: seq<IndexEntry>, limit: int, now: Time)
    requires cs != [] && DistinctIds(cs)
    ensures cs[0].instanceId !in Eligible(rows, cs[1..], limit, now)
  {
    HeadIsNotLater(rows, cs, now);
    EligibleIsSelectable(rows, cs[1..], limit, now, cs[0].instanceId);
  }

  lemma {:induction false} EligibleInTurn(rows: map<string, LeaseRow>, cs: seq<IndexEntry>, limit: int, now: Time)
    requires DistinctIds(cs)
    ensures InTurn(cs, Eligible(rows, cs, limit, now))
    decreases |cs|
  {
    if cs != [] && limit > 0 {
      var less := if ClaimableAt(rows, cs, now, 0) then limit - 1 else limit;
      var rest := Eligible(rows, cs[1..], less, now);
      HeadIsNotLater(rows, cs, now);
      TailIsNotHead(rows, cs, less, now);
      EligibleInTurn(rows, cs[1..], less, now);
      forall a, b | 0 <= a < b < |rest| ensures Precedes(cs, rest[a], rest[b]) {
        assert rest[a] in rest && rest[b] in rest;
        TailPrecedes(cs, rest[a], rest[b]);
      }
      forall b | 0 <= b < |rest| ensures Precedes(cs, cs[0].instanceId, rest[b]) {
        assert rest[b] in rest;
        HeadPrecedes(cs, rest[b]);
      }
    }
  }

  lemma {:induction false} EligibleMissesNone(rows: map<string, LeaseRow>, cs: seq<IndexEntry>, limit: int, now: Time,
                                              k: nat)
    requires DistinctIds(cs) && k < |cs| && ClaimableAt(rows, cs, now, k)
    requires cs[k].instanceId !in Eligible(rows, cs, limit, now)
    ensures |Eligible(rows, cs, limit, now)| == if limit <= 0 then 0 else limit
    decreases |cs|
  {
    if limit > 0 && k > 0 {
      var less := if ClaimableAt(rows, cs, now, 0) then limit - 1 else limit;
      HeadIsNotLater(rows, cs, now);
      assert cs[1..][k - 1] == cs[k];
      EligibleMissesNone(rows, cs[1..], less, now, k - 1);
    }
  }

  lemma {:induction false} EligibleSkipsNone(rows: map<string, LeaseRow>, cs: seq<IndexEntry>, limit: int, now: Time,
                                             k: nat, l: nat)
    requires DistinctIds(cs) && k < l < |cs| && ClaimableAt(rows, cs, now, k)
    requires cs[l].instanceId in Eligible(rows, cs, limit, now)
    ensures cs[k].instanceId in Eligible(rows, cs, limit, now)
    decreases |cs|
  {
    if k > 0 {
      var less := if ClaimableAt(rows, cs, now, 0) then limit - 1 else limit;
      HeadIsNotLater(rows, cs, now);
      assert cs[1..][k - 1] == cs[k] && cs[1..][l - 1] == cs[l];
      EligibleSkipsNone(rows, cs[1..], less, now, k - 1, l - 1);
    }
  }

  /** The claim query filters, then limits. */
  lemma EligibleServes(rows: map<string, LeaseRow>, cs: seq<IndexEntry>, limit: int, now: Time)
    requires DistinctIds(cs)
    ensures Serves(rows, cs, limit, now, Eligible(rows, cs, limit, now))
  {
    var ids := Eligible(rows, cs, limit, now);
    EligibleFits(rows, cs, limit, now);
    EligibleInTurn(rows, cs, limit, now);
    forall id | id in ids ensures Selectable(rows, cs, now, id) {
      EligibleIsSelectable(rows, cs, limit, now, id);
    }
    forall k | 0 <= k < |cs| && ClaimableAt(rows, cs, now, k) && cs[k].instanceId !in ids
      ensures |ids| == if limit <= 0 then 0 else limit
    {
      EligibleMissesNone(rows, cs, limit, now, k);
    }
    forall k, l | 0 <= k < l < |cs| && ClaimableAt(rows, cs, now, k) && cs[l].instanceId in ids
      ensures cs[k].instanceId in ids
    {
      EligibleSkipsNone(rows, cs, limit, now, k, l);
    }
  }

  class LeaseStore {
    const ttl: Time
    var rows: map<string, LeaseRow>

    constructor (seconds: Time)
      ensures rows == map[] && ttl == seconds
    {
      ttl, rows := seconds, map[];
    }

    /** One transaction grants the claimable instances, in turn and up to the limit, each with the next fence
        of its own row. */
    method AcquireRunnable(worker: string, limit: int, now: Time, candidates: seq<IndexEntry>)
      returns (claims: seq<Claim>)
      requires DistinctIds(candidates)
      modifies this
      ensures Serves(old(rows), candidates, limit, now, Claimed(claims)) && DistinctKeys(Claimed(claims))
      ensures forall k :: 0 <= k < |claims| ==>
                var id := claims[k].instanceId;
                var fence := if id in old(rows) then old(rows)[id].fence + 1 else 1;
                && claims[k].lease == Lease(worker, fence)
                && id in rows && rows[id] == LeaseRow(worker, fence, now, now + ttl)
      ensures forall id :: id !in Claimed(claims) ==> Find(rows, id) == Find(old(rows), id)
    {
      claims := [];
      EligibleServes(rows, candidates, limit, now);
      EligibleFits(rows, candidates, limit, now);
      if limit <= 0 { return; }
      var ids := Eligible(rows, candidates, limit, now);
      var k := 0;
      while k < |ids|
        invariant 0 <= k <= |ids| && Claimed(claims) == ids[..k]
        invariant forall j :: 0 <= j < k ==>
                    ids[j] in rows && rows[ids[j]] == Grant(Find(old(rows), ids[j]), worker, now, ttl)
        invariant forall j :: 0 <= j < k ==> claims[j] == Claim(ids[j], Lease(worker, rows[ids[j]].fence))
        invariant forall id :: id !in ids[..k] ==> Find(rows, id) == Find(old(rows), id)
      {
        assert ids[k] !in ids[..k];
        rows := rows[ids[k] := Grant(Find(rows, ids[k]), worker, now, ttl)];
        claims := claims + [Claim(ids[k], Lease(worker, rows[ids[k]].fence))];
        k := k + 1;
      }
      assert ids[..k] == ids;
    }

    /** Only the worker's own rows are extended; the ids it still owns are returned. */
    method Heartbeat(worker: string, ids: set<string>, now: Time) returns (owned: set<string>)
      modifies this
      ensures owned == set id | id in ids && id in old(rows) && old(rows)[id].worker == worker
      ensures rows.Keys == old(rows.Keys)
      ensures forall id :: id in rows ==>
                rows[id] == if id in owned then LeaseRow(worker, old(rows)[id].fence, now, now + ttl) else old(rows)[id]
    {
      owned := set id | id in ids && id in rows && rows[id].worker == worker;
      rows := map id | id in rows :: if id in owned then Renewed(rows[id], now, ttl) else rows[id];
    }

    /** The worker's own row expires before its last heartbeat. */
    method Release(worker: string, id: string)
      modifies this
      ensures rows.Keys == old(rows.Keys)
      ensures forall o :: o in rows ==>
                var was := old(rows)[o];
                rows[o] == if o == id && was.worker == worker
                           then LeaseRow(worker, was.fence, was.heartbeatAt, was.heartbeatAt - 1.0) else was
    {
      if id in rows && rows[id].worker == worker {
        rows := rows[id := Dropped(rows[id])];
      }
    }

    method Guard(id: string, l: Lease) returns (held: bool)
      ensures held <==> Passes(Find(rows, id), l)
    {
      if id !in rows { return false; }
      held := rows[id].worker == l.worker && rows[id].fence == l.fence;
    }
  }
}
