/** The event store (src/agentforge/core/persistence/event_store.py): one commit appends the events,
    projects the instance, and brings the index row, the escalation rows and the snapshot up to date. */
module EventStore {
  import opened Domain
  import opened Events
  import opened Fold
  import opened FoldLaws
  import opened Legality

  const SNAPSHOT_EVERY: nat := 50

  datatype Snapshot = Snapshot(tenantId: string, version: nat, state: Instance)

  datatype IndexRow = IndexRow(
    tenantId: string,
    workflowId: string,
    workflowVersion: string,
    status: WorkflowStatus,
    lastSequence: nat,
    cost: real,
    budgetLimit: Option<real>,
    nextWakeupAt: Option<Time>,
    completedAt: Option<Time>)

  datatype RowStatus = RowPending | RowResolved | RowTimedOut

  datatype EscalationRow = EscalationRow(
    instanceId: string, stepId: StepId, reason: string, deadline: Option<Time>, autoAction: string, status: RowStatus)

  type Rows = map<string, EscalationRow>

  datatype StoreError = LostLease | Conflict | Mismatch | Rejected(error: FoldError) | UnknownInstance | EmptyBatch

  // --- streams -------------------------------------------------------------------------

  /** The whole stream folded without a definition: the reference every read model is held against. */
  function Folding(evs: seq<Event>): Folded {
    FoldFrom(None, None, evs)
  }

  predicate ShouldSnapshot(last: int, current: int) {
    current - last >= SNAPSHOT_EVERY
  }

  /** A snapshot of a stream holds the fold of a prefix no more than 49 events behind. */
  ghost predicate SnapshotOk(evs: seq<Event>, snap: Snapshot) {
    && 1 <= snap.version <= |evs| && !ShouldSnapshot(snap.version, |evs|)
    && Folding(evs[..snap.version]) == Ok(snap.state) && snap.state.tenantId == snap.tenantId
  }

  function IndexOf(i: Instance, wakeup: Option<Time>): IndexRow {
    IndexRow(i.tenantId, i.workflowId, i.workflowVersion, i.status, i.version, i.cost, i.budgetLimit, wakeup,
             i.completedAt)
  }

  /** What a status query reads off the row. */
  predicate Shows(row: IndexRow, i: Instance, wakeup: Option<Time>) {
    && row.tenantId == i.tenantId && row.workflowId == i.workflowId && row.workflowVersion == i.workflowVersion
    && row.status == i.status && row.lastSequence == i.version && row.nextWakeupAt == wakeup
    && row.cost == i.cost && row.budgetLimit == i.budgetLimit && row.completedAt == i.completedAt
  }

  /** The upsert inserts a whole row, or refreshes the mutable columns of the existing one. */
  function Upsert(before: Option<IndexRow>, i: Instance, wakeup: Option<Time>): IndexRow {
    match before
    case None => IndexOf(i, wakeup)
    case Some(row) =>
      row.(status := i.status, lastSequence := i.version, cost := i.cost, budgetLimit := i.budgetLimit,
           nextWakeupAt := wakeup, completedAt := i.completedAt)
  }

  ghost predicate SameIdentity(i: Instance, j: Instance) {
    j.instanceId == i.instanceId && j.tenantId == i.tenantId && j.workflowId == i.workflowId
    && j.workflowVersion == i.workflowVersion
  }

  lemma HandleIdentity(i: Instance, b: EventBody, at: Time)
    ensures Handle(None, i, b, at).Ok? ==> SameIdentity(i, Handle(None, i, b, at).value)
  {
    OnInstanceIdentity(i, b, at);
  }

  lemma OnInstanceIdentity(i: Instance, b: EventBody, at: Time)
    ensures OnInstance(i, b, at).Ok? ==> SameIdentity(i, OnInstance(i, b, at).value)
  {
  }

  lemma {:induction false} FoldIdentity(i: Instance, evs: seq<Event>)
    ensures FoldFrom(None, Some(i), evs).Ok? ==> SameIdentity(i, FoldFrom(None, Some(i), evs).value)
    decreases |evs|
  {
    if evs != [] {
      var r := FoldOne(None, Some(i), evs[0]);
      HandleIdentity(i, evs[0].draft.body, evs[0].draft.at);
      if r.Ok? { FoldIdentity(r.value, evs[1..]); }
    }
  }

  lemma {:induction false} FoldAllVersion(o: Option<Instance>, evs: seq<Event>)
    ensures var r := FoldAll(None, o, evs);
            r.Ok? ==> Version(r.value) == Version(o) + |evs|
                      && forall k :: 0 <= k < |evs| ==> evs[k].sequence == Version(o) + k + 1
    decreases |evs|
  {
    if evs != [] {
      var r := FoldOne(None, o, evs[0]);
      if r.Ok? { FoldAllVersion(Some(r.value), evs[1..]); }
    }
  }

  /** A stream that folds is numbered 1, 2, 3, ... and its projection carries its length. */
  lemma FoldedIsContiguous(evs: seq<Event>)
    requires Folding(evs).Ok?
    ensures evs != [] && Folding(evs).value.version == |evs|
    ensures forall k :: 0 <= k < |evs| ==> evs[k].sequence == k + 1
  {
    FoldAllVersion(None, evs);
  }

  /** Reading through the snapshot: the fold of the tail over the stored state is the fold of it all. */
  lemma SnapshotPlusTail(evs: seq<Event>, snap: Snapshot)
    requires SnapshotOk(evs, snap)
    ensures FoldFrom(None, Some(snap.state), evs[snap.version..]) == Folding(evs)
    ensures |evs[snap.version..]| < 50
  {
    assert evs == evs[..snap.version] + evs[snap.version..];
    FoldSplit(None, None, evs[..snap.version], evs[snap.version..]);
  }

  /** The projection with the entries a definition adds. */
  function Filled(defn: Option<Definition>, i: Instance): Instance {
    if defn.None? then i else Seeded(defn.value, i)
  }

  /** A snapshot is made without a definition, so a read with one may lack default entries and no more. */
  lemma ReadIsFold(evs: seq<Event>, snap: Snapshot, defn: Option<Definition>)
    requires SnapshotOk(evs, snap) && Folding(evs).Ok?
    ensures var r := FoldFrom(defn, Some(snap.state), evs[snap.version..]);
            r.Ok? && FoldFrom(defn, None, evs) == Ok(Filled(defn, r.value))
            && r.value.tenantId == Folding(evs).value.tenantId
  {
    SnapshotPlusTail(evs, snap);
    if defn.Some? {
      FoldAllAlike(defn.value, snap.state, snap.state, evs[snap.version..]);
      FoldDefinitionIndependent(defn.value, evs);
      var r := FoldFrom(defn, Some(snap.state), evs[snap.version..]);
      assert Seeded(defn.value, r.value).tenantId == Seeded(defn.value, Folding(evs).value).tenantId;
    }
  }

  /** After an append the old snapshot still gives the new fold, however long the batch. */
  lemma TailAfterAppend(evs: seq<Event>, more: seq<Event>, snap: Snapshot)
    requires SnapshotOk(evs, snap)
    ensures FoldFrom(None, Some(snap.state), (evs + more)[snap.version..]) == Folding(evs + more)
    ensures (evs + more)[..snap.version] == evs[..snap.version]
  {
    assert (evs + more)[..snap.version] == evs[..snap.version];
    assert evs + more == evs[..snap.version] + (evs + more)[snap.version..];
    FoldSplit(None, None, evs[..snap.version], (evs + more)[snap.version..]);
  }

  // --- escalation rows -----------------------------------------------------------------

  function ProjectRow(rows: Rows, ev: Event): Rows {
    match ev.draft.body
    case EscalationRaised(id, s, reason, deadline, action) =>
      if id in rows then rows else rows[id := EscalationRow(ev.instanceId, s, reason, deadline, action, RowPending)]
    case EscalationResolved(id, _, _, _) => if id in rows then rows[id := rows[id].(status := RowResolved)] else rows
    case EscalationTimedOut(id, _, _) => if id in rows then rows[id := rows[id].(status := RowTimedOut)] else rows
    case _ => rows
  }

  function ProjectRows(rows: Rows, evs: seq<Event>): Rows
    decreases |evs|
  {
    if evs == [] then rows else ProjectRows(ProjectRow(rows, evs[0]), evs[1..])
  }

  /** The rows of an instance are its folded references: same ids, and pending exactly while unresolved. */
  ghost predicate Agree(rows: Rows, id: string, refs: seq<EscalationRef>) {
    && (forall k :: 0 <= k < |refs| ==>
                      && refs[k].escalationId in rows && rows[refs[k].escalationId].instanceId == id
                      && (rows[refs[k].escalationId].status == RowPending <==> !refs[k].resolved)
                      && Describes(rows[refs[k].escalationId], refs[k]))
    && (forall e :: e in rows && rows[e].instanceId == id ==> HasRef(refs, e))
  }

  /** The row tells the same step, reason and deadline as the reference. */
  predicate Describes(row: EscalationRow, ref: EscalationRef) {
    row.stepId == ref.stepId && row.reason == ref.reason && row.deadline == ref.deadline
  }

  predicate HasRef(refs: seq<EscalationRef>, e: string) {
    exists k :: 0 <= k < |refs| && refs[k].escalationId == e
  }

  /** A new escalation has a new id, and only an instance's own escalations are closed through it. */
  predicate FreshEvent(rows: Rows, ev: Event) {
    match ev.draft.body
    case EscalationRaised(id, _, _, _, _) => id !in rows
    case EscalationResolved(id, _, _, _) => id in rows ==> rows[id].instanceId == ev.instanceId
    case EscalationTimedOut(id, _, _) => id in rows ==> rows[id].instanceId == ev.instanceId
    case _ => true
  }

  predicate FreshBatch(rows: Rows, evs: seq<Event>)
    decreases |evs|
  {
    evs == [] || (FreshEvent(rows, evs[0]) && FreshBatch(ProjectRow(rows, evs[0]), evs[1..]))
  }

  /** How an event closes an escalation, if it does. */
  function ClosedAs(b: EventBody, e: string): Option<RowStatus> {
    match b
    case EscalationResolved(id, _, _, _) => if id == e then Some(RowResolved) else None
    case EscalationTimedOut(id, _, _) => if id == e then Some(RowTimedOut) else None
    case _ => None
  }

  /** The last event that closes the escalation decides. */
  function LastClose(evs: seq<Event>, e: string, otherwise: RowStatus): RowStatus {
    if evs == [] then otherwise
    else
      var last := ClosedAs(evs[|evs| - 1].draft.body, e);
      if last.Some? then last.value else LastClose(evs[..|evs| - 1], e, otherwise)
  }

  lemma {:induction false} LastCloseCons(evs: seq<Event>, e: string, otherwise: RowStatus)
    requires evs != []
    ensures var first := ClosedAs(evs[0].draft.body, e);
            LastClose(evs, e, otherwise)
            == LastClose(evs[1..], e, if first.Some? then first.value else otherwise)
    decreases |evs|
  {
    if |evs| == 1 {
      assert evs[1..] == [] && evs[..0] == [];
    } else {
      assert evs[1..][|evs| - 2] == evs[|evs| - 1] && evs[..|evs| - 1][1..] == evs[1..][..|evs| - 2];
      LastCloseCons(evs[..|evs| - 1], e, otherwise);
    }
  }

  /** A row keeps what it was raised with; its status is the last closing's. */
  lemma {:induction false} RowLives(rows: Rows, evs: seq<Event>, e: string)
    requires e in rows
    ensures e in ProjectRows(rows, evs)
    ensures ProjectRows(rows, evs)[e] == rows[e].(status := LastClose(evs, e, rows[e].status))
    decreases |evs|
  {
    if evs != [] {
      RowLives(ProjectRow(rows, evs[0]), evs[1..], e);
      LastCloseCons(evs, e, rows[e].status);
    }
  }

  /** An escalation's row carries its step, reason, deadline and automatic action from the event that first
      raised it, and is pending, resolved or timed out as the events since then say. */
  lemma {:induction false} RowIs(rows: Rows, evs: seq<Event>, e: string, k: nat)
    requires e !in rows && k < |evs| && evs[k].draft.body.EscalationRaised? && evs[k].draft.body.escalationId == e
    requires forall m :: 0 <= m < k ==> !(evs[m].draft.body.EscalationRaised? && evs[m].draft.body.escalationId == e)
    ensures e in ProjectRows(rows, evs)
    ensures var b := evs[k].draft.body;
            ProjectRows(rows, evs)[e]
            == EscalationRow(evs[k].instanceId, b.stepId, b.reason, b.deadline, b.autoAction,
                             LastClose(evs[k + 1..], e, RowPending))
    decreases |evs|
  {
    if k == 0 {
      RowLives(ProjectRow(rows, evs[0]), evs[1..], e);
    } else {
      assert evs[1..][k - 1] == evs[k] && evs[1..][k..] == evs[k + 1..];
      assert forall m :: 0 <= m < k - 1 ==> evs[1..][m] == evs[m + 1];
      assert !(evs[0].draft.body.EscalationRaised? && evs[0].draft.body.escalationId == e);
      RowIs(ProjectRow(rows, evs[0]), evs[1..], e, k - 1);
    }
  }

  lemma AgreeStep(rows: Rows, i: Instance, ev: Event)
    requires Agree(rows, ev.instanceId, i.escalations) && FreshEvent(rows, ev)
    ensures Agree(ProjectRow(rows, ev), ev.instanceId, EscalationsAfter(i, ev.draft.body))
  {
    var after, refs := ProjectRow(rows, ev), EscalationsAfter(i, ev.draft.body);
    forall e | e in after && after[e].instanceId == ev.instanceId ensures HasRef(refs, e) {
      if e in rows && rows[e].instanceId == ev.instanceId {
        assert HasRef(i.escalations, e);
        var k :| 0 <= k < |i.escalations| && i.escalations[k].escalationId == e;
        assert refs[k].escalationId == e;
      } else {
        assert refs[|refs| - 1].escalationId == e;
      }
    }
  }

  lemma OthersAgree(rows: Rows, ev: Event, id: string, refs: seq<EscalationRef>)
    requires Agree(rows, id, refs) && FreshEvent(rows, ev) && id != ev.instanceId
    ensures Agree(ProjectRow(rows, ev), id, refs)
  {
  }

  lemma FoldOneRefs(i: Instance, ev: Event)
    requires FoldOne(None, Some(i), ev).Ok?
    ensures FoldOne(None, Some(i), ev).value.escalations == EscalationsAfter(i, ev.draft.body)
  {
    var b := ev.draft.body;
    assert OnInstance(i, b, ev.draft.at).value.escalations == EscalationsAfter(i, b);
  }

  lemma {:induction false} BatchAgrees(rows: Rows, id: string, i: Instance, evs: seq<Event>)
    requires Agree(rows, id, i.escalations) && FreshBatch(rows, evs) && FoldFrom(None, Some(i), evs).Ok?
    requires forall k :: 0 <= k < |evs| ==> evs[k].instanceId == id
    ensures Agree(ProjectRows(rows, evs), id, FoldFrom(None, Some(i), evs).value.escalations)
    decreases |evs|
  {
    if evs != [] {
      AgreeStep(rows, i, evs[0]);
      FoldOneRefs(i, evs[0]);
      BatchAgrees(ProjectRow(rows, evs[0]), id, FoldOne(None, Some(i), evs[0]).value, evs[1..]);
    }
  }

  lemma {:induction false} BatchSpares(rows: Rows, id: string, refs: seq<EscalationRef>, evs: seq<Event>)
    requires Agree(rows, id, refs) && FreshBatch(rows, evs) && forall k :: 0 <= k < |evs| ==> evs[k].instanceId != id
    ensures Agree(ProjectRows(rows, evs), id, refs)
    decreases |evs|
  {
    if evs != [] {
      OthersAgree(rows, evs[0], id, refs);
      BatchSpares(ProjectRow(rows, evs[0]), id, refs, evs[1..]);
    }
  }

  // --- one instance's read models ---------------------------------------------------------

  ghost predicate Faithful(id: string, evs: seq<Event>, snap: Snapshot, row: IndexRow) {
    && Folding(evs).Ok? && SnapshotOk(evs, snap) && row == IndexOf(Folding(evs).value, row.nextWakeupAt)
    && forall k :: 0 <= k < |evs| ==> evs[k].instanceId == id && evs[k].tenantId == row.tenantId
  }

  function Tail(evs: seq<Event>, snap: Option<Snapshot>): seq<Event>
    requires snap.Some? ==> snap.value.version <= |evs|
  {
    if snap.None? then evs else evs[snap.value.version..]
  }

  function Base(snap: Option<Snapshot>): Option<Instance> {
    if snap.None? then None else Some(snap.value.state)
  }

  /** `_project`: fold the tail over the snapshot. */
  method Project(evs: seq<Event>, snap: Option<Snapshot>, tenant: string, defn: Option<Definition>)
    returns (r: Result<Instance, StoreError>)
    requires snap.Some? ==> snap.value.version <= |evs|
    ensures snap.None? && evs == [] ==> r == Err(UnknownInstance)
    ensures r.Ok? <==> var f := FoldFrom(defn, Base(snap), Tail(evs, snap)); f.Ok? && f.value.tenantId == tenant
    ensures r.Ok? ==> r.value == FoldFrom(defn, Base(snap), Tail(evs, snap)).value
  {
    if snap.None? && evs == [] { return Err(UnknownInstance); }
    var folded := FoldEvents(defn, Base(snap), Tail(evs, snap));
    if folded.Err? { return Err(Rejected(folded.error)); }
    if folded.value.tenantId != tenant { return Err(Mismatch); }
    return Ok(folded.value);
  }

  method ProjectEscalations(rows: Rows, evs: seq<Event>) returns (after: Rows)
    ensures after == ProjectRows(rows, evs)
  {
    after := rows;
    var k := 0;
    while k < |evs|
      invariant 0 <= k <= |evs|
      invariant ProjectRows(after, evs[k..]) == ProjectRows(rows, evs)
    {
      assert evs[k..][1..] == evs[k + 1..];
      match evs[k].draft.body {
        case EscalationRaised(id, s, reason, deadline, action) =>
          if id !in after {
            after := after[id := EscalationRow(evs[k].instanceId, s, reason, deadline, action, RowPending)];
          }
        case EscalationResolved(id, _, _, _) =>
          if id in after { after := after[id := after[id].(status := RowResolved)]; }
        case EscalationTimedOut(id, _, _) =>
          if id in after { after := after[id := after[id].(status := RowTimedOut)]; }
        case _ =>
      }
      k := k + 1;
    }
  }

  /** The projection a commit makes is the full fold of the longer stream. */
  lemma ProjectionIsFold(id: string, evs: seq<Event>, more: seq<Event>, snap: Option<Snapshot>, row: Option<IndexRow>)
    requires snap.None? <==> evs == []
    requires evs != [] ==> row.Some? && Faithful(id, evs, snap.value, row.value)
    ensures snap.Some? ==> snap.value.version <= |evs + more|
    ensures FoldFrom(None, Base(snap), Tail(evs + more, snap)) == Folding(evs + more)
  {
    if evs != [] { TailAfterAppend(evs, more, snap.value); } else { assert evs + more == more; }
  }

  /** The refreshed row shows the longer stream's fold. */
  lemma UpsertIsIndex(id: string, evs: seq<Event>, more: seq<Event>, snap: Snapshot, row: IndexRow,
                      wakeup: Option<Time>)
    requires Faithful(id, evs, snap, row) && Folding(evs + more).Ok?
    ensures Upsert(Some(row), Folding(evs + more).value, wakeup) == IndexOf(Folding(evs + more).value, wakeup)
  {
    FoldSplit(None, None, evs, more);
    FoldedIsContiguous(evs);
    FoldIdentity(Folding(evs).value, more);
  }

  /** A snapshot is rewritten exactly when the old one would fall 50 events behind. */
  lemma NextSnapshot(evs: seq<Event>, i: Instance, snap: Option<Snapshot>)
    requires Folding(evs) == Ok(i)
    requires snap.Some? ==>
               && 1 <= snap.value.version <= |evs| && Folding(evs[..snap.value.version]) == Ok(snap.value.state)
               && snap.value.state.tenantId == snap.value.tenantId
    ensures SnapshotOk(evs, NewSnapshot(snap, i))
    ensures NewSnapshot(snap, i)
            == if snap.Some? && |evs| < snap.value.version + 50 then snap.value else Snapshot(i.tenantId, |evs|, i)
  {
    FoldedIsContiguous(evs);
    assert evs[..|evs|] == evs;
  }

  lemma CommitFaithful(id: string, evs: seq<Event>, more: seq<Event>, snap: Option<Snapshot>, row: Option<IndexRow>,
                       wakeup: Option<Time>)
    requires (snap.None? <==> evs == []) && (row.None? <==> evs == [])
    requires evs != [] ==> Faithful(id, evs, snap.value, row.value)
    requires Folding(evs + more).Ok?
    requires forall k :: 0 <= k < |more| ==>
               more[k].instanceId == id && more[k].tenantId == Folding(evs + more).value.tenantId
    ensures var i := Folding(evs + more).value;
            Faithful(id, evs + more, NewSnapshot(snap, i), Upsert(row, i, wakeup))
  {
    var i := Folding(evs + more).value;
    if evs != [] {
      TailAfterAppend(evs, more, snap.value);
      UpsertIsIndex(id, evs, more, snap.value, row.value, wakeup);
    }
    NextSnapshot(evs + more, i, snap);
  }

  ghost predicate AllFaithful(streams: map<string, seq<Event>>, snapshots: map<string, Snapshot>,
                              index: map<string, IndexRow>) {
    && snapshots.Keys == streams.Keys && index.Keys == streams.Keys
    && forall id {:trigger Faithful(id, streams[id], snapshots[id], index[id])} ::
         id in streams ==> Faithful(id, streams[id], snapshots[id], index[id])
  }

  /** The row and the snapshot a commit leaves for the instance. */
  function NewSnapshot(snap: Option<Snapshot>, i: Instance): Snapshot {
    if snap.None? || ShouldSnapshot(snap.value.version, i.version) then Snapshot(i.tenantId, i.version, i)
    else snap.value
  }

  function Find<T>(m: map<string, T>, id: string): Option<T> {
    if id in m then Some(m[id]) else None
  }

  function StreamIn(streams: map<string, seq<Event>>, id: string): seq<Event> {
    if id in streams then streams[id] else []
  }

  lemma FoundIsFaithful(streams: map<string, seq<Event>>, snapshots: map<string, Snapshot>,
                        index: map<string, IndexRow>, id: string)
    requires AllFaithful(streams, snapshots, index)
    ensures (Find(snapshots, id).None? <==> StreamIn(streams, id) == [])
            && (Find(index, id).None? <==> StreamIn(streams, id) == [])
    ensures id in streams ==> Faithful(id, streams[id], snapshots[id], index[id])
  {
  }

  lemma OthersFaithful(streams: map<string, seq<Event>>, snapshots: map<string, Snapshot>, index: map<string, IndexRow>,
                       id: string, evs: seq<Event>, snap: Snapshot, row: IndexRow)
    requires AllFaithful(streams, snapshots, index) && Faithful(id, evs, snap, row)
    ensures AllFaithful(streams[id := evs], snapshots[id := snap], index[id := row])
  {
    forall o | o in streams && o != id ensures Faithful(o, streams[o], snapshots[o], index[o]) {
    }
  }

  /** A batch the fold takes leaves every read model of every instance faithful. */
  lemma CommitSound(streams: map<string, seq<Event>>, snapshots: map<string, Snapshot>, index: map<string, IndexRow>,
                    id: string, events: seq<Event>, i: Instance, wakeup: Option<Time>)
    requires AllFaithful(streams, snapshots, index)
    requires Folding(StreamIn(streams, id) + events) == Ok(i)
    requires forall k :: 0 <= k < |events| ==> events[k].instanceId == id && events[k].tenantId == i.tenantId
    ensures Upsert(Find(index, id), i, wakeup) == IndexOf(i, wakeup)
    ensures AllFaithful(streams[id := StreamIn(streams, id) + events],
                        snapshots[id := NewSnapshot(Find(snapshots, id), i)],
                        index[id := IndexOf(i, wakeup)])
  {
    var stream, snap, row := StreamIn(streams, id), Find(snapshots, id), Find(index, id);
    FoundIsFaithful(streams, snapshots, index, id);
    CommitFaithful(id, stream, events, snap, row, wakeup);
    OthersFaithful(streams, snapshots, index, id, stream + events, NewSnapshot(snap, i), Upsert(row, i, wakeup));
  }

  lemma EmptyChangesNothing(streams: map<string, seq<Event>>, snapshots: map<string, Snapshot>,
                            index: map<string, IndexRow>,
                            id: string, i: Instance)
    requires AllFaithful(streams, snapshots, index) && Folding(StreamIn(streams, id) + []) == Ok(i)
    ensures streams[id := StreamIn(streams, id) + []] == streams
            && snapshots[id := NewSnapshot(Find(snapshots, id), i)] == snapshots
  {
    var stream := StreamIn(streams, id);
    assert stream + [] == stream;
    FoldedIsContiguous(stream);
    FoundIsFaithful(streams, snapshots, index, id);
    SnapshotStays(stream, snapshots[id], i);
  }

  lemma SnapshotStays(evs: seq<Event>, snap: Snapshot, i: Instance)
    requires SnapshotOk(evs, snap) && i.version == |evs|
    ensures NewSnapshot(Some(snap), i) == snap
  {
  }

  lemma ProjectionOf(streams: map<string, seq<Event>>, snapshots: map<string, Snapshot>, index: map<string, IndexRow>,
                     id: string, events: seq<Event>)
    requires AllFaithful(streams, snapshots, index)
    ensures var evs, snap := StreamIn(streams, id) + events, Find(snapshots, id);
            (snap.Some? ==> snap.value.version <= |evs|) && FoldFrom(None, Base(snap), Tail(evs, snap)) == Folding(evs)
  {
    FoundIsFaithful(streams, snapshots, index, id);
    ProjectionIsFold(id, StreamIn(streams, id), events, Find(snapshots, id), Find(index, id));
  }

  /** Every instance's escalation rows agree with its fold, and every row belongs to some instance. */
  ghost predicate RowsOk(streams: map<string, seq<Event>>, rows: Rows) {
    && (forall id :: id in streams ==>
          Folding(streams[id]).Ok? && Agree(rows, id, Folding(streams[id]).value.escalations))
    && (forall e :: e in rows ==> rows[e].instanceId in streams)
  }

  lemma {:induction false} RowOwners(rows: Rows, evs: seq<Event>, id: string)
    requires forall k :: 0 <= k < |evs| ==> evs[k].instanceId == id
    ensures forall e :: e in ProjectRows(rows, evs) ==>
                          ProjectRows(rows, evs)[e].instanceId == id
                          || (e in rows && ProjectRows(rows, evs)[e].instanceId == rows[e].instanceId)
    decreases |evs|
  {
    if evs != [] { RowOwners(ProjectRow(rows, evs[0]), evs[1..], id); }
  }

  /** A new stream: the opening event, then the rest. */
  lemma OpeningAgrees(rows: Rows, id: string, evs: seq<Event>)
    requires Folding(evs).Ok? && FreshBatch(rows, evs) && forall k :: 0 <= k < |evs| ==> evs[k].instanceId == id
    requires forall e :: e in rows ==> rows[e].instanceId != id
    ensures Agree(ProjectRows(rows, evs), id, Folding(evs).value.escalations)
  {
    FoldedIsContiguous(evs);
    var i := FoldOne(None, None, evs[0]).value;
    assert Agree(rows, id, i.escalations);
    BatchAgrees(rows, id, i, evs[1..]);
  }

  lemma OwnRowsAgree(streams: map<string, seq<Event>>, rows: Rows, id: string, events: seq<Event>)
    requires RowsOk(streams, rows) && FreshBatch(rows, events) && Folding(StreamIn(streams, id) + events).Ok?
    requires forall k :: 0 <= k < |events| ==> events[k].instanceId == id
    ensures Agree(ProjectRows(rows, events), id, Folding(StreamIn(streams, id) + events).value.escalations)
  {
    if id in streams {
      FoldedIsContiguous(streams[id]);
      FoldSplit(None, None, streams[id], events);
      BatchAgrees(rows, id, Folding(streams[id]).value, events);
    } else {
      assert [] + events == events;
      OpeningAgrees(rows, id, events);
    }
  }

  /** With fresh escalation ids a commit keeps every escalation row in step with the folds. */
  lemma RowsStayOk(streams: map<string, seq<Event>>, rows: Rows, id: string, events: seq<Event>)
    requires RowsOk(streams, rows) && FreshBatch(rows, events) && Folding(StreamIn(streams, id) + events).Ok?
    requires forall k :: 0 <= k < |events| ==> events[k].instanceId == id
    ensures RowsOk(streams[id := StreamIn(streams, id) + events], ProjectRows(rows, events))
  {
    OwnRowsAgree(streams, rows, id, events);
    RowOwners(rows, events, id);
    var after := streams[id := StreamIn(streams, id) + events];
    forall o | o in after
      ensures Folding(after[o]).Ok? && Agree(ProjectRows(rows, events), o, Folding(after[o]).value.escalations)
    {
      if o != id { BatchSpares(rows, o, Folding(streams[o]).value.escalations, events); }
    }
  }

  // --- reading with a definition ------------------------------------------------------------

  lemma {:induction false} TailIgnoresDefinition(d: Definition, i: Instance, evs: seq<Event>)
    requires forall k :: 0 <= k < |evs| ==> !evs[k].draft.body.InstanceCreated?
    ensures FoldFrom(Some(d), Some(i), evs) == FoldFrom(None, Some(i), evs)
    decreases |evs|
  {
    if evs != [] {
      var b, at := evs[0].draft.body, evs[0].draft.at;
      assert Handle(Some(d), i, b, at) == Handle(None, i, b, at);
      var r := FoldOne(None, Some(i), evs[0]);
      if r.Ok? { TailIgnoresDefinition(d, r.value, evs[1..]); }
    }
  }

  /** A snapshot is written at the first commit and without a definition, so a read through it never
      seeds: it has an entry for every defined step exactly when an event mentions every defined step. */
  lemma ReadCoversIffMentioned(d: Definition, evs: seq<Event>, snap: Snapshot)
    requires Folding(evs).Ok? && SnapshotOk(evs, snap)
    requires forall k :: 1 <= k < |evs| ==> !evs[k].draft.body.InstanceCreated?
    ensures var read := FoldFrom(Some(d), Some(snap.state), evs[snap.version..]);
            read.Ok? && (read.value.Covers(d) <==> d.Ids() <= MentionedBy(evs))
  {
    TailIgnoresDefinition(d, snap.state, evs[snap.version..]);
    SnapshotPlusTail(evs, snap);
    FoldDefinitionIndependent(d, evs);
    CoversIsKeys(d, Folding(evs).value);
  }

  lemma CoversIsKeys(d: Definition, i: Instance)
    ensures i.Covers(d) <==> d.Ids() <= i.steps.Keys
  {
    if d.Ids() <= i.steps.Keys {
      forall k | 0 <= k < |d.steps| ensures d.steps[k].stepId in i.steps {
        assert d.steps[k].stepId in d.Ids();
      }
    }
  }

  /** A batch of drafts appended at the stream's version folds as it replays on the projection. */
  lemma AppendReplays(evs: seq<Event>, id: string, tenant: string, drafts: seq<Draft>)
    requires Folding(evs).Ok?
    ensures Folding(evs + Numbered(id, tenant, |evs|, drafts)) == Replay(None, Folding(evs).value, drafts)
  {
    FoldedIsContiguous(evs);
    FoldSplit(None, None, evs, Numbered(id, tenant, |evs|, drafts));
    NumberedFolds(None, Folding(evs).value, drafts, id, tenant);
  }

  lemma TakenAreNumbered(evs: seq<Event>, events: seq<Event>)
    requires Folding(evs + events).Ok?
    ensures forall k :: 0 <= k < |events| ==> events[k].sequence == |evs| + k + 1
  {
    FoldedIsContiguous(evs + events);
    forall k | 0 <= k < |events| ensures events[k].sequence == |evs| + k + 1 {
      assert (evs + events)[|evs| + k] == events[k];
    }
  }

  /** Every prefix of a stream that folds, folds. */
  lemma PrefixFolds(defn: Option<Definition>, evs: seq<Event>, v: nat)
    requires Folding(evs).Ok? && 1 <= v <= |evs|
    ensures FoldFrom(defn, None, evs[..v]).Ok?
  {
    assert evs == evs[..v] + evs[v..];
    FoldSplit(None, None, evs[..v], evs[v..]);
    if defn.Some? { FoldDefinitionIndependent(defn.value, evs[..v]); }
  }

  function UpTo(evs: seq<Event>, version: int): (v: nat)
    ensures v <= |evs|
  {
    if version <= 0 then 0 else if version <= |evs| then version else |evs|
  }

  /** The events of a tenant up to a version: on a contiguous stream of one tenant, a prefix or nothing. */
  method Pick(evs: seq<Event>, owner: string, tenant: string, version: int) returns (picked: seq<Event>)
    requires forall k :: 0 <= k < |evs| ==> evs[k].sequence == k + 1 && evs[k].tenantId == owner
    ensures picked == if owner == tenant then evs[..UpTo(evs, version)] else []
  {
    picked := [];
    var v := UpTo(evs, version);
    var k := 0;
    while k < |evs|
      invariant 0 <= k <= |evs|
      invariant picked == if owner == tenant then evs[..if k <= v then k else v] else []
    {
      if evs[k].tenantId == tenant && evs[k].sequence <= version { picked := picked + [evs[k]]; }
      k := k + 1;
    }
  }

  // --- the store ---------------------------------------------------------------------------

  class Store {
    var streams: map<string, seq<Event>>
    var snapshots: map<string, Snapshot>
    var index: map<string, IndexRow>
    var escalations: Rows

    /** Every read model of every instance refines the instance's log. */
    ghost predicate Valid()
      reads this
    {
      AllFaithful(streams, snapshots, index)
    }

    function Stream(id: string): seq<Event>
      reads this
    {
      StreamIn(streams, id)
    }

    constructor ()
      ensures Valid() && RowsOk(streams, escalations) && streams == map[]
    {
      streams, snapshots, index, escalations := map[], map[], map[], map[];
    }

    /** When a batch is taken: the guard passed, nobody else appended, the events belong to the instance,
        and the longer stream folds to an instance of the same tenant. */
    ghost predicate Takes(id: string, tenant: string, events: seq<Event>, expected: nat, guard: bool)
      reads this
    {
      && (forall k :: 0 <= k < |events| ==> events[k].instanceId == id && events[k].tenantId == tenant)
      && guard && |Stream(id)| == expected
      && Folding(Stream(id) + events).Ok? && Folding(Stream(id) + events).value.tenantId == tenant
    }

    /** The writes of a transaction whose checks have passed. */
    method Install(id: string, evs: seq<Event>, events: seq<Event>, snap: Snapshot, rewrite: bool, row: IndexRow)
      requires AllFaithful(streams[id := evs], snapshots[id := snap], index[id := row])
      requires !rewrite ==> id in snapshots && snapshots[id] == snap
      modifies this
      ensures Valid() && streams == old(streams)[id := evs] && snapshots == old(snapshots)[id := snap]
              && index == old(index)[id := row]
      ensures escalations == ProjectRows(old(escalations), events)
    {
      var rows := ProjectEscalations(escalations, events);
      assert !rewrite ==> snapshots == snapshots[id := snap];
      streams, index, escalations := streams[id := evs], index[id := row], rows;
      if rewrite { snapshots := snapshots[id := snap]; }
    }

    /** One transaction. It either appends the whole batch and refreshes every read model, or changes
        nothing, except that an empty batch refreshes the wakeup before it fails; streams of other
        instances never change. */
    method Commit(id: string, tenant: string, events: seq<Event>, expected: nat, guard: bool, wakeup: Option<Time>)
      returns (r: Result<nat, StoreError>)
      requires Valid()
      modifies this
      ensures Valid()
      ensures r.Ok? <==> old(Takes(id, tenant, events, expected, guard)) && events != []
      ensures r.Ok? ==> streams == old(streams)[id := old(Stream(id)) + events] && r.value == expected + |events|
      ensures r.Ok? ==> escalations == ProjectRows(old(escalations), events)
      ensures r.Ok? ==> index == old(index)[id := IndexOf(Folding(Stream(id)).value, wakeup)]
      ensures r.Ok? ==> Folding(Stream(id)).Ok? && Shows(index[id], Folding(Stream(id)).value, wakeup)
      ensures r.Err? ==> streams == old(streams) && escalations == old(escalations) && snapshots == old(snapshots)
      ensures r.Err? && r.error != EmptyBatch ==> index == old(index)
      ensures r.Ok? && old(RowsOk(streams, escalations)) && FreshBatch(old(escalations), events) ==>
                RowsOk(streams, escalations)
    {
      if exists k :: 0 <= k < |events| && (events[k].instanceId != id || events[k].tenantId != tenant) {
        return Err(Mismatch);
      }
      if !guard { return Err(LostLease); }
      var evs, snap := Stream(id) + events, Find(snapshots, id);
      if |Stream(id)| != expected { return Err(Conflict); }
      ProjectionOf(streams, snapshots, index, id, events);
      var projected := Project(evs, snap, tenant, None);
      if projected.Err? { return Err(projected.error); }
      var i := projected.value;
      CommitSound(streams, snapshots, index, id, events, i, wakeup);
      var row := Upsert(Find(index, id), i, wakeup);
      if RowsOk(streams, escalations) && FreshBatch(escalations, events) {
        RowsStayOk(streams, escalations, id, events);
      }
      if events == [] { EmptyChangesNothing(streams, snapshots, index, id, i); }
      Install(id, evs, events, NewSnapshot(snap, i), snap.None? || ShouldSnapshot(snap.value.version, i.version), row);
      if events == [] { return Err(EmptyBatch); }
      return Ok(expected + |events|);
    }

    /** `append`: pre-numbered events; an empty list is answered without a transaction. */
    method Append(id: string, tenant: string, events: seq<Event>, expected: nat, guard: bool, wakeup: Option<Time>)
      returns (r: Result<nat, StoreError>)
      requires Valid()
      modifies this
      ensures Valid()
      ensures events == [] ==> r == Ok(expected)
      ensures events != [] ==> (r.Ok? <==> old(Takes(id, tenant, events, expected, guard)))
      ensures streams == if r.Ok? && events != [] then old(streams)[id := old(Stream(id)) + events] else old(streams)
      ensures r.Ok? ==> r.value == expected + |events|
    {
      if events == [] { return Ok(expected); }
      if exists k :: 0 <= k < |events| && events[k].sequence != expected + k + 1 {
        if Takes(id, tenant, events, expected, guard) { TakenAreNumbered(Stream(id), events); }
        return Err(Rejected(StreamError));
      }
      r := Commit(id, tenant, events, expected, guard, wakeup);
    }

    /** `append_new`: numbers the drafts from the expected version on. On an existing instance a batch is
        taken exactly when nobody else appended, the guard passed and the batch replays on the projection. */
    method AppendNew(id: string, tenant: string, drafts: seq<Draft>, expected: nat, guard: bool, wakeup: Option<Time>)
      returns (r: Result<(nat, seq<Event>), StoreError>)
      requires Valid()
      modifies this
      ensures Valid()
      ensures r.Ok? <==> old(Takes(id, tenant, Numbered(id, tenant, expected, drafts), expected, guard)) && drafts != []
      ensures r.Ok? ==> r.value.0 == expected + |drafts| && r.value.1 == Numbered(id, tenant, expected, drafts)
      ensures r.Ok? ==> streams == old(streams)[id := old(Stream(id)) + r.value.1]
      ensures r.Err? ==> streams == old(streams) && escalations == old(escalations) && snapshots == old(snapshots)
      ensures r.Ok? ==> escalations == ProjectRows(old(escalations), r.value.1)
    {
      var events := Numbered(id, tenant, expected, drafts);
      var c := Commit(id, tenant, events, expected, guard, wakeup);
      if c.Err? { return Err(c.error); }
      return Ok((c.value, events));
    }

    /** `get_instance`: the snapshot and a tail of fewer than 50 events give the fold of the whole stream, up
        to default entries of defined steps when a definition is given. */
    method GetInstance(id: string, tenant: string, defn: Option<Definition>) returns (r: Option<Instance>)
      requires Valid()
      ensures r.Some? <==> id in streams && index[id].tenantId == tenant
      ensures r.Some? ==> FoldFrom(defn, None, streams[id]) == Ok(Filled(defn, r.value)) && r.value.tenantId == tenant
      ensures r.Some? && defn.None? ==> Folding(streams[id]) == Ok(r.value)
    {
      FoundIsFaithful(streams, snapshots, index, id);
      ProjectionOf(streams, snapshots, index, id, []);
      assert Stream(id) + [] == Stream(id);
      if id in streams { ReadIsFold(streams[id], snapshots[id], defn); }
      var p := Project(Stream(id), Find(snapshots, id), tenant, defn);
      return if p.Ok? then Some(p.value) else None;
    }

    /** `state_at`: the events up to a version, folded from the start; it never fails on a stored stream. */
    method StateAt(id: string, tenant: string, version: int, defn: Option<Definition>) returns (r: Option<Instance>)
      requires Valid()
      ensures r.Some? <==> id in streams && index[id].tenantId == tenant && version >= 1
      ensures r.Some? ==> FoldFrom(defn, None, streams[id][..UpTo(streams[id], version)]) == Ok(r.value)
    {
      if id !in streams { return None; }
      var evs := streams[id];
      FoundIsFaithful(streams, snapshots, index, id);
      FoldedIsContiguous(evs);
      var picked := Pick(evs, index[id].tenantId, tenant, version);
      if picked == [] { return None; }
      PrefixFolds(defn, evs, UpTo(evs, version));
      var folded := FoldEvents(defn, None, picked);
      return Some(folded.value);
    }
  }
}
