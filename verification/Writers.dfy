/** The unguarded writers against the store: the operator's bounded retry loop
    (src/agentforge/core/control.py) and the sweep over expired escalations (src/agentforge/core/escalation.py). */
module Writers {
  import opened Domain
  import opened Events
  import opened Fold
  import opened FoldLaws
  import opened Driver
  import opened Operators
  import opened EventStore

  const RETRIES: nat := 5

  datatype Applied = Applied(version: nat) | Unneeded | NotFound | Forbidden | GaveUp

  /** An allowed transition replays on the instance it was decided on. */
  lemma AllowedReplays(i: Instance, q: Request, now: Time)
    requires Control(i, q, now).Write?
    ensures Replay(None, i, [Control(i, q, now).draft]).Ok?
    ensures Replay(None, i, [Control(i, q, now).draft]).value.status == Target(q)
    ensures Replay(None, i, [Control(i, q, now).draft]).value.tenantId == i.tenantId
  {
    ReplayOne(None, i, Control(i, q, now).draft);
  }

  /** What a rival writes between the operator's read and its append. */
  method Rival(store: Store, id: string, tenant: string, batch: seq<Event>)
    requires store.Valid()
    modifies store
    ensures store.Valid() && old(store.Stream(id)) <= store.Stream(id)
    ensures store.streams.Keys >= old(store.streams.Keys)
    ensures batch == [] ==> store.streams == old(store.streams)
  {
    if batch != [] {
      var expected := |store.Stream(id)|;
      var r := store.Commit(id, tenant, batch, expected, true, None);
    }
  }

  /** The stream ends with the operator's transition, allowed where it stands, and folds to its target. */
  ghost predicate Concludes(evs: seq<Event>, version: nat, q: Request) {
    && |evs| == version >= 2 && Folding(evs).Ok? && Folding(evs).value.status == Target(q)
    && evs[version - 1].draft.body.InstanceStatusChanged? && evs[version - 1].draft.body.wfTo == Target(q)
    && WorkflowTransitionAllowed(evs[version - 1].draft.body.wfFrom, Target(q))
  }

  /** Appended to the stream it was decided on, the transition is taken and concludes the stream. */
  lemma AppliedConcludes(evs: seq<Event>, i: Instance, q: Request, now: Time, id: string, tenant: string)
    requires Folding(evs) == Ok(i) && i.tenantId == tenant && Control(i, q, now).Write?
    ensures i.version == |evs|
    ensures var batch := Numbered(id, tenant, |evs|, [Control(i, q, now).draft]);
            Folding(evs + batch).Ok? && Folding(evs + batch).value.tenantId == tenant
            && Concludes(evs + batch, |evs| + 1, q)
  {
    FoldedIsContiguous(evs);
    AllowedReplays(i, q, now);
    AppendReplays(evs, id, tenant, [Control(i, q, now).draft]);
  }

  /** One try: read, check, and append at the version read while a rival may get in between. */
  method Try(store: Store, id: string, tenant: string, q: Request, now: Time, rival: seq<Event>)
    returns (r: Option<Applied>)
    requires store.Valid()
    modifies store
    ensures store.Valid() && old(store.Stream(id)) <= store.Stream(id) && old(store.streams.Keys) <= store.streams.Keys
    ensures r.None? ==> |store.Stream(id)| > |old(store.Stream(id))|
    ensures r.Some? ==> !r.value.GaveUp?
    ensures r.Some? && r.value.Applied? ==> Concludes(store.Stream(id), r.value.version, q)
    ensures r == Some(NotFound) ==> id !in store.streams || store.index[id].tenantId != tenant
    ensures r.Some? && !r.value.Applied? ==> store.streams == old(store.streams)
  {
    var read := store.GetInstance(id, tenant, None);
    if read.None? { return Some(NotFound); }
    var i := read.value;
    var answer := Control(i, q, now);
    if answer.AlreadyThere? { return Some(Unneeded); }
    if answer.Refused? { return Some(Forbidden); }
    r := Apply(store, id, tenant, q, now, rival, i);
  }

  /** The append of a request that was checked against the stream's own projection. */
  method Apply(store: Store, id: string, tenant: string, q: Request, now: Time, rival: seq<Event>, i: Instance)
    returns (r: Option<Applied>)
    requires store.Valid() && id in store.streams && Folding(store.streams[id]) == Ok(i) && i.tenantId == tenant
    requires Control(i, q, now).Write?
    modifies store
    ensures store.Valid() && old(store.Stream(id)) <= store.Stream(id) && old(store.streams.Keys) <= store.streams.Keys
    ensures r.None? ==> |store.Stream(id)| > |old(store.Stream(id))|
    ensures r.Some? ==> r.value.Applied? && Concludes(store.Stream(id), r.value.version, q)
  {
    ghost var seen := store.Stream(id);
    AppliedConcludes(seen, i, q, now, id, tenant);
    Rival(store, id, tenant, rival);
    assert |store.Stream(id)| == |seen| ==> store.Stream(id) == seen;
    var c := store.AppendNew(id, tenant, [Control(i, q, now).draft], i.version, true, None);
    if c.Err? { return None; }
    return Some(Applied(c.value.0));
  }

  /** The operator's request. Whatever rivals write, it is applied at most once, to the very state it was
      checked against; it is refused only on that state's own account, and given up only after five lost races. */
  method Transition(store: Store, id: string, tenant: string, q: Request, clock: nat -> Time, rivals: nat -> seq<Event>)
    returns (r: Applied)
    requires store.Valid()
    modifies store
    ensures store.Valid() && old(store.Stream(id)) <= store.Stream(id)
    ensures r.Applied? ==> Concludes(store.Stream(id), r.version, q)
    ensures r.GaveUp? ==> |store.Stream(id)| >= |old(store.Stream(id))| + 5
    ensures r.NotFound? ==> id !in store.streams || store.index[id].tenantId != tenant
  {
    var k := 0;
    while k < RETRIES
      invariant 0 <= k <= RETRIES
      invariant store.Valid() && old(store.Stream(id)) <= store.Stream(id)
      invariant |store.Stream(id)| >= |old(store.Stream(id))| + k
    {
      var tried := Try(store, id, tenant, q, clock(k), rivals(k));
      if tried.Some? { return tried.value; }
      k := k + 1;
    }
    return GaveUp;
  }

  // --- expired escalations ------------------------------------------------------------------------

  datatype Due = Due(escalationId: string, instanceId: string, tenantId: string, stepId: StepId, autoAction: string)

  predicate TouchesNoRow(ev: Event) {
    !ev.draft.body.EscalationRaised? && !ev.draft.body.EscalationResolved? && !ev.draft.body.EscalationTimedOut?
  }

  lemma {:induction false} QuietRows(rows: Rows, evs: seq<Event>)
    requires forall k :: 0 <= k < |evs| ==> TouchesNoRow(evs[k])
    ensures ProjectRows(rows, evs) == rows
    decreases |evs|
  {
    if evs != [] {
      assert TouchesNoRow(evs[0]);
      QuietRows(rows, evs[1..]);
    }
  }

  function Closed(rows: Rows, e: string): Rows {
    if e in rows then rows[e := rows[e].(status := RowTimedOut)] else rows
  }

  /** A timeout closes its own row and no other. */
  lemma TimeoutClosesItsRow(rows: Rows, i: Instance, due: Due, now: Time)
    ensures var drafts := DecisionDrafts(i, due.escalationId, due.stepId, TimedOut(due.autoAction), now);
            && drafts != []
            && ProjectRows(rows, Numbered(due.instanceId, due.tenantId, i.version, drafts))
               == Closed(rows, due.escalationId)
  {
    var drafts := DecisionDrafts(i, due.escalationId, due.stepId, TimedOut(due.autoAction), now);
    var evs := Numbered(due.instanceId, due.tenantId, i.version, drafts);
    assert drafts[1..] == TransitionDrafts(i, due.stepId, AutoAction(due.autoAction), now);
    forall k | 0 <= k < |evs[1..]| ensures TouchesNoRow(evs[1..][k]) {
      assert evs[1..][k].draft == drafts[1..][k];
    }
    QuietRows(ProjectRow(rows, evs[0]), evs[1..]);
  }

  ghost predicate OnlyGrew(was: map<string, seq<Event>>, now: map<string, seq<Event>>) {
    forall id :: id in was ==> id in now && was[id] <= now[id]
  }

  /** One due row: skipped unless the instance is waiting; a refused batch leaves the store alone. */
  method ExpireOne(store: Store, due: Due, now: Time) returns (fired: bool)
    requires store.Valid()
    modifies store
    ensures store.Valid() && OnlyGrew(old(store.streams), store.streams)
    ensures store.escalations == if fired then Closed(old(store.escalations), due.escalationId)
                                 else old(store.escalations)
    ensures !fired ==> store.streams == old(store.streams)
    ensures fired ==> due.instanceId in old(store.streams)
                      && store.streams == old(store.streams)[due.instanceId := store.streams[due.instanceId]]
  {
    var read := store.GetInstance(due.instanceId, due.tenantId, None);
    if read.None? || read.value.status != WfWaiting { return false; }
    var i := read.value;
    var drafts := DecisionDrafts(i, due.escalationId, due.stepId, TimedOut(due.autoAction), now);
    TimeoutClosesItsRow(store.escalations, i, due, now);
    var r := store.AppendNew(due.instanceId, due.tenantId, drafts, i.version, true, None);
    return r.Ok?;
  }

  /** The sweep: streams only grow, each fired escalation's row ends as timed out, no other row changes. */
  method ExpireDue(store: Store, rows: seq<Due>, now: Time) returns (fired: seq<string>)
    requires store.Valid()
    modifies store
    ensures store.Valid() && OnlyGrew(old(store.streams), store.streams)
    ensures store.escalations.Keys == old(store.escalations.Keys)
    ensures forall e :: e in store.escalations ==>
              store.escalations[e] == if e in fired then old(store.escalations)[e].(status := RowTimedOut)
                                      else old(store.escalations)[e]
    ensures forall e :: e in fired ==> exists k :: 0 <= k < |rows| && rows[k].escalationId == e
  {
    fired := [];
    var k := 0;
    while k < |rows|
      invariant 0 <= k <= |rows|
      invariant store.Valid() && OnlyGrew(old(store.streams), store.streams)
      invariant store.escalations.Keys == old(store.escalations.Keys)
      invariant forall e :: e in store.escalations ==>
                  store.escalations[e] == if e in fired then old(store.escalations)[e].(status := RowTimedOut)
                                          else old(store.escalations)[e]
      invariant forall e :: e in fired ==> exists j :: 0 <= j < k && rows[j].escalationId == e
    {
      var ok := ExpireOne(store, rows[k], now);
      if ok { fired := fired + [rows[k].escalationId]; }
      k := k + 1;
    }
  }
}
