/** The store's streams and transactions are the protocol's log and commits. */
module Refinement {
  import opened Domain
  import opened Events
  import opened Fold
  import opened FoldLaws
  import opened EventStore
  import opened Protocol

  /** The rows the store keeps for a protocol log. */
  function StreamOf(w: World, log: seq<Draft>): seq<Event> {
    Numbered(w.instanceId, w.tenantId, 0, log)
  }

  predicate Opens(w: World, x: Draft) {
    x.body.InstanceCreated? && x.body.workflowId == w.workflowId && x.body.workflowVersion == w.workflowVersion
  }

  /** Folding the stored stream is projecting the protocol's log. */
  lemma StreamIsLog(w: World, log: seq<Draft>)
    requires log != [] && Opens(w, log[0])
    ensures Folding(StreamOf(w, log)) == Raw(w, log)
  {
    var evs := StreamOf(w, log);
    var r := Advance(None, Blank(w), log[0]);
    assert FoldOne(None, None, evs[0]) == r;
    assert evs[1..] == Numbered(w.instanceId, w.tenantId, r.value.version, log[1..]);
    NumberedFolds(None, r.value, log[1..], w.instanceId, w.tenantId);
    FoldAllNonEmpty(None, Some(r.value), evs[1..]);
  }

  lemma StreamGrows(w: World, log: seq<Draft>, drafts: seq<Draft>)
    ensures StreamOf(w, log) + Numbered(w.instanceId, w.tenantId, |log|, drafts) == StreamOf(w, log + drafts)
  {
  }

  lemma {:induction false} ReplayTenant(i: Instance, ds: seq<Draft>)
    ensures Replay(None, i, ds).Ok? ==> Replay(None, i, ds).value.tenantId == i.tenantId
    decreases |ds|
  {
    if ds != [] {
      HandleIdentity(i, ds[0].body, ds[0].at);
      var r := Advance(None, i, ds[0]);
      if r.Ok? { ReplayTenant(r.value, ds[1..]); }
    }
  }

  /** The store takes a batch exactly when the protocol's commit does, and then holds the longer log. */
  lemma StoreTakesWhatCommitTakes(store: Store, w: World, st: Sys, author: Author, expected: nat, drafts: seq<Draft>,
                                  wakeup: Option<Time>)
    requires st.log != [] && Opens(w, st.log[0]) && store.Stream(w.instanceId) == StreamOf(w, st.log)
    ensures var batch := Numbered(w.instanceId, w.tenantId, expected, drafts);
            && (store.Takes(w.instanceId, w.tenantId, batch, expected, true)
                <==> Commit(w, st, author, expected, drafts, wakeup).Some?)
            && (Commit(w, st, author, expected, drafts, wakeup).Some? ==>
                  store.Stream(w.instanceId) + batch
                  == StreamOf(w, Commit(w, st, author, expected, drafts, wakeup).value.log))
  {
    if expected == |st.log| {
      StreamGrows(w, st.log, drafts);
      StreamIsLog(w, st.log + drafts);
      ReplayTenant(Blank(w), st.log + drafts);
    }
  }
}
