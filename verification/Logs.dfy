/** Good logs: an opening event followed by legal ones. Their projections, prefixes and extensions. */
module Logs {
  import opened Domain
  import opened Events
  import opened Fold
  import opened FoldLaws
  import opened Planner
  import opened Driver
  import opened Legality
  import opened Batches
  import opened Phases
  import opened History
  import opened Leasing
  import opened Protocol

  // --- the opening event ------------------------------------------------------------

  function Genesis(w: World, x: Draft): Instance
    requires x.body.InstanceCreated?
  {
    Advance(Some(w.def), Blank(w), x).value
  }

  lemma GenesisShape(w: World, x: Draft)
    requires x.body.InstanceCreated?
    ensures var i := Genesis(w, x);
            && i.steps == SeedSteps(w.def, map[]) && i.version == 1 && i.cost == 0.0 && i.budgetLimit == x.body.budget
            && i.escalations == [] && i.status == WfPending
  {
  }

  /** A new instance satisfies every invariant. */
  lemma GenesisInv(w: World, x: Draft)
    requires Valid(w.def) && x.body.InstanceCreated?
    ensures Inv(w.def, Genesis(w, x)) && Boundary(w.def, Genesis(w, x))
    ensures forall s :: Genesis(w, x).Step(s) == UNTOUCHED && !Escalated(Genesis(w, x), s)
  {
    GenesisShape(w, x);
    Untouched(w.def, Genesis(w, x));
  }

  lemma Untouched(d: Definition, i: Instance)
    requires i.steps == SeedSteps(d, map[]) && i.escalations == [] && i.status == WfPending
    ensures Inv(d, i) && Boundary(d, i) && forall s :: i.Step(s) == UNTOUCHED && !Escalated(i, s)
  {
    assert forall s :: i.Step(s) == UNTOUCHED;
    assert i.RunningSteps() == {};
    forall k | 0 <= k < |d.steps| ensures StepInv(d, i, d.steps[k]) {
      assert !i.Open(d.steps[k].stepId);
    }
  }

  // --- good logs ------------------------------------------------------------------

  ghost predicate GoodLog(w: World, log: seq<Draft>) {
    |log| >= 1 && log[0].body.InstanceCreated? && AllLegal(w.def, Genesis(w, log[0]), log[1..])
  }

  /** The log is good and `i` is its projection. */
  ghost predicate At(w: World, log: seq<Draft>, i: Instance) {
    GoodLog(w, log) && Canon(w, log) == Ok(i)
  }

  lemma CanonFromGenesis(w: World, log: seq<Draft>)
    requires |log| >= 1 && log[0].body.InstanceCreated?
    ensures Canon(w, log) == Replay(Some(w.def), Genesis(w, log[0]), log[1..])
  {
  }

  /** The projection of a good log exists, is numbered by the log's length and keeps every invariant. */
  lemma GoodProjects(w: World, log: seq<Draft>) returns (i: Instance)
    requires Valid(w.def) && GoodLog(w, log)
    ensures At(w, log, i) && Inv(w.def, i) && i.version == |log|
  {
    CanonFromGenesis(w, log);
    GenesisInv(w, log[0]);
    AllLegalKeepsInv(w.def, Genesis(w, log[0]), log[1..]);
    ReplayVersion(Some(w.def), Blank(w), log);
    i := Canon(w, log).value;
  }

  lemma ExtendGood(w: World, log: seq<Draft>, i: Instance, ds: seq<Draft>)
    requires At(w, log, i) && AllLegal(w.def, i, ds)
    ensures GoodLog(w, log + ds)
  {
    CanonFromGenesis(w, log);
    LegalTail(w, Genesis(w, log[0]), log[1..], i, ds);
    TailOf(log, ds);
    GoodFrom(w, log[0], log[1..] + ds, log + ds);
  }

  lemma TailOf(a: seq<Draft>, b: seq<Draft>)
    requires a != []
    ensures a + b != [] && (a + b)[0] == a[0] && (a + b)[1..] == a[1..] + b
  {
  }

  lemma LegalTail(w: World, g: Instance, rest: seq<Draft>, i: Instance, ds: seq<Draft>)
    requires AllLegal(w.def, g, rest) && Replay(Some(w.def), g, rest) == Ok(i) && AllLegal(w.def, i, ds)
    ensures AllLegal(w.def, g, rest + ds)
  {
    AllLegalConcat(w.def, g, rest, ds);
  }

  lemma GoodFrom(w: World, x: Draft, rest: seq<Draft>, log: seq<Draft>)
    requires x.body.InstanceCreated? && log != [] && log[0] == x && log[1..] == rest
             && AllLegal(w.def, Genesis(w, x), rest)
    ensures GoodLog(w, log)
  {
  }

  lemma SplitOf(a: seq<Draft>, b: seq<Draft>, k: nat)
    requires k < |a| + |b|
    ensures k < |a| ==> (a + b)[..k] == a[..k] && (a + b)[k] == a[k]
    ensures k >= |a| ==> (a + b)[..k] == a + b[..k - |a|] && (a + b)[k] == b[k - |a|]
  {
  }

  lemma Extend(w: World, log: seq<Draft>, i: Instance, ds: seq<Draft>, j: Instance)
    requires At(w, log, i) && Lands(w.def, i, ds, j)
    ensures At(w, log + ds, j)
  {
    ExtendGood(w, log, i, ds);
    ReplayConcat(Some(w.def), Blank(w), log, ds);
  }

  lemma PrefixGood(w: World, log: seq<Draft>, v: nat)
    requires GoodLog(w, log) && 1 <= v <= |log|
    ensures GoodLog(w, log[..v])
  {
    PrefixLegal(w.def, Genesis(w, log[0]), log[1..], v - 1);
    assert log[..v][1..] == log[1..][..v - 1];
  }

  /** An event of a good log is legal where it stands. */
  lemma GoodAt(w: World, log: seq<Draft>, k: nat) returns (i: Instance)
    requires Valid(w.def) && GoodLog(w, log) && 1 <= k < |log|
    ensures At(w, log[..k], i) && Inv(w.def, i) && Legal(w.def, i, log[k].body)
  {
    PrefixGood(w, log, k);
    i := GoodProjects(w, log[..k]);
    AllLegalAt(w.def, Genesis(w, log[0]), log[1..], k - 1);
    assert log[..k][1..] == log[1..][..k - 1];
    CanonFromGenesis(w, log[..k]);
  }

  // --- the store's projection ------------------------------------------------------

  /** The store's definition-less projection is the same one, with the untouched steps missing. */
  lemma RawOfCanon(w: World, log: seq<Draft>)
    requires |log| >= 1 && log[0].body.InstanceCreated?
    ensures Canon(w, log) == var r := Raw(w, log); if r.Err? then r else Ok(Seeded(w.def, r.value))
  {
    var x := Advance(None, Blank(w), log[0]);
    assert Advance(Some(w.def), Blank(w), log[0]) == Ok(Seeded(w.def, x.value));
    ReplaySeeded(w.def, x.value, log[1..]);
  }

  /** Every step-level escalation names a step the projection has an entry for. */
  ghost predicate RefsKnown(i: Instance) {
    forall k :: 0 <= k < |i.escalations| && i.escalations[k].stepId != "" ==> i.escalations[k].stepId in i.steps
  }

  lemma {:induction false} RefsStayKnown(i: Instance, ds: seq<Draft>)
    requires RefsKnown(i)
    ensures Replay(None, i, ds).Ok? ==> RefsKnown(Replay(None, i, ds).value)
    decreases |ds|
  {
    if ds != [] {
      var r := Advance(None, i, ds[0]);
      if r.Ok? {
        RefsStep(i, ds[0]);
        RefsStayKnown(r.value, ds[1..]);
      }
    }
  }

  lemma RefsStep(i: Instance, x: Draft)
    requires RefsKnown(i) && Advance(None, i, x).Ok?
    ensures RefsKnown(Advance(None, i, x).value)
  {
    HandleKeys(i, x.body, x.at);
    OnInstanceRefs(i, x.body, x.at);
  }

  lemma OnInstanceRefs(i: Instance, b: EventBody, at: Time)
    requires OnInstance(i, b, at).Ok?
    ensures OnInstance(i, b, at).value.escalations == EscalationsAfter(i, b)
  {
  }

  lemma RefAfter(d: Definition, i: Instance, x: Draft, id: string, s: StepId)
    requires Legal(d, i, x.body) && RefOn(i, id, s)
    ensures Advance(Some(d), i, x).Ok? && RefOn(After(d, i, x), id, s)
  {
    LegalAccepted(d, i, x.body, x.at);
    SameEscalations(d, i, x.body, x.at);
    var k :| 0 <= k < |i.escalations| && i.escalations[k].escalationId == id && i.escalations[k].stepId == s;
    assert After(d, i, x).escalations[k].escalationId == id;
  }

  /** An escalation once raised stays on record. */
  lemma {:induction false} RefPersists(d: Definition, i: Instance, ds: seq<Draft>, j: Instance, id: string, s: StepId)
    requires Lands(d, i, ds, j) && RefOn(i, id, s)
    ensures RefOn(j, id, s)
    decreases |ds|
  {
    if ds != [] {
      RefAfter(d, i, ds[0], id, s);
      RefPersists(d, After(d, i, ds[0]), ds[1..], j, id, s);
    }
  }
}
