/** Laws of the fold: splitting, numbering, independence of the definition, cost. */
module FoldLaws {
  import opened Domain
  import opened Events
  import opened Fold

  // --- splitting -----------------------------------------------------

  lemma {:induction false} FoldAllConcat(defn: Option<Definition>, o: Option<Instance>, a: seq<Event>, b: seq<Event>)
    ensures FoldAll(defn, o, a + b)
            == var r := FoldAll(defn, o, a);
               if r.Err? then r else FoldAll(defn, r.value, b)
    decreases |a|
  {
    if a == [] {
      assert a + b == b;
    } else {
      var r := FoldOne(defn, o, a[0]);
      assert (a + b)[1..] == a[1..] + b;
      if r.Ok? { FoldAllConcat(defn, Some(r.value), a[1..], b); }
    }
  }

  /** Folding a stream equals folding its tail over the folded head, for every split,
      with the same verdict and the same error. */
  lemma FoldSplit(defn: Option<Definition>, base: Option<Instance>, a: seq<Event>, b: seq<Event>)
    requires base.Some? || a != []
    ensures FoldFrom(defn, base, a + b)
            == var r := FoldFrom(defn, base, a);
               if r.Err? then r else FoldFrom(defn, Some(r.value), b)
  {
    FoldAllConcat(defn, base, a, b);
    if a != [] { FoldAllNonEmpty(defn, base, a); }
  }

  lemma {:induction false} FoldAllNonEmpty(defn: Option<Definition>, o: Option<Instance>, a: seq<Event>)
    requires o.Some? || a != []
    ensures FoldAll(defn, o, a).Ok? ==> FoldAll(defn, o, a).value.Some?
    decreases |a|
  {
    if a != [] {
      var r := FoldOne(defn, o, a[0]);
      if r.Ok? { FoldAllNonEmpty(defn, Some(r.value), a[1..]); }
    }
  }

  lemma {:induction false} ReplayConcat(defn: Option<Definition>, i: Instance, a: seq<Draft>, b: seq<Draft>)
    ensures Replay(defn, i, a + b)
            == var r := Replay(defn, i, a);
               if r.Err? then r else Replay(defn, r.value, b)
    decreases |a|
  {
    if a == [] {
      assert a + b == b;
    } else {
      var r := Advance(defn, i, a[0]);
      assert (a + b)[1..] == a[1..] + b;
      if r.Ok? { ReplayConcat(defn, r.value, a[1..], b); }
    }
  }

  lemma ReplayOne(defn: Option<Definition>, i: Instance, d: Draft)
    ensures Replay(defn, i, [d]) == Advance(defn, i, d)
  {
    var r := Advance(defn, i, d);
    if r.Ok? { assert Replay(defn, r.value, [d][1..]) == Ok(r.value); }
  }

  lemma {:induction false} ReplayVersion(defn: Option<Definition>, i: Instance, ds: seq<Draft>)
    ensures Replay(defn, i, ds).Ok? ==> Replay(defn, i, ds).value.version == i.version + |ds|
    decreases |ds|
  {
    if ds != [] {
      var r := Advance(defn, i, ds[0]);
      if r.Ok? { ReplayVersion(defn, r.value, ds[1..]); }
    }
  }

  // --- numbering -------------------------------------------------------

  /** `append_new` gives draft k the sequence `version + k + 1`. */
  function Numbered(instanceId: string, tenantId: string, version: nat, ds: seq<Draft>): (evs: seq<Event>)
    ensures |evs| == |ds|
    ensures forall k :: 0 <= k < |ds| ==> evs[k] == Event(instanceId, tenantId, version + k + 1, ds[k])
  {
    seq(|ds|, k requires 0 <= k < |ds| => Event(instanceId, tenantId, version + k + 1, ds[k]))
  }

  /** On a projection at the right version the numbered batch folds exactly as its drafts replay. */
  lemma {:induction false} NumberedFolds(defn: Option<Definition>, i: Instance, ds: seq<Draft>, inst: string,
                                         tenant: string)
    ensures FoldFrom(defn, Some(i), Numbered(inst, tenant, i.version, ds)) == Replay(defn, i, ds)
    decreases |ds|
  {
    var evs := Numbered(inst, tenant, i.version, ds);
    if ds != [] {
      var r := Advance(defn, i, ds[0]);
      assert FoldOne(defn, Some(i), evs[0]) == r;
      if r.Ok? {
        assert evs[1..] == Numbered(inst, tenant, r.value.version, ds[1..]);
        NumberedFolds(defn, r.value, ds[1..], inst, tenant);
      }
    }
  }

  // --- independence of the definition -----------------------------------

  lemma SeedStep(d: Definition, i: Instance, s: StepId)
    ensures Seeded(d, i).Step(s) == i.Step(s)
  {
  }

  lemma SeedPut(d: Definition, i: Instance, s: StepId, st: StepState)
    ensures Seeded(d, Put(i, s, st)) == Put(Seeded(d, i), s, st)
  {
    assert SeedSteps(d, i.steps[s := st]) == SeedSteps(d, i.steps)[s := st];
  }

  lemma SeedIdempotent(d: Definition, i: Instance)
    ensures Seeded(d, Seeded(d, i)) == Seeded(d, i)
    ensures i.Covers(d) ==> Seeded(d, i) == i
  {
    assert SeedSteps(d, SeedSteps(d, i.steps)) == SeedSteps(d, i.steps);
    if i.Covers(d) { assert SeedSteps(d, i.steps) == i.steps; }
  }

  /** Seeding first and handling an event with the definition equals handling it without
      the definition and seeding afterwards; both reject together. */
  lemma HandleSeeded(d: Definition, i: Instance, b: EventBody, at: Time)
    ensures Handle(Some(d), Seeded(d, i), b, at)
            == var r := Handle(None, i, b, at);
               if r.Err? then r else Ok(Seeded(d, r.value))
  {
    OnInstanceLocal(i, b, at, SeedSteps(d, i.steps));
    if OnInstance(i, b, at).Ok? { AfterInstance(d, i, OnInstance(i, b, at).value, b, at); }
  }

  /** The step half of `HandleSeeded`. */
  lemma AfterInstance(d: Definition, i: Instance, m: Instance, b: EventBody, at: Time)
    requires m.steps == i.steps
    ensures b.InstanceCreated? ==> Seeded(d, m.(steps := SeedSteps(d, i.steps))) == Seeded(d, m)
    ensures Touched(b).Some? && OnStep(i.Step(Touched(b).value), b, at).Ok? ==>
              var s, st := Touched(b).value, OnStep(i.Step(Touched(b).value), b, at).value;
              Put(m.(steps := SeedSteps(d, i.steps)), s, st) == Seeded(d, Put(m, s, st))
              && Seeded(d, i).Step(s) == i.Step(s)
  {
    SeedIdempotent(d, m);
    if Touched(b).Some? && OnStep(i.Step(Touched(b).value), b, at).Ok? {
      SeedPut(d, m, Touched(b).value, OnStep(i.Step(Touched(b).value), b, at).value);
    }
  }

  /** Outside the step it names, an event neither reads nor changes step entries. */
  lemma OnInstanceLocal(i: Instance, b: EventBody, at: Time, steps: map<StepId, StepState>)
    ensures OnInstance(i.(steps := steps), b, at)
            == var r := OnInstance(i, b, at);
               if r.Err? then r else Ok(r.value.(steps := steps))
    ensures OnInstance(i, b, at).Ok? ==> OnInstance(i, b, at).value.steps == i.steps
  {
    OnInstanceKeeps(i, b, at);
  }

  lemma OnInstanceKeeps(i: Instance, b: EventBody, at: Time)
    ensures OnInstance(i, b, at).Ok? ==> OnInstance(i, b, at).value.steps == i.steps
  {
  }

  lemma {:induction false} ReplaySeeded(d: Definition, i: Instance, ds: seq<Draft>)
    ensures Replay(Some(d), Seeded(d, i), ds)
            == var r := Replay(None, i, ds);
               if r.Err? then r else Ok(Seeded(d, r.value))
    decreases |ds|
  {
    if ds != [] {
      HandleSeeded(d, i, ds[0].body, ds[0].at);
      var r := Advance(None, i, ds[0]);
      if r.Ok? { ReplaySeeded(d, r.value, ds[1..]); }
    }
  }

  lemma FoldOneSeeded(d: Definition, i: Instance, ev: Event)
    ensures FoldOne(Some(d), Some(Seeded(d, i)), ev)
            == var r := FoldOne(None, Some(i), ev);
               if r.Err? then r else Ok(Seeded(d, r.value))
  {
    HandleSeeded(d, i, ev.draft.body, ev.draft.at);
  }

  lemma {:induction false} FoldAllSeeded(d: Definition, i: Instance, evs: seq<Event>)
    ensures FoldAll(Some(d), Some(Seeded(d, i)), evs)
            == var r := FoldAll(None, Some(i), evs);
               if r.Err? then r else if r.value.None? then r else Ok(Some(Seeded(d, r.value.value)))
    decreases |evs|
  {
    if evs != [] {
      FoldOneSeeded(d, i, evs[0]);
      var r := FoldOne(None, Some(i), evs[0]);
      if r.Ok? { FoldAllSeeded(d, r.value, evs[1..]); }
    }
  }

  /** Folding a whole stream with a definition accepts exactly the streams folding without
      one accepts, and adds only the default entries of defined steps no event touched. */
  lemma FoldDefinitionIndependent(d: Definition, evs: seq<Event>)
    ensures FoldFrom(Some(d), None, evs)
            == var r := FoldFrom(None, None, evs);
               if r.Err? then r else Ok(Seeded(d, r.value))
    ensures FoldFrom(None, None, evs).Ok? ==> FoldFrom(None, None, evs).value.steps.Keys == MentionedBy(evs)
  {
    if evs != [] {
      var r := FoldOne(None, None, evs[0]);
      if r.Ok? {
        assert FoldOne(Some(d), None, evs[0]) == Ok(Seeded(d, r.value));
        FoldAllSeeded(d, r.value, evs[1..]);
        FoldAllNonEmpty(None, Some(r.value), evs[1..]);
        FoldAllKeys(r.value, evs[1..]);
      }
    }
  }

  /** Two projections that differ at most in default entries of defined steps. */
  ghost predicate Alike(d: Definition, i: Instance, j: Instance) {
    Seeded(d, i) == Seeded(d, j)
  }

  /** An event treats alike projections alike, whether or not the definition is known. */
  lemma HandleAlike(d: Definition, i: Instance, j: Instance, b: EventBody, at: Time)
    requires Alike(d, i, j)
    ensures var x, y := Handle(None, i, b, at), Handle(Some(d), j, b, at);
            if x.Err? then y == x else y.Ok? && Alike(d, x.value, y.value)
  {
    HandleSeeded(d, i, b, at);
    HandleSeeded(d, j, b, at);
    HandleWith(d, j, b, at);
  }

  /** Knowing the definition adds at most default entries. */
  lemma HandleWith(d: Definition, i: Instance, b: EventBody, at: Time)
    ensures var x, y := Handle(None, i, b, at), Handle(Some(d), i, b, at);
            if x.Err? then y == x else y.Ok? && Alike(d, x.value, y.value)
  {
    var m := OnInstance(i, b, at);
    if b.InstanceCreated? && m.Ok? { SeedIdempotent(d, m.value); }
  }

  lemma RestampAlike(d: Definition, i: Instance, j: Instance, at: Time, v: nat)
    requires Alike(d, i, j)
    ensures Alike(d, i.(updatedAt := Some(at), version := v), j.(updatedAt := Some(at), version := v))
  {
    assert Seeded(d, i).(updatedAt := Some(at), version := v) == Seeded(d, i.(updatedAt := Some(at), version := v));
    assert Seeded(d, j).(updatedAt := Some(at), version := v) == Seeded(d, j.(updatedAt := Some(at), version := v));
  }

  /** Folding the rest of a stream over a projection made without the definition accepts what it would
      accept otherwise, and differs at most in default entries. */
  lemma {:induction false} FoldAllAlike(d: Definition, i: Instance, j: Instance, evs: seq<Event>)
    requires Alike(d, i, j)
    ensures var x, y := FoldAll(None, Some(i), evs), FoldAll(Some(d), Some(j), evs);
            if x.Err? then y == x
            else y.Ok? && x.value.Some? && y.value.Some? && Alike(d, x.value.value, y.value.value)
    decreases |evs|
  {
    if evs != [] {
      assert Seeded(d, i).version == Seeded(d, j).version;
      var x := evs[0].draft;
      HandleAlike(d, i, j, x.body, x.at);
      var k, l := Handle(None, i, x.body, x.at), Handle(Some(d), j, x.body, x.at);
      if k.Ok? {
        RestampAlike(d, k.value, l.value, x.at, i.version + 1);
        if evs[0].sequence == i.version + 1 {
          FoldAllAlike(d, FoldOne(None, Some(i), evs[0]).value, FoldOne(Some(d), Some(j), evs[0]).value, evs[1..]);
        }
      }
    }
  }

  function MentionedBy(evs: seq<Event>): set<StepId> {
    if evs == [] then {}
    else (if Touched(evs[0].draft.body).Some? then {Touched(evs[0].draft.body).value} else {}) + MentionedBy(evs[1..])
  }

  lemma HandleKeys(i: Instance, b: EventBody, at: Time)
    ensures var r := Handle(None, i, b, at);
            r.Ok? ==> r.value.steps.Keys == i.steps.Keys + if Touched(b).Some? then {Touched(b).value} else {}
  {
    OnInstanceLocal(i, b, at, i.steps);
  }

  lemma {:induction false} FoldAllKeys(i: Instance, evs: seq<Event>)
    ensures var r := FoldAll(None, Some(i), evs);
            r.Ok? && r.value.Some? ==> r.value.value.steps.Keys == i.steps.Keys + MentionedBy(evs)
    decreases |evs|
  {
    if evs != [] {
      HandleKeys(i, evs[0].draft.body, evs[0].draft.at);
      var r := FoldOne(None, Some(i), evs[0]);
      if r.Ok? { FoldAllKeys(r.value, evs[1..]); }
    }
  }

  // --- status events -----------------------------------------------------

  /** From where an instance may enter a status. */
  function WorkflowSources(to: WorkflowStatus): set<WorkflowStatus> {
    match to
    case WfPending => {}
    case WfRunning => {WfPending, WfPaused, WfWaiting, WfRetrying, WfFailed, WfDeadLettered}
    case WfPaused => {WfPending, WfRunning}
    case WfWaiting => {WfRunning}
    case WfRetrying => {WfRunning, WfFailed}
    case WfFailed => {WfPending, WfRunning, WfRetrying, WfPaused, WfWaiting}
    case WfDeadLettered => {WfRunning, WfRetrying, WfWaiting, WfFailed}
    case WfCompleted => {WfRunning}
    case WfRolledBack => {WfPending, WfRunning, WfPaused, WfWaiting, WfFailed}
  }

  /** From where a step may enter a status. */
  function StepSources(to: StepStatus): set<StepStatus> {
    match to
    case Pending => {}
    case Ready => {Pending, Running, Waiting, Failed}
    case Running => {Ready, Waiting, Failed}
    case Waiting => {Ready, Running, Failed, Completed}
    case Completed => {Running, Waiting}
    case Failed => {Running, Waiting}
    case Skipped => {Pending, Ready, Waiting, Failed}
    case Compensated => {Failed, Completed}
  }

  lemma WorkflowTransposed(frm: WorkflowStatus, to: WorkflowStatus)
    ensures WorkflowTransitionAllowed(frm, to) <==> frm in WorkflowSources(to)
  {
  }

  lemma StepTransposed(frm: StepStatus, to: StepStatus)
    ensures StepTransitionAllowed(frm, to) <==> frm == to || frm in StepSources(to)
  {
  }

  lemma WorkflowEvent(defn: Option<Definition>, i: Instance, at: Time, frm: WorkflowStatus, to: WorkflowStatus)
    ensures Advance(defn, i, Draft(InstanceStatusChanged(frm, to), at)).Ok?
            <==> frm == i.status && (frm == to || WorkflowTransitionAllowed(frm, to))
  {
  }

  lemma StepEvent(defn: Option<Definition>, i: Instance, at: Time, s: StepId, frm: StepStatus, to: StepStatus)
    ensures Advance(defn, i, Draft(StepStatusChanged(s, frm, to), at)).Ok?
            <==> frm == i.Step(s).status && StepTransitionAllowed(frm, to)
  {
  }

  /** A status event is accepted exactly when it names the status it finds and enters the new one from where it may
      be entered, or changes nothing. */
  lemma StatusAcceptedIff(defn: Option<Definition>, i: Instance, at: Time, frm: WorkflowStatus, to: WorkflowStatus,
                          s: StepId, sfrm: StepStatus, sto: StepStatus)
    ensures Advance(defn, i, Draft(InstanceStatusChanged(frm, to), at)).Ok?
            <==> frm == i.status && (frm == to || frm in WorkflowSources(to))
    ensures Advance(defn, i, Draft(StepStatusChanged(s, sfrm, sto), at)).Ok?
            <==> sfrm == i.Step(s).status && (sfrm == sto || sfrm in StepSources(sto))
  {
    WorkflowEvent(defn, i, at, frm, to);
    WorkflowTransposed(frm, to);
    StepEvent(defn, i, at, s, sfrm, sto);
    StepTransposed(sfrm, sto);
  }

  // --- cost -------------------------------------------------------------

  function ChargeOf(b: EventBody): real {
    if b.CostCharged? then b.amount else 0.0
  }

  function TotalCharged(ds: seq<Draft>): real {
    if ds == [] then 0.0 else ChargeOf(ds[0].body) + TotalCharged(ds[1..])
  }

  /** The instance's cost moves by exactly the charged amounts, whatever else the stream holds. */
  lemma {:induction false} CostIsSumOfCharges(defn: Option<Definition>, i: Instance, ds: seq<Draft>)
    ensures var r := Replay(defn, i, ds); r.Ok? ==> r.value.cost == i.cost + TotalCharged(ds)
    decreases |ds|
  {
    if ds != [] {
      var r := Advance(defn, i, ds[0]);
      if r.Ok? {
        OnInstanceCost(i, ds[0].body, ds[0].at);
        CostIsSumOfCharges(defn, r.value, ds[1..]);
      }
    }
  }

  lemma OnInstanceCost(i: Instance, b: EventBody, at: Time)
    ensures var r := OnInstance(i, b, at); r.Ok? ==> r.value.cost == i.cost + ChargeOf(b)
  {
  }
}
