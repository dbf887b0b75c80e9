/** What each field of a projection says about the log: who wrote it last, or what it adds up to. */
module Fields {
  import opened Domain
  import opened Events
  import opened Fold
  import opened FoldLaws

  // --- fields with a last writer -------------------------------------------------------------

  datatype Field =
    | Context(key: string)
    | WorkflowState
    | BudgetLimit
    | CreatedAt
    | UpdatedAt
    | FinishedAt
    | StateOf(step: StepId)
    | AttemptsOf(step: StepId)
    | OutputOf(step: StepId)
    | ErrorOf(step: StepId)
    | ModelOf(step: StepId)
    | StartOf(step: StepId)
    | EndOf(step: StepId)
    | RetryOf(step: StepId)

  datatype Value =
    | OfJson(json: Option<Json>)
    | OfWorkflow(workflow: WorkflowStatus)
    | OfMoney(money: Option<real>)
    | OfTime(time: Option<Time>)
    | OfStatus(status: StepStatus)
    | OfCount(count: nat)
    | OfData(data: Option<Data>)
    | OfError(kind: Option<string>, message: Option<string>)
    | OfModel(model: Option<string>)

  function Look(m: Data, key: string): Option<Json> {
    if key in m then Some(m[key]) else None
  }

  function Read(f: Field, i: Instance): Value {
    match f
    case Context(key) => OfJson(Look(i.context, key))
    case WorkflowState => OfWorkflow(i.status)
    case BudgetLimit => OfMoney(i.budgetLimit)
    case CreatedAt => OfTime(i.createdAt)
    case UpdatedAt => OfTime(i.updatedAt)
    case FinishedAt => OfTime(i.completedAt)
    case StateOf(s) => OfStatus(i.Step(s).status)
    case AttemptsOf(s) => OfCount(i.Step(s).attempts)
    case OutputOf(s) => OfData(i.Step(s).output)
    case ErrorOf(s) => OfError(i.Step(s).errorType, i.Step(s).errorMessage)
    case ModelOf(s) => OfModel(i.Step(s).modelUsed)
    case StartOf(s) => OfTime(i.Step(s).startedAt)
    case EndOf(s) => OfTime(i.Step(s).completedAt)
    case RetryOf(s) => OfTime(i.Step(s).nextRetryAt)
  }

  /** What an event writes into the run context: the creator's context, a human's modification, the outputs. */
  function ContextWritten(b: EventBody, key: string): Option<Option<Json>> {
    match b
    case InstanceCreated(_, _, context, _) => Some(Look(context, key))
    case EscalationResolved(_, _, _, modified) => if key in modified then Some(Some(modified[key])) else None
    case InstanceCompleted(outputs) =>
      if key == "_outputs" && outputs != map[] then Some(Some(Dict(outputs))) else None
    case _ => None
  }

  function WorkflowWritten(b: EventBody): Option<WorkflowStatus> {
    match b
    case InstanceStatusChanged(_, to) => Some(to)
    case InstanceCompleted(_) => Some(WfCompleted)
    case InstanceFailed(_, _) => Some(WfFailed)
    case WorkflowRequeued(_) => Some(WfRunning)
    case _ => None
  }

  function FinishWritten(b: EventBody, at: Time): Option<Time> {
    if || (b.InstanceStatusChanged? && (b.wfTo == WfCompleted || b.wfTo == WfRolledBack))
       || b.InstanceCompleted? then Some(at) else None
  }

  function StatusWritten(b: EventBody, s: StepId): Option<StepStatus> {
    match b
    case StepStatusChanged(t, _, to) => if t == s then Some(to) else None
    case StepStarted(t, _, _, _) => if t == s then Some(Running) else None
    case StepCompleted(t, _, _, _) => if t == s then Some(Completed) else None
    case StepFailed(t, _, _, _, _) => if t == s then Some(Failed) else None
    case StepSkipped(t) => if t == s then Some(Skipped) else None
    case StepCompensated(t, _) => if t == s then Some(Compensated) else None
    case EscalationRaised(_, t, _, _, _) => if t == s != "" then Some(Waiting) else None
    case WorkflowRequeued(t) => if t == Some(s) then Some(Ready) else None
    case _ => None
  }

  function ModelWritten(b: EventBody, s: StepId): Option<string> {
    match b
    case StepStarted(t, _, _, model) => if t == s then model else None
    case StepCompleted(t, _, _, model) => if t == s then model else None
    case LLMCallRecorded(t, _, recording) => if t == s then Some(recording.model) else None
    case _ => None
  }

  function RetryWritten(b: EventBody, s: StepId): Option<Option<Time>> {
    match b
    case StepStarted(t, _, _, _) => if t == s then Some(None) else None
    case StepRetryScheduled(t, _, runAt) => if t == s then Some(Some(runAt)) else None
    case WorkflowRequeued(t) => if t == Some(s) then Some(None) else None
    case _ => None
  }

  predicate IsStart(b: EventBody, s: StepId) {
    b.StepStarted? && b.stepId == s
  }

  predicate IsCompletion(b: EventBody, s: StepId) {
    b.StepCompleted? && b.stepId == s
  }

  predicate IsRequeue(b: EventBody, s: StepId) {
    b == WorkflowRequeued(Some(s))
  }

  /** The value an event writes into a field, if it writes it at all. */
  function Written(f: Field, x: Draft): Option<Value> {
    var b := x.body;
    match f
    case Context(key) => if ContextWritten(b, key).Some? then Some(OfJson(ContextWritten(b, key).value)) else None
    case WorkflowState => if WorkflowWritten(b).Some? then Some(OfWorkflow(WorkflowWritten(b).value)) else None
    case BudgetLimit =>
      if b.InstanceCreated? then Some(OfMoney(b.budget))
      else if b.WorkflowBudgetAdjusted? then Some(OfMoney(b.newLimit)) else None
    case CreatedAt => if b.InstanceCreated? then Some(OfTime(Some(x.at))) else None
    case UpdatedAt => Some(OfTime(Some(x.at)))
    case FinishedAt => if FinishWritten(b, x.at).Some? then Some(OfTime(FinishWritten(b, x.at))) else None
    case StateOf(s) => if StatusWritten(b, s).Some? then Some(OfStatus(StatusWritten(b, s).value)) else None
    case AttemptsOf(s) =>
      if IsStart(b, s) then Some(OfCount(b.attempt)) else if IsRequeue(b, s) then Some(OfCount(0)) else None
    case OutputOf(s) => if IsCompletion(b, s) then Some(OfData(Some(b.output))) else None
    case ErrorOf(s) =>
      if b.StepFailed? && b.stepId == s then Some(OfError(Some(b.errorType), Some(b.errorMessage)))
      else if IsRequeue(b, s) then Some(OfError(None, None)) else None
    case ModelOf(s) => if ModelWritten(b, s).Some? then Some(OfModel(ModelWritten(b, s))) else None
    case StartOf(s) => if IsStart(b, s) then Some(OfTime(Some(x.at))) else None
    case EndOf(s) => if IsCompletion(b, s) then Some(OfTime(Some(x.at))) else None
    case RetryOf(s) => if RetryWritten(b, s).Some? then Some(OfTime(RetryWritten(b, s).value)) else None
  }

  // --- one event ------------------------------------------------------------------------------

  predicate OnTheInstance(f: Field) {
    f.Context? || f.WorkflowState? || f.BudgetLimit? || f.CreatedAt? || f.UpdatedAt? || f.FinishedAt?
  }

  function After(f: Field, x: Draft, v: Value): Value {
    if Written(f, x).Some? then Written(f, x).value else v
  }

  /** What an accepted event leaves, split into the instance and the step it names. */
  lemma Parts(defn: Option<Definition>, i: Instance, x: Draft, j: Instance)
    requires Advance(defn, i, x) == Ok(j)
    ensures OnInstance(i, x.body, x.at).Ok?
    ensures var m := OnInstance(i, x.body, x.at).value;
            j == m.(steps := j.steps, updatedAt := Some(x.at), version := i.version + 1) && m.steps == i.steps
    ensures forall s :: Touched(x.body) != Some(s) ==> j.Step(s) == i.Step(s)
    ensures Touched(x.body).Some? && !(x.body.InstanceCreated? && defn.Some?) ==>
              OnStep(i.Step(Touched(x.body).value), x.body, x.at) == Ok(j.Step(Touched(x.body).value))
  {
    OnInstanceKeeps(i, x.body, x.at);
  }

  lemma ContextField(key: string, i: Instance, x: Draft, m: Instance)
    requires OnInstance(i, x.body, x.at) == Ok(m)
    ensures Look(m.context, key)
            == if ContextWritten(x.body, key).Some? then ContextWritten(x.body, key).value else Look(i.context, key)
  {
  }

  lemma InstanceField(f: Field, i: Instance, x: Draft, m: Instance)
    requires OnTheInstance(f) && OnInstance(i, x.body, x.at) == Ok(m) && !f.UpdatedAt?
    ensures Read(f, m) == After(f, x, Read(f, i))
  {
    if f.Context? { ContextField(f.key, i, x, m); }
  }

  lemma StepField(f: Field, i: Instance, x: Draft, j: Instance)
    requires !OnTheInstance(f) && Touched(x.body) == Some(f.step)
    requires OnStep(i.Step(f.step), x.body, x.at) == Ok(j.Step(f.step))
    ensures Read(f, j) == After(f, x, Read(f, i))
  {
  }

  lemma UntouchedField(f: Field, i: Instance, x: Draft, j: Instance)
    requires !OnTheInstance(f) && Touched(x.body) != Some(f.step) && j.Step(f.step) == i.Step(f.step)
    ensures Read(f, j) == After(f, x, Read(f, i))
  {
  }

  /** Every accepted event writes exactly what the table says, and leaves every other field alone. */
  lemma AdvanceWrites(f: Field, defn: Option<Definition>, i: Instance, x: Draft, j: Instance)
    requires Advance(defn, i, x) == Ok(j)
    ensures Read(f, j) == After(f, x, Read(f, i))
  {
    Parts(defn, i, x, j);
    if OnTheInstance(f) {
      if !f.UpdatedAt? { InstanceField(f, i, x, OnInstance(i, x.body, x.at).value); }
    } else if Touched(x.body) == Some(f.step) {
      StepField(f, i, x, j);
    } else {
      UntouchedField(f, i, x, j);
    }
  }

  // --- whole logs -------------------------------------------------------------------------------

  /** Nobody wrote the field and it is as it was, or it holds what its last writer wrote. */
  ghost predicate LastWrote(f: Field, ds: seq<Draft>, was: Value, now: Value) {
    || (now == was && forall k :: 0 <= k < |ds| ==> Written(f, ds[k]).None?)
    || (exists k :: 0 <= k < |ds| && Written(f, ds[k]) == Some(now)
                    && forall l :: k < l < |ds| ==> Written(f, ds[l]).None?)
  }

  lemma LastOfTail(f: Field, ds: seq<Draft>, was: Value, now: Value)
    requires ds != [] && LastWrote(f, ds[1..], After(f, ds[0], was), now)
    ensures LastWrote(f, ds, was, now)
  {
    assert forall k :: 1 <= k < |ds| ==> ds[k] == ds[1..][k - 1];
    if !(forall k :: 0 <= k < |ds[1..]| ==> Written(f, ds[1..][k]).None?) {
      var k :| 0 <= k < |ds[1..]| && Written(f, ds[1..][k]) == Some(now)
               && forall l :: k < l < |ds[1..]| ==> Written(f, ds[1..][l]).None?;
      assert Written(f, ds[k + 1]) == Some(now);
    }
  }

  /** Along any log the fold accepts, every such field holds what its last writer wrote. */
  lemma {:induction false} LastWriterWins(f: Field, defn: Option<Definition>, i: Instance, ds: seq<Draft>, j: Instance)
    requires Replay(defn, i, ds) == Ok(j)
    ensures LastWrote(f, ds, Read(f, i), Read(f, j))
    decreases |ds|
  {
    if ds != [] {
      var m := Advance(defn, i, ds[0]).value;
      AdvanceWrites(f, defn, i, ds[0], m);
      LastWriterWins(f, defn, m, ds[1..], j);
      LastOfTail(f, ds, Read(f, i), Read(f, j));
    }
  }

  /** What a batch leaves in a field, if it writes it at all. */
  function Final(f: Field, ds: seq<Draft>): Option<Value> {
    if ds == [] then None
    else if Written(f, ds[|ds| - 1]).Some? then Written(f, ds[|ds| - 1]) else Final(f, ds[..|ds| - 1])
  }

  function Or(o: Option<Value>, v: Value): Value {
    if o.Some? then o.value else v
  }

  lemma {:induction false} FinalIsLast(f: Field, ds: seq<Draft>, was: Value, now: Value)
    requires LastWrote(f, ds, was, now)
    ensures now == Or(Final(f, ds), was)
    decreases |ds|
  {
    if ds != [] && Written(f, ds[|ds| - 1]).None? {
      var front := ds[..|ds| - 1];
      assert forall k :: 0 <= k < |front| ==> front[k] == ds[k];
      if exists k :: 0 <= k < |ds| && Written(f, ds[k]).Some? {
        var k :| 0 <= k < |ds| && Written(f, ds[k]) == Some(now) && forall l :: k < l < |ds| ==>
                   Written(f, ds[l]).None?;
        assert Written(f, front[k]) == Some(now);
      }
      FinalIsLast(f, front, was, now);
    }
  }

  /** The fold of a batch holds what the batch leaves. */
  lemma ReadsFinal(f: Field, defn: Option<Definition>, i: Instance, ds: seq<Draft>, j: Instance)
    requires Replay(defn, i, ds) == Ok(j)
    ensures Read(f, j) == Or(Final(f, ds), Read(f, i))
  {
    LastWriterWins(f, defn, i, ds, j);
    FinalIsLast(f, ds, Read(f, i), Read(f, j));
  }

  lemma FinalOne(f: Field, x: Draft)
    ensures Final(f, [x]) == Written(f, x)
  {
    assert [x][..0] == [];
  }

  lemma {:induction false} FinalConcat(f: Field, a: seq<Draft>, b: seq<Draft>)
    ensures Final(f, a + b) == if Final(f, b).Some? then Final(f, b) else Final(f, a)
    decreases |b|
  {
    if b == [] {
      assert a + b == a;
    } else {
      assert (a + b)[..|a + b| - 1] == a + b[..|b| - 1];
      FinalConcat(f, a, b[..|b| - 1]);
    }
  }

  // --- fields that add up --------------------------------------------------------------------------

  predicate ChargedTo(b: EventBody, s: StepId) {
    b.CostCharged? && b.charged == Some(s) && s != ""
  }

  function StepCost(ds: seq<Draft>, s: StepId): real {
    if ds == [] then 0.0 else (if ChargedTo(ds[0].body, s) then ds[0].body.amount else 0.0) + StepCost(ds[1..], s)
  }

  function StepTokens(ds: seq<Draft>, s: StepId): Tokens {
    if ds == [] then Tokens(0, 0)
    else
      var rest := StepTokens(ds[1..], s);
      if ChargedTo(ds[0].body, s) then rest.Plus(ds[0].body.tokensIn, ds[0].body.tokensOut) else rest
  }

  function AllTokens(ds: seq<Draft>): Tokens {
    if ds == [] then Tokens(0, 0)
    else
      var rest := AllTokens(ds[1..]);
      if ds[0].body.CostCharged? then rest.Plus(ds[0].body.tokensIn, ds[0].body.tokensOut) else rest
  }

  /** The errors on record: failed steps, a failed instance, a blown budget. */
  function ErrorsIn(x: Draft): seq<ErrorRecord> {
    match x.body
    case StepFailed(s, _, kind, message, _) => [ErrorRecord(Some(s), kind, message, x.at)]
    case InstanceFailed(kind, message) => [ErrorRecord(None, kind, message, x.at)]
    case BudgetExceeded(s, _, _) => [ErrorRecord(Some(s), "BudgetExceededError", "projected > remaining", x.at)]
    case _ => []
  }

  function ErrorsOf(ds: seq<Draft>): seq<ErrorRecord> {
    if ds == [] then [] else ErrorsIn(ds[0]) + ErrorsOf(ds[1..])
  }

  lemma AdvanceAdds(defn: Option<Definition>, i: Instance, x: Draft, j: Instance, s: StepId)
    requires Advance(defn, i, x) == Ok(j)
    ensures j.Step(s).cost == i.Step(s).cost + if ChargedTo(x.body, s) then x.body.amount else 0.0
    ensures j.Step(s).tokens == if ChargedTo(x.body, s) then i.Step(s).tokens.Plus(x.body.tokensIn, x.body.tokensOut)
                                else i.Step(s).tokens
    ensures j.tokens == if x.body.CostCharged? then i.tokens.Plus(x.body.tokensIn, x.body.tokensOut) else i.tokens
    ensures j.errors == i.errors + ErrorsIn(x)
  {
    Parts(defn, i, x, j);
    InstanceAdds(i, x, OnInstance(i, x.body, x.at).value);
  }

  lemma InstanceAdds(i: Instance, x: Draft, m: Instance)
    requires OnInstance(i, x.body, x.at) == Ok(m)
    ensures m.tokens == if x.body.CostCharged? then i.tokens.Plus(x.body.tokensIn, x.body.tokensOut) else i.tokens
    ensures m.errors == i.errors + ErrorsIn(x)
  {
    TokensAfter(i, x, m);
    if ErrorsIn(x) == [] {
      ErrorsStay(i, x, m);
      assert i.errors + [] == i.errors;
    }
  }

  lemma TokensAfter(i: Instance, x: Draft, m: Instance)
    requires OnInstance(i, x.body, x.at) == Ok(m)
    ensures m.tokens == if x.body.CostCharged? then i.tokens.Plus(x.body.tokensIn, x.body.tokensOut) else i.tokens
  {
  }

  lemma ErrorsStay(i: Instance, x: Draft, m: Instance)
    requires OnInstance(i, x.body, x.at) == Ok(m) && ErrorsIn(x) == []
    ensures m.errors == i.errors
  {
  }

  lemma {:induction false} StepBooks(defn: Option<Definition>, i: Instance, ds: seq<Draft>, j: Instance, s: StepId)
    requires Replay(defn, i, ds) == Ok(j)
    ensures j.Step(s).cost == i.Step(s).cost + StepCost(ds, s)
    ensures j.Step(s).tokens == i.Step(s).tokens.Plus(StepTokens(ds, s).input, StepTokens(ds, s).output)
    decreases |ds|
  {
    if ds != [] {
      var m := Advance(defn, i, ds[0]).value;
      AdvanceAdds(defn, i, ds[0], m, s);
      StepBooks(defn, m, ds[1..], j, s);
    }
  }

  lemma {:induction false} InstanceBooks(defn: Option<Definition>, i: Instance, ds: seq<Draft>, j: Instance)
    requires Replay(defn, i, ds) == Ok(j)
    ensures j.tokens == i.tokens.Plus(AllTokens(ds).input, AllTokens(ds).output)
    ensures j.errors == i.errors + ErrorsOf(ds)
    decreases |ds|
  {
    if ds != [] {
      var m := Advance(defn, i, ds[0]).value;
      AdvanceAdds(defn, i, ds[0], m, "");
      InstanceBooks(defn, m, ds[1..], j);
      ErrorsChain(i.errors, ds, m.errors, j.errors);
    }
  }

  lemma ErrorsChain(was: seq<ErrorRecord>, ds: seq<Draft>, mid: seq<ErrorRecord>, now: seq<ErrorRecord>)
    requires ds != [] && mid == was + ErrorsIn(ds[0]) && now == mid + ErrorsOf(ds[1..])
    ensures now == was + ErrorsOf(ds)
  {
    Assoc(was, ErrorsIn(ds[0]), ErrorsOf(ds[1..]));
  }

  lemma Assoc<T>(a: seq<T>, b: seq<T>, c: seq<T>)
    ensures a + b + c == a + (b + c)
  {
  }

  /** Along any log the fold accepts, a step's cost and tokens are what was charged to it, the instance's
      cost and tokens are all that was charged, and the errors are those of the log in order. */
  lemma BooksAddUp(defn: Option<Definition>, i: Instance, ds: seq<Draft>, j: Instance, s: StepId)
    requires Replay(defn, i, ds) == Ok(j)
    ensures j.Step(s).cost == i.Step(s).cost + StepCost(ds, s) && j.cost == i.cost + TotalCharged(ds)
    ensures j.Step(s).tokens == i.Step(s).tokens.Plus(StepTokens(ds, s).input, StepTokens(ds, s).output)
    ensures j.tokens == i.tokens.Plus(AllTokens(ds).input, AllTokens(ds).output)
    ensures j.errors == i.errors + ErrorsOf(ds)
  {
    StepBooks(defn, i, ds, j, s);
    InstanceBooks(defn, i, ds, j);
    CostIsSumOfCharges(defn, i, ds);
  }

  // --- recorded model calls ------------------------------------------------------------------------

  function Recorded(ds: seq<Draft>, s: StepId): seq<Recording> {
    if ds == [] then []
    else
      var b := ds[|ds| - 1].body;
      if b.StepFailed? && b.stepId == s then []
      else Recorded(ds[..|ds| - 1], s) + if b.LLMCallRecorded? && b.stepId == s then [b.recording] else []
  }

  predicate Forgets(ds: seq<Draft>, s: StepId) {
    exists k :: 0 <= k < |ds| && ds[k].body.StepFailed? && ds[k].body.stepId == s
  }

  lemma AdvanceRecords(defn: Option<Definition>, i: Instance, x: Draft, j: Instance, s: StepId)
    requires Advance(defn, i, x) == Ok(j)
    ensures j.Step(s).llmCalls
            == if x.body.StepFailed? && x.body.stepId == s then []
               else i.Step(s).llmCalls + if x.body.LLMCallRecorded? && x.body.stepId == s then [x.body.recording]
                                         else []
  {
    Parts(defn, i, x, j);
  }

  lemma ReplaySnoc(defn: Option<Definition>, i: Instance, ds: seq<Draft>, j: Instance) returns (m: Instance)
    requires ds != [] && Replay(defn, i, ds) == Ok(j)
    ensures Replay(defn, i, ds[..|ds| - 1]) == Ok(m) && Advance(defn, m, ds[|ds| - 1]) == Ok(j)
  {
    var front, x := ds[..|ds| - 1], ds[|ds| - 1];
    assert ds == front + [x];
    ReplayConcat(defn, i, front, [x]);
    m := Replay(defn, i, front).value;
    ReplayOne(defn, m, x);
  }

  lemma ForgetsSnoc(ds: seq<Draft>, s: StepId)
    requires ds != []
    ensures var b := ds[|ds| - 1].body;
            Forgets(ds, s) <==> Forgets(ds[..|ds| - 1], s) || (b.StepFailed? && b.stepId == s)
  {
    var front := ds[..|ds| - 1];
    assert forall k :: 0 <= k < |front| ==> ds[k] == front[k];
  }

  /** The recorded calls of a step are those made since its last failure. */
  lemma {:induction false} CallsSinceFailure(defn: Option<Definition>, i: Instance, ds: seq<Draft>, j: Instance,
                                             s: StepId)
    requires Replay(defn, i, ds) == Ok(j)
    ensures j.Step(s).llmCalls == (if Forgets(ds, s) then [] else i.Step(s).llmCalls) + Recorded(ds, s)
    decreases |ds|
  {
    if ds != [] {
      var m := ReplaySnoc(defn, i, ds, j);
      CallsSinceFailure(defn, i, ds[..|ds| - 1], m, s);
      AdvanceRecords(defn, m, ds[|ds| - 1], j, s);
      CallsChain(i.Step(s).llmCalls, ds, m.Step(s).llmCalls, j.Step(s).llmCalls, s);
    }
  }

  lemma CallsChain(was: seq<Recording>, ds: seq<Draft>, mid: seq<Recording>, now: seq<Recording>, s: StepId)
    requires ds != [] && mid == (if Forgets(ds[..|ds| - 1], s) then [] else was) + Recorded(ds[..|ds| - 1], s)
    requires var b := ds[|ds| - 1].body;
             now == if b.StepFailed? && b.stepId == s then []
                    else mid + if b.LLMCallRecorded? && b.stepId == s then [b.recording] else []
    ensures now == (if Forgets(ds, s) then [] else was) + Recorded(ds, s)
  {
    ForgetsSnoc(ds, s);
  }

  // --- escalations ------------------------------------------------------------------------------

  predicate Closes(b: EventBody, id: string) {
    (b.EscalationResolved? || b.EscalationTimedOut?) && b.escalationId == id
  }

  predicate ClosedIn(ds: seq<Draft>, id: string) {
    exists k :: 0 <= k < |ds| && Closes(ds[k].body, id)
  }

  /** References as a log leaves them: resolved if they were or if it closes them. */
  function Settle(refs: seq<EscalationRef>, ds: seq<Draft>): (r: seq<EscalationRef>)
    ensures |r| == |refs|
    ensures forall k :: 0 <= k < |r| ==>
              r[k] == refs[k].(resolved := refs[k].resolved || ClosedIn(ds, refs[k].escalationId))
  {
    seq(|refs|, k requires 0 <= k < |refs| =>
      refs[k].(resolved := refs[k].resolved || ClosedIn(ds, refs[k].escalationId)))
  }

  /** The references a log raises, in order: each with its step, reason and deadline, and resolved exactly if
      the log closes it later. */
  function RaisedBy(ds: seq<Draft>): seq<EscalationRef> {
    if ds == [] then []
    else
      var b, rest := ds[0].body, ds[1..];
      (if b.EscalationRaised?
       then [EscalationRef(b.escalationId, b.stepId, b.reason, b.deadline, ClosedIn(rest, b.escalationId))] else [])
      + RaisedBy(rest)
  }

  function RaisedIn(x: Draft): seq<EscalationRef> {
    var b := x.body;
    if b.EscalationRaised? then [EscalationRef(b.escalationId, b.stepId, b.reason, b.deadline, false)] else []
  }

  lemma AdvanceRefs(defn: Option<Definition>, i: Instance, x: Draft, j: Instance)
    requires Advance(defn, i, x) == Ok(j)
    ensures j.escalations == Settle(i.escalations, [x]) + RaisedIn(x)
  {
    Parts(defn, i, x, j);
    InstanceRefs(i, x, OnInstance(i, x.body, x.at).value);
  }

  lemma ClosedOne(x: Draft, id: string)
    ensures ClosedIn([x], id) <==> Closes(x.body, id)
  {
    assert [x][0] == x;
  }

  /** One event settles the references it closes. */
  lemma SettleOne(refs: seq<EscalationRef>, x: Draft)
    ensures Settle(refs, [x]) == if x.body.EscalationResolved? || x.body.EscalationTimedOut?
                                 then ResolveRefs(refs, x.body.escalationId) else refs
  {
    forall k | 0 <= k < |refs| ensures ClosedIn([x], refs[k].escalationId) <==> Closes(x.body, refs[k].escalationId) {
      ClosedOne(x, refs[k].escalationId);
    }
  }

  lemma InstanceRefs(i: Instance, x: Draft, m: Instance)
    requires OnInstance(i, x.body, x.at) == Ok(m)
    ensures m.escalations == Settle(i.escalations, [x]) + RaisedIn(x)
  {
    SettleOne(i.escalations, x);
  }

  lemma ClosedCons(ds: seq<Draft>, id: string)
    requires ds != []
    ensures ClosedIn(ds, id) <==> Closes(ds[0].body, id) || ClosedIn(ds[1..], id)
  {
    assert forall k :: 1 <= k < |ds| ==> ds[k] == ds[1..][k - 1];
    if ClosedIn(ds[1..], id) {
      var k :| 0 <= k < |ds[1..]| && Closes(ds[1..][k].body, id);
      assert Closes(ds[k + 1].body, id);
    }
  }

  lemma SettleCons(refs: seq<EscalationRef>, ds: seq<Draft>)
    requires ds != []
    ensures Settle(Settle(refs, [ds[0]]), ds[1..]) == Settle(refs, ds)
  {
    forall k | 0 <= k < |refs|
      ensures ClosedIn(ds, refs[k].escalationId)
              <==> ClosedIn([ds[0]], refs[k].escalationId) || ClosedIn(ds[1..], refs[k].escalationId)
    {
      ClosedCons(ds, refs[k].escalationId);
      ClosedOne(ds[0], refs[k].escalationId);
    }
  }

  lemma SettleConcat(a: seq<EscalationRef>, b: seq<EscalationRef>, ds: seq<Draft>)
    ensures Settle(a + b, ds) == Settle(a, ds) + Settle(b, ds)
  {
  }

  /** Along any log the fold accepts, the escalations are those it raised, in order, each resolved exactly
      if a later event answered it or timed it out. */
  lemma {:induction false} EscalationsAre(defn: Option<Definition>, i: Instance, ds: seq<Draft>, j: Instance)
    requires Replay(defn, i, ds) == Ok(j)
    ensures j.escalations == Settle(i.escalations, ds) + RaisedBy(ds)
    decreases |ds|
  {
    if ds == [] {
      assert Settle(i.escalations, ds) == i.escalations;
    } else {
      var m := Advance(defn, i, ds[0]).value;
      AdvanceRefs(defn, i, ds[0], m);
      EscalationsAre(defn, m, ds[1..], j);
      RefsChain(i.escalations, ds, m.escalations, j.escalations);
    }
  }

  lemma RefsChain(was: seq<EscalationRef>, ds: seq<Draft>, mid: seq<EscalationRef>, now: seq<EscalationRef>)
    requires ds != [] && mid == Settle(was, [ds[0]]) + RaisedIn(ds[0])
             && now == Settle(mid, ds[1..]) + RaisedBy(ds[1..])
    ensures now == Settle(was, ds) + RaisedBy(ds)
  {
    SettleConcat(Settle(was, [ds[0]]), RaisedIn(ds[0]), ds[1..]);
    SettleCons(was, ds);
    RaisedCons(ds);
    Assoc(Settle(was, ds), Settle(RaisedIn(ds[0]), ds[1..]), RaisedBy(ds[1..]));
  }

  lemma RaisedCons(ds: seq<Draft>)
    requires ds != []
    ensures RaisedBy(ds) == Settle(RaisedIn(ds[0]), ds[1..]) + RaisedBy(ds[1..])
  {
    var b := ds[0].body;
    if b.EscalationRaised? {
      assert Settle(RaisedIn(ds[0]), ds[1..])
             == [EscalationRef(b.escalationId, b.stepId, b.reason, b.deadline, ClosedIn(ds[1..], b.escalationId))];
    }
  }

  /** The batch closes no escalation. */
  ghost predicate ClosesNone(ds: seq<Draft>) {
    forall k :: 0 <= k < |ds| ==> !ds[k].body.EscalationResolved? && !ds[k].body.EscalationTimedOut?
  }

  lemma {:induction false} RaisedConcat(a: seq<Draft>, b: seq<Draft>)
    requires ClosesNone(a) && ClosesNone(b)
    ensures RaisedBy(a + b) == RaisedBy(a) + RaisedBy(b)
    decreases |a|
  {
    if a == [] {
      assert a + b == b;
    } else {
      assert (a + b)[1..] == a[1..] + b && (a + b)[0] == a[0];
      RaisedConcat(a[1..], b);
      if a[0].body.EscalationRaised? {
        assert !ClosedIn(a[1..] + b, a[0].body.escalationId) && !ClosedIn(a[1..], a[0].body.escalationId);
      }
      Assoc(RaisedIn(a[0]), RaisedBy(a[1..]), RaisedBy(b));
    }
  }

  /** A batch that closes no escalation adds those it raises. */
  lemma OnlyAdds(defn: Option<Definition>, i: Instance, ds: seq<Draft>, j: Instance)
    requires Replay(defn, i, ds) == Ok(j) && ClosesNone(ds)
    ensures j.escalations == i.escalations + RaisedBy(ds)
  {
    EscalationsAre(defn, i, ds, j);
    assert forall id :: !ClosedIn(ds, id);
    assert Settle(i.escalations, ds) == i.escalations;
  }

  // --- effects --------------------------------------------------------------------------------------

  function EffectAt(refs: seq<EffectRef>, key: string): Option<EffectRef> {
    if EffectIndex(refs, key) < |refs| then Some(refs[EffectIndex(refs, key)]) else None
  }

  /** What an event does to the reference of a key: an intent opens it, an execution opens or marks it, a
      compensation marks it. */
  function EffectAfter(o: Option<EffectRef>, b: EventBody, key: string): Option<EffectRef> {
    match b
    case SideEffectIntentRecorded(s, name, k) =>
      if k == key && o.None? then Some(EffectRef(key, s, name, EffectPending)) else o
    case SideEffectExecuted(s, k) =>
      if k != key then o
      else if o.None? then Some(EffectRef(key, s, "", EffectExecuted)) else Some(o.value.(status := EffectExecuted))
    case SideEffectCompensated(_, k) =>
      if k == key && o.Some? then Some(o.value.(status := EffectCompensated)) else o
    case _ => o
  }

  lemma {:induction false} IndexFinds(refs: seq<EffectRef>, key: string)
    ensures var k := EffectIndex(refs, key);
            (k < |refs| ==> refs[k].key == key) && forall l :: 0 <= l < k ==> refs[l].key != key
    decreases |refs|
  {
    if refs != [] && refs[0].key != key { IndexFinds(refs[1..], key); }
  }

  lemma IndexIs(refs: seq<EffectRef>, key: string, k: nat)
    requires k <= |refs| && (k < |refs| ==> refs[k].key == key) && forall l :: 0 <= l < k ==> refs[l].key != key
    ensures EffectIndex(refs, key) == k
  {
    IndexFinds(refs, key);
  }

  lemma AppendedEffect(refs: seq<EffectRef>, e: EffectRef, key: string)
    requires EffectIndex(refs, e.key) == |refs|
    ensures EffectAt(refs + [e], key) == if e.key == key then Some(e) else EffectAt(refs, key)
  {
    IndexFinds(refs, key);
    IndexFinds(refs, e.key);
    IndexIs(refs + [e], key, if e.key == key then |refs|
                             else if EffectIndex(refs, key) < |refs| then EffectIndex(refs, key) else |refs| + 1);
  }

  lemma MarkedEffect(refs: seq<EffectRef>, marked: string, status: EffectStatus, key: string)
    ensures EffectAt(MarkEffect(refs, marked, status), key)
            == var o := EffectAt(refs, key);
               if marked == key && o.Some? then Some(o.value.(status := status)) else o
  {
    IndexFinds(refs, key);
    IndexFinds(refs, marked);
    IndexIs(MarkEffect(refs, marked, status), key, EffectIndex(refs, key));
  }

  lemma AdvanceEffect(defn: Option<Definition>, i: Instance, x: Draft, j: Instance, key: string)
    requires Advance(defn, i, x) == Ok(j)
    ensures EffectAt(j.effects, key) == EffectAfter(EffectAt(i.effects, key), x.body, key)
  {
    Parts(defn, i, x, j);
    InstanceEffect(i, x, OnInstance(i, x.body, x.at).value, key);
  }

  lemma IntentEffect(refs: seq<EffectRef>, s: StepId, name: string, k: string, key: string)
    ensures var next := if EffectIndex(refs, k) < |refs| then refs else refs + [EffectRef(k, s, name, EffectPending)];
            EffectAt(next, key) == EffectAfter(EffectAt(refs, key), SideEffectIntentRecorded(s, name, k), key)
  {
    if EffectIndex(refs, k) == |refs| { AppendedEffect(refs, EffectRef(k, s, name, EffectPending), key); }
  }

  lemma ExecutedEffect(refs: seq<EffectRef>, s: StepId, k: string, key: string)
    ensures var next := if EffectIndex(refs, k) < |refs| then MarkEffect(refs, k, EffectExecuted)
                        else refs + [EffectRef(k, s, "", EffectExecuted)];
            EffectAt(next, key) == EffectAfter(EffectAt(refs, key), SideEffectExecuted(s, k), key)
  {
    if EffectIndex(refs, k) < |refs| {
      MarkedEffect(refs, k, EffectExecuted, key);
    } else {
      AppendedEffect(refs, EffectRef(k, s, "", EffectExecuted), key);
    }
  }

  lemma InstanceEffect(i: Instance, x: Draft, m: Instance, key: string)
    requires OnInstance(i, x.body, x.at) == Ok(m)
    ensures EffectAt(m.effects, key) == EffectAfter(EffectAt(i.effects, key), x.body, key)
  {
    match x.body {
      case SideEffectIntentRecorded(s, name, k) => IntentEffect(i.effects, s, name, k, key);
      case SideEffectExecuted(s, k) => ExecutedEffect(i.effects, s, k, key);
      case SideEffectCompensated(_, k) => MarkedEffect(i.effects, k, EffectCompensated, key);
      case _ => OtherEffect(i, x, m);
    }
  }

  lemma OtherEffect(i: Instance, x: Draft, m: Instance)
    requires OnInstance(i, x.body, x.at) == Ok(m)
    requires !x.body.SideEffectIntentRecorded? && !x.body.SideEffectExecuted? && !x.body.SideEffectCompensated?
    ensures m.effects == i.effects
  {
  }

  predicate Settles(b: EventBody, key: string) {
    (b.SideEffectExecuted? || b.SideEffectCompensated?) && b.key == key
  }

  lemma {:induction false} UnsettledStays(defn: Option<Definition>, i: Instance, ds: seq<Draft>, j: Instance,
                                          key: string)
    requires Replay(defn, i, ds) == Ok(j) && forall k :: 0 <= k < |ds| ==> !Settles(ds[k].body, key)
    requires EffectAt(i.effects, key).Some?
    ensures EffectAt(j.effects, key) == EffectAt(i.effects, key)
    decreases |ds|
  {
    if ds != [] {
      var m := Advance(defn, i, ds[0]).value;
      AdvanceEffect(defn, i, ds[0], m, key);
      UnsettledStays(defn, m, ds[1..], j, key);
    }
  }

  predicate Executes(b: EventBody, key: string) {
    b.SideEffectExecuted? && b.key == key
  }

  predicate Compensates(b: EventBody, key: string) {
    b.SideEffectCompensated? && b.key == key
  }

  ghost predicate NoneCompensates(ds: seq<Draft>, key: string) {
    forall k :: 0 <= k < |ds| ==> !Compensates(ds[k].body, key)
  }

  ghost predicate NoneExecutes(ds: seq<Draft>, key: string) {
    forall k :: 0 <= k < |ds| ==> !Executes(ds[k].body, key)
  }

  lemma TailToo(ds: seq<Draft>, key: string)
    requires ds != []
    ensures NoneCompensates(ds, key) ==> !Compensates(ds[0].body, key) && NoneCompensates(ds[1..], key)
    ensures NoneExecutes(ds, key) ==> !Executes(ds[0].body, key) && NoneExecutes(ds[1..], key)
  {
  }

  predicate Stands(i: Instance, key: string, status: EffectStatus) {
    EffectAt(i.effects, key).Some? && EffectAt(i.effects, key).value.status == status
  }

  lemma {:induction false} ExecutedStays(defn: Option<Definition>, i: Instance, ds: seq<Draft>, j: Instance,
                                         key: string)
    requires Replay(defn, i, ds) == Ok(j) && NoneCompensates(ds, key) && Stands(i, key, EffectExecuted)
    ensures Stands(j, key, EffectExecuted)
    decreases |ds|
  {
    if ds != [] {
      var m := Advance(defn, i, ds[0]).value;
      AdvanceEffect(defn, i, ds[0], m, key);
      TailToo(ds, key);
      ExecutedStays(defn, m, ds[1..], j, key);
    }
  }

  /** A batch that executes an effect and compensates none leaves it on record as executed. */
  lemma {:induction false} ExecutedIsOnRecord(defn: Option<Definition>, i: Instance, ds: seq<Draft>, j: Instance,
                                              key: string, k: nat)
    requires Replay(defn, i, ds) == Ok(j) && NoneCompensates(ds, key) && k < |ds| && Executes(ds[k].body, key)
    ensures Stands(j, key, EffectExecuted)
    decreases |ds|
  {
    var m := Advance(defn, i, ds[0]).value;
    AdvanceEffect(defn, i, ds[0], m, key);
    TailToo(ds, key);
    if k == 0 {
      ExecutedStays(defn, m, ds[1..], j, key);
    } else {
      ExecutedIsOnRecord(defn, m, ds[1..], j, key, k - 1);
    }
  }

  lemma {:induction false} CompensatedStays(defn: Option<Definition>, i: Instance, ds: seq<Draft>, j: Instance,
                                            key: string)
    requires Replay(defn, i, ds) == Ok(j) && NoneExecutes(ds, key) && Stands(i, key, EffectCompensated)
    ensures Stands(j, key, EffectCompensated)
    decreases |ds|
  {
    if ds != [] {
      var m := Advance(defn, i, ds[0]).value;
      AdvanceEffect(defn, i, ds[0], m, key);
      TailToo(ds, key);
      CompensatedStays(defn, m, ds[1..], j, key);
    }
  }

  /** A batch that compensates a recorded effect and executes none leaves it on record as compensated. */
  lemma {:induction false} CompensatedIsOnRecord(defn: Option<Definition>, i: Instance, ds: seq<Draft>, j: Instance,
                                                 key: string, k: nat)
    requires Replay(defn, i, ds) == Ok(j) && NoneExecutes(ds, key) && k < |ds| && Compensates(ds[k].body, key)
    requires EffectAt(i.effects, key).Some?
    ensures Stands(j, key, EffectCompensated)
    decreases |ds|
  {
    var m := Advance(defn, i, ds[0]).value;
    AdvanceEffect(defn, i, ds[0], m, key);
    TailToo(ds, key);
    if k == 0 {
      CompensatedStays(defn, m, ds[1..], j, key);
    } else {
      CompensatedIsOnRecord(defn, m, ds[1..], j, key, k - 1);
    }
  }

  /** An effect is on record as executed, or as compensated, exactly as the last such event on its key says;
      a compensation of a key nobody had mentioned leaves no record. */
  lemma {:induction false} LastEffectWins(defn: Option<Definition>, i: Instance, ds: seq<Draft>, j: Instance,
                                          key: string,
                                          k: nat)
    requires Replay(defn, i, ds) == Ok(j) && k < |ds| && Settles(ds[k].body, key)
    requires forall l :: k < l < |ds| ==> !Settles(ds[l].body, key)
    requires ds[k].body.SideEffectCompensated? ==> EffectAt(i.effects, key).Some?
    ensures EffectAt(j.effects, key).Some?
    ensures EffectAt(j.effects, key).value.status
            == if ds[k].body.SideEffectExecuted? then EffectExecuted else EffectCompensated
    decreases |ds|
  {
    var m := Advance(defn, i, ds[0]).value;
    AdvanceEffect(defn, i, ds[0], m, key);
    if k == 0 {
      assert forall l :: 0 <= l < |ds[1..]| ==> ds[1..][l] == ds[l + 1];
      UnsettledStays(defn, m, ds[1..], j, key);
    } else {
      assert forall l :: 0 <= l < |ds[1..]| ==> ds[1..][l] == ds[l + 1];
      LastEffectWins(defn, m, ds[1..], j, key, k - 1);
    }
  }

  // --- streams -------------------------------------------------------------------------------------

  function DraftsOf(evs: seq<Event>): (ds: seq<Draft>)
    ensures |ds| == |evs| && forall k :: 0 <= k < |ds| ==> ds[k] == evs[k].draft
  {
    seq(|evs|, k requires 0 <= k < |evs| => evs[k].draft)
  }

  lemma {:induction false} FoldIsReplay(defn: Option<Definition>, i: Instance, evs: seq<Event>, j: Instance)
    requires FoldAll(defn, Some(i), evs) == Ok(Some(j))
    ensures Replay(defn, i, DraftsOf(evs)) == Ok(j)
    decreases |evs|
  {
    if evs != [] {
      assert DraftsOf(evs)[0] == evs[0].draft && DraftsOf(evs)[1..] == DraftsOf(evs[1..]);
      FoldIsReplay(defn, FoldOne(defn, Some(i), evs[0]).value, evs[1..], j);
    }
  }

  function Blank(ev: Event): Instance
    requires ev.draft.body.InstanceCreated?
  {
    NewInstance(ev.instanceId, ev.tenantId, ev.draft.body.workflowId, ev.draft.body.workflowVersion)
  }

  /** A stream that folds opens with a creation, and its fold is the replay of its drafts on a new instance. */
  lemma StreamIsReplay(defn: Option<Definition>, evs: seq<Event>, j: Instance)
    requires FoldFrom(defn, None, evs) == Ok(j)
    ensures evs != [] && evs[0].draft.body.InstanceCreated?
    ensures Replay(defn, Blank(evs[0]), DraftsOf(evs)) == Ok(j)
  {
    var m := FoldOne(defn, None, evs[0]).value;
    FoldIsReplay(defn, m, evs[1..], j);
    assert DraftsOf(evs)[1..] == DraftsOf(evs[1..]);
  }

  /** What a fold says about its stream, field by field: the last writer's value, or a new instance's if nobody
      wrote the field. */
  lemma FoldShows(f: Field, defn: Option<Definition>, evs: seq<Event>, j: Instance)
    requires FoldFrom(defn, None, evs) == Ok(j)
    ensures evs != [] && evs[0].draft.body.InstanceCreated?
    ensures LastWrote(f, DraftsOf(evs), Read(f, Blank(evs[0])), Read(f, j))
  {
    StreamIsReplay(defn, evs, j);
    LastWriterWins(f, defn, Blank(evs[0]), DraftsOf(evs), j);
  }
}
