/** Definition checks (src/agentforge/core/domain/definition.py). */
module Validation {
  import opened Domain
  import Dag
  import opened Planner
  import opened Driver

  /** What the field constraints alone guarantee. */
  predicate WellFormed(d: Definition) {
    "" !in d.Ids() && d.maxConcurrent >= 1
  }

  method HasDuplicates(d: Definition) returns (found: bool)
    ensures found <==> !d.DistinctIds()
  {
    var k := 0;
    while k < |d.steps|
      invariant 0 <= k <= |d.steps|
      invariant forall i, j :: 0 <= i < j < |d.steps| && i < k ==> d.steps[i].stepId != d.steps[j].stepId
    {
      var j := k + 1;
      while j < |d.steps|
        invariant k < j <= |d.steps|
        invariant forall m :: k < m < j ==> d.steps[k].stepId != d.steps[m].stepId
      {
        if d.steps[k].stepId == d.steps[j].stepId { return true; }
        j := j + 1;
      }
      k := k + 1;
    }
    return false;
  }

  /** A step that says how to compensate must say what there is to compensate. */
  predicate Compensates(w: WorkflowStep) {
    w.compensationAction.Some? && w.compensationAction.value != "" ==> w.sideEffects != []
  }

  method CheckCompensations(d: Definition) returns (ok: bool)
    ensures ok <==> forall k :: 0 <= k < |d.steps| ==> Compensates(d.steps[k])
  {
    var k := 0;
    while k < |d.steps|
      invariant 0 <= k <= |d.steps|
      invariant forall j :: 0 <= j < k ==> Compensates(d.steps[j])
    {
      if !Compensates(d.steps[k]) { return false; }
      k := k + 1;
    }
    return true;
  }

  /** Validation accepts exactly the definitions with distinct ids, known dependencies and no cycle, all of
      whose compensations have side effects to undo; the engine's proofs rely on the first three. */
  method ValidateGraph(d: Definition) returns (ok: bool)
    requires WellFormed(d)
    ensures ok <==> Valid(d) && forall k :: 0 <= k < |d.steps| ==> Compensates(d.steps[k])
  {
    var duplicates := HasDuplicates(d);
    if duplicates { return false; }
    var layers := Dag.ValidateDependencies(GraphOf(d));
    if layers.Err? { return false; }
    ok := CheckCompensations(d);
  }

  // --- retry backoff -----------------------------------------------------------------------

  predicate SanePolicy(p: RetryPolicy) {
    p.backoffBase > 0.0 && p.backoffMultiplier >= 1.0 && p.backoffMax > 0.0
  }

  lemma {:induction false} PowerGrows(base: real, m: nat, n: nat)
    requires base >= 1.0 && m <= n
    ensures 1.0 <= Power(base, m) <= Power(base, n)
    decreases n
  {
    if n > 0 {
      if m < n { PowerGrows(base, m, n - 1); } else { PowerGrows(base, m - 1, m - 1); }
      assert base * Power(base, n - 1) >= Power(base, n - 1);
    }
  }

  /** Delays are positive, never above the cap, and never shrink from one attempt to the next. */
  lemma BackoffRises(p: RetryPolicy, a: nat, b: nat)
    requires SanePolicy(p) && a <= b
    ensures 0.0 < BackoffDelay(p, a) <= BackoffDelay(p, b) <= p.backoffMax
  {
    var m, n := if a > 0 then a - 1 else 0, if b > 0 then b - 1 else 0;
    PowerGrows(p.backoffMultiplier, m, n);
    Scale(p.backoffBase, Power(p.backoffMultiplier, m), Power(p.backoffMultiplier, n));
  }

  /** The first delay is the base and each next one the multiple of the one before it, both up to the cap. */
  lemma BackoffSteps(p: RetryPolicy, attempt: nat)
    requires SanePolicy(p) && attempt >= 1
    ensures BackoffDelay(p, 0) == BackoffDelay(p, 1) == if p.backoffBase <= p.backoffMax then p.backoffBase
                                                        else p.backoffMax
    ensures var next := p.backoffMultiplier * BackoffDelay(p, attempt);
            BackoffDelay(p, attempt + 1) == if next <= p.backoffMax then next else p.backoffMax
  {
    var raw := p.backoffBase * Power(p.backoffMultiplier, attempt - 1);
    assert Power(p.backoffMultiplier, 0) == 1.0;
    assert Power(p.backoffMultiplier, attempt) == p.backoffMultiplier * Power(p.backoffMultiplier, attempt - 1);
    Rearrange(p.backoffBase, p.backoffMultiplier, Power(p.backoffMultiplier, attempt - 1));
    if raw > p.backoffMax {
      Multiple(p.backoffMultiplier, raw);
      Multiple(p.backoffMultiplier, p.backoffMax);
    }
  }

  lemma Rearrange(a: real, b: real, c: real)
    ensures a * (b * c) == b * (a * c)
  {
  }

  lemma Multiple(m: real, x: real)
    requires m >= 1.0 && x > 0.0
    ensures m * x >= x
  {
    assert (m - 1.0) * x >= 0.0;
  }

  lemma Scale(c: real, x: real, y: real)
    requires c > 0.0 && 1.0 <= x <= y
    ensures 0.0 < c * x <= c * y
  {
    assert c * (y - x) >= 0.0;
  }
}
