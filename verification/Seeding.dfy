/** A driver's projection may lack entries for steps no event has mentioned. It behaves as the projection
    with those entries does, up to the planner's direct lookups. */
module Seeding {
  import opened Domain
  import opened Events
  import opened Fold
  import opened FoldLaws
  import opened Planner
  import opened Driver
  import opened Legality
  import opened Phases

  lemma InvCovers(d: Definition, i: Instance)
    requires Inv(d, i)
    ensures i.Covers(d)
  {
    forall k | 0 <= k < |d.steps| ensures d.steps[k].stepId in i.steps {
      InvHas(d, i, d.steps[k].stepId);
    }
  }

  /** The driver moves on its own projection as it would on the seeded one, unless the projection lacks
      a defined step when the planner looks it up. */
  lemma SameMove(d: Definition, p: Instance, ph: Phase, worker: string, inp: Input)
    requires Fits(d, p, ph, inp) && (ph.Recovering? || ph.Looping? || p.Covers(d))
    ensures Fits(d, Seeded(d, p), ph, inp)
    ensures var mv := NextMove(d, p, ph, worker, inp);
            if mv.Fault? && !p.Covers(d) then ph.Looping? && p.status == WfRunning
            else mv == NextMove(d, Seeded(d, p), ph, worker, inp)
                 && (mv.Append? && !mv.next.Looping? ==> p.Covers(d))
  {
    if p.Covers(d) {
      SeedIdempotent(d, p);
    } else {
      assert Seeded(d, p).RunningSteps() == p.RunningSteps();
    }
  }

  lemma LocalStep(d: Definition, p: Instance, x: Draft)
    requires Legal(d, Seeded(d, p), x.body) && Advance(Some(d), Seeded(d, p), x).Ok?
    ensures Advance(Some(d), p, x).Ok?
            && Advance(Some(d), Seeded(d, p), x) == Ok(Seeded(d, Advance(Some(d), p, x).value))
  {
    HandleSeeded(d, p, x.body, x.at);
    assert Handle(Some(d), p, x.body, x.at) == Handle(None, p, x.body, x.at);
  }

  /** Folding a legal batch onto the driver's projection gives the seeded result, seeded or not. */
  lemma {:induction false} LocalFold(d: Definition, p: Instance, ds: seq<Draft>)
    requires AllLegal(d, Seeded(d, p), ds)
    ensures Replay(Some(d), p, ds).Ok?
            && Replay(Some(d), Seeded(d, p), ds) == Ok(Seeded(d, Replay(Some(d), p, ds).value))
    decreases |ds|
  {
    if ds != [] {
      LocalStep(d, p, ds[0]);
      LocalFold(d, Advance(Some(d), p, ds[0]).value, ds[1..]);
    }
  }
}
