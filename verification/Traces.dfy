/** One drive as the row of moves `NextMove` yields on the driver's own projection. */
module Traces {
  import opened Domain
  import opened Events
  import opened Fold
  import opened FoldLaws
  import opened Planner
  import opened Driver

  /** What a drive has written, its projection, and its phase while it goes on. */
  datatype Leg = Leg(written: seq<Draft>, inst: Instance, phase: Option<Phase>)

  /** One move on the driver's own projection; an input that does not fit is passed over. */
  function OneLeg(d: Definition, i: Instance, ph: Phase, worker: string, inp: Input): Leg {
    if !Fits(d, i, ph, inp) then Leg([], i, Some(ph))
    else
      match NextMove(d, i, ph, worker, inp)
      case Fault => Leg([], i, None)
      case Finish(ds, _, _) =>
        var r := Replay(Some(d), i, ds); if r.Err? then Leg([], i, None) else Leg(ds, r.value, None)
      case Append(ds, _, next) =>
        var r := Replay(Some(d), i, ds); if r.Err? then Leg([], i, None) else Leg(ds, r.value, Some(next))
  }

  function Then(x: Leg, y: Leg): Leg {
    Leg(x.written + y.written, y.inst, y.phase)
  }

  /** The moves of a drive in a row. */
  function Trace(d: Definition, i: Instance, ph: Phase, worker: string, inps: seq<Input>): Leg
    decreases |inps|, 0
  {
    if inps == [] then Leg([], i, Some(ph)) else Continue(d, OneLeg(d, i, ph, worker, inps[0]), worker, inps[1..])
  }

  /** The drive goes on where a stretch of it has left off, unless it has ended. */
  function Continue(d: Definition, x: Leg, worker: string, inps: seq<Input>): Leg
    decreases |inps|, 1
  {
    if x.phase.None? then x else Then(x, Trace(d, x.inst, x.phase.value, worker, inps))
  }

  lemma TraceOne(d: Definition, i: Instance, ph: Phase, worker: string, inp: Input)
    ensures Trace(d, i, ph, worker, [inp]) == OneLeg(d, i, ph, worker, inp)
  {
    var one := OneLeg(d, i, ph, worker, inp);
    assert Trace(d, i, ph, worker, [inp]) == Continue(d, one, worker, [inp][1..]);
    assert [inp][1..] == [];
    if one.phase.Some? { assert one.written + [] == one.written; }
  }

  lemma ContinueThen(d: Definition, one: Leg, x: Leg, worker: string, b: seq<Input>)
    requires one.phase.Some?
    ensures Then(one, Continue(d, x, worker, b)) == Continue(d, Then(one, x), worker, b)
  {
    if x.phase.Some? {
      var y := Trace(d, x.inst, x.phase.value, worker, b);
      assert one.written + (x.written + y.written) == (one.written + x.written) + y.written;
    }
  }

  lemma InputsTail(a: seq<Input>, b: seq<Input>)
    requires a != []
    ensures a + b != [] && (a + b)[0] == a[0] && (a + b)[1..] == a[1..] + b
  {
  }

  lemma NoLeg(i: Instance, ph: Phase, y: Leg)
    ensures Then(Leg([], i, Some(ph)), y) == y
  {
    assert [] + y.written == y.written;
  }

  /** Two stretches of a drive are one. */
  lemma {:induction false} TraceConcat(d: Definition, i: Instance, ph: Phase, worker: string, a: seq<Input>,
                                       b: seq<Input>)
    ensures Trace(d, i, ph, worker, a + b) == Continue(d, Trace(d, i, ph, worker, a), worker, b)
    decreases |a|
  {
    if a == [] {
      assert a + b == b;
      NoLeg(i, ph, Trace(d, i, ph, worker, b));
    } else {
      var one := OneLeg(d, i, ph, worker, a[0]);
      InputsTail(a, b);
      if one.phase.Some? {
        TraceConcat(d, one.inst, one.phase.value, worker, a[1..], b);
        ContinueThen(d, one, Trace(d, one.inst, one.phase.value, worker, a[1..]), worker, b);
      }
    }
  }

  lemma LegOf(d: Definition, i: Instance, ph: Phase, worker: string, inp: Input, mv: Move, p: Instance)
    requires Fits(d, i, ph, inp) && mv == NextMove(d, i, ph, worker, inp) && !mv.Fault?
             && Replay(Some(d), i, mv.drafts) == Ok(p)
    ensures OneLeg(d, i, ph, worker, inp) == Leg(mv.drafts, p, if mv.Append? then Some(mv.next) else None)
  {
  }

  /** One more move. */
  lemma TraceSnoc(d: Definition, i: Instance, ph: Phase, worker: string, inps: seq<Input>, x: Leg, inp: Input, y: Leg)
    requires Trace(d, i, ph, worker, inps) == x && x.phase.Some? && OneLeg(d, x.inst, x.phase.value, worker, inp) == y
    ensures Trace(d, i, ph, worker, inps + [inp]) == Then(x, y)
  {
    TraceConcat(d, i, ph, worker, inps, [inp]);
    TraceOne(d, x.inst, x.phase.value, worker, inp);
  }

  /** The inputs lead the drive from `i` to `j`, writing `ds`. */
  ghost predicate Tracks(d: Definition, i: Instance, ph: Phase, worker: string, inps: seq<Input>, ds: seq<Draft>,
                         j: Instance, next: Option<Phase>) {
    Trace(d, i, ph, worker, inps) == Leg(ds, j, next)
  }

  lemma TracksMore(d: Definition, i: Instance, ph: Phase, worker: string, inps: seq<Input>, ds: seq<Draft>, j: Instance,
                   at: Phase, inp: Input, mv: Move, p: Instance)
    requires Tracks(d, i, ph, worker, inps, ds, j, Some(at)) && Fits(d, j, at, inp)
    requires mv == NextMove(d, j, at, worker, inp) && !mv.Fault? && Replay(Some(d), j, mv.drafts) == Ok(p)
    ensures Tracks(d, i, ph, worker, inps + [inp], ds + mv.drafts, p, if mv.Append? then Some(mv.next) else None)
  {
    LegOf(d, j, at, worker, inp, mv, p);
    TraceSnoc(d, i, ph, worker, inps, Leg(ds, j, Some(at)), inp,
              Leg(mv.drafts, p, if mv.Append? then Some(mv.next) else None));
  }

  lemma LegReplays(d: Definition, i: Instance, ph: Phase, worker: string, inp: Input)
    ensures var one := OneLeg(d, i, ph, worker, inp); Replay(Some(d), i, one.written) == Ok(one.inst)
  {
  }

  /** What a drive has written folds to the projection it holds. */
  lemma {:induction false} TraceReplays(d: Definition, i: Instance, ph: Phase, worker: string, inps: seq<Input>)
    ensures var x := Trace(d, i, ph, worker, inps); Replay(Some(d), i, x.written) == Ok(x.inst)
    decreases |inps|
  {
    if inps != [] {
      var one := OneLeg(d, i, ph, worker, inps[0]);
      LegReplays(d, i, ph, worker, inps[0]);
      if one.phase.Some? {
        TraceReplays(d, one.inst, one.phase.value, worker, inps[1..]);
        ReplayConcat(Some(d), i, one.written, Trace(d, one.inst, one.phase.value, worker, inps[1..]).written);
      }
    }
  }
}
