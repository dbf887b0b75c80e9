/** The side-effect guard (src/agentforge/core/side_effects.py) for one idempotency key: any number of
    attempts, interleaved and crashing at any point, against an outbox row and a provider. Rows of
    different keys never meet, and keys are digests taken to be injective. */
module SideEffects {
  import opened Domain

  datatype EffectResult = EffectResult(data: Data, providerRef: Option<string>)

  datatype EffectState = EffPending | EffExecuted | EffFailed | EffCompensated

  datatype OutboxRow = OutboxRow(status: EffectState, attempts: nat, result: Option<EffectResult>)

  /** Where an attempt stands: claimed, told that nothing landed, holding a result, or broken. */
  datatype Stage = Claimed(resuming: bool) | Cleared | Holding(result: EffectResult) | Broken

  /** Where a compensation stands: it has the executed row in its list, or the provider has undone the
      effect and the row is still to be marked. */
  datatype UndoStage = Listed | Reversed

  /** `landed` is what really happened at the provider and `undone` how often the provider undid it;
      `outcomes` is what callers were told succeeded. */
  datatype Cell = Cell(
    row: Option<OutboxRow>,
    landed: seq<EffectResult>,
    flying: map<nat, Stage>,
    outcomes: seq<EffectResult>,
    undoing: map<nat, UndoStage>,
    undone: nat)

  const NOTHING_YET := Cell(None, [], map[], [], map[], 0)

  /** How the provider answers a call: a result, a failure before anything happened, or a reply lost
      after the effect had happened. */
  datatype Reply = Answered(result: EffectResult) | Refused | LostReply(result: EffectResult)

  /** How the provider answers an undo: done, refused, or done with the reply lost. */
  datatype UndoReply = UndoAnswered | UndoRefused | UndoLost

  datatype Act =
    | Claim(attempt: nat)
    | Reconcile(attempt: nat, raises: bool)
    | Call(attempt: nat, reply: Reply)
    | Report(attempt: nat)
    | Vanish(attempt: nat)
    | UndoList(undo: nat)
    | UndoCall(undo: nat, answer: UndoReply)
    | UndoMark(undo: nat)
    | UndoVanish(undo: nat)

  function DoClaim(c: Cell, a: nat): Cell {
    if a in c.flying then c
    else
      var row := if c.row.None? then OutboxRow(EffPending, 1, None)
                 else c.row.value.(attempts := c.row.value.attempts + 1);
      var d := c.(row := Some(row));
      match row.status
      case EffExecuted => if row.result.Some? then d.(outcomes := d.outcomes + [row.result.value]) else d
      case EffCompensated => d
      case _ => d.(flying := d.flying[a := Claimed(row.attempts > 1)])
  }

  /** A provider without key support is asked what became of an earlier attempt, and answers truthfully. */
  function DoReconcile(c: Cell, honours: bool, a: nat, raises: bool): Cell {
    if a !in c.flying || honours || c.flying[a] != Claimed(true) then c
    else
      var next := if raises then Broken else if c.landed == [] then Cleared else Holding(c.landed[0]);
      c.(flying := c.flying[a := next])
  }

  predicate MayCall(honours: bool, s: Stage) {
    s.Cleared? || s == Claimed(false) || (honours && s.Claimed?)
  }

  /** A provider that honours the key lands an effect once and repeats its first answer. */
  function Landing(landed: seq<EffectResult>, honours: bool, r: EffectResult): seq<EffectResult> {
    if honours && landed != [] then landed else landed + [r]
  }

  function DoCall(c: Cell, honours: bool, a: nat, reply: Reply): Cell {
    if a !in c.flying || !MayCall(honours, c.flying[a]) then c
    else
      match reply
      case Refused => c.(flying := c.flying[a := Broken])
      case LostReply(r) => c.(landed := Landing(c.landed, honours, r), flying := c.flying[a := Broken])
      case Answered(r) =>
        c.(landed := Landing(c.landed, honours, r),
           flying := c.flying[a := Holding(if honours && c.landed != [] then c.landed[0] else r)])
  }

  function DoReport(c: Cell, a: nat): Cell {
    if a !in c.flying || c.row.None? then c
    else
      match c.flying[a]
      case Holding(r) =>
        c.(row := Some(c.row.value.(status := EffExecuted, result := Some(r))), outcomes := c.outcomes + [r],
           flying := c.flying - {a})
      case Broken => c.(row := Some(c.row.value.(status := EffFailed)), flying := c.flying - {a})
      case _ => c
  }

  /** A compensation lists the executed rows, */
  function DoUndoList(c: Cell, u: nat): Cell {
    if u in c.undoing || c.row.None? || c.row.value.status != EffExecuted then c
    else c.(undoing := c.undoing[u := Listed])
  }

  /** then has the provider undo the effect, giving up on an error, */
  function DoUndoCall(c: Cell, u: nat, answer: UndoReply): Cell {
    if u !in c.undoing || c.undoing[u] != Listed then c
    else
      match answer
      case UndoRefused => c.(undoing := c.undoing - {u})
      case UndoLost => c.(undoing := c.undoing - {u}, undone := c.undone + 1)
      case UndoAnswered => c.(undoing := c.undoing[u := Reversed], undone := c.undone + 1)
  }

  /** and marks the row, whatever its status is by then. */
  function DoUndoMark(c: Cell, u: nat): Cell {
    if u !in c.undoing || c.undoing[u] != Reversed || c.row.None? then c
    else c.(row := Some(c.row.value.(status := EffCompensated)), undoing := c.undoing - {u})
  }

  function Apply(c: Cell, honours: bool, x: Act): Cell {
    match x
    case Claim(a) => DoClaim(c, a)
    case Reconcile(a, raises) => DoReconcile(c, honours, a, raises)
    case Call(a, reply) => DoCall(c, honours, a, reply)
    case Report(a) => DoReport(c, a)
    case Vanish(a) => c.(flying := c.flying - {a})
    case UndoList(u) => DoUndoList(c, u)
    case UndoCall(u, answer) => DoUndoCall(c, u, answer)
    case UndoMark(u) => DoUndoMark(c, u)
    case UndoVanish(u) => c.(undoing := c.undoing - {u})
  }

  function Run(c: Cell, honours: bool, xs: seq<Act>): Cell
    decreases |xs|
  {
    if xs == [] then c else Run(Apply(c, honours, xs[0]), honours, xs[1..])
  }

  // --- at most one landing ------------------------------------------------------------------------

  /** Whatever anyone holds, stores or was told is the one effect that landed. */
  ghost predicate OneEffect(c: Cell) {
    && |c.landed| <= 1
    && (forall a :: a in c.flying && c.flying[a].Holding? ==> c.landed == [c.flying[a].result])
    && (forall k :: 0 <= k < |c.outcomes| ==> c.landed == [c.outcomes[k]])
    && (c.row.Some? && c.row.value.result.Some? ==> c.landed == [c.row.value.result.value])
    && (c.row.Some? && c.row.value.status == EffExecuted ==> c.row.value.result.Some?)
  }

  /** A compensation touches the row's status and nothing else that attempts look at. */
  predicate UndoAct(x: Act) {
    x.UndoList? || x.UndoCall? || x.UndoMark? || x.UndoVanish?
  }

  lemma UndoFrame(c: Cell, honours: bool, x: Act)
    requires UndoAct(x)
    ensures var d := Apply(c, honours, x);
            && d.landed == c.landed && d.flying == c.flying && d.outcomes == c.outcomes
            && (d.row == c.row || (c.row.Some? && d.row == Some(c.row.value.(status := EffCompensated))))
  {
  }

  lemma HonouringCall(c: Cell, a: nat, reply: Reply)
    requires OneEffect(c)
    ensures OneEffect(DoCall(c, true, a, reply))
  {
  }

  lemma ReportStep(c: Cell, a: nat)
    requires OneEffect(c)
    ensures OneEffect(DoReport(c, a))
  {
  }

  lemma ClaimStep(c: Cell, a: nat)
    requires OneEffect(c)
    ensures OneEffect(DoClaim(c, a))
  {
  }

  lemma ReconcileStep(c: Cell, honours: bool, a: nat, raises: bool)
    requires OneEffect(c)
    ensures OneEffect(DoReconcile(c, honours, a, raises))
  {
  }

  /** Every action but a call keeps one effect, whether or not the provider honours the key. */
  lemma CalmStep(c: Cell, honours: bool, x: Act)
    requires OneEffect(c) && !x.Call?
    ensures OneEffect(Apply(c, honours, x))
  {
    match x {
      case Claim(a) => ClaimStep(c, a);
      case Reconcile(a, raises) => ReconcileStep(c, honours, a, raises);
      case Report(a) => ReportStep(c, a);
      case Vanish(_) =>
      case _ => UndoFrame(c, honours, x);
    }
  }

  lemma HonouringStep(c: Cell, x: Act)
    requires OneEffect(c)
    ensures OneEffect(Apply(c, true, x))
  {
    if x.Call? { HonouringCall(c, x.attempt, x.reply); } else { CalmStep(c, true, x); }
  }

  /** With a provider that honours the key, every interleaving of attempts and crashes lands the effect at
      most once, and every caller told of success was told of that one effect. */
  lemma {:induction false} KeyedEffectsLandOnce(c: Cell, xs: seq<Act>)
    requires OneEffect(c)
    ensures OneEffect(Run(c, true, xs))
    decreases |xs|
  {
    if xs != [] {
      HonouringStep(c, xs[0]);
      KeyedEffectsLandOnce(Apply(c, true, xs[0]), xs[1..]);
    }
  }

  /** Attempts do not overlap: a claim finds nothing in flight. */
  predicate Apart(c: Cell, x: Act) {
    x.Claim? ==> c.flying == map[]
  }

  predicate AllApart(c: Cell, honours: bool, xs: seq<Act>)
    decreases |xs|
  {
    xs == [] || (Apart(c, xs[0]) && AllApart(Apply(c, honours, xs[0]), honours, xs[1..]))
  }

  /** An attempt about to call the provider has nothing to repeat, and it is the only one. */
  ghost predicate NothingToRepeat(c: Cell) {
    OneEffect(c) && OneFlight(c)
  }

  ghost predicate OneFlight(c: Cell) {
    && (c.landed != [] || c.flying != map[] ==> c.row.Some?) && (c.row.Some? ==> c.row.value.attempts >= 1)
    && (forall a, b :: a in c.flying && b in c.flying ==> a == b)
    && (forall a :: a in c.flying && MayCall(false, c.flying[a]) ==> c.landed == [])
  }

  lemma FlightClaim(c: Cell, a: nat)
    requires OneFlight(c) && c.flying == map[]
    ensures OneFlight(DoClaim(c, a))
  {
  }

  lemma FlightCall(c: Cell, a: nat, reply: Reply)
    requires OneFlight(c)
    ensures OneFlight(DoCall(c, false, a, reply))
  {
  }

  lemma FlightStep(c: Cell, x: Act)
    requires OneFlight(c) && Apart(c, x)
    ensures OneFlight(Apply(c, false, x))
  {
    match x {
      case Claim(a) => FlightClaim(c, a);
      case Call(a, reply) => FlightCall(c, a, reply);
      case Reconcile(_, _) =>
      case Report(_) =>
      case Vanish(_) =>
      case _ => UndoFrame(c, false, x);
    }
  }

  /** The one attempt that may call finds nothing landed. */
  lemma ApartCall(c: Cell, a: nat, reply: Reply)
    requires NothingToRepeat(c)
    ensures OneEffect(DoCall(c, false, a, reply))
  {
  }

  lemma ApartStep(c: Cell, x: Act)
    requires NothingToRepeat(c) && Apart(c, x)
    ensures NothingToRepeat(Apply(c, false, x))
  {
    FlightStep(c, x);
    if x.Call? { ApartCall(c, x.attempt, x.reply); } else { CalmStep(c, false, x); }
  }

  /** Without key support, a truthful reconcile is enough as long as attempts do not overlap. */
  lemma {:induction false} ReconciledEffectsLandOnce(c: Cell, xs: seq<Act>)
    requires NothingToRepeat(c) && AllApart(c, false, xs)
    ensures OneEffect(Run(c, false, xs))
    decreases |xs|
  {
    if xs != [] {
      ApartStep(c, xs[0]);
      ReconciledEffectsLandOnce(Apply(c, false, xs[0]), xs[1..]);
    }
  }

  // --- exactly when an effect lands again -------------------------------------------------------------

  lemma {:induction false} RunConcat(c: Cell, honours: bool, xs: seq<Act>, ys: seq<Act>)
    ensures Run(c, honours, xs + ys) == Run(Run(c, honours, xs), honours, ys)
    decreases |xs|
  {
    if xs == [] {
      assert xs + ys == ys;
    } else {
      assert (xs + ys)[1..] == xs[1..] + ys;
      RunConcat(Apply(c, honours, xs[0]), honours, xs[1..], ys);
    }
  }

  lemma RunTwo(c: Cell, honours: bool, x: Act, y: Act)
    ensures Run(c, honours, [x, y]) == Apply(Apply(c, honours, x), honours, y)
  {
    assert [x, y][1..] == [y] && [y][1..] == [];
    assert Run(Apply(c, honours, x), honours, [y]) == Run(Apply(Apply(c, honours, x), honours, y), honours, []);
  }

  ghost predicate SomeCaller(c: Cell, honours: bool) {
    exists a :: a in c.flying && MayCall(honours, c.flying[a])
  }

  /** One action lands the effect once more exactly when it is a call, not refused, of an attempt in flight
      that may call, and the provider does not recognise the key of an effect it already has. */
  lemma LandsExactly(c: Cell, honours: bool, x: Act)
    ensures |Apply(c, honours, x).landed|
            == |c.landed| + if && x.Call? && x.attempt in c.flying && MayCall(honours, c.flying[x.attempt])
                               && !x.reply.Refused? && !(honours && c.landed != []) then 1 else 0
  {
  }

  /** Without key support, something has landed, and no attempt in flight may call. */
  ghost predicate Quietened(c: Cell) {
    c.landed != [] && c.row.Some? && c.row.value.attempts >= 1 && !SomeCaller(c, false)
  }

  lemma QuietStep(c: Cell, x: Act)
    requires Quietened(c)
    ensures Quietened(Apply(c, false, x)) && Apply(c, false, x).landed == c.landed
  {
    var d := Apply(c, false, x);
    forall a | a in d.flying ensures !MayCall(false, d.flying[a]) {
      if a in c.flying { assert !MayCall(false, c.flying[a]); }
    }
  }

  lemma {:induction false} QuietRun(c: Cell, xs: seq<Act>)
    requires Quietened(c)
    ensures Run(c, false, xs).landed == c.landed
    decreases |xs|
  {
    if xs != [] {
      QuietStep(c, xs[0]);
      QuietRun(Apply(c, false, xs[0]), xs[1..]);
    }
  }

  ghost predicate CanLandAgain(c: Cell, honours: bool) {
    exists xs :: |Run(c, honours, xs).landed| > |c.landed|
  }

  /** Without key support, an effect that has landed can land again exactly when an attempt that found
      nothing landed, or that started first, is still in flight. */
  lemma LandsAgainIff(c: Cell)
    requires c.landed != [] && c.row.Some? && c.row.value.attempts >= 1
    ensures CanLandAgain(c, false) <==> SomeCaller(c, false)
  {
    if SomeCaller(c, false) {
      var a :| a in c.flying && MayCall(false, c.flying[a]);
      var x := Call(a, LostReply(c.landed[0]));
      RunTwo(c, false, x, x);
      assert |Run(c, false, [x, x]).landed| > |c.landed|;
    } else if CanLandAgain(c, false) {
      var xs :| |Run(c, false, xs).landed| > |c.landed|;
      QuietRun(c, xs);
    }
  }

  /** Without key support, two attempts that may both call land the effect twice. */
  lemma TwoCallersLandTwice(c: Cell, a: nat, b: nat, r: EffectResult)
    requires c.landed == [] && a != b && a in c.flying && b in c.flying
    requires MayCall(false, c.flying[a]) && MayCall(false, c.flying[b])
    ensures Run(c, false, [Call(a, Answered(r)), Call(b, Answered(r))]).landed == [r, r]
  {
    RunTwo(c, false, Call(a, Answered(r)), Call(b, Answered(r)));
  }

  lemma RunThree(c: Cell, honours: bool, x: Act, y: Act, z: Act)
    ensures Run(c, honours, [x, y, z]) == Apply(Apply(Apply(c, honours, x), honours, y), honours, z)
  {
    assert [x, y, z] == [x, y] + [z];
    RunConcat(c, honours, [x, y], [z]);
    RunTwo(c, honours, x, y);
    var d := Run(c, honours, [x, y]);
    assert Run(d, honours, [z]) == Run(Apply(d, honours, z), honours, []);
  }

  /** Such a cell is reached at once: two workers both find nothing landed, and both land it. */
  lemma OverlapLandsTwice(r: EffectResult)
    ensures var xs := [Claim(1), Claim(2), Reconcile(2, false)] + [Call(1, Answered(r)), Call(2, Answered(r))];
            Run(NOTHING_YET, false, xs).landed == [r, r]
  {
    RunThree(NOTHING_YET, false, Claim(1), Claim(2), Reconcile(2, false));
    var c := Run(NOTHING_YET, false, [Claim(1), Claim(2), Reconcile(2, false)]);
    TwoCallersLandTwice(c, 1, 2, r);
    RunConcat(NOTHING_YET, false, [Claim(1), Claim(2), Reconcile(2, false)],
              [Call(1, Answered(r)), Call(2, Answered(r))]);
  }

  // --- compensated is final ------------------------------------------------------------------------

  ghost predicate Final(c: Cell) {
    c.row.Some? && c.row.value.status == EffCompensated && c.flying == map[]
  }

  /** A compensated effect with no attempt in flight is never executed again, whatever is tried. */
  lemma {:induction false} CompensatedIsFinal(c: Cell, honours: bool, xs: seq<Act>)
    requires Final(c)
    ensures Final(Run(c, honours, xs)) && Run(c, honours, xs).landed == c.landed
            && Run(c, honours, xs).outcomes == c.outcomes
    decreases |xs|
  {
    if xs != [] { CompensatedIsFinal(Apply(c, honours, xs[0]), honours, xs[1..]); }
  }

  /** An attempt still in flight when the row is compensated can turn it back: the next report decides.
      So a compensated row stays compensated through one action exactly when no attempt reports. */
  lemma CompensatedUntilReported(c: Cell, honours: bool, x: Act)
    requires c.row.Some? && c.row.value.status == EffCompensated
    ensures Apply(c, honours, x).row.Some?
    ensures Apply(c, honours, x).row.value.status == EffCompensated
            <==> !(x.Report? && x.attempt in c.flying && (c.flying[x.attempt].Holding? || c.flying[x.attempt].Broken?))
  {
  }

  // --- exactly when an effect is undone again ----------------------------------------------------------

  ghost predicate NoneListed(c: Cell) {
    forall u :: u in c.undoing ==> c.undoing[u] != Listed
  }

  /** The row is compensated, no attempt is in flight and no compensation has the row in its list. */
  ghost predicate Sealed(c: Cell) {
    Final(c) && NoneListed(c)
  }

  lemma {:induction false} SealedForGood(c: Cell, honours: bool, xs: seq<Act>)
    requires Sealed(c)
    ensures Sealed(Run(c, honours, xs)) && Run(c, honours, xs).undone == c.undone
    decreases |xs|
  {
    if xs != [] { SealedForGood(Apply(c, honours, xs[0]), honours, xs[1..]); }
  }

  ghost predicate CanUndoAgain(c: Cell, honours: bool) {
    exists xs :: Run(c, honours, xs).undone > c.undone
  }

  lemma UndoAfter(c: Cell, honours: bool, xs: seq<Act>)
    requires Run(c, honours, xs).undone == c.undone && CanUndoAgain(Run(c, honours, xs), honours)
    ensures CanUndoAgain(c, honours)
  {
    var d := Run(c, honours, xs);
    var ys :| Run(d, honours, ys).undone > d.undone;
    RunConcat(c, honours, xs, ys);
    assert Run(c, honours, xs + ys).undone > c.undone;
  }

  lemma FreshId(used: set<nat>) returns (n: nat)
    ensures forall k :: k in used ==> k < n
    decreases used
  {
    n := 0;
    if k :| k in used {
      var m := FreshId(used - {k});
      n := if k < m then m else k + 1;
      forall l | l in used ensures l < n {
        assert l == k || l in used - {k};
      }
    }
  }

  lemma ListedUndoes(c: Cell, honours: bool, u: nat)
    requires u in c.undoing && c.undoing[u] == Listed
    ensures CanUndoAgain(c, honours)
  {
    var x := UndoCall(u, UndoLost);
    RunTwo(c, honours, x, x);
    assert Run(c, honours, [x, x]).undone > c.undone;
  }

  lemma ExecutedUndoes(c: Cell, honours: bool)
    requires c.row.Some? && c.row.value.status == EffExecuted
    ensures CanUndoAgain(c, honours)
  {
    var u := FreshId(c.undoing.Keys);
    RunTwo(c, honours, UndoList(u), UndoList(u));
    var d := Run(c, honours, [UndoList(u), UndoList(u)]);
    ListedUndoes(d, honours, u);
    UndoAfter(c, honours, [UndoList(u), UndoList(u)]);
  }

  /** An attempt in flight that is not broken can still end in an executed row. */
  lemma FlyingUndoes(c: Cell, honours: bool, a: nat)
    requires c.row.Some? && a in c.flying && !c.flying[a].Broken?
    ensures CanUndoAgain(c, honours)
  {
    var xs := [Reconcile(a, false), Call(a, Answered(EffectResult(map[], None))), Report(a)];
    RunThree(c, honours, xs[0], xs[1], xs[2]);
    ExecutedUndoes(Run(c, honours, xs), honours);
    UndoAfter(c, honours, xs);
  }

  /** A row that is neither executed nor compensated can still be executed by a new attempt. */
  lemma OpenRowUndoes(c: Cell, honours: bool)
    requires c.row.Some? ==> c.row.value.status == EffPending || c.row.value.status == EffFailed
    ensures CanUndoAgain(c, honours)
  {
    var a := FreshId(c.flying.Keys);
    RunTwo(c, honours, Claim(a), Claim(a));
    FlyingUndoes(Run(c, honours, [Claim(a), Claim(a)]), honours, a);
    UndoAfter(c, honours, [Claim(a), Claim(a)]);
  }

  lemma BrokenUndoes(c: Cell, honours: bool, a: nat)
    requires c.row.Some? && a in c.flying && c.flying[a].Broken?
    ensures CanUndoAgain(c, honours)
  {
    RunTwo(c, honours, Report(a), Report(a));
    OpenRowUndoes(Run(c, honours, [Report(a), Report(a)]), honours);
    UndoAfter(c, honours, [Report(a), Report(a)]);
  }

  lemma UnsealedUndoes(c: Cell, honours: bool)
    requires !Sealed(c)
    ensures CanUndoAgain(c, honours)
  {
    if c.row.None? || c.row.value.status == EffPending || c.row.value.status == EffFailed {
      OpenRowUndoes(c, honours);
    } else if c.row.value.status == EffExecuted {
      ExecutedUndoes(c, honours);
    } else if a :| a in c.flying {
      if c.flying[a].Broken? { BrokenUndoes(c, honours, a); } else { FlyingUndoes(c, honours, a); }
    } else {
      var u :| u in c.undoing && c.undoing[u] == Listed;
      ListedUndoes(c, honours, u);
    }
  }

  /** The provider can be asked to undo the effect once more exactly when the cell is not sealed. */
  lemma UndoAgainIff(c: Cell, honours: bool)
    ensures CanUndoAgain(c, honours) <==> !Sealed(c)
  {
    if Sealed(c) {
      forall xs ensures Run(c, honours, xs).undone == c.undone {
        SealedForGood(c, honours, xs);
      }
    } else {
      UnsealedUndoes(c, honours);
    }
  }

  /** A whole compensation of an executed row, from its list to its mark. */
  function WholeUndo(u: nat): seq<Act> {
    [UndoList(u), UndoCall(u, UndoAnswered), UndoMark(u)]
  }

  lemma WholeUndoIs(c: Cell, honours: bool, u: nat)
    requires c.row.Some? && c.row.value.status == EffExecuted && u !in c.undoing
    ensures Run(c, honours, WholeUndo(u))
            == c.(row := Some(c.row.value.(status := EffCompensated)), undone := c.undone + 1)
  {
    RunThree(c, honours, UndoList(u), UndoCall(u, UndoAnswered), UndoMark(u));
    assert c.undoing[u := Listed][u := Reversed] - {u} == c.undoing;
  }

  /** A whole compensation undoes an executed effect once, and it can be undone again exactly when, as the
      compensation begins, an attempt is in flight or another compensation has the row in its list. */
  lemma UndoneForGoodIff(c: Cell, honours: bool, u: nat)
    requires c.row.Some? && c.row.value.status == EffExecuted && u !in c.undoing
    ensures var d := Run(c, honours, WholeUndo(u));
            && d.undone == c.undone + 1
            && (CanUndoAgain(d, honours) <==> c.flying != map[] || !NoneListed(c))
  {
    var d := Run(c, honours, WholeUndo(u));
    WholeUndoIs(c, honours, u);
    UndoAgainIff(d, honours);
    assert NoneListed(c) <==> NoneListed(d);
  }

  /** A compensation begins with nothing in flight, and does not die between the provider's undo and the mark. */
  predicate Orderly(c: Cell, x: Act) {
    match x
    case UndoList(_) => c.flying == map[] && c.undoing == map[]
    case UndoCall(_, answer) => answer != UndoLost
    case UndoVanish(u) => u in c.undoing ==> c.undoing[u] != Reversed
    case _ => true
  }

  predicate AllOrderly(c: Cell, honours: bool, xs: seq<Act>)
    decreases |xs|
  {
    xs == [] || (Orderly(c, xs[0]) && AllOrderly(Apply(c, honours, xs[0]), honours, xs[1..]))
  }

  ghost predicate UndoneOnce(c: Cell) {
    && (forall u, v :: u in c.undoing && v in c.undoing ==> u == v)
    && (c.undoing != map[] ==> c.row.Some? && c.row.value.status == EffExecuted && c.flying == map[])
    && (c.undone == 0 ==> NoneReversed(c))
    && (c.undone > 0 ==> c.undone == 1 && c.row.Some? && c.flying == map[] && NoneListed(c)
                         && (c.undoing == map[] ==> c.row.value.status == EffCompensated))
  }

  ghost predicate NoneReversed(c: Cell) {
    forall u :: u in c.undoing ==> c.undoing[u] != Reversed
  }

  lemma OrderlyStep(c: Cell, honours: bool, x: Act)
    requires UndoneOnce(c) && Orderly(c, x)
    ensures UndoneOnce(Apply(c, honours, x))
  {
    if x.UndoVanish? && x.undo !in c.undoing {
      assert c.undoing - {x.undo} == c.undoing;
    } else if x.UndoCall? && x.answer == UndoAnswered && x.undo in c.undoing {
      assert x.undo in c.undoing[x.undo := Reversed];
    }
  }

  /** When every compensation begins with nothing in flight and none dies half-way, the provider undoes the
      effect at most once, whatever attempts come in between. */
  lemma {:induction false} OrderlyUndoesOnce(c: Cell, honours: bool, xs: seq<Act>)
    requires UndoneOnce(c) && AllOrderly(c, honours, xs)
    ensures UndoneOnce(Run(c, honours, xs)) && Run(c, honours, xs).undone <= 1
    decreases |xs|
  {
    if xs != [] {
      OrderlyStep(c, honours, xs[0]);
      OrderlyUndoesOnce(Apply(c, honours, xs[0]), honours, xs[1..]);
    }
  }

  /** One landing undone twice, with a provider that honours the key: an attempt in flight during the first
      compensation turns the row back to executed. */
  lemma LateReportUndoesTwice(r: EffectResult)
    ensures var xs := [Claim(1), Claim(2), Call(1, Answered(r))] + [Report(1)] + WholeUndo(0)
                      + [Call(2, Answered(r)), Report(2)] + WholeUndo(0);
            Run(NOTHING_YET, true, xs).landed == [r] && Run(NOTHING_YET, true, xs).undone == 2
  {
    var a, b, e := [Claim(1), Claim(2), Call(1, Answered(r))], [Report(1)], [Call(2, Answered(r)), Report(2)];
    var c1 := Run(NOTHING_YET, true, a);
    RunThree(NOTHING_YET, true, Claim(1), Claim(2), Call(1, Answered(r)));
    var c2 := Run(c1, true, b);
    assert c2 == Run(Apply(c1, true, Report(1)), true, []);
    var c3 := Run(c2, true, WholeUndo(0));
    WholeUndoIs(c2, true, 0);
    var c4 := Run(c3, true, e);
    RunTwo(c3, true, Call(2, Answered(r)), Report(2));
    WholeUndoIs(c4, true, 0);
    RunConcat(NOTHING_YET, true, a, b);
    RunConcat(NOTHING_YET, true, a + b, WholeUndo(0));
    RunConcat(NOTHING_YET, true, a + b + WholeUndo(0), e);
    RunConcat(NOTHING_YET, true, a + b + WholeUndo(0) + e, WholeUndo(0));
  }
}
