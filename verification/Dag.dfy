/** Dependency-graph validation and layering (src/agentforge/core/domain/dag.py). */
module Dag {
  import opened Domain

  type Graph = map<StepId, seq<StepId>>

  datatype DagError = SelfDependency | UnknownDependency | CyclicDependency

  // --- graph vocabulary ---------------------------------------------------

  predicate DependsOn(g: Graph, a: StepId, b: StepId) {
    a in g && b in g[a]
  }

  ghost predicate Known(g: Graph) {
    forall a, b :: DependsOn(g, a, b) ==> b in g
  }

  /** A dependency chain: each node depends on the next. */
  ghost predicate Chain(g: Graph, p: seq<StepId>) {
    forall i :: 0 <= i < |p| - 1 ==> DependsOn(g, p[i], p[i + 1])
  }

  ghost predicate Cycle(g: Graph, p: seq<StepId>) {
    |p| >= 2 && p[0] == p[|p| - 1] && Chain(g, p)
  }

  ghost predicate Acyclic(g: Graph) {
    forall p :: !Cycle(g, p)
  }

  ghost predicate ChainFrom(g: Graph, s: StepId, p: seq<StepId>) {
    |p| > 0 && p[0] == s && Chain(g, p)
  }

  /** The longest dependency chain starting at `s` has exactly `n` edges. */
  ghost predicate LongestChain(g: Graph, s: StepId, n: nat) {
    && (exists p :: ChainFrom(g, s, p) && |p| == n + 1)
    && (forall p :: ChainFrom(g, s, p) ==> |p| <= n + 1)
  }

  /** Steps sit in the layer numbered by their longest chain; each layer lists its steps once, sorted. */
  ghost predicate IsLayering(g: Graph, layers: seq<seq<StepId>>) {
    && (forall i :: 0 <= i < |layers| ==> StrictlySorted(layers[i]) && layers[i] != [])
    && (forall s, i :: 0 <= i < |layers| && s in layers[i] ==> s in g && LongestChain(g, s, i))
    && (forall s :: s in g ==> InLayers(layers, s))
    && (forall i, j, s :: 0 <= i < j < |layers| && s in layers[i] ==> s !in layers[j])
  }

  // --- a set in which everybody waits holds a cycle -------------------------

  lemma {:induction false} DistinctFits(p: seq<StepId>, u: set<StepId>)
    requires forall i :: 0 <= i < |p| ==> p[i] in u
    requires forall i, j :: 0 <= i < j < |p| ==> p[i] != p[j]
    ensures |p| <= |u|
    decreases |p|
  {
    if p != [] {
      DistinctFits(p[1..], u - {p[0]});
    }
  }

  ghost predicate WaitsOn(g: Graph, a: StepId, u: set<StepId>) {
    exists b :: b in u && DependsOn(g, a, b)
  }

  /** Every member of the set waits on a member of the set. */
  ghost predicate Stuck(g: Graph, u: set<StepId>) {
    forall a {:trigger WaitsOn(g, a, u)} :: a in u ==> WaitsOn(g, a, u)
  }

  lemma {:induction false} LongWalk(g: Graph, u: set<StepId>, s: StepId, n: nat) returns (p: seq<StepId>)
    requires s in u
    requires Stuck(g, u)
    ensures |p| == n + 1 && p[0] == s && Chain(g, p)
    ensures forall i :: 0 <= i < |p| ==> p[i] in u
    decreases n
  {
    if n == 0 {
      p := [s];
    } else {
      assert WaitsOn(g, s, u);
      var b :| b in u && DependsOn(g, s, b);
      var q := LongWalk(g, u, b, n - 1);
      p := [s] + q;
      forall i | 0 <= i < |p| - 1 ensures DependsOn(g, p[i], p[i + 1]) {
        if i > 0 { assert DependsOn(g, q[i - 1], q[i]); }
      }
    }
  }

  /** If every member of a non-empty set depends on a member of the set, the set holds a cycle. */
  lemma StuckSetHasCycle(g: Graph, u: set<StepId>) returns (c: seq<StepId>)
    requires u != {}
    requires Stuck(g, u)
    ensures Cycle(g, c)
    ensures forall i :: 0 <= i < |c| ==> c[i] in u
  {
    var s :| s in u;
    var p := LongWalk(g, u, s, |u|);
    if forall i, j :: 0 <= i < j < |p| ==> p[i] != p[j] {
      DistinctFits(p, u);
      assert false;
    }
    var i, j :| 0 <= i < j < |p| && p[i] == p[j];
    c := p[i..j + 1];
    SubChain(g, p, i, j + 1);
  }

  lemma SubChain(g: Graph, p: seq<StepId>, i: nat, j: nat)
    requires Chain(g, p) && i <= j <= |p|
    ensures Chain(g, p[i..j])
  {
    forall k | 0 <= k < j - i - 1 ensures DependsOn(g, p[i..j][k], p[i..j][k + 1]) {
      assert DependsOn(g, p[i + k], p[i + k + 1]);
    }
  }

  /** In an acyclic graph every non-empty set has a member none of whose dependencies is in the set. */
  lemma AcyclicHasSource(g: Graph, u: set<StepId>) returns (s: StepId)
    requires Acyclic(g) && u != {}
    ensures s in u && forall b :: DependsOn(g, s, b) ==> b !in u
  {
    if Stuck(g, u) {
      var c := StuckSetHasCycle(g, u);
      assert false;
    }
    s :| s in u && !WaitsOn(g, s, u);
  }

  // --- sorted lists of step ids ---------------------------------------------

  predicate Before(a: string, b: string) {
    b != [] && (a == [] || a[0] < b[0] || (a[0] == b[0] && Before(a[1..], b[1..])))
  }

  lemma {:induction false} BeforeTotal(a: string, b: string)
    ensures a == b || Before(a, b) || Before(b, a)
    decreases |a|
  {
    if a != [] && b != [] && a[0] == b[0] {
      BeforeTotal(a[1..], b[1..]);
      assert a == [a[0]] + a[1..] && b == [b[0]] + b[1..];
    }
  }

  lemma {:induction false} BeforeTransitive(a: string, b: string, c: string)
    requires Before(a, b) && Before(b, c)
    ensures Before(a, c)
    decreases |a|
  {
    if a != [] && a[0] == b[0] == c[0] { BeforeTransitive(a[1..], b[1..], c[1..]); }
  }

  ghost predicate StrictlySorted(p: seq<StepId>) {
    forall i, j :: 0 <= i < j < |p| ==> Before(p[i], p[j])
  }

  method Insert(p: seq<StepId>, x: StepId) returns (q: seq<StepId>)
    requires StrictlySorted(p) && x !in p
    ensures StrictlySorted(q)
    ensures forall y :: y in q <==> y in p || y == x
  {
    var k := 0;
    while k < |p| && Before(p[k], x)
      invariant 0 <= k <= |p|
      invariant forall i :: 0 <= i < k ==> Before(p[i], x)
    {
      k := k + 1;
    }
    q := p[..k] + [x] + p[k..];
    forall j | k <= j < |p| ensures Before(x, p[j]) {
      BeforeTotal(x, p[k]);
      if j > k { BeforeTransitive(x, p[k], p[j]); }
    }
    forall i, j | 0 <= i < j < |q| ensures Before(q[i], q[j]) {
      assert i < k ==> q[i] == p[i];
      assert j > k ==> q[j] == p[j - 1];
    }
    assert forall y :: y in p <==> y in p[..k] || y in p[k..] by { assert p == p[..k] + p[k..]; }
  }

  method Sorted(xs: set<StepId>) returns (p: seq<StepId>)
    ensures StrictlySorted(p)
    ensures forall x :: x in p <==> x in xs
  {
    p := [];
    var rest := xs;
    while rest != {}
      invariant rest <= xs && StrictlySorted(p)
      invariant forall x :: x in p <==> x in xs - rest
      decreases |rest|
    {
      var x :| x in rest;
      p := Insert(p, x);
      rest := rest - {x};
    }
  }

  // --- Kahn's layering --------------------------------------------------

  function DepSet(deps: seq<StepId>): set<StepId> {
    set b | b in deps
  }

  /** Steps not yet placed that wait only on placed ones. */
  function ReadySet(remaining: map<StepId, set<StepId>>, resolved: set<StepId>): set<StepId> {
    set s | s in remaining && remaining[s] <= resolved
  }

  function Without(m: map<StepId, set<StepId>>, gone: set<StepId>): (r: map<StepId, set<StepId>>)
    ensures r.Keys == m.Keys - gone
    ensures forall s :: s in r ==> r[s] == m[s]
    ensures gone != {} && gone <= m.Keys ==> |r.Keys| < |m.Keys|
  {
    var r := map s | s in m && s !in gone :: m[s];
    assert r.Keys == m.Keys - gone;
    assert gone <= m.Keys ==> |r.Keys| == |m.Keys| - |gone|;
    r
  }

  ghost predicate Unblocked(g: Graph, s: StepId, resolved: set<StepId>) {
    forall b :: DependsOn(g, s, b) ==> b in resolved
  }

  lemma ReadyMeans(g: Graph, remaining: map<StepId, set<StepId>>, resolved: set<StepId>)
    requires remaining.Keys == g.Keys - resolved
    requires forall s :: s in remaining ==> remaining[s] == DepSet(g[s])
    ensures forall s :: s in ReadySet(remaining, resolved) <==> s in g && s !in resolved && Unblocked(g, s, resolved)
  {
    forall s | s in remaining ensures remaining[s] <= resolved <==> Unblocked(g, s, resolved) {
    }
  }

  lemma Extend(g: Graph, s: StepId, b: StepId, q: seq<StepId>)
    requires DependsOn(g, s, b) && ChainFrom(g, b, q)
    ensures ChainFrom(g, s, [s] + q)
  {
    var p := [s] + q;
    forall i | 0 <= i < |p| - 1 ensures DependsOn(g, p[i], p[i + 1]) {
      if i > 0 { assert DependsOn(g, q[i - 1], q[i]); }
    }
  }

  ghost predicate HasChain(g: Graph, s: StepId, n: nat) {
    exists p :: ChainFrom(g, s, p) && |p| == n + 1
  }

  lemma NoChainFromCycle(g: Graph, c: seq<StepId>, n: nat)
    requires Cycle(g, c)
    ensures !LongestChain(g, c[0], n)
  {
    if q :| ChainFrom(g, c[0], q) && |q| == n + 1 {
      GoRound(g, c, q);
    }
  }

  lemma GoRound(g: Graph, c: seq<StepId>, q: seq<StepId>)
    requires Cycle(g, c) && ChainFrom(g, c[0], q)
    ensures ChainFrom(g, c[0], c[..|c| - 1] + q)
  {
    var p := c[..|c| - 1] + q;
    forall i | 0 <= i < |p| - 1 ensures DependsOn(g, p[i], p[i + 1]) {
      if i < |c| - 1 {
        assert DependsOn(g, c[i], c[i + 1]);
        assert i + 1 == |c| - 1 ==> p[i + 1] == q[0] == c[|c| - 1];
      } else {
        var k := i - (|c| - 1);
        assert DependsOn(g, q[k], q[k + 1]);
      }
    }
  }

  /** A layer numbered `n`: sorted, and no chain from its steps is longer than `n` edges
      (one has exactly `n` when all dependencies are known). */
  ghost predicate LayerOk(g: Graph, layer: seq<StepId>, n: nat) {
    && StrictlySorted(layer) && layer != []
    && (forall s, p :: s in layer && ChainFrom(g, s, p) ==> |p| <= n + 1)
    && (Known(g) ==> forall s :: s in layer ==> HasChain(g, s, n))
  }

  ghost predicate InLayers(layers: seq<seq<StepId>>, s: StepId) {
    exists i :: 0 <= i < |layers| && s in layers[i]
  }

  /** Everything the loop has established after placing `|layers|` layers. */
  ghost predicate Placed(g: Graph, layers: seq<seq<StepId>>, resolved: set<StepId>) {
    && resolved <= g.Keys
    && (forall i :: 0 <= i < |layers| ==> LayerOk(g, layers[i], i))
    && (forall s :: s in resolved <==> InLayers(layers, s))
    && (forall a :: a in resolved ==> Unblocked(g, a, resolved))
    && (Known(g) ==> forall s :: s in g && s !in resolved ==> HasChain(g, s, |layers|))
  }

  lemma NextLayerOk(g: Graph, layers: seq<seq<StepId>>, resolved: set<StepId>, layer: seq<StepId>)
    requires Placed(g, layers, resolved) && layer != [] && StrictlySorted(layer)
    requires forall s :: s in layer ==> s in g && s !in resolved && Unblocked(g, s, resolved)
    ensures LayerOk(g, layer, |layers|)
  {
    forall s, p | s in layer && ChainFrom(g, s, p) ensures |p| <= |layers| + 1 {
      if |p| > 1 {
        assert DependsOn(g, p[0], p[1]);
        assert InLayers(layers, p[1]);
        var i :| 0 <= i < |layers| && p[1] in layers[i];
        SubChain(g, p, 1, |p|);
        assert ChainFrom(g, p[1], p[1..]);
        assert LayerOk(g, layers[i], i);
      }
    }
  }

  lemma RestGrows(g: Graph, layers: seq<seq<StepId>>, resolved: set<StepId>, s: StepId)
    requires Placed(g, layers, resolved) && Known(g)
    requires s in g && !Unblocked(g, s, resolved)
    ensures HasChain(g, s, |layers| + 1)
  {
    var b :| DependsOn(g, s, b) && b !in resolved;
    assert HasChain(g, b, |layers|);
    var q :| ChainFrom(g, b, q) && |q| == |layers| + 1;
    Extend(g, s, b, q);
    assert |[s] + q| == |layers| + 2;
  }

  lemma InLayersSnoc(layers: seq<seq<StepId>>, layer: seq<StepId>, s: StepId)
    ensures InLayers(layers + [layer], s) <==> InLayers(layers, s) || s in layer
  {
    var all := layers + [layer];
    if i :| 0 <= i < |layers| && s in layers[i] { assert s in all[i]; }
    if s in layer { assert s in all[|layers|]; }
  }

  lemma PlaceLayer(g: Graph, layers: seq<seq<StepId>>, resolved: set<StepId>, layer: seq<StepId>, ready: set<StepId>)
    requires Placed(g, layers, resolved) && layer != [] && StrictlySorted(layer)
    requires forall s :: s in layer <==> s in ready
    requires forall s :: s in ready <==> s in g && s !in resolved && Unblocked(g, s, resolved)
    ensures Placed(g, layers + [layer], resolved + ready)
  {
    NextLayerOk(g, layers, resolved, layer);
    forall s ensures s in resolved + ready <==> InLayers(layers + [layer], s) {
      InLayersSnoc(layers, layer, s);
    }
    if Known(g) {
      forall s | s in g && s !in resolved + ready ensures HasChain(g, s, |layers| + 1) {
        RestGrows(g, layers, resolved, s);
      }
    }
    forall i | 0 <= i < |layers + [layer]| ensures LayerOk(g, (layers + [layer])[i], i) {
      if i < |layers| { assert LayerOk(g, layers[i], i); }
    }
  }

  lemma NothingPlaced(g: Graph)
    ensures Placed(g, [], {})
  {
    forall s | s in g ensures HasChain(g, s, 0) { assert ChainFrom(g, s, [s]); }
  }

  ghost predicate LoopState(g: Graph, layers: seq<seq<StepId>>, remaining: map<StepId, set<StepId>>,
                            resolved: set<StepId>) {
    && Placed(g, layers, resolved)
    && remaining.Keys == g.Keys - resolved
    && forall s :: s in remaining ==> remaining[s] == DepSet(g[s])
  }

  lemma LoopStep(g: Graph, layers: seq<seq<StepId>>, remaining: map<StepId, set<StepId>>, resolved: set<StepId>,
                 layer: seq<StepId>)
    requires LoopState(g, layers, remaining, resolved)
    requires ReadySet(remaining, resolved) != {} && StrictlySorted(layer)
    requires forall s :: s in layer <==> s in ReadySet(remaining, resolved)
    ensures var ready := ReadySet(remaining, resolved);
            LoopState(g, layers + [layer], Without(remaining, ready), resolved + ready)
  {
    var ready := ReadySet(remaining, resolved);
    ReadyLayer(g, layers, remaining, resolved, layer);
    ShrinkKeys(g, remaining, resolved, ready);
  }

  lemma ReadyLayer(g: Graph, layers: seq<seq<StepId>>, remaining: map<StepId, set<StepId>>, resolved: set<StepId>,
                   layer: seq<StepId>)
    requires LoopState(g, layers, remaining, resolved)
    requires ReadySet(remaining, resolved) != {} && StrictlySorted(layer)
    requires forall s :: s in layer <==> s in ReadySet(remaining, resolved)
    ensures Placed(g, layers + [layer], resolved + ReadySet(remaining, resolved))
  {
    ReadyMeans(g, remaining, resolved);
    var s :| s in ReadySet(remaining, resolved);
    assert s in layer;
    PlaceLayer(g, layers, resolved, layer, ReadySet(remaining, resolved));
  }

  lemma ShrinkKeys(g: Graph, remaining: map<StepId, set<StepId>>, resolved: set<StepId>, ready: set<StepId>)
    requires remaining.Keys == g.Keys - resolved
    requires forall s :: s in remaining ==> remaining[s] == DepSet(g[s])
    ensures Without(remaining, ready).Keys == g.Keys - (resolved + ready)
    ensures forall s :: s in Without(remaining, ready) ==> Without(remaining, ready)[s] == DepSet(g[s])
  {
  }

  lemma LoopEnd(g: Graph, layers: seq<seq<StepId>>, remaining: map<StepId, set<StepId>>, resolved: set<StepId>)
    requires LoopState(g, layers, remaining, resolved)
    ensures remaining == map[] ==> Known(g) && Acyclic(g) && IsLayering(g, layers)
    ensures remaining != map[] && ReadySet(remaining, resolved) == {} ==> !(Known(g) && Acyclic(g))
  {
    if remaining == map[] {
      assert resolved == g.Keys;
      LayersAreSound(g, layers, resolved);
    } else if ReadySet(remaining, resolved) == {} {
      ReadyMeans(g, remaining, resolved);
      StuckIsFaulty(g, remaining.Keys, resolved);
    }
  }

  /** The layering succeeds exactly when every dependency is a known step and no chain closes
      on itself; a step's layer number is then the length of its longest dependency chain. */
  method TopologicalLayers(g: Graph) returns (r: Result<seq<seq<StepId>>, DagError>)
    ensures r.Ok? <==> Known(g) && Acyclic(g)
    ensures r.Ok? ==> IsLayering(g, r.value)
    ensures r.Err? ==> r.error == CyclicDependency
  {
    var remaining := map s | s in g :: DepSet(g[s]);
    var layers: seq<seq<StepId>> := [];
    var resolved: set<StepId> := {};
    NothingPlaced(g);
    while remaining != map[]
      invariant LoopState(g, layers, remaining, resolved)
      decreases |remaining.Keys|
    {
      var ready := ReadySet(remaining, resolved);
      if ready == {} {
        LoopEnd(g, layers, remaining, resolved);
        return Err(CyclicDependency);
      }
      var layer := Sorted(ready);
      LoopStep(g, layers, remaining, resolved, layer);
      layers := layers + [layer];
      resolved := resolved + ready;
      remaining := Without(remaining, ready);
    }
    LoopEnd(g, layers, remaining, resolved);
    r := Ok(layers);
  }

  lemma StuckIsFaulty(g: Graph, u: set<StepId>, resolved: set<StepId>)
    requires u == g.Keys - resolved && u != {}
    requires forall s :: s in u ==> !Unblocked(g, s, resolved)
    ensures !(Known(g) && Acyclic(g))
  {
    if Known(g) {
      forall s | s in u ensures WaitsOn(g, s, u) {
        var b :| DependsOn(g, s, b) && b !in resolved;
      }
      var c := StuckSetHasCycle(g, u);
    }
  }

  lemma LayersAreSound(g: Graph, layers: seq<seq<StepId>>, resolved: set<StepId>)
    requires Placed(g, layers, resolved) && resolved == g.Keys
    ensures Known(g) && Acyclic(g) && IsLayering(g, layers)
  {
    forall a, b | DependsOn(g, a, b) ensures b in g {
      assert Unblocked(g, a, resolved);
    }
    forall s, i | 0 <= i < |layers| && s in layers[i] ensures s in g && LongestChain(g, s, i) {
      assert InLayers(layers, s) && LayerOk(g, layers[i], i) && HasChain(g, s, i);
    }
    forall i, j, s | 0 <= i < j < |layers| && s in layers[i] ensures s !in layers[j] {
    }
    forall c | Cycle(g, c) ensures false {
      assert DependsOn(g, c[0], c[1]);
      assert InLayers(layers, c[0]);
      var i :| 0 <= i < |layers| && c[0] in layers[i];
      NoChainFromCycle(g, c, i);
    }
  }

  /** Definition-time validation: self and unknown dependencies first, then the layering. */
  method ValidateDependencies(g: Graph) returns (r: Result<seq<seq<StepId>>, DagError>)
    ensures r.Ok? <==> Known(g) && Acyclic(g)
    ensures r == Err(SelfDependency) ==> exists s :: DependsOn(g, s, s)
    ensures r == Err(UnknownDependency) ==> !Known(g)
    ensures r == Err(CyclicDependency) ==> Known(g) && (exists c :: Cycle(g, c)) && forall s :: !DependsOn(g, s, s)
  {
    var todo := g.Keys;
    while todo != {}
      invariant todo <= g.Keys
      invariant forall a, b :: a in g && a !in todo && DependsOn(g, a, b) ==> b in g && a != b
      decreases |todo|
    {
      var s :| s in todo;
      var k := 0;
      while k < |g[s]|
        invariant 0 <= k <= |g[s]|
        invariant forall i :: 0 <= i < k ==> g[s][i] != s && g[s][i] in g
      {
        var dep := g[s][k];
        if dep == s {
          assert DependsOn(g, s, s);
          assert Cycle(g, [s, s]);
          return Err(SelfDependency);
        }
        if dep !in g {
          assert DependsOn(g, s, dep);
          return Err(UnknownDependency);
        }
        k := k + 1;
      }
      todo := todo - {s};
    }
    r := TopologicalLayers(g);
  }
}
