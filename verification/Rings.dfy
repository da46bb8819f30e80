/** Where the advancer does not come to rest: the linter lets a ring of exclusive
    gateways through, and a token on one goes round for ever. Without a wait-free
    cycle every step returns, as module Runs shows. */
module Rings {
  import opened Basics
  import opened Json
  import opened Compiled
  import opened State
  import opened Advance
  import opened Step
  import opened Game
  import opened Invariant
  import opened Running
  import opened Runs

  /** Exclusive gateways that choose one another under these variables. */
  ghost predicate Ring(p: Process, v: Value, R: set<NodeIx>) {
    forall n :: n in R ==>
      && p.KindOf(n).ExclusiveGateway?
      && var f := Chosen(p, n, p.KindOf(n).defaultFlow, v);
         f.Some? && p.Target(f.value) in R
  }

  lemma OneRound(p: Process, R: set<NodeIx>, m: Machine)
    requires Ring(p, m.s.variables, R) && |m.q| == 1 && m.Head().node in R
    ensures var o := Advance1(p, m);
            o.Ok? && o.m.s.variables == m.s.variables && |o.m.q| == 1 && o.m.Head().node in R
  {
    hide EnterTask, EnterDecision, EnterTimerCatch, EnterMessageCatch, EnterEventGateway, EnterSubProcess, EnterJoin, ForkOn, EnterEnd,
         EnterTerminateEnd, FirstHolding;
    assert m.q[1..] == [];
  }

  lemma {:induction false} GoesRound(p: Process, R: set<NodeIx>, m: Machine, k: nat)
    requires Ring(p, m.s.variables, R) && |m.q| == 1 && m.Head().node in R
    ensures !EndsIn(p, m, k)
    decreases k
  {
    hide Ring, Advance1;
    if k == 0 {
    } else {
      OneRound(p, R, m);
      GoesRound(p, R, Advance1(p, m).m, k - 1);
    }
  }

  /** A token alone on a ring keeps the advancer busy for ever. */
  lemma RingNeverEnds(p: Process, R: set<NodeIx>, m: Machine)
    requires Ring(p, m.s.variables, R) && |m.q| == 1 && m.Head().node in R
    ensures !Ends(p, m)
  {
    forall k: nat ensures !EndsIn(p, m, k) {
      GoesRound(p, R, m, k);
    }
  }

  /** No number of moves changes whether the queue ends. */
  lemma {:induction false} EndsFromThere(p: Process, m: Machine, k: nat, j: nat)
    requires Advanced(p, m, k).Ok? && EndsIn(p, m, j)
    ensures Ends(p, Advanced(p, m, k).m)
    decreases k
  {
    hide Advance1;
    if k == 0 || m.q == [] {
      assert EndsIn(p, Advanced(p, m, k).m, j);
    } else {
      EndsFromThere(p, Advance1(p, m).m, k - 1, j - 1);
    }
  }

  lemma EndsLater(p: Process, m: Machine, k: nat)
    requires Advanced(p, m, k).Ok? && Ends(p, m)
    ensures Ends(p, Advanced(p, m, k).m)
  {
    hide Advanced, EndsIn;
    var j: nat :| EndsIn(p, m, j);
    EndsFromThere(p, m, k, j);
  }

  // ---- every cycle of exclusive gateways can be such a ring

  ghost predicate Cyclic(p: Process, R: set<NodeIx>) {
    forall n :: n in R ==> p.KindOf(n).ExclusiveGateway? && exists f :: f in p.Outgoing(n) && p.Target(f) in R
  }

  /** The same graph, the conditions out of `R` keeping tokens within `R`. */
  function Kept(p: Process, R: set<NodeIx>): Process {
    p.(flows := seq(|p.flows|, f requires 0 <= f < |p.flows| =>
         if p.flows[f].source in R then p.flows[f].(condition := Some((v: Value) => p.flows[f].target in R)) else p.flows[f]))
  }

  /** Same but for its conditions. */
  ghost predicate SameGraph(p: Process, p': Process) {
    && p'.nodes == p.nodes && p'.hosts == p.hosts && p'.boundaries == p.boundaries && p'.errorBoundaries == p.errorBoundaries
    && p'.sidePath == p.sidePath && p'.scopeStarts == p.scopeStarts && p'.scopeOf == p.scopeOf && |p'.flows| == |p.flows|
    && p'.validTime == p.validTime && p'.repeats == p.repeats
    && (forall f :: p'.Target(f) == p.Target(f) && p'.Source(f) == p.Source(f))
  }

  lemma KeptSame(p: Process, R: set<NodeIx>)
    ensures SameGraph(p, Kept(p, R))
  {
    var p' := Kept(p, R);
    forall f: FlowIx ensures p'.Target(f) == p.Target(f) && p'.Source(f) == p.Source(f) {
      if f < |p.flows| {
        assert p'.flows[f].source == p.flows[f].source && p'.flows[f].target == p.flows[f].target;
      }
    }
  }

  lemma SameWired(p: Process, p': Process)
    requires SameGraph(p, p') && FlowsWired(p)
    ensures FlowsWired(p')
  {
    forall f: FlowIx | f < |p.flows| ensures p'.flows[f].source == p.flows[f].source && p'.flows[f].target == p.flows[f].target {
      assert p'.Target(f) == p.Target(f) && p'.Source(f) == p.Source(f);
    }
    forall n: NodeIx, f | n < |p.nodes| && f in p'.nodes[n].outgoing ensures f < |p'.flows| {
      OutOf(p, n, f);
    }
    forall n: NodeIx, f | n < |p.nodes| && f in p'.nodes[n].outgoing ensures p'.flows[f].source == n {
      OutOf(p, n, f);
      assert p'.Source(f) == p.Source(f);
    }
    forall n: NodeIx, f | n < |p.nodes| && f in p'.nodes[n].incoming ensures f < |p'.flows| {
      InTo(p, n, f);
    }
    forall n: NodeIx, f | n < |p.nodes| && f in p'.nodes[n].incoming ensures p'.flows[f].target == n {
      InTo(p, n, f);
      assert p'.Target(f) == p.Target(f);
    }
  }

  lemma SameShape(p: Process, p': Process, n: NodeIx)
    requires SameGraph(p, p') && ShapeOk(p, n)
    ensures ShapeOk(p', n)
  {
    assert p'.NodeAt(n) == p.NodeAt(n);
  }

  lemma SameStatics(p: Process, p': Process)
    requires SameGraph(p, p') && BoundariesOk(p) && StaticScopesOk(p)
    ensures BoundariesOk(p') && StaticScopesOk(p')
  {
    hide BoundariesOk, StaticScopesOk;
    forall n: NodeIx
      ensures p'.KindOf(n) == p.KindOf(n) && p'.ScopeOf(n) == p.ScopeOf(n)
      ensures p'.IsBoundary(n) <==> p.IsBoundary(n)
      ensures p'.MayHost(n) <==> p.MayHost(n)
    {
      SameNode(p, p', n);
    }
    SameBoundaries(p, p');
    SameScopes(p, p');
  }

  lemma SameNode(p: Process, p': Process, n: NodeIx)
    requires SameGraph(p, p')
    ensures p'.KindOf(n) == p.KindOf(n) && p'.ScopeOf(n) == p.ScopeOf(n)
    ensures (p'.IsBoundary(n) <==> p.IsBoundary(n)) && (p'.MayHost(n) <==> p.MayHost(n))
  {
    assert p'.Incoming(n) == p.Incoming(n);
    forall f | f in p.Incoming(n) ensures p'.KindOf(p'.Source(f)) == p.KindOf(p.Source(f)) {
    }
    assert p'.IsAlternative(n) <==> p.IsAlternative(n);
  }

  lemma SameBoundaries(p: Process, p': Process)
    requires SameGraph(p, p') && BoundariesOk(p)
    requires forall n: NodeIx :: p'.KindOf(n) == p.KindOf(n) && p'.ScopeOf(n) == p.ScopeOf(n) && (p'.IsBoundary(n) <==> p.IsBoundary(n)) && (p'.MayHost(n) <==> p.MayHost(n))
    ensures BoundariesOk(p')
  {
    hide Process.KindOf, Process.ScopeOf, Process.IsBoundary, Process.MayHost;
  }

  lemma SameScopes(p: Process, p': Process)
    requires SameGraph(p, p') && StaticScopesOk(p)
    requires forall n: NodeIx :: p'.KindOf(n) == p.KindOf(n) && p'.ScopeOf(n) == p.ScopeOf(n)
    ensures StaticScopesOk(p')
  {
    hide Process.KindOf, Process.ScopeOf;
  }

  lemma SameCertified(p: Process, p': Process)
    requires SameGraph(p, p') && Certified(p)
    ensures Certified(p')
  {
    assert forall n: NodeIx :: p'.KindOf(n) == p.KindOf(n) && p'.Incoming(n) == p.Incoming(n) && p'.Outgoing(n) == p.Outgoing(n);
    forall c | Conserving(p, c) ensures Conserving(p', c) {
      forall n: NodeIx | n < |p'.nodes| ensures NodeConserves(p', c, n) {
        assert NodeConserves(p, c, n);
      }
    }
    hide Conserving;
    forall n: NodeIx, f | n < |p'.nodes| && p'.IsJoin(n) && f in p'.Incoming(n)
      ensures exists c :: Conserving(p', c) && f in c.flows
    {
      assert p.IsJoin(n) && f in p.Incoming(n);
    }
  }

  lemma SameSides(p: Process, p': Process)
    requires SameGraph(p, p') && SidePathsOk(p)
    ensures SidePathsOk(p')
  {
    var steps :| LedTo(p, steps);
    assert forall n: NodeIx :: p'.KindOf(n) == p.KindOf(n) && (p'.OnSidePath(n) <==> p.OnSidePath(n)) && p'.Outgoing(n) == p.Outgoing(n);
    forall n: NodeIx | p'.OnSidePath(n)
      ensures exists m: NodeIx :: m < |p'.nodes| && Onwards(p', m, n) && (StartsSidePath(p', m) || (p'.OnSidePath(m) && steps(m) < steps(n)))
    {
      var m: NodeIx :| m < |p.nodes| && Onwards(p, m, n) && (StartsSidePath(p, m) || (p.OnSidePath(m) && steps(m) < steps(n)));
      assert Onwards(p', m, n) && (StartsSidePath(p, m) <==> StartsSidePath(p', m));
    }
    assert LedTo(p', steps);
  }

  /** Nothing the linter reads is a condition's meaning. */
  lemma SameLinted(p: Process, p': Process)
    requires SameGraph(p, p') && Linted(p)
    ensures Linted(p')
  {
    hide SameGraph, FlowsWired, ShapeOk, BoundariesOk, StaticScopesOk, Certified, SidePathsOk;
    SameWired(p, p');
    forall n: NodeIx | n < |p.nodes| ensures ShapeOk(p', n) {
      SameShape(p, p', n);
    }
    SameStatics(p, p');
    SameCertified(p, p');
    SameSides(p, p');
    assert |p'.nodes| == |p.nodes| by { SameNodes(p, p'); }
  }

  lemma SameNodes(p: Process, p': Process)
    requires SameGraph(p, p')
    ensures p'.nodes == p.nodes
  {
  }

  lemma {:induction false} FirstKept(p: Process, R: set<NodeIx>, flows: seq<FlowIx>, defaultFlow: Option<FlowIx>, v: Value)
    requires forall i :: 0 <= i < |flows| ==> flows[i] < |p.flows| && p.Source(flows[i]) in R
    ensures var g := FirstHolding(Kept(p, R), flows, defaultFlow, v);
            (g.None? ==> defaultFlow.None?) &&
            (g.Some? ==> p.Target(g.value) in R || (g == defaultFlow && forall i :: 0 <= i < |flows| && Some(flows[i]) != defaultFlow ==> p.Target(flows[i]) !in R))
    decreases |flows|
  {
    if flows == [] {
    } else {
      KeptHolds(p, R, flows[0], v);
      hide Kept, Holds;
      FirstKept(p, R, flows[1..], defaultFlow, v);
    }
  }

  lemma KeptHolds(p: Process, R: set<NodeIx>, f: FlowIx, v: Value)
    requires f < |p.flows| && p.Source(f) in R
    ensures Holds(Kept(p, R), f, v) <==> p.Target(f) in R
  {
  }

  /** What the linter reads of a process cannot rule the loop out: over any cycle
      of exclusive gateways the same graph, with other conditions, passes the
      same lint and spins. */
  lemma AnyCycleSpins(p: Process, R: set<NodeIx>, v: Value)
    requires Linted(p) && Cyclic(p, R)
    ensures Linted(Kept(p, R)) && Ring(Kept(p, R), v, R)
  {
    KeptSame(p, R);
    SameLinted(p, Kept(p, R));
    hide Linted, Kept, SameGraph;
    var p' := Kept(p, R);
    forall n | n in R
      ensures p'.KindOf(n).ExclusiveGateway?
      ensures var f := Chosen(p', n, p'.KindOf(n).defaultFlow, v); f.Some? && p'.Target(f.value) in R
    {
      RingFlow(p, R, n, v);
    }
  }

  lemma SplitFlows(p: Process, n: NodeIx)
    requires WellFormed(p) && p.KindOf(n).ExclusiveGateway?
    ensures n < |p.nodes| && forall f :: f in p.Outgoing(n) ==> f < |p.flows| && p.Source(f) == n
    ensures |p.Outgoing(n)| > 1 ==> p.KindOf(n).defaultFlow.Some? && p.KindOf(n).defaultFlow.value in p.Outgoing(n)
  {
    assert ShapeOk(p, n);
    forall f | f in p.Outgoing(n) ensures f < |p.flows| && p.Source(f) == n {
      OutOf(p, n, f);
    }
  }

  lemma RingFlow(p: Process, R: set<NodeIx>, n: NodeIx, v: Value)
    requires WellFormed(p) && n in R && p.KindOf(n).ExclusiveGateway? && exists f :: f in p.Outgoing(n) && p.Target(f) in R
    requires SameGraph(p, Kept(p, R))
    ensures var p' := Kept(p, R);
            p'.KindOf(n) == p.KindOf(n) &&
            var f := Chosen(p', n, p.KindOf(n).defaultFlow, v); f.Some? && p'.Target(f.value) in R
  {
    hide WellFormed, SameGraph;
    SplitFlows(p, n);
    var p' := Kept(p, R);
    var out := p.Outgoing(n);
    assert p'.Outgoing(n) == out && forall i :: 0 <= i < |out| ==> out[i] in out;
    var g :| g in out && p.Target(g) in R;
    hide Kept;
    if |out| == 1 {
      assert out[0] == g;
    } else {
      FirstKept(p, R, out, p.KindOf(n).defaultFlow, v);
      var i :| 0 <= i < |out| && out[i] == g;
    }
  }

  // ---- an example

  /** Start, a merge, and a split whose default goes back to the merge. */
  const SPINNING := Process(
    [Node(Start, [], [0]),
     Node(ExclusiveGateway(None), [0, 2], [1]),
     Node(ExclusiveGateway(Some(2)), [1], [2, 3]),
     Node(End, [3], [])],
    [Flow(0, 1, None), Flow(1, 2, None), Flow(2, 1, None), Flow(2, 3, Some((v: Value) => false))],
    map[], map[], map[], [false, false, false, false], [0], [0, 0, 0, 0],
    (kind, text) => false, text => None)

  lemma SpinningWired()
    ensures FlowsWired(SPINNING)
  {
    assert |SPINNING.nodes| == |SPINNING.scopeOf| == 4;
    assert forall n: NodeIx, f: FlowIx :: n < 4 ==> NodeWired(SPINNING, n, f);
    assert forall f: FlowIx :: f < |SPINNING.flows| ==> FlowWired(SPINNING, f);
    hide SPINNING, NodeWired, FlowWired, FlowsWired;
    WiredBy(SPINNING);
  }

  lemma SpinningShape(n: NodeIx)
    requires n < |SPINNING.nodes|
    ensures ShapeOk(SPINNING, n) && !SPINNING.OnSidePath(n) && !SPINNING.KindOf(n).ParallelGateway?
  {
  }

  lemma SpinningLinted()
    ensures Linted(SPINNING)
  {
    var p := SPINNING;
    SpinningWired();
    assert |p.nodes| == |p.sidePath| == 4;
    forall n: NodeIx | n < |p.nodes| ensures ShapeOk(p, n) && !p.OnSidePath(n) && !p.IsJoin(n) {
      SpinningShape(n);
    }
    hide SPINNING, FlowsWired, ShapeOk, BoundariesOk, StaticScopesOk;
    assert LedTo(p, (n: NodeIx) => 0);
  }

  const SPINNING_START := [Move(0, 0, None, ROOT)]
  const SPINNING_RING: set<NodeIx> := {1, 2}

  lemma SpinningOpens(v: Value) returns (m: Machine)
    ensures OpenCommand(SPINNING, NEW_INSTANCE, StartWith(v)) == Opened(m)
    ensures m.q == SPINNING_START && m.s.variables == v
  {
    m := OpenStart(SPINNING, NEW_INSTANCE, v).m;
  }

  /** The linter accepts it, and its very first step never returns. */
  lemma SpinningNeverReturns(v: Value)
    ensures Linted(SPINNING) && Resting(SPINNING, NEW_INSTANCE)
    ensures !StepOf(SPINNING, NEW_INSTANCE, StartWith(v)).returned
  {
    hide SPINNING, Linted, Resting, NoWaitFreeCycle, OpenCommand, OpenStart, Advance1, Ring, Ends, EndsIn;
    var p := SPINNING;
    var m := SpinningOpens(v);
    SpinningLinted();
    NewRests(p);
    FirstMoveSpins(m, v);
    RingNeverEnds(p, SPINNING_RING, Advance1(p, m).m);
    assert Advanced(p, m, 1) == Advanced(p, Advance1(p, m).m, 0) == Advance1(p, m);
    if Ends(p, m) {
      EndsLater(p, m, 1);
    }
  }

  lemma FirstMoveSpins(m: Machine, v: Value)
    requires m.q == SPINNING_START && m.s.variables == v
    ensures var o := Advance1(SPINNING, m);
            && o.Ok? && |o.m.q| == 1 && o.m.Head().node == 1 && o.m.s.variables == v
            && Ring(SPINNING, v, SPINNING_RING)
  {
    var p := SPINNING;
    assert FirstHolding(p, [2, 3], Some(2), v) == FirstHolding(p, [3], Some(2), v) == FirstHolding(p, [], Some(2), v) by {
      assert [2, 3][1..] == [3] && [3][1..] == [];
    }
  }
}
