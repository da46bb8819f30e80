/** A parallel block carries its own certificates: what is assumed of a linted
    process is met by the block BPMN is drawn with. */
module Blocks {
  import opened Basics
  import opened Compiled
  import opened Game
  import opened Running
  import Regions

  /** Start, a fork, a task on each branch, a join, an end. */
  const BLOCK := Process(
    [Node(Start, [], [0]),
     Node(ParallelGateway, [0], [1, 2]),
     Node(Task(User, ""), [1], [3]),
     Node(Task(Service, "t"), [2], [4]),
     Node(ParallelGateway, [3, 4], [5]),
     Node(End, [5], [])],
    [Flow(0, 1, None), Flow(1, 2, None), Flow(1, 3, None), Flow(2, 4, None), Flow(3, 4, None), Flow(4, 5, None)],
    map[], map[], map[], [false, false, false, false, false, false], [0], [0, 0, 0, 0, 0, 0],
    (kind, text) => false, text => None)

  /** The marking of one branch: the way from start to end along it. */
  const UPPER := Marks({0, 1, 3, 5}, {0, 1, 2, 4, 5})
  const LOWER := Marks({0, 2, 4, 5}, {0, 1, 3, 4, 5})

  lemma NodeMarks(n: NodeIx)
    requires n < 6
    ensures NodeConserves(BLOCK, UPPER, n) && NodeConserves(BLOCK, LOWER, n)
  {
    var p := BLOCK;
    assert p.IsJoin(n) <==> n == 4;
    assert p.IsFork(n) <==> n == 1;
    if n == 1 {
      assert 1 in p.Outgoing(1) && 2 in p.Outgoing(1);
    }
    if n == 4 {
      assert 3 in p.Incoming(4) && 4 in p.Incoming(4);
    }
  }

  lemma BlockCertified()
    ensures Certified(BLOCK)
  {
    var p := BLOCK;
    assert |p.nodes| == 6;
    assert forall n: NodeIx :: n < 6 && p.IsJoin(n) ==> n == 4 && p.Incoming(n) == [3, 4];
    hide BLOCK, NodeConserves;
    forall n: NodeIx | n < 6 ensures NodeConserves(p, UPPER, n) && NodeConserves(p, LOWER, n) {
      NodeMarks(n);
    }
    assert Conserving(p, UPPER) && Conserving(p, LOWER);
    assert 3 in UPPER.flows && 4 in LOWER.flows;
  }

  lemma BlockShape(n: NodeIx)
    requires n < 6
    ensures ShapeOk(BLOCK, n) && !BLOCK.OnSidePath(n)
  {
  }

  lemma BlockWired()
    ensures FlowsWired(BLOCK)
  {
    assert |BLOCK.nodes| == |BLOCK.scopeOf| == 6;
    assert forall n: NodeIx, f: FlowIx :: n < 6 ==> NodeWired(BLOCK, n, f);
    assert forall f: FlowIx :: f < |BLOCK.flows| ==> FlowWired(BLOCK, f);
    hide BLOCK, NodeWired, FlowWired, FlowsWired;
    WiredBy(BLOCK);
  }

  lemma BlockEmits(n: NodeIx, e: NodeIx)
    requires e in Emits(BLOCK, n)
    ensures n < e < 6
  {
    var p := BLOCK;
    assert p.KindOf(n).End? ==> Emits(p, n) == [] by { BlockExits(p.ScopeOf(n), |p.nodes|); }
    if !p.KindOf(n).End? {
      var i :| 0 <= i < |p.Outgoing(n)| && p.Target(p.Outgoing(n)[i]) == e;
    }
  }

  lemma {:induction false} BlockExits(k: ScopeIx, n: nat)
    ensures ExitTargets(BLOCK, k, n) == []
  {
    if n == 0 {
    } else {
      BlockExits(k, n - 1);
    }
  }

  /** The block is linted, and every step on it returns. */
  lemma BlockIsLinted()
    ensures Linted(BLOCK) && NoWaitFreeCycle(BLOCK)
  {
    var p := BLOCK;
    assert |p.nodes| == |p.sidePath| == 6;
    assert BoundariesOk(p) && StaticScopesOk(p);
    BlockCertified();
    BlockWired();
    hide BLOCK, FlowsWired, ShapeOk, Certified, Emits;
    forall n: NodeIx | n < 6 ensures ShapeOk(p, n) && !p.OnSidePath(n) {
      BlockShape(n);
    }
    assert LedTo(p, (n: NodeIx) => 0);
    var h: NodeIx -> nat := (n: NodeIx) => if n < 6 then 6 - n else 6;
    forall n, e | e in Emits(p, n) ensures h(e) < h(n) {
      BlockEmits(n, e);
    }
    assert Descends(p, h);
  }

  // ---- as the linter sees it

  const REGION := Regions.Region(4, map[2 := 0, 3 := 1])

  lemma BlockSteps(u: NodeIx, v: NodeIx)
    requires u < 6 && Regions.Into(BLOCK, u, v)
    ensures u == 2 ==> v == 4
    ensures u == 3 ==> v == 4
  {
  }

  lemma BlockEntries()
    ensures var p := BLOCK;
            && p.Outgoing(1) == [1, 2] && Regions.Entry(p, 1, 0) == 2 && Regions.Entry(p, 1, 1) == 3
            && p.Incoming(2) == [1] && p.Incoming(3) == [2] && p.Incoming(4) == [3, 4]
            && p.Source(1) == 1 && p.Source(2) == 1 && p.Source(3) == 2 && p.Source(4) == 3
            && p.KindOf(2).Task? && p.KindOf(3).Task? && p.IsJoin(4) && Regions.IsSplit(p, 1) && |p.nodes| == 6
  {
  }

  lemma BlockBranches()
    ensures Regions.BranchesOk(BLOCK, 1, REGION)
  {
    var p := BLOCK;
    BlockEntries();
    hide BLOCK, Regions.Into;
    forall u: NodeIx, v | u in REGION.branch && Regions.Into(p, u, v) ensures v == 4 {
      BlockSteps(u, v);
    }
    assert Regions.IsBranchWalk(p, 1, REGION, 0, [2], 2) && Regions.IsBranchWalk(p, 1, REGION, 1, [3], 3);
  }

  lemma BlockRegion()
    ensures Regions.IsRegion(BLOCK, 1, REGION)
  {
    var p := BLOCK;
    BlockEntries();
    BlockBranches();
    hide BLOCK, Regions.Into, Regions.BranchesOk;
    assert Regions.Delivers(p, 1, REGION, 0, 3) && Regions.Delivers(p, 1, REGION, 1, 4);
    assert Regions.DeliversOne(p, 1, REGION, 0) && Regions.DeliversOne(p, 1, REGION, 1);
    assert Regions.BlockOk(p, 1, REGION);
  }

  lemma BlockGateways(n: NodeIx)
    ensures Regions.IsSplit(BLOCK, n) <==> n == 1
    ensures n < 6 && BLOCK.IsJoin(n) <==> n == 4
    ensures !BLOCK.IsBoundary(n) && BLOCK.hosts == map[]
  {
  }

  lemma BlockReached()
    ensures Regions.Reached(BLOCK, 1)
  {
    var p := BLOCK;
    assert p.Outgoing(0) == [0] && p.Target(0) == 1 && 0 in p.Outgoing(0);
    assert Regions.IsWalk(p, [0, 1], 0, 1);
  }

  /** The linter's rules hold of the block too, and certify it. */
  lemma BlockIsAccepted()
    ensures Regions.LintAccepts(BLOCK)
  {
    var p := BLOCK;
    assert |p.nodes| == 6;
    hide BLOCK, Linted, WellFormed, Regions.SidePathRule, Regions.Balanced, Regions.IsRegion, Regions.IsSplit, Process.IsJoin, Process.IsBoundary, Regions.Reached;
    BlockIsLinted();
    BlockRegion();
    BlockReached();
    forall n: NodeIx
      ensures Regions.IsSplit(p, n) <==> n == 1
      ensures n < 6 && p.IsJoin(n) <==> n == 4
      ensures !p.IsBoundary(n) && p.hosts == map[]
    {
      BlockGateways(n);
    }
    OneBlock(p, 1, REGION);
    NoSidePaths(p);
  }

  lemma NoSidePaths(p: Process)
    requires forall n: NodeIx :: !p.IsBoundary(n)
    ensures Regions.SidePathRule(p)
  {
  }

  lemma OneBlock(p: Process, s: NodeIx, r: Regions.Region)
    requires Regions.IsRegion(p, s, r)
    requires forall n: NodeIx :: Regions.IsSplit(p, n) <==> n == s
    requires forall n: NodeIx :: n < |p.nodes| && p.IsJoin(n) <==> n == r.join
    ensures Regions.Balanced(p, map[s := r])
  {
    hide Regions.BranchesOk, Regions.BlockOk, Regions.IsSplit, Process.IsJoin;
    var R: map<NodeIx, Regions.Region> := map[s := r];
    assert s in R && R[s].join == r.join;
  }
}
