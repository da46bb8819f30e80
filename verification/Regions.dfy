/** Balanced blocks: the linter's region rule is what makes counting tokens at a
    join correct. From it, every flow into a parallel join lies on a place
    invariant. */
module Regions {
  import opened Compiled
  import opened Game
  import Closure
  import Running

  // ---- the graph as the linter walks it

  /** Over a flow, or into an interrupting boundary: a token at `u` goes on at `v`. */
  ghost predicate Into(p: Process, u: NodeIx, v: NodeIx) {
    (exists f :: f in p.Outgoing(u) && p.Target(f) == v) || (v in p.hosts && p.hosts[v] == u && p.Interrupts(v))
  }

  predicate IsSplit(p: Process, n: NodeIx) { p.KindOf(n).ParallelGateway? && |p.Outgoing(n)| > 1 }

  ghost predicate IsWalk(p: Process, path: seq<NodeIx>, a: NodeIx, b: NodeIx) {
    && path != [] && path[0] == a && path[|path| - 1] == b
    && (forall i :: 0 <= i < |path| ==> path[i] < |p.nodes|)
    && (forall i :: 0 <= i < |path| - 1 ==> Onwards(p, path[i], path[i + 1]))
  }

  /** On the side path of `b`, over flows and every boundary. */
  ghost predicate OnSideOf(p: Process, b: NodeIx, v: NodeIx) {
    StartsSidePath(p, b) && exists path :: IsWalk(p, path, b, v)
  }

  ghost predicate Beside(p: Process, v: NodeIx) {
    exists b :: OnSideOf(p, b, v)
  }

  // ---- what lint requires

  /** Nothing outside a side path reaches into it, and no parallel gateway is on it. */
  ghost predicate SidePathRule(p: Process) {
    forall b, v :: OnSideOf(p, b, v) && v != b ==>
      && !p.KindOf(v).ParallelGateway?
      && forall u: NodeIx :: u < |p.nodes| && Onwards(p, u, v) ==> OnSideOf(p, b, u)
  }

  /** Every gateway is reached from a start event. */
  ghost predicate ReachedRule(p: Process) {
    forall n: NodeIx :: n < |p.nodes| && IsSplit(p, n) ==> Reached(p, n)
  }

  ghost predicate Reached(p: Process, n: NodeIx) {
    exists a: NodeIx, path :: IsWalk(p, path, a, n) && p.KindOf(a).Start?
  }

  /** A split's block: its join, and the branch every node between them is on. */
  datatype Region = Region(join: NodeIx, branch: map<NodeIx, nat>)

  function Entry(p: Process, s: NodeIx, i: nat): NodeIx { p.Target(p.Branch(s, i)) }

  predicate OnBranch(r: Region, i: nat, v: NodeIx) { v in r.branch && r.branch[v] == i }

  /** A walk within one branch, from its entry. */
  ghost predicate IsBranchWalk(p: Process, s: NodeIx, r: Region, i: nat, path: seq<NodeIx>, v: NodeIx) {
    && i < |p.Outgoing(s)| && path != [] && path[0] == Entry(p, s, i) && path[|path| - 1] == v
    && (forall k :: 0 <= k < |path| ==> OnBranch(r, i, path[k]))
    && (forall k :: 0 <= k < |path| - 1 ==> Into(p, path[k], path[k + 1]))
  }

  /** Flow `g` delivers branch `i` to the join. */
  predicate Delivers(p: Process, s: NodeIx, r: Region, i: nat, g: FlowIx) {
    OnBranch(r, i, p.Source(g)) || (i < |p.Outgoing(s)| && g == p.Outgoing(s)[i])
  }

  /** Branches are disjoint until the join, and closed. */
  ghost predicate BranchesOk(p: Process, s: NodeIx, r: Region) {
    && s !in r.branch && r.join !in r.branch
    && (forall i: nat :: i < |p.Outgoing(s)| ==> Entry(p, s, i) == r.join || OnBranch(r, i, Entry(p, s, i)))
    && (forall u, v :: u in r.branch && Into(p, u, v) ==> v == r.join || OnBranch(r, r.branch[u], v))
    && (forall v :: v in r.branch ==> v < |p.nodes| && r.branch[v] < |p.Outgoing(s)| && exists path :: IsBranchWalk(p, s, r, r.branch[v], path, v))
  }

  ghost predicate DeliversOne(p: Process, s: NodeIx, r: Region, i: nat) {
    && (exists g :: g in p.Incoming(r.join) && Delivers(p, s, r, i, g))
    && (forall g, h :: g in p.Incoming(r.join) && h in p.Incoming(r.join) && Delivers(p, s, r, i, g) && Delivers(p, s, r, i, h) ==> g == h)
  }

  /** Tokens enter through the split, and each branch delivers exactly one. */
  ghost predicate BlockOk(p: Process, s: NodeIx, r: Region) {
    && (forall v, g :: v in r.branch && g in p.Incoming(v) ==> p.Source(g) == s || p.Source(g) in r.branch)
    && (forall g :: g in p.Incoming(r.join) ==> p.Source(g) == s || p.Source(g) in r.branch)
    && (forall i: nat :: i < |p.Outgoing(s)| ==> DeliversOne(p, s, r, i))
    && (forall v :: v in r.branch ==> !p.KindOf(v).End?)
  }

  ghost predicate IsRegion(p: Process, s: NodeIx, r: Region) {
    && s < |p.nodes| && r.join < |p.nodes| && IsSplit(p, s) && p.IsJoin(r.join)
    && BranchesOk(p, s, r) && BlockOk(p, s, r)
  }

  type Regions = map<NodeIx, Region>

  function Block(R: Regions, s: NodeIx): Region { if s in R then R[s] else Region(0, map[]) }

  /** Every split has its block, and every join closes exactly one. */
  ghost predicate Balanced(p: Process, R: Regions) {
    && (forall s: NodeIx :: s in R <==> s < |p.nodes| && IsSplit(p, s))
    && (forall s :: s in R ==> IsRegion(p, s, R[s]))
    && (forall s, t :: s in R && t in R && R[s].join == R[t].join ==> s == t)
    && (forall j: NodeIx :: j < |p.nodes| && p.IsJoin(j) ==> exists s :: s in R && R[s].join == j)
  }

  /** Boundaries hang on activities. */
  ghost predicate HostRule(p: Process) {
    forall b :: b in p.hosts ==> var k := p.KindOf(p.hosts[b]); k.Task? || k.MessageCatch? || k.SubProcess?
  }

  ghost predicate LintAccepts(p: Process) {
    && WellFormed(p) && HostRule(p) && SidePathRule(p) && ReachedRule(p) && exists R: Regions :: Balanced(p, R)
  }

  // ---- side paths are apart

  lemma WalkOn(p: Process, path: seq<NodeIx>, a: NodeIx, b: NodeIx, c: NodeIx)
    requires IsWalk(p, path, a, b) && Onwards(p, b, c) && c < |p.nodes|
    ensures IsWalk(p, path + [c], a, c)
  {
    hide Onwards;
  }

  lemma BesideOn(p: Process, u: NodeIx, v: NodeIx)
    requires Beside(p, u) && Onwards(p, u, v) && v < |p.nodes|
    ensures Beside(p, v)
  {
    var b :| OnSideOf(p, b, u);
    var path :| IsWalk(p, path, b, u);
    WalkOn(p, path, b, u, v);
    assert OnSideOf(p, b, v);
  }

  lemma BesideStarts(p: Process, b: NodeIx)
    requires StartsSidePath(p, b) && b < |p.nodes|
    ensures Beside(p, b)
  {
    assert IsWalk(p, [b], b, b);
    assert OnSideOf(p, b, b);
  }

  lemma BesideBack(p: Process, u: NodeIx, v: NodeIx)
    requires SidePathRule(p) && Beside(p, v) && !StartsSidePath(p, v) && Onwards(p, u, v) && u < |p.nodes|
    ensures Beside(p, u)
  {
    var b :| OnSideOf(p, b, v);
    assert v != b;
    assert OnSideOf(p, b, u);
  }

  lemma NoGatewayBeside(p: Process, v: NodeIx)
    requires SidePathRule(p) && p.KindOf(v).ParallelGateway?
    ensures !Beside(p, v)
  {
    hide Onwards;
    forall b ensures !OnSideOf(p, b, v) {
    }
  }

  // ---- steps within the graph

  lemma FlowInto(p: Process, g: FlowIx, n: NodeIx)
    requires WellFormed(p) && n < |p.nodes| && g in p.Incoming(n)
    ensures var x := p.Source(g);
            && x < |p.nodes| && g < |p.flows| && g in p.Outgoing(x) && p.Target(g) == n && Into(p, x, n) && Onwards(p, x, n)
            && !p.IsBoundary(n) && !p.KindOf(n).Start?
  {
    InTo(p, n, g);
    var x := p.Source(g);
    assert ShapeOk(p, x);
  }

  lemma IntoIs(p: Process, u: NodeIx, v: NodeIx)
    requires WellFormed(p) && u < |p.nodes| && Into(p, u, v)
    ensures v < |p.nodes| && Onwards(p, u, v) && !StartsSidePath(p, v) && !p.KindOf(v).Start?
    ensures p.IsBoundary(v) ==> v in p.hosts && p.HostOf(v) == u
    ensures !p.IsBoundary(v) ==> exists g :: g in p.Incoming(v) && p.Source(g) == u
  {
    if f :| f in p.Outgoing(u) && p.Target(f) == v {
      OutOf(p, u, f);
      FlowInto(p, f, v);
    } else {
      assert p.IsBoundary(v);
    }
  }

  lemma BesideSame(p: Process, u: NodeIx, v: NodeIx)
    requires WellFormed(p) && SidePathRule(p) && u < |p.nodes| && Into(p, u, v)
    ensures Beside(p, u) <==> Beside(p, v)
  {
    hide WellFormed, SidePathRule, Beside, Onwards, Into;
    IntoIs(p, u, v);
    if Beside(p, u) {
      BesideOn(p, u, v);
    }
    if Beside(p, v) {
      BesideBack(p, u, v);
    }
  }

  // ---- one step, seen from one block

  /** What comes into a block comes from it or from its split. */
  lemma ComesFrom(p: Process, s: NodeIx, r: Region, u: NodeIx, v: NodeIx)
    requires WellFormed(p) && IsRegion(p, s, r) && u < |p.nodes| && Into(p, u, v) && v in r.branch
    ensures u == s || u in r.branch
  {
    hide WellFormed, Into, Onwards, Delivers;
    IntoIs(p, u, v);
    if p.IsBoundary(v) {
      var path :| IsBranchWalk(p, s, r, r.branch[v], path, v);
      EntryIsNoBoundary(p, s, r.branch[v]);
      assert |path| > 1;
      var w := path[|path| - 2];
      assert Into(p, w, path[|path| - 2 + 1]);
      assert OnBranch(r, r.branch[v], w);
      IntoIs(p, w, v);
    } else {
      var g :| g in p.Incoming(v) && p.Source(g) == u;
    }
  }

  lemma EntryIsNoBoundary(p: Process, s: NodeIx, i: nat)
    requires WellFormed(p) && s < |p.nodes| && i < |p.Outgoing(s)|
    ensures !p.IsBoundary(Entry(p, s, i)) && !p.KindOf(Entry(p, s, i)).Start? && Entry(p, s, i) < |p.nodes|
    ensures p.Outgoing(s)[i] in p.Incoming(Entry(p, s, i)) && p.Source(p.Outgoing(s)[i]) == s && Into(p, s, Entry(p, s, i))
  {
    var f := p.Outgoing(s)[i];
    assert f in p.Outgoing(s);
    OutOf(p, s, f);
    FlowInto(p, f, p.Target(f));
  }

  /** On the same branch, or both outside. */
  predicate Alike(r: Region, u: NodeIx, v: NodeIx) {
    (u in r.branch <==> v in r.branch) && (u in r.branch ==> r.branch[u] == r.branch[v])
  }

  /** A step that neither leaves the split nor comes to the join stays where it is. */
  lemma StepStays(p: Process, s: NodeIx, r: Region, u: NodeIx, v: NodeIx)
    requires WellFormed(p) && IsRegion(p, s, r) && u < |p.nodes| && Into(p, u, v) && u != s && v != r.join
    ensures Alike(r, u, v)
  {
    if v in r.branch {
      ComesFrom(p, s, r, u, v);
    }
    hide WellFormed, Into, BlockOk, IsBranchWalk;
  }

  // ---- two blocks never lie in one another

  lemma BlockHasNoStart(p: Process, s: NodeIx, r: Region, v: NodeIx)
    requires WellFormed(p) && IsRegion(p, s, r) && v in r.branch
    ensures !p.KindOf(v).Start? && v < |p.nodes|
  {
    hide WellFormed, Into, BlockOk;
    var path :| IsBranchWalk(p, s, r, r.branch[v], path, v);
    if |path| == 1 {
      EntryIsNoBoundary(p, s, r.branch[v]);
    } else {
      var w := path[|path| - 2];
      assert Into(p, w, path[|path| - 2 + 1]) && OnBranch(r, r.branch[v], w);
      IntoIs(p, w, v);
    }
  }

  /** A walk that ends within two blocks that hold each other's split began there. */
  lemma {:induction false} WalkWithin(p: Process, R: Regions, s: NodeIx, t: NodeIx, path: seq<NodeIx>, a: NodeIx, v: NodeIx)
    requires WellFormed(p) && SidePathRule(p) && Balanced(p, R) && s in R && t in R && s in Block(R, t).branch && t in Block(R, s).branch
    requires IsWalk(p, path, a, v) && !Beside(p, v) && (v in Block(R, s).branch || v in Block(R, t).branch)
    ensures a in Block(R, s).branch || a in Block(R, t).branch
    decreases |path|
  {
    hide WellFormed, SidePathRule, IsRegion, Beside, Onwards, Into;
    if |path| <= 1 {
    } else {
      var front, u := path[..|path| - 1], path[|path| - 2];
      assert Onwards(p, u, path[|path| - 2 + 1]);
      MainStep(p, u, v);
      if v in R[s].branch {
        ComesFrom(p, s, R[s], u, v);
      } else {
        ComesFrom(p, t, R[t], u, v);
      }
      assert IsWalk(p, front, a, u);
      WalkWithin(p, R, s, t, front, a, u);
    }
  }

  /** Off the side paths every step is one a token of the main flow takes. */
  lemma MainStep(p: Process, u: NodeIx, v: NodeIx)
    requires Onwards(p, u, v) && !Beside(p, v) && u < |p.nodes| && v < |p.nodes| && WellFormed(p)
    ensures Into(p, u, v) && !Beside(p, u)
  {
    hide FlowsWired, ShapeOk, StaticScopesOk;
    if Beside(p, u) {
      BesideOn(p, u, v);
    }
    hide Beside;
    if v in p.hosts && !p.Interrupts(v) {
      BesideStarts(p, v);
    }
  }

  lemma NotInEachOther(p: Process, R: Regions, s: NodeIx, t: NodeIx)
    requires WellFormed(p) && SidePathRule(p) && ReachedRule(p) && Balanced(p, R) && s in R && t in R && t in Block(R, s).branch
    ensures s !in Block(R, t).branch
  {
    hide WellFormed, SidePathRule, IsRegion, Beside, IsWalk;
    if s in R[t].branch {
      assert Reached(p, s);
      var a: NodeIx, path :| IsWalk(p, path, a, s) && p.KindOf(a).Start?;
      NoGatewayBeside(p, s);
      WalkWithin(p, R, s, t, path, a, s);
      if a in R[s].branch {
        BlockHasNoStart(p, s, R[s], a);
      } else {
        BlockHasNoStart(p, t, R[t], a);
      }
    }
  }

  // ---- no split but its own delivers to a join directly

  /** A walk of one branch that ends in another block, whose split is not on the
      branch, lies in that block, and so does the split it began at. */
  lemma {:induction false} BranchWithin(p: Process, R: Regions, s: NodeIx, t: NodeIx, i: nat, path: seq<NodeIx>, v: NodeIx)
    requires WellFormed(p) && Balanced(p, R) && s in R && t in R && s != t && !OnBranch(Block(R, s), i, t)
    requires IsBranchWalk(p, s, Block(R, s), i, path, v) && v in Block(R, t).branch
    ensures s in Block(R, t).branch
    decreases |path|
  {
    hide WellFormed, Into, BlockOk, BranchesOk;
    assert IsRegion(p, t, R[t]) && IsRegion(p, s, R[s]);
    if |path| == 1 {
      EntryIsNoBoundary(p, s, i);
      ComesFrom(p, t, R[t], s, v);
    } else {
      var front, u := path[..|path| - 1], path[|path| - 2];
      assert Into(p, u, path[|path| - 2 + 1]) && OnBranch(R[s], i, u);
      BranchNode(p, s, R[s], u);
      ComesFrom(p, t, R[t], u, v);
      assert IsBranchWalk(p, s, R[s], i, front, u);
      BranchWithin(p, R, s, t, i, front, u);
    }
  }

  lemma BranchNode(p: Process, s: NodeIx, r: Region, v: NodeIx)
    requires IsRegion(p, s, r) && v in r.branch
    ensures v < |p.nodes| && r.branch[v] < |p.Outgoing(s)| && exists path :: IsBranchWalk(p, s, r, r.branch[v], path, v)
  {
  }

  lemma BranchDelivers(p: Process, s: NodeIx, r: Region, i: nat) returns (g: FlowIx)
    requires IsRegion(p, s, r) && i < |p.Outgoing(s)|
    ensures g in p.Incoming(r.join) && Delivers(p, s, r, i, g)
  {
    assert DeliversOne(p, s, r, i);
    g :| g in p.Incoming(r.join) && Delivers(p, s, r, i, g);
  }

  lemma FromBlock(p: Process, s: NodeIx, r: Region, g: FlowIx)
    requires IsRegion(p, s, r)
    ensures g in p.Incoming(r.join) ==> p.Source(g) == s || p.Source(g) in r.branch
    ensures forall v :: v in r.branch && g in p.Incoming(v) ==> p.Source(g) == s || p.Source(g) in r.branch
  {
  }

  lemma RegionOf(p: Process, R: Regions, s: NodeIx)
    requires Balanced(p, R) && s in R
    ensures IsRegion(p, s, Block(R, s)) && s < |p.nodes| && |p.Outgoing(s)| > 1 && Block(R, s).join < |p.nodes| && p.IsJoin(Block(R, s).join)
    ensures s !in Block(R, s).branch && Block(R, s).join !in Block(R, s).branch
    ensures forall t :: t in R && Block(R, t).join == Block(R, s).join ==> t == s
  {
  }

  lemma EntryPlace(p: Process, s: NodeIx, r: Region, i: nat)
    requires IsRegion(p, s, r) && i < |p.Outgoing(s)|
    ensures Entry(p, s, i) == r.join || OnBranch(r, i, Entry(p, s, i))
  {
  }

  lemma NoStrangerDelivers(p: Process, R: Regions, s: NodeIx, t: NodeIx, g: FlowIx)
    requires WellFormed(p) && SidePathRule(p) && ReachedRule(p) && Balanced(p, R)
    requires s in R && t in R && s != t && g in p.Incoming(Block(R, s).join)
    ensures p.Source(g) != t
  {
    hide WellFormed, SidePathRule, ReachedRule, Balanced, IsRegion, Into, IsBranchWalk;
    RegionOf(p, R, s);
    RegionOf(p, R, t);
    if p.Source(g) == t {
      var J := R[s].join;
      FlowInto(p, g, J);
      FromBlock(p, s, R[s], g);
      var i := R[s].branch[t];
      var k: nat :| k < |p.Outgoing(t)| && p.Outgoing(t)[k] == g;
      EntryPlace(p, t, R[t], k);
      var j: nat := if i == 0 then 1 else 0;
      var h := BranchDelivers(p, s, R[s], j);
      var y := p.Source(h);
      FromBlock(p, t, R[t], h);
      if h == p.Outgoing(s)[j] {
        EntryIsNoBoundary(p, s, j);
      } else {
        BranchNode(p, s, R[s], y);
        var path :| IsBranchWalk(p, s, R[s], j, path, y);
        BranchWithin(p, R, s, t, j, path, y);
      }
      NotInEachOther(p, R, s, t);
    }
  }

  // ---- the marking

  /** One branch chosen of every split. */
  ghost predicate Chooses(p: Process, R: Regions, choice: map<NodeIx, nat>) {
    choice.Keys == R.Keys && forall t :: t in R ==> choice[t] < |p.Outgoing(t)|
  }

  /** On a branch not chosen, of some split. */
  ghost predicate Off(R: Regions, choice: map<NodeIx, nat>, v: NodeIx) {
    exists t :: t in R && t in choice && v in R[t].branch && R[t].branch[v] != choice[t]
  }

  ghost predicate NodeMarked(p: Process, R: Regions, choice: map<NodeIx, nat>, v: NodeIx) {
    v < |p.nodes| && !Beside(p, v) && !Off(R, choice, v)
  }

  ghost predicate FlowMarked(p: Process, R: Regions, choice: map<NodeIx, nat>, g: FlowIx) {
    && g < |p.flows| && NodeMarked(p, R, choice, p.Source(g))
    && (p.Source(g) in R && p.Source(g) in choice ==>
          choice[p.Source(g)] < |p.Outgoing(p.Source(g))| && g == p.Outgoing(p.Source(g))[choice[p.Source(g)]])
  }

  ghost function MarksOf(p: Process, R: Regions, choice: map<NodeIx, nat>): Marks {
    Marks(set g: FlowIx | g < |p.flows| && FlowMarked(p, R, choice, g), set v: NodeIx | v < |p.nodes| && NodeMarked(p, R, choice, v))
  }

  predicate Picks(choice: map<NodeIx, nat>, s: NodeIx, i: nat) { s in choice && choice[s] == i }

  /** What the theorem is about, in one name. */
  ghost predicate Marking(p: Process, R: Regions, choice: map<NodeIx, nat>) {
    WellFormed(p) && HostRule(p) && SidePathRule(p) && ReachedRule(p) && Balanced(p, R) && Chooses(p, R, choice)
  }

  lemma OffAlike(R: Regions, choice: map<NodeIx, nat>, u: NodeIx, v: NodeIx)
    requires forall t :: t in R ==> Alike(Block(R, t), u, v)
    ensures Off(R, choice, u) <==> Off(R, choice, v)
  {
  }

  lemma OffBut(R: Regions, choice: map<NodeIx, nat>, s: NodeIx, u: NodeIx, v: NodeIx)
    requires s in R && s in choice && forall t :: t in R && t != s ==> Alike(Block(R, t), u, v)
    ensures (Off(R, choice, u) && !(u in Block(R, s).branch && Block(R, s).branch[u] != choice[s])) ==> Off(R, choice, v)
  {
  }

  /** A step from a node that is no split into one that is no join. */
  lemma PlainStep(p: Process, R: Regions, choice: map<NodeIx, nat>, u: NodeIx, v: NodeIx)
    requires Marking(p, R, choice) && u < |p.nodes| && Into(p, u, v) && u !in R && !p.IsJoin(v)
    ensures NodeMarked(p, R, choice, u) <==> NodeMarked(p, R, choice, v)
  {
    hide WellFormed, SidePathRule, ReachedRule, IsRegion, Into, Beside, Onwards, Alike, Off;
    IntoIs(p, u, v);
    BesideSame(p, u, v);
    forall t | t in R ensures Alike(R[t], u, v) {
      RegionOf(p, R, t);
      StepStays(p, t, R[t], u, v);
    }
    OffAlike(R, choice, u, v);
  }

  /** A split's flow into a node that is no join: marked when it is the chosen one. */
  lemma SplitStep(p: Process, R: Regions, choice: map<NodeIx, nat>, s: NodeIx, i: nat)
    requires Marking(p, R, choice) && s in R && i < |p.Outgoing(s)| && !p.IsJoin(Entry(p, s, i))
    ensures NodeMarked(p, R, choice, Entry(p, s, i)) <==> NodeMarked(p, R, choice, s) && Picks(choice, s, i)
  {
    hide WellFormed, SidePathRule, ReachedRule, IsRegion, Into, Beside, Onwards, Alike;
    var v := Entry(p, s, i);
    RegionOf(p, R, s);
    EntryIsNoBoundary(p, s, i);
    EntryPlace(p, s, R[s], i);
    BesideSame(p, s, v);
    forall t | t in R && t != s ensures Alike(R[t], s, v) && Alike(R[t], v, s) {
      RegionOf(p, R, t);
      StepStays(p, t, R[t], s, v);
      AlikeBack(R[t], s, v);
    }
    OffBut(R, choice, s, s, v);
    OffBut(R, choice, s, v, s);
  }

  lemma AlikeBack(r: Region, u: NodeIx, v: NodeIx)
    requires Alike(r, u, v)
    ensures Alike(r, v, u)
  {
  }

  /** What delivers to a join stands, but for its own block, where the join does. */
  lemma DeliversAlike(p: Process, R: Regions, choice: map<NodeIx, nat>, s: NodeIx, g: FlowIx, t: NodeIx)
    requires Marking(p, R, choice) && s in R && g in p.Incoming(Block(R, s).join) && t in R && t != s
    ensures Alike(Block(R, t), p.Source(g), Block(R, s).join) && Alike(Block(R, t), Block(R, s).join, p.Source(g))
  {
    hide WellFormed, SidePathRule, ReachedRule, Balanced, IsRegion, Into, Onwards, Alike;
    RegionOf(p, R, s);
    RegionOf(p, R, t);
    FlowInto(p, g, R[s].join);
    NoStrangerDelivers(p, R, s, t, g);
    StepStays(p, t, R[t], p.Source(g), R[s].join);
    AlikeBack(R[t], p.Source(g), R[s].join);
  }

  /** The flow a join receives from branch `i` is marked when the join is and `i`
      is the chosen branch. */
  lemma DeliveredMarked(p: Process, R: Regions, choice: map<NodeIx, nat>, s: NodeIx, i: nat, g: FlowIx)
    requires Marking(p, R, choice) && s in R && i < |p.Outgoing(s)| && g in p.Incoming(Block(R, s).join) && Delivers(p, s, Block(R, s), i, g)
    ensures FlowMarked(p, R, choice, g) <==> NodeMarked(p, R, choice, Block(R, s).join) && Picks(choice, s, i)
  {
    hide WellFormed, SidePathRule, ReachedRule, Balanced, IsRegion, Into, Onwards, Beside, Alike;
    var J, x := R[s].join, p.Source(g);
    RegionOf(p, R, s);
    FlowInto(p, g, J);
    BesideSame(p, x, J);
    forall t | t in R && t != s ensures Alike(R[t], x, J) && Alike(R[t], J, x) && x != t {
      DeliversAlike(p, R, choice, s, g, t);
      NoStrangerDelivers(p, R, s, t, g);
    }
    OffBut(R, choice, s, x, J);
    OffBut(R, choice, s, J, x);
    if x == s {
      SplitFlow(p, R, s, i, g);
      assert s in choice && p.Outgoing(s)[choice[s]] == p.Branch(s, choice[s]);
    } else {
      assert x !in R;
      if g == p.Outgoing(s)[i] {
        EntryIsNoBoundary(p, s, i);
      }
    }
  }

  /** A flow of the split itself delivers the branch it is. */
  lemma SplitFlow(p: Process, R: Regions, s: NodeIx, i: nat, g: FlowIx)
    requires WellFormed(p) && Balanced(p, R) && s in R && i < |p.Outgoing(s)| && p.Source(g) == s && Delivers(p, s, Block(R, s), i, g)
    ensures g == p.Branch(s, i) && forall k: nat :: k < |p.Outgoing(s)| && p.Branch(s, k) == g ==> k == i
  {
    RegionOf(p, R, s);
    hide Balanced;
    assert NoRepeats(p.Outgoing(s));
  }

  // ---- it is conserved

  lemma OutgoingConserves(p: Process, R: Regions, choice: map<NodeIx, nat>, n: NodeIx)
    requires Marking(p, R, choice) && n < |p.nodes|
    ensures var c := MarksOf(p, R, choice);
            if p.IsFork(n)
            then AtMostOneMarked(c, p.Outgoing(n)) && (n in c.nodes <==> SomeMarked(c, p.Outgoing(n)))
            else AllAs(c, p.Outgoing(n), n in c.nodes)
  {
    hide WellFormed, HostRule, SidePathRule, ReachedRule, Balanced, NodeMarked;
    OutgoingIs(p, n);
    SplitsAre(p, R);
    var c := MarksOf(p, R, choice);
    var out := p.Outgoing(n);
    forall f | f in out ensures f in c.flows <==> n in c.nodes && (n in R ==> f == out[choice[n]]) {
    }
    if n in R {
      assert out[choice[n]] in out;
    } else if out != [] {
      assert out[0] in out && forall f :: f in out && p.IsFork(n) ==> f == out[0];
    }
  }

  lemma OutgoingIs(p: Process, n: NodeIx)
    requires WellFormed(p) && n < |p.nodes|
    ensures forall f :: f in p.Outgoing(n) ==> f < |p.flows| && p.Source(f) == n
    ensures p.KindOf(n).ParallelGateway? ==> |p.Outgoing(n)| >= 1
    ensures IsSplit(p, n) ==> p.IsFork(n)
  {
    assert ShapeOk(p, n);
    hide BoundariesOk, StaticScopesOk;
    forall f | f in p.Outgoing(n) ensures f < |p.flows| && p.Source(f) == n {
      OutOf(p, n, f);
    }
  }

  lemma JoinIncomingConserves(p: Process, R: Regions, choice: map<NodeIx, nat>, s: NodeIx)
    requires Marking(p, R, choice) && s in R
    ensures var c := MarksOf(p, R, choice);
            var n := Block(R, s).join;
            AtMostOneMarked(c, p.Incoming(n)) && (n in c.nodes <==> SomeMarked(c, p.Incoming(n)))
  {
    hide WellFormed, SidePathRule, ReachedRule, Balanced, IsRegion, NodeMarked, FlowMarked, Delivers;
    var c := MarksOf(p, R, choice);
    RegionOf(p, R, s);
    var n := R[s].join;
    forall g | g in p.Incoming(n) && g in c.flows
      ensures Delivers(p, s, R[s], choice[s], g) && NodeMarked(p, R, choice, n)
    {
      var i := BranchOf(p, R, s, g);
      DeliveredMarked(p, R, choice, s, i, g);
    }
    forall f, g | f in p.Incoming(n) && g in p.Incoming(n) && f in c.flows && g in c.flows ensures f == g {
      DeliversOnce(p, s, R[s], choice[s], f, g);
    }
    if NodeMarked(p, R, choice, n) {
      var g := BranchDelivers(p, s, R[s], choice[s]);
      DeliveredMarked(p, R, choice, s, choice[s], g);
      FlowInto(p, g, n);
      assert g in c.flows;
    }
  }

  lemma DeliversOnce(p: Process, s: NodeIx, r: Region, i: nat, f: FlowIx, g: FlowIx)
    requires IsRegion(p, s, r) && i < |p.Outgoing(s)| && f in p.Incoming(r.join) && g in p.Incoming(r.join)
    requires Delivers(p, s, r, i, f) && Delivers(p, s, r, i, g)
    ensures f == g
  {
    assert DeliversOne(p, s, r, i);
  }

  /** Every flow into the join delivers some branch. */
  lemma BranchOf(p: Process, R: Regions, s: NodeIx, g: FlowIx) returns (i: nat)
    requires WellFormed(p) && Balanced(p, R) && s in R && g in p.Incoming(Block(R, s).join)
    ensures i < |p.Outgoing(s)| && Delivers(p, s, Block(R, s), i, g)
  {
    hide WellFormed, Balanced, IsRegion, Into, IsBranchWalk;
    RegionOf(p, R, s);
    FromBlock(p, s, R[s], g);
    FlowInto(p, g, R[s].join);
    if p.Source(g) == s {
      i :| i < |p.Outgoing(s)| && p.Outgoing(s)[i] == g;
    } else {
      i := R[s].branch[p.Source(g)];
      BranchNode(p, s, R[s], p.Source(g));
    }
  }

  lemma PlainIncomingConserves(p: Process, R: Regions, choice: map<NodeIx, nat>, n: NodeIx)
    requires Marking(p, R, choice) && n < |p.nodes| && !p.IsJoin(n)
    ensures var c := MarksOf(p, R, choice); AllAs(c, p.Incoming(n), n in c.nodes)
  {
    hide WellFormed, SidePathRule, ReachedRule, Balanced, NodeMarked, Into, Onwards;
    var c := MarksOf(p, R, choice);
    forall g | g in p.Incoming(n) ensures g in c.flows <==> n in c.nodes {
      FlowInto(p, g, n);
      var x := p.Source(g);
      if x in R {
        var i: nat :| i < |p.Outgoing(x)| && p.Outgoing(x)[i] == g;
        SplitStep(p, R, choice, x, i);
        if p.Outgoing(x)[choice[x]] == g {
          OutOnce(p, x, i, choice[x]);
        }
      } else {
        PlainStep(p, R, choice, x, n);
      }
    }
  }

  lemma OutOnce(p: Process, x: NodeIx, i: nat, j: nat)
    requires WellFormed(p) && x < |p.nodes| && i < |p.Outgoing(x)| && j < |p.Outgoing(x)| && p.Outgoing(x)[i] == p.Outgoing(x)[j]
    ensures i == j
  {
    assert NoRepeats(p.Outgoing(x));
  }

  lemma BoundaryConserves(p: Process, R: Regions, choice: map<NodeIx, nat>, b: NodeIx)
    requires Marking(p, R, choice) && b in p.hosts
    ensures NodeMarked(p, R, choice, b) <==> p.Interrupts(b) && NodeMarked(p, R, choice, p.HostOf(b))
  {
    BoundaryPlain(p, b);
    SplitsAre(p, R);
    hide WellFormed, HostRule, SidePathRule, ReachedRule, Balanced, NodeMarked, Onwards, IsRegion;
    if p.Interrupts(b) {
      assert p.hosts[b] !in R;
      hide Balanced;
      PlainStep(p, R, choice, p.hosts[b], b);
    } else {
      BesideStarts(p, b);
      SideUnmarked(p, R, choice, b);
    }
  }

  lemma SplitsAre(p: Process, R: Regions)
    requires Balanced(p, R)
    ensures forall s: NodeIx :: s in R <==> s < |p.nodes| && IsSplit(p, s)
  {
  }

  lemma SideUnmarked(p: Process, R: Regions, choice: map<NodeIx, nat>, b: NodeIx)
    requires Beside(p, b)
    ensures !NodeMarked(p, R, choice, b)
  {
  }

  lemma BoundaryPlain(p: Process, b: NodeIx)
    requires WellFormed(p) && HostRule(p) && b in p.hosts
    ensures b < |p.nodes| && p.HostOf(b) < |p.nodes| && p.IsBoundary(b) && !p.IsJoin(b)
    ensures p.Interrupts(b) ==> Into(p, p.HostOf(b), b) && !p.KindOf(p.HostOf(b)).ParallelGateway?
    ensures !p.Interrupts(b) ==> StartsSidePath(p, b)
  {
  }

  /** The marking of chosen branches is a place invariant. */
  lemma ChosenIsConserved(p: Process, R: Regions, choice: map<NodeIx, nat>)
    requires Marking(p, R, choice)
    ensures Conserving(p, MarksOf(p, R, choice))
  {
    hide WellFormed, HostRule, SidePathRule, ReachedRule, Balanced, NodeMarked, FlowMarked, AllAs, AtMostOneMarked, SomeMarked;
    var c := MarksOf(p, R, choice);
    forall n: NodeIx | n < |p.nodes| ensures NodeConserves(p, c, n) {
      OutgoingConserves(p, R, choice, n);
      if p.IsJoin(n) {
        var s := ClosedBy(p, R, n);
        JoinIncomingConserves(p, R, choice, s);
      } else {
        PlainIncomingConserves(p, R, choice, n);
      }
      if n in p.hosts {
        BoundaryConserves(p, R, choice, n);
        BoundaryPlain(p, n);
      }
    }
  }

  lemma ClosedBy(p: Process, R: Regions, n: NodeIx) returns (s: NodeIx)
    requires Balanced(p, R) && n < |p.nodes| && p.IsJoin(n)
    ensures s in R && Block(R, s).join == n
  {
    s :| s in R && R[s].join == n;
  }

  // ---- every flow into a join is on one

  /** The branches that lead to `n`, and branch `i` of `s`. */
  ghost function Leading(R: Regions, n: NodeIx, s: NodeIx, i: nat): map<NodeIx, nat> {
    map t | t in R :: if t == s then i else if n in R[t].branch then R[t].branch[n] else 0
  }

  lemma LeadingChooses(p: Process, R: Regions, s: NodeIx, i: nat)
    requires Balanced(p, R) && s in R && i < |p.Outgoing(s)|
    ensures Chooses(p, R, Leading(R, Block(R, s).join, s, i))
    ensures !Off(R, Leading(R, Block(R, s).join, s, i), Block(R, s).join)
  {
    hide Balanced, IsRegion;
    var choice := Leading(R, R[s].join, s, i);
    forall t | t in R ensures choice[t] < |p.Outgoing(t)| {
      RegionOf(p, R, t);
      if R[s].join in R[t].branch {
        BranchNode(p, t, R[t], R[s].join);
      }
    }
    RegionOf(p, R, s);
  }

  /** The linter's block rule certifies every join: what is assumed of a linted
      process follows from it. */
  lemma BlocksCertify(p: Process)
    requires LintAccepts(p)
    ensures Certified(p)
  {
    hide WellFormed, HostRule, SidePathRule, ReachedRule, Balanced, Conserving, Beside, Off, NodeMarked, FlowMarked;
    var R: Regions :| Balanced(p, R);
    forall n: NodeIx, f | n < |p.nodes| && p.IsJoin(n) && f in p.Incoming(n)
      ensures exists c :: Conserving(p, c) && f in c.flows
    {
      var s := ClosedBy(p, R, n);
      var i := BranchOf(p, R, s, f);
      var choice := Leading(R, n, s, i);
      LeadingChooses(p, R, s, i);
      ChosenIsConserved(p, R, choice);
      NoGatewayBeside(p, n);
      JoinMarked(p, R, choice, n);
      DeliveredMarked(p, R, choice, s, i, f);
      FlowInto(p, f, n);
      assert f in MarksOf(p, R, choice).flows;
    }
  }

  lemma JoinMarked(p: Process, R: Regions, choice: map<NodeIx, nat>, n: NodeIx)
    requires n < |p.nodes| && !Beside(p, n) && !Off(R, choice, n)
    ensures NodeMarked(p, R, choice, n)
  {
  }

  // ---- and the compiled side paths

  lemma SidedIsBeside(p: Process, b: NodeIx, n: NodeIx)
    requires WellFormed(p) && Closure.OnPathOf(p, b, n)
    ensures OnSideOf(p, b, n)
  {
    var path :| Closure.IsPath(Closure.OnwardIn(p), path, b, n);
    hide WellFormed, Onwards, Closure.OnwardOf, StartsSidePath;
    PathIsWalk(p, path, b, n);
  }

  lemma {:induction false} PathIsWalk(p: Process, path: seq<NodeIx>, a: NodeIx, b: NodeIx)
    requires WellFormed(p) && Closure.IsPath(Closure.OnwardIn(p), path, a, b) && a < |p.nodes|
    ensures IsWalk(p, path, a, b)
    decreases |path|
  {
    hide WellFormed, Onwards, Closure.OnwardOf;
    if |path| <= 1 {
    } else {
      var front, u := path[..|path| - 1], path[|path| - 2];
      assert path[|path| - 2 + 1] in Closure.OnwardIn(p)(u);
      Closure.OnwardIs(p, u, b);
      assert Closure.IsPath(Closure.OnwardIn(p), front, a, u);
      PathIsWalk(p, front, a, u);
      WalkOn(p, front, a, u, b);
      assert path == front + [b];
    }
  }

  /** A process the linter accepts, with the side paths the compiler computes, is
      all the step function relies on. */
  lemma AcceptedIsLinted(p: Process)
    requires LintAccepts(p) && Closure.SidePathCompiled(p)
    ensures Running.Linted(p)
  {
    BlocksCertify(p);
    forall n: NodeIx | p.OnSidePath(n) ensures !p.KindOf(n).ParallelGateway? {
      assert n < |p.nodes| && Closure.Sided(p, n);
      var b: NodeIx :| Closure.OnPathOf(p, b, n);
      SidedIsBeside(p, b, n);
    }
    Closure.CompiledSidePathsOk(p);
  }
}
