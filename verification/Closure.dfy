/** The compiler's worklists and what they compute: the nodes on a side path, and
    the message arms that are certain to collide. */
module Closure {
  import opened Basics
  import opened Compiled

  // ---- reachability

  /** `path` leads from `a` to `b`, each step an edge. */
  ghost predicate IsPath(edges: nat -> seq<nat>, path: seq<nat>, a: nat, b: nat) {
    && path != [] && path[0] == a && path[|path| - 1] == b
    && (forall i :: 0 <= i < |path| - 1 ==> path[i + 1] in edges(path[i]))
  }

  ghost predicate Reaches(edges: nat -> seq<nat>, a: nat, b: nat) {
    exists path :: IsPath(edges, path, a, b)
  }

  lemma ReachesSelf(edges: nat -> seq<nat>, a: nat)
    ensures Reaches(edges, a, a)
  {
    assert IsPath(edges, [a], a, a);
  }

  lemma ReachesOn(edges: nat -> seq<nat>, a: nat, b: nat, c: nat)
    requires Reaches(edges, a, b) && c in edges(b)
    ensures Reaches(edges, a, c)
  {
    var path :| IsPath(edges, path, a, b);
    assert IsPath(edges, path + [c], a, c);
  }

  ghost predicate Stays(edges: nat -> seq<nat>, v: nat, S: set<nat>) {
    forall w :: w in edges(v) ==> w in S
  }

  /** A set closed under the edges holds all that is reached from it. */
  lemma {:induction false} ClosedReaches(edges: nat -> seq<nat>, S: set<nat>, path: seq<nat>, a: nat, b: nat)
    requires a in S && forall v :: v in S ==> Stays(edges, v, S)
    requires IsPath(edges, path, a, b)
    ensures b in S
    decreases |path|
  {
    if |path| <= 1 {
    } else {
      assert path[1] in edges(path[0]);
      ClosedReaches(edges, S, path[1..], path[1], b);
    }
  }

  ghost predicate StaysBelow(edges: nat -> seq<nat>, n: nat) {
    forall v: nat, w: nat :: v < n && w in edges(v) ==> w < n
  }

  lemma BelowFits(S: set<nat>, n: nat)
    requires forall v :: v in S ==> v < n
    ensures |S| <= n
  {
    if n == 0 {
      assert S == {};
    } else {
      BelowFits(S - {n - 1}, n - 1);
      assert |S| <= |S - {n - 1}| + 1;
    }
  }

  /** A stack worklist over nodes below `n`: everything the seed reaches. */
  method Reach(edges: nat -> seq<nat>, seed: nat, n: nat) returns (seen: set<nat>)
    requires seed < n && StaysBelow(edges, n)
    ensures forall v: nat :: v in seen <==> Reaches(edges, seed, v)
  {
    hide Reaches, Stays, StaysBelow;
    seen := {seed};
    var stack := [seed];
    ReachesSelf(edges, seed);
    while stack != []
      invariant seed in seen && (forall v :: v in stack ==> v in seen)
      invariant forall v :: v in seen ==> v < n && Reaches(edges, seed, v)
      invariant forall v :: v in seen && v !in stack ==> Stays(edges, v, seen)
      decreases n - |seen|, |stack|
    {
      var v := stack[|stack| - 1];
      ghost var popped := stack;
      stack := stack[..|stack| - 1];
      assert popped == stack + [v];
      ghost var before, shorter := seen, stack;
      var onward := edges(v);
      for i := 0 to |onward|
        invariant before <= seen && shorter <= stack && (forall w :: w in stack ==> w in seen)
        invariant forall w :: w in seen ==> w < n && Reaches(edges, seed, w)
        invariant forall w :: w in seen && w !in stack && w != v ==> Stays(edges, w, seen)
        invariant forall w :: w in onward[..i] ==> w in seen
        invariant seen == before ==> stack == shorter
        invariant |before| <= |seen|
        invariant seen != before ==> |before| < |seen|
      {
        var w := onward[i];
        assert w in onward && onward[..i + 1] == onward[..i] + [w];
        ReachesOn(edges, seed, v, w);
        EdgeBelow(edges, n, v, w);
        StayOn(edges, seen, seen + {w});
        if w !in seen {
          seen := seen + {w};
          stack := stack + [w];
        }
      }
      assert onward[..|onward|] == onward;
      StaysIs(edges, v, seen);
      BelowFits(seen, n);
      BelowFits(before, n);
    }
    forall v: nat | Reaches(edges, seed, v) ensures v in seen {
      ClosedHolds(edges, seen, seed, v);
    }
  }

  lemma ClosedHolds(edges: nat -> seq<nat>, S: set<nat>, a: nat, b: nat)
    requires a in S && Reaches(edges, a, b) && forall v :: v in S ==> Stays(edges, v, S)
    ensures b in S
  {
    var path :| IsPath(edges, path, a, b);
    ClosedReaches(edges, S, path, a, b);
  }

  lemma EdgeBelow(edges: nat -> seq<nat>, n: nat, v: nat, w: nat)
    requires StaysBelow(edges, n) && v < n && w in edges(v)
    ensures w < n
  {
  }

  lemma StaysIs(edges: nat -> seq<nat>, v: nat, S: set<nat>)
    requires forall w :: w in edges(v) ==> w in S
    ensures Stays(edges, v, S)
  {
  }

  lemma StayOn(edges: nat -> seq<nat>, S: set<nat>, T: set<nat>)
    requires S <= T
    ensures forall v :: Stays(edges, v, S) ==> Stays(edges, v, T)
  {
  }

  // ---- side paths

  function Nodes(boundaries: seq<(Option<string>, NodeIx)>): seq<NodeIx> {
    seq(|boundaries|, i requires 0 <= i < |boundaries| => boundaries[i].1)
  }

  /** Over a node's flows, and the boundaries attached to it. */
  function OnwardOf(p: Process, v: NodeIx): seq<NodeIx> {
    seq(|p.Outgoing(v)|, i requires 0 <= i < |p.Outgoing(v)| => p.Target(p.Outgoing(v)[i]))
    + p.Boundaries(v) + Nodes(p.ErrorBoundaries(v))
  }

  function OnwardIn(p: Process): nat -> seq<nat> { (v: nat) => OnwardOf(p, v) }

  /** `n` is on the side path that the boundary `b` starts. */
  ghost predicate OnPathOf(p: Process, b: NodeIx, n: NodeIx) {
    b in p.hosts && !p.Interrupts(b) && b != n && Reaches(OnwardIn(p), b, n)
  }

  /** On the side path of one of the boundaries, or of any. */
  ghost predicate SidedBy(p: Process, boundaries: seq<NodeIx>, n: NodeIx) {
    exists b :: b in boundaries && OnPathOf(p, b, n)
  }

  ghost predicate Sided(p: Process, n: NodeIx) {
    exists b: NodeIx :: OnPathOf(p, b, n)
  }

  lemma FlowOnward(p: Process, v: NodeIx, f: FlowIx)
    requires WellFormed(p) && v < |p.nodes| && f in p.Outgoing(v)
    ensures p.Target(f) < |p.nodes| && Onwards(p, v, p.Target(f))
  {
    OutOf(p, v, f);
  }

  lemma BoundaryOnward(p: Process, v: NodeIx, w: NodeIx)
    requires BoundariesOk(p) && (w in p.Boundaries(v) || w in Nodes(p.ErrorBoundaries(v)))
    ensures v < |p.nodes| && w < |p.nodes| && Onwards(p, v, w)
  {
    if w !in p.Boundaries(v) {
      var i :| 0 <= i < |p.ErrorBoundaries(v)| && p.ErrorBoundaries(v)[i].1 == w;
      assert p.ErrorBoundaries(v)[i] in p.errorBoundaries[v];
    }
    assert w in p.hosts && p.hosts[w] == v;
  }

  lemma OnwardIs(p: Process, v: NodeIx, w: NodeIx)
    requires WellFormed(p) && w in OnwardOf(p, v)
    ensures v < |p.nodes| && w < |p.nodes| && Onwards(p, v, w)
  {
    assert BoundariesOk(p) && (w in p.Boundaries(v) || w in Nodes(p.ErrorBoundaries(v)) || v < |p.nodes|);
    hide WellFormed, BoundariesOk, Nodes, Onwards;
    if w in p.Boundaries(v) || w in Nodes(p.ErrorBoundaries(v)) {
      BoundaryOnward(p, v, w);
    } else {
      var i :| 0 <= i < |p.Outgoing(v)| && p.Target(p.Outgoing(v)[i]) == w;
      FlowOnward(p, v, p.Outgoing(v)[i]);
    }
  }

  lemma OnwardBelow(p: Process)
    requires WellFormed(p)
    ensures StaysBelow(OnwardIn(p), |p.nodes|)
  {
    forall v: nat, w: nat | v < |p.nodes| && w in OnwardIn(p)(v) ensures w < |p.nodes| {
      OnwardIs(p, v, w);
    }
  }

  /** One worklist from every non-interrupting boundary: exactly the nodes its
      side path reaches. */
  method SidePath(p: Process) returns (side: seq<bool>)
    requires WellFormed(p)
    ensures |side| == |p.nodes| && forall n: NodeIx :: n < |side| ==> (side[n] <==> Sided(p, n))
  {
    hide WellFormed, Reaches, OnwardIn, Sorted, StaysBelow, SidedBy, Sided;
    OnwardBelow(p);
    HostsBelow(p);
    var boundaries := Sorted(p.hosts.Keys);
    SidedByNone(p);
    var on: set<NodeIx> := {};
    for i := 0 to |boundaries|
      invariant forall n: NodeIx :: n in on <==> SidedBy(p, boundaries[..i], n)
    {
      var b := boundaries[i];
      assert boundaries[..i + 1] == boundaries[..i] + [b];
      if !p.Interrupts(b) {
        var seen := Reach(OnwardIn(p), b, |p.nodes|);
        on := on + (seen - {b});
      }
      SidedByOne(p, boundaries[..i], b);
    }
    assert boundaries[..|boundaries|] == boundaries;
    SidedByAll(p, boundaries);
    side := seq(|p.nodes|, n requires 0 <= n < |p.nodes| => n in on);
  }

  lemma HostsBelow(p: Process)
    requires WellFormed(p)
    ensures forall b :: b in p.hosts ==> b < |p.nodes|
  {
  }

  lemma SidedByNone(p: Process)
    ensures forall n: NodeIx :: !SidedBy(p, [], n)
  {
  }

  lemma SidedByOne(p: Process, boundaries: seq<NodeIx>, b: NodeIx)
    ensures forall n: NodeIx :: SidedBy(p, boundaries + [b], n) <==> SidedBy(p, boundaries, n) || OnPathOf(p, b, n)
  {
    hide OnPathOf;
    forall n: NodeIx | OnPathOf(p, b, n) ensures SidedBy(p, boundaries + [b], n) {
      assert b in boundaries + [b];
    }
  }

  lemma SidedByAll(p: Process, boundaries: seq<NodeIx>)
    requires forall b :: b in boundaries <==> b in p.hosts
    ensures forall n: NodeIx :: SidedBy(p, boundaries, n) <==> Sided(p, n)
  {
  }

  // ---- what the step function relies on

  /** The compiled process carries what the worklist computed. */
  ghost predicate SidePathCompiled(p: Process) {
    && |p.sidePath| == |p.nodes|
    && (forall n: NodeIx :: n < |p.nodes| ==> (p.sidePath[n] <==> Sided(p, n)))
  }

  ghost predicate Far(p: Process, n: NodeIx, k: nat) {
    exists b: NodeIx, path :: b in p.hosts && !p.Interrupts(b) && b != n && IsPath(OnwardIn(p), path, b, n) && |path| == k
  }

  ghost predicate Nearest(p: Process, n: NodeIx, k: nat) {
    Far(p, n, k) && forall j: nat :: Far(p, n, j) ==> k <= j
  }

  lemma HasNearest(p: Process, n: NodeIx, k: nat)
    requires Far(p, n, k)
    ensures exists j: nat :: Nearest(p, n, j)
  {
    if j: nat :| j < k && Far(p, n, j) {
      HasNearest(p, n, j);
    } else {
      assert Nearest(p, n, k);
    }
  }

  ghost function Steps(p: Process, n: NodeIx): nat {
    if k: nat :| Nearest(p, n, k) then k else 0
  }

  lemma StepsIs(p: Process, n: NodeIx, k: nat)
    requires Far(p, n, k)
    ensures Nearest(p, n, Steps(p, n)) && Steps(p, n) <= k
  {
    HasNearest(p, n, k);
  }

  lemma OneStepBack(p: Process, n: NodeIx)
    requires WellFormed(p) && SidePathCompiled(p) && p.OnSidePath(n)
    ensures exists m: NodeIx ::
              m < |p.nodes| && Onwards(p, m, n) && (StartsSidePath(p, m) || (p.OnSidePath(m) && Steps(p, m) < Steps(p, n)))
  {
    SidedIsFar(p, n);
    hide WellFormed, Onwards, OnwardIn, Nearest;
    var b: NodeIx, path :| b in p.hosts && !p.Interrupts(b) && b != n && IsPath(OnwardIn(p), path, b, n) && |path| == Steps(p, n);
    var m := path[|path| - 2];
    assert path[|path| - 2 + 1] in OnwardIn(p)(m);
    OnwardIs(p, m, n);
    if m == b {
      assert StartsSidePath(p, m);
    } else {
      var front := path[..|path| - 1];
      assert IsPath(OnwardIn(p), front, b, m);
      assert OnPathOf(p, b, m) && Far(p, m, |front|);
      StepsIs(p, m, |front|);
      assert p.OnSidePath(m);
    }
  }

  lemma SidedIsFar(p: Process, n: NodeIx)
    requires SidePathCompiled(p) && p.OnSidePath(n)
    ensures Far(p, n, Steps(p, n))
  {
    var b: NodeIx :| OnPathOf(p, b, n);
    var path :| IsPath(OnwardIn(p), path, b, n);
    StepsIs(p, n, |path|);
  }

  /** With the linter's rule that no side path comes to a parallel gateway, the
      compiled flags are what Abandon may trust. */
  lemma CompiledSidePathsOk(p: Process)
    requires WellFormed(p) && SidePathCompiled(p)
    requires forall n: NodeIx :: p.OnSidePath(n) ==> !p.KindOf(n).ParallelGateway?
    ensures SidePathsOk(p)
  {
    var steps: NodeIx -> nat := (n: NodeIx) => Steps(p, n);
    forall n: NodeIx | p.OnSidePath(n)
      ensures exists m: NodeIx :: m < |p.nodes| && Onwards(p, m, n) && (StartsSidePath(p, m) || (p.OnSidePath(m) && steps(m) < steps(n)))
    {
      OneStepBack(p, n);
    }
    assert LedTo(p, steps);
  }

  lemma PathsJoin(edges: nat -> seq<nat>, x: seq<nat>, y: seq<nat>, a: nat, b: nat, c: nat)
    requires IsPath(edges, x, a, b) && IsPath(edges, y, b, c)
    ensures IsPath(edges, x + y[1..], a, c)
  {
    var path := x + y[1..];
    forall i | 0 <= i < |path| - 1 ensures path[i + 1] in edges(path[i]) {
      if i < |x| - 1 {
        assert path[i + 1] == x[i + 1];
      } else {
        var j := i - (|x| - 1);
        assert path[i] == y[j] && path[i + 1] == y[j + 1];
      }
    }
  }

  /** No join, nor any parallel gateway, lies ahead of a node on a side path. */
  lemma NoJoinAhead(p: Process, r: NodeIx, n: NodeIx)
    requires WellFormed(p) && SidePathCompiled(p) && p.OnSidePath(r) && Reaches(OnwardIn(p), r, n)
    requires forall m: NodeIx :: p.OnSidePath(m) ==> !p.KindOf(m).ParallelGateway?
    ensures !p.KindOf(n).ParallelGateway?
  {
    var b: NodeIx :| OnPathOf(p, b, r);
    var x :| IsPath(OnwardIn(p), x, b, r);
    var y :| IsPath(OnwardIn(p), y, r, n);
    PathsJoin(OnwardIn(p), x, y, b, r, n);
    if |y| > 1 {
      assert y[|y| - 2 + 1] in OnwardIn(p)(y[|y| - 2]);
      OnwardIs(p, y[|y| - 2], n);
      if n != b {
        assert OnPathOf(p, b, n);
        assert p.OnSidePath(n);
      }
    }
  }
}
