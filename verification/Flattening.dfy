/** The compiler's first pass: the tree of scopes laid out flat, and the flows wired
    into it. */
module Flattening {
  import opened Basics
  import opened Compiled
  import Ambiguity

  /** A node of the parsed model: a subprocess holds a body of its own. */
  datatype Item = Leaf(id: string) | Sub(id: string, body: Body)
  datatype Line = Line(source: string, target: string)
  datatype Body = Body(nodes: seq<Item>, lines: seq<Line>)

  // ---- the tree, counted

  function BodyOf(x: Item): seq<Body> {
    match x
    case Leaf(_) => []
    case Sub(_, body) => [body]
  }

  function Scopes(b: Body): nat
    decreases b
  {
    1 + ScopesIn(b.nodes)
  }

  function ScopesIn(nodes: seq<Item>): nat
    decreases nodes
  {
    if nodes == [] then 0
    else (match nodes[0] case Leaf(_) => 0 case Sub(_, body) => Scopes(body)) + ScopesIn(nodes[1..])
  }

  /** How many nodes a scope holds, at any depth. */
  function Nodes(b: Body): nat
    decreases b
  {
    NodesIn(b.nodes)
  }

  function NodesIn(nodes: seq<Item>): nat
    decreases nodes
  {
    if nodes == [] then 0
    else 1 + (match nodes[0] case Leaf(_) => 0 case Sub(_, body) => Nodes(body)) + NodesIn(nodes[1..])
  }

  ghost predicate InTree(x: Item, b: Body)
    decreases b
  {
    x in b.nodes || exists y :: y in b.nodes && y.Sub? && InTree(x, y.body)
  }

  function SumScopes(bodies: seq<Body>): nat {
    if bodies == [] then 0 else Scopes(bodies[0]) + SumScopes(bodies[1..])
  }

  function SumNodes(bodies: seq<Body>): nat {
    if bodies == [] then 0 else Nodes(bodies[0]) + SumNodes(bodies[1..])
  }

  function BodiesIn(nodes: seq<Item>): seq<Body> {
    if nodes == [] then [] else BodyOf(nodes[0]) + BodiesIn(nodes[1..])
  }

  lemma {:induction false} SumsAppend(x: seq<Body>, y: seq<Body>)
    ensures SumScopes(x + y) == SumScopes(x) + SumScopes(y) && SumNodes(x + y) == SumNodes(x) + SumNodes(y)
    decreases |x|
  {
    if x == [] {
      assert x + y == y;
    } else {
      assert (x + y)[1..] == x[1..] + y;
      SumsAppend(x[1..], y);
    }
  }

  lemma {:induction false} Unnested(nodes: seq<Item>)
    ensures ScopesIn(nodes) == SumScopes(BodiesIn(nodes)) && NodesIn(nodes) == |nodes| + SumNodes(BodiesIn(nodes))
    decreases |nodes|
  {
    if nodes == [] {
    } else {
      Unnested(nodes[1..]);
      SumsAppend(BodyOf(nodes[0]), BodiesIn(nodes[1..]));
      if nodes[0].Sub? {
        assert BodyOf(nodes[0])[1..] == [];
      }
    }
  }

  lemma {:induction false} BodiesAppend(nodes: seq<Item>, x: Item)
    ensures BodiesIn(nodes + [x]) == BodiesIn(nodes) + BodyOf(x)
    decreases |nodes|
  {
    if nodes == [] {
      assert nodes + [x] == [x] && [x][1..] == [];
    } else {
      assert (nodes + [x])[1..] == nodes[1..] + [x];
      BodiesAppend(nodes[1..], x);
    }
  }

  // ---- the flat form

  datatype Flat = Flat(bodies: seq<Body>, nodes: seq<(ScopeIx, Item)>, child: map<NodeIx, ScopeIx>)

  function Tagged(k: ScopeIx, nodes: seq<Item>): seq<(ScopeIx, Item)> {
    seq(|nodes|, i requires 0 <= i < |nodes| => (k, nodes[i]))
  }

  /** The nodes of the first `k` scopes, one scope after the other. */
  function LaidOut(bodies: seq<Body>, k: nat): seq<(ScopeIx, Item)>
    requires k <= |bodies|
  {
    if k == 0 then [] else LaidOut(bodies, k - 1) + Tagged(k - 1, bodies[k - 1].nodes)
  }

  ghost predicate HasOwner(f: Flat, k: ScopeIx) {
    exists n :: n in f.child && f.child[n] == k
  }

  /** Every subprocess laid out so far has its scope, in order, later than its own. */
  ghost predicate Linked(f: Flat) {
    && f.bodies != []
    && (forall n: NodeIx :: n in f.child <==> n < |f.nodes| && f.nodes[n].1.Sub?)
    && (forall n :: n in f.child ==> f.nodes[n].0 < f.child[n] < |f.bodies| && f.bodies[f.child[n]] == f.nodes[n].1.body)
    && (forall m, n :: m in f.child && n in f.child && m < n ==> f.child[m] < f.child[n])
    && (forall k: ScopeIx :: 0 < k < |f.bodies| ==> HasOwner(f, k))
  }

  lemma {:induction false} LaidOutGrows(bodies: seq<Body>, more: seq<Body>, k: nat)
    requires k <= |bodies|
    ensures LaidOut(bodies + more, k) == LaidOut(bodies, k)
  {
    if k == 0 {
    } else {
      LaidOutGrows(bodies, more, k - 1);
    }
  }

  /** One node laid out, in scope `k`. */
  function WithNode(f: Flat, k: ScopeIx, x: Item): Flat {
    Flat(f.bodies + BodyOf(x), f.nodes + [(k, x)], if x.Sub? then f.child[|f.nodes| := |f.bodies|] else f.child)
  }

  lemma LinkNext(f: Flat, k: ScopeIx, x: Item)
    requires Linked(f) && k < |f.bodies|
    ensures Linked(WithNode(f, k, x))
  {
    var n := |f.nodes|;
    var g := WithNode(f, k, x);
    assert forall m :: m in f.child ==> m < n;
    forall j: ScopeIx | 0 < j < |g.bodies| ensures HasOwner(g, j) {
      if j < |f.bodies| {
        assert HasOwner(f, j);
        var m :| m in f.child && f.child[m] == j;
        assert m in g.child && g.child[m] == j;
      } else {
        assert n in g.child && g.child[n] == j;
      }
    }
  }

  lemma LaysOutNothing(f: Flat, k: ScopeIx, nodes: seq<Item>)
    ensures f.bodies == f.bodies + BodiesIn(nodes[..0]) && f.nodes == f.nodes + Tagged(k, nodes[..0])
  {
  }

  lemma TagsOneMore(k: ScopeIx, nodes: seq<Item>, x: Item)
    ensures Tagged(k, nodes + [x]) == Tagged(k, nodes) + [(k, x)]
  {
  }

  /** One scope's nodes, each subprocess met adding its body to the end. */
  method LayOutScope(f: Flat, si: ScopeIx) returns (g: Flat)
    requires Linked(f) && si < |f.bodies|
    ensures Linked(g) && g.bodies == f.bodies + BodiesIn(f.bodies[si].nodes) && g.nodes == f.nodes + Tagged(si, f.bodies[si].nodes)
  {
    hide Linked, BodiesIn, Tagged, BodyOf;
    g := f;
    var nodes := f.bodies[si].nodes;
    LaysOutNothing(f, si, nodes);
    for j := 0 to |nodes|
      invariant g.bodies == f.bodies + BodiesIn(nodes[..j]) && Linked(g)
      invariant g.nodes == f.nodes + Tagged(si, nodes[..j])
    {
      var x := nodes[j];
      assert nodes[..j + 1] == nodes[..j] + [x];
      BodiesAppend(nodes[..j], x);
      LinkNext(g, si, x);
      assert g.bodies + BodyOf(x) == f.bodies + (BodiesIn(nodes[..j]) + BodyOf(x));
      TagsOneMore(si, nodes[..j], x);
      assert g.nodes + [(si, x)] == f.nodes + (Tagged(si, nodes[..j]) + [(si, x)]);
      g := WithNode(g, si, x);
    }
    assert nodes[..|nodes|] == nodes;
  }

  /** What is laid out and what is still to be. */
  ghost predicate Laying(root: Body, f: Flat, si: nat) {
    && si <= |f.bodies| && f.bodies != [] && f.bodies[0] == root
    && f.nodes == LaidOut(f.bodies, si)
    && si + SumScopes(f.bodies[si..]) == Scopes(root)
    && |f.nodes| + SumNodes(f.bodies[si..]) == Nodes(root)
  }

  lemma LayingOn(root: Body, f: Flat, si: nat, g: Flat)
    requires Laying(root, f, si) && si < |f.bodies|
    requires g.bodies == f.bodies + BodiesIn(f.bodies[si].nodes) && g.nodes == f.nodes + Tagged(si, f.bodies[si].nodes)
    ensures Laying(root, g, si + 1)
  {
    var body, more := f.bodies[si], BodiesIn(f.bodies[si].nodes);
    Unnested(body.nodes);
    LaidOutGrows(f.bodies, more, si);
    assert f.bodies[si..] == [body] + f.bodies[si + 1..] && f.bodies[si..][1..] == f.bodies[si + 1..];
    assert g.bodies[si + 1..] == f.bodies[si + 1..] + more;
    SumsAppend(f.bodies[si + 1..], more);
  }

  lemma LayingFirst(root: Body)
    ensures Laying(root, Flat([root], [], map[]), 0) && Linked(Flat([root], [], map[]))
  {
    assert [root][1..] == [] && [root][0..] == [root];
  }

  /** Scope after scope: the tree's scopes and nodes, none left out and none twice,
      every subprocess's scope later than the one it stands in. */
  method Flatten(root: Body) returns (f: Flat)
    ensures f.bodies != [] && f.bodies[0] == root && Linked(f)
    ensures f.nodes == LaidOut(f.bodies, |f.bodies|)
    ensures |f.nodes| == Nodes(root) && |f.bodies| == Scopes(root)
  {
    f := Flat([root], [], map[]);
    var si := 0;
    LayingFirst(root);
    while si < |f.bodies|
      invariant Laying(root, f, si) && Linked(f)
      decreases Scopes(root) - si
    {
      var g := LayOutScope(f, si);
      LayingOn(root, f, si, g);
      f, si := g, si + 1;
    }
    assert f.bodies[si..] == [];
  }

  lemma {:induction false} LaidOutHas(bodies: seq<Body>, k: nat, j: ScopeIx, i: nat)
    requires j < k <= |bodies| && i < |bodies[j].nodes|
    ensures exists n :: 0 <= n < |LaidOut(bodies, k)| && LaidOut(bodies, k)[n] == (j, bodies[j].nodes[i])
  {
    var all, before := LaidOut(bodies, k), LaidOut(bodies, k - 1);
    if j == k - 1 {
      assert all[|before| + i] == (j, bodies[j].nodes[i]);
    } else {
      LaidOutHas(bodies, k - 1, j, i);
      var n :| 0 <= n < |before| && before[n] == (j, bodies[j].nodes[i]);
      assert all[n] == before[n];
    }
  }

  /** No node of the tree is missed: with the count, the flat form is the tree's
      nodes, each once. */
  lemma {:induction false} NothingMissed(f: Flat, k: ScopeIx, x: Item)
    requires Linked(f) && f.nodes == LaidOut(f.bodies, |f.bodies|)
    requires k < |f.bodies| && InTree(x, f.bodies[k])
    ensures exists n :: 0 <= n < |f.nodes| && f.nodes[n].1 == x
    decreases f.bodies[k]
  {
    var b := f.bodies[k];
    if i :| 0 <= i < |b.nodes| && b.nodes[i] == x {
      LaidOutHas(f.bodies, |f.bodies|, k, i);
    } else {
      var y :| y in b.nodes && y.Sub? && InTree(x, y.body);
      var i :| 0 <= i < |b.nodes| && b.nodes[i] == y;
      LaidOutHas(f.bodies, |f.bodies|, k, i);
      var n :| 0 <= n < |f.nodes| && f.nodes[n] == (k, y);
      assert n in f.child;
      NothingMissed(f, f.child[n], x);
    }
  }

  // ---- wiring

  /** The flows that leave `n`, and those that come to it, as lists of indices. */
  function From(flows: seq<(NodeIx, NodeIx)>, n: NodeIx): seq<FlowIx> {
    if flows == [] then []
    else From(flows[..|flows| - 1], n) + if flows[|flows| - 1].0 == n then [|flows| - 1] else []
  }

  function To(flows: seq<(NodeIx, NodeIx)>, n: NodeIx): seq<FlowIx> {
    if flows == [] then []
    else To(flows[..|flows| - 1], n) + if flows[|flows| - 1].1 == n then [|flows| - 1] else []
  }

  // The lists are exact inverses of the flows, in order, without repeats.

  lemma {:induction false} FromHas(flows: seq<(NodeIx, NodeIx)>, n: NodeIx, f: FlowIx)
    ensures f in From(flows, n) <==> f < |flows| && flows[f].0 == n
    decreases |flows|
  {
    if flows == [] {
    } else {
      var front, last := flows[..|flows| - 1], |flows| - 1;
      FromHas(front, n, f);
      assert f < last ==> front[f] == flows[f];
    }
  }

  lemma {:induction false} FromAscends(flows: seq<(NodeIx, NodeIx)>, n: NodeIx)
    ensures Ascending(From(flows, n))
    decreases |flows|
  {
    if flows == [] {
    } else {
      var front, last := flows[..|flows| - 1], |flows| - 1;
      FromAscends(front, n);
      var before := From(front, n);
      forall i | 0 <= i < |before| ensures before[i] < last {
        assert before[i] in before;
        FromHas(front, n, before[i]);
      }
    }
  }

  lemma FromIs(flows: seq<(NodeIx, NodeIx)>, n: NodeIx)
    ensures forall f: FlowIx :: f in From(flows, n) <==> f < |flows| && flows[f].0 == n
    ensures Ascending(From(flows, n))
  {
    forall f: FlowIx ensures f in From(flows, n) <==> f < |flows| && flows[f].0 == n {
      FromHas(flows, n, f);
    }
    FromAscends(flows, n);
  }

  lemma {:induction false} ToHas(flows: seq<(NodeIx, NodeIx)>, n: NodeIx, f: FlowIx)
    ensures f in To(flows, n) <==> f < |flows| && flows[f].1 == n
    decreases |flows|
  {
    if flows == [] {
    } else {
      var front, last := flows[..|flows| - 1], |flows| - 1;
      ToHas(front, n, f);
      assert f < last ==> front[f] == flows[f];
    }
  }

  lemma {:induction false} ToAscends(flows: seq<(NodeIx, NodeIx)>, n: NodeIx)
    ensures Ascending(To(flows, n))
    decreases |flows|
  {
    if flows == [] {
    } else {
      var front, last := flows[..|flows| - 1], |flows| - 1;
      ToAscends(front, n);
      var before := To(front, n);
      forall i | 0 <= i < |before| ensures before[i] < last {
        assert before[i] in before;
        ToHas(front, n, before[i]);
      }
    }
  }

  lemma ToIs(flows: seq<(NodeIx, NodeIx)>, n: NodeIx)
    ensures forall f: FlowIx :: f in To(flows, n) <==> f < |flows| && flows[f].1 == n
    ensures Ascending(To(flows, n))
  {
    forall f: FlowIx ensures f in To(flows, n) <==> f < |flows| && flows[f].1 == n {
      ToHas(flows, n, f);
    }
    ToAscends(flows, n);
  }

  datatype Wiring = Wiring(flows: seq<(NodeIx, NodeIx)>, outgoing: seq<seq<FlowIx>>, incoming: seq<seq<FlowIx>>)

  /** The ends of a scope's lines, by the global map of ids. */
  function EndsOf(lines: seq<Line>, at: map<string, NodeIx>): seq<(NodeIx, NodeIx)>
    requires forall l :: l in lines ==> l.source in at && l.target in at
  {
    seq(|lines|, i requires 0 <= i < |lines| => (at[lines[i].source], at[lines[i].target]))
  }

  ghost predicate Wired(w: Wiring, size: nat) {
    && |w.outgoing| == |w.incoming| == size
    && (forall n: NodeIx :: n < size ==> w.outgoing[n] == From(w.flows, n) && w.incoming[n] == To(w.flows, n))
  }

  /** Every line of every scope is wired from its source to its target; a line with
      an end nobody has is refused. */
  method Wire(lines: seq<Line>, at: map<string, NodeIx>, size: nat) returns (w: Option<Wiring>)
    requires forall id :: id in at ==> at[id] < size
    ensures w.None? <==> exists l :: l in lines && (l.source !in at || l.target !in at)
    ensures w.Some? ==> Wired(w.value, size) && (forall l :: l in lines ==> l.source in at && l.target in at) && w.value.flows == EndsOf(lines, at)
  {
    var none: seq<FlowIx> := [];
    var r := Wiring([], seq(size, i => none), seq(size, i => none));
    for i := 0 to |lines|
      invariant Wired(r, size)
      invariant forall l :: l in lines[..i] ==> l.source in at && l.target in at
      invariant r.flows == EndsOf(lines[..i], at)
    {
      var l := lines[i];
      assert lines[..i + 1] == lines[..i] + [l];
      if l.source !in at || l.target !in at {
        assert l in lines;
        return None;
      }
      var s, t, fi := at[l.source], at[l.target], |r.flows|;
      assert (r.flows + [(s, t)])[..fi] == r.flows;
      r := Wiring(r.flows + [(s, t)],
                  r.outgoing[s := r.outgoing[s] + [fi]],
                  r.incoming[t := r.incoming[t] + [fi]]);
    }
    assert lines[..|lines|] == lines;
    w := Some(r);
  }

  // ---- what the rest relies on

  /** `p` carries the flat form and its wiring. */
  ghost predicate BuiltFrom(p: Process, f: Flat, w: Wiring) {
    && |p.nodes| == |p.scopeOf| == |w.incoming| == |w.outgoing| == |f.nodes| && |p.flows| == |w.flows| && |p.scopeStarts| == |f.bodies|
    && (forall n: NodeIx :: n < |f.nodes| ==>
          && p.scopeOf[n] == f.nodes[n].0
          && p.nodes[n].incoming == w.incoming[n] && p.nodes[n].outgoing == w.outgoing[n]
          && (p.nodes[n].kind.SubProcess? <==> n in f.child)
          && (n in f.child ==> p.nodes[n].kind.body == f.child[n]))
    && (forall i: FlowIx :: i < |w.flows| ==> p.flows[i].source == w.flows[i].0 && p.flows[i].target == w.flows[i].1)
  }

  lemma {:induction false} ScopesInRange(bodies: seq<Body>, k: nat)
    requires k <= |bodies|
    ensures forall n :: 0 <= n < |LaidOut(bodies, k)| ==> LaidOut(bodies, k)[n].0 < k
  {
    if k == 0 {
    } else {
      ScopesInRange(bodies, k - 1);
    }
  }

  /** Every scope nests in an older one, through one subprocess. */
  lemma BuiltIsNested(p: Process, f: Flat, w: Wiring)
    requires Linked(f) && f.nodes == LaidOut(f.bodies, |f.bodies|) && |w.incoming| == |w.outgoing| == |f.nodes| && BuiltFrom(p, f, w)
    ensures Ambiguity.Nested(p)
  {
    ScopesInRange(f.bodies, |f.bodies|);
    forall m: NodeIx, n: NodeIx | m < |p.nodes| && n < |p.nodes| && p.KindOf(m).SubProcess? && p.KindOf(n) == p.KindOf(m) ensures m == n {
      assert m in f.child && n in f.child && f.child[m] == f.child[n];
    }
  }

  /** Flows whose ends the linter kept in one scope: the lists are exact. */
  lemma BuiltIsWired(p: Process, f: Flat, w: Wiring)
    requires Wired(w, |f.nodes|) && BuiltFrom(p, f, w)
    requires forall i: FlowIx :: i < |w.flows| ==>
               w.flows[i].0 < |f.nodes| && w.flows[i].1 < |f.nodes| && f.nodes[w.flows[i].0].0 == f.nodes[w.flows[i].1].0
    ensures FlowsWired(p)
  {
    forall n: NodeIx | n < |f.nodes|
      ensures NoRepeats(p.nodes[n].incoming) && NoRepeats(p.nodes[n].outgoing)
      ensures forall i: FlowIx :: i in p.nodes[n].outgoing <==> i < |w.flows| && w.flows[i].0 == n
      ensures forall i: FlowIx :: i in p.nodes[n].incoming <==> i < |w.flows| && w.flows[i].1 == n
    {
      FromIs(w.flows, n);
      ToIs(w.flows, n);
    }
    hide From, To, NoRepeats;
    forall i: FlowIx | i < |p.flows|
      ensures p.flows[i].source < |p.nodes| && p.flows[i].target < |p.nodes|
      ensures i in p.nodes[p.flows[i].source].outgoing && i in p.nodes[p.flows[i].target].incoming
      ensures p.ScopeOf(p.flows[i].source) == p.ScopeOf(p.flows[i].target)
    {
      assert w.flows[i].0 < |f.nodes| && w.flows[i].1 < |f.nodes|;
    }
  }
}
