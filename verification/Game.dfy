/** The token game behind the step function: who stands where, and what a
    marking that every node conserves says about it.

    A `Marks` is a place invariant: a choice of flows and nodes such that every
    node passes exactly as many marked tokens on as it takes. A parallel join is
    certified when each of its incoming flows lies on one. */
module Game {
  import opened Basics
  import opened Compiled
  import opened State

  /** Where a live token stands: on a flow about to enter `node`, or in `node`. */
  datatype Place = Place(node: NodeIx, via: Option<FlowIx>, scope: ScopeId)
  {
    /** The flow it is on, where it is on one. */
    function On(): FlowIx { if via.Some? then via.value else 0 }
  }
  type Population = map<TokenId, Place>

  /** Where `a` stands, if it is one of them. */
  function PlaceIn(pop: Population, a: TokenId): Place { if a in pop then pop[a] else Place(0, None, ROOT) }

  datatype Marks = Marks(flows: set<FlowIx>, nodes: set<NodeIx>)

  ghost predicate Marked(c: Marks, at: Place) {
    if at.via.Some? then at.via.value in c.flows else at.node in c.nodes
  }

  ghost predicate AtMostOneMarked(c: Marks, flows: seq<FlowIx>) {
    forall f, g :: f in flows && g in flows && f in c.flows && g in c.flows ==> f == g
  }

  ghost predicate SomeMarked(c: Marks, flows: seq<FlowIx>) {
    exists f :: f in flows && f in c.flows
  }

  ghost predicate AllAs(c: Marks, flows: seq<FlowIx>, marked: bool) {
    forall f :: f in flows ==> (f in c.flows <==> marked)
  }

  /** Node `n` takes as many marked tokens as it gives. */
  ghost predicate NodeConserves(p: Process, c: Marks, n: NodeIx) {
    && (if p.IsJoin(n)
        then AtMostOneMarked(c, p.Incoming(n)) && (n in c.nodes <==> SomeMarked(c, p.Incoming(n)))
        else AllAs(c, p.Incoming(n), n in c.nodes))
    && (if p.IsFork(n)
        then AtMostOneMarked(c, p.Outgoing(n)) && (n in c.nodes <==> SomeMarked(c, p.Outgoing(n)))
        else AllAs(c, p.Outgoing(n), n in c.nodes))
    // An interrupting boundary continues its host's token; any other spawns one
    // that no join counts.
    && (n in p.hosts ==> (n in c.nodes <==> p.Interrupts(n) && p.hosts[n] in c.nodes))
  }

  ghost predicate Conserving(p: Process, c: Marks) {
    forall n :: 0 <= n < |p.nodes| ==> NodeConserves(p, c, n)
  }

  /** The two agree on where a scope's token comes from and where it is consumed. */
  ghost predicate Matched(p: Process, c: Marks, d: Marks) {
    forall n :: 0 <= n < |p.nodes| && (p.KindOf(n).Start? || p.KindOf(n).End?) ==> (n in c.nodes <==> n in d.nodes)
  }

  /** Every flow into a parallel join lies on a conserved marking. */
  ghost predicate Certified(p: Process) {
    forall n, f :: 0 <= n < |p.nodes| && p.IsJoin(n) && f in p.Incoming(n) ==>
      exists c :: Conserving(p, c) && f in c.flows
  }

  // ---- what is kept

  ghost predicate One(c: Marks, pop: Population) {
    forall a, b :: a in pop && b in pop && pop[a].scope == pop[b].scope && Marked(c, pop[a]) && Marked(c, pop[b]) ==> a == b
  }

  ghost predicate Has(c: Marks, pop: Population, scope: ScopeId) {
    exists a :: a in pop && pop[a].scope == scope && Marked(c, pop[a])
  }

  ghost predicate Even(c: Marks, d: Marks, pop: Population) {
    forall scope: ScopeId :: Has(c, pop, scope) <==> Has(d, pop, scope)
  }

  /** In no scope do two tokens stand on one conserved marking, and two matched
      markings are held by the same scopes. */
  ghost predicate Safe(p: Process, pop: Population) {
    && (forall c :: Conserving(p, c) ==> One(c, pop))
    && (forall c, d :: Conserving(p, c) && Conserving(p, d) && Matched(p, c, d) ==> Even(c, d, pop))
  }

  // ---- the moves of the game

  /** Tokens `gone` of one scope become the tokens `born` of that scope, with
      exactly as many marks, and never two on one marking. */
  ghost predicate Rewrites(p: Process, pop: Population, gone: set<TokenId>, born: Population, scope: ScopeId) {
    && (forall a :: a in gone ==> a in pop && pop[a].scope == scope)
    && (forall a :: a in born ==> born[a].scope == scope && (a in pop ==> a in gone))
    && (forall c :: Conserving(p, c) ==> PassesOn(c, pop, gone, born))
  }

  ghost predicate PassesOn(c: Marks, pop: Population, gone: set<TokenId>, born: Population) {
    && ((exists a :: a in gone && a in pop && Marked(c, pop[a])) <==> (exists b :: b in born && Marked(c, born[b])))
    && (forall a, b :: a in born && b in born && Marked(c, born[a]) && Marked(c, born[b]) ==> a == b)
  }

  lemma RewriteKeepsOne(c: Marks, pop: Population, gone: set<TokenId>, born: Population, scope: ScopeId)
    requires One(c, pop)
    requires forall a :: a in gone ==> a in pop && pop[a].scope == scope
    requires forall a :: a in born ==> born[a].scope == scope && (a in pop ==> a in gone)
    requires PassesOn(c, pop, gone, born)
    ensures One(c, pop - gone + born)
    ensures forall s :: Has(c, pop - gone + born, s) <==> Has(c, pop, s)
  {
    var after := pop - gone + born;
    forall s: ScopeId ensures Has(c, after, s) <==> Has(c, pop, s) {
      if Has(c, pop, s) {
        var a :| a in pop && pop[a].scope == s && Marked(c, pop[a]);
        if a in gone {
          var b :| b in born && Marked(c, born[b]);
          assert b in after && after[b] == born[b];
        } else {
          assert a !in born;
          assert a in after && after[a] == pop[a];
        }
      }
      if Has(c, after, s) {
        var a :| a in after && after[a].scope == s && Marked(c, after[a]);
        if a in born {
          var b :| b in gone && b in pop && Marked(c, pop[b]);
        } else {
          assert a in pop && after[a] == pop[a];
        }
      }
    }
  }

  lemma Rewrite(p: Process, pop: Population, gone: set<TokenId>, born: Population, scope: ScopeId)
    requires Safe(p, pop) && Rewrites(p, pop, gone, born, scope)
    ensures Safe(p, pop - gone + born)
  {
    forall c | Conserving(p, c)
      ensures One(c, pop - gone + born)
      ensures forall s :: Has(c, pop - gone + born, s) <==> Has(c, pop, s)
    {
      RewriteKeepsOne(c, pop, gone, born, scope);
    }
  }

  /** One token goes from where it stood to a place every marking marks alike. */
  lemma MoveOn(p: Process, pop: Population, a: TokenId, to: Place)
    requires Safe(p, pop) && a in pop && to.scope == pop[a].scope
    requires forall c :: Conserving(p, c) ==> (Marked(c, to) <==> Marked(c, pop[a]))
    ensures Safe(p, pop[a := to])
  {
    forall c | Conserving(p, c) ensures PassesOn(c, pop, {a}, map[a := to]) {
      assert a in {a};
      assert a in map[a := to];
    }
    Rewrite(p, pop, {a}, map[a := to], to.scope);
    assert pop - {a} + map[a := to] == pop[a := to];
  }

  /** A token no marking marks joins in: a side token. */
  lemma JoinIn(p: Process, pop: Population, a: TokenId, at: Place)
    requires Safe(p, pop) && a !in pop
    requires forall c :: Conserving(p, c) ==> !Marked(c, at)
    ensures Safe(p, pop[a := at])
  {
    Rewrite(p, pop, {}, map[a := at], at.scope);
    assert pop - {} + map[a := at] == pop[a := at];
  }

  /** The first token of a scope nobody stood in. */
  lemma OpenUp(p: Process, pop: Population, a: TokenId, at: Place)
    requires Safe(p, pop) && a !in pop
    requires forall b :: b in pop ==> pop[b].scope != at.scope
    requires at.via.None? && at.node < |p.nodes| && p.KindOf(at.node).Start?
    ensures Safe(p, pop[a := at])
  {
    var after := pop[a := at];
    forall c, s: ScopeId
      ensures Has(c, after, s) <==> (if s == at.scope then at.node in c.nodes else Has(c, pop, s))
    {
      if s == at.scope {
        assert after[a] == at;
      } else if Has(c, pop, s) {
        var b :| b in pop && pop[b].scope == s && Marked(c, pop[b]);
        assert after[b] == pop[b];
      }
    }
  }

  /** A token is consumed where matched markings agree on it. */
  lemma Consume(p: Process, pop: Population, a: TokenId)
    requires Safe(p, pop) && a in pop
    requires forall c, d :: Conserving(p, c) && Conserving(p, d) && Matched(p, c, d) ==>
               (Marked(c, pop[a]) <==> Marked(d, pop[a]))
    ensures Safe(p, pop - {a})
  {
    var after := pop - {a};
    forall c, s: ScopeId | Conserving(p, c)
      ensures Has(c, after, s) <==> Has(c, pop, s) && !(s == pop[a].scope && Marked(c, pop[a]))
    {
      if Has(c, pop, s) && !(s == pop[a].scope && Marked(c, pop[a])) {
        var b :| b in pop && pop[b].scope == s && Marked(c, pop[b]);
        assert b in after && after[b] == pop[b];
      }
      if Has(c, after, s) {
        var b :| b in after && after[b].scope == s && Marked(c, after[b]);
        assert One(c, pop);
      }
    }
  }

  function Outside(pop: Population, doomed: set<ScopeId>): Population {
    map a | a in pop && pop[a].scope !in doomed :: pop[a]
  }

  /** Every token of some scopes goes at once. */
  lemma Clear(p: Process, pop: Population, doomed: set<ScopeId>)
    requires Safe(p, pop)
    ensures Safe(p, Outside(pop, doomed))
  {
    var after := Outside(pop, doomed);
    forall c, s: ScopeId ensures Has(c, after, s) <==> s !in doomed && Has(c, pop, s) {
      if s !in doomed && Has(c, pop, s) {
        var b :| b in pop && pop[b].scope == s && Marked(c, pop[b]);
        assert b in after && after[b] == pop[b];
      }
    }
  }

  lemma NobodyIsSafe(p: Process)
    ensures Safe(p, map[])
  {
  }

  lemma UnmarkedOnwards(p: Process, c: Marks, m: NodeIx, n: NodeIx)
    requires FlowsWired(p) && m < |p.nodes| && n < |p.nodes| && Onwards(p, m, n) && m !in c.nodes
    requires !p.KindOf(m).ParallelGateway? && !p.KindOf(n).ParallelGateway?
    requires NodeConserves(p, c, m) && NodeConserves(p, c, n)
    ensures n !in c.nodes
  {
    if f :| f in p.Outgoing(m) && p.Target(f) == n {
      assert f in p.Incoming(n);
    }
  }

  lemma SidePathStarts(p: Process, c: Marks, m: NodeIx)
    requires BoundariesOk(p) && m < |p.nodes| && StartsSidePath(p, m) && Conserving(p, c)
    ensures m !in c.nodes && !p.KindOf(m).ParallelGateway?
  {
    assert NodeConserves(p, c, m);
  }

  /** A side path carries tokens no join counts. */
  lemma {:induction false} SidePathUnmarked(p: Process, c: Marks, steps: NodeIx -> nat, n: NodeIx)
    requires WellFormed(p) && SidePathsOk(p) && LedTo(p, steps) && Conserving(p, c) && p.OnSidePath(n)
    ensures n !in c.nodes
    decreases steps(n)
  {
    var m: NodeIx :| m < |p.nodes| && Onwards(p, m, n) && (StartsSidePath(p, m) || (p.OnSidePath(m) && steps(m) < steps(n)));
    assert NodeConserves(p, c, m) && NodeConserves(p, c, n);
    hide Conserving, NodeConserves, Onwards, FlowsWired, ShapeOk, BoundariesOk, StaticScopesOk, StartsSidePath;
    if StartsSidePath(p, m) {
      SidePathStarts(p, c, m);
    } else {
      SidePathUnmarked(p, c, steps, m);
    }
    UnmarkedOnwards(p, c, m, n);
  }
}
