/** Forks, joins and ends keep the invariant: here the token game is played. */
module Branching {
  import opened Basics
  import opened Compiled
  import opened State
  import opened Advance
  import opened Game
  import opened Invariant
  import opened Keeping
  import opened Freezing
  import opened Arming
  import opened Entering
  import opened Leaving

  // ---- forks

  function ForkMoves(p: Process, first: TokenId, flows: seq<FlowIx>, scope: ScopeId): seq<Move>
    decreases |flows|
  {
    if flows == [] then []
    else [Move(first, p.Target(flows[0]), Some(flows[0]), scope)] + ForkMoves(p, first + 1, flows[1..], scope)
  }

  /** One fresh token on each flow, in order. */
  lemma ForkIs(p: Process, m: Machine, flows: seq<FlowIx>)
    ensures var m' := ForkOn(p, m, flows);
            && m'.s == m.s.Minted(|flows|)
            && m'.q == m.q + ForkMoves(p, m.s.nextToken, flows, m.scope)
            && m'.reask == m.reask && m'.scope == m.scope
    decreases |flows|
  {
    if flows != [] {
      ForkIs(p, Leave(p, FreshToken(m), m.s.nextToken, flows[0]), flows[1..]);
    }
  }

  lemma {:induction false} ForkMovesAt(p: Process, first: TokenId, flows: seq<FlowIx>, scope: ScopeId)
    ensures var moves := ForkMoves(p, first, flows, scope);
            && |moves| == |flows|
            && (forall i :: 0 <= i < |flows| ==> moves[i] == Move(first + i, p.Target(flows[i]), Some(flows[i]), scope))
    decreases |flows|
  {
    if flows == [] {
    } else {
      ForkMovesAt(p, first + 1, flows[1..], scope);
    }
  }

  lemma JoinOne(a: Population, b: Population, k: TokenId, at: Place)
    ensures (a + b)[k := at] == a + b[k := at]
  {
  }

  lemma {:induction false} MovePlacesAppend(q: seq<Move>, moves: seq<Move>)
    ensures MovePlaces(q + moves) == MovePlaces(q) + MovePlaces(moves)
  {
    if moves == [] {
      assert q + moves == q;
    } else {
      hide MovePlaces;
      var front, last := moves[..|moves| - 1], moves[|moves| - 1];
      MovePlacesAppend(q, front);
      assert q + moves == (q + front) + [last];
      assert moves == front + [last];
      MovePlacesPush(q + front, last);
      MovePlacesPush(front, last);
      JoinOne(MovePlaces(q), MovePlaces(front), last.token, PlaceOfMove(last));
    }
  }

  lemma DistinctAppend(q: seq<Move>, moves: seq<Move>)
    requires Distinct(q) && Distinct(moves)
    requires forall a, b :: a in q && b in moves ==> a.token != b.token
    ensures Distinct(q + moves)
  {
    var all := q + moves;
    forall i, j | 0 <= i < j < |all| ensures all[i].token != all[j].token {
      assert i < |q| ==> all[i] in q;
      assert j >= |q| ==> all[j] in moves;
    }
  }

  /** Fresh moves, all in one scope. */
  ghost predicate Births(p: Process, s: Instance, moves: seq<Move>, scope: ScopeId) {
    && moves != [] && Distinct(moves)
    && (forall mv :: mv in moves ==>
          mv.token >= s.nextToken && mv.scope == scope && PlaceOk(p, s, mv.node, mv.scope) && Enterable(p, mv.node, mv.via))
  }

  ghost predicate BoundedBy(moves: seq<Move>, next: int) {
    forall mv :: mv in moves ==> mv.token < next
  }

  lemma BirthsQueue(p: Process, m: Machine, moves: seq<Move>, scope: ScopeId, next: nat)
    requires TokensOk(p, m.s) && QueueOk(p, m.s, m.q) && ReaskOk(m.s, m.q, m.reask)
    requires Births(p, m.s, moves, scope) && BoundedBy(moves, next) && next >= m.s.nextToken
    ensures var s1 := m.s.(nextToken := next);
            QueueOk(p, s1, m.q + moves) && ReaskOk(s1, m.q + moves, m.reask)
  {
    hide Enterable, TokenOk;
    forall a, b | a in m.q && b in moves ensures a.token != b.token {
      assert MoveOk(p, m.s, a);
    }
    DistinctAppend(m.q, moves);
    var s1 := m.s.(nextToken := next);
    forall mv | mv in m.q + moves ensures MoveOk(p, s1, mv) {
      assert mv in m.q ==> MoveOk(p, m.s, mv);
    }
  }

  lemma EverybodyBelow(p: Process, s: Instance, q: seq<Move>)
    requires TokensOk(p, s) && QueueOk(p, s, q)
    ensures forall a :: a in Everybody(p, s, q) ==> a < s.nextToken
  {
    hide TokenOk, PlaceOk, Enterable;
    forall a | a in Everybody(p, s, q) ensures a < s.nextToken {
      if a in MovePlaces(q) {
        MovePlacesFrom(q, a);
        var mv :| mv in q && mv.token == a;
        assert MoveOk(p, s, mv);
      }
    }
  }

  lemma RewriteLives(pop: Population, gone: set<TokenId>, born: Population, scope: ScopeId)
    requires forall a :: a in gone && a in pop ==> pop[a].scope == scope
    requires forall a :: a in born ==> born[a].scope == scope && (a in pop ==> a in gone)
    requires born != map[]
    ensures forall c :: LivesIn(pop, c) ==> LivesIn(pop - gone + born, c)
  {
    var after := pop - gone + born;
    var b :| b in born;
    assert b in after && after[b].scope == scope;
    forall c | LivesIn(pop, c) ensures LivesIn(after, c) {
      var a :| a in pop && pop[a].scope == c;
      if c != scope {
        assert a in after && after[a] == pop[a];
      }
    }
  }

  lemma BornPlaces(moves: seq<Move>, scope: ScopeId)
    requires forall mv :: mv in moves ==> mv.scope == scope
    ensures forall a :: a in MovePlaces(moves) ==> MovePlaces(moves)[a].scope == scope && exists mv :: mv in moves && mv.token == a
    ensures moves != [] ==> MovePlaces(moves) != map[]
  {
    forall a | a in MovePlaces(moves) ensures MovePlaces(moves)[a].scope == scope && exists mv :: mv in moves && mv.token == a {
      MovePlacesFrom(moves, a);
    }
    if moves != [] {
      assert moves[|moves| - 1].token in MovePlaces(moves);
    }
  }

  /** The token in hand may be exchanged for these fresh ones. */
  ghost predicate CanBecome(p: Process, m: Machine, mv: Move, moves: seq<Move>, next: int) {
    && Births(p, m.s, moves, mv.scope) && BoundedBy(moves, next) && next >= m.s.nextToken
    && (forall c :: Conserving(p, c) ==> Inherits(c, PlaceOfMove(mv), MovePlaces(moves)))
  }

  /** One of the born is marked, and no more, exactly when `at` is. */
  ghost predicate Inherits(c: Marks, at: Place, born: Population) {
    && (Marked(c, at) <==> exists b :: b in born && Marked(c, born[b]))
    && (forall a, b :: a in born && b in born && Marked(c, born[a]) && Marked(c, born[b]) ==> a == b)
  }

  lemma Exchange(p: Process, kept: Population, token: TokenId, at: Place, born: Population)
    requires token !in kept && Safe(p, kept[token := at])
    requires forall a :: a in born ==> born[a].scope == at.scope && a !in kept && a != token
    requires born != map[]
    requires forall c :: Conserving(p, c) ==> Inherits(c, at, born)
    ensures Safe(p, kept + born) && forall c :: LivesIn(kept[token := at], c) ==> LivesIn(kept + born, c)
  {
    var pop := kept[token := at];
    forall c | Conserving(p, c) ensures PassesOn(c, pop, {token}, born) {
      assert Inherits(c, at, born) && token in {token};
    }
    hide Conserving, PassesOn;
    Rewrite(p, pop, {token}, born, at.scope);
    RewriteLives(pop, {token}, born, at.scope);
    assert pop - {token} == kept;
  }

  lemma BecomesPlaces(p: Process, m: Machine, mv: Move, moves: seq<Move>, next: nat)
    requires TokensOk(p, m.s) && QueueOk(p, m.s, InHand(m, mv).q)
    requires Safe(p, Everybody(p, m.s, InHand(m, mv).q)) && CanBecome(p, m, mv, moves, next)
    ensures var pop := Everybody(p, m.s, InHand(m, mv).q);
            var after := Everybody(p, m.s, m.q + moves);
            Safe(p, after) && forall c :: LivesIn(pop, c) ==> LivesIn(after, c)
  {
    hide TokensOk, QueueOk, MoveOk, PlaceOk, Enterable, MovePlaces, TokenPlaces, Distinct, BoundedBy, Inherits, Conserving, Safe, LivesIn;
    var kept := Everybody(p, m.s, m.q);
    var born := MovePlaces(moves);
    InHandPlaces(p, m, mv);
    EverybodyBelow(p, m.s, InHand(m, mv).q);
    BornPlaces(moves, mv.scope);
    MovePlacesAppend(m.q, moves);
    forall a | a in born ensures a !in kept && a != mv.token {
      assert mv.token in kept[mv.token := PlaceOfMove(mv)];
      assert a in kept ==> a in kept[mv.token := PlaceOfMove(mv)];
    }
    Exchange(p, kept, mv.token, PlaceOfMove(mv), born);
    assert kept + born == Everybody(p, m.s, m.q + moves);
  }

  lemma HandBecomes(p: Process, m: Machine, mv: Move, moves: seq<Move>, next: nat)
    requires Inv(p, InHand(m, mv), {}) && m.s.status.Active? && CanBecome(p, m, mv, moves, next)
    ensures Inv(p, m.(s := m.s.(nextToken := next), q := m.q + moves), {})
  {
    hide TokensOk, TimersOk, SubsOk, SubsDistinct, ItemsOk, ScopesOk, QueueOk, ReaskOk, Safe, LivesIn, TokenPlaces, MovePlaces;
    InHandPlaces(p, m, mv);
    ReaskInHand(m, mv, m.reask);
    BecomesPlaces(p, m, mv, moves, next);
    BirthsQueue(p, m, moves, mv.scope, next);
    FreshOwned(p, m.s, next);
    hide CanBecome;
    assert Everybody(p, m.s.(nextToken := next), m.q + moves) == Everybody(p, m.s, m.q + moves);
  }

  /** `born` is where `moves` stand. */
  ghost predicate Stand(moves: seq<Move>, born: Population) {
    && (forall mv :: mv in moves ==> mv.token in born && born[mv.token] == PlaceOfMove(mv))
    && (forall a :: a in born ==> exists mv :: mv in moves && mv.token == a && born[a] == PlaceOfMove(mv))
  }

  lemma MovesStand(moves: seq<Move>)
    requires Distinct(moves)
    ensures Stand(moves, MovePlaces(moves))
  {
    hide MovePlaces, Distinct;
    forall mv | mv in moves ensures mv.token in MovePlaces(moves) && MovePlaces(moves)[mv.token] == PlaceOfMove(mv) {
      MovePlacesAt(moves, mv);
    }
    forall a | a in MovePlaces(moves) ensures exists mv :: mv in moves && mv.token == a && MovePlaces(moves)[a] == PlaceOfMove(mv) {
      MovePlacesFrom(moves, a);
    }
  }

  ghost predicate OnePerFlow(moves: seq<Move>, flows: seq<FlowIx>, first: TokenId) {
    && |moves| == |flows|
    && (forall i :: 0 <= i < |flows| ==> moves[i].token == first + i && moves[i].via == Some(flows[i]))
  }

  lemma ForkInherits(p: Process, c: Marks, at: Place, flows: seq<FlowIx>, first: TokenId, moves: seq<Move>, born: Population)
    requires at.node < |p.nodes| && p.IsFork(at.node) && flows == p.Outgoing(at.node) && NodeConserves(p, c, at.node)
    requires at.via.Some? ==> at.via.value in p.Incoming(at.node)
    requires NoRepeats(flows) && Stand(moves, born) && OnePerFlow(moves, flows, first)
    ensures Inherits(c, at, born)
  {
    if SomeMarked(c, flows) {
      var i :| 0 <= i < |flows| && flows[i] in c.flows;
      assert moves[i] in moves && Marked(c, born[moves[i].token]);
    }
    forall a | a in born ensures exists i :: 0 <= i < |flows| && moves[i].token == a && born[a].via == Some(flows[i]) {
      var mv :| mv in moves && mv.token == a && born[a] == PlaceOfMove(mv);
      var i :| 0 <= i < |moves| && moves[i] == mv;
      assert moves[i].token == a;
    }
    forall a, b | a in born && b in born && Marked(c, born[a]) && Marked(c, born[b]) ensures a == b {
      var i :| 0 <= i < |flows| && moves[i].token == a && born[a].via == Some(flows[i]);
      var j :| 0 <= j < |flows| && moves[j].token == b && born[b].via == Some(flows[j]);
      assert flows[i] in flows && flows[j] in flows;
    }
  }

  lemma ForkTargets(p: Process, m: Machine, mv: Move)
    requires AboutToEnter(p, m, mv) && p.IsFork(mv.node)
    ensures forall f :: f in p.Outgoing(mv.node) ==> PlaceOk(p, m.s, p.Target(f), mv.scope) && Enterable(p, p.Target(f), Some(f))
    ensures |p.Outgoing(mv.node)| >= 1 && NoRepeats(p.Outgoing(mv.node))
    ensures MoveOk(p, m.s, mv) && mv.node < |p.nodes|
  {
    HandOk(p, m, mv);
    forall f | f in p.Outgoing(mv.node) ensures PlaceOk(p, m.s, p.Target(f), mv.scope) && Enterable(p, p.Target(f), Some(f)) {
      OutEnterable(p, mv.node, f);
    }
  }

  lemma ForkBirths(p: Process, m: Machine, mv: Move)
    requires AboutToEnter(p, m, mv) && p.IsFork(mv.node)
    ensures CanBecome(p, m, mv, ForkMoves(p, m.s.nextToken, p.Outgoing(mv.node), mv.scope), m.s.nextToken + |p.Outgoing(mv.node)|)
  {
    hide AboutToEnter, Inherits, PlaceOk, MovePlaces, ForkMoves, Stand;
    ForkTargets(p, m, mv);
    var flows := p.Outgoing(mv.node);
    var moves := ForkMoves(p, m.s.nextToken, flows, mv.scope);
    var born := MovePlaces(moves);
    ForkMovesAt(p, m.s.nextToken, flows, mv.scope);
    MovesStand(moves);
    forall c | Conserving(p, c) ensures Inherits(c, PlaceOfMove(mv), born) {
      ForkInherits(p, c, PlaceOfMove(mv), flows, m.s.nextToken, moves, born);
    }
    hide Conserving, Enterable;
  }

  lemma EnterForkKeeps(p: Process, m: Machine, mv: Move)
    requires AboutToEnter(p, m, mv) && p.IsFork(mv.node)
    ensures Entered(p, Enter(p, m, mv.token, mv.node, mv.via))
  {
    hide Inv, WellFormed, CanBecome, ForkOn, ForkMoves;
    var flows := p.Outgoing(mv.node);
    var moves := ForkMoves(p, m.s.nextToken, flows, mv.scope);
    var next := m.s.nextToken + |flows|;
    ForkBirths(p, m, mv);
    HandBecomes(p, m, mv, moves, next);
    var m1 := Finished(Started(m, mv.node), mv.node);
    ForkIs(p, m1, flows);
    InvSame(p, m.(s := m.s.(nextToken := next), q := m.q + moves), ForkOn(p, m1, flows), {});
  }

  // ---- ends

  lemma ExitHand(m: Machine, mv: Move, token: TokenId, to: Move)
    requires mv.scope in ChildScopes(m.s, token)
    ensures Exits(InHand(m, mv), token, to) == Exits(m, token, to)
  {
    SparedPush(m.q, mv, ChildScopes(m.s, token));
  }

  lemma SubProcessGoesOn(p: Process, t: Token, token: TokenId)
    requires WellFormed(p) && t.node < |p.nodes| && p.KindOf(t.node).SubProcess? && t.wait.OnScope?
    ensures |p.Outgoing(t.node)| == 1
    ensures var f := p.OnlyFlow(t.node); GoesOn(p, t, Move(token, p.Target(f), Some(f), t.scope))
  {
    assert ShapeOk(p, t.node);
    var f := p.Outgoing(t.node)[0];
    assert f in p.Outgoing(t.node);
    OutEnterable(p, t.node, f);
    PassesMarks(p, PlaceOf(p, t), f);
  }

  lemma ParentOf(p: Process, m: Machine, mv: Move)
    requires AboutToEnter(p, m, mv) && mv.scope != ROOT
    ensures mv.scope in m.s.scopes && Owned(p, m.s)
    ensures var closed := m.s.ScopeAt(mv.scope);
            && closed.token in m.s.tokens && m.s.TokenAt(closed.token) == Token(closed.element, closed.parent, OnScope(mv.scope))
            && closed.element < |p.nodes| && p.KindOf(closed.element).SubProcess? && closed.token !in m.reask
  {
    HandOwned(p, m, mv);
    var closed := m.s.scopes[mv.scope];
    assert TokenOk(p, m.s, closed.token, m.s.tokens[closed.token]);
    NotReasked(p, InHand(m, mv), {}, closed.token);
  }

  /** The scope of the hand is done: its parent token resumes. */
  lemma ScopeResumes(p: Process, m: Machine, mv: Move, m1: Machine)
    requires AboutToEnter(p, m, mv) && mv.scope != ROOT && m1 == m.(ev := m1.ev)
    ensures Entered(p, CompleteScope(p, TearDown(m1, mv.scope), mv.scope))
  {
    hide Inv, WellFormed, TearDown, CompleteScope, Exits, Owned;
    ParentOf(p, m, mv);
    var parent := m.s.scopes[mv.scope];
    SubProcessGoesOn(p, m.s.tokens[parent.token], parent.token);
    var f := p.Outgoing(parent.element)[0];
    var to := Move(parent.token, p.Target(f), Some(f), parent.parent);
    ExitsKeeps(p, InHand(m, mv), parent.token, to);
    ExitHand(m, mv, parent.token, to);
    TornCompletes(p, m1, mv.scope);
    ExitsSame(m, m1, parent.token, to);
    InvSame(p, Exits(m, parent.token, to), CompleteScope(p, TearDown(m1, mv.scope), mv.scope).m, {});
  }

  lemma ExitsSame(m: Machine, m1: Machine, token: TokenId, to: Move)
    requires m1 == m.(ev := m1.ev)
    ensures Exits(m1, token, to) == Exits(m, token, to).(ev := m1.ev) && Exits(m, token, to).reask == m.reask
  {
  }

  lemma EndAgrees(p: Process, mv: Move)
    requires mv.node < |p.nodes| && p.KindOf(mv.node).End? && Enterable(p, mv.node, mv.via)
    ensures forall c, d :: Conserving(p, c) && Conserving(p, d) && Matched(p, c, d) ==>
              (Marked(c, PlaceOfMove(mv)) <==> Marked(d, PlaceOfMove(mv)))
  {
    forall c | Conserving(p, c) ensures Marked(c, PlaceOfMove(mv)) <==> mv.node in c.nodes {
      assert NodeConserves(p, c, mv.node);
    }
  }

  lemma SomebodyLives(p: Process, m: Machine, scope: ScopeId)
    requires QueueOk(p, m.s, m.q) && !ScopeIsEmpty(m, scope)
    ensures LivesIn(Everybody(p, m.s, m.q), scope)
  {
    var pop := Everybody(p, m.s, m.q);
    if t :| t in m.s.tokens && m.s.tokens[t].scope == scope {
      QueuePlacesApart(p, m.s, m.q);
      assert t in pop && pop[t].scope == scope;
    } else {
      var i :| 0 <= i < |m.q| && m.q[i].scope == scope;
      MovePlacesAt(m.q, m.q[i]);
      assert pop[m.q[i].token].scope == scope;
    }
  }

  lemma EnterEndKeeps(p: Process, m: Machine, mv: Move)
    requires AboutToEnter(p, m, mv) && p.KindOf(mv.node).End?
    ensures Entered(p, Enter(p, m, mv.token, mv.node, mv.via))
  {
    hide Inv, WellFormed, TearDown, CompleteScope;
    var m1 := Finished(Started(m, mv.node), mv.node);
    HandOwned(p, m, mv);
    if mv.scope == ROOT || !ScopeIsEmpty(m1, mv.scope) {
      EndAgrees(p, mv);
      if mv.scope != ROOT {
        HandQueue(p, m, mv);
        SomebodyLives(p, m, mv.scope);
      }
      HandConsumed(p, m, mv);
      InvSame(p, m, m1, {});
    } else {
      TearEmpty(m1, mv.scope);
      ScopeResumes(p, m, mv, m1);
    }
  }

  lemma TerminateIs(m: Machine)
    ensures var m' := Terminate(m);
            && m'.s == m.s.(status := Status.Terminated, tokens := map[], scopes := map[], timers := map[], subs := map[], items := m'.s.items)
            && m'.q == [] && m'.reask == m.reask && m'.s.items.Keys == m.s.items.Keys
            && (forall i :: i in m'.s.items ==> !m'.s.ItemAt(i).open)
  {
    assert m.s.timers - m.s.timers.Keys == map[] && m.s.subs - m.s.subs.Keys == map[];
  }

  /** Ended as terminated: nothing is left of the run but its closed items. */
  lemma TerminateKeeps(p: Process, m: Machine)
    requires ItemsOk(m.s) && ReaskOk(m.s, m.q, m.reask) && m.s.nextScope > 0
    ensures Inv(p, Terminate(m), {})
    ensures Terminate(m).q == [] && Terminate(m).s.status.Terminated?
  {
    hide Safe, Terminate;
    NobodyIsSafe(p);
    TerminateIs(m);
    var m' := Terminate(m);
    assert Everybody(p, m'.s, m'.q) == map[];
  }

  lemma EnterTerminateEndKeeps(p: Process, m: Machine, mv: Move)
    requires AboutToEnter(p, m, mv) && p.KindOf(mv.node).TerminateEnd?
    ensures Entered(p, Enter(p, m, mv.token, mv.node, mv.via))
  {
    hide Inv, WellFormed, TearDown, CompleteScope, Terminate;
    var m1 := Finished(Started(m, mv.node), mv.node);
    if mv.scope == ROOT {
      HandOwned(p, m, mv);
      HandReask(p, m, mv);
      TerminateKeeps(p, m1);
    } else {
      ScopeResumes(p, m, mv, m1);
    }
  }

  lemma HandReask(p: Process, m: Machine, mv: Move)
    requires AboutToEnter(p, m, mv)
    ensures ReaskOk(m.s, m.q, m.reask) && mv.token !in m.reask
  {
    ReaskInHand(m, mv, m.reask);
  }

  // ---- joins

  lemma ArrivedIs(p: Process, s: Instance, pop: Population, c: Marks, mv: Move)
    requires One(c, pop) && mv.via.Some? && mv.Came() in c.flows
    requires mv.token in pop && pop[mv.token] == PlaceOfMove(mv)
    requires forall t :: t in s.tokens ==> t in pop && pop[t] == PlaceOf(p, s.TokenAt(t))
    ensures ArrivedOn(s, mv.node, mv.scope, mv.Came()) <= {mv.token}
  {
    forall t | t in ArrivedOn(s, mv.node, mv.scope, mv.via.value) ensures t == mv.token {
      assert Marked(c, pop[t]) && Marked(c, pop[mv.token]);
    }
  }

  /** One-safety at the join: nobody waits there on the flow of the hand. */
  lemma JoinFree(p: Process, m: Machine, mv: Move)
    requires AboutToEnter(p, m, mv) && Certified(p) && p.IsJoin(mv.node)
    ensures mv.via.Some? && mv.Came() in p.Incoming(mv.node)
    ensures ArrivedOn(m.s, mv.node, mv.scope, mv.Came()) == {}
  {
    HandOk(p, m, mv);
    hide WellFormed, ShapeOk;
    InHandPlaces(p, m, mv);
    QueuePlacesApart(p, m.s, InHand(m, mv).q);
    var c :| Conserving(p, c) && mv.via.value in c.flows;
    var pop := Everybody(p, m.s, InHand(m, mv).q);
    assert One(c, pop);
    ArrivedIs(p, m.s, pop, c, mv);
  }

  lemma JoinAdmitted(p: Process, m: Machine, mv: Move, m1: Machine)
    requires Owned(p, m.s) && MoveOk(p, m.s, mv) && m.scope == mv.scope && p.IsJoin(mv.node)
    requires mv.via.Some? && m1 == Park(m, mv.token, mv.node, AtJoin(mv.Came()))
    ensures var t := Token(mv.node, mv.scope, AtJoin(mv.Came()));
            Admits(p, m.s, m1.s, mv.token, t) && TokenOk(p, m1.s, mv.token, t) && SubsDistinct(m1.s)
  {
    hide TokensOk, TimersOk, SubsOk, TimerOwned, SubOwned;
  }

  /** An arrival parks silently. */
  lemma JoinParks(p: Process, m: Machine, mv: Move)
    requires AboutToEnter(p, m, mv) && p.IsJoin(mv.node) && mv.via.Some?
    ensures Inv(p, Park(m, mv.token, mv.node, AtJoin(mv.Came())), {})
  {
    hide Inv, WellFormed, ShapeOk, TokenOk, Owned, Admits, SubsDistinct;
    var m1 := Park(m, mv.token, mv.node, AtJoin(mv.via.value));
    var t := Token(mv.node, mv.scope, AtJoin(mv.via.value));
    HandOwned(p, m, mv);
    JoinAdmitted(p, m, mv, m1);
    AdmittedOwned(p, m.s, m1.s, mv.token, t);
    assert PlaceOf(p, t) == PlaceOfMove(mv);
    ParkHand(p, m, mv, m1.s, t);
    assert m1.s.scopes.Keys - m.s.scopes.Keys == {};
    InvSame(p, m.(s := m1.s), m1, {});
  }

  /** Waits with nothing armed and no work open. */
  predicate HoldsNothing(w: Wait) { w.AtJoin? || w.AtIncident? || w.Halted? || w.OnDecision? }

  lemma IdlersOwnNothing(p: Process, s: Instance, gone: set<TokenId>)
    requires Owned(p, s) && forall t :: t in gone ==> t in s.tokens && HoldsNothing(s.TokenAt(t).wait)
    ensures Owned(p, s.(tokens := s.tokens - gone))
    ensures Reaped(s, gone) == s.(tokens := s.tokens - gone)
  {
    hide Owned, TokensOk;
    IdlersOwn(p, s, gone);
    hide TimersOk, SubsOk, SubsDistinct;
    assert Closed(s.items, {}) == s.items;
    assert s.timers - {} == s.timers && s.subs - {} == s.subs && s.scopes - {} == s.scopes;
    assert Reaped(s, gone).(scopes := s.scopes - {}) == s.(tokens := s.tokens - gone);
    IdlersAreNoParents(p, s, gone);
    ReapOwned(p, s, gone, {});
  }

  lemma IdlersOwn(p: Process, s: Instance, gone: set<TokenId>)
    requires Owned(p, s) && forall t :: t in gone ==> t in s.tokens && HoldsNothing(s.TokenAt(t).wait)
    ensures s.TimersOf(gone) == {} && s.SubsOf(gone) == {} && s.OpenItemsOf(gone) == {}
  {
    hide TokensOk, ScopesOk, SubsDistinct;
  }

  lemma IdlersAreNoParents(p: Process, s: Instance, gone: set<TokenId>)
    requires Owned(p, s) && forall t :: t in gone ==> t in s.tokens && HoldsNothing(s.TokenAt(t).wait)
    ensures Reapable(s, gone, {})
  {
  }

  /** A token waiting at a join where it fires: one on each incoming flow. */
  ghost predicate Fires(p: Process, s: Instance, n: NodeIx, scope: ScopeId, gone: set<TokenId>) {
    && (forall t :: t in gone ==>
          && t in s.tokens && s.tokens[t].node == n && s.tokens[t].scope == scope
          && s.tokens[t].wait.AtJoin? && s.tokens[t].wait.arrivedVia in p.Incoming(n))
    && (forall f :: f in p.Incoming(n) ==> exists t :: t in gone && t in s.tokens && WaitsAt(s.tokens[t], n, scope, f))
  }

  lemma ConsumedFires(p: Process, s: Instance, n: NodeIx, scope: ScopeId)
    requires AllArrived(p, s, n, scope)
    ensures Fires(p, s, n, scope, Consumed(p, s, n, scope))
  {
    var gone := Consumed(p, s, n, scope);
    forall f | f in p.Incoming(n)
      ensures var t := Sorted(ArrivedOn(s, n, scope, f))[0]; t in gone && t in s.tokens && WaitsAt(s.tokens[t], n, scope, f)
    {
      assert Sorted(ArrivedOn(s, n, scope, f))[0] in Sorted(ArrivedOn(s, n, scope, f));
    }
  }

  lemma JoinTakes(p: Process, c: Marks, s: Instance, pop: Population, n: NodeIx, scope: ScopeId, gone: set<TokenId>)
    requires n < |p.nodes| && p.IsJoin(n) && NodeConserves(p, c, n) && Fires(p, s, n, scope, gone)
    requires forall t :: t in s.tokens ==> t in pop && pop[t] == PlaceOf(p, s.TokenAt(t))
    ensures (exists t :: t in gone && t in pop && Marked(c, pop[t])) <==> n in c.nodes
  {
    if n in c.nodes {
      var f :| f in p.Incoming(n) && f in c.flows;
      var t :| t in gone && t in s.tokens && WaitsAt(s.tokens[t], n, scope, f);
      assert Marked(c, pop[t]);
    }
    forall t | t in gone && t in pop && Marked(c, pop[t]) ensures n in c.nodes {
      assert pop[t].via == Some(s.tokens[t].wait.arrivedVia);
    }
  }

  /** A firing join passes on the one mark it may have taken. */
  lemma JoinPassesOn(p: Process, c: Marks, s: Instance, pop: Population, n: NodeIx, scope: ScopeId, gone: set<TokenId>, a: TokenId, to: Place)
    requires n < |p.nodes| && p.IsJoin(n) && NodeConserves(p, c, n) && |p.Outgoing(n)| == 1
    requires Fires(p, s, n, scope, gone)
    requires forall t :: t in s.tokens ==> t in pop && pop[t] == PlaceOf(p, s.TokenAt(t))
    requires to.via == Some(p.OnlyFlow(n))
    ensures PassesOn(c, pop, gone, map[a := to])
  {
    JoinTakes(p, c, s, pop, n, scope, gone);
    hide Fires;
    assert p.Outgoing(n)[0] in p.Outgoing(n);
    assert Marked(c, to) <==> n in c.nodes;
    assert a in map[a := to];
  }

  lemma FireSafe(p: Process, m: Machine, n: NodeIx, scope: ScopeId, gone: set<TokenId>, to: Move)
    requires TokensOk(p, m.s) && QueueOk(p, m.s, m.q) && Safe(p, Everybody(p, m.s, m.q))
    requires n < |p.nodes| && p.IsJoin(n) && |p.Outgoing(n)| == 1 && Fires(p, m.s, n, scope, gone)
    requires to.token == m.s.nextToken && to.scope == scope && to.via == Some(p.OnlyFlow(n))
    ensures var after := Everybody(p, m.s.(tokens := m.s.tokens - gone), m.q + [to]);
            Safe(p, after) && forall c :: LivesIn(Everybody(p, m.s, m.q), c) ==> LivesIn(after, c)
  {
    hide TokensOk, Conserving, LivesIn, Safe, PassesOn, MovePlaces;
    var pop := Everybody(p, m.s, m.q);
    var born: Population := map[to.token := PlaceOfMove(to)];
    QueuePlacesApart(p, m.s, m.q);
    EverybodyBelow(p, m.s, m.q);
    assert forall t :: t in m.s.tokens ==> t in pop && pop[t] == PlaceOf(p, m.s.tokens[t]);
    hide QueueOk;
    forall c | Conserving(p, c) ensures PassesOn(c, pop, gone, born) {
      FireConserves(p, c, n);
      JoinPassesOn(p, c, m.s, pop, n, scope, gone, to.token, PlaceOfMove(to));
    }
    Rewrite(p, pop, gone, born, scope);
    assert to.token in born;
    RewriteLives(pop, gone, born, scope);
    MovePlacesPush(m.q, to);
    FirePlaces(p, m.s.tokens, MovePlaces(m.q), gone, to);
  }

  lemma FireConserves(p: Process, c: Marks, n: NodeIx)
    requires Conserving(p, c) && n < |p.nodes|
    ensures NodeConserves(p, c, n)
  {
  }

  lemma FirePlaces(p: Process, tokens: map<TokenId, Token>, moves: Population, gone: set<TokenId>, to: Move)
    requires tokens.Keys !! moves.Keys && gone <= tokens.Keys
    ensures TokenPlaces(p, tokens - gone) + moves[to.token := PlaceOfMove(to)]
         == TokenPlaces(p, tokens) + moves - gone + map[to.token := PlaceOfMove(to)]
  {
    var a := TokenPlaces(p, tokens - gone) + moves[to.token := PlaceOfMove(to)];
    var b := TokenPlaces(p, tokens) + moves - gone + map[to.token := PlaceOfMove(to)];
    assert forall t :: t in a <==> t in b;
    assert forall t :: t in a ==> a[t] == b[t];
  }

  lemma FewerTokens(p: Process, s: Instance, q: seq<Move>, gone: set<TokenId>, reask: seq<TokenId>)
    requires QueueOk(p, s, q) && ReaskOk(s, q, reask)
    ensures var s1 := s.(tokens := s.tokens - gone); QueueOk(p, s1, q) && ReaskOk(s1, q, reask)
  {
    hide Enterable;
  }

  lemma FireQueue(p: Process, m: Machine, n: NodeIx, scope: ScopeId, gone: set<TokenId>, to: Move)
    requires Owned(p, m.s) && QueueOk(p, m.s, m.q) && ReaskOk(m.s, m.q, m.reask) && Fires(p, m.s, n, scope, gone)
    requires to.token == m.s.nextToken && PlaceOk(p, m.s, to.node, to.scope) && Enterable(p, to.node, to.via)
    ensures var s1 := m.s.(tokens := m.s.tokens - gone).Minted(1);
            Owned(p, s1) && QueueOk(p, s1, m.q + [to]) && ReaskOk(s1, m.q + [to], m.reask)
  {
    hide Enterable, Owned, TokensOk, QueueOk, ReaskOk;
    var s0 := m.s.(tokens := m.s.tokens - gone);
    IdlersOwnNothing(p, m.s, gone);
    hide Fires;
    FewerTokens(p, m.s, m.q, gone, m.reask);
    FreshOwned(p, s0, m.s.nextToken + 1);
    TokensOf(p, s0);
    assert Births(p, s0, [to], to.scope);
    BirthsQueue(p, m.(s := s0), [to], to.scope, m.s.nextToken + 1);
  }

  /** Every incoming flow has arrived: one token of each goes, a fresh one leaves. */
  lemma JoinFires(p: Process, m: Machine, n: NodeIx, scope: ScopeId, gone: set<TokenId>, to: Move)
    requires Inv(p, m, {}) && m.s.status.Active?
    requires n < |p.nodes| && p.IsJoin(n) && |p.Outgoing(n)| == 1 && Fires(p, m.s, n, scope, gone)
    requires to.token == m.s.nextToken && to.scope == scope && to.via == Some(p.OnlyFlow(n))
    requires PlaceOk(p, m.s, to.node, to.scope) && Enterable(p, to.node, to.via)
    ensures Inv(p, m.(s := m.s.(tokens := m.s.tokens - gone).Minted(1), q := m.q + [to]), {})
  {
    hide Enterable, Owned, QueueOk, ReaskOk, Safe, LivesIn;
    assert TokensOk(p, m.s) by { TokensOf(p, m.s); }
    FireQueue(p, m, n, scope, gone, to);
    FireSafe(p, m, n, scope, gone, to);
    hide TokensOk, Fires, Everybody;
    assert Everybody(p, m.s.(tokens := m.s.tokens - gone), m.q + [to])
        == Everybody(p, m.s.(tokens := m.s.tokens - gone).Minted(1), m.q + [to]);
  }

  lemma TokensOf(p: Process, s: Instance)
    requires Owned(p, s)
    ensures TokensOk(p, s)
  {
  }

  lemma JoinLeaves(p: Process, m: Machine, mv: Move)
    requires AboutToEnter(p, m, mv) && p.IsJoin(mv.node)
    ensures |p.Outgoing(mv.node)| == 1
    ensures var f := p.OnlyFlow(mv.node); PlaceOk(p, m.s, p.Target(f), mv.scope) && Enterable(p, p.Target(f), Some(f))
    ensures mv.node < |p.nodes|
  {
    HandOk(p, m, mv);
    OutEnterable(p, mv.node, p.Outgoing(mv.node)[0]);
  }

  /** What a join that fires does, said as the step does it. */
  lemma FiredLeaves(p: Process, m: Machine, n: NodeIx, gone: set<TokenId>)
    requires |p.Outgoing(n)| == 1
    requires var to := Move(m.s.nextToken, p.Target(p.OnlyFlow(n)), Some(p.OnlyFlow(n)), m.scope);
             Inv(p, m.(s := m.s.(tokens := m.s.tokens - gone).Minted(1), q := m.q + [to]), {})
    ensures Entered(p, LeaveSingle(p, FreshToken(Finished(Started(Unpark(m, gone), n), n)), m.s.nextToken, n))
  {
    hide Inv;
    var f := p.OnlyFlow(n);
    var to := Move(m.s.nextToken, p.Target(f), Some(f), m.scope);
    var m2 := Finished(Started(Unpark(m, gone), n), n);
    InvSame(p, m.(s := m.s.(tokens := m.s.tokens - gone).Minted(1), q := m.q + [to]), Leave(p, FreshToken(m2), m2.s.nextToken, f), {});
  }

  lemma EntersJoin(p: Process, m: Machine, mv: Move)
    requires p.IsJoin(mv.node)
    ensures Enter(p, m, mv.token, mv.node, mv.via) == EnterJoin(p, m, mv.token, mv.node, mv.via)
  {
    hide EnterJoin;
  }

  lemma LastArrivalFires(p: Process, m: Machine, n: NodeIx)
    requires Inv(p, m, {}) && m.s.status.Active? && AllArrived(p, m.s, n, m.scope)
    requires n < |p.nodes| && p.IsJoin(n) && |p.Outgoing(n)| == 1
    requires PlaceOk(p, m.s, p.Target(p.OnlyFlow(n)), m.scope) && Enterable(p, p.Target(p.OnlyFlow(n)), Some(p.OnlyFlow(n)))
    ensures Entered(p, LeaveSingle(p, FreshToken(Finished(Started(Unpark(m, Consumed(p, m.s, n, m.scope)), n), n)), m.s.nextToken, n))
  {
    hide Inv, PlaceOk, Enterable, Fires, AllArrived, Consumed, Entered, LeaveSingle, Process.IsJoin;
    ConsumedFires(p, m.s, n, m.scope);
    var f := p.OnlyFlow(n);
    JoinFires(p, m, n, m.scope, Consumed(p, m.s, n, m.scope), Move(m.s.nextToken, p.Target(f), Some(f), m.scope));
    FiredLeaves(p, m, n, Consumed(p, m.s, n, m.scope));
  }

  /** A join is entered: no second token on one flow, and it fires when the last
      flow has arrived. */
  lemma EnterJoinKeeps(p: Process, m: Machine, mv: Move)
    requires AboutToEnter(p, m, mv) && Certified(p) && p.IsJoin(mv.node)
    ensures Entered(p, Enter(p, m, mv.token, mv.node, mv.via))
  {
    EntersJoin(p, m, mv);
    hide AboutToEnter, Inv, Enterable, Certified, AllArrived, ArrivedOn, Consumed, Enter, LeaveSingle, Process.IsJoin;
    JoinFree(p, m, mv);
    JoinParks(p, m, mv);
    JoinLeaves(p, m, mv);
    InScope(p, m, mv);
    var m1 := Park(m, mv.token, mv.node, AtJoin(mv.via.value));
    if AllArrived(p, m1.s, mv.node, mv.scope) {
      LastArrivalFires(p, m1, mv.node);
    }
  }

  lemma InScope(p: Process, m: Machine, mv: Move)
    requires AboutToEnter(p, m, mv)
    ensures m.scope == mv.scope && m.s.status.Active?
  {
  }
}
