/** Starting and repairing keep the invariant: a repair thaws what a freeze
    halted, and acts at the resume point as any step would. */
module Repairing {
  import opened Basics
  import opened Json
  import opened Compiled
  import opened State
  import opened Advance
  import opened Step
  import opened Game
  import opened Invariant
  import opened Keeping
  import opened Freezing
  import opened Leaving
  import opened Branching
  import opened Running
  import opened Stepping

  // ---- starting

  lemma StartPlace(p: Process, s: Instance)
    requires WellFormed(p) && ROOT !in s.scopes
    ensures PlaceOk(p, s, p.Begin(), ROOT) && Enterable(p, p.Begin(), None) && p.KindOf(p.Begin()).Start?
  {
    assert ShapeOk(p, p.ScopeStart(0));
  }

  lemma FirstMove(p: Process, s: Instance, s1: Instance, mv: Move)
    requires Inv(p, Idle(s), {}) && s.status.Created?
    requires s1 == s.Minted(1).(status := Active, variables := s1.variables)
    requires mv.token == s.nextToken && mv.scope == ROOT && mv.via.None? && p.KindOf(mv.node).Start? && mv.node < |p.nodes|
    requires PlaceOk(p, s, mv.node, ROOT) && Enterable(p, mv.node, None)
    ensures Inv(p, Machine(s1, [mv], [], ROOT, []), {})
  {
    hide Owned, Safe;
    IdleOwned(p, s);
    FreshOwned(p, s, s.nextToken + 1);
    AlikeOwned(p, s.(nextToken := s.nextToken + 1), s1);
    assert s1.scopes == map[] by { NoScopes(p, s); }
    OpenUp(p, map[], mv.token, PlaceOfMove(mv));
    assert Everybody(p, s1, [mv]) == map[mv.token := PlaceOfMove(mv)] by {
      assert [mv][..0] == [];
    }
  }

  lemma NoScopes(p: Process, s: Instance)
    requires Owned(p, s) && s.tokens == map[]
    ensures s.scopes == map[]
  {
  }

  lemma RootIsNoScope(p: Process, s: Instance)
    requires Inv(p, Idle(s), {})
    ensures ROOT !in s.scopes
  {
  }

  lemma StartSound(p: Process, s: Instance, variables: Value)
    requires WellFormed(p) && Resting(p, s)
    ensures Sound(p, OpenStart(p, s, variables))
  {
    hide Inv, WellFormed, PlaceOk, Enterable;
    if s.status.Created? {
      RootIsNoScope(p, s);
      StartPlace(p, s);
      var mv := Move(s.nextToken, p.ScopeStart(0), None, ROOT);
      var m := OpenStart(p, s, variables).m;
      FirstMove(p, s, m.s, mv);
      InvSame(p, Machine(m.s, [mv], [], ROOT, []), m, {});
    }
  }

  // ---- thawing

  lemma MovesOfIs(s: Instance, ids: seq<TokenId>)
    requires Ascending(ids)
    ensures var q := MovesOf(s, ids);
            && Distinct(q)
            && (forall mv :: mv in q ==> mv.token in ids && mv == Again(mv.token, s.TokenAt(mv.token)))
            && (forall id :: id in ids ==> exists mv :: mv in q && mv.token == id)
  {
    var q := MovesOf(s, ids);
    forall id | id in ids ensures exists mv :: mv in q && mv.token == id {
      var i :| 0 <= i < |ids| && ids[i] == id;
      assert q[i] in q && q[i].token == id;
    }
  }

  /** What a repair makes of a frozen instance before it acts: every halted move
      back in the queue, the cause out of the state. */
  function Thawed(s: Instance, cause: TokenId, variables: Value): Machine {
    Collateral(Idle(s.(status := Active, variables := variables, tokens := s.tokens - {cause})))
  }

  /** The facts of a thaw, without its sorts. */
  ghost predicate ThawedFrom(s: Instance, cause: TokenId, m: Machine) {
    && m.s == s.(status := Active, variables := m.s.variables, tokens := s.tokens - ({cause} + Flying(s)))
    && Distinct(m.q)
    && (forall mv :: mv in m.q ==> mv.token in Flying(s) && mv.token != cause && mv == Again(mv.token, s.TokenAt(mv.token)))
    && (forall id :: id in Flying(s) ==> exists mv :: mv in m.q && mv.token == id)
    && (forall id :: id in m.reask <==> id in Asking(s))
  }

  lemma ThawQueue(s: Instance, cause: TokenId, s1: Instance)
    requires cause in s.tokens && s.TokenAt(cause).wait.AtIncident? && s1.tokens == s.tokens - {cause}
    ensures Flying(s1) == Flying(s) && Asking(s1) == Asking(s)
    ensures s.tokens - {cause} - Flying(s) == s.tokens - ({cause} + Flying(s))
  {
  }

  /** What is asked for again is the collateral, and only it. */
  lemma CollateralIs(m: Machine)
    requires m.q == [] && m.reask == []
    ensures var c := Collateral(m);
            && c == m.(s := m.s.(tokens := m.s.tokens - Flying(m.s)), q := c.q, reask := c.reask)
            && Distinct(c.q)
            && (forall mv :: mv in c.q ==> mv.token in Flying(m.s) && mv == Again(mv.token, m.s.TokenAt(mv.token)))
            && (forall id :: id in Flying(m.s) ==> exists mv :: mv in c.q && mv.token == id)
            && (forall id :: id in c.reask <==> id in Asking(m.s))
  {
    hide MovesOf, Distinct, Flying, Asking;
    var ids, asking := Sorted(Flying(m.s)), Sorted(Asking(m.s));
    MovesOfIs(m.s, ids);
    var q := MovesOf(m.s, ids);
    assert [] + q == q && [] + asking == asking;
  }

  lemma FlyingAre(s: Instance)
    ensures forall id :: id in Flying(s) ==> id in s.tokens && s.TokenAt(id).wait.InFlight()
  {
  }

  lemma ThawIs(s: Instance, cause: TokenId, variables: Value)
    requires cause in s.tokens && s.TokenAt(cause).wait.AtIncident?
    ensures ThawedFrom(s, cause, Thawed(s, cause, variables))
  {
    hide Collateral, Distinct, Flying, Asking;
    var s1 := s.(status := Active, variables := variables, tokens := s.tokens - {cause});
    ThawQueue(s, cause, s1);
    FlyingAre(s1);
    CollateralIs(Idle(s1));
  }

  lemma ThawPlaces(p: Process, s: Instance, cause: TokenId, m: Machine, hand: Move)
    requires cause in s.tokens && s.TokenAt(cause).wait.AtIncident? && ThawedFrom(s, cause, m)
    requires hand == Move(cause, p.ResumePoint(s.TokenAt(cause).node), None, s.TokenAt(cause).scope)
    ensures Distinct(InHand(m, hand).q)
    ensures Everybody(p, m.s, InHand(m, hand).q) == Everybody(p, s, [])
  {
    DistinctPush(m.q, hand);
    MovesStand(InHand(m, hand).q);
    ThawStands(p, s, cause, m, hand, MovePlaces(InHand(m, hand).q));
  }

  lemma ThawStands(p: Process, s: Instance, cause: TokenId, m: Machine, hand: Move, moves: Population)
    requires cause in s.tokens && s.TokenAt(cause).wait.AtIncident? && ThawedFrom(s, cause, m)
    requires hand == Move(cause, p.ResumePoint(s.TokenAt(cause).node), None, s.TokenAt(cause).scope)
    requires Stand(m.q + [hand], moves)
    ensures TokenPlaces(p, m.s.tokens) + moves == TokenPlaces(p, s.tokens)
  {
    hide Distinct;
    assert hand in m.q + [hand];
    forall id | id in Flying(s) ensures id in moves && moves[id] == PlaceOf(p, s.tokens[id]) {
      var mv :| mv in m.q && mv.token == id;
      assert mv in m.q + [hand];
    }
    forall id | id in moves ensures id == cause || id in Flying(s) {
      var mv :| mv in m.q + [hand] && mv.token == id;
    }
    hide TokenPlaces, PlaceOf;
    Restored(p, s.tokens, {cause} + Flying(s), moves);
  }

  lemma Restored(p: Process, tokens: map<TokenId, Token>, out: set<TokenId>, moves: Population)
    requires out <= tokens.Keys && moves.Keys == out && forall id :: id in out ==> id in tokens && moves[id] == PlaceOf(p, tokens[id])
    ensures TokenPlaces(p, tokens - out) + moves == TokenPlaces(p, tokens)
  {
    hide PlaceOf;
  }

  /** Frozen, with the one cause to repair. */
  ghost predicate FrozenOn(p: Process, s: Instance, cause: TokenId) {
    && Inv(p, Idle(s), {}) && s.status.Failed?
    && cause in s.tokens && s.TokenAt(cause).wait.AtIncident?
  }

  function HandOf(p: Process, s: Instance, cause: TokenId): Move {
    Move(cause, p.ResumePoint(s.TokenAt(cause).node), None, s.TokenAt(cause).scope)
  }

  lemma OnlyCause(p: Process, s: Instance, cause: TokenId)
    requires FrozenOn(p, s, cause)
    ensures Owned(p, s) && forall id :: id in s.tokens && s.TokenAt(id).wait.AtIncident? ==> id == cause
  {
  }

  lemma ThawOwned(p: Process, s: Instance, cause: TokenId, m: Machine)
    requires FrozenOn(p, s, cause) && ThawedFrom(s, cause, m)
    ensures Owned(p, m.s)
    ensures forall id :: id in m.s.tokens ==> !m.s.TokenAt(id).wait.AtIncident? && (m.s.TokenAt(id).wait.Halted? ==> m.s.TokenAt(id).wait == Halted(AwaitingDecision) && id in m.reask)
  {
    hide Inv, Owned, Distinct;
    OnlyCause(p, s, cause);
    IdlersOwnNothing(p, s, {cause} + Flying(s));
    var s1 := s.(tokens := s.tokens - ({cause} + Flying(s)));
    AlikeOwned(p, s1, m.s);
  }

  lemma ResumeOk(p: Process, s: Instance, cause: TokenId)
    requires cause in s.tokens && TokenOk(p, s, cause, s.TokenAt(cause)) && s.TokenAt(cause).wait.AtIncident?
    ensures var hand := HandOf(p, s, cause);
            PlaceOk(p, s, hand.node, hand.scope) && Enterable(p, hand.node, hand.via)
  {
  }

  lemma ThawMove(p: Process, s: Instance, cause: TokenId, m: Machine, mv: Move)
    requires FrozenOn(p, s, cause) && ThawedFrom(s, cause, m)
    requires mv == HandOf(p, s, cause) || mv in m.q
    ensures MoveOk(p, m.s, mv)
  {
    hide Inv, Distinct, Enterable, IncidentAt;
    TokenIn(p, s, mv.token);
    BelowNext(p, s, mv.token);
    assert mv.token in {cause} + Flying(s);
    if mv == HandOf(p, s, cause) {
      ResumeOk(p, s, cause);
    }
  }

  lemma ThawQueueOk(p: Process, s: Instance, cause: TokenId, m: Machine)
    requires FrozenOn(p, s, cause) && ThawedFrom(s, cause, m)
    ensures QueueOk(p, m.s, InHand(m, HandOf(p, s, cause)).q)
    ensures ReaskOk(m.s, InHand(m, HandOf(p, s, cause)).q, m.reask)
  {
    hide Inv, MoveOk, Owned;
    var hand := HandOf(p, s, cause);
    ThawPlaces(p, s, cause, m, hand);
    forall mv | mv in InHand(m, hand).q ensures MoveOk(p, m.s, mv) {
      ThawMove(p, s, cause, m, mv);
    }
    forall id | id in m.reask ensures id < m.s.nextToken {
      BelowNext(p, s, id);
    }
    hide Distinct;
  }

  lemma BelowNext(p: Process, s: Instance, id: TokenId)
    requires Inv(p, Idle(s), {}) && id in s.tokens
    ensures id < s.nextToken
  {
  }

  /** Nothing advances by thawing: everybody stands where the freeze left them. */
  lemma ThawKeeps(p: Process, s: Instance, cause: TokenId, m: Machine)
    requires FrozenOn(p, s, cause) && ThawedFrom(s, cause, m)
    ensures Inv(p, InHand(m, HandOf(p, s, cause)), {})
  {
    hide Owned, QueueOk, ReaskOk, Everybody, Safe, LivesIn, ThawedFrom;
    ThawOwned(p, s, cause, m);
    ThawQueueOk(p, s, cause, m);
    ThawPlaces(p, s, cause, m, HandOf(p, s, cause));
    ThawScopes(s, cause, m);
    var m' := InHand(m, HandOf(p, s, cause));
    assert Everybody(p, m'.s, m'.q) == Everybody(p, s, []);
    assert StatusOk(m'.s, m'.q, m'.reask);
    assert Inhabited(m'.s, Everybody(p, m'.s, m'.q), {});
  }

  lemma ThawScopes(s: Instance, cause: TokenId, m: Machine)
    requires ThawedFrom(s, cause, m)
    ensures m.s.scopes == s.scopes && m.s.status.Active? && m.s.nextIncident == s.nextIncident
  {
  }

  // ---- a disposition, then the collateral

  lemma HandQueued(p: Process, m: Machine, to: Move, r: Machine)
    requires Inv(p, InHand(m, to), {}) && QueueOk(p, m.s, InHand(m, to).q)
    requires r.s == m.s.(variables := r.s.variables) && r.q == [to] + m.q && r.reask == m.reask
    ensures Inv(p, r, {})
  {
    hide Inv, MoveOk;
    Fronted(to, m.q);
    hide Distinct;
    Reordered(p, InHand(m, to), {}, [to] + m.q);
    Alike(p, m.(q := [to] + m.q), r);
  }

  lemma Fronted(to: Move, q: seq<Move>)
    requires Distinct(q + [to])
    ensures SameMoves(q + [to], [to] + q)
  {
    DistinctPush(q, to);
  }

  lemma QueueOkIn(p: Process, m: Machine)
    requires Inv(p, m, {})
    ensures QueueOk(p, m.s, m.q)
  {
  }

  /** What a disposition may leave behind the collateral it queues first. */
  lemma CollateralAfter(m: Machine, x: seq<Move>)
    requires m.q == []
    ensures var c := Collateral(m); Collateral(m.(q := x)) == c.(q := x + c.q)
  {
    hide Sorted, MovesOf, Flying, Asking;
    assert [] + MovesOf(m.s, Sorted(Flying(m.s))) == MovesOf(m.s, Sorted(Flying(m.s)));
  }

  lemma ThawSame(s: Instance, cause: TokenId, m: Machine)
    requires m.s == s.(status := Active, variables := m.s.variables, tokens := s.tokens - {cause}) && m.q == [] && m.reask == []
    ensures var t := Thawed(s, cause, m.s.variables); var c := Collateral(m);
            c.s == t.s && c.q == t.q && c.reask == t.reask
  {
  }

  /** The disposition sent the cause on to `to`, and touched nothing else. */
  lemma HandSentOn(p: Process, s: Instance, cause: TokenId, m: Machine, to: Move)
    requires FrozenOn(p, s, cause) && to.token == cause
    requires m.s == s.(status := Active, variables := m.s.variables, tokens := s.tokens - {cause}) && m.q == [to] && m.reask == []
    requires to == HandOf(p, s, cause) || GoesOn(p, s.TokenAt(cause), to)
    ensures Inv(p, Collateral(m), {})
  {
    hide Inv, Collateral, SameMarks, Enterable, QueueOk;
    var hand := HandOf(p, s, cause);
    var thawed := Thawed(s, cause, m.s.variables);
    ThawIs(s, cause, m.s.variables);
    ThawKeeps(p, s, cause, thawed);
    var m0 := m.(q := []);
    ThawSame(s, cause, m0);
    CollateralAfter(m0, [to]);
    assert m0.(q := [to]) == m;
    ThawScopes(s, cause, thawed);
    if to != hand {
      TokenIn(p, s, cause);
      Onward(p, thawed, hand, to);
    }
    QueueOkIn(p, InHand(thawed, to));
    HandQueued(p, thawed, to, Collateral(m));
  }

  lemma FreedDrop(s: Instance, out: set<TokenId>, token: TokenId)
    requires token in s.tokens && token !in out
    requires s.TimersOf(out) == {} && s.SubsOf(out) == {} && s.OpenItemsOf(out) == {}
    ensures Freed(s.(tokens := s.tokens - out), token) == Freed(s, token).(tokens := Freed(s, token).tokens - out)
    ensures ChildScopes(s.(tokens := s.tokens - out), token) == ChildScopes(s, token)
  {
    var s1 := s.(tokens := s.tokens - out);
    var a, b := WithChildren(s1, token), WithChildren(s, token);
    assert ChildScopes(s1, token) == ChildScopes(s, token);
    hide ChildScopes;
    assert a == b - out;
    assert s1.TimersOf(a) == s.TimersOf(b) by {
      forall k | k in s.TimersOf(b) ensures k in s1.TimersOf(a) { assert s.timers[k].token in out ==> k in s.TimersOf(out); }
    }
    assert s1.SubsOf(a) == s.SubsOf(b) by {
      forall k | k in s.SubsOf(b) ensures k in s1.SubsOf(a) { assert s.subs[k].token in out ==> k in s.SubsOf(out); }
    }
    assert s1.OpenItemsOf(a) == s.OpenItemsOf(b) by {
      forall k | k in s.OpenItemsOf(b) ensures k in s1.OpenItemsOf(a) { assert s.items[k].token in out ==> k in s.OpenItemsOf(out); }
    }
    assert s1.tokens - a == s.tokens - b - out;
  }

  lemma ReaskFewer(p: Process, m: Machine, reask: seq<TokenId>)
    requires Inv(p, m, {}) && m.s.status.Active?
    requires forall id :: id in reask ==> id in m.reask
    requires forall id :: id in m.s.tokens && id in m.reask && m.s.TokenAt(id).wait.Halted? ==> id in reask
    ensures Inv(p, m.(reask := reask), {})
  {
    hide Owned, MoveOk, Distinct, Safe, LivesIn;
  }

  /** The token waiting on the cause's scope, or on one around it, went on and
      took that scope with it. */
  ghost predicate ScopeSent(s: Instance, cause: TokenId, token: TokenId, to: Move, m: Machine) {
    && token in s.tokens && s.tokens[token].wait.OnScope? && cause in s.tokens && s.tokens[cause].scope in ChildScopes(s, token)
    && m.s == Freed(s, token).(status := Active, variables := m.s.variables)
    && to.token == token && m.q == [to] && m.reask == []
  }

  lemma SentFlying(s: Instance, cause: TokenId, token: TokenId, to: Move, m: Machine)
    requires cause in s.tokens && s.TokenAt(cause).wait.AtIncident? && ScopeSent(s, cause, token, to, m)
    ensures forall id :: id in m.s.tokens <==> id in s.tokens && id != token && s.TokenAt(id).scope !in ChildScopes(s, token)
    ensures forall id :: id in m.s.tokens ==> m.s.TokenAt(id) == s.TokenAt(id) && id != cause
  {
  }

  lemma ThawState(s: Instance, cause: TokenId, variables: Value)
    requires cause in s.tokens && s.TokenAt(cause).wait.AtIncident?
    ensures Thawed(s, cause, variables).s == s.(status := Active, variables := variables, tokens := s.tokens - ({cause} + Flying(s)))
  {
    ThawIs(s, cause, variables);
  }

  lemma SentState(p: Process, s: Instance, cause: TokenId, token: TokenId, to: Move, m: Machine)
    requires FrozenOn(p, s, cause) && ScopeSent(s, cause, token, to, m)
    ensures var thawed := Thawed(s, cause, m.s.variables);
            Freed(thawed.s, token) == m.s.(tokens := m.s.tokens - Flying(m.s))
            && ChildScopes(thawed.s, token) == ChildScopes(s, token)
  {
    hide Inv, Freed, Thawed, ChildScopes, Owned;
    var out := {cause} + Flying(s);
    ThawState(s, cause, m.s.variables);
    OnlyCause(p, s, cause);
    OutOwnsNothing(p, s, out);
    FreedDrop(s, out, token);
    FreedAlike(s.(tokens := s.tokens - out), Thawed(s, cause, m.s.variables).s, token);
    SentTokens(s, cause, token, to, m);
  }

  lemma SentTokens(s: Instance, cause: TokenId, token: TokenId, to: Move, m: Machine)
    requires cause in s.tokens && s.TokenAt(cause).wait.AtIncident? && ScopeSent(s, cause, token, to, m)
    ensures m.s.tokens - ({cause} + Flying(s)) == m.s.tokens - Flying(m.s)
  {
    SentFlying(s, cause, token, to, m);
    hide ScopeSent;
  }

  lemma OutOwnsNothing(p: Process, s: Instance, out: set<TokenId>)
    requires Owned(p, s) && forall t :: t in out ==> t in s.tokens && HoldsNothing(s.TokenAt(t).wait)
    ensures s.TimersOf(out) == {} && s.SubsOf(out) == {} && s.OpenItemsOf(out) == {}
  {
  }

  lemma SentQueue(p: Process, s: Instance, cause: TokenId, token: TokenId, to: Move, m: Machine)
    requires FrozenOn(p, s, cause) && ScopeSent(s, cause, token, to, m)
    ensures var thawed := Thawed(s, cause, m.s.variables);
            SameMoves(Spared(thawed.q, ChildScopes(s, token)) + [to], Collateral(m).q)
  {
    hide Inv, Freed, Collateral, ChildScopes, Spared;
    var closed := ChildScopes(s, token);
    ThawIs(s, cause, m.s.variables);
    var thawed := Thawed(s, cause, m.s.variables);
    var c := Collateral(m.(q := []));
    CollateralIs(m.(q := []));
    CollateralAfter(m.(q := []), [to]);
    assert m.(q := []).(q := [to]) == m;
    SentFlying(s, cause, token, to, m);
    SparedPlaces(thawed.q, closed);
    SparedIs(thawed.q, closed);
    FlyingAre(s);
    FlyingAre(m.s);
    SentMoves(s, token, closed, thawed.q, c.q, m.s);
    var a, b := Spared(thawed.q, closed), c.q;
    DistinctPush(a, to);
    DistinctPush(b, to);
    Fronted(to, b);
  }

  lemma SentMoves(s: Instance, token: TokenId, closed: set<ScopeId>, all: seq<Move>, left: seq<Move>, s1: Instance)
    requires forall mv :: mv in all ==> mv.token in Flying(s) && mv == Again(mv.token, s.TokenAt(mv.token))
    requires forall id :: id in Flying(s) ==> exists mv :: mv in all && mv.token == id
    requires forall mv :: mv in left ==> mv.token in Flying(s1) && mv == Again(mv.token, s1.TokenAt(mv.token))
    requires forall id :: id in Flying(s1) ==> exists mv :: mv in left && mv.token == id
    requires forall id :: id in s1.tokens <==> id in s.tokens && id != token && s.TokenAt(id).scope !in closed
    requires forall id :: id in s1.tokens ==> s1.TokenAt(id) == s.TokenAt(id)
    requires token in s.tokens && s.TokenAt(token).wait.OnScope?
    ensures forall mv :: mv in left <==> mv in all && mv.scope !in closed
    ensures forall mv :: mv in all ==> mv.token != token
  {
    forall mv | mv in left ensures mv in all && mv.scope !in closed {
      assert mv.token in Flying(s);
      var other :| other in all && other.token == mv.token;
    }
    forall mv | mv in all && mv.scope !in closed ensures mv in left {
      assert mv.token in Flying(s1);
      var other :| other in left && other.token == mv.token;
    }
  }

  /** A scope sent on, then the collateral. */
  lemma ScopeSentOn(p: Process, s: Instance, cause: TokenId, token: TokenId, to: Move, m: Machine)
    requires FrozenOn(p, s, cause) && ScopeSent(s, cause, token, to, m) && GoesOn(p, s.TokenAt(token), to)
    ensures Inv(p, Collateral(m), {})
  {
    hide Inv, Freed, Collateral, ChildScopes, Spared, GoesOn, SameMoves, Flying, Asking, Exits;
    var hand := HandOf(p, s, cause);
    var thawed := Thawed(s, cause, m.s.variables);
    var c := Collateral(m);
    ThawIs(s, cause, m.s.variables);
    ThawKeeps(p, s, cause, thawed);
    ThawScopes(s, cause, thawed);
    SentState(p, s, cause, token, to, m);
    SentQueue(p, s, cause, token, to, m);
    CollateralIs(m.(q := []));
    CollateralAfter(m.(q := []), [to]);
    assert m.(q := []).(q := [to]) == m;
    WaiterStays(p, s, cause, token, thawed);
    ExitsKeeps(p, InHand(thawed, hand), token, to);
    ExitHand(thawed, hand, token, to);
    ExitsAre(thawed, token, to);
    var e := Exits(thawed, token, to);
    Reordered(p, e, {}, c.q);
    AskingLeft(s, cause, m, thawed, token, to);
    ReaskFewer(p, e.(q := c.q), c.reask);
    InvSame(p, e.(q := c.q, reask := c.reask), c, {});
  }

  lemma ExitsAre(m: Machine, token: TokenId, to: Move)
    ensures var e := Exits(m, token, to);
            e.s == Freed(m.s, token) && e.q == Spared(m.q, ChildScopes(m.s, token)) + [to] && e.reask == m.reask
            && e.s.status == m.s.status
  {
  }

  lemma WaiterStays(p: Process, s: Instance, cause: TokenId, token: TokenId, m: Machine)
    requires FrozenOn(p, s, cause) && ThawedFrom(s, cause, m) && token in s.tokens && s.TokenAt(token).wait.OnScope?
    ensures token in m.s.tokens && m.s.TokenAt(token) == s.TokenAt(token) && token !in m.reask
  {
    hide Inv, Distinct;
    assert token !in {cause} + Flying(s) && token !in Asking(s);
  }

  lemma AskingLeft(s: Instance, cause: TokenId, m: Machine, thawed: Machine, token: TokenId, to: Move)
    requires cause in s.tokens && s.TokenAt(cause).wait.AtIncident? && ScopeSent(s, cause, token, to, m) && ThawedFrom(s, cause, thawed)
    ensures forall id :: id in Asking(m.s) ==> id in thawed.reask
    ensures forall id :: id in m.s.tokens - Flying(m.s) && m.s.TokenAt(id).wait.Halted? ==> id in Asking(m.s)
  {
    SentFlying(s, cause, token, to, m);
  }

  // ---- the dispositions

  /** A repair about to act: active again, the cause still parked. */
  ghost predicate Acting(p: Process, s: Instance, cause: TokenId, m: Machine) {
    && FrozenOn(p, s, cause)
    && m.s == s.(status := Active, variables := m.s.variables)
    && m.q == [] && m.reask == [] && m.scope == s.TokenAt(cause).scope
  }

  lemma RetrySound(p: Process, s: Instance, cause: TokenId, m: Machine, patch: Value)
    requires Acting(p, s, cause, m)
    ensures var o := Disposed(p, m, cause, p.ResumePoint(s.TokenAt(cause).node), Retry(patch));
            o.Ok? && Inv(p, Collateral(o.m), {})
  {
    hide Inv, Collateral;
    var to := HandOf(p, s, cause);
    HandSentOn(p, s, cause, Unpark(m, {cause}).(q := [to]), to);
    assert [] + [to] == [to];
  }

  lemma ResumeGoesOn(p: Process, s: Instance, cause: TokenId)
    requires WellFormed(p) && FrozenOn(p, s, cause) && !p.KindOf(p.ResumePoint(s.TokenAt(cause).node)).EventBasedGateway?
    ensures var resume := p.ResumePoint(s.TokenAt(cause).node);
            |p.Outgoing(resume)| == 1
            && var f := p.OnlyFlow(resume); GoesOn(p, s.TokenAt(cause), Move(cause, p.Target(f), Some(f), s.TokenAt(cause).scope))
  {
    hide Inv;
    TokenIn(p, s, cause);
    var resume := p.ResumePoint(s.tokens[cause].node);
    assert ShapeOk(p, resume);
    hide WellFormed, ShapeOk;
    LeavesBy(p, s.tokens[cause], cause, resume);
  }

  lemma AdvanceSound(p: Process, s: Instance, cause: TokenId, m: Machine, patch: Value, answer: Option<Value>)
    requires WellFormed(p) && Acting(p, s, cause, m) && !p.KindOf(p.ResumePoint(s.TokenAt(cause).node)).EventBasedGateway?
    ensures var o := Disposed(p, m, cause, p.ResumePoint(s.TokenAt(cause).node), AdvancePast(patch, answer));
            o.Ok? && Inv(p, Collateral(o.m), {})
  {
    hide Inv, WellFormed, Collateral, GoesOn;
    ResumeGoesOn(p, s, cause);
    var resume := p.ResumePoint(s.tokens[cause].node);
    var f := p.Outgoing(resume)[0];
    var to := Move(cause, p.Target(f), Some(f), s.tokens[cause].scope);
    var o := Disposed(p, m, cause, resume, AdvancePast(patch, answer));
    assert [] + [to] == [to];
    HandSentOn(p, s, cause, o.m, to);
  }

  lemma ActingOwned(p: Process, s: Instance, cause: TokenId, m: Machine)
    requires Acting(p, s, cause, m)
    ensures Owned(p, m.s) && Owned(p, s) && TokenOk(p, s, cause, s.TokenAt(cause))
    ensures forall t :: t in s.tokens && !s.TokenAt(t).wait.OnItem? ==> s.OpenItemsOf({t}) == {}
  {
    OnlyCause(p, s, cause);
    AlikeOwned(p, s, m.s);
    TokenIn(p, s, cause);
  }

  lemma NothingDisowned(s: Instance, token: TokenId, all: set<TokenId>)
    requires s.OpenItemsOf({token}) == {}
    ensures PartlyDisowned(s, s, token, all)
  {
    forall i | i in s.items && s.items[i].open && s.items[i].token == token ensures i in s.OpenItemsOf({token}) {
    }
  }

  /** A divert that is caught interrupts who catches it. */
  lemma DivertIs(p: Process, s: Instance, cause: TokenId, m: Machine, target: TokenId, b: NodeIx)
    requires Acting(p, s, cause, m) && target in s.tokens && !s.TokenAt(target).wait.OnItem? && |p.Outgoing(b)| == 1
    ensures var f := p.OnlyFlow(b);
            var o := InterruptToBoundary(p, m, target, b);
            && o.Ok? && o.m.s == Freed(s, target).(status := Active, variables := m.s.variables)
            && o.m.q == [Move(target, p.Target(f), Some(f), s.TokenAt(target).scope)] && o.m.reask == []
  {
    hide Inv, Freed, PartlyDisowned, InterruptToBoundary, Owned, WithChildren;
    ActingOwned(p, s, cause, m);
    var s0 := s.(status := Active);
    FreedAlike(s, s0, target);
    NothingDisowned(s, target, WithChildren(s, target));
    AlikeOwned(p, s, s0);
    StatusPartly(s, s0, target);
    InterruptGoesOn(p, s0, m, target, b);
  }

  lemma StatusPartly(s: Instance, s0: Instance, token: TokenId)
    requires s0 == s.(status := s0.status) && PartlyDisowned(s, s, token, WithChildren(s, token))
    ensures PartlyDisowned(s0, s0, token, WithChildren(s0, token))
  {
  }

  lemma FreedCause(p: Process, s: Instance, cause: TokenId)
    requires FrozenOn(p, s, cause)
    ensures Freed(s, cause) == s.(tokens := s.tokens - {cause})
  {
    OnlyCause(p, s, cause);
    hide Inv;
    IdlersOwnNothing(p, s, {cause});
    assert WithChildren(s, cause) == {cause} && s.scopes - {} == s.scopes;
  }

  lemma DivertSound(p: Process, s: Instance, cause: TokenId, m: Machine, code: Option<string>)
    requires WellFormed(p) && Acting(p, s, cause, m)
    requires Catcher(p, s.scopes, p.ResumePoint(s.TokenAt(cause).node), cause, s.TokenAt(cause).scope, code).Some?
    ensures var o := Disposed(p, m, cause, p.ResumePoint(s.TokenAt(cause).node), Divert(code));
            o.Ok? && Inv(p, Collateral(o.m), {})
  {
    hide Inv, WellFormed, Collateral, GoesOn, Freed, InterruptToBoundary, Catcher;
    ActingOwned(p, s, cause, m);
    var t := s.tokens[cause];
    var resume := p.ResumePoint(t.node);
    CatcherGoesOn(p, s, resume, cause, t.scope, code);
    var caught := Catcher(p, s.scopes, resume, cause, t.scope, code).value;
    DivertIs(p, s, cause, m, caught.0, caught.1);
    var r := InterruptToBoundary(p, m, caught.0, caught.1).m;
    if caught.0 == cause {
      FreedCause(p, s, cause);
      HandSentOn(p, s, cause, r, r.q[0]);
    } else {
      ScopeSentOn(p, s, cause, caught.0, r.q[0], r);
    }
  }

  // ---- abandoning

  lemma {:induction false} RootHolds(p: Process, s: Instance, c: ScopeId)
    requires ScopesOk(s) && c in s.scopes
    requires forall t :: t in s.tokens && s.TokenAt(t).wait.OnScope? ==> s.TokenAt(t).scope == ROOT || s.TokenAt(t).scope in s.scopes
    ensures exists t :: t in s.tokens && s.TokenAt(t).scope == ROOT && s.TokenAt(t).wait.OnScope?
    decreases c
  {
    var up := s.scopes[c];
    assert s.tokens[up.token] == Token(up.element, up.parent, OnScope(c));
    if up.parent == ROOT {
    } else {
      RootHolds(p, s, up.parent);
    }
  }

  /** The last token of the root is the last token of all. */
  lemma LastOfRoot(p: Process, s: Instance, cause: TokenId)
    requires Owned(p, s) && cause in s.tokens && !s.TokenAt(cause).wait.OnScope?
    requires forall t :: t in s.tokens && t != cause ==> s.TokenAt(t).scope != ROOT
    ensures s.tokens.Keys == {cause}
  {
    forall t | t in s.tokens ensures s.tokens[t].scope == ROOT || s.tokens[t].scope in s.scopes {
      assert TokenOk(p, s, t, s.tokens[t]);
    }
    hide TokensOk;
    forall t | t in s.tokens ensures t == cause {
      if t != cause {
        RootHolds(p, s, s.tokens[t].scope);
      }
    }
  }

  lemma NobodyLeft(p: Process, m: Machine)
    requires Owned(p, m.s) && m.s.tokens == map[] && m.q == [] && m.reask == [] && m.s.status.Active?
    ensures Inv(p, m, {})
  {
    NobodyIsSafe(p);
    NoScopes(p, m.s);
    assert Everybody(p, m.s, m.q) == map[];
    hide Safe, Owned;
  }

  lemma SidePathAgrees(p: Process, n: NodeIx, scope: ScopeId)
    requires WellFormed(p) && SidePathsOk(p) && p.OnSidePath(n)
    ensures forall c :: Conserving(p, c) ==> !Marked(c, Place(n, None, scope))
  {
    var steps: NodeIx -> nat :| LedTo(p, steps);
    forall c | Conserving(p, c) ensures !Marked(c, Place(n, None, scope)) {
      SidePathUnmarked(p, c, steps, n);
    }
  }

  lemma StillInhabited(p: Process, s: Instance, cause: TokenId, m: Machine, t: TokenId)
    requires FrozenOn(p, s, cause) && ThawedFrom(s, cause, m)
    requires t in s.tokens && t != cause
    ensures LivesIn(Everybody(p, m.s, m.q), s.TokenAt(t).scope)
  {
    hide Inv;
    var hand := HandOf(p, s, cause);
    ThawPlaces(p, s, cause, m, hand);
    ThawQueueOk(p, s, cause, m);
    InHandPlaces(p, m, hand);
    hide ThawedFrom, QueueOk, ReaskOk;
    var pop := Everybody(p, m.s, m.q);
    assert t in Everybody(p, s, []) && Everybody(p, s, [])[t].scope == s.tokens[t].scope;
    assert t in pop && pop[t].scope == s.tokens[t].scope;
  }

  /** The token is consumed, and its scope goes on without it. */
  lemma AbandonStays(p: Process, s: Instance, cause: TokenId, m: Machine)
    requires WellFormed(p) && SidePathsOk(p) && Acting(p, s, cause, m)
    requires p.OnSidePath(p.ResumePoint(s.TokenAt(cause).node))
    requires s.TokenAt(cause).scope == ROOT || exists t :: t in s.tokens && t != cause && s.TokenAt(t).scope == s.TokenAt(cause).scope
    ensures Inv(p, Collateral(Unpark(m, {cause})), {})
  {
    hide Inv, Collateral, WellFormed, ThawedFrom;
    var thawed := Thawed(s, cause, m.s.variables);
    ThawIs(s, cause, m.s.variables);
    ThawKeeps(p, s, cause, thawed);
    ThawScopes(s, cause, thawed);
    var hand := HandOf(p, s, cause);
    SidePathAgrees(p, hand.node, hand.scope);
    if hand.scope != ROOT {
      var t :| t in s.tokens && t != cause && s.tokens[t].scope == s.tokens[cause].scope;
      StillInhabited(p, s, cause, thawed, t);
    }
    HandConsumed(p, thawed, hand);
    ThawSame(s, cause, Unpark(m, {cause}));
    InvSame(p, thawed, Collateral(Unpark(m, {cause})), {});
  }

  lemma NoMember<T(!new)>(q: seq<T>)
    ensures q == [] <==> forall x :: x !in q
  {
    if q != [] {
      assert q[0] in q;
    }
  }

  lemma AbandonLastOfRoot(p: Process, s: Instance, cause: TokenId, m: Machine)
    requires Acting(p, s, cause, m) && s.TokenAt(cause).scope == ROOT
    requires forall t :: t in s.tokens && t != cause ==> s.TokenAt(t).scope != ROOT
    ensures Inv(p, Collateral(Unpark(m, {cause})), {})
  {
    hide Inv, Collateral, Owned;
    ActingOwned(p, s, cause, m);
    LastOfRoot(p, s, cause);
    assert m.s.tokens - {cause} == map[];
    var m1 := Unpark(m, {cause});
    CollateralIs(m1);
    ThawIs(s, cause, m.s.variables);
    ThawOwned(p, s, cause, Thawed(s, cause, m.s.variables));
    ThawSame(s, cause, m1);
    var c := Collateral(m1);
    NoMember(c.q);
    NoMember(c.reask);
    NobodyLeft(p, c);
  }

  lemma CompletesSent(p: Process, s: Instance, cause: TokenId, m1: Machine, scope: ScopeId)
    requires FrozenOn(p, s, cause) && scope == s.TokenAt(cause).scope && Owned(p, m1.s)
    requires m1.s == s.(status := Active, variables := m1.s.variables, tokens := s.tokens - {cause}) && m1.q == [] && m1.reask == []
    requires scope in s.scopes && ScopeIsEmpty(m1, scope) && |p.Outgoing(s.ScopeAt(scope).element)| == 1
    requires s.ScopeAt(scope).token in s.tokens && s.TokenAt(s.ScopeAt(scope).token).wait == OnScope(scope)
    ensures var up := s.ScopeAt(scope);
            var f := p.OnlyFlow(up.element);
            var o := CompleteScope(p, m1, scope);
            o.Ok? && ScopeSent(s, cause, up.token, Move(up.token, p.Target(f), Some(f), up.parent), o.m)
  {
    hide Inv, Freed, CompleteScope, TearDown, ChildScopes, ScopeIsEmpty, Exits;
    var token := s.scopes[scope].token;
    var f := p.Outgoing(s.scopes[scope].element)[0];
    var to := Move(token, p.Target(f), Some(f), s.scopes[scope].parent);
    OwnScope(s, token, scope);
    FreedWithout(p, s, cause, m1, token);
    assert ScopesOk(m1.s);
    hide Owned;
    TearEmpty(m1, scope);
    TornCompletes(p, m1, scope);
    ExitsAre(m1, token, to);
    assert Spared([], ChildScopes(m1.s, token)) == [];
  }

  /** The last token of a subprocess: its scope completes. */
  lemma AbandonCompletes(p: Process, s: Instance, cause: TokenId, m: Machine)
    requires WellFormed(p) && Acting(p, s, cause, m) && s.TokenAt(cause).scope != ROOT
    requires ScopeIsEmpty(Unpark(m, {cause}), s.TokenAt(cause).scope)
    ensures var o := CompleteScope(p, Unpark(m, {cause}), s.TokenAt(cause).scope);
            o.Ok? && Inv(p, Collateral(o.m), {})
  {
    hide Inv, WellFormed, Collateral, GoesOn, CompleteScope, ScopeIsEmpty, ScopeSent, Owned;
    ActingOwned(p, s, cause, m);
    var scope := s.tokens[cause].scope;
    var up := s.scopes[scope];
    ScopeOwner(p, s, scope);
    TokenIn(p, s, up.token);
    SubProcessGoesOn(p, s.tokens[up.token], up.token);
    var f := p.Outgoing(up.element)[0];
    var m1 := Unpark(m, {cause});
    CauseGone(p, s, cause, m, m1);
    CompletesSent(p, s, cause, m1, scope);
    ScopeSentOn(p, s, cause, up.token, Move(up.token, p.Target(f), Some(f), up.parent), CompleteScope(p, m1, scope).m);
  }

  lemma OwnScope(s: Instance, token: TokenId, scope: ScopeId)
    requires token in s.tokens && s.TokenAt(token).wait == OnScope(scope)
    ensures scope in ChildScopes(s, token)
  {
  }

  lemma CauseGone(p: Process, s: Instance, cause: TokenId, m: Machine, m1: Machine)
    requires Acting(p, s, cause, m) && m1 == Unpark(m, {cause})
    ensures Owned(p, m1.s)
  {
    OnlyCause(p, s, cause);
    hide Inv, Owned;
    IdlersOwnNothing(p, s, {cause});
    AlikeOwned(p, s.(tokens := s.tokens - {cause}), m1.s);
  }

  lemma FreedWithout(p: Process, s: Instance, cause: TokenId, m1: Machine, token: TokenId)
    requires FrozenOn(p, s, cause) && token in s.tokens && token != cause && s.TokenAt(token).wait.OnScope?
    requires s.TokenAt(cause).scope in ChildScopes(s, token)
    requires m1.s == s.(status := Active, variables := m1.s.variables, tokens := s.tokens - {cause})
    ensures Freed(m1.s, token) == Freed(s, token).(status := Active, variables := m1.s.variables)
  {
    hide Inv, Freed, ChildScopes, Owned;
    OnlyCause(p, s, cause);
    OutOwnsNothing(p, s, {cause});
    FreedDrop(s, {cause}, token);
    FreedAlike(s.(tokens := s.tokens - {cause}), m1.s, token);
    CauseWithin(s, cause, token);
  }

  lemma CauseWithin(s: Instance, cause: TokenId, token: TokenId)
    requires cause in s.tokens && s.TokenAt(cause).scope in ChildScopes(s, token)
    ensures Freed(s, token).tokens - {cause} == Freed(s, token).tokens
  {
  }

  lemma AbandonSound(p: Process, s: Instance, cause: TokenId, m: Machine)
    requires WellFormed(p) && SidePathsOk(p) && Acting(p, s, cause, m)
    requires !StrandsAJoin(p, s, cause, s.TokenAt(cause).scope, p.ResumePoint(s.TokenAt(cause).node))
    ensures var o := Disposed(p, m, cause, p.ResumePoint(s.TokenAt(cause).node), Abandon);
            o.Ok? && Inv(p, Collateral(o.m), {})
  {
    hide Inv, WellFormed, SidePathsOk, Collateral, CompleteScope;
    var scope := s.tokens[cause].scope;
    if t :| t in s.tokens && t != cause && s.tokens[t].scope == scope {
      AbandonStays(p, s, cause, m);
      assert t in Unpark(m, {cause}).s.tokens;
    } else if scope == ROOT {
      AbandonLastOfRoot(p, s, cause, m);
    } else {
      AbandonCompletes(p, s, cause, m);
    }
  }

  lemma FailedHasCause(p: Process, s: Instance)
    requires Inv(p, Idle(s), {}) && s.status.Failed?
    ensures OneCause(s) && s.nextIncident > 0
  {
  }

  lemma CausesAre(p: Process, s: Instance)
    requires Inv(p, Idle(s), {}) && s.status.Failed?
    ensures |Causes(s)| == 1 && FrozenOn(p, s, CauseOf(s))
    ensures s.OpenIncident() == Some(s.nextIncident - 1)
  {
    hide Inv;
    FailedHasCause(p, s);
    var id :| id in s.tokens && s.tokens[id].wait.AtIncident?;
    assert Causes(s) == {id};
    assert Sorted({id})[0] in Sorted({id});
  }

  lemma RepairActs(p: Process, s: Instance, cause: TokenId, m: Machine, d: Disposition)
    requires WellFormed(p) && SidePathsOk(p) && Acting(p, s, cause, m) && !d.AbandonInstance?
    requires DispositionRefusal(p, s, cause, d).None?
    ensures var o := Disposed(p, m, cause, p.ResumePoint(s.TokenAt(cause).node), d);
            o.Ok? && Inv(p, Collateral(o.m), {})
  {
    hide Inv, WellFormed, SidePathsOk, Collateral, Catcher, StrandsAJoin, InterruptToBoundary, LeaveSingle, CompleteScopeIfEmpty;
    match d
    case Retry(patch) => RetrySound(p, s, cause, m, patch);
    case AdvancePast(patch, answer) => AdvanceSound(p, s, cause, m, patch, answer);
    case Divert(code) => DivertSound(p, s, cause, m, code);
    case Abandon => AbandonSound(p, s, cause, m);
  }

  lemma RepairSound(p: Process, s: Instance, incident: nat, d: Disposition, why: string)
    requires WellFormed(p) && SidePathsOk(p) && Resting(p, s)
    ensures Sound(p, OpenRepair(p, s, incident, d, why))
  {
    hide Inv, WellFormed, SidePathsOk, Collateral, Disposed, DispositionRefusal, Blank;
    if s.status.Failed? && RepairRefusal(p, s, incident, d, why).None? {
      CausesAre(p, s);
      var cause := CauseOf(s);
      var parked := s.tokens[cause];
      var m := Say(Idle(s), IncidentRepaired(incident, parked.node, d.Kind(),
                                             if d.Divert? then d.code else None,
                                             if d.AdvancePast? then d.answer else None, why));
      var m1 := Patched(m, d.Patch());
      var m2 := m1.(s := m1.s.(status := Active), scope := parked.scope);
      if d.AbandonInstance? {
        AbandonsInstance(p, s, cause, m2);
      } else {
        RepairActs(p, s, cause, m2, d);
      }
    } else if s.status.Failed? {
      CausesAre(p, s);
    }
  }

  lemma AbandonsInstance(p: Process, s: Instance, cause: TokenId, m: Machine)
    requires Acting(p, s, cause, m)
    ensures var o := Disposed(p, m, cause, p.ResumePoint(s.TokenAt(cause).node), AbandonInstance);
            o.Ok? && Inv(p, o.m, {}) && o.m.q == [] && !o.m.s.status.Active?
  {
    hide Inv, TokensOk, TimersOk, SubsOk, Terminate;
    ActingOwned(p, s, cause, m);
    TerminateKeeps(p, m);
  }

  // ---- a repair accepted

  lemma CausesParked(s: Instance)
    ensures |Sorted(Causes(s))| == |Causes(s)| && (Causes(s) == {} <==> Sorted(Causes(s)) == [])
    ensures forall id :: id in Sorted(Causes(s)) ==> id in s.tokens
  {
  }

  lemma RepairHasCause(p: Process, s: Instance, incident: nat, d: Disposition, why: string)
    requires RepairRefusal(p, s, incident, d, why).None?
    ensures Causes(s) != {} && CauseOf(s) in s.tokens
  {
    assert CauseOf(s) in Sorted(Causes(s));
  }

  /** A repair accepted, and about to act. */
  function Accepted(p: Process, s: Instance, cause: TokenId, incident: nat, d: Disposition, why: string): Machine {
    var m := Say(Idle(s), IncidentRepaired(incident, s.TokenAt(cause).node, d.Kind(),
                                           d.Code(), d.Answer(), why));
    var m1 := Patched(m, d.Patch());
    m1.(s := m1.s.(status := Active), scope := s.TokenAt(cause).scope)
  }

  lemma RepairAccepted(p: Process, s: Instance, incident: nat, d: Disposition, why: string)
    requires RepairRefusal(p, s, incident, d, why).None?
    ensures Sorted(Causes(s)) != [] && CauseOf(s) in s.tokens
    ensures var cause := CauseOf(s);
            var o := Disposed(p, Accepted(p, s, cause, incident, d, why), cause, p.ResumePoint(s.TokenAt(cause).node), d);
            OpenRepair(p, s, incident, d, why)
            == if o.Poisoned? then Refused(InvariantViolated) else if d.AbandonInstance? then Ended(o.m) else Opened(Collateral(o.m))
  {
    hide Disposed, Collateral, Patched;
    CausesParked(s);
    RepairHasCause(p, s, incident, d, why);
  }
}
