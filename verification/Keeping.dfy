/** How the building blocks of the advancer keep the invariant. */
module Keeping {
  import opened Basics
  import opened Compiled
  import opened State
  import opened Advance
  import opened Game
  import opened Invariant

  // ---- places of the queue

  lemma DistinctPush(q: seq<Move>, mv: Move)
    ensures Distinct(q + [mv]) <==> Distinct(q) && forall other :: other in q ==> other.token != mv.token
  {
    var all := q + [mv];
    assert all[|q|] == mv;
    assert forall i :: 0 <= i < |q| ==> all[i] == q[i];
    if Distinct(all) {
      forall i, j | 0 <= i < j < |q| ensures q[i].token != q[j].token {
        assert all[i] == q[i] && all[j] == q[j];
      }
    }
  }

  lemma MovePlacesAt(q: seq<Move>, mv: Move)
    requires mv in q && Distinct(q)
    ensures mv.token in MovePlaces(q) && MovePlaces(q)[mv.token] == PlaceOfMove(mv)
  {
    var front, last := q[..|q| - 1], q[|q| - 1];
    assert q == front + [last];
    DistinctPush(front, last);
    if mv != last {
      MovePlacesAt(front, mv);
    }
  }

  lemma MovePlacesFrom(q: seq<Move>, a: TokenId)
    requires a in MovePlaces(q)
    ensures exists mv :: mv in q && mv.token == a && MovePlaces(q)[a] == PlaceOfMove(mv)
  {
    var last := q[|q| - 1];
    if last.token != a {
      MovePlacesFrom(q[..|q| - 1], a);
    }
  }

  lemma MovePlacesPush(q: seq<Move>, mv: Move)
    ensures MovePlaces(q + [mv]) == MovePlaces(q)[mv.token := PlaceOfMove(mv)]
  {
    assert (q + [mv])[..|q|] == q;
  }

  // ---- ownership

  ghost predicate Reapable(s: Instance, gone: set<TokenId>, closed: set<ScopeId>) {
    && gone <= s.tokens.Keys && closed <= s.scopes.Keys
    && (forall c :: c in s.scopes ==> (c in closed <==> s.scopes[c].token in gone))
    && (forall t :: t in s.tokens && t !in gone ==> s.tokens[t].scope !in closed)
  }

  lemma ReapTokens(p: Process, s: Instance, gone: set<TokenId>, closed: set<ScopeId>)
    requires TokensOk(p, s) && ItemsOk(s) && Reapable(s, gone, closed)
    ensures TokensOk(p, Reaped(s, gone).(scopes := s.scopes - closed))
  {
    var s' := Reaped(s, gone).(scopes := s.scopes - closed);
    forall id | id in s'.tokens ensures TokenOk(p, s', id, s'.tokens[id]) {
      assert TokenOk(p, s, id, s.tokens[id]);
    }
  }

  /** Tokens go, with their work and arms, and so do the scopes they wait on. */
  lemma ReapOwned(p: Process, s: Instance, gone: set<TokenId>, closed: set<ScopeId>)
    requires Owned(p, s) && Reapable(s, gone, closed)
    ensures Owned(p, Reaped(s, gone).(scopes := s.scopes - closed))
  {
    ReapTokens(p, s, gone, closed);
  }

  // ---- the queue

  lemma SparedIs(q: seq<Move>, doomed: set<ScopeId>)
    ensures forall mv :: mv in Spared(q, doomed) <==> mv in q && mv.scope !in doomed
  {
    if q != [] {
      SparedIs(q[..|q| - 1], doomed);
      assert q == q[..|q| - 1] + [q[|q| - 1]];
    }
  }

  lemma SparedLast(moves: Population, last: Move, doomed: set<ScopeId>)
    requires last.token !in moves
    ensures Outside(moves[last.token := PlaceOfMove(last)], doomed)
         == if last.scope in doomed then Outside(moves, doomed) else Outside(moves, doomed)[last.token := PlaceOfMove(last)]
  {
  }

  /** What is spared stands as it stood, each token once. */
  lemma SparedPlaces(q: seq<Move>, doomed: set<ScopeId>)
    requires Distinct(q)
    ensures MovePlaces(Spared(q, doomed)) == Outside(MovePlaces(q), doomed)
    ensures Distinct(Spared(q, doomed))
  {
    if q != [] {
      var front, last := q[..|q| - 1], q[|q| - 1];
      assert q == front + [last];
      DistinctPush(front, last);
      SparedPlaces(front, doomed);
      SparedIs(front, doomed);
      if last.token in MovePlaces(front) {
        MovePlacesFrom(front, last.token);
      }
      DistinctPush(Spared(front, doomed), last);
      MovePlacesPush(Spared(front, doomed), last);
      SparedLast(MovePlaces(front), last, doomed);
      hide Distinct, Outside, PlaceOfMove;
    }
  }

  lemma SparedPush(q: seq<Move>, mv: Move, doomed: set<ScopeId>)
    ensures Spared(q + [mv], doomed) == if mv.scope in doomed then Spared(q, doomed) else Spared(q, doomed) + [mv]
  {
    assert (q + [mv])[..|q|] == q;
  }

  lemma SparedAll(q: seq<Move>, doomed: set<ScopeId>)
    requires forall i :: 0 <= i < |q| ==> q[i].scope !in doomed
    ensures Spared(q, doomed) == q
  {
    if q != [] {
      SparedAll(q[..|q| - 1], doomed);
      assert q == q[..|q| - 1] + [q[|q| - 1]];
    }
  }

  // ---- a parked token leaves, and everything it was waiting on goes

  /** Tokens `gone` and scopes `closed` go; of the tokens only `token` survives,
      as the move `to`. */
  function Released(m: Machine, gone: set<TokenId>, closed: set<ScopeId>, to: Move): Machine {
    m.(s := Reaped(m.s, gone).(scopes := m.s.scopes - closed),
       q := Spared(m.q, closed) + [to])
  }

  ghost predicate CanRelease(p: Process, m: Machine, token: TokenId, gone: set<TokenId>, closed: set<ScopeId>) {
    && token in m.s.tokens && closed <= m.s.scopes.Keys
    && gone == {token} + m.s.TokensWithin(closed)
    && m.s.tokens[token].scope !in closed
    && (forall c :: c in m.s.scopes ==> (c in closed <==> m.s.scopes[c].token in gone))
  }

  ghost predicate SameMarks(p: Process, a: Place, b: Place) {
    forall c :: Conserving(p, c) ==> (Marked(c, a) <==> Marked(c, b))
  }

  lemma PlacesWithout(p: Process, tokens: map<TokenId, Token>, moves: Population, token: TokenId, gone: set<TokenId>, closed: set<ScopeId>)
    requires token in tokens && tokens[token].scope !in closed && tokens.Keys !! moves.Keys
    requires gone == {token} + set t | t in tokens && tokens[t].scope in closed
    ensures TokenPlaces(p, tokens - gone) + Outside(moves, closed) == Outside(TokenPlaces(p, tokens) + moves, closed) - {token}
  {
    var a := TokenPlaces(p, tokens - gone) + Outside(moves, closed);
    var b := Outside(TokenPlaces(p, tokens) + moves, closed) - {token};
    assert TokenPlaces(p, tokens - gone) == TokenPlaces(p, tokens) - gone;
    assert gone == {token} + set t | t in tokens && TokenPlaces(p, tokens)[t].scope in closed;
    PopulationWithout(TokenPlaces(p, tokens), moves, token, gone, closed);
  }

  lemma PopulationWithout(tokens: Population, moves: Population, token: TokenId, gone: set<TokenId>, closed: set<ScopeId>)
    requires token in tokens && tokens[token].scope !in closed && tokens.Keys !! moves.Keys
    requires gone == {token} + set t | t in tokens && tokens[t].scope in closed
    ensures (tokens - gone) + Outside(moves, closed) == Outside(tokens + moves, closed) - {token}
  {
    var a := (tokens - gone) + Outside(moves, closed);
    var b := Outside(tokens + moves, closed) - {token};
    assert forall t :: t in a <==> t in b;
    assert forall t :: t in a ==> a[t] == b[t];
  }

  lemma QueuePlacesApart(p: Process, s: Instance, q: seq<Move>)
    requires QueueOk(p, s, q)
    ensures s.tokens.Keys !! MovePlaces(q).Keys
  {
    forall a | a in MovePlaces(q) ensures a !in s.tokens {
      MovePlacesFrom(q, a);
    }
  }

  lemma PutBack(kept: Population, moves: Population, all: Population, token: TokenId, at: Place)
    requires kept + moves == all - {token}
    ensures kept + moves[token := at] == all[token := at]
  {
    var a := kept + moves[token := at];
    assert forall t :: t != token ==> (t in a <==> t in all - {token});
    assert forall t :: t in a && t != token ==> a[t] == (all - {token})[t];
  }

  lemma ReleasedPlaces(p: Process, m: Machine, token: TokenId, gone: set<TokenId>, closed: set<ScopeId>, to: Move)
    requires QueueOk(p, m.s, m.q) && CanRelease(p, m, token, gone, closed)
    requires to.token == token
    ensures var m' := Released(m, gone, closed, to);
            Everybody(p, m'.s, m'.q) == Outside(Everybody(p, m.s, m.q), closed)[token := PlaceOfMove(to)]
  {
    SparedPlaces(m.q, closed);
    MovePlacesPush(Spared(m.q, closed), to);
    QueuePlacesApart(p, m.s, m.q);
    PlacesWithout(p, m.s.tokens, MovePlaces(m.q), token, gone, closed);
    PutBack(TokenPlaces(p, m.s.tokens - gone), Outside(MovePlaces(m.q), closed),
            Outside(Everybody(p, m.s, m.q), closed), token, PlaceOfMove(to));
  }

  lemma Release(p: Process, m: Machine, except: set<ScopeId>, token: TokenId, gone: set<TokenId>, closed: set<ScopeId>, to: Move)
    requires Inv(p, m, except) && m.s.status.Active? && except <= closed
    requires CanRelease(p, m, token, gone, closed)
    requires to.token == token && to.scope == m.s.TokenAt(token).scope
    requires to.node < |p.nodes| && p.ScopeOf(to.node) == p.ScopeOf(m.s.TokenAt(token).node)
    requires Enterable(p, to.node, to.via)
    requires SameMarks(p, PlaceOfMove(to), PlaceOf(p, m.s.TokenAt(token)))
    requires token !in m.reask
    ensures Inv(p, Released(m, gone, closed, to), {})
  {
    var pop := Everybody(p, m.s, m.q);
    var m' := Released(m, gone, closed, to);
    ReapOwned(p, m.s, gone, closed);
    SparedPlaces(m.q, closed);
    SparedIs(m.q, closed);
    ReleasedPlaces(p, m, token, gone, closed, to);
    Clear(p, pop, closed);
    if token in MovePlaces(m.q) {
      MovePlacesFrom(m.q, token);
    }
    MoveOn(p, Outside(pop, closed), token, PlaceOfMove(to));
    assert TokenOk(p, m.s, token, m.s.tokens[token]);
    ReleasedQueue(p, m, token, gone, closed, to);
    ReleasedInhabited(p, m, except, token, gone, closed, to);
  }

  lemma ReleasedMove(p: Process, m: Machine, token: TokenId, gone: set<TokenId>, closed: set<ScopeId>, to: Move, mv: Move)
    requires CanRelease(p, m, token, gone, closed)
    requires to.token == token && to.scope == m.s.TokenAt(token).scope
    requires PlaceOk(p, m.s, to.node, to.scope) && Enterable(p, to.node, to.via) && token < m.s.nextToken
    requires mv == to || (MoveOk(p, m.s, mv) && mv.scope !in closed)
    ensures MoveOk(p, Released(m, gone, closed, to).s, mv)
  {
    hide Enterable;
  }

  lemma ReleasedQueue(p: Process, m: Machine, token: TokenId, gone: set<TokenId>, closed: set<ScopeId>, to: Move)
    requires QueueOk(p, m.s, m.q) && ReaskOk(m.s, m.q, m.reask)
    requires CanRelease(p, m, token, gone, closed)
    requires to.token == token && to.scope == m.s.TokenAt(token).scope
    requires PlaceOk(p, m.s, to.node, to.scope) && Enterable(p, to.node, to.via) && token < m.s.nextToken
    requires token !in m.reask
    ensures var m' := Released(m, gone, closed, to);
            QueueOk(p, m'.s, m'.q) && ReaskOk(m'.s, m'.q, m'.reask)
  {
    var m' := Released(m, gone, closed, to);
    SparedPlaces(m.q, closed);
    SparedIs(m.q, closed);
    DistinctPush(Spared(m.q, closed), to);
    forall mv | mv in m'.q
      ensures MoveOk(p, m'.s, mv) && mv.token !in m.reask
    {
      assert mv in Spared(m.q, closed) || mv == to;
      ReleasedMove(p, m, token, gone, closed, to, mv);
    }
    forall mv | mv in Spared(m.q, closed) ensures mv.token != token {
      assert MoveOk(p, m.s, mv);
    }
    hide Distinct, MoveOk;
  }

  lemma ReleasedInhabited(p: Process, m: Machine, except: set<ScopeId>, token: TokenId, gone: set<TokenId>, closed: set<ScopeId>, to: Move)
    requires QueueOk(p, m.s, m.q) && Inhabited(m.s, Everybody(p, m.s, m.q), except) && except <= closed
    requires CanRelease(p, m, token, gone, closed)
    requires to.token == token && to.scope == m.s.TokenAt(token).scope
    ensures var m' := Released(m, gone, closed, to); Inhabited(m'.s, Everybody(p, m'.s, m'.q), {})
  {
    var pop := Everybody(p, m.s, m.q);
    var m' := Released(m, gone, closed, to);
    var pop' := Everybody(p, m'.s, m'.q);
    ReleasedPlaces(p, m, token, gone, closed, to);
    if token in MovePlaces(m.q) {
      MovePlacesFrom(m.q, token);
    }
    forall c | c in m'.s.scopes ensures LivesIn(pop', c) {
      var a :| a in pop && pop[a].scope == c;
      assert a in pop' && pop'[a].scope == c;
    }
  }

  // ---- who is where after one token moves

  lemma Lives(pop: Population, a: TokenId, at: Place)
    requires a in pop ==> pop[a].scope == at.scope
    ensures forall c :: LivesIn(pop[a := at], c) <==> LivesIn(pop, c) || c == at.scope
  {
    var after := pop[a := at];
    forall c ensures LivesIn(after, c) <==> LivesIn(pop, c) || c == at.scope {
      if LivesIn(pop, c) {
        var b :| b in pop && pop[b].scope == c;
        assert b in after && after[b].scope == c;
      }
      if c == at.scope {
        assert a in after && after[a].scope == c;
      }
    }
  }

  lemma Moved(p: Process, all: Population, a: TokenId, to: Place)
    requires Safe(p, all) && a in all && to.scope == all[a].scope && SameMarks(p, to, all[a])
    ensures Safe(p, all[a := to]) && forall c :: LivesIn(all[a := to], c) <==> LivesIn(all, c)
  {
    MoveOn(p, all, a, to);
    Lives(all, a, to);
    assert LivesIn(all, to.scope);
  }

  // ---- the move in hand

  lemma InHandPlaces(p: Process, m: Machine, mv: Move)
    requires QueueOk(p, m.s, InHand(m, mv).q)
    ensures var all := Everybody(p, m.s, InHand(m, mv).q);
            all == Everybody(p, m.s, m.q)[mv.token := PlaceOfMove(mv)] && mv.token !in Everybody(p, m.s, m.q)
    ensures QueueOk(p, m.s, m.q) && MoveOk(p, m.s, mv)
    ensures forall other :: other in m.q ==> other.token != mv.token
  {
    MovePlacesPush(m.q, mv);
    DistinctPush(m.q, mv);
    hide Distinct, PlaceOk, Enterable;
    assert mv in InHand(m, mv).q;
    if mv.token in MovePlaces(m.q) {
      MovePlacesFrom(m.q, mv.token);
    }
  }

  /** A move that fits is taken in hand. */
  lemma HandFits(p: Process, m: Machine, mv: Move)
    requires QueueOk(p, m.s, m.q) && MoveOk(p, m.s, mv)
    requires forall other :: other in m.q ==> other.token != mv.token
    ensures QueueOk(p, m.s, InHand(m, mv).q)
  {
    DistinctPush(m.q, mv);
  }

  lemma ReaskInHand(m: Machine, mv: Move, reask: seq<TokenId>)
    ensures ReaskOk(m.s, InHand(m, mv).q, reask) <==> ReaskOk(m.s, m.q, reask) && mv.token !in reask
  {
    assert mv in InHand(m, mv).q;
  }

  lemma OnwardPlaces(p: Process, m: Machine, mv: Move, to: Move)
    requires QueueOk(p, m.s, InHand(m, mv).q) && MoveOk(p, m.s, to) && to.token == mv.token
    ensures QueueOk(p, m.s, InHand(m, to).q)
    ensures Everybody(p, m.s, InHand(m, to).q) == Everybody(p, m.s, InHand(m, mv).q)[mv.token := PlaceOfMove(to)]
    ensures Everybody(p, m.s, InHand(m, mv).q)[mv.token] == PlaceOfMove(mv)
  {
    InHandPlaces(p, m, mv);
    HandFits(p, m, to);
    InHandPlaces(p, m, to);
  }

  /** The token in hand goes on to another place of its scope. */
  lemma Onward(p: Process, m: Machine, mv: Move, to: Move)
    requires Inv(p, InHand(m, mv), {}) && m.s.status.Active?
    requires to.token == mv.token && to.scope == mv.scope
    requires to.node < |p.nodes| && p.ScopeOf(to.node) == p.ScopeOf(mv.node)
    requires Enterable(p, to.node, to.via)
    requires SameMarks(p, PlaceOfMove(to), PlaceOfMove(mv))
    ensures Inv(p, InHand(m, to), {})
  {
    assert MoveOk(p, m.s, to) by {
      InHandPlaces(p, m, mv);
    }
    OnwardPlaces(p, m, mv, to);
    assert ReaskOk(m.s, InHand(m, to).q, m.reask) by {
      ReaskInHand(m, mv, m.reask);
      ReaskInHand(m, to, m.reask);
    }
    var all := Everybody(p, m.s, InHand(m, mv).q);
    Moved(p, all, mv.token, PlaceOfMove(to));
  }

  lemma ParkPlaces(p: Process, tokens: map<TokenId, Token>, moves: Population, k: TokenId, t: Token, at: Place)
    requires k !in tokens && k !in moves
    ensures TokenPlaces(p, tokens[k := t]) + moves == (TokenPlaces(p, tokens) + moves)[k := at][k := PlaceOf(p, t)]
  {
    var a := TokenPlaces(p, tokens[k := t]) + moves;
    var b := TokenPlaces(p, tokens) + moves;
    assert a[k] == PlaceOf(p, t);
    assert forall id :: id != k ==> (id in a <==> id in b);
    assert forall id :: id in a && id != k ==> a[id] == b[id];
  }

  lemma ParkQueue(p: Process, m: Machine, mv: Move, s1: Instance, t: Token)
    requires QueueOk(p, m.s, InHand(m, mv).q) && ReaskOk(m.s, InHand(m, mv).q, m.reask)
    requires s1.tokens == m.s.tokens[mv.token := t] && s1.nextToken == m.s.nextToken
    requires forall c :: c in m.s.scopes ==> c in s1.scopes && s1.ScopeAt(c) == m.s.ScopeAt(c)
    requires ROOT !in s1.scopes
    ensures QueueOk(p, s1, m.q) && ReaskOk(s1, m.q, m.reask) && mv.token !in m.reask
  {
    InHandPlaces(p, m, mv);
    ReaskInHand(m, mv, m.reask);
  }

  /** The token in hand parks as `t`, in a state that accounts for it. */
  lemma ParkHand(p: Process, m: Machine, mv: Move, s1: Instance, t: Token)
    requires Inv(p, InHand(m, mv), {}) && m.s.status.Active?
    requires s1.tokens == m.s.tokens[mv.token := t] && Owned(p, s1)
    requires s1.status == m.s.status && s1.nextToken == m.s.nextToken
    requires forall c :: c in m.s.scopes ==> c in s1.scopes && s1.ScopeAt(c) == m.s.ScopeAt(c)
    requires t.scope == mv.scope && !t.wait.AtIncident? && !t.wait.Halted?
    requires SameMarks(p, PlaceOf(p, t), PlaceOfMove(mv))
    ensures Inv(p, m.(s := s1), s1.scopes.Keys - m.s.scopes.Keys)
  {
    hide TokensOk, TimersOk, SubsOk, SubsDistinct, ItemsOk, QueueOk, ReaskOk, Safe, Conserving, Marked, TokenPlaces, MovePlaces;
    ParkQueue(p, m, mv, s1, t);
    InHandPlaces(p, m, mv);
    var all := Everybody(p, m.s, InHand(m, mv).q);
    QueuePlacesApart(p, m.s, InHand(m, mv).q);
    MovePlacesPush(m.q, mv);
    ParkPlaces(p, m.s.tokens, MovePlaces(m.q), mv.token, t, PlaceOfMove(mv));
    Moved(p, all, mv.token, PlaceOf(p, t));
  }

  /** Rows are only added. */
  ghost predicate Grown(s: Instance, s1: Instance) {
    && s1.nextItem >= s.nextItem && s1.nextTimer >= s.nextTimer && s1.nextSub >= s.nextSub && s1.nextScope >= s.nextScope
    && (forall i :: i in s.items ==> i in s1.items && s1.items[i] == s.items[i])
    && (forall k :: k in s.timers ==> k in s1.timers && s1.timers[k] == s.timers[k])
    && (forall k :: k in s.subs ==> k in s1.subs && s1.subs[k] == s.subs[k])
    && (forall c :: c in s.scopes ==> c in s1.scopes && s1.scopes[c] == s.scopes[c])
    && ROOT !in s1.scopes
  }

  lemma TokenStays(p: Process, s: Instance, s1: Instance, id: TokenId, t: Token)
    requires TokenOk(p, s, id, t) && Grown(s, s1)
    ensures TokenOk(p, s1, id, t)
  {
  }

  /** Only rows change: nobody moves. */
  lemma RowsChange(p: Process, m: Machine, except: set<ScopeId>, s1: Instance)
    requires Inv(p, m, except) && Owned(p, s1)
    requires s1.tokens == m.s.tokens && s1.scopes == m.s.scopes && s1.status == m.s.status
    requires s1.nextToken >= m.s.nextToken && s1.nextIncident == m.s.nextIncident
    ensures Inv(p, m.(s := s1), except)
  {
  }

  lemma FreshOwned(p: Process, s: Instance, next: nat)
    requires Owned(p, s) && next >= s.nextToken
    ensures Owned(p, s.(nextToken := next))
  {
    var s1 := s.(nextToken := next);
    forall id | id in s.tokens ensures TokenOk(p, s1, id, s.tokens[id]) {
      assert TokenOk(p, s, id, s.tokens[id]);
    }
    hide TokenOk;
  }

  lemma FreshKeeps(p: Process, m: Machine, except: set<ScopeId>, next: nat)
    requires Inv(p, m, except) && next >= m.s.nextToken
    ensures Inv(p, m.(s := m.s.(nextToken := next)), except)
  {
    FreshOwned(p, m.s, next);
    hide Owned;
    RowsChange(p, m, except, m.s.(nextToken := next));
  }

  /** The token in hand is consumed where all matched markings agree, and its
      scope is the root or keeps somebody. */
  lemma HandConsumed(p: Process, m: Machine, mv: Move)
    requires Inv(p, InHand(m, mv), {}) && m.s.status.Active?
    requires mv.scope == ROOT || LivesIn(Everybody(p, m.s, m.q), mv.scope)
    requires forall c, d :: Conserving(p, c) && Conserving(p, d) && Matched(p, c, d) ==>
               (Marked(c, PlaceOfMove(mv)) <==> Marked(d, PlaceOfMove(mv)))
    ensures Inv(p, m, {})
  {
    hide TokensOk, TimersOk, SubsOk, SubsDistinct, ItemsOk, QueueOk, ReaskOk, Safe, Everybody, Conserving, Matched;
    InHandPlaces(p, m, mv);
    ReaskInHand(m, mv, m.reask);
    var all := Everybody(p, m.s, InHand(m, mv).q);
    var pop := Everybody(p, m.s, m.q);
    Consume(p, all, mv.token);
    assert pop == all - {mv.token};
    forall c | c in m.s.scopes ensures LivesIn(pop, c) {
      if c != mv.scope {
        var a :| a in all && all[a].scope == c;
        assert a in pop && pop[a] == all[a];
      }
    }
  }

  /** The first token of a scope just opened. */
  lemma FirstInside(p: Process, m: Machine, child: ScopeId, start: NodeIx)
    requires Inv(p, m, {child}) && m.s.status.Active?
    requires child in m.s.scopes && !LivesIn(Everybody(p, m.s, m.q), child)
    requires PlaceOk(p, m.s, start, child) && p.KindOf(start).Start? && Enterable(p, start, None)
    ensures Inv(p, InHand(FreshToken(m), Move(m.s.nextToken, start, None, child)), {})
  {
    hide TokenOk, TimersOk, SubsOk, SubsDistinct, ItemsOk, Enterable, Distinct, TokenPlaces, MovePlaces, Safe;
    var mv := Move(m.s.nextToken, start, None, child);
    var m1 := FreshToken(m);
    var pop := Everybody(p, m.s, m.q);
    FreshKeeps(p, m, {child}, m.s.nextToken + 1);
    HandFits(p, m1, mv);
    InHandPlaces(p, m1, mv);
    ReaskInHand(m1, mv, m.reask);
    var all := Everybody(p, m1.s, InHand(m1, mv).q);
    OpenUp(p, pop, mv.token, PlaceOfMove(mv));
    Lives(pop, mv.token, PlaceOfMove(mv));
  }

  /** A side token: fresh, and marked by nothing. */
  lemma SideToken(p: Process, m: Machine, to: Move)
    requires Inv(p, m, {}) && m.s.status.Active?
    requires to.token == m.s.nextToken
    requires PlaceOk(p, m.s, to.node, to.scope) && Enterable(p, to.node, to.via)
    requires forall c :: Conserving(p, c) ==> !Marked(c, PlaceOfMove(to))
    ensures Inv(p, InHand(FreshToken(m), to), {})
  {
    hide TokenOk, TimersOk, SubsOk, SubsDistinct, ItemsOk, Enterable, Distinct, TokenPlaces, MovePlaces, Safe;
    var m1 := FreshToken(m);
    var pop := Everybody(p, m.s, m.q);
    FreshKeeps(p, m, {}, m.s.nextToken + 1);
    HandFits(p, m1, to);
    InHandPlaces(p, m1, to);
    ReaskInHand(m1, to, m.reask);
    var all := Everybody(p, m1.s, InHand(m1, to).q);
    JoinIn(p, pop, to.token, PlaceOfMove(to));
    Lives(pop, to.token, PlaceOfMove(to));
  }
}
