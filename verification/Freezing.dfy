/** The freeze and the arms keep the invariant. */
module Freezing {
  import opened Basics
  import opened Compiled
  import opened State
  import opened Advance
  import opened Game
  import opened Invariant
  import opened Keeping

  lemma InFlightAt(q: seq<Move>, mv: Move)
    requires mv in q && Distinct(q)
    ensures mv.token in InFlightTokens(q)
    ensures InFlightTokens(q)[mv.token] == Token(mv.node, mv.scope, Halted(InFlight(mv.via)))
  {
    var front, last := q[..|q| - 1], q[|q| - 1];
    assert q == front + [last];
    DistinctPush(front, last);
    if mv != last {
      InFlightAt(front, mv);
    }
  }

  lemma InFlightFrom(q: seq<Move>, a: TokenId)
    requires a in InFlightTokens(q)
    ensures exists mv :: mv in q && mv.token == a
  {
    if q[|q| - 1].token != a {
      InFlightFrom(q[..|q| - 1], a);
    }
  }

  /** A halted move stands where it was going. */
  lemma InFlightPlaces(p: Process, q: seq<Move>)
    ensures TokenPlaces(p, InFlightTokens(q)) == MovePlaces(q)
  {
    if q != [] {
      InFlightPlaces(p, q[..|q| - 1]);
    }
  }

  lemma HaltedPlaces(p: Process, tokens: map<TokenId, Token>)
    ensures TokenPlaces(p, HaltDecisions(tokens)) == TokenPlaces(p, tokens)
  {
  }

  lemma UnionPlaces(p: Process, a: map<TokenId, Token>, b: map<TokenId, Token>)
    ensures TokenPlaces(p, a + b) == TokenPlaces(p, a) + TokenPlaces(p, b)
  {
  }

  lemma IcedPlaces(p: Process, m: Machine, hand: Move, element: NodeIx)
    requires QueueOk(p, m.s, InHand(m, hand).q)
    requires hand.node == p.ResumePoint(element) && hand.via.None?
    ensures Everybody(p, Iced(m.s, m.q, hand.token, element, hand.scope), []) == Everybody(p, m.s, InHand(m, hand).q)
  {
    InHandPlaces(p, m, hand);
    hide QueueOk;
    InFlightPlaces(p, m.q);
    var cause := Token(element, hand.scope, AtIncident);
    var tokens := m.s.tokens[hand.token := cause];
    var halted := HaltDecisions(tokens);
    assert PlaceOf(p, cause) == PlaceOfMove(hand);
    UnionPlaces(p, halted, InFlightTokens(m.q));
    HaltedPlaces(p, tokens);
    ParkPlaces(p, m.s.tokens, MovePlaces(m.q), hand.token, cause, PlaceOfMove(hand));
    var before: Population := Everybody(p, m.s, m.q)[hand.token := PlaceOfMove(hand)];
    hide TokenPlaces, MovePlaces, HaltDecisions, InFlightTokens;
    assert before[hand.token := PlaceOfMove(hand)] == before;
    assert TokenPlaces(p, halted + InFlightTokens(m.q)) == Everybody(p, m.s, InHand(m, hand).q);
    NobodyQueued(p, Iced(m.s, m.q, hand.token, element, hand.scope));
  }

  lemma NobodyQueued(p: Process, s: Instance)
    ensures Everybody(p, s, []) == TokenPlaces(p, s.tokens)
  {
  }

  ghost predicate IcedFrom(m: Machine, hand: Move, element: NodeIx, s': Instance) {
    && (forall id :: id in m.s.tokens ==> id in s'.tokens && s'.tokens[id] == HaltDecision(m.s.tokens[id]))
    && (forall mv :: mv in m.q ==>
          mv.token in s'.tokens && s'.tokens[mv.token] == Token(mv.node, mv.scope, Halted(InFlight(mv.via))))
    && hand.token in s'.tokens && s'.tokens[hand.token] == Token(element, hand.scope, AtIncident)
    && (forall id :: id in s'.tokens ==>
          id in m.s.tokens || id == hand.token || (exists mv :: mv in m.q && mv.token == id))
  }

  lemma InFlightIs(q: seq<Move>)
    requires Distinct(q)
    ensures forall id :: id in InFlightTokens(q) ==> exists mv :: mv in q && mv.token == id
    ensures forall mv :: mv in q ==>
              mv.token in InFlightTokens(q) && InFlightTokens(q)[mv.token] == Token(mv.node, mv.scope, Halted(InFlight(mv.via)))
  {
    forall id | id in InFlightTokens(q) ensures exists mv :: mv in q && mv.token == id {
      InFlightFrom(q, id);
    }
    forall mv | mv in q
      ensures mv.token in InFlightTokens(q) && InFlightTokens(q)[mv.token] == Token(mv.node, mv.scope, Halted(InFlight(mv.via)))
    {
      InFlightAt(q, mv);
    }
  }

  lemma IcedReads(tokens: map<TokenId, Token>, flying: map<TokenId, Token>, hand: TokenId, cause: Token)
    requires hand !in tokens && hand !in flying && tokens.Keys !! flying.Keys && cause.wait.AtIncident?
    ensures var iced := HaltDecisions(tokens[hand := cause]) + flying;
            && (forall id :: id in iced <==> id in tokens || id == hand || id in flying)
            && (forall id :: id in tokens ==> iced[id] == HaltDecision(tokens[id]))
            && (forall id :: id in flying ==> iced[id] == flying[id])
            && iced[hand] == cause
  {
  }

  lemma IcedTokens(p: Process, m: Machine, hand: Move, element: NodeIx)
    requires QueueOk(p, m.s, InHand(m, hand).q)
    ensures IcedFrom(m, hand, element, Iced(m.s, m.q, hand.token, element, hand.scope))
  {
    InHandPlaces(p, m, hand);
    InFlightIs(m.q);
    var s' := Iced(m.s, m.q, hand.token, element, hand.scope);
    IcedReads(m.s.tokens, InFlightTokens(m.q), hand.token, Token(element, hand.scope, AtIncident));
    hide HaltDecisions, InFlightTokens, Distinct, PlaceOk, Enterable;
  }

  /** Halting pending decisions touches nothing anybody owns. */
  lemma HaltingRows(p: Process, s: Instance, s': Instance)
    requires Owned(p, s)
    requires forall id :: id in s.tokens ==> id in s'.tokens && s'.TokenAt(id) == HaltDecision(s.TokenAt(id))
    requires s'.timers == s.timers && s'.subs == s.subs && s'.items == s.items && s'.scopes == s.scopes
    requires s'.nextTimer == s.nextTimer && s'.nextSub == s.nextSub && s'.nextItem == s.nextItem && s'.nextScope == s.nextScope
    ensures TimersOk(p, s') && SubsOk(p, s') && SubsDistinct(s') && ItemsOk(s') && ScopesOk(s')
  {
    hide TokenOk;
  }

  lemma HaltingToken(p: Process, s: Instance, s': Instance, id: TokenId, t: Token)
    requires TokenOk(p, s, id, t)
    requires s'.timers == s.timers && s'.subs == s.subs && s'.items == s.items && s'.scopes == s.scopes
    ensures TokenOk(p, s', id, HaltDecision(t))
  {
  }

  lemma IcedToken(p: Process, m: Machine, hand: Move, element: NodeIx, s': Instance, id: TokenId)
    requires TokensOk(p, m.s) && MoveOk(p, m.s, hand) && forall mv :: mv in m.q ==> MoveOk(p, m.s, mv)
    requires element < |p.nodes| && IncidentAt(p, element) && p.ScopeOf(element) == p.ScopeOf(hand.node)
    requires s'.timers == m.s.timers && s'.subs == m.s.subs && s'.items == m.s.items && s'.scopes == m.s.scopes
    requires s'.nextToken == m.s.nextToken && IcedFrom(m, hand, element, s') && id in s'.tokens
    ensures id < s'.nextToken && TokenOk(p, s', id, s'.TokenAt(id))
  {
    if id in m.s.tokens {
      HaltingToken(p, m.s, s', id, m.s.tokens[id]);
    } else if id != hand.token {
      var mv :| mv in m.q && mv.token == id;
      assert MoveOk(p, m.s, mv);
    }
  }

  lemma IcedOwned(p: Process, m: Machine, hand: Move, element: NodeIx)
    requires Owned(p, m.s) && QueueOk(p, m.s, InHand(m, hand).q)
    requires element < |p.nodes| && IncidentAt(p, element) && p.ScopeOf(element) == p.ScopeOf(hand.node)
    ensures Owned(p, Iced(m.s, m.q, hand.token, element, hand.scope))
  {
    hide Distinct, MoveOk, TokenOk, IncidentAt, TimersOk, SubsOk, ItemsOk, ScopesOk, SubsDistinct, InFlightTokens, HaltDecisions;
    InHandPlaces(p, m, hand);
    IcedTokens(p, m, hand, element);
    var s' := Iced(m.s, m.q, hand.token, element, hand.scope);
    HaltingRows(p, m.s, s');
    hide IcedFrom;
    forall id | id in s'.tokens ensures id < s'.nextToken && TokenOk(p, s', id, s'.tokens[id]) {
      IcedToken(p, m, hand, element, s', id);
    }
  }

  lemma IcedStatusFrom(p: Process, m: Machine, hand: Move, element: NodeIx, s': Instance)
    requires IcedFrom(m, hand, element, s') && s'.status.Failed? && s'.nextIncident > 0 && s'.nextToken == m.s.nextToken
    requires forall id :: id in m.s.tokens ==> !m.s.TokenAt(id).wait.AtIncident?
    requires ReaskOk(m.s, m.q, m.reask) && hand.token !in m.reask
    ensures StatusOk(s', [], m.reask) && ReaskOk(s', [], m.reask)
  {
    assert s'.tokens[hand.token].wait.AtIncident?;
  }

  lemma IcedStatus(p: Process, m: Machine, hand: Move, element: NodeIx)
    requires QueueOk(p, m.s, InHand(m, hand).q) && m.s.status.Active?
    requires StatusOk(m.s, InHand(m, hand).q, m.reask) && ReaskOk(m.s, InHand(m, hand).q, m.reask)
    ensures var s' := Iced(m.s, m.q, hand.token, element, hand.scope);
            StatusOk(s', [], m.reask) && ReaskOk(s', [], m.reask)
  {
    ReaskInHand(m, hand, m.reask);
    IcedTokens(p, m, hand, element);
    IcedStatusFrom(p, m, hand, element, Iced(m.s, m.q, hand.token, element, hand.scope));
  }

  /** Nothing advances and nothing vanishes: everybody stands where they stood. */
  lemma IcedKeeps(p: Process, m: Machine, hand: Move, element: NodeIx)
    requires Inv(p, InHand(m, hand), {}) && m.s.status.Active?
    requires hand.node == p.ResumePoint(element) && hand.via.None?
    requires element < |p.nodes| && IncidentAt(p, element)
    ensures Inv(p, m.(s := Iced(m.s, m.q, hand.token, element, hand.scope), q := []), {})
  {
    IcedPlaces(p, m, hand, element);
    IcedOwned(p, m, hand, element);
    IcedStatus(p, m, hand, element);
  }

  // ---- freezing on a token

  /** Of a parked token: the scopes that go with it. */
  function ChildScopes(s: Instance, token: TokenId): set<ScopeId> {
    if token in s.tokens && s.tokens[token].wait.OnScope? then Subtree(s.scopes, s.tokens[token].wait.child) else {}
  }

  function WithChildren(s: Instance, token: TokenId): set<TokenId> {
    {token} + s.TokensWithin(ChildScopes(s, token))
  }

  lemma SubtreeYounger(scopes: map<ScopeId, Scope>, c: ScopeId, root: ScopeId)
    requires Within(scopes, c, root)
    ensures c >= root
    decreases c
  {
    if c != root {
      SubtreeYounger(scopes, scopes[c].parent, root);
    }
  }

  /** Everything a token waiting on a scope holds can be released with it. */
  lemma ChildrenRelease(p: Process, m: Machine, token: TokenId)
    requires Owned(p, m.s) && token in m.s.tokens
    ensures CanRelease(p, m, token, WithChildren(m.s, token), ChildScopes(m.s, token))
  {
    hide Owned, ChildScopes;
    ClosedInside(p, m.s, token);
    forall c | c in m.s.scopes ensures c in ChildScopes(m.s, token) <==> m.s.scopes[c].token in WithChildren(m.s, token) {
      ClosedWithToken(p, m.s, token, c);
    }
  }

  lemma ClosedInside(p: Process, s: Instance, token: TokenId)
    requires Owned(p, s) && token in s.tokens
    ensures ChildScopes(s, token) <= s.scopes.Keys && s.TokenAt(token).scope !in ChildScopes(s, token)
  {
    hide TimersOk, SubsOk, SubsDistinct, ItemsOk;
    assert TokenOk(p, s, token, s.tokens[token]);
    if s.tokens[token].wait.OnScope? {
      SubtreeInside(s.scopes, s.tokens[token].wait.child);
      hide Subtree;
    }
  }

  lemma SubtreeInside(scopes: map<ScopeId, Scope>, root: ScopeId)
    ensures forall c :: c in Subtree(scopes, root) ==> c >= root && (c == root || c in scopes)
  {
    forall c | c in Subtree(scopes, root) ensures c >= root {
      if c != root {
        SubtreeYounger(scopes, c, root);
      }
    }
  }

  /** A scope goes exactly when the token that waits on it does. */
  lemma ClosedWithToken(p: Process, s: Instance, token: TokenId, c: ScopeId)
    requires Owned(p, s) && token in s.tokens && c in s.scopes
    ensures c in ChildScopes(s, token) <==> s.ScopeAt(c).token in WithChildren(s, token)
  {
    hide Owned;
    WaitedFor(p, s, c);
    if s.tokens[token].wait.OnScope? {
      var child := s.tokens[token].wait.child;
      WaitedFor(p, s, child);
      assert c != child ==> (Within(s.scopes, c, child) <==> Within(s.scopes, s.scopes[c].parent, child));
    }
  }

  lemma WaitedFor(p: Process, s: Instance, c: ScopeId)
    requires Owned(p, s)
    ensures var up := s.ScopeAt(c);
            c in s.scopes ==> up.token in s.tokens && s.TokenAt(up.token) == Token(up.element, up.parent, OnScope(c)) && up.parent < c
    ensures forall t :: t in s.tokens && s.TokenAt(t).wait == OnScope(c) ==> c in s.scopes && s.ScopeAt(c).token == t
  {
    hide TimersOk, SubsOk, SubsDistinct, ItemsOk;
    forall t | t in s.tokens && s.tokens[t].wait == OnScope(c) ensures c in s.scopes && s.scopes[c].token == t {
      assert TokenOk(p, s, t, s.tokens[t]);
    }
  }

  lemma ClosedTwice(s: Instance, a: set<TokenId>, b: set<TokenId>)
    ensures Closed(Closed(s.items, s.OpenItemsOf(a)), Disowned(s, a).OpenItemsOf(b)) == Closed(s.items, s.OpenItemsOf(a + b))
  {
  }

  lemma DisownTwice(s: Instance, a: set<TokenId>, b: set<TokenId>)
    ensures Disowned(Disowned(s, a), b) == Disowned(s, a + b)
  {
    ClosedTwice(s, a, b);
    assert s.timers - s.TimersOf(a) - Disowned(s, a).TimersOf(b) == s.timers - s.TimersOf(a + b);
    assert s.subs - s.SubsOf(a) - Disowned(s, a).SubsOf(b) == s.subs - s.SubsOf(a + b);
  }

  /** A freeze takes a parked token's belongings as a release does. */
  lemma StrippedIs(p: Process, m: Machine, token: TokenId)
    requires Owned(p, m.s) && token in m.s.tokens
    ensures var closed := ChildScopes(m.s, token);
            var m1 := Stripped(m, token);
            && m1.s == Disowned(m.s, WithChildren(m.s, token)).(tokens := m.s.tokens - m.s.TokensWithin(closed), scopes := m.s.scopes - closed)
            && m1.q == Spared(m.q, closed) && m1.reask == m.reask && m1.scope == m.scope
  {
    hide TokensOk, TimersOk, SubsOk, SubsDistinct, ItemsOk, ScopesOk, Within;
    var s := m.s;
    var closed := ChildScopes(s, token);
    ChildrenRelease(p, m, token);
    if s.tokens[token].wait.OnScope? {
      var child := s.tokens[token].wait.child;
      DisownTwice(s, {token}, s.TokensWithin(closed));
      assert s.scopes - (closed - {child}) - {child} == s.scopes - closed;
    } else {
      SparedAll(m.q, {});
      assert s.TokensWithin({}) == {};
      assert s.tokens - {} == s.tokens && s.scopes - {} == s.scopes;
      assert WithChildren(s, token) == {token};
    }
  }

  /** The events said and the scope being worked in are no part of the invariant. */
  lemma InvSame(p: Process, a: Machine, b: Machine, except: set<ScopeId>)
    requires Inv(p, a, except) && a.s == b.s && a.q == b.q && a.reask == b.reask
    ensures Inv(p, b, except)
  {
    hide Owned, QueueOk, StatusOk, ReaskOk, Inhabited, Everybody, Safe;
  }

  ghost predicate FreezesAt(p: Process, at: Place, element: NodeIx) {
    && element < |p.nodes| && IncidentAt(p, element) && p.ScopeOf(element) == p.ScopeOf(at.node)
    && SameMarks(p, Place(p.ResumePoint(element), None, at.scope), at)
  }

  lemma IcedAnyway(s: Instance, gone: set<TokenId>, q: seq<Move>, token: TokenId, element: NodeIx, scope: ScopeId)
    ensures Iced(s.(tokens := s.tokens - gone), q, token, element, scope)
         == Iced(s.(tokens := s.tokens - ({token} + gone)), q, token, element, scope)
  {
    var cause := Token(element, scope, AtIncident);
    assert (s.tokens - gone)[token := cause] == (s.tokens - ({token} + gone))[token := cause];
  }

  /** A parked token freezes where its arm could not be made, or where it failed. */
  lemma FreezeParked(p: Process, m: Machine, except: set<ScopeId>, token: TokenId, element: NodeIx, code: Option<string>, detail: Option<string>)
    requires Inv(p, m, except) && m.s.status.Active?
    requires token in m.s.tokens && token !in m.reask && except <= ChildScopes(m.s, token)
    requires FreezesAt(p, PlaceOf(p, m.s.TokenAt(token)), element)
    requires p.ScopeOf(element) == p.ScopeOf(m.s.TokenAt(token).node)
    ensures Inv(p, Freeze(m, token, element, code, detail), {})
  {
    var t := m.s.tokens[token];
    var to := Move(token, p.ResumePoint(element), None, t.scope);
    var gone, closed := WithChildren(m.s, token), ChildScopes(m.s, token);
    ChildrenRelease(p, m, token);
    Release(p, m, except, token, gone, closed, to);
    var m0 := m.(s := Reaped(m.s, gone).(scopes := m.s.scopes - closed), q := Spared(m.q, closed));
    assert Released(m, gone, closed, to) == InHand(m0, to);
    IcedKeeps(p, m0, to, element);
    FreezeIs(p, m, token, element, code, detail);
    InvSame(p, m0.(s := Iced(m0.s, m0.q, token, element, t.scope), q := []), Freeze(m, token, element, code, detail), {});
  }

  lemma FreezeIs(p: Process, m: Machine, token: TokenId, element: NodeIx, code: Option<string>, detail: Option<string>)
    requires Owned(p, m.s) && token in m.s.tokens
    ensures var closed := ChildScopes(m.s, token);
            var m0 := m.(s := Reaped(m.s, WithChildren(m.s, token)).(scopes := m.s.scopes - closed), q := Spared(m.q, closed));
            var m' := Freeze(m, token, element, code, detail);
            && m'.s == Iced(m0.s, m0.q, token, element, m.s.TokenAt(token).scope)
            && m'.q == [] && m'.reask == m.reask
  {
    var s := m.s;
    var closed := ChildScopes(s, token);
    ChildrenRelease(p, m, token);
    StrippedIs(p, m, token);
    hide Stripped, ChildScopes, Owned, Iced, Disowned;
    var t := s.tokens[token];
    assert token !in s.TokensWithin(closed);
    IcedAnyway(Disowned(s, WithChildren(s, token)).(tokens := s.tokens, scopes := s.scopes - closed),
               s.TokensWithin(closed), Spared(m.q, closed), token, element, t.scope);
  }

  /** The token in hand freezes before it parked: it holds nothing yet. */
  lemma FreezeHand(p: Process, m: Machine, mv: Move, element: NodeIx, code: Option<string>, detail: Option<string>)
    requires Inv(p, InHand(m, mv), {}) && m.s.status.Active? && m.scope == mv.scope
    requires FreezesAt(p, PlaceOfMove(mv), element)
    requires p.ScopeOf(element) == p.ScopeOf(mv.node)
    ensures Inv(p, Freeze(m, mv.token, element, code, detail), {})
  {
    var to := Move(mv.token, p.ResumePoint(element), None, mv.scope);
    Onward(p, m, mv, to);
    IcedKeeps(p, m, to, element);
    InHandPlaces(p, m, mv);
    StrippedNothing(p, m, mv.token);
    InvSame(p, m.(s := Iced(m.s, m.q, mv.token, element, mv.scope), q := []), Freeze(m, mv.token, element, code, detail), {});
  }

  lemma StrippedNothing(p: Process, m: Machine, token: TokenId)
    requires Owned(p, m.s) && token !in m.s.tokens
    ensures var m1 := Stripped(m, token); m1.s == m.s && m1.q == m.q && m1.reask == m.reask && m1.scope == m.scope
  {
    assert m.s.TimersOf({token}) == {};
    assert m.s.SubsOf({token}) == {};
    assert m.s.OpenItemsOf({token}) == {};
    assert m.s.timers - {} == m.s.timers && m.s.subs - {} == m.s.subs;
    assert Closed(m.s.items, {}) == m.s.items;
    hide TokensOk, ScopesOk, SubsDistinct;
  }
}
