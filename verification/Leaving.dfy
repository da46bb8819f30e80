/** A parked token leaves with everything it holds: one release, however the
    step function spells it. */
module Leaving {
  import opened Basics
  import opened Compiled
  import opened State
  import opened Advance
  import opened Invariant
  import opened Keeping
  import opened Freezing

  /** `token` gone from the instance with its work, its arms and its scopes. */
  function Freed(s: Instance, token: TokenId): Instance {
    Reaped(s, WithChildren(s, token)).(scopes := s.scopes - ChildScopes(s, token))
  }

  function Exits(m: Machine, token: TokenId, to: Move): Machine {
    m.(s := Freed(m.s, token), q := Spared(m.q, ChildScopes(m.s, token)) + [to])
  }

  /** `to` is a place the parked token may go on to. */
  ghost predicate GoesOn(p: Process, t: Token, to: Move) {
    && to.scope == t.scope && to.node < |p.nodes| && p.ScopeOf(to.node) == p.ScopeOf(t.node)
    && Enterable(p, to.node, to.via)
    && SameMarks(p, PlaceOfMove(to), PlaceOf(p, t))
  }

  lemma ExitsKeeps(p: Process, m: Machine, token: TokenId, to: Move)
    requires Inv(p, m, {}) && m.s.status.Active? && token in m.s.tokens && token !in m.reask
    requires to.token == token && GoesOn(p, m.s.TokenAt(token), to)
    ensures Inv(p, Exits(m, token, to), {})
  {
    hide Inv;
    var gone, closed := WithChildren(m.s, token), ChildScopes(m.s, token);
    assert Owned(p, m.s) by { OwnedOf(p, m); }
    ChildrenRelease(p, m, token);
    hide SameMarks, Enterable, Owned;
    Release(p, m, {}, token, gone, closed, to);
    assert Released(m, gone, closed, to) == Exits(m, token, to);
  }

  lemma OwnedOf(p: Process, m: Machine)
    requires Inv(p, m, {})
    ensures Owned(p, m.s)
  {
  }

  lemma WithdrawIs(s: Instance, token: TokenId)
    requires s.OpenItemsOf({token}) == {}
    ensures s.(timers := s.timers - s.TimersOf({token}), subs := s.subs - s.SubsOf({token})) == Disowned(s, {token})
  {
    assert Closed(s.items, {}) == s.items;
  }

  lemma ReapTwice(s: Instance, a: set<TokenId>, token: TokenId)
    ensures Reaped(Reaped(s, a), {token}) == Reaped(s, {token} + a)
  {
    DisownTwice(s, a, {token});
    assert a + {token} == {token} + a;
    assert s.tokens - a - {token} == s.tokens - ({token} + a);
  }

  lemma TornDown(m: Machine, scope: ScopeId, closed: set<ScopeId>)
    requires closed == Subtree(m.s.scopes, scope)
    ensures var m1 := DropScope(TearDown(m, scope), scope);
            && m1.s == Reaped(m.s, m.s.TokensWithin(closed)).(scopes := m.s.scopes - closed)
            && m1.q == Spared(m.q, closed) && m1.reask == m.reask && m1.scope == m.scope
  {
    assert m.s.scopes - (closed - {scope}) - {scope} == m.s.scopes - closed;
  }

  /** A token with no open work of its own loses its arms and goes. */
  lemma LastReaped(s: Instance, within: set<TokenId>, token: TokenId, scopes: map<ScopeId, Scope>, m1: Machine)
    requires s.OpenItemsOf({token}) == {} && m1.s == Reaped(s, within).(scopes := scopes)
    ensures Unpark(WithdrawArms(m1, token), {token}).s == Reaped(s, {token} + within).(scopes := scopes)
  {
    WithdrawIs(Reaped(s, within), token);
    ReapTwice(s, within, token);
  }

  lemma WithdrawKeeps(m: Machine, token: TokenId)
    ensures var m1 := WithdrawArms(m, token);
            && m1.s.tokens == m.s.tokens && m1.q == m.q && m1.reask == m.reask && m1.scope == m.scope
  {
  }

  lemma CompletesIs(p: Process, m: Machine, scope: ScopeId)
    requires scope in m.s.scopes && m.s.ScopeAt(scope).token in m.s.tokens && |p.Outgoing(m.s.ScopeAt(scope).element)| == 1
    ensures var closed := m.s.ScopeAt(scope);
            var f := p.OnlyFlow(closed.element);
            var o := CompleteScope(p, m, scope);
            && o.Ok? && o.m.reask == m.reask
            && o.m.s == Unpark(WithdrawArms(DropScope(m, scope), closed.token), {closed.token}).s
            && o.m.q == m.q + [Move(closed.token, p.Target(f), Some(f), closed.parent)]
  {
    hide WithdrawArms;
    WithdrawKeeps(DropScope(m, scope), m.s.scopes[scope].token);
  }

  /** A scope torn down and completed: its parent token goes on. */
  lemma TornCompletes(p: Process, m: Machine, scope: ScopeId)
    requires Owned(p, m.s) && scope in m.s.scopes && |p.Outgoing(m.s.ScopeAt(scope).element)| == 1
    ensures var closed := m.s.ScopeAt(scope);
            var f := p.OnlyFlow(closed.element);
            var to := Move(closed.token, p.Target(f), Some(f), closed.parent);
            var o := CompleteScope(p, TearDown(m, scope), scope);
            o.Ok? && o.m.reask == m.reask && o.m.s == Exits(m, closed.token, to).s && o.m.q == Exits(m, closed.token, to).q
  {
    var s := m.s;
    var token := s.scopes[scope].token;
    var closed := ChildScopes(s, token);
    ChildrenRelease(p, m, token);
    assert s.tokens[token].scope !in closed && closed == Subtree(s.scopes, scope);
    hide TearDown, CompleteScope, WithdrawArms, Reaped, Subtree, Owned, Spared, Unpark;
    TornDown(m, scope, closed);
    CompletesIs(p, TearDown(m, scope), scope);
    LastReaped(s, s.TokensWithin(closed), token, s.scopes - closed, DropScope(TearDown(m, scope), scope));
  }

  lemma NobodyNested(s: Instance, c: ScopeId, scope: ScopeId)
    requires ScopesOk(s) && c in s.scopes && c != scope
    requires forall t :: t in s.tokens ==> s.TokenAt(t).scope != scope
    ensures !Within(s.scopes, c, scope)
    decreases c
  {
    var parent := s.scopes[c].parent;
    assert s.tokens[s.scopes[c].token].scope == parent;
    if parent in s.scopes && parent != scope {
      NobodyNested(s, parent, scope);
    }
  }

  lemma NothingWithin(s: Instance)
    ensures Reaped(s, {}) == s
  {
    assert Closed(s.items, s.OpenItemsOf({})) == s.items;
    assert s.tokens - {} == s.tokens && s.timers - {} == s.timers && s.subs - {} == s.subs;
  }

  lemma NestedInNone(s: Instance, scope: ScopeId)
    requires ScopesOk(s) && forall t :: t in s.tokens ==> s.TokenAt(t).scope != scope
    ensures Subtree(s.scopes, scope) == {scope}
  {
    forall c | c in s.scopes && c != scope ensures !Within(s.scopes, c, scope) {
      NobodyNested(s, c, scope);
    }
  }

  /** There is nothing to tear down in an empty scope. */
  lemma TearEmpty(m: Machine, scope: ScopeId)
    requires ScopesOk(m.s) && scope in m.s.scopes && ScopeIsEmpty(m, scope)
    ensures TearDown(m, scope) == m
  {
    hide Subtree, ScopesOk, Reaped, Spared;
    NestedInNone(m.s, scope);
    SparedAll(m.q, {scope});
    assert m.s.TokensWithin({scope}) == {};
    NothingWithin(m.s);
    assert m.s.scopes - ({scope} - {scope}) == m.s.scopes;
    assert ReapEvents(m.s, Sorted({})) == [];
  }

  // ---- interrupting

  /** Some of what the tokens in `all` hold is gone already; of `token` itself,
      every open item. */
  ghost predicate PartlyDisowned(s: Instance, s1: Instance, token: TokenId, all: set<TokenId>) {
    && s1 == s.(items := s1.items, timers := s1.timers, subs := s1.subs)
    && ItemsPartly(s.items, s1.items, token, all)
    && (forall k :: k in s1.timers ==> k in s.timers && s1.timers[k] == s.timers[k])
    && (forall k :: k in s.timers && s.timers[k].token !in all ==> k in s1.timers)
    && (forall k :: k in s1.subs ==> k in s.subs && s1.subs[k] == s.subs[k])
    && (forall k :: k in s.subs && s.subs[k].token !in all ==> k in s1.subs)
  }

  ghost predicate ItemsPartly(items: map<ItemId, Item>, items1: map<ItemId, Item>, token: TokenId, all: set<TokenId>) {
    && items1.Keys == items.Keys
    && (forall i :: i in items ==>
          || (items1[i] == items[i] && !(items[i].open && items[i].token == token))
          || (items[i].token in all && items1[i] == items[i].(open := false)))
  }

  lemma ItemsReaped(s: Instance, s1: Instance, token: TokenId, within: set<TokenId>)
    requires ItemsPartly(s.items, s1.items, token, {token} + within)
    ensures Closed(s1.items, s1.OpenItemsOf(within)) == Closed(s.items, s.OpenItemsOf({token} + within))
  {
  }

  lemma ReapPartly(s: Instance, s1: Instance, within: set<TokenId>, token: TokenId, scopes: map<ScopeId, Scope>, m1: Machine)
    requires PartlyDisowned(s, s1, token, {token} + within)
    requires m1.s == Reaped(s1.(tokens := s1.tokens - {token}), within).(scopes := scopes)
    ensures WithdrawArms(m1, token).s == Reaped(s, {token} + within).(scopes := scopes)
  {
    ItemsReaped(s, s1, token, within);
    hide ItemsPartly;
    var s' := WithdrawArms(m1, token).s;
    var r := Reaped(s, {token} + within);
    assert s'.timers == r.timers by { assert forall k :: k in s'.timers <==> k in r.timers; }
    assert s'.subs == r.subs by { assert forall k :: k in s'.subs <==> k in r.subs; }
    assert s'.tokens == r.tokens;
  }

  /** Interrupting a parked token frees it and sends it down the boundary. */
  lemma InterruptIs(p: Process, m: Machine, m1: Machine, token: TokenId, boundary: NodeIx)
    requires Owned(p, m.s) && token in m.s.tokens && |p.Outgoing(boundary)| == 1
    requires PartlyDisowned(m.s, m1.s, token, WithChildren(m.s, token)) && m1.q == m.q && m1.reask == m.reask
    ensures var f := p.OnlyFlow(boundary);
            var to := Move(token, p.Target(f), Some(f), m.s.TokenAt(token).scope);
            var o := InterruptToBoundary(p, m1, token, boundary);
            o.Ok? && o.m.reask == m.reask && o.m.s == Exits(m, token, to).s && o.m.q == Exits(m, token, to).q
  {
    var closed := ChildScopes(m.s, token);
    var within := m.s.TokensWithin(closed);
    ChildrenRelease(p, m, token);
    hide TokensOk, TimersOk, SubsOk, ItemsOk, SubsDistinct, Spared;
    var m2 := Unpark(m1, {token});
    assert m2.s.TokensWithin(closed) == within;
    if m.s.tokens[token].wait.OnScope? {
      var child := m.s.tokens[token].wait.child;
      TornDown(m2, child, closed);
      hide TearDown;
      ReapPartly(m.s, m1.s, within, token, m.s.scopes - closed, DropScope(TearDown(m2, child), child).(scope := m.s.tokens[token].scope));
    } else {
      NothingWithin(m2.s);
      assert m.s.scopes - closed == m.s.scopes;
      assert within == {};
      SparedAll(m.q, {});
      ReapPartly(m.s, m1.s, {}, token, m.s.scopes, m2.(scope := m.s.tokens[token].scope));
    }
  }

  lemma ReapEventsPush(s: Instance, front: seq<TokenId>, last: TokenId)
    ensures ReapEvents(s, front + [last]) == ReapEvents(s, front) + ReapOneEvents(s, last)
  {
    assert (front + [last])[..|front|] == front;
  }
}
