/** Every command keeps the invariant, and none is ever the internal error. */
module Stepping {
  import opened Basics
  import opened Json
  import opened Compiled
  import opened State
  import opened Advance
  import opened Step
  import opened Game
  import opened Invariant
  import opened Keeping
  import opened Freezing
  import opened Arming
  import opened Entering
  import opened Leaving

  /** What an opening may be: a refusal that is not the internal error, moves to
      run down, or an end. */
  ghost predicate Sound(p: Process, o: Opening) {
    match o
    case Refused(e) => !e.InvariantViolated?
    case Opened(m) => Inv(p, m, {})
    case Ended(m) => Inv(p, m, {}) && m.q == [] && !m.s.status.Active?
  }

  // ---- variables are no part of the invariant

  lemma AlikeOwned(p: Process, s: Instance, s1: Instance)
    requires Owned(p, s) && s1 == s.(variables := s1.variables, status := s1.status)
    ensures Owned(p, s1)
  {
    GrownTokens(p, s, s1);
    hide TokensOk, TokenOk, TimerOwned, SubOwned;
  }

  lemma Alike(p: Process, a: Machine, b: Machine)
    requires Inv(p, a, {}) && b.s == a.s.(variables := b.s.variables) && b.q == a.q && b.reask == a.reask
    ensures Inv(p, b, {})
  {
    hide Owned, Safe, LivesIn, TokenPlaces, MovePlaces, Enterable;
    AlikeOwned(p, a.s, b.s);
  }

  // ---- a parked token leaves

  /** `r` is `s` with the parked token gone on to `to`. */
  ghost predicate GoneOn(s: Instance, token: TokenId, to: Move, r: Machine) {
    r.s == Freed(s, token).(variables := r.s.variables) && r.q == [to] && r.reask == []
  }

  lemma GoneOnKeeps(p: Process, s: Instance, token: TokenId, to: Move, r: Machine)
    requires Inv(p, Idle(s), {}) && s.status.Active? && token in s.tokens
    requires to.token == token && GoesOn(p, s.TokenAt(token), to) && GoneOn(s, token, to, r)
    ensures Inv(p, r, {})
  {
    hide Inv, GoesOn, Freed;
    ExitsKeeps(p, Idle(s), token, to);
    Alike(p, Exits(Idle(s), token, to), r);
  }

  lemma FreedSimply(s: Instance, s1: Instance, token: TokenId, m1: Machine)
    requires token in s.tokens && !s.TokenAt(token).wait.OnScope?
    requires PartlyDisowned(s, s1, token, {token}) && m1.s == s1.(variables := m1.s.variables)
    ensures var m2 := WithdrawArms(Unpark(m1, {token}), token); m2.s == Freed(s, token).(variables := m1.s.variables)
    ensures var m2 := Unpark(WithdrawArms(m1, token), {token}); m2.s == Freed(s, token).(variables := m1.s.variables)
  {
    var s2 := s1.(tokens := s1.tokens - {token});
    NothingWithin(s2);
    assert WithChildren(s, token) == {token} && s.scopes - {} == s.scopes;
    assert {token} + {} == {token};
    ReapPartly(s, s1, {}, token, s.scopes, m1.(s := s2));
  }

  /** A node left by its one flow. */
  lemma LeavesBy(p: Process, t: Token, token: TokenId, n: NodeIx)
    requires WellFormed(p) && n < |p.nodes| && !p.KindOf(n).EventBasedGateway? && !p.KindOf(n).ParallelGateway?
    requires |p.Outgoing(n)| == 1 && p.ScopeOf(n) == p.ScopeOf(t.node)
    requires SameMarks(p, Place(n, None, t.scope), PlaceOf(p, t))
    ensures var f := p.OnlyFlow(n); GoesOn(p, t, Move(token, p.Target(f), Some(f), t.scope))
  {
    var f := p.Outgoing(n)[0];
    assert f in p.Outgoing(n);
    OutEnterable(p, n, f);
    PassesMarks(p, Place(n, None, t.scope), f);
  }

  lemma WorkGoesOn(p: Process, t: Token, token: TokenId)
    requires WellFormed(p) && t.node < |p.nodes|
    requires p.KindOf(t.node).Task? || p.KindOf(t.node).BusinessRule? || p.IsCatch(t.node)
    requires PlaceOf(p, t) == Place(t.node, None, t.scope)
    ensures |p.Outgoing(t.node)| == 1
    ensures var f := p.OnlyFlow(t.node); GoesOn(p, t, Move(token, p.Target(f), Some(f), t.scope))
  {
    assert ShapeOk(p, t.node);
    LeavesBy(p, t, token, t.node);
  }

  lemma TokenIn(p: Process, s: Instance, token: TokenId)
    requires Inv(p, Idle(s), {}) && token in s.tokens
    ensures TokenOk(p, s, token, s.TokenAt(token)) && s.TokenAt(token).node < |p.nodes|
  {
  }

  // ---- completing work

  lemma ItemOwner(p: Process, s: Instance, id: ItemId)
    requires Inv(p, Idle(s), {}) && id in s.items && s.ItemAt(id).open
    ensures var token := s.ItemAt(id).token;
            && token in s.tokens && s.TokenAt(token).wait == OnItem(id)
            && s.TokenAt(token).node == s.ItemAt(id).element && p.KindOf(s.ItemAt(id).element).Task?
            && s.ItemAt(id).element < |p.nodes|
            && s.OpenItemsOf({token}) == {id}
  {
    assert TokenOk(p, s, s.items[id].token, s.tokens[s.items[id].token]);
  }

  lemma ItemDisowned(s: Instance, id: ItemId, token: TokenId)
    requires s.OpenItemsOf({token}) == {id}
    ensures PartlyDisowned(s, CloseItem(s, id), token, {token})
  {
  }

  lemma WithdrawSame(a: Machine, b: Machine, token: TokenId)
    requires a.s == b.s
    ensures WithdrawArms(a, token).s == WithdrawArms(b, token).s
    ensures WithdrawArms(b, token) == b.(s := WithdrawArms(b, token).s, ev := WithdrawArms(b, token).ev)
  {
  }

  /** The token of a completed item goes on with nothing left behind. */
  lemma CompleteWorkItemIs(p: Process, s: Instance, id: ItemId, patch: Value)
    requires s.status.Active? && id in s.items && s.ItemAt(id).open && s.ItemAt(id).token in s.tokens
    requires s.OpenItemsOf({s.ItemAt(id).token}) == {id} && |p.Outgoing(s.ItemAt(id).element)| == 1
    requires s.TokenAt(s.ItemAt(id).token).wait.OnItem?
    ensures var token := s.ItemAt(id).token;
            var f := p.OnlyFlow(s.ItemAt(id).element);
            var o := OpenCompleteWorkItem(p, s, id, patch);
            o.Opened? && GoneOn(s, token, Move(token, p.Target(f), Some(f), s.TokenAt(token).scope), o.At())
  {
    hide Freed, WithdrawArms, PartlyDisowned;
    var token := s.items[id].token;
    ItemDisowned(s, id, token);
    var m0 := Say(Unpark(Idle(CloseItem(s, id)), {token}).(scope := s.tokens[token].scope), WorkItemCompleted(id, s.items[id].element));
    var m := Patched(Idle(CloseItem(s, id)), patch);
    FreedSimply(s, CloseItem(s, id), token, m);
    WithdrawSame(Unpark(m, {token}), Patched(m0, patch), token);
  }

  lemma CompleteWorkItemSound(p: Process, s: Instance, id: ItemId, patch: Value)
    requires WellFormed(p) && Resting(p, s)
    ensures Sound(p, OpenCompleteWorkItem(p, s, id, patch))
  {
    hide Inv, WellFormed, GoesOn, GoneOn;
    if s.status.Active? && id in s.items && s.items[id].open {
      ItemOwner(p, s, id);
      var token := s.items[id].token;
      WorkGoesOn(p, s.tokens[token], token);
      CompleteWorkItemIs(p, s, id, patch);
      var f := p.Outgoing(s.items[id].element)[0];
      GoneOnKeeps(p, s, token, Move(token, p.Target(f), Some(f), s.tokens[token].scope), OpenCompleteWorkItem(p, s, id, patch).m);
    }
  }

  // ---- answering decisions

  lemma DecisionDisowned(p: Process, s: Instance, token: TokenId)
    requires Inv(p, Idle(s), {}) && token in s.tokens && !s.TokenAt(token).wait.OnItem?
    ensures PartlyDisowned(s, s, token, {token})
  {
    assert s.OpenItemsOf({token}) == {};
    assert Closed(s.items, {}) == s.items;
  }

  lemma CompleteDecisionIs(p: Process, s: Instance, token: TokenId, answer: Value, detail: Option<string>)
    requires s.status.Active? && token in s.tokens && s.TokenAt(token).wait.OnDecision?
    requires p.KindOf(s.TokenAt(token).node).BusinessRule? && |p.Outgoing(s.TokenAt(token).node)| == 1
    requires PartlyDisowned(s, s, token, {token})
    ensures var f := p.OnlyFlow(s.TokenAt(token).node);
            var o := OpenCompleteDecision(p, s, token, Some(answer), detail);
            o.Opened? && GoneOn(s, token, Move(token, p.Target(f), Some(f), s.TokenAt(token).scope), o.At())
  {
    hide Freed, WithdrawArms, PartlyDisowned;
    var parked := s.tokens[token];
    var m := Idle(s.(variables := Assign(s.variables, p.KindOf(parked.node).result, answer)));
    FreedSimply(s, s, token, m);
    var m1 := Say(Idle(s).(scope := parked.scope), DecisionEvaluated(parked.node, answer, if answer.Null? then detail else None));
    WithdrawSame(Unpark(m, {token}), Unpark(m1.(s := m.s), {token}), token);
  }

  lemma DecisionFreezes(p: Process, s: Instance, token: TokenId, detail: Option<string>)
    requires WellFormed(p) && Inv(p, Idle(s), {}) && s.status.Active?
    requires token in s.tokens && s.TokenAt(token).wait.OnDecision?
    ensures Inv(p, Freeze(Idle(s).(scope := s.TokenAt(token).scope), token, s.TokenAt(token).node, None, detail), {})
  {
    var m := Idle(s).(scope := s.tokens[token].scope);
    TokenIn(p, s, token);
    assert p.ScopeOf(s.tokens[token].node) == p.ScopeOf(s.tokens[token].node);
    RuleResumes(p, s.tokens[token].node);
    hide Inv, WellFormed, Freeze;
    InvSame(p, Idle(s), m, {});
    FreezeParked(p, m, {}, token, s.tokens[token].node, None, detail);
  }

  lemma RuleResumes(p: Process, n: NodeIx)
    requires WellFormed(p) && n < |p.nodes| && (p.KindOf(n).BusinessRule? || p.KindOf(n).Task?)
    ensures CanResume(p, n) && p.ResumePoint(n) == n && IncidentAt(p, n)
  {
    forall f | f in p.Incoming(n) ensures !p.KindOf(p.Source(f)).EventBasedGateway? {
      InTo(p, n, f);
      assert ShapeOk(p, p.Source(f)) && f in p.Outgoing(p.Source(f));
    }
  }

  /** Answered as the caller must: the token waits on a decision. */
  lemma CompleteDecisionSound(p: Process, s: Instance, token: TokenId, answer: Option<Value>, detail: Option<string>)
    requires WellFormed(p) && Resting(p, s)
    requires s.status.Active? ==> token in s.tokens && s.TokenAt(token).wait.OnDecision?
    ensures Sound(p, OpenCompleteDecision(p, s, token, answer, detail))
  {
    hide Inv, WellFormed, GoesOn, GoneOn, Freeze, PartlyDisowned;
    if s.status.Active? {
      TokenIn(p, s, token);
      if answer.None? {
        DecisionFreezes(p, s, token, detail);
      } else {
        WorkGoesOn(p, s.tokens[token], token);
        DecisionDisowned(p, s, token);
        CompleteDecisionIs(p, s, token, answer.value, detail);
        var f := p.Outgoing(s.tokens[token].node)[0];
        GoneOnKeeps(p, s, token, Move(token, p.Target(f), Some(f), s.tokens[token].scope),
                    OpenCompleteDecision(p, s, token, answer, detail).m);
      }
    }
  }

  // ---- errors walk outward

  lemma FirstForIn(candidates: seq<(Option<string>, NodeIx)>, code: Option<string>)
    ensures var b := FirstFor(candidates, code); b.Some? ==> (code, b.value) in candidates
  {
  }

  lemma ErrorBoundaryHosted(p: Process, host: NodeIx, code: Option<string>)
    requires WellFormed(p) && p.ErrorBoundary(host, code).Some?
    ensures var b := p.ErrorBoundary(host, code).value;
            b in p.hosts && p.HostOf(b) == host && p.KindOf(b).ErrorBoundary? && b < |p.nodes|
  {
    FirstForIn(p.ErrorBoundaries(host), code);
    FirstForIn(p.ErrorBoundaries(host), None);
  }

  /** A boundary that interrupts takes its host's token and its marks on. */
  lemma BoundaryGoesOn(p: Process, t: Token, token: TokenId, b: NodeIx)
    requires WellFormed(p) && b in p.hosts && p.Interrupts(b)
    requires PlaceOf(p, t) == Place(p.HostOf(b), None, t.scope) && p.ScopeOf(p.HostOf(b)) == p.ScopeOf(t.node)
    ensures |p.Outgoing(b)| == 1
    ensures var f := p.OnlyFlow(b); GoesOn(p, t, Move(token, p.Target(f), Some(f), t.scope))
  {
    assert ShapeOk(p, b);
    forall c | Conserving(p, c) ensures Marked(c, Place(b, None, t.scope)) <==> Marked(c, PlaceOf(p, t)) {
      assert NodeConserves(p, c, b);
    }
    LeavesBy(p, t, token, b);
  }

  /** Who catches is parked: the failing host's token, or one waiting on a
      subprocess the failing scope is nested in; its boundary takes it on. */
  lemma {:induction false} CatcherGoesOn(p: Process, s: Instance, host: NodeIx, token: TokenId, scope: ScopeId, code: Option<string>)
    requires WellFormed(p) && Inv(p, Idle(s), {}) && token in s.tokens && s.TokenAt(token).scope == scope
    requires PlaceOf(p, s.TokenAt(token)) == Place(host, None, scope) && p.ScopeOf(host) == p.ScopeOf(s.TokenAt(token).node)
    ensures match Catcher(p, s.scopes, host, token, scope, code)
            case None => true
            case Some(who) =>
              && who.0 in s.tokens && |p.Outgoing(who.1)| == 1
              && (who.0 == token || (s.TokenAt(who.0).wait.OnScope? && scope in ChildScopes(s, who.0)))
              && var f := p.OnlyFlow(who.1); GoesOn(p, s.TokenAt(who.0), Move(who.0, p.Target(f), Some(f), s.TokenAt(who.0).scope))
    decreases scope
  {
    hide Inv, WellFormed, GoesOn;
    if p.ErrorBoundary(host, code).Some? {
      ErrorBoundaryHosted(p, host, code);
      BoundaryGoesOn(p, s.tokens[token], token, p.ErrorBoundary(host, code).value);
    } else if scope in s.scopes && s.scopes[scope].parent < scope {
      var up := s.scopes[scope];
      ScopeOwner(p, s, scope);
      CatcherGoesOn(p, s, up.element, up.token, up.parent, code);
    }
  }

  lemma ScopeOwner(p: Process, s: Instance, scope: ScopeId)
    requires Inv(p, Idle(s), {}) && scope in s.scopes
    ensures var up := s.ScopeAt(scope);
            up.token in s.tokens && s.TokenAt(up.token) == Token(up.element, up.parent, OnScope(scope)) && up.parent < scope
  {
  }

  lemma ItemDisownedBy(s: Instance, id: ItemId, target: TokenId)
    requires id in s.items && s.ItemAt(id).open && s.ItemAt(id).token in WithChildren(s, target)
    requires if s.ItemAt(id).token == target then s.OpenItemsOf({target}) == {id} else s.OpenItemsOf({target}) == {}
    ensures PartlyDisowned(s, CloseItem(s, id), target, WithChildren(s, target))
  {
    forall i | i in s.items && s.items[i].open && s.items[i].token == target ensures i in s.OpenItemsOf({target}) {
    }
  }

  lemma InterruptGoesOn(p: Process, s: Instance, m: Machine, target: TokenId, b: NodeIx)
    requires Owned(p, s) && target in s.tokens && |p.Outgoing(b)| == 1
    requires PartlyDisowned(s, m.s.(variables := s.variables), target, WithChildren(s, target)) && m.q == [] && m.reask == []
    ensures var f := p.OnlyFlow(b);
            var o := InterruptToBoundary(p, m, target, b);
            && o.Ok? && GoneOn(s, target, Move(target, p.Target(f), Some(f), s.TokenAt(target).scope), o.m)
            && o.m.s.variables == m.s.variables
  {
    hide Owned, Freed, PartlyDisowned;
    var s0 := s.(variables := m.s.variables);
    AlikeOwned(p, s, s0);
    FreedAlike(s, s0, target);
    PartlyAlike(s, s0, m.s, target);
    InterruptIs(p, Idle(s0), m, target, b);
    hide InterruptToBoundary, WithChildren;
    assert Spared([], ChildScopes(s0, target)) == [];
    var o := InterruptToBoundary(p, m, target, b);
    var f := p.Outgoing(b)[0];
    var to := Move(target, p.Target(f), Some(f), s.tokens[target].scope);
    assert o.m.s == Freed(s0, target) == Freed(s, target).(variables := m.s.variables);
    assert o.m.q == [] + [to] == [to];
  }

  lemma FreedAlike(s: Instance, s0: Instance, token: TokenId)
    requires s0 == s.(variables := s0.variables, status := s0.status)
    ensures Freed(s0, token) == Freed(s, token).(variables := s0.variables, status := s0.status)
    ensures ChildScopes(s0, token) == ChildScopes(s, token) && Freed(s, token).status == s.status
  {
  }

  lemma PartlyAlike(s: Instance, s0: Instance, s1: Instance, token: TokenId)
    requires s0 == s.(variables := s1.variables)
    requires PartlyDisowned(s, s1.(variables := s.variables), token, WithChildren(s, token))
    ensures PartlyDisowned(s0, s1, token, WithChildren(s0, token))
  {
  }

  lemma NoOpenItems(p: Process, s: Instance, token: TokenId)
    requires Inv(p, Idle(s), {}) && token in s.tokens && !s.TokenAt(token).wait.OnItem?
    ensures s.OpenItemsOf({token}) == {}
  {
  }

  lemma IdleOwned(p: Process, s: Instance)
    requires Inv(p, Idle(s), {})
    ensures Owned(p, s)
  {
  }

  lemma RaiseErrorCaught(p: Process, s: Instance, id: ItemId, code: Option<string>)
    requires WellFormed(p) && Inv(p, Idle(s), {}) && s.status.Active? && id in s.items && s.ItemAt(id).open
    requires s.ItemAt(id).token in s.tokens
    requires Catcher(p, s.scopes, s.ItemAt(id).element, s.ItemAt(id).token, s.TokenAt(s.ItemAt(id).token).scope, code).Some?
    ensures Sound(p, OpenRaiseError(p, s, id, code))
  {
    hide Inv, WellFormed, GoesOn, Freed, GoneOn, PartlyDisowned, InterruptToBoundary, Catcher;
    ItemOwner(p, s, id);
    var token := s.items[id].token;
    var scope := s.tokens[token].scope;
    CatcherGoesOn(p, s, s.items[id].element, token, scope, code);
    var caught := Catcher(p, s.scopes, s.items[id].element, token, scope, code).value;
    if caught.0 != token {
      NoOpenItems(p, s, caught.0);
      assert token in WithChildren(s, caught.0);
    }
    ItemDisownedBy(s, id, caught.0);
    hide WithChildren, ChildScopes;
    IdleOwned(p, s);
    var m := Say(Idle(CloseItem(s, id)), WorkItemFailed(id, s.items[id].element, code));
    InterruptGoesOn(p, s, m, caught.0, caught.1);
    var f := p.Outgoing(caught.1)[0];
    GoneOnKeeps(p, s, caught.0, Move(caught.0, p.Target(f), Some(f), s.tokens[caught.0].scope),
                InterruptToBoundary(p, m, caught.0, caught.1).m);
  }

  /** Closing the failing item first changes nothing of the freeze. */
  lemma FreezeClosed(s: Instance, m: Machine, id: ItemId, token: TokenId, element: NodeIx, code: Option<string>)
    requires s.OpenItemsOf({token}) == {id} && token in s.tokens && !s.TokenAt(token).wait.OnScope?
    requires m.s == CloseItem(s, id) && m.q == [] && m.reask == []
    ensures var a := Freeze(Idle(s), token, element, code, None);
            var b := Freeze(m, token, element, code, None);
            a.s == b.s && a.q == b.q == [] && a.reask == b.reask == []
  {
    assert m.s.OpenItemsOf({token}) == {};
    assert Closed(m.s.items, {}) == Closed(s.items, {id});
    assert Stripped(m, token).s == Stripped(Idle(s), token).s;
    hide Stripped, Iced;
  }

  lemma RaiseErrorUncaught(p: Process, s: Instance, m: Machine, id: ItemId, code: Option<string>)
    requires WellFormed(p) && Inv(p, Idle(s), {}) && s.status.Active? && id in s.items && s.ItemAt(id).open
    requires m.s == CloseItem(s, id) && m.q == [] && m.reask == []
    ensures var m' := Freeze(m, s.ItemAt(id).token, s.ItemAt(id).element, code, None);
            Inv(p, m', {}) && m'.q == [] && m'.s.status.Failed?
  {
    ItemOwner(p, s, id);
    var token, element := s.items[id].token, s.items[id].element;
    RuleResumes(p, element);
    hide Inv, WellFormed;
    FreezeParked(p, Idle(s), {}, token, element, code, None);
    FreezeClosed(s, m, id, token, element, code);
    InvSame(p, Freeze(Idle(s), token, element, code, None), Freeze(m, token, element, code, None), {});
  }

  lemma RaiseErrorSound(p: Process, s: Instance, id: ItemId, code: Option<string>)
    requires WellFormed(p) && Resting(p, s)
    ensures Sound(p, OpenRaiseError(p, s, id, code))
  {
    hide Inv, WellFormed, Freeze, Catcher, InterruptToBoundary;
    if s.status.Active? && id in s.items && s.items[id].open {
      ItemOwner(p, s, id);
      if Catcher(p, s.scopes, s.items[id].element, s.items[id].token, s.tokens[s.items[id].token].scope, code).Some? {
        RaiseErrorCaught(p, s, id, code);
      } else {
        var m := Say(Idle(CloseItem(s, id)), WorkItemFailed(id, s.items[id].element, code));
        RaiseErrorUncaught(p, s, m, id, code);
      }
    }
  }

  // ---- an arm fires

  lemma TimerOwner(p: Process, s: Instance, id: TimerId)
    requires Inv(p, Idle(s), {}) && id in s.timers
    ensures var timer := s.TimerAt(id);
            && timer.token in s.tokens && TimerOwned(p, id, timer.element, s.TokenAt(timer.token))
            && TokenOk(p, s, timer.token, s.TokenAt(timer.token))
  {
  }

  lemma SubOwner(p: Process, s: Instance, id: SubId)
    requires Inv(p, Idle(s), {}) && id in s.subs
    ensures var sub := s.SubAt(id);
            && sub.token in s.tokens && SubOwned(p, id, sub.element, s.TokenAt(sub.token))
            && TokenOk(p, s, sub.token, s.TokenAt(sub.token))
  {
  }

  lemma OnTimerOwns(p: Process, s: Instance, token: TokenId, id: TimerId)
    requires TimersOk(p, s) && SubsOk(p, s) && ItemsOk(s) && token in s.tokens && s.TokenAt(token).wait == OnTimer(id)
    requires id in s.timers && s.TimerAt(id).token == token
    ensures Freed(s, token) == s.(timers := s.timers - {id}, tokens := s.tokens - {token})
  {
    assert s.OpenItemsOf({token}) == {} && s.TimersOf({token}) == {id} && s.SubsOf({token}) == {};
    assert Closed(s.items, {}) == s.items && s.subs - {} == s.subs && s.scopes - {} == s.scopes;
    assert s.TokensWithin({}) == {} && {token} + {} == {token};
  }

  lemma RowsOf(p: Process, s: Instance)
    requires Inv(p, Idle(s), {})
    ensures TimersOk(p, s) && SubsOk(p, s) && ItemsOk(s)
  {
  }

  lemma CatchFiresIs(p: Process, s: Instance, id: TimerId)
    requires Inv(p, Idle(s), {}) && s.status.Active? && id in s.timers && s.TimerAt(id).token in s.tokens
    requires s.TokenAt(s.TimerAt(id).token).wait == OnTimer(id) && |p.Outgoing(s.TimerAt(id).element)| == 1
    ensures var token := s.TimerAt(id).token;
            var f := p.OnlyFlow(s.TimerAt(id).element);
            var o := OpenFireTimer(p, s, id);
            o.Opened? && GoneOn(s, token, Move(token, p.Target(f), Some(f), s.TokenAt(token).scope), o.At())
  {
    hide Inv, Freed, TimersOk, SubsOk, ItemsOk;
    RowsOf(p, s);
    OnTimerOwns(p, s, s.timers[id].token, id);
  }

  /** A timer catch is resumed. */
  lemma CatchFires(p: Process, s: Instance, id: TimerId)
    requires WellFormed(p) && Inv(p, Idle(s), {}) && s.status.Active? && id in s.timers && s.TimerAt(id).token in s.tokens
    requires s.TokenAt(s.TimerAt(id).token).wait == OnTimer(id)
    ensures Sound(p, OpenFireTimer(p, s, id))
  {
    hide Inv, WellFormed, GoesOn, GoneOn, Freed;
    TimerOwner(p, s, id);
    var token := s.timers[id].token;
    WorkGoesOn(p, s.tokens[token], token);
    CatchFiresIs(p, s, id);
    var f := p.Outgoing(s.timers[id].element)[0];
    hide OpenFireTimer;
    GoneOnKeeps(p, s, token, Move(token, p.Target(f), Some(f), s.tokens[token].scope), OpenFireTimer(p, s, id).m);
  }

  /** An arm of a host is one of its boundaries. */
  lemma HostArm(p: Process, t: Token, element: NodeIx)
    requires WellFormed(p) && Hosting(t.wait) && element in p.Boundaries(t.node) && t.node < |p.nodes|
    ensures element in p.hosts && p.HostOf(element) == t.node && element < |p.nodes| && |p.Outgoing(element)| == 1
    ensures p.KindOf(element).TimerBoundary? || p.KindOf(element).MessageBoundary?
    ensures PlaceOf(p, t) == Place(t.node, None, t.scope)
    ensures p.Interrupts(element) ==>
              var f := p.OnlyFlow(element); forall token :: GoesOn(p, t, Move(token, p.Target(f), Some(f), t.scope))
  {
    assert ShapeOk(p, element);
    if p.Interrupts(element) {
      BoundaryGoesOn(p, t, 0, element);
    }
  }

  ghost predicate ArmGone(s: Instance, s1: Instance, token: TokenId) {
    && s1 == s.(timers := s1.timers, subs := s1.subs, variables := s1.variables)
    && (forall k :: k in s1.timers ==> k in s.timers && s1.timers[k] == s.timers[k])
    && (forall k :: k in s.timers && s.timers[k].token != token ==> k in s1.timers)
    && (forall k :: k in s1.subs ==> k in s.subs && s1.subs[k] == s.subs[k])
    && (forall k :: k in s.subs && s.subs[k].token != token ==> k in s1.subs)
  }

  lemma HostDisowned(s: Instance, s1: Instance, s2: Instance, token: TokenId)
    requires token in s.tokens && ArmGone(s, s1, token)
    requires s2 == s1.(items := s2.items, subs := s2.subs)
    requires if s.TokenAt(token).wait.OnItem? then s.OpenItemsOf({token}) == {s.TokenAt(token).wait.Ref()} && s2.items == Closed(s.items, {s.TokenAt(token).wait.Ref()})
             else s.OpenItemsOf({token}) == {} && s2.items == s.items
    requires s2.subs == s1.subs || exists k :: s2.subs == s1.subs - {k} && (k in s.subs ==> s.SubAt(k).token == token)
    ensures PartlyDisowned(s, s2.(variables := s.variables), token, WithChildren(s, token))
  {
    assert token in WithChildren(s, token);
    forall i | i in s.items && s.items[i].open && s.items[i].token == token ensures i in s.OpenItemsOf({token}) {
    }
  }

  lemma HostOwns(p: Process, s: Instance, token: TokenId)
    requires Inv(p, Idle(s), {}) && token in s.tokens && Hosting(s.TokenAt(token).wait)
    ensures s.TokenAt(token).wait.OnItem? ==>
              s.TokenAt(token).wait.Ref() in s.items && s.OpenItemsOf({token}) == {s.TokenAt(token).wait.Ref()}
    ensures !s.TokenAt(token).wait.OnItem? ==> s.OpenItemsOf({token}) == {}
    ensures s.TokenAt(token).wait.OnMessage? ==>
              s.TokenAt(token).wait.Ref() in s.subs && s.SubAt(s.TokenAt(token).wait.Ref()).token == token
    ensures s.TokenAt(token).node < |p.nodes|
  {
    assert TokenOk(p, s, token, s.tokens[token]);
  }

  /** The host's own wait ended. */
  function HostEnded(m: Machine, wait: Wait): Machine {
    match wait
    case OnItem(item) =>
      if item in m.s.items
      then Say(m.(s := m.s.(items := Closed(m.s.items, {item}))), WorkItemCancelled(item, m.s.items[item].element))
      else m
    case OnMessage(sub) => if sub in m.s.subs then Withdraw(m, {}, {sub}) else m
    case _ => m
  }

  lemma HostEndedDisowned(p: Process, s: Instance, m: Machine, token: TokenId)
    requires Inv(p, Idle(s), {}) && token in s.tokens && Hosting(s.TokenAt(token).wait)
    requires ArmGone(s, m.s, token)
    requires s.TokenAt(token).wait.OnMessage? ==> s.TokenAt(token).wait.Ref() in m.s.subs
    ensures var m1 := HostEnded(m, s.TokenAt(token).wait);
            && PartlyDisowned(s, m1.s.(variables := s.variables), token, WithChildren(s, token))
            && m1.q == m.q && m1.reask == m.reask
  {
    hide Inv, PartlyDisowned, WithChildren;
    HostOwns(p, s, token);
    assert m.s.timers - {} == m.s.timers;
    HostDisowned(s, m.s, HostEnded(m, s.tokens[token].wait).s, token);
  }

  /** An interrupting arm fired: whatever its host was waiting on ends with it. */
  lemma HostInterrupted(p: Process, s: Instance, m: Machine, token: TokenId, element: NodeIx)
    requires WellFormed(p) && Inv(p, Idle(s), {}) && s.status.Active? && token in s.tokens
    requires Hosting(s.TokenAt(token).wait) && element in p.Boundaries(s.TokenAt(token).node) && p.Interrupts(element)
    requires ArmGone(s, m.s, token) && m.q == [] && m.reask == []
    requires s.TokenAt(token).wait.OnMessage? ==> s.TokenAt(token).wait.Ref() in m.s.subs
    ensures Entered(p, InterruptHost(p, m, token, element))
  {
    hide Inv, WellFormed, GoesOn, GoneOn, PartlyDisowned, InterruptToBoundary, WithChildren, Owned;
    HostOwns(p, s, token);
    IdleOwned(p, s);
    HostArm(p, s.tokens[token], element);
    HostEndedDisowned(p, s, m, token);
    var m1 := HostEnded(m, s.tokens[token].wait);
    InterruptGoesOn(p, s, m1, token, element);
    var f := p.Outgoing(element)[0];
    GoneOnKeeps(p, s, token, Move(token, p.Target(f), Some(f), s.tokens[token].scope), InterruptToBoundary(p, m1, token, element).m);
    assert InterruptHost(p, m, token, element) == InterruptToBoundary(p, m1, token, element);
  }

  // ---- a race is won

  lemma {:induction false} FlowToFinds(p: Process, flows: seq<FlowIx>, f: FlowIx)
    requires f in flows
    ensures var g := FlowTo(p, flows, p.Target(f)); g.Some? && g.value in flows && p.Target(g.value) == p.Target(f)
  {
    if p.Target(flows[0]) == p.Target(f) {
    } else {
      FlowToFinds(p, flows[1..], f);
    }
  }

  lemma WinnerGoesOn(p: Process, t: Token, token: TokenId, winner: NodeIx)
    requires WellFormed(p) && t.node < |p.nodes| && p.KindOf(t.node).EventBasedGateway? && t.wait.AtEventGateway?
    requires p.Races(t.node, winner)
    ensures FlowTo(p, p.Outgoing(t.node), winner).Some? && |p.Outgoing(winner)| == 1
    ensures var f := p.OnlyFlow(winner); GoesOn(p, t, Move(token, p.Target(f), Some(f), t.scope))
  {
    RacesIs(p, t.node, winner);
    var g :| g in p.Outgoing(t.node) && p.Target(g) == winner;
    FlowToFinds(p, p.Outgoing(t.node), g);
    assert ShapeOk(p, winner);
    forall c | Conserving(p, c) ensures Marked(c, Place(winner, None, t.scope)) <==> Marked(c, PlaceOf(p, t)) {
      WinnerMarks(p, c, t.node, winner, g);
    }
    LeavesBy(p, t, token, winner);
  }

  lemma WinnerMarks(p: Process, c: Marks, gateway: NodeIx, winner: NodeIx, g: FlowIx)
    requires Conserving(p, c) && gateway < |p.nodes| && winner < |p.nodes|
    requires p.KindOf(gateway).EventBasedGateway? && p.IsCatch(winner)
    requires g in p.Outgoing(gateway) && g in p.Incoming(winner)
    ensures winner in c.nodes <==> gateway in c.nodes
  {
    assert NodeConserves(p, c, gateway) && NodeConserves(p, c, winner);
  }

  lemma ArmGonePartly(s: Instance, s1: Instance, token: TokenId)
    requires ArmGone(s, s1, token) && s.OpenItemsOf({token}) == {}
    ensures PartlyDisowned(s, s1.(variables := s.variables), token, {token})
  {
    forall i | i in s.items && s.items[i].open && s.items[i].token == token ensures i in s.OpenItemsOf({token}) {
    }
  }

  lemma RaceWonIs(p: Process, s: Instance, m: Machine, token: TokenId, winner: NodeIx)
    requires token in s.tokens && s.TokenAt(token).wait.AtEventGateway? && s.OpenItemsOf({token}) == {}
    requires ArmGone(s, m.s, token) && m.q == [] && m.reask == []
    requires FlowTo(p, p.Outgoing(s.TokenAt(token).node), winner).Some? && |p.Outgoing(winner)| == 1
    ensures var t := s.TokenAt(token);
            var o := TakeGatewayPath(p, WithdrawArms(m.(scope := t.scope), token), token, t.node, winner);
            var f := p.OnlyFlow(winner);
            o.Ok? && GoneOn(s, token, Move(token, p.Target(f), Some(f), t.scope), o.m)
  {
    hide Freed, PartlyDisowned, ArmGone, FlowTo;
    ArmGonePartly(s, m.s, token);
    FreedSimply(s, m.s.(variables := s.variables), token, m.(scope := s.tokens[token].scope));
    WithdrawSame(m, m.(scope := s.tokens[token].scope), token);
    hide WithdrawArms;
  }

  lemma RaceWon(p: Process, s: Instance, m: Machine, token: TokenId, winner: NodeIx)
    requires WellFormed(p) && Inv(p, Idle(s), {}) && s.status.Active? && token in s.tokens
    requires s.TokenAt(token).wait.AtEventGateway? && p.Races(s.TokenAt(token).node, winner)
    requires ArmGone(s, m.s, token) && m.q == [] && m.reask == []
    ensures var t := s.TokenAt(token);
            Entered(p, TakeGatewayPath(p, WithdrawArms(m.(scope := t.scope), token), token, t.node, winner))
  {
    hide Inv, WellFormed, GoesOn, GoneOn, ArmGone, WithdrawArms, TakeGatewayPath, FlowTo;
    TokenIn(p, s, token);
    NoOpenItems(p, s, token);
    WinnerGoesOn(p, s.tokens[token], token, winner);
    RaceWonIs(p, s, m, token, winner);
    var t := s.tokens[token];
    var f := p.Outgoing(winner)[0];
    GoneOnKeeps(p, s, token, Move(token, p.Target(f), Some(f), t.scope),
                TakeGatewayPath(p, WithdrawArms(m.(scope := t.scope), token), token, t.node, winner).m);
  }

  // ---- a side path is taken

  /** No token waits for the timer or the subscription that went. */
  ghost predicate Unawaited(s: Instance, s1: Instance) {
    && s1 == s.(timers := s1.timers, subs := s1.subs)
    && (forall k :: k in s1.timers ==> k in s.timers && s1.timers[k] == s.timers[k])
    && (forall k :: k in s1.subs ==> k in s.subs && s1.subs[k] == s.subs[k])
    && (forall a :: a in s.tokens && s.tokens[a].wait.OnTimer? && s.tokens[a].wait.timer in s.timers ==> s.tokens[a].wait.timer in s1.timers)
    && (forall a :: a in s.tokens && s.tokens[a].wait.OnMessage? && s.tokens[a].wait.sub in s.subs ==> s.tokens[a].wait.sub in s1.subs)
  }

  lemma FewerArmsToken(p: Process, s: Instance, s1: Instance, a: TokenId)
    requires Unawaited(s, s1) && a in s.tokens && TokenOk(p, s, a, s.TokenAt(a))
    ensures TokenOk(p, s1, a, s.TokenAt(a))
  {
  }

  lemma FewerArmsRows(p: Process, s: Instance, s1: Instance)
    requires Unawaited(s, s1) && TimersOk(p, s) && SubsOk(p, s) && SubsDistinct(s) && ItemsOk(s) && ScopesOk(s)
    ensures TimersOk(p, s1) && SubsOk(p, s1) && SubsDistinct(s1) && ItemsOk(s1) && ScopesOk(s1)
  {
    hide TimerOwned, SubOwned;
  }

  lemma FewerArms(p: Process, s: Instance, s1: Instance)
    requires Owned(p, s) && Unawaited(s, s1)
    ensures Owned(p, s1)
  {
    hide TimersOk, SubsOk, SubsDistinct, ItemsOk, ScopesOk, TokenOk;
    FewerArmsRows(p, s, s1);
    forall a | a in s1.tokens ensures TokenOk(p, s1, a, s1.tokens[a]) {
      FewerArmsToken(p, s, s1, a);
    }
  }

  lemma FewerTimers(p: Process, s: Instance, s1: Instance, id: TimerId)
    requires Owned(p, s) && s1 == s.(timers := s.timers - {id})
    requires id in s.timers && s.TimerAt(id).token in s.tokens && !s.TokenAt(s.TimerAt(id).token).wait.OnTimer?
    ensures Owned(p, s1)
  {
    hide TimersOk, SubsOk, SubsDistinct, ItemsOk, ScopesOk;
    forall a | a in s.tokens && s.tokens[a].wait.OnTimer? ensures s.tokens[a].wait.timer != id {
      assert TokenOk(p, s, a, s.tokens[a]);
    }
    hide TokensOk, TokenOk;
    FewerArms(p, s, s1);
  }

  lemma FewerSubs(p: Process, s: Instance, s1: Instance, id: SubId)
    requires Owned(p, s) && s1 == s.(subs := s.subs - {id})
    requires id in s.subs && s.SubAt(id).token in s.tokens && s.TokenAt(s.SubAt(id).token).wait != OnMessage(id)
    ensures Owned(p, s1)
  {
    hide TimersOk, SubsOk, SubsDistinct, ItemsOk, ScopesOk;
    forall a | a in s.tokens && s.tokens[a].wait.OnMessage? ensures s.tokens[a].wait.sub != id {
      assert TokenOk(p, s, a, s.tokens[a]);
    }
    hide TokensOk, TokenOk;
    FewerArms(p, s, s1);
  }

  /** A sibling leaves by the boundary; the host is left as it was. */
  lemma SideTokenSpawned(p: Process, m: Machine, host: TokenId, b: NodeIx)
    requires WellFormed(p) && Inv(p, m, {}) && m.s.status.Active? && host in m.s.tokens
    requires Hosting(m.s.TokenAt(host).wait) && b in p.Boundaries(m.s.TokenAt(host).node) && !p.Interrupts(b)
    requires m.scope == m.s.TokenAt(host).scope
    ensures Entered(p, SpawnSideToken(p, m, b))
  {
    var t := m.s.tokens[host];
    TokenHere(p, m, {}, host);
    HostArm(p, t, b);
    assert p.ScopeOf(b) == p.ScopeOf(t.node);
    var f := p.Outgoing(b)[0];
    assert f in p.Outgoing(b);
    OutEnterable(p, b, f);
    SideUnmarked(p, b, f);
    hide Inv, WellFormed, Enterable, TokenOk;
    var to := Move(m.s.nextToken, p.Target(f), Some(f), m.scope);
    SideToken(p, m, to);
    InvSame(p, InHand(FreshToken(m), to), SpawnSideToken(p, m, b).m, {});
  }

  lemma SideUnmarked(p: Process, b: NodeIx, f: FlowIx)
    requires BoundariesOk(p) && b in p.hosts && !p.Interrupts(b) && f in p.Outgoing(b)
    ensures forall c :: Conserving(p, c) ==> f !in c.flows
  {
    forall c | Conserving(p, c) ensures f !in c.flows {
      assert NodeConserves(p, c, b);
    }
  }

  lemma ArmWithdrawn(p: Process, s: Instance, s1: Instance)
    requires Inv(p, Idle(s), {}) && Owned(p, s1) && s1 == s.(timers := s1.timers, subs := s1.subs)
    ensures Inv(p, Idle(s1), {})
  {
    hide Owned;
    RowsChange(p, Idle(s), {}, s1);
  }

  lemma RearmCycleKeeps(p: Process, m: Machine, fired: TimerId, timer: Timer)
    requires Inv(p, m, {}) && timer.token in m.s.tokens
    requires Hosting(m.s.TokenAt(timer.token).wait) && timer.element in p.Boundaries(m.s.TokenAt(timer.token).node)
    requires p.KindOf(timer.element).TimerBoundary?
    ensures var m' := RearmCycle(m, fired, timer); Inv(p, m', {}) && OnlyArms(m, m')
  {
    hide Inv, RecordTimer;
    var left := if timer.remaining.None? then None
                else if timer.remaining.value == 0 then Some(0)
                else Some(timer.remaining.value - 1);
    if timer.due.Cycle? && left != Some(0) {
      RecordTimerKeeps(p, m, {}, timer.token, timer.element, timer.due, left, Some(fired));
    }
  }

  lemma TimerSides(p: Process, s: Instance, m: Machine, id: TimerId)
    requires WellFormed(p) && Inv(p, Idle(s), {}) && s.status.Active? && id in s.timers && s.TimerAt(id).token in s.tokens
    requires Hosting(s.TokenAt(s.TimerAt(id).token).wait) && s.TimerAt(id).element in p.Boundaries(s.TokenAt(s.TimerAt(id).token).node)
    requires !p.Interrupts(s.TimerAt(id).element) && p.KindOf(s.TimerAt(id).element).TimerBoundary?
    requires m.s == s.(timers := s.timers - {id}) && m.q == [] && m.reask == []
    ensures Entered(p, TimerSidePath(p, m, id, s.TimerAt(id)))
  {
    hide Inv, WellFormed, Owned, RearmCycle;
    var timer := s.timers[id];
    IdleOwned(p, s);
    FewerTimers(p, s, m.s, id);
    ArmWithdrawn(p, s, m.s);
    var m0 := m.(scope := s.tokens[timer.token].scope);
    InvSame(p, Idle(m.s), m0, {});
    RearmCycleKeeps(p, m0, id, timer);
    SideTokenSpawned(p, RearmCycle(m0, id, timer), timer.token, timer.element);
  }

  lemma FireTimerSound(p: Process, s: Instance, id: TimerId)
    requires WellFormed(p) && Resting(p, s)
    ensures Sound(p, OpenFireTimer(p, s, id))
  {
    hide Inv, WellFormed, InterruptHost, TimerSidePath, TakeGatewayPath, LeaveSingle, WithdrawArms;
    if s.status.Active? && id in s.timers {
      TimerOwner(p, s, id);
      var timer := s.timers[id];
      var t := s.tokens[timer.token];
      var m := Say(Idle(s.(timers := s.timers - {id})), TimerFired(id, timer.element));
      if t.wait == OnTimer(id) {
        CatchFires(p, s, id);
      } else if Hosting(t.wait) {
        if p.Interrupts(timer.element) {
          assert t.wait.OnMessage? ==> t.wait.sub in s.subs;
          HostInterrupted(p, s, m, timer.token, timer.element);
        } else {
          TimerSides(p, s, m, id);
        }
      } else {
        RaceWon(p, s, m, timer.token, timer.element);
      }
    }
  }

  // ---- a message is delivered

  lemma MergeNothing(v: Value, path: seq<string>)
    requires path != []
    ensures Resolve(Merge(v, EMPTY), path) == Resolve(v, path)
  {
    assert Merge(v, EMPTY) == Obj(Members(v));
  }

  /** A re-arm checked before the delivery is the re-arm made after it. */
  lemma RearmAgrees(p: Process, s: Instance, s1: Instance, id: SubId, patch: Value)
    requires id in s.subs && s1.subs == s.subs - {id}
    requires s1.variables == if patch == EMPTY then s.variables else Merge(s.variables, patch)
    requires p.KindOf(s.SubAt(id).element).MessageBoundary? && p.KeyPath(s.SubAt(id).element) != []
    ensures ArmKey(p, s1, s1.variables, s.SubAt(id).element, None) == ArmKey(p, s, Merge(s.variables, patch), s.SubAt(id).element, Some(id))
  {
    var kind := p.KindOf(s.subs[id].element);
    MergeNothing(s.variables, kind.key);
    var text := KeyText(Resolve(s1.variables, kind.key));
    if text.None? {
      return;
    }
    if k :| k in s1.subs && s1.subs[k].message == kind.message && s1.subs[k].key == text.value {
      assert k in s.subs && Some(k) != Some(id);
    }
    if k :| k in s.subs && Some(k) != Some(id) && s.subs[k].message == kind.message && s.subs[k].key == text.value {
      assert k in s1.subs;
    }
  }

  lemma SubscribeOpens(p: Process, m: Machine, token: TokenId, element: NodeIx)
    requires Inv(p, m, {}) && token in m.s.tokens && Hosting(m.s.TokenAt(token).wait)
    requires element in p.Boundaries(m.s.TokenAt(token).node) && p.KindOf(element).MessageBoundary?
    requires ArmKey(p, m.s, m.s.variables, element, None).Key?
    ensures var a := Subscribe(p, m, token, element); a.ok && Inv(p, a.m, {}) && OnlyArms(m, a.m)
  {
    hide Inv, OpenSub;
    var key := ArmKey(p, m.s, m.s.variables, element, None);
    OpenSubKeeps(p, m, {}, token, element, key.message, key.key);
  }

  /** What the delivery leaves before its token moves. */
  ghost predicate Delivered(s: Instance, id: SubId, patch: Value, m: Machine) {
    && m.s == s.(subs := s.subs - {id}, variables := m.s.variables)
    && m.s.variables == (if patch == EMPTY then s.variables else Merge(s.variables, patch))
    && m.q == [] && m.reask == []
  }

  /** An accepted delivery to a side path re-arms, and so never freezes. */
  lemma MessageSides(p: Process, s: Instance, m: Machine, id: SubId, patch: Value)
    requires WellFormed(p) && Inv(p, Idle(s), {}) && s.status.Active? && id in s.subs && s.SubAt(id).token in s.tokens
    requires Hosting(s.TokenAt(s.SubAt(id).token).wait) && s.SubAt(id).element in p.Boundaries(s.TokenAt(s.SubAt(id).token).node)
    requires s.TokenAt(s.SubAt(id).token).wait != OnMessage(id)
    requires p.KindOf(s.SubAt(id).element).MessageBoundary? && !p.Interrupts(s.SubAt(id).element)
    requires Delivered(s, id, patch, m) && Rearms(p, s, id, patch)
    ensures Entered(p, MessageSidePath(p, m, s.SubAt(id)))
    ensures MessageSidePath(p, m, s.SubAt(id)).m.s.status.Active?
  {
    hide Inv, WellFormed, Owned, Subscribe;
    var sub := s.subs[id];
    var t := s.tokens[sub.token];
    BoundaryKeyed(p, s, sub.token, sub.element);
    RearmAgrees(p, s, m.s, id, patch);
    IdleOwned(p, s);
    var s0 := s.(subs := s.subs - {id});
    FewerSubs(p, s, s0, id);
    ArmWithdrawn(p, s, s0);
    var m0 := m.(scope := t.scope);
    Alike(p, Idle(s0), m0);
    SubscribeOpens(p, m0, sub.token, sub.element);
    SideTokenSpawned(p, Subscribe(p, m0, sub.token, sub.element).m, sub.token, sub.element);
  }

  lemma BoundaryKeyed(p: Process, s: Instance, token: TokenId, element: NodeIx)
    requires WellFormed(p) && Inv(p, Idle(s), {}) && token in s.tokens && Hosting(s.TokenAt(token).wait)
    requires element in p.Boundaries(s.TokenAt(token).node) && p.KindOf(element).MessageBoundary?
    ensures p.KeyPath(element) != []
  {
    TokenIn(p, s, token);
    HostArm(p, s.tokens[token], element);
    hide Inv;
    assert ShapeOk(p, element);
  }

  lemma MessageArrivesIs(p: Process, s: Instance, m: Machine, token: TokenId, n: NodeIx)
    requires token in s.tokens && s.TokenAt(token).wait.OnMessage? && s.OpenItemsOf({token}) == {}
    requires ArmGone(s, m.s, token) && m.q == [] && m.reask == [] && |p.Outgoing(n)| == 1
    ensures var m1 := Unpark(WithdrawArms(m.(scope := s.TokenAt(token).scope), token), {token});
            var o := LeaveSingle(p, Finished(m1, n), token, n);
            var f := p.OnlyFlow(n);
            o.Ok? && GoneOn(s, token, Move(token, p.Target(f), Some(f), s.TokenAt(token).scope), o.m)
  {
    hide Freed, PartlyDisowned, ArmGone;
    ArmGonePartly(s, m.s, token);
    FreedSimply(s, m.s.(variables := s.variables), token, m.(scope := s.tokens[token].scope));
    WithdrawSame(m, m.(scope := s.tokens[token].scope), token);
    hide WithdrawArms;
  }

  lemma MessageArrives(p: Process, s: Instance, m: Machine, id: SubId)
    requires WellFormed(p) && Inv(p, Idle(s), {}) && s.status.Active? && id in s.subs && s.SubAt(id).token in s.tokens
    requires s.TokenAt(s.SubAt(id).token).wait == OnMessage(id)
    requires ArmGone(s, m.s, s.SubAt(id).token) && m.q == [] && m.reask == []
    ensures var sub := s.SubAt(id);
            var m1 := Unpark(WithdrawArms(m.(scope := s.TokenAt(sub.token).scope), sub.token), {sub.token});
            Entered(p, LeaveSingle(p, Finished(m1, sub.element), sub.token, sub.element))
  {
    hide Inv, WellFormed, GoesOn, GoneOn, ArmGone, WithdrawArms, LeaveSingle;
    SubOwner(p, s, id);
    var sub := s.subs[id];
    var t := s.tokens[sub.token];
    WorkGoesOn(p, t, sub.token);
    NoOpenItems(p, s, sub.token);
    MessageArrivesIs(p, s, m, sub.token, sub.element);
    var m1 := Unpark(WithdrawArms(m.(scope := t.scope), sub.token), {sub.token});
    var f := p.Outgoing(sub.element)[0];
    GoneOnKeeps(p, s, sub.token, Move(sub.token, p.Target(f), Some(f), t.scope),
                LeaveSingle(p, Finished(m1, sub.element), sub.token, sub.element).m);
  }

  lemma DeliverMessageSound(p: Process, s: Instance, id: SubId, patch: Value)
    requires WellFormed(p) && Resting(p, s)
    ensures Sound(p, OpenDeliverMessage(p, s, id, patch))
  {
    hide Inv, WellFormed, InterruptHost, MessageSidePath, TakeGatewayPath, LeaveSingle, WithdrawArms, Rearms;
    if s.status.Active? && id in s.subs {
      SubOwner(p, s, id);
      var sub := s.subs[id];
      var t := s.tokens[sub.token];
      var m := Patched(Say(Idle(s.(subs := s.subs - {id})), MessageReceived(id, sub.element, sub.message)), patch);
      assert ArmGone(s, m.s, sub.token);
      if t.wait == OnMessage(id) {
        MessageArrives(p, s, m, id);
      } else if t.wait.AtEventGateway? {
        RaceWon(p, s, m, sub.token, sub.element);
      } else if p.Interrupts(sub.element) {
        HostInterrupted(p, s, m, sub.token, sub.element);
      } else if Rearms(p, s, id, patch) {
        MessageSides(p, s, m, id, patch);
      }
    }
  }
}
