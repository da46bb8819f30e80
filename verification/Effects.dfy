/** What each command does before the advancer runs, said in one sentence: one
    parked token goes on with all it held released, and the document is written. */
module Effects {
  import opened Basics
  import opened Json
  import opened Compiled
  import opened State
  import opened Advance
  import opened Step
  import opened Invariant
  import opened Freezing
  import opened Leaving
  import opened Branching
  import opened Stepping
  import opened Repairing
  import opened Incident

  function Merged(v: Value, patch: Value): Value { if patch == EMPTY then v else Merge(v, patch) }

  /** `token` leaves by the one flow out of `n`, in its own scope; its work, its arms
      and the scope it waited on are gone with everything in it; nobody else is
      touched, and the document reads `variables`. */
  ghost predicate Sends(p: Process, s: Instance, token: TokenId, n: NodeIx, variables: Value, o: Opening) {
    && o.Opened? && token in s.tokens && |p.Outgoing(n)| == 1
    && o.At().s == Freed(s, token).(variables := variables)
    && var f := p.OnlyFlow(n);
       o.At().q == [Move(token, p.Target(f), Some(f), s.TokenAt(token).scope)]
  }

  lemma GoneIsSent(p: Process, s: Instance, token: TokenId, n: NodeIx, o: Opening)
    requires o.Opened? && token in s.tokens && |p.Outgoing(n)| == 1
    requires GoneOn(s, token, Move(token, p.Target(p.OnlyFlow(n)), Some(p.OnlyFlow(n)), s.TokenAt(token).scope), o.At())
    ensures Sends(p, s, token, n, o.At().s.variables, o)
  {
  }

  lemma WithdrawnVariables(m: Machine, token: TokenId)
    ensures WithdrawArms(m, token).s.variables == m.s.variables
  {
  }

  lemma PatchedVariables(m: Machine, patch: Value)
    ensures Patched(m, patch).s == m.s.(variables := Merged(m.s.variables, patch)) && Patched(m, patch).q == m.q
  {
  }

  // ---- work and decisions

  lemma WorkVariables(p: Process, s: Instance, id: ItemId, patch: Value)
    requires s.status.Active? && id in s.items && s.ItemAt(id).open && OpenCompleteWorkItem(p, s, id, patch).Opened?
    ensures OpenCompleteWorkItem(p, s, id, patch).At().s.variables == Merged(s.variables, patch)
  {
    hide WithdrawArms, Patched;
    var token := s.items[id].token;
    var m := Say(Unpark(Idle(CloseItem(s, id)), {token}).(scope := s.tokens[token].scope), WorkItemCompleted(id, s.items[id].element));
    PatchedVariables(m, patch);
    WithdrawnVariables(Patched(m, patch), token);
  }

  /** A completed item sends its token on, over the patched document. */
  lemma WorkSends(p: Process, s: Instance, id: ItemId, patch: Value)
    requires WellFormed(p) && Resting(p, s) && s.status.Active? && id in s.items && s.ItemAt(id).open
    ensures Sends(p, s, s.ItemAt(id).token, s.ItemAt(id).element, Merged(s.variables, patch), OpenCompleteWorkItem(p, s, id, patch))
  {
    hide Inv, WellFormed, GoesOn, GoneOn, OpenCompleteWorkItem, Sends;
    ItemOwner(p, s, id);
    WorkGoesOn(p, s.tokens[s.items[id].token], s.items[id].token);
    CompleteWorkItemIs(p, s, id, patch);
    GoneIsSent(p, s, s.items[id].token, s.items[id].element, OpenCompleteWorkItem(p, s, id, patch));
    WorkVariables(p, s, id, patch);
  }

  lemma DecisionVariables(p: Process, s: Instance, token: TokenId, answer: Value, detail: Option<string>)
    requires s.status.Active? && token in s.tokens && s.TokenAt(token).wait.OnDecision? && p.KindOf(s.TokenAt(token).node).BusinessRule?
    requires OpenCompleteDecision(p, s, token, Some(answer), detail).Opened?
    ensures OpenCompleteDecision(p, s, token, Some(answer), detail).At().s.variables == Assign(s.variables, p.ResultPath(s.TokenAt(token).node), answer)
  {
    hide WithdrawArms, Assign;
    var parked := s.tokens[token];
    var m1 := Say(Idle(s).(scope := parked.scope), DecisionEvaluated(parked.node, answer, if answer.Null? then detail else None));
    WithdrawnVariables(Unpark(m1.(s := m1.s.(variables := Assign(s.variables, p.KindOf(parked.node).result, answer))), {token}), token);
  }

  /** An answered decision sends its token on, the answer at the bound path. */
  lemma AnswerSends(p: Process, s: Instance, token: TokenId, answer: Value, detail: Option<string>)
    requires WellFormed(p) && Resting(p, s) && s.status.Active? && token in s.tokens && s.TokenAt(token).wait.OnDecision?
    ensures p.KindOf(s.TokenAt(token).node).BusinessRule?
    ensures Sends(p, s, token, s.TokenAt(token).node, Assign(s.variables, p.ResultPath(s.TokenAt(token).node), answer),
                  OpenCompleteDecision(p, s, token, Some(answer), detail))
  {
    hide Inv, WellFormed, GoesOn, GoneOn, PartlyDisowned, OpenCompleteDecision, Sends;
    TokenIn(p, s, token);
    WorkGoesOn(p, s.tokens[token], token);
    DecisionDisowned(p, s, token);
    CompleteDecisionIs(p, s, token, answer, detail);
    GoneIsSent(p, s, token, s.tokens[token].node, OpenCompleteDecision(p, s, token, Some(answer), detail));
    DecisionVariables(p, s, token, answer, detail);
  }

  // ---- errors

  /** A caught error sends the catching host's token out of the boundary: the host
      itself, or a subprocess around it that goes with everything inside. */
  lemma ErrorSends(p: Process, s: Instance, id: ItemId, code: Option<string>)
    requires WellFormed(p) && Resting(p, s) && s.status.Active? && id in s.items && s.ItemAt(id).open
    ensures s.ItemAt(id).token in s.tokens
    ensures var token := s.ItemAt(id).token;
            var caught := Catcher(p, s.scopes, s.ItemAt(id).element, token, s.TokenAt(token).scope, code);
            var o := OpenRaiseError(p, s, id, code);
            match caught
            case Some(who) => Sends(p, s, who.0, who.1, s.variables, o) && token in WithChildren(s, who.0)
            case None =>
              o == Ended(Freeze(Say(Idle(CloseItem(s, id)), WorkItemFailed(id, s.ItemAt(id).element, code)), token, s.ItemAt(id).element, code, None))
  {
    hide Inv, WellFormed, GoesOn, Freed, GoneOn, PartlyDisowned, InterruptToBoundary, Catcher, Freeze, Sends;
    ItemOwner(p, s, id);
    var token := s.items[id].token;
    var scope := s.tokens[token].scope;
    var caught := Catcher(p, s.scopes, s.items[id].element, token, scope, code);
    if caught.Some? {
      CatcherGoesOn(p, s, s.items[id].element, token, scope, code);
      var target := caught.value.0;
      if target != token {
        NoOpenItems(p, s, target);
      }
      assert token in WithChildren(s, target);
      ItemDisownedBy(s, id, target);
      hide WithChildren, ChildScopes;
      IdleOwned(p, s);
      var m := Say(Idle(CloseItem(s, id)), WorkItemFailed(id, s.items[id].element, code));
      InterruptGoesOn(p, s, m, target, caught.value.1);
      GoneIsSent(p, s, target, caught.value.1, OpenRaiseError(p, s, id, code));
    }
  }

  // ---- timers and messages

  /** The arm is a boundary that leaves its host alone. */
  predicate GoesAside(p: Process, t: Token, element: NodeIx) {
    && Hosting(t.wait) && element != t.node
    && match p.KindOf(element)
       case TimerBoundary(_, interrupting) => !interrupting
       case MessageBoundary(_, _, interrupting) => !interrupting
       case _ => false
  }

  lemma RaceVariables(p: Process, m: Machine, token: TokenId, gateway: NodeIx, winner: NodeIx)
    ensures var o := TakeGatewayPath(p, WithdrawArms(m, token), token, gateway, winner); o.Ok? ==> o.m.s.variables == m.s.variables
  {
    hide FlowTo, Sorted;
  }

  lemma HostSends(p: Process, s: Instance, m: Machine, token: TokenId, element: NodeIx)
    requires WellFormed(p) && Inv(p, Idle(s), {}) && token in s.tokens
    requires Hosting(s.TokenAt(token).wait) && element in p.Boundaries(s.TokenAt(token).node) && p.Interrupts(element)
    requires ArmGone(s, m.s, token) && m.q == [] && m.reask == []
    requires s.TokenAt(token).wait.OnMessage? ==> s.TokenAt(token).wait.Ref() in m.s.subs
    ensures Sends(p, s, token, element, m.s.variables, Open(InterruptHost(p, m, token, element)))
  {
    hide Inv, WellFormed, GoesOn, GoneOn, PartlyDisowned, InterruptToBoundary, WithChildren, Owned, Sends;
    HostOwns(p, s, token);
    IdleOwned(p, s);
    HostArm(p, s.tokens[token], element);
    HostEndedDisowned(p, s, m, token);
    var m1 := HostEnded(m, s.tokens[token].wait);
    InterruptGoesOn(p, s, m1, token, element);
    assert InterruptHost(p, m, token, element) == InterruptToBoundary(p, m1, token, element);
    GoneIsSent(p, s, token, element, Open(InterruptHost(p, m, token, element)));
    assert m1.s.variables == m.s.variables;
  }

  lemma RaceSends(p: Process, s: Instance, m: Machine, token: TokenId, winner: NodeIx)
    requires WellFormed(p) && Inv(p, Idle(s), {}) && token in s.tokens
    requires s.TokenAt(token).wait.AtEventGateway? && p.Races(s.TokenAt(token).node, winner)
    requires ArmGone(s, m.s, token) && m.q == [] && m.reask == []
    ensures var t := s.TokenAt(token);
            Sends(p, s, token, winner, m.s.variables, Open(TakeGatewayPath(p, WithdrawArms(m.(scope := t.scope), token), token, t.node, winner)))
  {
    hide Inv, WellFormed, GoesOn, GoneOn, ArmGone, WithdrawArms, TakeGatewayPath, FlowTo, Sends;
    TokenIn(p, s, token);
    NoOpenItems(p, s, token);
    WinnerGoesOn(p, s.tokens[token], token, winner);
    RaceWonIs(p, s, m, token, winner);
    var t := s.tokens[token];
    GoneIsSent(p, s, token, winner, Open(TakeGatewayPath(p, WithdrawArms(m.(scope := t.scope), token), token, t.node, winner)));
    RaceVariables(p, m.(scope := t.scope), token, t.node, winner);
  }

  lemma CatchTimerSends(p: Process, s: Instance, id: TimerId)
    requires WellFormed(p) && Inv(p, Idle(s), {}) && s.status.Active? && id in s.timers && s.TimerAt(id).token in s.tokens
    requires s.TokenAt(s.TimerAt(id).token).wait == OnTimer(id)
    ensures Sends(p, s, s.TimerAt(id).token, s.TimerAt(id).element, s.variables, OpenFireTimer(p, s, id))
  {
    hide Inv, WellFormed, GoesOn, GoneOn, Freed, Sends;
    TimerOwner(p, s, id);
    var token := s.timers[id].token;
    WorkGoesOn(p, s.tokens[token], token);
    CatchFiresIs(p, s, id);
    GoneIsSent(p, s, token, s.timers[id].element, OpenFireTimer(p, s, id));
  }

  /** A timer that fires, a catch, an interrupting boundary or an alternative of a
      race, sends its token past its element; in a race every other arm is gone. */
  lemma TimerSends(p: Process, s: Instance, id: TimerId)
    requires WellFormed(p) && Resting(p, s) && s.status.Active? && id in s.timers
    ensures s.TimerAt(id).token in s.tokens
    ensures !GoesAside(p, s.TokenAt(s.TimerAt(id).token), s.TimerAt(id).element) ==>
              Sends(p, s, s.TimerAt(id).token, s.TimerAt(id).element, s.variables, OpenFireTimer(p, s, id))
  {
    hide Inv, WellFormed, InterruptHost, TimerSidePath, TakeGatewayPath, LeaveSingle, WithdrawArms, Sends;
    TimerOwner(p, s, id);
    var timer := s.timers[id];
    var t := s.tokens[timer.token];
    var m := Say(Idle(s.(timers := s.timers - {id})), TimerFired(id, timer.element));
    if t.wait == OnTimer(id) {
      CatchTimerSends(p, s, id);
    } else if Hosting(t.wait) {
      if !GoesAside(p, t, timer.element) {
        assert t.wait.OnMessage? ==> t.wait.sub in s.subs;
        TimerInterrupts(p, t, timer.element);
        HostSends(p, s, m, timer.token, timer.element);
      }
    } else {
      RaceSends(p, s, m, timer.token, timer.element);
    }
  }

  lemma TimerInterrupts(p: Process, t: Token, element: NodeIx)
    requires WellFormed(p) && Hosting(t.wait) && element in p.Boundaries(t.node) && t.node < |p.nodes| && !GoesAside(p, t, element)
    ensures p.Interrupts(element)
  {
    HostArm(p, t, element);
  }

  lemma CatchMessageSends(p: Process, s: Instance, m: Machine, id: SubId)
    requires WellFormed(p) && Inv(p, Idle(s), {}) && id in s.subs && s.SubAt(id).token in s.tokens
    requires s.TokenAt(s.SubAt(id).token).wait == OnMessage(id) && ArmGone(s, m.s, s.SubAt(id).token) && m.q == [] && m.reask == []
    ensures var sub := s.SubAt(id);
            var m1 := Unpark(WithdrawArms(m.(scope := s.TokenAt(sub.token).scope), sub.token), {sub.token});
            Sends(p, s, sub.token, sub.element, m.s.variables, Open(LeaveSingle(p, Finished(m1, sub.element), sub.token, sub.element)))
  {
    hide Inv, WellFormed, GoesOn, GoneOn, Freed, Sends, ArmGone, WithdrawArms, LeaveSingle;
    SubOwner(p, s, id);
    var sub := s.subs[id];
    NoOpenItems(p, s, sub.token);
    WorkGoesOn(p, s.tokens[sub.token], sub.token);
    MessageArrivesIs(p, s, m, sub.token, sub.element);
    var m1 := Unpark(WithdrawArms(m.(scope := s.tokens[sub.token].scope), sub.token), {sub.token});
    GoneIsSent(p, s, sub.token, sub.element, Open(LeaveSingle(p, Finished(m1, sub.element), sub.token, sub.element)));
    WithdrawnVariables(m.(scope := s.tokens[sub.token].scope), sub.token);
    LeavingVariables(p, Finished(m1, sub.element), sub.token, sub.element);
  }

  lemma LeavingVariables(p: Process, m: Machine, token: TokenId, n: NodeIx)
    ensures var o := LeaveSingle(p, m, token, n); o.Ok? ==> o.m.s.variables == m.s.variables
  {
  }

  /** A message delivered to a catch, an interrupting boundary or an alternative
      sends its token past its element, over the patched document. */
  lemma MessageSends(p: Process, s: Instance, id: SubId, patch: Value)
    requires WellFormed(p) && Resting(p, s) && s.status.Active? && id in s.subs
    ensures s.SubAt(id).token in s.tokens
    ensures !GoesAside(p, s.TokenAt(s.SubAt(id).token), s.SubAt(id).element) ==>
              Sends(p, s, s.SubAt(id).token, s.SubAt(id).element, Merged(s.variables, patch), OpenDeliverMessage(p, s, id, patch))
  {
    hide Inv, WellFormed, InterruptHost, MessageSidePath, TakeGatewayPath, LeaveSingle, WithdrawArms, Rearms, Sends, Patched;
    SubOwner(p, s, id);
    var sub := s.subs[id];
    var t := s.tokens[sub.token];
    if GoesAside(p, t, sub.element) {
      return;
    }
    var m0 := Say(Idle(s.(subs := s.subs - {id})), MessageReceived(id, sub.element, sub.message));
    var m := Patched(m0, patch);
    PatchedVariables(m0, patch);
    PatchedIs(m0, patch);
    assert ArmGone(s, m.s, sub.token);
    if t.wait == OnMessage(id) {
      CatchMessageSends(p, s, m, id);
    } else if t.wait.AtEventGateway? {
      RaceSends(p, s, m, sub.token, sub.element);
    } else {
      TimerInterrupts(p, t, sub.element);
      HostSends(p, s, m, sub.token, sub.element);
    }
  }

  // ---- a timer beside its host

  /** The next occurrence of a cycle with repeats left. */
  function NextOf(timer: Timer): Option<Timer> {
    if !timer.due.Cycle? then None
    else if timer.remaining.None? then Some(timer)
    else if timer.remaining.value > 1 then Some(timer.(remaining := Some(timer.remaining.value - 1)))
    else None
  }

  /** The fired timer replaced by its next occurrence, if it has one. */
  function Rearmed(s: Instance, id: TimerId): Instance {
    match NextOf(s.TimerAt(id))
    case None => s.(timers := s.timers - {id})
    case Some(next) => s.(timers := (s.timers - {id})[s.nextTimer := next], nextTimer := s.nextTimer + 1)
  }

  /** A non-interrupting boundary timer leaves its host as it was: a cycle with
      repeats left is armed again with one fewer, and one token goes out. */
  lemma TimerGoesAside(p: Process, s: Instance, id: TimerId)
    requires WellFormed(p) && Resting(p, s) && s.status.Active? && id in s.timers && s.TimerAt(id).token in s.tokens
    requires GoesAside(p, s.TokenAt(s.TimerAt(id).token), s.TimerAt(id).element)
    ensures OpenFireTimer(p, s, id).Opened? && |p.Outgoing(s.TimerAt(id).element)| == 1
    ensures OpenFireTimer(p, s, id).At().s == Rearmed(s, id).Minted(1)
    ensures var f := p.OnlyFlow(s.TimerAt(id).element);
            OpenFireTimer(p, s, id).At().q == [Move(s.nextToken, p.Target(f), Some(f), s.TokenAt(s.TimerAt(id).token).scope)]
  {
    hide Inv, WellFormed, RearmCycle, Rearmed;
    TimerOwner(p, s, id);
    var timer := s.timers[id];
    AsideIsBoundary(p, s, id);
    HostArm(p, s.tokens[timer.token], timer.element);
    var m := Say(Idle(s.(timers := s.timers - {id})), TimerFired(id, timer.element)).(scope := s.tokens[timer.token].scope);
    RearmedIs(s, m, id);
  }

  lemma RearmedIs(s: Instance, m: Machine, id: TimerId)
    requires id in s.timers && m.s == s.(timers := s.timers - {id})
    ensures var m1 := RearmCycle(m, id, s.TimerAt(id)); m1.s == Rearmed(s, id) && m1.q == m.q && m1.scope == m.scope
    ensures Rearmed(s, id).nextToken == s.nextToken && Rearmed(s, id).tokens == s.tokens
  {
  }

  lemma AsideIsBoundary(p: Process, s: Instance, id: TimerId)
    requires WellFormed(p) && Inv(p, Idle(s), {}) && id in s.timers && s.TimerAt(id).token in s.tokens
    requires GoesAside(p, s.TokenAt(s.TimerAt(id).token), s.TimerAt(id).element)
    ensures var t := s.TokenAt(s.TimerAt(id).token);
            s.TimerAt(id).element in p.Boundaries(t.node) && t.node < |p.nodes| && t.wait != OnTimer(id)
  {
    TimerOwner(p, s, id);
  }

  // ---- repairs

  /** The document a repair leaves: with its patch merged, or its answer at the
      decision's path. */
  function RepairedDocument(p: Process, v: Value, resume: NodeIx, d: Disposition): Value {
    match d
    case Retry(patch) => Merged(v, patch)
    case AdvancePast(patch, None) => Merged(v, patch)
    case AdvancePast(_, Some(answer)) => Assign(v, p.ResultPath(resume), answer)
    case _ => v
  }

  /** The token leaves `b` by its one flow, in its own scope. */
  ghost predicate Leaves(p: Process, s: Instance, token: TokenId, b: NodeIx, q: seq<Move>) {
    token in s.tokens && |p.Outgoing(b)| == 1 && var f := p.OnlyFlow(b); q == [Move(token, p.Target(f), Some(f), s.tokens[token].scope)]
  }

  /** Somebody else is in the token's scope. */
  predicate Accompanied(s: Instance, token: TokenId) {
    exists t :: t in s.tokens && t != token && s.tokens[t].scope == s.TokenAt(token).scope
  }

  /** Who goes, and where: the cause into its resume point or past it; the nearest
      host that takes the code, out of that boundary; of an abandoned cause nobody, or
      the token its scope kept waiting where it was the last one there. */
  ghost predicate WayOn(p: Process, s: Instance, cause: TokenId, d: Disposition, token: TokenId, q: seq<Move>) {
    var scope := s.TokenAt(cause).scope;
    var resume := p.ResumePoint(s.TokenAt(cause).node);
    match d
    case Retry(_) => token == cause && q == [Move(cause, resume, None, scope)]
    case AdvancePast(_, _) => token == cause && Leaves(p, s, cause, resume, q)
    case Divert(code) =>
      var hosts := OutwardFrom(s.scopes, resume, cause, scope);
      exists i, b :: Lands(p, hosts, code, i, b) && token == hosts[i].0 && Leaves(p, s, token, b, q)
    case Abandon =>
      if scope == ROOT || Accompanied(s, cause) then token == cause && q == []
      else token == s.ScopeAt(scope).token && Leaves(p, s, token, s.ScopeAt(scope).element, q)
    case AbandonInstance => false
  }

  /** `token` is gone with all it holds, the instance active again, and nothing else
      has changed but the document. */
  ghost predicate Acted(s: Instance, token: TokenId, m: Machine) {
    token in s.tokens && m.s == Freed(s, token).(status := Active, variables := m.s.variables) && m.reask == []
  }

  lemma CauseActed(p: Process, s: Instance, cause: TokenId, m: Machine)
    requires FrozenOn(p, s, cause) && m.reask == []
    requires m.s == s.(status := Active, variables := m.s.variables, tokens := s.tokens - {cause})
    ensures Acted(s, cause, m)
  {
    hide Inv, Freed;
    FreedCause(p, s, cause);
  }

  lemma DivertWay(p: Process, s: Instance, cause: TokenId, m: Machine, code: Option<string>)
    requires WellFormed(p) && Acting(p, s, cause, m)
    requires Catcher(p, s.scopes, p.ResumePoint(s.TokenAt(cause).node), cause, s.TokenAt(cause).scope, code).Some?
    ensures var o := Disposed(p, m, cause, p.ResumePoint(s.TokenAt(cause).node), Divert(code));
            o.Ok? && o.m.s.variables == m.s.variables && exists token :: WayOn(p, s, cause, Divert(code), token, o.m.q) && Acted(s, token, o.m)
  {
    hide Inv, WellFormed, Freed, InterruptToBoundary, Catcher, Owned, GoesOn, Lands, OutwardFrom;
    ActingOwned(p, s, cause, m);
    var t := s.tokens[cause];
    var resume := p.ResumePoint(t.node);
    var i := Nearest(p, s.scopes, resume, cause, t.scope, code);
    CatcherGoesOn(p, s, resume, cause, t.scope, code);
    var caught := Catcher(p, s.scopes, resume, cause, t.scope, code).value;
    DivertIs(p, s, cause, m, caught.0, caught.1);
    assert Lands(p, OutwardFrom(s.scopes, resume, cause, t.scope), code, i, caught.1);
    assert WayOn(p, s, cause, Divert(code), caught.0, Disposed(p, m, cause, resume, Divert(code)).m.q);
  }

  lemma AbandonWay(p: Process, s: Instance, cause: TokenId, m: Machine)
    requires WellFormed(p) && SidePathsOk(p) && Acting(p, s, cause, m)
    requires !StrandsAJoin(p, s, cause, s.TokenAt(cause).scope, p.ResumePoint(s.TokenAt(cause).node))
    ensures var o := Disposed(p, m, cause, p.ResumePoint(s.TokenAt(cause).node), Abandon);
            o.Ok? && o.m.s.variables == m.s.variables && exists token :: WayOn(p, s, cause, Abandon, token, o.m.q) && Acted(s, token, o.m)
  {
    hide Inv, WellFormed, SidePathsOk, ScopeIsEmpty, StrandsAJoin, CompleteScope, GoesOn, Owned, Accompanied, Freed, ChildScopes;
    var scope := s.tokens[cause].scope;
    var m1 := Unpark(m, {cause});
    LeftEmpty(s, cause, m1);
    if scope != ROOT && ScopeIsEmpty(m1, scope) {
      ActingOwned(p, s, cause, m);
      InOpenScope(p, s, cause);
      var up := s.scopes[scope];
      ScopeOwner(p, s, scope);
      TokenIn(p, s, up.token);
      SubProcessGoesOn(p, s.tokens[up.token], up.token);
      CauseGone(p, s, cause, m, m1);
      CompletesSent(p, s, cause, m1, scope);
      CompletedVariables(p, m1, scope);
      assert WayOn(p, s, cause, Abandon, up.token, CompleteScope(p, m1, scope).m.q);
    } else {
      CauseActed(p, s, cause, m1);
      assert WayOn(p, s, cause, Abandon, cause, m1.q);
    }
  }

  lemma CompletedVariables(p: Process, m: Machine, scope: ScopeId)
    ensures var o := CompleteScope(p, m, scope); o.Ok? ==> o.m.s.variables == m.s.variables
  {
    hide Sorted;
  }

  lemma LeftEmpty(s: Instance, cause: TokenId, m1: Machine)
    requires m1.s.tokens == s.tokens - {cause} && m1.q == []
    ensures ScopeIsEmpty(m1, s.TokenAt(cause).scope) <==> !Accompanied(s, cause)
  {
    assert forall t :: t in m1.s.tokens <==> t in s.tokens && t != cause;
  }

  lemma InOpenScope(p: Process, s: Instance, cause: TokenId)
    requires FrozenOn(p, s, cause) && s.TokenAt(cause).scope != ROOT
    ensures s.TokenAt(cause).scope in s.scopes
  {
    assert TokenOk(p, s, cause, s.tokens[cause]);
  }

  lemma DisposedWay(p: Process, s: Instance, cause: TokenId, m: Machine, d: Disposition)
    requires WellFormed(p) && SidePathsOk(p) && Acting(p, s, cause, m) && !d.AbandonInstance?
    requires DispositionRefusal(p, s, cause, d).None?
    ensures var resume := p.ResumePoint(s.TokenAt(cause).node);
            var o := Disposed(p, m, cause, resume, d);
            && o.Ok? && o.m.s.variables == p.Bind(resume, d.Answer(), m.s.variables)
            && exists token :: WayOn(p, s, cause, d, token, o.m.q) && Acted(s, token, o.m)
  {
    hide Inv, WellFormed, SidePathsOk, Catcher, StrandsAJoin, InterruptToBoundary, CompleteScopeIfEmpty, Assign, Acted;
    var resume := p.ResumePoint(s.tokens[cause].node);
    match d
    case Retry(_) =>
      CauseActed(p, s, cause, Disposed(p, m, cause, resume, d).m);
      assert WayOn(p, s, cause, d, cause, Disposed(p, m, cause, resume, d).m.q);
    case AdvancePast(_, _) =>
      ResumeGoesOn(p, s, cause);
      CauseActed(p, s, cause, Disposed(p, m, cause, resume, d).m);
      assert WayOn(p, s, cause, d, cause, Disposed(p, m, cause, resume, d).m.q);
    case Divert(code) => DivertWay(p, s, cause, m, code);
    case Abandon => AbandonWay(p, s, cause, m);
  }

  /** Every halted move is queued again where it stood, in token order. */
  ghost predicate Requeued(left: Instance, moves: seq<Move>) {
    && (forall i :: 0 <= i < |moves| ==> left.TokenAt(moves[i].token) == Token(moves[i].node, moves[i].scope, Halted(InFlight(moves[i].via))))
    && (forall i, j :: 0 <= i < j < |moves| ==> moves[i].token < moves[j].token)
    && (forall t :: t in left.tokens && left.tokens[t].wait.InFlight() ==> exists mv :: mv in moves && mv.token == t)
  }

  /** Whoever is no halted move stays as they are; decisions that were pending wait, in
      token order, to be asked again. */
  ghost predicate Stay(left: Instance, o: Machine) {
    && o.s == left.(tokens := o.s.tokens)
    && (forall t :: t in o.s.tokens <==> t in left.tokens && !left.tokens[t].wait.InFlight())
    && (forall t :: t in o.s.tokens ==> o.s.tokens[t] == left.tokens[t])
    && Ascending(o.reask) && (forall t :: t in o.reask <==> t in left.tokens && left.tokens[t].wait == Halted(AwaitingDecision))
  }

  /** The way on first, then the collateral. */
  ghost predicate Follow(left: Instance, way: seq<Move>, o: Machine) {
    way <= o.q && Requeued(left, o.q[|way|..]) && Stay(left, o)
  }

  lemma MovesInOrder(s: Instance, ids: seq<TokenId>)
    requires Ascending(ids) && forall t :: t in ids <==> t in Flying(s)
    ensures Requeued(s, MovesOf(s, ids))
  {
    var moves := MovesOf(s, ids);
    forall i | 0 <= i < |moves| ensures moves[i].token in Flying(s) {
      assert ids[i] in ids;
    }
    forall t | t in s.tokens && s.TokenAt(t).wait.InFlight() ensures exists mv :: mv in moves && mv.token == t {
      assert t in Flying(s);
      var i :| 0 <= i < |ids| && ids[i] == t;
      assert moves[i] in moves;
    }
  }

  lemma OthersStay(m: Machine)
    requires m.reask == []
    ensures Stay(m.s, Collateral(m))
  {
    hide MovesOf, Sorted;
    assert [] + Sorted(Asking(m.s)) == Sorted(Asking(m.s));
  }

  lemma CollateralFollows(m: Machine)
    requires m.reask == []
    ensures Follow(m.s, m.q, Collateral(m))
  {
    hide Requeued, MovesOf, Sorted, Stay;
    var ids := Sorted(Flying(m.s));
    MovesInOrder(m.s, ids);
    assert (m.q + MovesOf(m.s, ids))[|m.q|..] == MovesOf(m.s, ids);
    OthersStay(m);
  }

  /** `token` goes the way of the disposition, the collateral follows, and the
      document is written. */
  ghost predicate GoesItsWay(p: Process, s: Instance, cause: TokenId, d: Disposition, token: TokenId, way: seq<Move>, m: Machine) {
    var doc := RepairedDocument(p, s.variables, p.ResumePoint(s.TokenAt(cause).node), d);
    token in s.tokens && WayOn(p, s, cause, d, token, way) && Follow(Freed(s, token).(status := Active, variables := doc), way, m)
  }

  /** An accepted repair: somebody goes the way its disposition names, with all it
      holds; the collateral follows; and the document is written. */
  lemma RepairSends(p: Process, s: Instance, incident: nat, d: Disposition, why: string)
    requires WellFormed(p) && SidePathsOk(p) && Resting(p, s) && !d.AbandonInstance?
    requires RepairRefusal(p, s, incident, d, why).None?
    ensures Causes(s) != {} && CauseOf(s) in s.tokens
    ensures var cause := CauseOf(s);
            var o := OpenRepair(p, s, incident, d, why);
            o.Opened? && exists token, way :: GoesItsWay(p, s, cause, d, token, way, o.At())
  {
    hide Inv, WellFormed, SidePathsOk, RepairRefusal, Causes, Patched, Disposed, Collateral, OpenRepair, WayOn, Assign, Sorted, Follow, Freed;
    RepairCauses(p, s, incident, d, why);
    var cause := CauseOf(s);
    var resume := p.ResumePoint(s.tokens[cause].node);
    RepairAccepted(p, s, incident, d, why);
    var m := Accepted(p, s, cause, incident, d, why);
    var m0 := Say(Idle(s), IncidentRepaired(incident, s.tokens[cause].node, d.Kind(), d.Code(), d.Answer(), why));
    PatchedVariables(m0, d.Patch());
    PatchedIs(m0, d.Patch());
    DisposedWay(p, s, cause, m, d);
    Documented(p, s, cause, d);
    var r := Disposed(p, m, cause, resume, d).m;
    var token :| WayOn(p, s, cause, d, token, r.q) && Acted(s, token, r);
    CollateralFollows(r);
    assert GoesItsWay(p, s, cause, d, token, r.q, Collateral(r));
    assert OpenRepair(p, s, incident, d, why) == Opened(Collateral(r));
    assert Opened(Collateral(r)).At() == Collateral(r);
  }

  lemma Documented(p: Process, s: Instance, cause: TokenId, d: Disposition)
    requires DispositionRefusal(p, s, cause, d).None?
    ensures var resume := p.ResumePoint(s.TokenAt(cause).node);
            p.Bind(resume, d.Answer(), Merged(s.variables, d.Patch())) == RepairedDocument(p, s.variables, resume, d)
  {
    hide Assign, Merge, Catcher;
  }

  lemma RepairCauses(p: Process, s: Instance, incident: nat, d: Disposition, why: string)
    requires Resting(p, s) && RepairRefusal(p, s, incident, d, why).None?
    ensures Causes(s) != {} && var cause := CauseOf(s);
              cause in s.tokens && FrozenOn(p, s, cause) && DispositionRefusal(p, s, cause, d).None?
  {
    hide Inv, DispositionRefusal;
    assert s.status.Failed?;
    CausesAre(p, s);
  }
}
