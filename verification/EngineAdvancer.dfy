/** The advancer as the engine runs it, over an instance it updates in place.
    Every method is the move of module Advance that its contract names. */
module EngineAdvancer {
  import opened Basics
  import opened Json
  import opened Compiled
  import opened State
  import opened Advance
  import opened Game
  import opened Invariant
  import opened Leaving
  import opened Running
  import opened EngineState

  class Advancer {
    const p: Process
    var queue: seq<Move>
    var events: seq<Event>
    var scope: ScopeId
    var reask: seq<TokenId>

    function View(state: InstanceState): Machine
      reads this, state
    {
      Machine(state.View(), queue, events, scope, reask)
    }

    constructor (p: Process)
      ensures this.p == p && queue == [] && events == [] && scope == ROOT && reask == []
    {
      this.p := p;
      queue, events, scope, reask := [], [], ROOT, [];
    }

    // ---- saying and leaving

    method ElementStarted(state: InstanceState, n: NodeIx)
      modifies this
      ensures View(state) == Started(old(View(state)), n)
    {
      events := events + [Event.ElementStarted(n)];
    }

    method ElementCompleted(state: InstanceState, n: NodeIx)
      modifies this
      ensures View(state) == Finished(old(View(state)), n)
    {
      events := events + [Event.ElementCompleted(n)];
    }

    method Leave(state: InstanceState, token: TokenId, flow: FlowIx)
      modifies this
      ensures View(state) == Advance.Leave(p, old(View(state)), token, flow)
    {
      events := events + [FlowTaken(flow)];
      queue := queue + [Move(token, p.Target(flow), Some(flow), scope)];
    }

    method LeaveSingle(state: InstanceState, token: TokenId, n: NodeIx) returns (ok: bool)
      modifies this
      ensures Became(Advance.LeaveSingle(p, old(View(state)), token, n), ok, View(state))
    {
      var outgoing := p.Outgoing(n);
      if |outgoing| != 1 { return false; }
      Leave(state, token, outgoing[0]);
      ok := true;
    }

    // ---- withdrawing

    method CancelWorkItem(state: InstanceState, id: ItemId) returns (found: bool)
      modifies this, state
      ensures found == (id in old(state.items))
      ensures !found ==> View(state) == old(View(state))
      ensures found ==> View(state) == CancelOne(old(View(state)), id)
    {
      if id !in state.items { return false; }
      var item := state.items[id];
      CloseOne(state.items, id);
      state.items := state.items[id := item.(open := false)];
      events := events + [WorkItemCancelled(id, item.element)];
      found := true;
    }

    method CancelWorkItems(state: InstanceState, ids: set<ItemId>)
      requires ids <= state.items.Keys
      modifies this, state
      ensures View(state) == CancelItems(old(View(state)), ids)
    {
      hide ItemsTo, ItemCancels, Sorted, CancelOne;
      ghost var was := View(state);
      var all := Sorted(ids);
      NothingYet(was, all);
      for i := 0 to |all|
        invariant View(state) == ItemsTo(was, all, i)
      {
        ItemsOn(was, all, i);
        var _ := CancelWorkItem(state, all[i]);
      }
      ItemsAll(was, ids);
    }

    method WithdrawTimers(state: InstanceState, ts: set<TimerId>)
      requires ts <= state.timers.Keys
      modifies this, state
      ensures View(state) == TimersTo(old(View(state)), Sorted(ts), |ts|)
    {
      hide TimersTo, TimerCancels, Sorted;
      ghost var was := View(state);
      var all := Sorted(ts);
      NothingYet(was, all);
      for i := 0 to |all|
        invariant View(state) == TimersTo(was, all, i)
      {
        TimersOn(was, all, i);
        var timer := state.timers[all[i]];
        state.timers := state.timers - {all[i]};
        events := events + [TimerCancelled(all[i], timer.element)];
      }
    }

    method WithdrawSubscriptions(state: InstanceState, us: set<SubId>)
      requires us <= state.subs.Keys
      modifies this, state
      ensures View(state) == SubsTo(old(View(state)), Sorted(us), |us|)
    {
      hide SubsTo, SubCancels, Sorted;
      ghost var was := View(state);
      var all := Sorted(us);
      NothingYet(was, all);
      for i := 0 to |all|
        invariant View(state) == SubsTo(was, all, i)
      {
        SubsOn(was, all, i);
        var sub := state.subs[all[i]];
        state.subs := state.subs - {all[i]};
        events := events + [SubscriptionCancelled(all[i], sub.element, sub.message)];
      }
    }

    /** Timers first, then subscriptions, each in id order: one token's or all. */
    method WithdrawArms(state: InstanceState, token: Option<TokenId>)
      modifies this, state
      ensures token.Some? ==> View(state) == Advance.WithdrawArms(old(View(state)), token.value)
      ensures token.None? ==> View(state) == Withdraw(old(View(state)), old(state.timers.Keys), old(state.subs.Keys))
    {
      hide TimersTo, SubsTo, TimerCancels, SubCancels, Sorted, Withdraw;
      ghost var was := View(state);
      var ts := set k | k in state.timers && (token.None? || state.timers[k].token == token.value);
      WithdrawTimers(state, ts);
      TimersLeaveSubs(was, Sorted(ts), |ts|);
      var us := set k | k in state.subs && (token.None? || state.subs[k].token == token.value);
      WithdrawSubscriptions(state, us);
      AllWithdrawn(was, ts, us);
      assert token.Some? ==> ts == was.s.TimersOf({token.value}) && us == was.s.SubsOf({token.value});
      assert token.None? ==> ts == was.s.timers.Keys && us == was.s.subs.Keys;
    }

    // ---- tearing a scope down

    /** Every token of the scope's subtree goes, with its open work and its arms. */
    method TearDownScope(state: InstanceState, scope: ScopeId)
      requires state.Nested()
      modifies this, state
      ensures View(state) == TearDown(old(View(state)), scope)
    {
      hide Reaped, ReapEvents, ReapedTo, Sorted, Subtree, Spared, CancelItems, Advance.WithdrawArms;
      ghost var was := View(state);
      var list := state.ScopeSubtree(scope);
      var doomed := set c | c in list;
      assert doomed == Subtree(was.s.scopes, scope);
      queue := Spared(queue, doomed);
      var tokens := Sorted(set t | t in state.tokens && state.tokens[t].scope in doomed);
      assert tokens == Sorted(was.s.TokensWithin(doomed));
      ghost var start := View(state);
      NobodyReaped(start, tokens);
      for i := 0 to |tokens|
        invariant View(state) == ReapedTo(start, tokens, i)
      {
        ReapedOn(start, tokens, i);
        var open := set w | w in state.items && state.items[w].open && state.items[w].token == tokens[i];
        assert open == View(state).s.OpenItemsOf({tokens[i]});
        CancelWorkItems(state, open);
        WithdrawArms(state, Some(tokens[i]));
        state.tokens := state.tokens - {tokens[i]};
      }
      ReapedAll(start, was.s.TokensWithin(doomed));
      state.scopes := map c | c in state.scopes && (c == scope || c !in doomed) :: state.scopes[c];
      assert state.scopes == was.s.scopes - (doomed - {scope});
    }

    // ---- the freeze

    /** A sibling parked on a decision freezes with everything else. */
    method HaltPending(state: InstanceState)
      modifies state
      ensures state.View() == old(state.View()).(tokens := HaltDecisions(old(state.tokens)))
    {
      ghost var was := state.tokens;
      var ids := set t | t in state.tokens && state.tokens[t].wait.OnDecision?;
      var pending := Sorted(ids);
      hide Sorted, Ascending;
      assert HaltedTo(was, pending[..0]) == was;
      for i := 0 to |pending|
        invariant state.View() == old(state.View()).(tokens := HaltedTo(was, pending[..i]))
      {
        HaltedOn(was, pending, i);
        state.tokens := state.tokens[pending[i] := HaltDecision(state.tokens[pending[i]])];
      }
      assert pending[..|pending|] == pending;
      PendingHalted(was, pending);
    }

    /** A sibling in transit is parked at its target, with the flow it was on. */
    method HaltMoves(state: InstanceState)
      modifies this, state
      ensures View(state) == old(View(state)).(s := old(state.View()).(tokens := old(state.tokens) + InFlightTokens(old(queue))), q := [])
    {
      hide InFlightTokens;
      ghost var was := state.tokens;
      var moves := queue;
      queue := [];
      NoneInFlight(moves[..0]);
      assert was + map[] == was;
      for i := 0 to |moves|
        invariant View(state) == old(View(state)).(s := old(state.View()).(tokens := was + InFlightTokens(moves[..i])), q := [])
      {
        var mv := moves[i];
        assert moves[..i + 1] == moves[..i] + [mv];
        InFlightPush(moves[..i], mv);
        state.tokens := state.tokens[mv.token := Token(mv.node, mv.scope, Halted(InFlight(mv.via)))];
        assert state.tokens == was + InFlightTokens(moves[..i + 1]);
      }
      assert moves[..|moves|] == moves;
    }

    /** Withdraw what the token holds; a scope it waits on goes with it. */
    method Strip(state: InstanceState, token: TokenId)
      requires state.Nested()
      modifies this, state
      ensures View(state) == Stripped(old(View(state)), token)
    {
      hide Advance.WithdrawArms, CancelItems, TearDown;
      ghost var was := View(state);
      WithdrawArms(state, Some(token));
      var open := set w | w in state.items && state.items[w].open && state.items[w].token == token;
      assert open == View(state).s.OpenItemsOf({token});
      KeepsScopes(was, token, Advance.WithdrawArms(was, token), open);
      CancelWorkItems(state, open);
      if token in state.tokens && state.tokens[token].wait.OnScope? {
        var child := state.tokens[token].wait.child;
        TearDownScope(state, child);
        state.scopes := state.scopes - {child};
      }
    }

    /** Withdraw, park the cause, halt the rest: nothing advances, nothing vanishes. */
    method Freeze(state: InstanceState, token: TokenId, element: NodeIx, code: Option<string>, detail: Option<string>)
      requires state.Nested()
      modifies this, state
      ensures View(state) == Advance.Freeze(old(View(state)), token, element, code, detail)
    {
      hide Stripped, HaltDecisions, InFlightTokens;
      Strip(state, token);
      var at := if token in state.tokens then state.tokens[token].scope else scope;
      state.tokens := state.tokens[token := Token(element, at, AtIncident)];
      HaltPending(state);
      HaltMoves(state);
      state.status := Failed;
      var incident := state.AllocIncident();
      events := events + [IncidentRaised(element, code, detail, incident)];
    }

    // ---- arming

    method RecordTimer(state: InstanceState, token: TokenId, element: NodeIx, due: TimerDue,
                       remaining: Option<nat>, continues: Option<TimerId>)
      returns (id: TimerId)
      modifies this, state
      ensures View(state) == Advance.RecordTimer(old(View(state)), token, element, due, remaining, continues)
      ensures id == old(state.nextTimer)
    {
      id := state.AllocTimer(Timer(element, token, due, remaining));
      events := events + [TimerArmed(id, element, due, token, continues, remaining)];
    }

    method ArmTimer(state: InstanceState, token: TokenId, element: NodeIx, source: TimerSource)
      returns (armed: Option<TimerId>)
      requires state.Nested()
      modifies this, state
      ensures Armed(Advance.ArmTimer(p, old(View(state)), token, element, source), armed, old(state.nextTimer), View(state))
    {
      var due := p.Resolve(source, state.variables);
      if due.None? {
        events := events + [TimerResolveFailed(element)];
        Freeze(state, token, element, None, None);
        return None;
      }
      var remaining := if due.value.Cycle? then p.repeats(due.value.text) else None;
      var id := RecordTimer(state, token, element, due.value, remaining, None);
      armed := Some(id);
    }

    method Subscribe(state: InstanceState, token: TokenId, element: NodeIx)
      returns (armed: Option<SubId>)
      requires state.Nested()
      modifies this, state
      ensures Armed(Advance.Subscribe(p, old(View(state)), token, element), armed, old(state.nextSub), View(state))
    {
      hide ArmKey, Advance.Freeze;
      match ArmKey(p, state.View(), state.variables, element, None)
      case Unusable =>
        events := events + [CorrelationFailed(element)];
        Freeze(state, token, element, None, None);
        armed := None;
      case Duplicate(message, key) =>
        events := events + [DuplicateSubscription(element, message, key)];
        Freeze(state, token, element, None, None);
        armed := None;
      case Key(message, key) =>
        var id := state.AllocSubscription(Sub(element, token, message, key));
        events := events + [MessageSubscribed(id, element, message, key, token)];
        armed := Some(id);
    }

    /** A boundary that is armed: the compiler lists no other. */
    method ArmBoundary(state: InstanceState, token: TokenId, b: NodeIx) returns (ok: bool)
      requires state.Nested() && (p.KindOf(b).TimerBoundary? || p.KindOf(b).MessageBoundary?)
      modifies this, state
      ensures var a := Arm(p, old(View(state)), token, b); View(state) == a.m && ok == a.ok
    {
      match p.KindOf(b)
      case TimerBoundary(due, _) =>
        var armed := ArmTimer(state, token, b, due);
        ok := armed.Some?;
      case MessageBoundary(_, _, _) =>
        var armed := Subscribe(state, token, b);
        ok := armed.Some?;
    }

    /** In declaration order, stopping at the first that cannot be armed. */
    method ArmBoundaries(state: InstanceState, token: TokenId, host: NodeIx) returns (ok: bool)
      requires state.Nested() && BoundariesArmable(p)
      modifies this, state
      ensures var a := ArmAll(p, old(View(state)), token, p.Boundaries(host)); View(state) == a.m && ok == a.ok
    {
      hide Arm;
      ghost var all := ArmAll(p, View(state), token, p.Boundaries(host));
      var boundaries := p.Boundaries(host);
      for i := 0 to |boundaries|
        invariant state.Nested() && ArmAll(p, View(state), token, boundaries[i..]) == all
      {
        assert boundaries[i..][0] == boundaries[i] && boundaries[i..][1..] == boundaries[i + 1..];
        ArmKeepsScopes(p, View(state), token, boundaries[i]);
        var armed := ArmBoundary(state, token, boundaries[i]);
        if !armed { return false; }
      }
      ok := true;
    }

    /** A cycle fired: its next occurrence, unless that was the last. */
    method RearmCycle(state: InstanceState, fired: TimerId, timer: Timer)
      modifies this, state
      ensures View(state) == Advance.RearmCycle(old(View(state)), fired, timer)
    {
      if !timer.due.Cycle? { return; }
      var left := match timer.remaining
        case None => None
        case Some(r) => Some(if r == 0 then 0 else r - 1);
      if left == Some(0) { return; }
      var _ := RecordTimer(state, timer.token, timer.element, timer.due, left, Some(fired));
    }

    // ---- completing a scope

    /** No token of the scope remains, parked or in flight. */
    method IsEmpty(state: InstanceState, scope: ScopeId) returns (empty: bool)
      ensures empty == ScopeIsEmpty(View(state), scope)
    {
      empty := (forall t :: t in state.tokens ==> state.tokens[t].scope != scope)
        && (forall i :: 0 <= i < |queue| ==> queue[i].scope != scope);
    }

    method CompleteScope(state: InstanceState, scope: ScopeId) returns (ok: bool)
      modifies this, state
      ensures Became(Advance.CompleteScope(p, old(View(state)), scope), ok, View(state))
    {
      hide Advance.WithdrawArms, Advance.LeaveSingle;
      if scope !in state.scopes { return false; }
      var closed := state.scopes[scope];
      state.scopes := state.scopes - {scope};
      WithdrawArms(state, Some(closed.token));
      ElementCompleted(state, closed.element);
      if closed.token !in state.tokens { return false; }
      state.tokens := state.tokens - {closed.token};
      // The parent goes on in its own scope, not in the one that closed.
      this.scope := closed.parent;
      ok := LeaveSingle(state, closed.token, closed.element);
    }

    method CompleteScopeIfEmpty(state: InstanceState, scope: ScopeId) returns (ok: bool)
      modifies this, state
      ensures Became(Advance.CompleteScopeIfEmpty(p, old(View(state)), scope), ok, View(state))
    {
      hide Advance.CompleteScope, ScopeIsEmpty;
      if scope == ROOT { return true; }
      var empty := IsEmpty(state, scope);
      if !empty { return true; }
      ok := CompleteScope(state, scope);
    }

    method Terminate(state: InstanceState)
      modifies this, state
      ensures View(state) == Advance.Terminate(old(View(state)))
    {
      hide Withdraw, Closed, ItemCancels, Sorted, TimerCancels, SubCancels;
      var open := set i | i in state.items && state.items[i].open;
      CancelWorkItems(state, open);
      WithdrawArms(state, None);
      state.tokens, state.scopes := map[], map[];
      queue := [];
      state.status := Status.Terminated;
      events := events + [InstanceTerminated];
    }

    // ---- boundaries and races

    method InterruptToBoundary(state: InstanceState, token: TokenId, boundary: NodeIx) returns (ok: bool)
      requires state.Nested()
      modifies this, state
      ensures Became(Advance.InterruptToBoundary(p, old(View(state)), token, boundary), ok, View(state))
    {
      hide TearDown, Advance.WithdrawArms, Advance.LeaveSingle;
      if token !in state.tokens { return false; }
      var parked := state.tokens[token];
      state.tokens := state.tokens - {token};
      if parked.wait.OnScope? {
        TearDownScope(state, parked.wait.child);
        state.scopes := state.scopes - {parked.wait.child};
      }
      scope := parked.scope;
      WithdrawArms(state, Some(token));
      ElementStarted(state, boundary);
      ElementCompleted(state, boundary);
      ok := LeaveSingle(state, token, boundary);
    }

    /** End the host's own wait, then take the boundary path. */
    method InterruptHost(state: InstanceState, token: TokenId, boundary: NodeIx) returns (ok: bool)
      requires state.Nested()
      modifies this, state
      ensures Became(Advance.InterruptHost(p, old(View(state)), token, boundary), ok, View(state))
    {
      hide Advance.InterruptToBoundary;
      if token !in state.tokens { return false; }
      match state.tokens[token].wait
      case OnItem(item) =>
        var found := CancelWorkItem(state, item);
        if !found { return false; }
        ok := InterruptToBoundary(state, token, boundary);
      case OnMessage(sub) =>
        if sub !in state.subs { return false; }
        WithdrawOne(View(state), sub);
        var own := state.subs[sub];
        state.subs := state.subs - {sub};
        events := events + [SubscriptionCancelled(sub, own.element, own.message)];
        ok := InterruptToBoundary(state, token, boundary);
      case OnScope(_) =>
        ok := InterruptToBoundary(state, token, boundary);
      case _ =>
        ok := false;
    }

    method SpawnSideToken(state: InstanceState, boundary: NodeIx) returns (ok: bool)
      modifies this, state
      ensures Became(Advance.SpawnSideToken(p, old(View(state)), boundary), ok, View(state))
    {
      hide Advance.LeaveSingle;
      var sibling := state.NextTokenId();
      ElementStarted(state, boundary);
      ElementCompleted(state, boundary);
      ok := LeaveSingle(state, sibling, boundary);
    }

    /** Complete the gateway and walk past the winner: entering it would arm it again. */
    method TakeGatewayPath(state: InstanceState, token: TokenId, gateway: NodeIx, winner: NodeIx) returns (ok: bool)
      modifies this, state
      ensures Became(Advance.TakeGatewayPath(p, old(View(state)), token, gateway, winner), ok, View(state))
    {
      hide Advance.LeaveSingle;
      state.tokens := state.tokens - {token};
      ElementCompleted(state, gateway);
      var flow := FlowTo(p, p.Outgoing(gateway), winner);
      if flow.None? { return false; }
      events := events + [FlowTaken(flow.value)];
      ElementStarted(state, winner);
      ElementCompleted(state, winner);
      ok := LeaveSingle(state, token, winner);
    }

    // ---- joins

    /** The first token parked at join `n` of `scope` on `flow`. */
    method Arrived(state: InstanceState, n: NodeIx, scope: ScopeId, flow: FlowIx) returns (first: Option<TokenId>)
      ensures first.None? <==> ArrivedOn(state.View(), n, scope, flow) == {}
      ensures first.Some? ==> ArrivedOn(state.View(), n, scope, flow) != {} && first.value == Sorted(ArrivedOn(state.View(), n, scope, flow))[0]
    {
      var ids := Sorted(state.tokens.Keys);
      ghost var arrived := ArrivedOn(state.View(), n, scope, flow);
      for i := 0 to |ids|
        invariant forall j :: 0 <= j < i ==> ids[j] !in arrived
      {
        if WaitsAt(state.tokens[ids[i]], n, scope, flow) {
          FirstIsLeast(ids, i, arrived);
          return Some(ids[i]);
        }
      }
      forall t | t in arrived ensures t in ids {
      }
      first := None;
    }

    /** One token of every incoming flow, or nothing. */
    method Gathered(state: InstanceState, n: NodeIx, scope: ScopeId) returns (all: Option<seq<TokenId>>)
      ensures all.Some? <==> AllArrived(p, state.View(), n, scope)
      ensures all.Some? ==> Ids(all.value) == Consumed(p, state.View(), n, scope)
    {
      var incoming := p.Incoming(n);
      var ids: seq<TokenId> := [];
      ghost var s := state.View();
      for i := 0 to |incoming|
        invariant |ids| == i
        invariant forall j :: 0 <= j < i ==> ArrivedOn(s, n, scope, incoming[j]) != {} && ids[j] == Sorted(ArrivedOn(s, n, scope, incoming[j]))[0]
      {
        var first := Arrived(state, n, scope, incoming[i]);
        if first.None? { return None; }
        ids := ids + [first.value];
      }
      GatheredAll(p, s, n, scope, ids);
      all := Some(ids);
    }

    method EnterJoin(state: InstanceState, token: TokenId, n: NodeIx, via: Option<FlowIx>) returns (ok: bool)
      requires |p.Incoming(n)| > 0
      modifies this, state
      ensures Became(Advance.EnterJoin(p, old(View(state)), token, n, via), ok, View(state))
    {
      hide ArrivedOn, AllArrived, Consumed, Advance.LeaveSingle, Ids, Sorted;
      if via.None? { return false; }
      var first := Arrived(state, n, scope, via.value);
      if first.Some? { return false; }
      state.tokens := state.tokens[token := Token(n, scope, AtJoin(via.value))];
      var parked := Gathered(state, n, scope);
      if parked.None? { return true; }
      RemoveAll(state, parked.value);
      ElementStarted(state, n);
      ElementCompleted(state, n);
      var continuation := state.NextTokenId();
      ok := LeaveSingle(state, continuation, n);
    }

    method RemoveAll(state: InstanceState, ids: seq<TokenId>)
      modifies state
      ensures state.View() == old(state.View()).(tokens := old(state.tokens) - Ids(ids))
    {
      ghost var was := state.tokens;
      assert was - Ids(ids[..0]) == was;
      for i := 0 to |ids|
        invariant state.View() == old(state.View()).(tokens := was - Ids(ids[..i]))
      {
        assert ids[..i + 1] == ids[..i] + [ids[i]];
        assert was - Ids(ids[..i]) - {ids[i]} == was - Ids(ids[..i + 1]);
        state.tokens := state.tokens - {ids[i]};
      }
      assert ids[..|ids|] == ids;
    }

    // ---- entering a node

    method EnterDecision(state: InstanceState, token: TokenId, n: NodeIx, decision: string)
      modifies this, state
      ensures View(state) == Advance.EnterDecision(p, old(View(state)), token, n, decision)
    {
      ElementStarted(state, n);
      state.tokens := state.tokens[token := Token(n, scope, OnDecision)];
      events := events + [DecisionRequested(n, decision)];
    }

    method EnterTask(state: InstanceState, token: TokenId, n: NodeIx, work: WorkKind, topic: string)
      requires state.Nested() && BoundariesArmable(p)
      modifies this, state
      ensures View(state) == Advance.EnterTask(p, old(View(state)), token, n, work, topic)
    {
      hide ArmAll;
      ElementStarted(state, n);
      var item := state.AllocWorkItem(Item(n, token, work, topic, true));
      state.tokens := state.tokens[token := Token(n, scope, OnItem(item))];
      events := events + [WorkItemCreated(item, n, work, topic)];
      var _ := ArmBoundaries(state, token, n);
    }

    method EnterTimerCatch(state: InstanceState, token: TokenId, n: NodeIx, due: TimerSource)
      requires state.Nested()
      modifies this, state
      ensures View(state) == Advance.EnterTimerCatch(p, old(View(state)), token, n, due)
    {
      hide Advance.ArmTimer;
      ElementStarted(state, n);
      var id := ArmTimer(state, token, n, due);
      if id.Some? {
        state.tokens := state.tokens[token := Token(n, scope, OnTimer(id.value))];
      }
    }

    method EnterMessageCatch(state: InstanceState, token: TokenId, n: NodeIx)
      requires state.Nested() && BoundariesArmable(p)
      modifies this, state
      ensures View(state) == Advance.EnterMessageCatch(p, old(View(state)), token, n)
    {
      hide Advance.Subscribe, ArmAll;
      SubscribeKeepsScopes(p, Started(View(state), n), token, n);
      ElementStarted(state, n);
      var id := Subscribe(state, token, n);
      if id.Some? {
        state.tokens := state.tokens[token := Token(n, scope, OnMessage(id.value))];
        var _ := ArmBoundaries(state, token, n);
      }
    }

    /** Every alternative is armed on the gateway's token, in declaration order. */
    method EnterEventGateway(state: InstanceState, token: TokenId, n: NodeIx) returns (ok: bool)
      requires state.Nested()
      modifies this, state
      ensures Became(Advance.EnterEventGateway(p, old(View(state)), token, n), ok, View(state))
    {
      hide Arm;
      ElementStarted(state, n);
      state.tokens := state.tokens[token := Token(n, scope, AtEventGateway)];
      var outgoing := p.Outgoing(n);
      ghost var targets := Targets(p, outgoing);
      ghost var all := ArmAlternatives(p, View(state), token, targets);
      for i := 0 to |outgoing|
        invariant state.Nested() && ArmAlternatives(p, View(state), token, targets[i..]) == all
      {
        var target := p.Target(outgoing[i]);
        assert targets[i..][0] == target && targets[i..][1..] == targets[i + 1..];
        ArmKeepsScopes(p, View(state), token, target);
        if !p.IsCatch(target) { return false; }
        var armed := ArmAlternative(state, token, target);
        if !armed { return true; }
      }
      ok := true;
    }

    method ArmAlternative(state: InstanceState, token: TokenId, target: NodeIx) returns (ok: bool)
      requires state.Nested() && p.IsCatch(target)
      modifies this, state
      ensures var a := Arm(p, old(View(state)), token, target); View(state) == a.m && ok == a.ok
    {
      match p.KindOf(target)
      case TimerCatch(due) =>
        var armed := ArmTimer(state, token, target, due);
        ok := armed.Some?;
      case MessageCatch(_, _) =>
        var armed := Subscribe(state, token, target);
        ok := armed.Some?;
    }

    /** The token parks on a fresh scope, and one starts inside it. */
    method EnterSubProcess(state: InstanceState, token: TokenId, n: NodeIx, body: ScopeIx)
      requires state.Nested() && BoundariesArmable(p) && scope < state.nextScope
      modifies this, state
      ensures View(state) == Advance.EnterSubProcess(p, old(View(state)), token, n, body)
    {
      hide ArmAll;
      ElementStarted(state, n);
      var child := state.AllocScope(Scope(n, scope, token));
      state.tokens := state.tokens[token := Token(n, scope, OnScope(child))];
      var armed := ArmBoundaries(state, token, n);
      if !armed { return; }
      var inner := state.NextTokenId();
      queue := queue + [Move(inner, p.ScopeStart(body), None, child)];
    }

    method EnterExclusive(state: InstanceState, token: TokenId, n: NodeIx, defaultFlow: Option<FlowIx>) returns (ok: bool)
      modifies this, state
      ensures Became(Advance.EnterExclusive(p, old(View(state)), token, n, defaultFlow), ok, View(state))
    {
      ElementStarted(state, n);
      var outgoing := p.Outgoing(n);
      var chosen := Some(0);
      if |outgoing| == 1 {
        chosen := Some(outgoing[0]);
      } else {
        chosen := FirstCondition(state, outgoing, defaultFlow);
      }
      if chosen.None? { return false; }
      ElementCompleted(state, n);
      Leave(state, token, chosen.value);
      ok := true;
    }

    /** The first flow whose condition holds, else the default. */
    method FirstCondition(state: InstanceState, flows: seq<FlowIx>, defaultFlow: Option<FlowIx>) returns (f: Option<FlowIx>)
      ensures f == FirstHolding(p, flows, defaultFlow, state.variables)
    {
      for i := 0 to |flows|
        invariant FirstHolding(p, flows[i..], defaultFlow, state.variables) == FirstHolding(p, flows, defaultFlow, state.variables)
      {
        assert flows[i..][0] == flows[i] && flows[i..][1..] == flows[i + 1..];
        if Some(flows[i]) != defaultFlow && Holds(p, flows[i], state.variables) { return Some(flows[i]); }
      }
      f := defaultFlow;
    }

    /** One fresh token on each outgoing flow, in declaration order. */
    method Split(state: InstanceState, n: NodeIx)
      modifies this, state
      ensures View(state) == ForkOn(p, Finished(Started(old(View(state)), n), n), p.Outgoing(n))
    {
      ElementStarted(state, n);
      ElementCompleted(state, n);
      var outgoing := p.Outgoing(n);
      ghost var all := ForkOn(p, View(state), outgoing);
      for i := 0 to |outgoing|
        invariant ForkOn(p, View(state), outgoing[i..]) == all
      {
        assert outgoing[i..][0] == outgoing[i] && outgoing[i..][1..] == outgoing[i + 1..];
        var child := state.NextTokenId();
        Leave(state, child, outgoing[i]);
      }
    }

    method EnterTerminateEnd(state: InstanceState, n: NodeIx) returns (ok: bool)
      requires state.Nested()
      modifies this, state
      ensures Became(Advance.EnterTerminateEnd(p, old(View(state)), n), ok, View(state))
    {
      hide TearDown, Advance.CompleteScope, Advance.Terminate;
      ElementStarted(state, n);
      ElementCompleted(state, n);
      if scope != ROOT {
        var ending := scope;
        TearDownScope(state, ending);
        ok := CompleteScope(state, ending);
      } else {
        Terminate(state);
        ok := true;
      }
    }

    method Enter(state: InstanceState, token: TokenId, n: NodeIx, via: Option<FlowIx>) returns (ok: bool)
      requires state.Nested() && BoundariesArmable(p) && scope < state.nextScope
      modifies this, state
      ensures Became(Advance.Enter(p, old(View(state)), token, n, via), ok, View(state))
    {
      hide Advance.EnterDecision, Advance.EnterTask, Advance.EnterTimerCatch, Advance.EnterMessageCatch, Advance.EnterEventGateway,
           Advance.EnterSubProcess, Advance.EnterExclusive, Advance.EnterJoin, Advance.EnterTerminateEnd, Advance.CompleteScopeIfEmpty,
           Advance.LeaveSingle, ForkOn;
      match p.KindOf(n)
      case Start =>
        ElementStarted(state, n);
        ElementCompleted(state, n);
        ok := LeaveSingle(state, token, n);
      case BusinessRule(decision, _) =>
        EnterDecision(state, token, n, decision);
        ok := true;
      case Task(work, topic) =>
        EnterTask(state, token, n, work, topic);
        ok := true;
      case TimerCatch(due) =>
        EnterTimerCatch(state, token, n, due);
        ok := true;
      case MessageCatch(_, _) =>
        EnterMessageCatch(state, token, n);
        ok := true;
      case EventBasedGateway =>
        ok := EnterEventGateway(state, token, n);
      case SubProcess(body) =>
        EnterSubProcess(state, token, n, body);
        ok := true;
      case ExclusiveGateway(defaultFlow) =>
        ok := EnterExclusive(state, token, n, defaultFlow);
      case ParallelGateway =>
        if |p.Incoming(n)| > 1 {
          ok := EnterJoin(state, token, n, via);
        } else {
          Split(state, n);
          ok := true;
        }
      case End =>
        ElementStarted(state, n);
        ElementCompleted(state, n);
        ok := CompleteScopeIfEmpty(state, scope);
      case TerminateEnd =>
        ok := EnterTerminateEnd(state, n);
      // Lint lets no flow lead to a boundary.
      case TimerBoundary(_, _) => ok := false;
      case MessageBoundary(_, _, _) => ok := false;
      case ErrorBoundary(_) => ok := false;
    }

    // ---- running

    /** Halted decisions are asked again, once the moves of a repair have settled. */
    method AskAgain(state: InstanceState)
      modifies this, state
      ensures View(state) == Reask(p, old(View(state)), old(reask)).(reask := [])
    {
      var ids := reask;
      reask := [];
      ghost var all := Reask(p, View(state), ids);
      for i := 0 to |ids|
        invariant reask == [] && Reask(p, View(state), ids[i..]) == all
      {
        assert ids[i..][0] == ids[i] && ids[i..][1..] == ids[i + 1..];
        if ids[i] in state.tokens {
          var t := state.tokens[ids[i]];
          state.tokens := state.tokens[ids[i] := t.(wait := OnDecision)];
          if p.KindOf(t.node).BusinessRule? {
            events := events + [DecisionRequested(t.node, p.KindOf(t.node).decision)];
          }
        }
      }
      ReaskIgnores(p, old(View(state)), ids);
    }

    /** The queue is run down, if `fuel` moves do it; then the halted decisions, then
        completion. The loop of the source has no such limit: it may never end. */
    method Run(state: InstanceState, fuel: nat) returns (ok: bool, rests: bool)
      requires Linted(p) && Inv(p, View(state), {})
      modifies this, state
      ensures ok && (rests <==> EndsIn(p, old(View(state)), fuel))
      ensures rests ==> View(state) == Running.Run(p, old(View(state))) && Resting(p, state.View())
      ensures !rests ==> Advanced(p, old(View(state)), fuel) == Outcome.Ok(View(state))
    {
      hide Inv, WellFormed, Certified, SidePathsOk, Linted, Drain, Advance.Enter, Reask, Advanced, Ends;
      ArmableIn(p);
      ghost var was := View(state);
      var left := fuel;
      while queue != [] && left > 0
        invariant Inv(p, View(state), {}) && Advanced(p, View(state), left) == Advanced(p, was, fuel)
        decreases left
      {
        QueuedIsActive(p, View(state));
        HeadFits(p, View(state));
        AdvancedOn(p, View(state), left);
        left := left - 1;
        var mv := queue[0];
        queue := queue[1..];
        if state.status != Active { break; }
        scope := mv.scope;
        ok := Enter(state, mv.token, mv.node, mv.via);
        if !ok { return; }
      }
      AdvancedDone(p, View(state), left);
      if queue != [] { return true, false; }
      DrainIs(p, was, fuel);
      SettleRests(p, View(state));
      if state.status == Active {
        AskAgain(state);
        if state.tokens == map[] {
          state.status := Status.Completed;
          events := events + [InstanceCompleted];
        }
      }
      ok, rests := true, true;
    }
  }

  /** What a method made of an outcome: the machine it names, or the error. */
  ghost predicate Became(o: Outcome, ok: bool, m: Machine) {
    ok == o.Ok? && (ok ==> m == o.m)
  }

  // ---- one at a time

  function CancelOne(m: Machine, id: ItemId): Machine
    requires id in m.s.items
  {
    Say(m.(s := m.s.(items := Closed(m.s.items, {id}))), WorkItemCancelled(id, m.s.items[id].element))
  }

  lemma CloseOne(items: map<ItemId, Item>, id: ItemId)
    requires id in items
    ensures Closed(items, {id}) == items[id := items[id].(open := false)]
  {
  }

  function Ids(ids: seq<nat>): set<nat> { set k | k in ids }

  lemma FirstOf(ids: seq<nat>, i: nat)
    requires i < |ids| && Ascending(ids)
    ensures ids[..i + 1] == ids[..i] + [ids[i]] && ids[i] !in Ids(ids[..i])
    ensures Ids(ids[..i + 1]) == Ids(ids[..i]) + {ids[i]}
  {
  }

  /** The first `i` work items cancelled, in order. */
  function ItemsTo(m: Machine, ids: seq<ItemId>, i: nat): Machine
    requires i <= |ids| && forall k :: k in ids ==> k in m.s.items
  {
    m.(s := m.s.(items := Closed(m.s.items, Ids(ids[..i]))), ev := m.ev + ItemCancels(m.s.items, ids[..i]))
  }

  lemma ItemsOn(m: Machine, ids: seq<ItemId>, i: nat)
    requires i < |ids| && Ascending(ids) && forall k :: k in ids ==> k in m.s.items
    ensures ids[i] in ItemsTo(m, ids, i).s.items && CancelOne(ItemsTo(m, ids, i), ids[i]) == ItemsTo(m, ids, i + 1)
  {
    FirstOf(ids, i);
    assert ItemCancels(m.s.items, ids[..i + 1]) == ItemCancels(m.s.items, ids[..i]) + [WorkItemCancelled(ids[i], m.s.items[ids[i]].element)];
    assert Closed(Closed(m.s.items, Ids(ids[..i])), {ids[i]}) == Closed(m.s.items, Ids(ids[..i + 1]));
  }

  function TimersTo(m: Machine, ids: seq<TimerId>, i: nat): Machine
    requires i <= |ids| && forall k :: k in ids ==> k in m.s.timers
  {
    m.(s := m.s.(timers := m.s.timers - Ids(ids[..i])), ev := m.ev + TimerCancels(m.s.timers, ids[..i]))
  }

  lemma TimersOn(m: Machine, ids: seq<TimerId>, i: nat)
    requires i < |ids| && Ascending(ids) && forall k :: k in ids ==> k in m.s.timers
    ensures var a, b := TimersTo(m, ids, i), TimersTo(m, ids, i + 1);
            && ids[i] in a.s.timers && a.s.timers[ids[i]] == m.s.timers[ids[i]]
            && b == a.(s := a.s.(timers := a.s.timers - {ids[i]}), ev := a.ev + [TimerCancelled(ids[i], m.s.timers[ids[i]].element)])
  {
    FirstOf(ids, i);
    assert TimerCancels(m.s.timers, ids[..i + 1]) == TimerCancels(m.s.timers, ids[..i]) + [TimerCancelled(ids[i], m.s.timers[ids[i]].element)];
    assert m.s.timers - Ids(ids[..i]) - {ids[i]} == m.s.timers - Ids(ids[..i + 1]);
  }

  function SubsTo(m: Machine, ids: seq<SubId>, i: nat): Machine
    requires i <= |ids| && forall k :: k in ids ==> k in m.s.subs
  {
    m.(s := m.s.(subs := m.s.subs - Ids(ids[..i])), ev := m.ev + SubCancels(m.s.subs, ids[..i]))
  }

  lemma SubsOn(m: Machine, ids: seq<SubId>, i: nat)
    requires i < |ids| && Ascending(ids) && forall k :: k in ids ==> k in m.s.subs
    ensures var a, b := SubsTo(m, ids, i), SubsTo(m, ids, i + 1);
            var sub := m.s.subs[ids[i]];
            && ids[i] in a.s.subs && a.s.subs[ids[i]] == sub
            && b == a.(s := a.s.(subs := a.s.subs - {ids[i]}), ev := a.ev + [SubscriptionCancelled(ids[i], sub.element, sub.message)])
  {
    FirstOf(ids, i);
    var sub := m.s.subs[ids[i]];
    assert SubCancels(m.s.subs, ids[..i + 1]) == SubCancels(m.s.subs, ids[..i]) + [SubscriptionCancelled(ids[i], sub.element, sub.message)];
    assert m.s.subs - Ids(ids[..i]) - {ids[i]} == m.s.subs - Ids(ids[..i + 1]);
  }

  /** All timers, then all subscriptions: one withdrawal. */
  lemma AllWithdrawn(m: Machine, ts: set<TimerId>, us: set<SubId>)
    requires ts <= m.s.timers.Keys && us <= m.s.subs.Keys
    ensures SubsTo(TimersTo(m, Sorted(ts), |ts|), Sorted(us), |us|) == Withdraw(m, ts, us)
  {
    assert Sorted(ts)[..|ts|] == Sorted(ts) && Sorted(us)[..|us|] == Sorted(us);
    assert Ids(Sorted(ts)) == ts && Ids(Sorted(us)) == us;
  }

  lemma NothingYet(m: Machine, ids: seq<nat>)
    ensures ids[..0] == [] && Ids([]) == {} && TimersTo(m, [], 0) == m && SubsTo(m, [], 0) == m && ItemsTo(m, [], 0) == m
    ensures (forall k :: k in ids ==> k in m.s.timers) ==> TimersTo(m, ids, 0) == m
    ensures (forall k :: k in ids ==> k in m.s.subs) ==> SubsTo(m, ids, 0) == m
    ensures (forall k :: k in ids ==> k in m.s.items) ==> ItemsTo(m, ids, 0) == m
  {
    assert m.s.timers - {} == m.s.timers && m.s.subs - {} == m.s.subs && Closed(m.s.items, {}) == m.s.items;
    assert Ids([]) == {};
  }

  /** The first `i` tokens reaped, in order. */
  function ReapedTo(m: Machine, ids: seq<TokenId>, i: nat): Machine
    requires i <= |ids|
  {
    m.(s := Reaped(m.s, Ids(ids[..i])), ev := m.ev + ReapEvents(m.s, ids[..i]))
  }

  lemma NobodyReaped(m: Machine, ids: seq<TokenId>)
    ensures ReapedTo(m, ids, 0) == m
  {
    assert ids[..0] == [] && Ids([]) == {};
    assert Closed(m.s.items, m.s.OpenItemsOf({})) == m.s.items;
    assert m.s.tokens - {} == m.s.tokens && m.s.timers - {} == m.s.timers && m.s.subs - {} == m.s.subs;
  }

  /** Reaping one more: its open work, its arms, then the token. */
  lemma ReapedOn(m: Machine, ids: seq<TokenId>, i: nat)
    requires i < |ids| && Ascending(ids)
    ensures var a := ReapedTo(m, ids, i);
            Unpark(Advance.WithdrawArms(CancelItems(a, a.s.OpenItemsOf({ids[i]})), ids[i]), {ids[i]}) == ReapedTo(m, ids, i + 1)
  {
    hide Reaped, ReapOneEvents, ReapEvents, CancelItems, Advance.WithdrawArms, Unpark, Ids, Ascending;
    FirstOf(ids, i);
    ReapEventsPush(m.s, ids[..i], ids[i]);
    ReapOneMore(ReapedTo(m, ids, i), m.s, Ids(ids[..i]), ids[i]);
  }

  /** What a token holds is untouched by the reaping of others. */
  lemma ReapedRows(s: Instance, done: set<TokenId>, t: TokenId)
    requires t !in done
    ensures var r := Reaped(s, done);
            && r.OpenItemsOf({t}) == s.OpenItemsOf({t}) && r.TimersOf({t}) == s.TimersOf({t}) && r.SubsOf({t}) == s.SubsOf({t})
            && (forall i :: i in s.OpenItemsOf({t}) ==> r.items[i].element == s.items[i].element)
            && (forall k :: k in s.TimersOf({t}) ==> r.timers[k] == s.timers[k])
            && (forall k :: k in s.SubsOf({t}) ==> r.subs[k] == s.subs[k])
  {
  }

  lemma SameCancels(s: Instance, r: Instance, t: TokenId)
    requires r.OpenItemsOf({t}) == s.OpenItemsOf({t}) && r.TimersOf({t}) == s.TimersOf({t}) && r.SubsOf({t}) == s.SubsOf({t})
    requires forall i :: i in s.OpenItemsOf({t}) ==> r.items[i].element == s.items[i].element
    requires forall k :: k in s.TimersOf({t}) ==> r.timers[k] == s.timers[k]
    requires forall k :: k in s.SubsOf({t}) ==> r.subs[k] == s.subs[k]
    ensures ReapOneEvents(r, t) == ReapOneEvents(s, t)
  {
    var items, ts, us := Sorted(s.OpenItemsOf({t})), Sorted(s.TimersOf({t})), Sorted(s.SubsOf({t}));
    hide Sorted;
    assert ItemCancels(r.items, items) == ItemCancels(s.items, items);
    assert TimerCancels(r.timers, ts) == TimerCancels(s.timers, ts);
    assert SubCancels(r.subs, us) == SubCancels(s.subs, us);
  }

  lemma ReapOneIs(a: Machine, t: TokenId)
    ensures var b := Unpark(Advance.WithdrawArms(CancelItems(a, a.s.OpenItemsOf({t})), t), {t});
            b == a.(s := Reaped(a.s, {t}), ev := a.ev + ReapOneEvents(a.s, t))
  {
    hide Sorted, ItemCancels, TimerCancels, SubCancels, Closed;
    var open := a.s.OpenItemsOf({t});
    var x, y, z := ItemCancels(a.s.items, Sorted(open)), TimerCancels(a.s.timers, Sorted(a.s.TimersOf({t}))), SubCancels(a.s.subs, Sorted(a.s.SubsOf({t})));
    assert a.ev + x + y + z == a.ev + (x + y + z);
  }

  lemma ReapOneMore(a: Machine, s: Instance, done: set<TokenId>, t: TokenId)
    requires a.s == Reaped(s, done) && t !in done
    ensures var b := Unpark(Advance.WithdrawArms(CancelItems(a, a.s.OpenItemsOf({t})), t), {t});
            b == a.(s := Reaped(s, done + {t}), ev := a.ev + ReapOneEvents(s, t))
  {
    hide Reaped, ReapOneEvents, Unpark, CancelItems;
    ReapOneIs(a, t);
    ReapedRows(s, done, t);
    SameCancels(s, a.s, t);
    ReapTwice(s, done, t);
    assert {t} + done == done + {t};
  }

  lemma ItemsAll(m: Machine, ids: set<ItemId>)
    requires ids <= m.s.items.Keys
    ensures ItemsTo(m, Sorted(ids), |ids|) == CancelItems(m, ids)
  {
    var all := Sorted(ids);
    hide Sorted, Closed, ItemCancels;
    assert all[..|ids|] == all && Ids(all) == ids;
  }

  lemma TimersLeaveSubs(m: Machine, ids: seq<TimerId>, i: nat)
    requires i <= |ids| && forall k :: k in ids ==> k in m.s.timers
    ensures TimersTo(m, ids, i).s.subs == m.s.subs
  {
  }

  lemma ReapedAll(m: Machine, ids: set<TokenId>)
    ensures ReapedTo(m, Sorted(ids), |ids|) == m.(s := Reaped(m.s, ids), ev := m.ev + ReapEvents(m.s, Sorted(ids)))
    ensures Reaped(m.s, ids).scopes == m.s.scopes
  {
    hide ReapEvents, Reaped, Sorted;
    assert Sorted(ids)[..|ids|] == Sorted(ids) && Ids(Sorted(ids)) == ids;
    ReapedScopes(m.s, ids);
  }

  lemma ReapedScopes(s: Instance, ids: set<TokenId>)
    ensures Reaped(s, ids).scopes == s.scopes
  {
  }

  // ---- freezing

  /** The decisions of `ids` halted. */
  function HaltedTo(tokens: map<TokenId, Token>, ids: seq<TokenId>): map<TokenId, Token> {
    map t | t in tokens :: if t in ids then HaltDecision(tokens[t]) else tokens[t]
  }

  lemma HaltedOn(tokens: map<TokenId, Token>, ids: seq<TokenId>, i: nat)
    requires i < |ids| && forall id :: id in ids ==> id in tokens
    ensures var a := HaltedTo(tokens, ids[..i]);
            ids[i] in a && HaltedTo(tokens, ids[..i + 1]) == a[ids[i] := HaltDecision(a[ids[i]])]
  {
    assert ids[..i + 1] == ids[..i] + [ids[i]];
  }

  lemma PendingHalted(tokens: map<TokenId, Token>, ids: seq<TokenId>)
    requires forall id :: id in ids <==> id in tokens && tokens[id].wait.OnDecision?
    ensures HaltedTo(tokens, ids) == HaltDecisions(tokens)
  {
  }

  lemma NoneInFlight(q: seq<Move>)
    requires q == []
    ensures InFlightTokens(q) == map[]
  {
  }

  lemma InFlightPush(q: seq<Move>, mv: Move)
    ensures InFlightTokens(q + [mv]) == InFlightTokens(q)[mv.token := Token(mv.node, mv.scope, Halted(InFlight(mv.via)))]
  {
    assert (q + [mv])[..|q|] == q;
  }

  lemma KeepsScopes(m: Machine, token: TokenId, m1: Machine, open: set<ItemId>)
    requires m1 == Advance.WithdrawArms(m, token) && open <= m1.s.items.Keys
    ensures m1.s.scopes == m.s.scopes && CancelItems(m1, open).s.scopes == m.s.scopes
    ensures m1.s.tokens == m.s.tokens && CancelItems(m1, open).s.tokens == m.s.tokens
  {
  }

  // ---- arming

  /** What an arm made: its id when it was made, the freeze when it was not. */
  ghost predicate Armed(a: Advance.Arming, armed: Option<nat>, id: nat, m: Machine) {
    m == a.m && armed == if a.ok then Some(id) else None
  }

  /** Only timers and messages are armed on a host. */
  ghost predicate BoundariesArmable(p: Process) {
    forall h, b :: b in p.Boundaries(h) ==> p.KindOf(b).TimerBoundary? || p.KindOf(b).MessageBoundary?
  }

  lemma ArmKeepsScopes(p: Process, m: Machine, token: TokenId, element: NodeIx)
    ensures var a := Arm(p, m, token, element); a.ok ==> a.m.s.scopes == m.s.scopes
  {
    hide Advance.Freeze, ArmKey;
  }

  // ---- interrupting and joining

  lemma WithdrawOne(m: Machine, sub: SubId)
    requires sub in m.s.subs
    ensures Withdraw(m, {}, {sub})
         == m.(s := m.s.(subs := m.s.subs - {sub}), ev := m.ev + [SubscriptionCancelled(sub, m.s.subs[sub].element, m.s.subs[sub].message)])
  {
    assert m.s.timers - {} == m.s.timers;
    assert TimerCancels(m.s.timers, Sorted({})) == [];
    assert Sorted({sub}) == [sub] by {
      var one := Sorted({sub});
      assert one[0] in one;
    }
    assert SubCancels(m.s.subs, [sub]) == [SubscriptionCancelled(sub, m.s.subs[sub].element, m.s.subs[sub].message)];
  }

  /** The first of an ascending listing that is in a set is its least. */
  lemma FirstIsLeast(ids: seq<nat>, i: nat, S: set<nat>)
    requires i < |ids| && Ascending(ids) && ids[i] in S
    requires forall x :: x in S ==> x in ids
    requires forall j :: 0 <= j < i ==> ids[j] !in S
    ensures S != {} && Sorted(S)[0] == ids[i]
  {
    hide Sorted;
    var all := Sorted(S);
    assert all[0] in all;
    var k :| 0 <= k < |ids| && ids[k] == all[0];
    var j :| 0 <= j < |all| && all[j] == ids[i];
    assert ids[i] <= ids[k] && all[0] <= all[j];
  }

  lemma GatheredAll(p: Process, s: Instance, n: NodeIx, scope: ScopeId, ids: seq<TokenId>)
    requires var incoming := p.Incoming(n);
             && |ids| == |incoming|
             && (forall j :: 0 <= j < |incoming| ==> ArrivedOn(s, n, scope, incoming[j]) != {} && ids[j] == Sorted(ArrivedOn(s, n, scope, incoming[j]))[0])
    ensures AllArrived(p, s, n, scope) && Ids(ids) == Consumed(p, s, n, scope)
  {
    hide ArrivedOn, Sorted;
    var incoming := p.Incoming(n);
    assert AllArrived(p, s, n, scope);
    forall t | t in Consumed(p, s, n, scope) ensures t in ids {
      var f :| f in incoming && Sorted(ArrivedOn(s, n, scope, f))[0] == t;
      var j :| 0 <= j < |incoming| && incoming[j] == f;
      assert ids[j] == t;
    }
    forall t | t in ids ensures t in Consumed(p, s, n, scope) {
      var j :| 0 <= j < |ids| && ids[j] == t;
      assert incoming[j] in incoming;
    }
  }

  // ---- running

  lemma SubscribeKeepsScopes(p: Process, m: Machine, token: TokenId, element: NodeIx)
    ensures var a := Advance.Subscribe(p, m, token, element); a.ok ==> a.m.s.scopes == m.s.scopes
  {
    hide Advance.Freeze, ArmKey;
  }

  /** The list asked again is taken out of the machine first. */
  lemma {:induction false} ReaskIgnores(p: Process, m: Machine, ids: seq<TokenId>)
    ensures Reask(p, m.(reask := []), ids) == Reask(p, m, ids).(reask := [])
    decreases |ids|
  {
    if ids == [] {
    } else {
      if ids[0] !in m.s.tokens {
        ReaskIgnores(p, m, ids[1..]);
      } else {
        var t := m.s.tokens[ids[0]];
        var m1 := m.(s := m.s.(tokens := m.s.tokens[ids[0] := t.(wait := OnDecision)]));
        var kind := p.KindOf(t.node);
        ReaskIgnores(p, if kind.BusinessRule? then Say(m1, DecisionRequested(t.node, kind.decision)) else m1, ids[1..]);
      }
    }
  }

  lemma ArmableIn(p: Process)
    requires Linted(p)
    ensures BoundariesArmable(p)
  {
  }

  /** What the first move of the queue relies on. */
  lemma HeadFits(p: Process, m: Machine)
    requires Inv(p, m, {}) && m.q != []
    ensures m.Head().scope < m.s.nextScope && ParentsOlder(m.s.scopes)
  {
    assert m.q[0] in m.q;
  }

  /** One of the moves that are left. */
  lemma AdvancedOn(p: Process, m: Machine, k: nat)
    requires Linted(p) && Inv(p, m, {}) && m.q != [] && k > 0
    ensures Advance1(p, m).Ok? && Inv(p, Advance1(p, m).m, {})
    ensures Advanced(p, m, k) == Advanced(p, Advance1(p, m).m, k - 1)
  {
    hide Inv, WellFormed, Certified, SidePathsOk, Advance1;
    QueuedIsActive(p, m);
    Advance1Keeps(p, m);
  }

  lemma AdvancedDone(p: Process, m: Machine, k: nat)
    requires m.q == [] || k == 0
    ensures Advanced(p, m, k) == Outcome.Ok(m)
  {
  }
}
