/** Without parallel gateways and subprocesses there is never more than one move in
    flight, and a cycle of exclusive gateways that a run can come to can hold it for
    ever: the condition for every step to return is exact. */
module Lone {
  import opened Basics
  import opened Json
  import opened Compiled
  import opened State
  import opened Advance
  import opened Step
  import opened Game
  import opened Invariant
  import opened Entering
  import opened Running
  import opened Repairing
  import opened Runs
  import opened Rings
  import opened Waits
  import opened Swapping
  import opened Conservation

  // ---- nobody is halted in flight

  /** Whoever is halted in flight in `b` was in `a`. */
  predicate Calm(a: Instance, b: Instance) {
    forall id :: id in b.tokens && b.tokens[id].wait.InFlight() ==> id in a.tokens && a.tokens[id].wait.InFlight()
  }

  predicate NobodyInAir(s: Instance) { forall id :: id in s.tokens ==> !s.tokens[id].wait.InFlight() }

  lemma CalmOn(a: Instance, b: Instance, c: Instance)
    requires Calm(a, b) && Calm(b, c)
    ensures Calm(a, c)
  {
  }

  lemma TearCalm(m: Machine, scope: ScopeId)
    ensures Calm(m.s, TearDown(m, scope).s) && (m.q == [] ==> TearDown(m, scope).q == [])
  {
    hide Subtree, ReapEvents, Sorted;
  }

  lemma StripCalm(m: Machine, token: TokenId)
    requires m.q == []
    ensures Calm(m.s, Stripped(m, token).s) && Stripped(m, token).q == []
  {
    hide TearDown, Sorted;
    var m1 := WithdrawArms(m, token);
    var m2 := CancelItems(m1, m1.s.OpenItemsOf({token}));
    assert m2.s.tokens == m.s.tokens && m2.q == [];
    if token in m2.s.tokens && m2.s.tokens[token].wait.OnScope? {
      TearCalm(m2, m2.s.tokens[token].wait.child);
    }
  }

  /** A freeze with nothing in flight halts nobody in flight. */
  lemma FreezeCalm(m: Machine, token: TokenId, element: NodeIx, code: Option<string>, detail: Option<string>)
    requires m.q == []
    ensures Calm(m.s, Freeze(m, token, element, code, detail).s) && Freeze(m, token, element, code, detail).q == []
  {
    StripCalm(m, token);
    hide Stripped;
  }

  ghost predicate Quiet(m: Machine, m': Machine) { Calm(m.s, m'.s) && m'.q == [] }

  lemma ArmTimerCalm(p: Process, m: Machine, token: TokenId, n: NodeIx, due: TimerSource)
    requires m.q == []
    ensures Quiet(m, ArmTimer(p, m, token, n, due).m)
  {
    hide Freeze, Process.Resolve;
    FreezeCalm(Say(m, TimerResolveFailed(n)), token, n, None, None);
  }

  lemma SubscribeCalm(p: Process, m: Machine, token: TokenId, n: NodeIx)
    requires m.q == []
    ensures Quiet(m, Subscribe(p, m, token, n).m)
  {
    hide Freeze, ArmKey;
    FreezeCalm(Say(m, CorrelationFailed(n)), token, n, None, None);
    forall message, key ensures Quiet(m, Freeze(Say(m, DuplicateSubscription(n, message, key)), token, n, None, None)) {
      FreezeCalm(Say(m, DuplicateSubscription(n, message, key)), token, n, None, None);
    }
  }

  lemma ArmCalm(p: Process, m: Machine, token: TokenId, n: NodeIx)
    requires m.q == []
    ensures Quiet(m, Arm(p, m, token, n).m)
  {
    hide ArmTimer, Subscribe, Quiet;
    match p.KindOf(n)
    case TimerCatch(due) => ArmTimerCalm(p, m, token, n, due);
    case TimerBoundary(due, _) => ArmTimerCalm(p, m, token, n, due);
    case _ => SubscribeCalm(p, m, token, n);
  }

  lemma {:induction false} ArmAllCalm(p: Process, m: Machine, token: TokenId, elements: seq<NodeIx>)
    requires m.q == []
    ensures Quiet(m, ArmAll(p, m, token, elements).m)
    decreases |elements|
  {
    hide Arm;
    if elements == [] {
    } else {
      ArmCalm(p, m, token, elements[0]);
      var first := Arm(p, m, token, elements[0]);
      if first.ok {
        ArmAllCalm(p, first.m, token, elements[1..]);
        CalmOn(m.s, first.m.s, ArmAll(p, first.m, token, elements[1..]).m.s);
      }
    }
  }

  lemma {:induction false} AlternativesCalm(p: Process, m: Machine, token: TokenId, elements: seq<NodeIx>)
    requires m.q == [] && ArmAlternatives(p, m, token, elements).Ok?
    ensures Quiet(m, ArmAlternatives(p, m, token, elements).m)
    decreases |elements|
  {
    hide Arm;
    if elements == [] {
    } else {
      ArmCalm(p, m, token, elements[0]);
      var first := Arm(p, m, token, elements[0]);
      if first.ok {
        AlternativesCalm(p, first.m, token, elements[1..]);
        CalmOn(m.s, first.m.s, ArmAlternatives(p, first.m, token, elements[1..]).m.s);
      }
    }
  }

  // ---- one move at most

  /** No forks, no joins, no scopes. */
  ghost predicate OneWay(p: Process) {
    forall n: NodeIx :: n < |p.nodes| ==> !p.KindOf(n).ParallelGateway? && !p.KindOf(n).SubProcess?
  }

  ghost predicate Alone(m: Machine, m': Machine) { Calm(m.s, m'.s) && |m'.q| <= 1 }

  lemma LeavesAlone(p: Process, m: Machine, token: TokenId, n: NodeIx)
    requires m.q == []
    ensures var o := LeaveSingle(p, m, token, n); o.Ok? ==> Alone(m, o.m)
  {
  }

  lemma TaskAlone(p: Process, m: Machine, token: TokenId, n: NodeIx, work: WorkKind, topic: string)
    requires m.q == []
    ensures Alone(m, EnterTask(p, m, token, n, work, topic))
  {
    hide ArmAll;
    var item := m.s.nextItem;
    var m1 := Started(m, n);
    var m2 := m1.(s := m1.s.(items := m1.s.items[item := Item(n, token, work, topic, true)], nextItem := item + 1));
    var m3 := Say(Park(m2, token, n, OnItem(item)), WorkItemCreated(item, n, work, topic));
    ArmAllCalm(p, m3, token, p.Boundaries(n));
  }

  lemma CatchAlone(p: Process, m: Machine, token: TokenId, n: NodeIx, due: TimerSource)
    requires m.q == []
    ensures Alone(m, EnterTimerCatch(p, m, token, n, due)) && Alone(m, EnterMessageCatch(p, m, token, n))
  {
    hide ArmAll, ArmTimer, Subscribe;
    ArmTimerCalm(p, Started(m, n), token, n, due);
    SubscribeCalm(p, Started(m, n), token, n);
    var armed := Subscribe(p, Started(m, n), token, n);
    if armed.ok {
      ArmAllCalm(p, Park(armed.m, token, n, OnMessage(m.s.nextSub)), token, p.Boundaries(n));
    }
  }

  lemma CompletesAlone(p: Process, m: Machine, scope: ScopeId)
    requires m.q == []
    ensures var o := CompleteScope(p, m, scope); o.Ok? ==> Alone(m, o.m)
  {
    hide Sorted;
  }

  lemma TerminateAlone(m: Machine)
    ensures Alone(m, Terminate(m))
  {
  }

  lemma IfEmptyAlone(p: Process, m: Machine, scope: ScopeId)
    requires m.q == []
    ensures var o := CompleteScopeIfEmpty(p, m, scope); o.Ok? ==> Alone(m, o.m)
  {
    hide CompleteScope, ScopeIsEmpty;
    CompletesAlone(p, m, scope);
  }

  lemma EndsAlone(p: Process, m: Machine, n: NodeIx)
    requires m.q == []
    ensures EnterEnd(p, m, n).Ok? ==> Alone(m, EnterEnd(p, m, n).m)
    ensures EnterTerminateEnd(p, m, n).Ok? ==> Alone(m, EnterTerminateEnd(p, m, n).m)
  {
    hide CompleteScope, TearDown, CompleteScopeIfEmpty, Terminate, Calm;
    var m1 := Finished(Started(m, n), n);
    assert m1.s == m.s;
    IfEmptyAlone(p, m1, m.scope);
    TerminateAlone(m1);
    TearCalm(m1, m.scope);
    var torn := TearDown(m1, m.scope);
    CompletesAlone(p, torn, m.scope);
    var o := CompleteScope(p, torn, m.scope);
    if o.Ok? {
      CalmOn(m.s, torn.s, o.m.s);
    }
  }

  lemma EnterAlone(p: Process, m: Machine, token: TokenId, n: NodeIx, via: Option<FlowIx>)
    requires OneWay(p) && n < |p.nodes| && m.q == []
    ensures var o := Enter(p, m, token, n, via); o.Ok? ==> Alone(m, o.m)
  {
    hide EnterTask, EnterTimerCatch, EnterMessageCatch, EnterEnd, EnterTerminateEnd, ArmAlternatives, Chosen, EnterSubProcess, EnterJoin, ForkOn;
    match p.KindOf(n)
    case Start => LeavesAlone(p, Finished(Started(m, n), n), token, n);
    case Task(work, topic) => TaskAlone(p, m, token, n, work, topic);
    case TimerCatch(due) => CatchAlone(p, m, token, n, due);
    case MessageCatch(_, _) => CatchAlone(p, m, token, n, Literal(Date("")));
    case EventBasedGateway =>
      var m1 := Park(Started(m, n), token, n, AtEventGateway);
      if ArmAlternatives(p, m1, token, Targets(p, p.Outgoing(n))).Ok? {
        AlternativesCalm(p, m1, token, Targets(p, p.Outgoing(n)));
      }
    case End => EndsAlone(p, m, n);
    case TerminateEnd => EndsAlone(p, m, n);
    case _ =>
  }

  lemma BoundaryAlone(p: Process, m: Machine, token: TokenId, boundary: NodeIx)
    requires m.q == []
    ensures var o := InterruptToBoundary(p, m, token, boundary); o.Ok? ==> Alone(m, o.m)
  {
    hide TearDown, LeaveSingle;
    if token in m.s.tokens {
      var parked, m1 := m.s.tokens[token], Unpark(m, {token});
      var m2 := if parked.wait.OnScope? then DropScope(TearDown(m1, parked.wait.child), parked.wait.child) else m1;
      if parked.wait.OnScope? {
        TearCalm(m1, parked.wait.child);
      }
      var m3 := WithdrawArms(m2.(scope := parked.scope), token);
      assert m3.s.tokens == m2.s.tokens && m3.q == m2.q;
      hide WithdrawArms;
      LeavesAlone(p, Finished(Started(m3, boundary), boundary), token, boundary);
    }
  }

  lemma HostAlone(p: Process, m: Machine, token: TokenId, boundary: NodeIx)
    requires m.q == []
    ensures var o := InterruptHost(p, m, token, boundary); o.Ok? ==> Alone(m, o.m)
  {
    hide InterruptToBoundary, Closed, Sorted;
    if token in m.s.tokens {
      match m.s.tokens[token].wait
      case OnItem(item) =>
        if item in m.s.items {
          BoundaryAlone(p, Say(m.(s := m.s.(items := Closed(m.s.items, {item}))), WorkItemCancelled(item, m.s.items[item].element)), token, boundary);
        }
      case OnMessage(sub) =>
        if sub in m.s.subs {
          BoundaryAlone(p, Withdraw(m, {}, {sub}), token, boundary);
        }
      case _ => BoundaryAlone(p, m, token, boundary);
    }
  }

  lemma SideAlone(p: Process, m: Machine, k: TimerId, timer: Timer, sub: Sub)
    requires m.q == []
    ensures TimerSidePath(p, m, k, timer).Ok? ==> Alone(m, TimerSidePath(p, m, k, timer).m)
    ensures MessageSidePath(p, m, sub).Ok? ==> Alone(m, MessageSidePath(p, m, sub).m)
  {
    hide Subscribe;
    if sub.token in m.s.tokens {
      SubscribeCalm(p, m.(scope := m.s.tokens[sub.token].scope), sub.token, sub.element);
    }
  }

  lemma RaceAlone(p: Process, m: Machine, token: TokenId, gateway: NodeIx, winner: NodeIx)
    requires m.q == []
    ensures var o := TakeGatewayPath(p, WithdrawArms(m, token), token, gateway, winner); o.Ok? ==> Alone(m, o.m)
  {
    hide FlowTo, Sorted;
  }

  /** What a command opens with: nobody more halted in flight, one move at most. */
  predicate OpensAlone(s: Instance, o: Opening) {
    !o.Refused? ==> Calm(s, o.At().s) && |o.At().q| <= 1
  }

  lemma WorkAlone(p: Process, s: Instance, id: ItemId, patch: Value)
    ensures OpensAlone(s, OpenCompleteWorkItem(p, s, id, patch))
  {
    hide Merge, Sorted;
  }

  lemma DecisionAlone(p: Process, s: Instance, token: TokenId, answer: Option<Value>, detail: Option<string>)
    ensures OpensAlone(s, OpenCompleteDecision(p, s, token, answer, detail))
  {
    hide Assign, Freeze, Sorted;
    if token in s.tokens {
      FreezeCalm(Idle(s).(scope := s.tokens[token].scope), token, s.tokens[token].node, None, detail);
    }
  }

  lemma ErrorAlone(p: Process, s: Instance, id: ItemId, code: Option<string>)
    ensures OpensAlone(s, OpenRaiseError(p, s, id, code))
  {
    hide Freeze, InterruptToBoundary, Catcher, Closed;
    if id in s.items {
      var item := s.items[id];
      var m := Say(Idle(CloseItem(s, id)), WorkItemFailed(id, item.element, code));
      FreezeCalm(m, item.token, item.element, code, None);
      var scope := if item.token in s.tokens then s.tokens[item.token].scope else ROOT;
      var caught := Catcher(p, s.scopes, item.element, item.token, scope, code);
      if caught.Some? {
        BoundaryAlone(p, m, caught.value.0, caught.value.1);
      }
    }
  }

  lemma FireAlone(p: Process, s: Instance, id: TimerId)
    ensures OpensAlone(s, OpenFireTimer(p, s, id))
  {
    hide InterruptHost, TimerSidePath, TakeGatewayPath, Process.Interrupts, LeaveSingle, WithdrawArms;
    if id in s.timers && s.timers[id].token in s.tokens {
      var timer := s.timers[id];
      var t := s.tokens[timer.token];
      var m := Say(Idle(s.(timers := s.timers - {id})), TimerFired(id, timer.element));
      LeavesAlone(p, Finished(Unpark(m, {timer.token}).(scope := t.scope), timer.element), timer.token, timer.element);
      HostAlone(p, m, timer.token, timer.element);
      SideAlone(p, m, id, timer, Sub(0, 0, "", ""));
      RaceAlone(p, m.(scope := t.scope), timer.token, t.node, timer.element);
    }
  }

  lemma DeliverAlone(p: Process, s: Instance, id: SubId, patch: Value)
    ensures OpensAlone(s, OpenDeliverMessage(p, s, id, patch))
  {
    hide InterruptHost, MessageSidePath, TakeGatewayPath, Process.Interrupts, LeaveSingle, Rearms, Patched, WithdrawArms;
    PatchedIs(Say(Idle(s.(subs := s.subs - {id})), MessageReceived(id, s.SubAt(id).element, s.SubAt(id).message)), patch);
    if id in s.subs && s.subs[id].token in s.tokens {
      var sub := s.subs[id];
      var t := s.tokens[sub.token];
      var m0 := Say(Idle(s.(subs := s.subs - {id})), MessageReceived(id, sub.element, sub.message));
      var m := Patched(m0, patch);
      var m1 := WithdrawArms(m.(scope := t.scope), sub.token);
      WithdrawTokens(m.(scope := t.scope), sub.token);
      LeavesAlone(p, Finished(Unpark(m1, {sub.token}), sub.element), sub.token, sub.element);
      HostAlone(p, m, sub.token, sub.element);
      SideAlone(p, m, 0, Timer(0, 0, Date(""), None), sub);
      RaceAlone(p, m.(scope := t.scope), sub.token, t.node, sub.element);
    }
  }

  lemma WithdrawTokens(m: Machine, token: TokenId)
    ensures WithdrawArms(m, token).s.tokens == m.s.tokens && WithdrawArms(m, token).q == m.q
  {
  }

  lemma UnparkCalm(m: Machine, ids: set<TokenId>)
    ensures Calm(m.s, Unpark(m, ids).s) && Unpark(m, ids).q == m.q
  {
  }

  lemma AdvanceAlone(p: Process, m: Machine, cause: TokenId, resume: NodeIx, d: Disposition)
    requires m.q == [] && d.AdvancePast?
    ensures var o := Disposed(p, m, cause, resume, d); o.Ok? ==> Alone(m, o.m)
  {
    hide Assign;
  }

  lemma DisposedAlone(p: Process, m: Machine, cause: TokenId, resume: NodeIx, d: Disposition)
    requires m.q == []
    ensures var o := Disposed(p, m, cause, resume, d); o.Ok? ==> Alone(m, o.m)
  {
    hide InterruptToBoundary, CompleteScopeIfEmpty, Catcher, Assign, Calm, Terminate, LeaveSingle;
    UnparkCalm(m, {cause});
    match d
    case Retry(_) =>
    case AdvancePast(_, _) => AdvanceAlone(p, m, cause, resume, d);
    case Divert(code) =>
      var caught := Catcher(p, m.s.scopes, resume, cause, m.scope, code);
      if caught.Some? {
        BoundaryAlone(p, m, caught.value.0, caught.value.1);
      }
    case Abandon =>
      var m1 := Unpark(m, {cause});
      IfEmptyAlone(p, m1, m.scope);
      var o := CompleteScopeIfEmpty(p, m1, m.scope);
      if o.Ok? {
        CalmOn(m.s, m1.s, o.m.s);
      }
    case AbandonInstance => TerminateAlone(m);
  }

  lemma CollateralAlone(m: Machine)
    requires NobodyInAir(m.s)
    ensures Collateral(m).q == m.q && Calm(m.s, Collateral(m).s)
  {
    assert Flying(m.s) == {};
    assert Sorted(Flying(m.s)) == [];
  }

  lemma RepairAlone(p: Process, s: Instance, incident: nat, d: Disposition, why: string)
    requires NobodyInAir(s)
    ensures OpensAlone(s, OpenRepair(p, s, incident, d, why))
  {
    hide Disposed, Collateral, RepairRefusal, Sorted, Causes, Accepted;
    if RepairRefusal(p, s, incident, d, why).None? {
      RepairAccepted(p, s, incident, d, why);
      hide OpenRepair;
      var cause := CauseOf(s);
      AcceptedAlone(p, s, cause, incident, d, why);
      var m := Accepted(p, s, cause, incident, d, why);
      var resume := p.ResumePoint(s.tokens[cause].node);
      DisposedAlone(p, m, cause, resume, d);
      var o := Disposed(p, m, cause, resume, d);
      if o.Ok? {
        CalmNobody(s, o.m.s);
        CollateralAlone(o.m);
      }
    }
  }

  lemma CalmNobody(a: Instance, b: Instance)
    requires NobodyInAir(a) && Calm(a, b)
    ensures NobodyInAir(b)
  {
  }

  lemma AcceptedAlone(p: Process, s: Instance, cause: TokenId, incident: nat, d: Disposition, why: string)
    requires cause in s.tokens
    ensures Accepted(p, s, cause, incident, d, why).s.tokens == s.tokens && Accepted(p, s, cause, incident, d, why).q == []
  {
    hide Merge;
  }

  lemma OpenAlone(p: Process, s: Instance, c: Command)
    requires NobodyInAir(s)
    ensures OpensAlone(s, OpenCommand(p, s, c))
  {
    hide NobodyInAir, OpensAlone, OpenCompleteWorkItem, OpenRaiseError, OpenFireTimer, OpenDeliverMessage, OpenCompleteDecision, OpenRepair;
    match c
    case StartWith(variables) => StartAlone(p, s, variables);
    case CompleteWorkItem(item, patch) => WorkAlone(p, s, item, patch);
    case RaiseError(item, code) => ErrorAlone(p, s, item, code);
    case FireTimer(timer) => FireAlone(p, s, timer);
    case DeliverMessage(sub, patch) => DeliverAlone(p, s, sub, patch);
    case CompleteDecision(token, answer, detail) => DecisionAlone(p, s, token, answer, detail);
    case Repair(incident, d, why) => RepairAlone(p, s, incident, d, why);
  }

  lemma StartAlone(p: Process, s: Instance, variables: Value)
    ensures OpensAlone(s, OpenStart(p, s, variables))
  {
  }

  // ---- over whole runs

  lemma Advance1Alone(p: Process, m: Machine)
    requires Linted(p) && OneWay(p) && Inv(p, m, {}) && |m.q| == 1
    ensures Advance1(p, m).Ok? && Inv(p, Advance1(p, m).m, {}) && Alone(m, Advance1(p, m).m)
  {
    hide Inv, WellFormed, Certified, SidePathsOk, OneWay, Enter;
    QueuedIsActive(p, m);
    HeadIsNode(p, m);
    Advance1Keeps(p, m);
    assert m.q[1..] == [];
    EnterAlone(p, m.(q := [], scope := m.q[0].scope), m.q[0].token, m.q[0].node, m.q[0].via);
  }

  lemma {:induction false} AdvancedAlone(p: Process, m: Machine, k: nat)
    requires Linted(p) && OneWay(p) && Inv(p, m, {}) && |m.q| <= 1
    ensures var o := Advanced(p, m, k); o.Ok? && Inv(p, o.m, {}) && Alone(m, o.m)
    decreases k
  {
    hide Linted, Inv, OneWay, Advance1;
    if k == 0 || m.q == [] {
    } else {
      Advance1Alone(p, m);
      var m1 := Advance1(p, m).m;
      AdvancedAlone(p, m1, k - 1);
      CalmOn(m.s, m1.s, Advanced(p, m1, k - 1).m.s);
    }
  }

  lemma SettleCalm(p: Process, m: Machine)
    ensures Calm(m.s, Settle(p, m).s)
  {
    hide Reask;
    ReaskIs(p, m, m.reask);
  }

  lemma StepAlone(p: Process, s: Instance, c: Command)
    requires Linted(p) && OneWay(p) && Resting(p, s) && NobodyInAir(s)
    ensures NobodyInAir(StepOf(p, s, c).s)
  {
    hide Linted, OneWay, Inv, Resting, OpenCommand, Advanced, Settle, NobodyInAir, Calm;
    OpenSound(p, s, c);
    OpenAlone(p, s, c);
    var o := OpenCommand(p, s, c);
    if !o.Refused? {
      CalmNobody(s, o.m.s);
      if o.Opened? && Ends(p, o.m) {
        var k: nat :| EndsIn(p, o.m, k);
        DrainIs(p, o.m, k);
        AdvancedAlone(p, o.m, k);
        CalmNobody(o.m.s, Drain(p, o.m).s);
        SettleCalm(p, Drain(p, o.m));
        CalmNobody(Drain(p, o.m).s, Run(p, o.m).s);
      }
    }
  }

  /** Of every run: nobody is ever halted in flight. */
  lemma {:induction false} RunsAlone(p: Process, commands: seq<Command>)
    requires Linted(p) && OneWay(p)
    ensures NobodyInAir(After(p, commands).s)
    decreases |commands|
  {
    hide Linted, OneWay, Resting, StepOf;
    if commands == [] {
    } else {
      hide NobodyInAir;
      RunsAlone(p, commands[..|commands| - 1]);
      StepAlone(p, After(p, commands[..|commands| - 1]).s, commands[|commands| - 1]);
    }
  }

  /** At every moment one move is in flight at most. */
  lemma MovesAlone(p: Process, commands: seq<Command>, c: Command, k: nat)
    requires Linted(p) && OneWay(p) && OpenCommand(p, After(p, commands).s, c).Opened?
    ensures var o := Advanced(p, OpenCommand(p, After(p, commands).s, c).At(), k);
            o.Ok? && Inv(p, o.m, {}) && |o.m.q| <= 1
  {
    hide Linted, OneWay, Inv, After, OpenCommand, Advanced, NobodyInAir, Calm, Resting;
    var s := After(p, commands).s;
    RunsAlone(p, commands);
    OpenSound(p, s, c);
    OpenAlone(p, s, c);
    AdvancedAlone(p, OpenCommand(p, s, c).m, k);
  }

  // ---- a cycle that is come to

  /** Some step of some run does not return, under some conditions. */
  ghost predicate SomeStepSpins(p: Process) {
    exists p', commands, c :: SpinsOn(p, p', commands, c)
  }

  ghost predicate SpinsOn(p: Process, p': Process, commands: seq<Command>, c: Command) {
    SameGraph(p, p') && Linted(p') && !StepOf(p', After(p', commands).s, c).returned
  }

  /** Some run comes to a node of `R`, under some conditions. */
  ghost predicate ComeTo(p: Process, R: set<NodeIx>) {
    exists p', commands, c, k: nat :: EntersOn(p, p', commands, c, k, R)
  }

  ghost predicate EntersOn(p: Process, p': Process, commands: seq<Command>, c: Command, k: int, R: set<NodeIx>) {
    SameGraph(p, p') && Linted(p') && Enters(p', commands, c, k, R)
  }

  lemma KeptApart(p: Process, R: set<NodeIx>)
    ensures Apart(p, Kept(p, R), R)
  {
    KeptSame(p, R);
    var p' := Kept(p, R);
    forall f: FlowIx | p.Source(f) !in R ensures p'.FlowAt(f).condition == p.FlowAt(f).condition {
      if f < |p.flows| {
        assert p'.flows[f] == p.flows[f];
      }
    }
  }

  lemma SameTwice(p: Process, p': Process, p'': Process)
    requires SameGraph(p, p') && SameGraph(p', p'')
    ensures SameGraph(p, p'')
  {
  }

  lemma SameFlows(p: Process, p': Process, n: NodeIx)
    requires SameGraph(p, p')
    ensures p'.KindOf(n) == p.KindOf(n) && p'.Outgoing(n) == p.Outgoing(n) && forall f :: p'.Target(f) == p.Target(f)
  {
  }

  lemma CyclicToo(p: Process, p': Process, R: set<NodeIx>)
    requires SameGraph(p, p') && Cyclic(p, R)
    ensures Cyclic(p', R)
  {
    hide SameGraph, Process.KindOf, Process.Outgoing, Process.Target;
    forall n | n in R ensures p'.KindOf(n).ExclusiveGateway? && exists f :: f in p'.Outgoing(n) && p'.Target(f) in R {
      SameFlows(p, p', n);
    }
  }

  lemma OneWayToo(p: Process, p': Process)
    requires SameGraph(p, p') && OneWay(p)
    ensures OneWay(p')
  {
    forall n: NodeIx ensures p'.KindOf(n) == p.KindOf(n) {
      SameNode(p, p', n);
    }
    assert |p'.nodes| == |p.nodes|;
    hide SameGraph, Process.KindOf;
  }

  /** The run that first comes to the cycle goes there under conditions that keep it
      on the cycle too, and never leaves. */
  lemma CycleHolds(p: Process, R: set<NodeIx>, commands: seq<Command>, c: Command, k: nat)
    requires Linted(p) && OneWay(p) && Cyclic(p, R) && Enters(p, commands, c, k, R)
    ensures exists before, first :: SpinsOn(p, Kept(p, R), before, first)
  {
    hide Linted, OneWay, Cyclic, Enters, Kept, SameGraph, Apart, Ring, StepOf;
    KeptApart(p, R);
    KeptSame(p, R);
    var p' := Kept(p, R);
    AnyCycleSpins(p, R, Null);
    var before, first, moves := FirstEntry(p, commands, c, k, R);
    EntersToo(p, p', R, before, first, moves);
    SpinsThere(p, R, before, first, moves);
    assert SpinsOn(p, p', before, first);
  }

  /** Where `R` is first come to does not depend on the conditions out of `R`. */
  lemma EntersToo(p: Process, p': Process, R: set<NodeIx>, before: seq<Command>, first: Command, moves: nat)
    requires Linted(p) && OneWay(p) && Linted(p') && Apart(p, p', R)
    requires Enters(p, before, first, moves, R) && forall j: nat :: j < moves ==> !Enters(p, before, first, j, R)
    requires Avoids(p, before, R)
    ensures After(p', before) == After(p, before) && Enters(p', before, first, moves, R)
    ensures var o := OpenCommand(p, After(p, before).s, first);
            && OpenCommand(p', After(p, before).s, first) == o && o.Opened? && Advanced(p', o.At(), moves) == Advanced(p, o.At(), moves)
  {
    hide Linted, OneWay, SameGraph, OpenCommand, Advanced, Resting, Inv, After;
    SameAfter(p, p', R, before);
    var s := After(p, before).s;
    SameOpening(p, p', s, first);
    var m := OpenCommand(p, s, first).m;
    forall j: nat | j < moves ensures !Comes(p, m, j, R) {
      assert !Enters(p, before, first, j, R);
    }
    MovesAlone(p, before, first, 0);
    InvAtOnce(p, m);
    SameAdvanced(p, p', R, m, moves);
  }

  lemma SpinsThere(p: Process, R: set<NodeIx>, before: seq<Command>, first: Command, moves: nat)
    requires Linted(p) && OneWay(p) && Linted(Kept(p, R)) && Cyclic(p, R) && Enters(p, before, first, moves, R)
    requires var p', o := Kept(p, R), OpenCommand(p, After(p, before).s, first);
             && After(p', before) == After(p, before) && OpenCommand(p', After(p, before).s, first) == o
             && o.Opened? && Advanced(p', o.At(), moves) == Advanced(p, o.At(), moves)
    ensures !StepOf(Kept(p, R), After(Kept(p, R), before).s, first).returned
  {
    hide Linted, OneWay, Cyclic, Kept, Ring, OpenCommand, Advanced, Resting, Inv, After, Run;
    var m := OpenCommand(p, After(p, before).s, first).m;
    MovesAlone(p, before, first, moves);
    var there := Advanced(p, m, moves).m;
    AnyCycleSpins(p, R, there.s.variables);
    RingNeverEnds(Kept(p, R), R, there);
    if Ends(Kept(p, R), m) {
      EndsLater(Kept(p, R), m, moves);
    }
  }

  lemma InvAtOnce(p: Process, m: Machine)
    requires Advanced(p, m, 0).Ok? && Inv(p, Advanced(p, m, 0).m, {})
    ensures Inv(p, m, {})
  {
    hide Inv;
  }

  // ---- a step that spins comes to a cycle

  lemma ScopeIsOfOne(p: Process, s: Instance, c: ScopeId)
    requires TokensOk(p, s) && ScopesOk(s) && c in s.scopes
    ensures s.ScopeAt(c).element < |p.nodes| && p.KindOf(s.ScopeAt(c).element).SubProcess?
  {
    assert TokenOk(p, s, s.scopes[c].token, s.tokens[s.scopes[c].token]);
  }

  lemma MoveStands(p: Process, s: Instance, q: seq<Move>, mv: Move)
    requires QueueOk(p, s, q) && mv in q
    ensures mv.scope == ROOT || mv.scope in s.scopes
  {
  }

  lemma NoScopes(p: Process, m: Machine)
    requires OneWay(p) && Inv(p, m, {})
    ensures m.s.scopes == map[] && forall mv :: mv in m.q ==> mv.scope == ROOT
  {
    hide Safe, Everybody, Inhabited, StatusOk, ReaskOk, TokensOk, ScopesOk, QueueOk;
    if c :| c in m.s.scopes {
      ScopeIsOfOne(p, m.s, c);
    }
    forall mv | mv in m.q ensures mv.scope == ROOT {
      MoveStands(p, m.s, m.q, mv);
    }
  }

  /** Where nothing parks and nothing ends, a token leaves by a flow of a start or of
      an exclusive gateway. */
  lemma PassesOn(p: Process, m: Machine, token: TokenId, n: NodeIx, via: Option<FlowIx>)
    requires WellFormed(p) && OneWay(p) && n < |p.nodes| && m.q == [] && m.scope == ROOT
    requires Enter(p, m, token, n, via).Ok? && Enter(p, m, token, n, via).m.q != []
    ensures p.KindOf(n).Start? || p.KindOf(n).ExclusiveGateway?
    ensures var q := Enter(p, m, token, n, via).m.q;
            |q| == 1 && exists f :: f in p.Outgoing(n) && p.Target(f) == Enter(p, m, token, n, via).m.Head().node
  {
    hide WellFormed, ArmAll, ArmTimer, Subscribe, ArmAlternatives, EnterSubProcess, EnterJoin, ForkOn, FirstHolding, TearDown, CompleteScope;
    match p.KindOf(n)
    case Start => assert p.Outgoing(n)[0] in p.Outgoing(n);
    case ExclusiveGateway(d) => ChosenIsOut(p, n, d, m.s.variables);
    case _ => RestsThere(p, m, token, n, via);
  }

  lemma ChosenIsOut(p: Process, n: NodeIx, d: Option<FlowIx>, v: Value)
    requires WellFormed(p) && n < |p.nodes| && p.KindOf(n) == ExclusiveGateway(d) && Chosen(p, n, d, v).Some?
    ensures exists f :: f in p.Outgoing(n) && Chosen(p, n, d, v) == Some(f)
  {
    assert ShapeOk(p, n);
    FirstHoldingIs(p, p.Outgoing(n), d, v);
  }

  lemma RestsThere(p: Process, m: Machine, token: TokenId, n: NodeIx, via: Option<FlowIx>)
    requires OneWay(p) && n < |p.nodes| && m.q == [] && m.scope == ROOT && !p.KindOf(n).Start? && !p.KindOf(n).ExclusiveGateway?
    ensures var o := Enter(p, m, token, n, via); o.Ok? ==> o.m.q == []
  {
    hide ArmAll, ArmTimer, Subscribe, ArmAlternatives, EnterSubProcess, EnterJoin, ForkOn, TearDown, CompleteScope;
    match p.KindOf(n)
    case Task(work, topic) => TaskQuiet(p, m, token, n, work, topic);
    case TimerCatch(due) => ArmTimerQueue(p, Started(m, n), token, n, due);
    case MessageCatch(_, _) => MessageQuiet(p, m, token, n);
    case EventBasedGateway => ArmAlternativesQueue(p, Park(Started(m, n), token, n, AtEventGateway), token, Targets(p, p.Outgoing(n)));
    case _ =>
  }

  lemma TaskQuiet(p: Process, m: Machine, token: TokenId, n: NodeIx, work: WorkKind, topic: string)
    requires m.q == []
    ensures EnterTask(p, m, token, n, work, topic).q == []
  {
    hide ArmAll;
    var item := m.s.nextItem;
    var m1 := Started(m, n);
    var m2 := m1.(s := m1.s.(items := m1.s.items[item := Item(n, token, work, topic, true)], nextItem := item + 1));
    ArmAllQueue(p, Say(Park(m2, token, n, OnItem(item)), WorkItemCreated(item, n, work, topic)), token, p.Boundaries(n));
  }

  lemma MessageQuiet(p: Process, m: Machine, token: TokenId, n: NodeIx)
    requires m.q == []
    ensures EnterMessageCatch(p, m, token, n).q == []
  {
    hide ArmAll, Subscribe;
    SubscribeQueue(p, Started(m, n), token, n);
    var armed := Subscribe(p, Started(m, n), token, n);
    if armed.ok {
      ArmAllQueue(p, Park(armed.m, token, n, OnMessage(m.s.nextSub)), token, p.Boundaries(n));
    }
  }

  lemma {:induction false} AdvancedThen(p: Process, m: Machine, k: nat)
    requires Advanced(p, m, k).Ok? && Advanced(p, m, k).m.q != []
    ensures Advanced(p, m, k + 1) == Advance1(p, Advanced(p, m, k).m)
    decreases k
  {
    hide Advance1;
    if k == 0 {
      var o := Advance1(p, m);
      assert o.Ok? ==> Advanced(p, o.m, 0) == o;
    } else {
      AdvancedThen(p, Advance1(p, m).m, k - 1);
    }
  }

  /** The move in flight after `k` moves. */
  ghost predicate HeadAt(p: Process, m: Machine, k: int, n: NodeIx) {
    var o := Advanced(p, m, k);
    o.Ok? && |o.m.q| == 1 && o.m.Head().node == n
  }

  /** A queue that never ends passes on for ever. */
  lemma HeadPasses(p: Process, m: Machine, k: nat)
    requires Linted(p) && OneWay(p) && Inv(p, m, {}) && |m.q| <= 1 && !Ends(p, m)
    ensures var o, o' := Advanced(p, m, k), Advanced(p, m, k + 1);
            && o.Ok? && |o.m.q| == 1 && o'.Ok? && |o'.m.q| == 1
            && o.m.Head().node < |p.nodes| && (p.KindOf(o.m.Head().node).Start? || p.KindOf(o.m.Head().node).ExclusiveGateway?)
            && exists f :: f in p.Outgoing(o.m.Head().node) && p.Target(f) == o'.m.Head().node
  {
    hide Certified, SidePathsOk, WellFormed, OneWay, Inv, Enter, Advanced;
    AdvancedAlone(p, m, k);
    AdvancedAlone(p, m, k + 1);
    NeverDone(p, m, k);
    NeverDone(p, m, k + 1);
    AdvancedThen(p, m, k);
    var at := Advanced(p, m, k).m;
    NoScopes(p, at);
    HeadIsNode(p, at);
    assert at.q[0] in at.q && at.q[1..] == [];
    PassesOn(p, at.(q := [], scope := ROOT), at.q[0].token, at.q[0].node, at.q[0].via);
  }

  lemma NeverDone(p: Process, m: Machine, k: nat)
    requires !Ends(p, m) && Advanced(p, m, k).Ok?
    ensures Advanced(p, m, k).m.q != []
  {
    hide Advanced;
    assert !EndsIn(p, m, k);
  }

  /** The nodes that the move in flight ever comes to, but for the first. */
  ghost function Visited(p: Process, m: Machine): set<NodeIx> {
    set n | n in Below(|p.nodes|) && VisitedAt(p, m, n)
  }

  ghost predicate VisitedAt(p: Process, m: Machine, n: NodeIx) {
    exists j: nat :: j > 0 && HeadAt(p, m, j, n)
  }

  lemma VisitedIsCyclic(p: Process, m: Machine)
    requires Linted(p) && OneWay(p) && Inv(p, m, {}) && |m.q| <= 1 && !Ends(p, m)
    ensures Cyclic(p, Visited(p, m)) && Comes(p, m, 1, Visited(p, m))
  {
    hide Linted, OneWay, Inv, Advanced, HeadAt, Ends;
    var R := Visited(p, m);
    forall n | n in R ensures p.KindOf(n).ExclusiveGateway? && exists f :: f in p.Outgoing(n) && p.Target(f) in R {
      var j: nat :| j > 0 && HeadAt(p, m, j, n);
      HeadGoesOn(p, m, j, n);
      var f :| f in p.Outgoing(n) && HeadAt(p, m, j + 1, p.Target(f)) && p.Target(f) < |p.nodes|;
      assert VisitedAt(p, m, p.Target(f));
    }
    FirstVisited(p, m);
  }

  lemma FirstVisited(p: Process, m: Machine)
    requires Linted(p) && OneWay(p) && Inv(p, m, {}) && |m.q| <= 1 && !Ends(p, m)
    ensures Comes(p, m, 1, Visited(p, m))
  {
    hide Linted, OneWay, Inv, Advanced, Ends;
    HeadPasses(p, m, 1);
    var n := Advanced(p, m, 1).m.q[0].node;
    assert HeadAt(p, m, 1, n);
    assert VisitedAt(p, m, n);
  }

  lemma SpinIsCyclic(p: Process, commands: seq<Command>, c: Command) returns (R: set<NodeIx>, k: nat)
    requires Linted(p) && OneWay(p) && !StepOf(p, After(p, commands).s, c).returned
    ensures R != {} && Cyclic(p, R) && Enters(p, commands, c, k, R)
  {
    hide Linted, OneWay, Inv, After, OpenCommand, Advanced, Resting, Run, Visited, Cyclic;
    OpenSound(p, After(p, commands).s, c);
    var m := OpenCommand(p, After(p, commands).s, c).m;
    MovesAlone(p, commands, c, 0);
    NoMoves(p, m);
    R, k := Visited(p, m), 1;
    VisitedIsCyclic(p, m);
  }

  lemma NoMoves(p: Process, m: Machine)
    ensures Advanced(p, m, 0) == Outcome.Ok(m)
  {
  }

  lemma HeadGoesOn(p: Process, m: Machine, j: nat, n: NodeIx)
    requires Linted(p) && OneWay(p) && Inv(p, m, {}) && |m.q| <= 1 && !Ends(p, m) && j > 0 && HeadAt(p, m, j, n)
    ensures p.KindOf(n).ExclusiveGateway?
    ensures exists f :: f in p.Outgoing(n) && HeadAt(p, m, j + 1, p.Target(f)) && p.Target(f) < |p.nodes|
  {
    hide Certified, SidePathsOk, WellFormed, OneWay, Inv, Advanced;
    HeadPasses(p, m, j - 1);
    HeadPasses(p, m, j);
    HeadPasses(p, m, j + 1);
    var before := Advanced(p, m, j - 1).m.q[0].node;
    var g :| g in p.Outgoing(before) && p.Target(g) == n;
    NoStartAhead(p, before, g);
  }

  /** Some step spins exactly when some run comes to a cycle of exclusive gateways. */
  lemma SpinsExactlyWhenCycleIsComeTo(p: Process)
    requires Linted(p) && OneWay(p)
    ensures SomeStepSpins(p) <==> exists R :: R != {} && Cyclic(p, R) && ComeTo(p, R)
  {
    hide Linted, OneWay, Cyclic, SameGraph, StepOf, Enters;
    if SomeStepSpins(p) {
      var p', commands, c :| SpinsOn(p, p', commands, c);
      OneWayToo(p, p');
      var R, k := SpinIsCyclic(p', commands, c);
      SameBack(p, p');
      CyclicToo(p', p, R);
      assert EntersOn(p, p', commands, c, k, R);
    }
    if R: set<NodeIx> :| R != {} && Cyclic(p, R) && ComeTo(p, R) {
      var p', commands, c, k: nat :| EntersOn(p, p', commands, c, k, R);
      OneWayToo(p, p');
      CyclicToo(p, p', R);
      CycleHolds(p', R, commands, c, k);
      var before, first :| SpinsOn(p', Kept(p', R), before, first);
      SameTwice(p, p', Kept(p', R));
      assert SpinsOn(p, Kept(p', R), before, first);
    }
  }

  lemma SameBack(p: Process, p': Process)
    requires SameGraph(p, p')
    ensures SameGraph(p', p)
  {
  }

  /** Where every exclusive gateway can be come to, the condition on the graph is
      exact: every step of every run returns, whatever the conditions say, if and
      only if no cycle is free of waits. */
  lemma ReturnsExactlyWhenNoCycle(p: Process)
    requires Linted(p) && OneWay(p)
    requires forall n: NodeIx :: n < |p.nodes| && p.KindOf(n).ExclusiveGateway? ==> ComeTo(p, {n})
    ensures SomeStepSpins(p) <==> !NoWaitFreeCycle(p)
  {
    hide WellFormed, Certified, SidePathsOk, Cyclic, ComeTo, SomeStepSpins, NoWaitFreeCycle;
    CycleIsExclusive(p);
    SpinsExactlyWhenCycleIsComeTo(p);
    if R: set<NodeIx> :| R != {} && Cyclic(p, R) {
      var n :| n in R;
      CyclicNode(p, R, n);
      ComeToMore(p, {n}, R);
    }
  }

  lemma CyclicNode(p: Process, R: set<NodeIx>, n: NodeIx)
    requires Cyclic(p, R) && n in R
    ensures n < |p.nodes| && p.KindOf(n).ExclusiveGateway?
  {
  }

  lemma ComeToMore(p: Process, R: set<NodeIx>, S: set<NodeIx>)
    requires ComeTo(p, R) && R <= S
    ensures ComeTo(p, S)
  {
    hide SameGraph, Linted, After, OpenCommand, Advanced;
    var p', commands, c, k: nat :| EntersOn(p, p', commands, c, k, R);
    assert EntersOn(p, p', commands, c, k, S);
  }
}
