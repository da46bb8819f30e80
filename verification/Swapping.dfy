/** What a run reads of a process: a gateway's conditions not before a token comes to
    it. Processes that differ in the conditions of some gateways alone have the same
    runs until one of those is entered. */
module Swapping {
  import opened Basics
  import opened Json
  import opened Compiled
  import opened State
  import opened Advance
  import opened Step
  import opened Game
  import opened Invariant
  import opened Running
  import opened Runs
  import opened Rings
  import opened Repairing

  /** The same process but for the conditions on flows out of `R`. */
  ghost predicate Apart(p: Process, p': Process, R: set<NodeIx>) {
    SameGraph(p, p') && forall f: FlowIx :: p.Source(f) !in R ==> p'.FlowAt(f).condition == p.FlowAt(f).condition
  }

  // ---- nothing but a gateway reads a condition

  lemma SameLeave(p: Process, p': Process, m: Machine, token: TokenId, n: NodeIx)
    requires SameGraph(p, p')
    ensures LeaveSingle(p', m, token, n) == LeaveSingle(p, m, token, n)
  {
    assert p'.Outgoing(n) == p.Outgoing(n);
  }

  lemma SameArm(p: Process, p': Process, m: Machine, token: TokenId, n: NodeIx)
    requires SameGraph(p, p')
    ensures Arm(p', m, token, n) == Arm(p, m, token, n)
  {
    hide ArmTimer, Subscribe;
    assert p'.KindOf(n) == p.KindOf(n);
    match p.KindOf(n)
    case TimerCatch(due) => SameTimer(p, p', m, token, n, due);
    case TimerBoundary(due, _) => SameTimer(p, p', m, token, n, due);
    case _ => SameSubscribe(p, p', m, token, n);
  }

  lemma SameTimer(p: Process, p': Process, m: Machine, token: TokenId, n: NodeIx, due: TimerSource)
    requires SameGraph(p, p')
    ensures ArmTimer(p', m, token, n, due) == ArmTimer(p, m, token, n, due)
  {
    hide Freeze, RecordTimer;
  }

  lemma SameSubscribe(p: Process, p': Process, m: Machine, token: TokenId, n: NodeIx)
    requires SameGraph(p, p')
    ensures Subscribe(p', m, token, n) == Subscribe(p, m, token, n)
  {
    SameKey(p, p', m.s, m.s.variables, n, None);
    hide Freeze, OpenSub, ArmKey;
  }

  lemma SameKey(p: Process, p': Process, s: Instance, variables: Value, n: NodeIx, excluding: Option<SubId>)
    requires SameGraph(p, p')
    ensures ArmKey(p', s, variables, n, excluding) == ArmKey(p, s, variables, n, excluding)
  {
    assert p'.KindOf(n) == p.KindOf(n);
  }

  lemma {:induction false} SameArmAll(p: Process, p': Process, m: Machine, token: TokenId, elements: seq<NodeIx>)
    requires SameGraph(p, p')
    ensures ArmAll(p', m, token, elements) == ArmAll(p, m, token, elements)
    decreases |elements|
  {
    hide Arm, SameGraph;
    if elements == [] {
    } else {
      SameArm(p, p', m, token, elements[0]);
      SameArmAll(p, p', Arm(p, m, token, elements[0]).m, token, elements[1..]);
    }
  }

  lemma {:induction false} SameAlternatives(p: Process, p': Process, m: Machine, token: TokenId, elements: seq<NodeIx>)
    requires SameGraph(p, p')
    ensures ArmAlternatives(p', m, token, elements) == ArmAlternatives(p, m, token, elements)
    decreases |elements|
  {
    hide Arm;
    if elements == [] {
    } else {
      assert p'.IsCatch(elements[0]) <==> p.IsCatch(elements[0]);
      hide SameGraph, Process.IsCatch;
      SameArm(p, p', m, token, elements[0]);
      SameAlternatives(p, p', Arm(p, m, token, elements[0]).m, token, elements[1..]);
    }
  }

  lemma SameTargets(p: Process, p': Process, flows: seq<FlowIx>)
    requires SameGraph(p, p')
    ensures Targets(p', flows) == Targets(p, flows)
  {
  }

  lemma {:induction false} SameFork(p: Process, p': Process, m: Machine, flows: seq<FlowIx>)
    requires SameGraph(p, p')
    ensures ForkOn(p', m, flows) == ForkOn(p, m, flows)
    decreases |flows|
  {
    if flows == [] {
    } else {
      SameFork(p, p', Leave(p, FreshToken(m), m.s.nextToken, flows[0]), flows[1..]);
    }
  }

  lemma {:induction false} SameHolding(p: Process, p': Process, R: set<NodeIx>, flows: seq<FlowIx>, defaultFlow: Option<FlowIx>, v: Value)
    requires Apart(p, p', R) && forall f :: f in flows ==> p.Source(f) !in R
    ensures FirstHolding(p', flows, defaultFlow, v) == FirstHolding(p, flows, defaultFlow, v)
    decreases |flows|
  {
    if flows == [] {
    } else {
      assert flows[0] in flows && forall f :: f in flows[1..] ==> f in flows;
      assert Holds(p', flows[0], v) <==> Holds(p, flows[0], v);
      hide Apart, Holds;
      SameHolding(p, p', R, flows[1..], defaultFlow, v);
    }
  }

  lemma SameChosen(p: Process, p': Process, R: set<NodeIx>, n: NodeIx, d: Option<FlowIx>, v: Value)
    requires FlowsWired(p) && Apart(p, p', R) && n < |p.nodes| && n !in R
    ensures Chosen(p', n, d, v) == Chosen(p, n, d, v)
  {
    forall f | f in p.Outgoing(n) ensures p.Source(f) !in R {
      OutOf(p, n, f);
    }
    assert p'.Outgoing(n) == p.Outgoing(n);
    SameHolding(p, p', R, p.Outgoing(n), d, v);
    hide FirstHolding;
  }

  lemma SameCompletes(p: Process, p': Process, m: Machine, scope: ScopeId)
    requires SameGraph(p, p')
    ensures CompleteScope(p', m, scope) == CompleteScope(p, m, scope)
  {
    hide WithdrawArms, LeaveSingle;
    if scope in m.s.scopes {
      var closed := m.s.scopes[scope];
      var m1 := Finished(WithdrawArms(DropScope(m, scope), closed.token), closed.element);
      SameLeave(p, p', Unpark(m1, {closed.token}).(scope := closed.parent), closed.token, closed.element);
    }
  }

  lemma SameTask(p: Process, p': Process, m: Machine, token: TokenId, n: NodeIx)
    requires SameGraph(p, p')
    ensures forall work, topic :: EnterTask(p', m, token, n, work, topic) == EnterTask(p, m, token, n, work, topic)
    ensures EnterMessageCatch(p', m, token, n) == EnterMessageCatch(p, m, token, n)
    ensures forall body :: EnterSubProcess(p', m, token, n, body) == EnterSubProcess(p, m, token, n, body)
  {
    assert p'.Boundaries(n) == p.Boundaries(n) && forall k: ScopeIx :: p'.ScopeStart(k) == p.ScopeStart(k);
    forall m1: Machine ensures ArmAll(p', m1, token, p.Boundaries(n)) == ArmAll(p, m1, token, p.Boundaries(n)) {
      SameArmAll(p, p', m1, token, p.Boundaries(n));
    }
    SameSubscribe(p, p', Started(m, n), token, n);
    hide ArmAll, Subscribe, SameGraph, Process.ScopeStart;
  }

  lemma SameJoin(p: Process, p': Process, m: Machine, token: TokenId, n: NodeIx, via: Option<FlowIx>)
    requires SameGraph(p, p')
    ensures EnterJoin(p', m, token, n, via) == EnterJoin(p, m, token, n, via)
  {
    assert p'.Incoming(n) == p.Incoming(n);
    forall m1: Machine, t: TokenId ensures LeaveSingle(p', m1, t, n) == LeaveSingle(p, m1, t, n) {
      SameLeave(p, p', m1, t, n);
    }
    hide LeaveSingle, ArrivedOn, SameGraph;
  }

  lemma SameEnds(p: Process, p': Process, m: Machine, n: NodeIx)
    requires SameGraph(p, p')
    ensures EnterEnd(p', m, n) == EnterEnd(p, m, n) && EnterTerminateEnd(p', m, n) == EnterTerminateEnd(p, m, n)
  {
    hide CompleteScope, TearDown, ScopeIsEmpty, Terminate;
    var m1 := Finished(Started(m, n), n);
    SameCompletes(p, p', m1, m.scope);
    SameCompletes(p, p', TearDown(m1, m.scope), m.scope);
  }

  /** Entering a node outside `R`. */
  lemma SameEnter(p: Process, p': Process, R: set<NodeIx>, m: Machine, token: TokenId, n: NodeIx, via: Option<FlowIx>)
    requires FlowsWired(p) && Apart(p, p', R) && n < |p.nodes| && n !in R
    ensures Enter(p', m, token, n, via) == Enter(p, m, token, n, via)
  {
    hide FlowsWired, EnterTask, EnterMessageCatch, EnterSubProcess, EnterJoin, EnterEnd, EnterTerminateEnd, ForkOn, ArmAlternatives, ArmTimer,
         LeaveSingle, Chosen, FirstHolding;
    assert SameGraph(p, p');
    assert p'.KindOf(n) == p.KindOf(n) && p'.Incoming(n) == p.Incoming(n) && p'.Outgoing(n) == p.Outgoing(n) && forall f :: p'.Target(f) == p.Target(f);
    match p.KindOf(n) {
      case Start => SameLeave(p, p', Finished(Started(m, n), n), token, n);
      case ExclusiveGateway(d) => SameChosen(p, p', R, n, d, m.s.variables);
      case ParallelGateway =>
        SameJoin(p, p', m, token, n, via);
        SameFork(p, p', Finished(Started(m, n), n), p.Outgoing(n));
      case End => SameEnds(p, p', m, n);
      case TerminateEnd => SameEnds(p, p', m, n);
      case TimerCatch(due) => SameTimer(p, p', Started(m, n), token, n, due);
      case EventBasedGateway =>
        SameTargets(p, p', p.Outgoing(n));
        SameAlternatives(p, p', Park(Started(m, n), token, n, AtEventGateway), token, Targets(p, p.Outgoing(n)));
      case Task(_, _) => SameTask(p, p', m, token, n);
      case MessageCatch(_, _) => SameTask(p, p', m, token, n);
      case SubProcess(_) => SameTask(p, p', m, token, n);
      case _ =>
    }
    hide Apart, SameGraph;
  }

  // ---- nor does a command

  lemma SameInterrupt(p: Process, p': Process, m: Machine, token: TokenId, boundary: NodeIx)
    requires SameGraph(p, p')
    ensures InterruptToBoundary(p', m, token, boundary) == InterruptToBoundary(p, m, token, boundary)
    ensures InterruptHost(p', m, token, boundary) == InterruptHost(p, m, token, boundary)
  {
    forall m1: Machine ensures LeaveSingle(p', m1, token, boundary) == LeaveSingle(p, m1, token, boundary) {
      SameLeave(p, p', m1, token, boundary);
    }
    hide LeaveSingle, SameGraph, TearDown, WithdrawArms, Withdraw;
    assert forall m1: Machine :: InterruptToBoundary(p', m1, token, boundary) == InterruptToBoundary(p, m1, token, boundary);
    hide InterruptToBoundary;
  }

  lemma {:induction false} SameFlowTo(p: Process, p': Process, flows: seq<FlowIx>, n: NodeIx)
    requires SameGraph(p, p')
    ensures FlowTo(p', flows, n) == FlowTo(p, flows, n)
    decreases |flows|
  {
    if flows == [] {
    } else {
      SameFlowTo(p, p', flows[1..], n);
    }
  }

  lemma SameRace(p: Process, p': Process, m: Machine, token: TokenId, gateway: NodeIx, winner: NodeIx)
    requires SameGraph(p, p')
    ensures TakeGatewayPath(p', m, token, gateway, winner) == TakeGatewayPath(p, m, token, gateway, winner)
  {
    assert p'.Outgoing(gateway) == p.Outgoing(gateway);
    SameFlowTo(p, p', p.Outgoing(gateway), winner);
    forall m1: Machine ensures LeaveSingle(p', m1, token, winner) == LeaveSingle(p, m1, token, winner) {
      SameLeave(p, p', m1, token, winner);
    }
    hide LeaveSingle, SameGraph, FlowTo;
  }

  lemma SameSideToken(p: Process, p': Process, m: Machine, boundary: NodeIx)
    requires SameGraph(p, p')
    ensures SpawnSideToken(p', m, boundary) == SpawnSideToken(p, m, boundary)
  {
    SameLeave(p, p', Finished(Started(FreshToken(m), boundary), boundary), m.s.nextToken, boundary);
    hide LeaveSingle;
  }

  lemma SameAside(p: Process, p': Process, m: Machine)
    requires SameGraph(p, p')
    ensures forall k, timer :: TimerSidePath(p', m, k, timer) == TimerSidePath(p, m, k, timer)
    ensures forall sub :: MessageSidePath(p', m, sub) == MessageSidePath(p, m, sub)
  {
    forall m1: Machine, b: NodeIx ensures SpawnSideToken(p', m1, b) == SpawnSideToken(p, m1, b) {
      SameSideToken(p, p', m1, b);
    }
    forall m1: Machine, token: TokenId, n: NodeIx ensures Subscribe(p', m1, token, n) == Subscribe(p, m1, token, n) {
      SameSubscribe(p, p', m1, token, n);
    }
    hide SpawnSideToken, Subscribe, SameGraph, RearmCycle;
  }

  lemma {:induction false} SameCatcher(p: Process, p': Process, scopes: map<ScopeId, Scope>, host: NodeIx, token: TokenId, scope: ScopeId, code: Option<string>)
    requires SameGraph(p, p')
    ensures Catcher(p', scopes, host, token, scope, code) == Catcher(p, scopes, host, token, scope, code)
    decreases scope
  {
    assert p'.ErrorBoundary(host, code) == p.ErrorBoundary(host, code);
    if p.ErrorBoundary(host, code).Some? || scope !in scopes || scopes[scope].parent >= scope {
    } else {
      hide SameGraph;
      SameCatcher(p, p', scopes, scopes[scope].element, scopes[scope].token, scopes[scope].parent, code);
    }
  }

  lemma SameWork(p: Process, p': Process, s: Instance)
    requires SameGraph(p, p')
    ensures forall id, patch :: OpenCompleteWorkItem(p', s, id, patch) == OpenCompleteWorkItem(p, s, id, patch)
    ensures forall id, answer, detail :: OpenCompleteDecision(p', s, id, answer, detail) == OpenCompleteDecision(p, s, id, answer, detail)
    ensures forall variables :: OpenStart(p', s, variables) == OpenStart(p, s, variables)
  {
    assert p'.ScopeStart(0) == p.ScopeStart(0);
    forall n: NodeIx ensures p'.KindOf(n) == p.KindOf(n) {
      SameNode(p, p', n);
    }
    forall m1: Machine, token: TokenId, n: NodeIx ensures LeaveSingle(p', m1, token, n) == LeaveSingle(p, m1, token, n) {
      SameLeave(p, p', m1, token, n);
    }
    hide LeaveSingle, SameGraph, WithdrawArms, Patched, Freeze, Process.KindOf, Assign, Process.ScopeStart;
  }

  lemma SameError(p: Process, p': Process, s: Instance, id: ItemId, code: Option<string>)
    requires SameGraph(p, p')
    ensures OpenRaiseError(p', s, id, code) == OpenRaiseError(p, s, id, code)
  {
    forall m1: Machine, token: TokenId, b: NodeIx ensures InterruptToBoundary(p', m1, token, b) == InterruptToBoundary(p, m1, token, b) {
      SameInterrupt(p, p', m1, token, b);
    }
    forall host: NodeIx, token: TokenId, scope: ScopeId ensures Catcher(p', s.scopes, host, token, scope, code) == Catcher(p, s.scopes, host, token, scope, code) {
      SameCatcher(p, p', s.scopes, host, token, scope, code);
    }
    hide InterruptToBoundary, Catcher, SameGraph, Freeze;
  }

  lemma SameFiring(p: Process, p': Process, s: Instance, id: TimerId)
    requires SameGraph(p, p')
    ensures OpenFireTimer(p', s, id) == OpenFireTimer(p, s, id)
  {
    hide LeaveSingle, InterruptHost, TakeGatewayPath, TimerSidePath, WithdrawArms, Process.Interrupts;
    if id in s.timers && s.timers[id].token in s.tokens {
      var token, n := s.timers[id].token, s.timers[id].element;
      var t := s.tokens[token];
      var m := Say(Idle(s.(timers := s.timers - {id})), TimerFired(id, n));
      SameLeave(p, p', Finished(Unpark(m, {token}).(scope := t.scope), n), token, n);
      SameInterrupt(p, p', m, token, n);
      SameAside(p, p', m);
      SameRace(p, p', WithdrawArms(m.(scope := t.scope), token), token, t.node, n);
      SameInterrupts(p, p', n);
    }
    hide SameGraph;
  }

  lemma SameInterrupts(p: Process, p': Process, n: NodeIx)
    requires SameGraph(p, p')
    ensures p'.Interrupts(n) <==> p.Interrupts(n)
  {
    assert p'.KindOf(n) == p.KindOf(n);
  }

  lemma SameDelivery(p: Process, p': Process, s: Instance, id: SubId, patch: Value)
    requires SameGraph(p, p')
    ensures OpenDeliverMessage(p', s, id, patch) == OpenDeliverMessage(p, s, id, patch)
  {
    hide LeaveSingle, InterruptHost, TakeGatewayPath, MessageSidePath, WithdrawArms, Process.Interrupts, ArmKey, Patched, Merge;
    if id in s.subs {
      var sub := s.subs[id];
      SameKey(p, p', s, Merge(s.variables, patch), sub.element, Some(id));
      SameInterrupts(p, p', sub.element);
      assert p'.KindOf(sub.element) == p.KindOf(sub.element);
      var m := Patched(Say(Idle(s.(subs := s.subs - {id})), MessageReceived(id, sub.element, sub.message)), patch);
      var t := m.s.TokenAt(sub.token);
      SameLeave(p, p', Finished(Unpark(WithdrawArms(m.(scope := t.scope), sub.token), {sub.token}), sub.element), sub.token, sub.element);
      SameInterrupt(p, p', m, sub.token, sub.element);
      SameAside(p, p', m);
      SameRace(p, p', WithdrawArms(m.(scope := t.scope), sub.token), sub.token, t.node, sub.element);
    }
    hide SameGraph;
  }

  lemma SameResume(p: Process, p': Process, s: Instance, cause: TokenId, d: Disposition)
    requires SameGraph(p, p') && cause in s.tokens
    ensures p'.ResumePoint(s.TokenAt(cause).node) == p.ResumePoint(s.TokenAt(cause).node)
    ensures DispositionRefusal(p', s, cause, d) == DispositionRefusal(p, s, cause, d)
  {
    var n := s.tokens[cause].node;
    assert p'.Incoming(n) == p.Incoming(n);
    var resume := p.ResumePoint(n);
    assert p'.ResumePoint(n) == resume && p'.KindOf(resume) == p.KindOf(resume) && (p'.OnSidePath(resume) <==> p.OnSidePath(resume));
    if d.Divert? {
      SameCatcher(p, p', s.scopes, resume, cause, s.tokens[cause].scope, d.code);
    }
    hide SameGraph, Catcher, Process.ResumePoint, Process.KindOf, Process.OnSidePath;
  }

  lemma SameDisposed(p: Process, p': Process, m: Machine, cause: TokenId, resume: NodeIx, d: Disposition)
    requires SameGraph(p, p')
    ensures Disposed(p', m, cause, resume, d) == Disposed(p, m, cause, resume, d)
  {
    hide LeaveSingle, Catcher, InterruptToBoundary, CompleteScope, ScopeIsEmpty, Terminate, Assign;
    assert p'.KindOf(resume) == p.KindOf(resume);
    match d {
      case AdvancePast(_, answer) =>
        var kind := p.KindOf(resume);
        var m1 := Unpark(m, {cause});
        var m2 := if answer.Some? && kind.BusinessRule?
                  then m1.(s := m1.s.(variables := Assign(m1.s.variables, kind.result, answer.value))) else m1;
        SameLeave(p, p', Finished(m2, resume), cause, resume);
      case Divert(code) =>
        SameCatcher(p, p', m.s.scopes, resume, cause, m.scope, code);
        var caught := Catcher(p, m.s.scopes, resume, cause, m.scope, code);
        if caught.Some? {
          SameInterrupt(p, p', m, caught.value.0, caught.value.1);
        }
      case Abandon => SameCompletes(p, p', Unpark(m, {cause}), m.scope);
      case _ =>
    }
    hide SameGraph;
  }

  lemma SameRefusal(p: Process, p': Process, s: Instance, incident: nat, d: Disposition, why: string)
    requires SameGraph(p, p')
    ensures RepairRefusal(p', s, incident, d, why) == RepairRefusal(p, s, incident, d, why)
  {
    hide DispositionRefusal, Blank, Causes, Sorted, Process.ResumePoint;
    CausesParked(s);
    if Causes(s) != {} {
      var ids := Sorted(Causes(s));
      assert ids[0] in ids;
      SameResume(p, p', s, ids[0], d);
    }
    hide SameGraph;
  }

  lemma SameRepair(p: Process, p': Process, s: Instance, incident: nat, d: Disposition, why: string)
    requires SameGraph(p, p')
    ensures OpenRepair(p', s, incident, d, why) == OpenRepair(p, s, incident, d, why)
  {
    hide SameGraph, Disposed, Collateral, Accepted, RepairRefusal, Causes, Sorted, Process.ResumePoint;
    SameRefusal(p, p', s, incident, d, why);
    if RepairRefusal(p, s, incident, d, why).None? {
      RepairAccepted(p, s, incident, d, why);
      RepairAccepted(p', s, incident, d, why);
      var cause := CauseOf(s);
      SameResume(p, p', s, cause, d);
      SameAccepted(p, p', s, cause, incident, d, why);
      SameDisposed(p, p', Accepted(p, s, cause, incident, d, why), cause, p.ResumePoint(s.tokens[cause].node), d);
      hide OpenRepair;
    }
  }

  lemma SameAccepted(p: Process, p': Process, s: Instance, cause: TokenId, incident: nat, d: Disposition, why: string)
    requires cause in s.tokens
    ensures Accepted(p', s, cause, incident, d, why) == Accepted(p, s, cause, incident, d, why)
  {
  }

  /** Commands open alike. */
  lemma SameOpening(p: Process, p': Process, s: Instance, c: Command)
    requires SameGraph(p, p')
    ensures OpenCommand(p', s, c) == OpenCommand(p, s, c)
  {
    hide SameGraph, OpenStart, OpenCompleteWorkItem, OpenRaiseError, OpenFireTimer, OpenDeliverMessage, OpenCompleteDecision, OpenRepair;
    match c
    case StartWith(_) => SameWork(p, p', s);
    case CompleteWorkItem(_, _) => SameWork(p, p', s);
    case CompleteDecision(_, _, _) => SameWork(p, p', s);
    case RaiseError(id, code) => SameError(p, p', s, id, code);
    case FireTimer(id) => SameFiring(p, p', s, id);
    case DeliverMessage(id, patch) => SameDelivery(p, p', s, id, patch);
    case Repair(incident, d, why) => SameRepair(p, p', s, incident, d, why);
  }

  lemma {:induction false} SameReask(p: Process, p': Process, m: Machine, ids: seq<TokenId>)
    requires SameGraph(p, p')
    ensures Reask(p', m, ids) == Reask(p, m, ids)
    decreases |ids|
  {
    if ids == [] {
    } else if ids[0] !in m.s.tokens {
      SameReask(p, p', m, ids[1..]);
    } else {
      var t := m.s.tokens[ids[0]];
      var m1 := m.(s := m.s.(tokens := m.s.tokens[ids[0] := t.(wait := OnDecision)]));
      var kind := p.KindOf(t.node);
      assert p'.KindOf(t.node) == kind;
      SameReask(p, p', if kind.BusinessRule? then Say(m1, DecisionRequested(t.node, kind.decision)) else m1, ids[1..]);
    }
  }

  lemma SameSettle(p: Process, p': Process, m: Machine)
    requires SameGraph(p, p')
    ensures Settle(p', m) == Settle(p, m)
  {
    hide SameGraph, Reask;
    SameReask(p, p', m, m.reask);
  }

  // ---- until a gateway of `R` is come to

  /** After `k` moves the next is onto a node of `R`. */
  ghost predicate Comes(p: Process, m: Machine, k: int, R: set<NodeIx>) {
    var o := Advanced(p, m, k);
    o.Ok? && o.m.q != [] && o.m.Head().node in R
  }

  lemma HeadIsNode(p: Process, m: Machine)
    requires Inv(p, m, {}) && m.q != []
    ensures m.Head().node < |p.nodes| && m.s.status.Active?
  {
    assert m.q[0] in m.q;
    assert MoveOk(p, m.s, m.q[0]);
  }

  lemma ComesLater(p: Process, m: Machine, k: nat, R: set<NodeIx>)
    requires m.q != [] && Advance1(p, m).Ok?
    ensures Comes(p, Advance1(p, m).m, k, R) <==> Comes(p, m, k + 1, R)
  {
    hide Advance1;
    assert Advanced(p, m, k + 1) == Advanced(p, Advance1(p, m).m, k);
  }

  lemma {:induction false} SameAdvanced(p: Process, p': Process, R: set<NodeIx>, m: Machine, k: nat)
    requires Linted(p) && Inv(p, m, {}) && Apart(p, p', R) && forall j: nat :: j < k ==> !Comes(p, m, j, R)
    ensures Advanced(p', m, k) == Advanced(p, m, k)
    decreases k
  {
    hide Inv, Certified, SidePathsOk, Advance1, Apart, ShapeOk, BoundariesOk, StaticScopesOk, FlowsWired, Comes;
    if k == 0 || m.q == [] {
    } else {
      HeadIsNode(p, m);
      FirstIsElsewhere(p, m, R);
      SameAdvance1(p, p', R, m);
      Advance1Keeps(p, m);
      forall j: nat | j < k - 1 ensures !Comes(p, Advance1(p, m).m, j, R) {
        ComesLater(p, m, j, R);
      }
      SameAdvanced(p, p', R, Advance1(p, m).m, k - 1);
    }
  }

  lemma FirstIsElsewhere(p: Process, m: Machine, R: set<NodeIx>)
    requires m.q != [] && !Comes(p, m, 0, R)
    ensures m.Head().node !in R
  {
  }

  lemma SameAdvance1(p: Process, p': Process, R: set<NodeIx>, m: Machine)
    requires FlowsWired(p) && Apart(p, p', R) && m.q != [] && m.Head().node < |p.nodes| && m.Head().node !in R
    ensures Advance1(p', m) == Advance1(p, m)
  {
    hide FlowsWired, Apart, Enter;
    SameEnter(p, p', R, m.(q := m.q[1..], scope := m.q[0].scope), m.q[0].token, m.q[0].node, m.q[0].via);
  }

  /** A step that does not come to `R` is the same step. */
  lemma SameStep(p: Process, p': Process, R: set<NodeIx>, s: Instance, c: Command)
    requires Linted(p) && Linted(p') && Resting(p, s) && Resting(p', s) && Apart(p, p', R)
    requires var o := OpenCommand(p, s, c); o.Opened? ==> forall k: nat :: !Comes(p, o.At(), k, R)
    ensures StepOf(p', s, c) == StepOf(p, s, c)
  {
    hide Linted, Resting, OpenCommand, Inv, Comes, Advanced, Settle, SameGraph;
    OpenSound(p, s, c);
    OpenSound(p', s, c);
    SameOpening(p, p', s, c);
    var o := OpenCommand(p, s, c);
    if o.Opened? {
      assert o.At() == o.m;
      forall k: nat ensures Advanced(p', o.m, k) == Advanced(p, o.m, k) && (EndsIn(p', o.m, k) <==> EndsIn(p, o.m, k)) {
        SameAdvanced(p, p', R, o.m, k);
      }
      assert Ends(p', o.m) <==> Ends(p, o.m);
      if Ends(p, o.m) {
        var k: nat :| EndsIn(p, o.m, k);
        assert EndsIn(p', o.m, k);
        DrainIs(p, o.m, k);
        DrainIs(p', o.m, k);
        SameSettle(p, p', Drain(p, o.m));
      }
    }
  }

  /** After the commands, `k` moves into the next step, a token comes to `R`. */
  ghost predicate Enters(p: Process, commands: seq<Command>, c: Command, k: int, R: set<NodeIx>) {
    var o := OpenCommand(p, After(p, commands).s, c);
    o.Opened? && Comes(p, o.At(), k, R)
  }

  /** No step of these commands comes to `R`. */
  ghost predicate Avoids(p: Process, commands: seq<Command>, R: set<NodeIx>) {
    forall i, k: nat :: 0 <= i < |commands| ==> !Enters(p, commands[..i], commands[i], k, R)
  }

  /** A run that never comes to `R` is the same run. */
  lemma {:induction false} SameAfter(p: Process, p': Process, R: set<NodeIx>, commands: seq<Command>)
    requires Linted(p) && Linted(p') && Apart(p, p', R)
    requires Avoids(p, commands, R)
    ensures After(p', commands) == After(p, commands)
    decreases |commands|
  {
    hide Linted, Resting, Apart, StepOf, Enters;
    if commands == [] {
    } else {
      var front, c := commands[..|commands| - 1], commands[|commands| - 1];
      forall i, k: nat | 0 <= i < |front| ensures !Enters(p, front[..i], front[i], k, R) {
        assert front[..i] == commands[..i];
      }
      SameAfter(p, p', R, front);
      forall k: nat ensures !Enters(p, front, c, k, R) {
      }
      NeverComes(p, front, c, R);
      SameStep(p, p', R, After(p, front).s, c);
    }
  }

  lemma NeverComes(p: Process, commands: seq<Command>, c: Command, R: set<NodeIx>)
    requires Linted(p) && forall k: nat :: !Enters(p, commands, c, k, R)
    ensures var o := OpenCommand(p, After(p, commands).s, c); o.Opened? ==> forall k: nat :: !Comes(p, o.At(), k, R)
  {
    hide Linted, OpenCommand, Comes, After;
    forall k: nat | OpenCommand(p, After(p, commands).s, c).Opened? ensures !Comes(p, OpenCommand(p, After(p, commands).s, c).m, k, R) {
      assert !Enters(p, commands, c, k, R);
    }
  }

  /** The first time that `R` is come to. */
  lemma {:induction false} FirstEntry(p: Process, commands: seq<Command>, c: Command, k: nat, R: set<NodeIx>)
    returns (before: seq<Command>, first: Command, moves: nat)
    requires Linted(p) && Enters(p, commands, c, k, R)
    ensures Enters(p, before, first, moves, R)
    ensures Avoids(p, before, R)
    ensures forall j: nat :: j < moves ==> !Enters(p, before, first, j, R)
    decreases |commands|, k
  {
    hide Linted, Enters;
    if i, j: nat :| 0 <= i < |commands| && Enters(p, commands[..i], commands[i], j, R) {
      before, first, moves := FirstEntry(p, commands[..i], commands[i], j, R);
    } else if j: nat :| j < k && Enters(p, commands, c, j, R) {
      before, first, moves := FirstEntry(p, commands, c, j, R);
    } else {
      before, first, moves := commands, c, k;
    }
  }
}
