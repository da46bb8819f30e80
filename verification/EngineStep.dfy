/** The step function as the engine runs it: checks, then updates in place, then
    the advancer. A refusal leaves the instance exactly as it was. */
module EngineStep {
  import opened Basics
  import opened Json
  import opened Compiled
  import opened State
  import opened Advance
  import opened Step
  import opened Invariant
  import opened Stepping
  import opened Repairing
  import opened Incident
  import opened Running
  import opened Runs
  import opened EngineState
  import opened EngineAdvancer

  /** `StillRunning`: the advancer had not come to rest when its fuel was spent. */
  datatype Answer = Done(ev: seq<Event>) | Error(error: StepError) | StillRunning

  function AnswerOf(r: Stepped): Answer {
    match r.error
    case Some(e) => Error(e)
    case None => Done(r.ev)
  }

  /** What a command answers and leaves, by how it opens: a refusal leaves the
      instance as it was, and only a queue that outlasts the fuel is left running. */
  ghost predicate Answered(p: Process, s: Instance, o: Opening, fuel: nat, a: Answer, after: Instance) {
    match o
    case Refused(e) => a == Error(e) && after == s
    case Opened(m) => Inv(p, m, {}) && Ran(p, m, fuel, a, after)
    case Ended(m) => a == Done(m.ev) && after == m.s
  }

  ghost predicate Ran(p: Process, m: Machine, fuel: nat, a: Answer, after: Instance) {
    if EndsIn(p, m, fuel) then a == Done(Run(p, m).ev) && after == Run(p, m).s
    else a == StillRunning && Advanced(p, m, fuel).Ok? && after == Advanced(p, m, fuel).m.s
  }

  lemma Opens(p: Process, s: Instance, c: Command)
    requires Linted(p) && Resting(p, s) && (s.status.Active? ==> Asked(s, c))
    ensures Sound(p, OpenCommand(p, s, c))
    ensures ParentsOlder(s.scopes)
  {
    hide Linted, Resting, OpenCommand, Sound;
    OpenSound(p, s, c);
    RestingNests(p, s);
  }

  lemma DecisionOpens(p: Process, s: Instance, token: TokenId, answer: Option<Value>, detail: Option<string>)
    requires Linted(p) && Resting(p, s) && token in s.tokens && s.TokenAt(token).wait.OnDecision?
    ensures Sound(p, OpenCompleteDecision(p, s, token, answer, detail))
  {
    hide Resting, Sound, OpenCompleteDecision, WellFormed;
    CompleteDecisionSound(p, s, token, answer, detail);
  }

  lemma RepairOpens(p: Process, s: Instance, incident: nat, d: Disposition, why: string)
    requires Linted(p) && Resting(p, s)
    ensures var o := OpenRepair(p, s, incident, d, why);
            o != Refused(InvariantViolated) && (o.Opened? ==> Inv(p, o.At(), {}))
  {
    hide Resting, OpenRepair, WellFormed, SidePathsOk, Inv;
    RepairSound(p, s, incident, d, why);
  }

  lemma RestingNests(p: Process, s: Instance)
    requires Resting(p, s)
    ensures ParentsOlder(s.scopes)
  {
  }

  method Finish(p: Process, adv: Advancer, state: InstanceState, fuel: nat) returns (a: Answer)
    requires Linted(p) && adv.p == p && Inv(p, adv.View(state), {})
    modifies adv, state
    ensures Ran(p, old(adv.View(state)), fuel, a, state.View())
  {
    hide Linted, Ends, EndsIn, Inv, Run, Advanced;
    var _, rests := adv.Run(state, fuel);
    a := if rests then Done(adv.events) else StillRunning;
  }

  /** A patch that is not `{}` is merged, and said. */
  method Patch(adv: Advancer, state: InstanceState, patch: Value)
    modifies adv, state
    ensures adv.View(state) == Patched(old(adv.View(state)), patch)
  {
    if patch != EMPTY {
      state.variables := MergePatch(state.variables, patch);
      adv.events := adv.events + [VariablesPatched(patch)];
    }
  }

  method Start(p: Process, state: InstanceState, variables: Value, fuel: nat) returns (a: Answer)
    requires Linted(p) && Resting(p, state.View())
    modifies state
    ensures Answered(p, old(state.View()), OpenStart(p, old(state.View()), variables), fuel, a, state.View())
  {
    hide Linted, Resting, EndsIn, Advanced, Ends, Inv, Run;
    Opens(p, state.View(), StartWith(variables));
    match state.status {
      case Created =>
      case Active => return Error(AlreadyStarted);
      case _ => return Error(InstanceNotActive(state.status));
    }
    state.status, state.variables := Active, variables;
    var adv := new Advancer(p);
    adv.events := adv.events + [InstanceStarted(variables)];
    var token := state.NextTokenId();
    adv.queue := [Move(token, p.ScopeStart(0), None, ROOT)];
    a := Finish(p, adv, state, fuel);
  }

  method CompleteWorkItem(p: Process, state: InstanceState, id: ItemId, patch: Value, fuel: nat) returns (a: Answer)
    requires Linted(p) && Resting(p, state.View())
    modifies state
    ensures Answered(p, old(state.View()), OpenCompleteWorkItem(p, old(state.View()), id, patch), fuel, a, state.View())
  {
    hide Linted, Resting, EndsIn, Advanced, Ends, Inv, Run, Advance.WithdrawArms, Patched, Advance.LeaveSingle;
    Opens(p, state.View(), Command.CompleteWorkItem(id, patch));
    if state.status != Active { return Error(InstanceNotActive(state.status)); }
    if id !in state.items { return Error(UnknownWorkItem(id)); }
    var item := state.items[id];
    if !item.open { return Error(WorkItemNotOpen(id)); }
    CloseOne(state.items, id);
    state.items := state.items[id := item.(open := false)];
    if item.token !in state.tokens { return Error(InvariantViolated); }
    var parked := state.tokens[item.token];
    state.tokens := state.tokens - {item.token};
    var adv := new Advancer(p);
    adv.scope := parked.scope;
    adv.events := adv.events + [WorkItemCompleted(id, item.element)];
    Patch(adv, state, patch);
    adv.WithdrawArms(state, Some(item.token));
    adv.ElementCompleted(state, item.element);
    var ok := adv.LeaveSingle(state, item.token, item.element);
    if !ok { return Error(InvariantViolated); }
    a := Finish(p, adv, state, fuel);
  }

  method Decide(p: Process, adv: Advancer, state: InstanceState, token: TokenId, n: NodeIx, path: seq<string>, value: Value, detail: Option<string>)
    returns (ok: bool)
    requires adv.p == p && path == p.ResultPath(n)
    modifies adv, state
    ensures Became(Decided(p, old(adv.View(state)), token, n, value, detail), ok, adv.View(state))
  {
    hide Advance.WithdrawArms, Advance.LeaveSingle, Assign;
    adv.events := adv.events + [DecisionEvaluated(n, value, if value.Null? then detail else None)];
    state.variables := Assign(state.variables, path, value);
    state.tokens := state.tokens - {token};
    adv.WithdrawArms(state, Some(token));
    adv.ElementCompleted(state, n);
    ok := adv.LeaveSingle(state, token, n);
  }

  method CompleteDecision(p: Process, state: InstanceState, token: TokenId, answer: Option<Value>, detail: Option<string>, fuel: nat) returns (a: Answer)
    requires Linted(p) && Resting(p, state.View())
    modifies state
    ensures Answered(p, old(state.View()), OpenCompleteDecision(p, old(state.View()), token, answer, detail), fuel, a, state.View())
  {
    hide Linted, Resting, EndsIn, Advanced, Ends, Inv, Run, Decided, Advance.Freeze;
    RestingNests(p, state.View());
    if state.status != Active { return Error(InstanceNotActive(state.status)); }
    if token !in state.tokens || !state.tokens[token].wait.OnDecision? { return Error(InvariantViolated); }
    DecisionOpens(p, state.View(), token, answer, detail);
    var parked := state.tokens[token];
    var kind := p.KindOf(parked.node);
    if !kind.BusinessRule? { return Error(InvariantViolated); }
    var adv := new Advancer(p);
    adv.scope := parked.scope;
    match answer
    case None =>
      adv.Freeze(state, token, parked.node, None, detail);
      a := Finish(p, adv, state, fuel);
    case Some(value) =>
      var ok := Decide(p, adv, state, token, parked.node, kind.result, value, detail);
      if !ok { return Error(InvariantViolated); }
      a := Finish(p, adv, state, fuel);
  }

  /** The failing host, then each enclosing subprocess, with the token each step
      outward would interrupt. */
  method Outward(state: InstanceState, host: NodeIx, token: TokenId, scope: ScopeId) returns (hosts: seq<(TokenId, NodeIx)>)
    requires state.Nested()
    ensures hosts == OutwardFrom(state.scopes, host, token, scope)
  {
    hosts := [(token, host)];
    var at := scope;
    assert [] + hosts == hosts;
    while at in state.scopes
      invariant hosts + Enclosing(state.scopes, at) == OutwardFrom(state.scopes, host, token, scope)
      decreases at
    {
      var enclosing := state.scopes[at];
      assert hosts + Enclosing(state.scopes, at) == hosts + [(enclosing.token, enclosing.element)] + Enclosing(state.scopes, enclosing.parent);
      hosts := hosts + [(enclosing.token, enclosing.element)];
      at := enclosing.parent;
    }
    assert hosts + [] == hosts;
  }

  /** The nearest boundary that catches, walking outward. */
  method FindCatcher(p: Process, state: InstanceState, host: NodeIx, token: TokenId, scope: ScopeId, code: Option<string>)
    returns (caught: Option<(TokenId, NodeIx)>)
    requires state.Nested()
    ensures caught == Catcher(p, state.scopes, host, token, scope, code)
  {
    var hosts := Outward(state, host, token, scope);
    CatcherIs(p, state.scopes, host, token, scope, code);
    for i := 0 to |hosts|
      invariant FirstCatching(p, hosts[i..], code) == FirstCatching(p, hosts, code)
    {
      assert hosts[i..][0] == hosts[i] && hosts[i..][1..] == hosts[i + 1..];
      var b := p.ErrorBoundary(hosts[i].1, code);
      if b.Some? { return Some((hosts[i].0, b.value)); }
    }
    caught := None;
  }

  method RaiseError(p: Process, state: InstanceState, id: ItemId, code: Option<string>, fuel: nat) returns (a: Answer)
    requires Linted(p) && Resting(p, state.View())
    modifies state
    ensures Answered(p, old(state.View()), OpenRaiseError(p, old(state.View()), id, code), fuel, a, state.View())
  {
    hide Linted, Resting, EndsIn, Advanced, Ends, Inv, Run, Catcher, Advance.Freeze, Advance.InterruptToBoundary;
    Opens(p, state.View(), Command.RaiseError(id, code));
    if state.status != Active { return Error(InstanceNotActive(state.status)); }
    if id !in state.items { return Error(UnknownWorkItem(id)); }
    var item := state.items[id];
    if !item.open { return Error(WorkItemNotOpen(id)); }
    CloseOne(state.items, id);
    state.items := state.items[id := item.(open := false)];
    var adv := new Advancer(p);
    adv.events := adv.events + [WorkItemFailed(id, item.element, code)];
    var scope := if item.token in state.tokens then state.tokens[item.token].scope else ROOT;
    var caught := FindCatcher(p, state, item.element, item.token, scope, code);
    if caught.Some? {
      var ok := adv.InterruptToBoundary(state, caught.value.0, caught.value.1);
      if !ok { return Error(InvariantViolated); }
      a := Finish(p, adv, state, fuel);
    } else {
      adv.Freeze(state, item.token, item.element, code, None);
      a := Done(adv.events);
    }
  }

  method Fire(p: Process, adv: Advancer, state: InstanceState, id: TimerId, timer: Timer) returns (ok: bool)
    requires adv.p == p && state.Nested()
    modifies adv, state
    ensures Became(Step.FiredAt(p, old(adv.View(state)), id, timer), ok, adv.View(state))
  {
    hide Advance.WithdrawArms, Advance.LeaveSingle, Advance.InterruptHost, Advance.TakeGatewayPath, Advance.RearmCycle, Advance.SpawnSideToken;
    if timer.token !in state.tokens { return false; }
    var t := state.tokens[timer.token];
    ok := false;
    if t.wait == OnTimer(id) {
      adv.scope := t.scope;
      state.tokens := state.tokens - {timer.token};
      adv.ElementCompleted(state, timer.element);
      ok := adv.LeaveSingle(state, timer.token, timer.element);
    } else if t.wait.OnItem? || t.wait.OnMessage? || t.wait.OnScope? {
      if p.Interrupts(timer.element) {
        ok := adv.InterruptHost(state, timer.token, timer.element);
      } else {
        // The host is left as it was: its arm is kept alive, then a sibling leaves.
        adv.scope := t.scope;
        adv.RearmCycle(state, id, timer);
        ok := adv.SpawnSideToken(state, timer.element);
      }
    } else if t.wait.AtEventGateway? {
      adv.scope := t.scope;
      adv.WithdrawArms(state, Some(timer.token));
      ok := adv.TakeGatewayPath(state, timer.token, t.node, timer.element);
    }
  }

  method FireTimer(p: Process, state: InstanceState, id: TimerId, fuel: nat) returns (a: Answer)
    requires Linted(p) && Resting(p, state.View())
    modifies state
    ensures Answered(p, old(state.View()), OpenFireTimer(p, old(state.View()), id), fuel, a, state.View())
  {
    hide Linted, Resting, EndsIn, Advanced, Ends, Inv, Run, Step.FiredAt;
    Opens(p, state.View(), Command.FireTimer(id));
    if state.status != Active { return Error(InstanceNotActive(state.status)); }
    if id !in state.timers { return Error(UnknownTimer(id)); }
    var timer := state.timers[id];
    state.timers := state.timers - {id};
    var adv := new Advancer(p);
    adv.events := adv.events + [TimerFired(id, timer.element)];
    var ok := Fire(p, adv, state, id, timer);
    if !ok { return Error(InvariantViolated); }
    a := Finish(p, adv, state, fuel);
  }

  method Route(p: Process, adv: Advancer, state: InstanceState, id: SubId, sub: Sub) returns (ok: bool)
    requires adv.p == p && state.Nested()
    modifies adv, state
    ensures Became(Step.DeliveredTo(p, old(adv.View(state)), id, sub), ok, adv.View(state))
  {
    hide ArmKey, Advance.WithdrawArms, Advance.LeaveSingle, Advance.InterruptHost, Advance.TakeGatewayPath,
         Advance.Subscribe, Advance.SpawnSideToken;
    if sub.token !in state.tokens { return false; }
    var t := state.tokens[sub.token];
    ok := false;
    if t.wait == OnMessage(id) {
      adv.scope := t.scope;
      adv.WithdrawArms(state, Some(sub.token));
      state.tokens := state.tokens - {sub.token};
      adv.ElementCompleted(state, sub.element);
      ok := adv.LeaveSingle(state, sub.token, sub.element);
    } else if t.wait.AtEventGateway? {
      adv.scope := t.scope;
      adv.WithdrawArms(state, Some(sub.token));
      ok := adv.TakeGatewayPath(state, sub.token, t.node, sub.element);
    } else if t.wait.OnItem? || t.wait.OnMessage? || t.wait.OnScope? {
      if p.Interrupts(sub.element) {
        ok := adv.InterruptHost(state, sub.token, sub.element);
      } else {
        adv.scope := t.scope;
        var armed := adv.Subscribe(state, sub.token, sub.element);
        ok := true;
        if armed.Some? {
          ok := adv.SpawnSideToken(state, sub.element);
        }
      }
    }
  }

  /** Checked before anything changes: the key the boundary would be armed with again. */
  method CheckRearm(p: Process, state: InstanceState, id: SubId, patch: Value) returns (rearms: bool)
    requires id in state.subs
    ensures rearms == Rearms(p, state.View(), id, patch)
  {
    hide ArmKey;
    var patched := MergePatch(state.variables, patch);
    rearms := ArmKey(p, state.View(), patched, state.subs[id].element, Some(id)).Key?;
  }

  method DeliverMessage(p: Process, state: InstanceState, id: SubId, patch: Value, fuel: nat) returns (a: Answer)
    requires Linted(p) && Resting(p, state.View())
    modifies state
    ensures Answered(p, old(state.View()), OpenDeliverMessage(p, old(state.View()), id, patch), fuel, a, state.View())
  {
    hide Linted, Resting, EndsIn, Advanced, Ends, Inv, Run, Rearms, Patched, Step.DeliveredTo;
    Opens(p, state.View(), Command.DeliverMessage(id, patch));
    if state.status != Active { return Error(InstanceNotActive(state.status)); }
    if id !in state.subs { return Error(UnknownSubscription(id)); }
    var sub := state.subs[id];
    var kind := p.KindOf(sub.element);
    if kind.MessageBoundary? && !kind.interrupting {
      var rearms := CheckRearm(p, state, id, patch);
      if !rearms { return Error(BoundaryCannotRearm(sub.element)); }
    }
    state.subs := state.subs - {id};
    var adv := new Advancer(p);
    adv.events := adv.events + [MessageReceived(id, sub.element, sub.message)];
    PatchedIs(adv.View(state), patch);
    Patch(adv, state, patch);
    var ok := Route(p, adv, state, id, sub);
    if !ok { return Error(InvariantViolated); }
    a := Finish(p, adv, state, fuel);
  }

  // ---- repair

  /** Everything is checked before anything changes: the incident named, the
      reason, the cause, and whether the disposition is one its resume point allows. */
  method CheckRepair(p: Process, state: InstanceState, incident: nat, d: Disposition, why: string) returns (refused: Option<StepError>)
    requires state.Nested()
    ensures refused == RepairRefusal(p, state.View(), incident, d, why)
  {
    hide Causes, StrandsAJoin, Catcher, Sorted, Blank, Process.ResumePoint, Process.KindOf;
    var open := state.View().OpenIncident();
    if open != Some(incident) { return Some(IncidentNotOpen(incident, open)); }
    if Blank(why) { return Some(RepairRefused(NoReason)); }
    var causes := Sorted(Causes(state.View()));
    if causes == [] { return Some(InvariantViolated); }
    if |causes| > 1 && d != AbandonInstance { return Some(RepairRefused(CauseUnknown)); }
    CausesParked(state.View());
    var cause := causes[0];
    assert cause in causes;
    var parked := state.tokens[cause];
    var resume := p.ResumePoint(parked.node);
    refused := None;
    match d
    case Retry(_) =>
    case AbandonInstance =>
    case AdvancePast(patch, answer) =>
      var decision := p.KindOf(resume).BusinessRule?;
      if p.KindOf(resume).EventBasedGateway? { return Some(RepairRefused(GatewayHasNoSingleWayOn)); }
      if decision && (answer.None? || patch != EMPTY) { return Some(RepairRefused(DecisionNeedsAnAnswer)); }
      if !decision && answer.Some? { return Some(RepairRefused(AnswerOnlyForADecision)); }
    case Divert(code) =>
      var caught := FindCatcher(p, state, resume, cause, parked.scope, code);
      if caught.None? { return Some(RepairRefused(NothingCatches)); }
    case Abandon =>
      if StrandsAJoin(p, state.View(), cause, parked.scope, resume) { return Some(RepairRefused(AJoinWouldWait)); }
  }

  /** Collateral resumes with the cause, in token order: a move in flight on the
      flow it was on, a pending decision later. */
  method QueueHalted(adv: Advancer, state: InstanceState)
    modifies adv, state
    ensures adv.View(state) == Collateral(old(adv.View(state)))
  {
    ghost var was := adv.View(state);
    var flying := Sorted(Flying(state.View()));
    adv.reask := adv.reask + Sorted(Asking(state.View()));
    FlyingAre(state.View());
    hide Flying, Asking, Sorted;
    ghost var mid := adv.View(state);
    QueuedNone(mid, flying);
    for i := 0 to |flying|
      invariant adv.View(state) == QueuedTo(mid, flying, i)
    {
      QueuedOn(mid, flying, i);
      var t := state.tokens[flying[i]];
      state.tokens := state.tokens - {flying[i]};
      adv.queue := adv.queue + [Move(flying[i], t.node, t.wait.halt.via, t.scope)];
    }
    QueuedAll(mid, flying, Flying(was.s));
  }

  method Accept(p: Process, state: InstanceState, cause: TokenId, incident: nat, d: Disposition, why: string) returns (adv: Advancer)
    requires cause in state.tokens
    modifies state
    ensures adv.p == p && fresh(adv)
    ensures adv.View(state) == Accepted(p, old(state.View()), cause, incident, d, why)
    ensures state.scopes == old(state.scopes)
  {
    hide Patched;
    var parked := state.tokens[cause];
    adv := new Advancer(p);
    adv.events := adv.events + [IncidentRepaired(incident, parked.node, d.Kind(), d.Code(), d.Answer(), why)];
    PatchedIs(adv.View(state), d.Patch());
    Patch(adv, state, d.Patch());
    state.status := Active;
    adv.scope := parked.scope;
  }

  method Repair(p: Process, state: InstanceState, incident: nat, d: Disposition, why: string, fuel: nat) returns (a: Answer)
    requires Linted(p) && Resting(p, state.View())
    modifies state
    ensures Answered(p, old(state.View()), OpenRepair(p, old(state.View()), incident, d, why), fuel, a, state.View())
  {
    hide Linted, Resting, EndsIn, Advanced, Ends, Inv, Run, RepairRefusal, Causes, Accepted, Disposed, Collateral;
    RepairOpens(p, state.View(), incident, d, why);
    RestingNests(p, state.View());
    var refused := CheckRepair(p, state, incident, d, why);
    if refused.Some? { return Error(refused.value); }
    RepairAccepted(p, state.View(), incident, d, why);
    hide OpenRepair;
    var cause := CauseOf(state.View());
    var resume := p.ResumePoint(state.tokens[cause].node);
    var adv := Accept(p, state, cause, incident, d, why);
    var ok := Dispose(adv, state, cause, resume, d);
    if !ok { return Error(InvariantViolated); }
    if d == AbandonInstance { return Done(adv.events); }
    QueueHalted(adv, state);
    a := Finish(p, adv, state, fuel);
  }

  /** What the disposition does at the resume point. */
  method Dispose(adv: Advancer, state: InstanceState, cause: TokenId, resume: NodeIx, d: Disposition) returns (ok: bool)
    requires state.Nested()
    modifies adv, state
    ensures Became(Disposed(adv.p, old(adv.View(state)), cause, resume, d), ok, adv.View(state))
  {
    hide Advance.LeaveSingle, Advance.InterruptToBoundary, Advance.CompleteScopeIfEmpty, Advance.Terminate, Catcher;
    match d
    case Retry(_) =>
      state.tokens := state.tokens - {cause};
      adv.queue := adv.queue + [Move(cause, resume, None, adv.scope)];
      ok := true;
    case AdvancePast(_, answer) =>
      state.tokens := state.tokens - {cause};
      var kind := adv.p.KindOf(resume);
      if answer.Some? && kind.BusinessRule? {
        state.variables := Assign(state.variables, kind.result, answer.value);
      }
      adv.ElementCompleted(state, resume);
      ok := adv.LeaveSingle(state, cause, resume);
    case Divert(code) =>
      var caught := FindCatcher(adv.p, state, resume, cause, adv.scope, code);
      if caught.None? { return false; }
      ok := adv.InterruptToBoundary(state, caught.value.0, caught.value.1);
    case Abandon =>
      state.tokens := state.tokens - {cause};
      ok := adv.CompleteScopeIfEmpty(state, adv.scope);
    case AbandonInstance =>
      adv.Terminate(state);
      ok := true;
  }

  // ---- one step

  /** The command's queue is not run down within `fuel` moves. */
  ghost predicate Outlasts(p: Process, s: Instance, c: Command, fuel: nat) {
    OpenCommand(p, s, c).Opened? && !EndsIn(p, OpenCommand(p, s, c).At(), fuel)
  }

  /** The step function: unless its moves outlast the fuel, what it answers and what
      it leaves is the step of module Runs, and the instance rests again. A refusal
      leaves the instance as it was. */
  method TakeStep(p: Process, state: InstanceState, c: Command, fuel: nat) returns (a: Answer)
    requires Linted(p) && Resting(p, state.View())
    modifies state
    ensures a.StillRunning? <==> Outlasts(p, old(state.View()), c, fuel)
    ensures var r := StepOf(p, old(state.View()), c);
            a.StillRunning? || (state.View() == r.s && a == AnswerOf(r))
    ensures a.Error? ==> state.View() == old(state.View())
    ensures !a.StillRunning? ==> Resting(p, state.View())
  {
    hide Linted, Ends, EndsIn, Inv, Run, Sound, Answered, Resting, OpenStart, OpenCompleteWorkItem, OpenRaiseError, OpenFireTimer,
         OpenDeliverMessage, OpenCompleteDecision, OpenRepair, StepOf, Outlasts;
    ghost var was := state.View();
    match c {
      case StartWith(variables) => a := Start(p, state, variables, fuel);
      case CompleteWorkItem(item, patch) => a := CompleteWorkItem(p, state, item, patch, fuel);
      case RaiseError(item, code) => a := RaiseError(p, state, item, code, fuel);
      case FireTimer(timer) => a := FireTimer(p, state, timer, fuel);
      case DeliverMessage(sub, patch) => a := DeliverMessage(p, state, sub, patch, fuel);
      case CompleteDecision(token, answer, detail) => a := CompleteDecision(p, state, token, answer, detail, fuel);
      case Repair(incident, d, why) => a := Repair(p, state, incident, d, why, fuel);
    }
    StepAnswers(p, was, c, fuel, a, state.View());
  }

  /** A step returns exactly when some fuel is enough for it, and then all more is. */
  lemma ReturnsWithFuel(p: Process, s: Instance, c: Command)
    requires Linted(p) && Resting(p, s)
    ensures StepOf(p, s, c).returned <==> exists fuel: nat :: !Outlasts(p, s, c, fuel)
    ensures forall j: nat, k: nat :: j <= k && !Outlasts(p, s, c, j) ==> !Outlasts(p, s, c, k)
  {
    hide Linted, Inv, Run, OpenCommand, EndsIn, Resting, Advanced;
    OpenSound(p, s, c);
    var o := OpenCommand(p, s, c);
    if o.Opened? {
      forall j: nat, k: nat | j <= k && EndsIn(p, o.m, j) ensures EndsIn(p, o.m, k) {
        EndsLater(p, o.m, j, k);
      }
      if Ends(p, o.m) {
        var k: nat :| EndsIn(p, o.m, k);
        assert !Outlasts(p, s, c, k);
      }
    } else {
      assert !Outlasts(p, s, c, 0);
    }
  }

  lemma EndsLater(p: Process, m: Machine, j: nat, k: nat)
    requires EndsIn(p, m, j) && j <= k
    ensures EndsIn(p, m, k)
  {
    EndsOnce(p, m, j, k);
  }

  // ---- repair

  /** The first `i` halted moves queued. */
  function QueuedTo(m: Machine, ids: seq<TokenId>, i: nat): Machine
    requires i <= |ids|
  {
    m.(s := m.s.(tokens := m.s.tokens - Ids(ids[..i])), q := m.q + MovesOf(m.s, ids[..i]))
  }

  lemma QueuedNone(m: Machine, ids: seq<TokenId>)
    ensures QueuedTo(m, ids, 0) == m
  {
    assert m.s.tokens - Ids([]) == m.s.tokens && MovesOf(m.s, []) == [];
    assert ids[..0] == [];
  }

  lemma QueuedOn(m: Machine, ids: seq<TokenId>, i: nat)
    requires i < |ids| && Ascending(ids)
    requires forall id :: id in ids ==> id in m.s.tokens && m.s.tokens[id].wait.InFlight()
    ensures var a := QueuedTo(m, ids, i);
            && ids[i] in a.s.tokens && a.s.tokens[ids[i]] == m.s.tokens[ids[i]]
            && QueuedTo(m, ids, i + 1) == a.(s := a.s.(tokens := a.s.tokens - {ids[i]}), q := a.q + [Again(ids[i], m.s.TokenAt(ids[i]))])
  {
    FirstOf(ids, i);
    assert MovesOf(m.s, ids[..i + 1]) == MovesOf(m.s, ids[..i]) + [Again(ids[i], m.s.TokenAt(ids[i]))];
    assert m.s.tokens - Ids(ids[..i]) - {ids[i]} == m.s.tokens - Ids(ids[..i + 1]);
  }

  lemma QueuedAll(m: Machine, ids: seq<TokenId>, S: set<TokenId>)
    requires forall id :: id in ids <==> id in S
    ensures QueuedTo(m, ids, |ids|) == m.(s := m.s.(tokens := m.s.tokens - S), q := m.q + MovesOf(m.s, ids))
  {
    assert ids[..|ids|] == ids && Ids(ids) == S;
  }

  // ---- one step

  lemma StepAnswers(p: Process, s: Instance, c: Command, fuel: nat, a: Answer, after: Instance)
    requires Linted(p) && Resting(p, s) && Answered(p, s, OpenCommand(p, s, c), fuel, a, after)
    ensures a.StillRunning? <==> Outlasts(p, s, c, fuel)
    ensures var r := StepOf(p, s, c);
            a.StillRunning? || (after == r.s && a == AnswerOf(r))
    ensures (a.Error? ==> after == s) && (!a.StillRunning? ==> Resting(p, after))
  {
    hide Linted, Inv, Run, OpenCommand, Resting, Advanced, EndsIn;
    OpenSound(p, s, c);
    var o := OpenCommand(p, s, c);
    if o.Opened? && EndsIn(p, o.m, fuel) {
      assert Ends(p, o.m);
    }
  }
}
