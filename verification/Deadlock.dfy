/** No deadlock: an active instance always has something that can move it. */
module Deadlock {
  import opened Basics
  import opened Json
  import opened Compiled
  import opened State
  import opened Advance
  import opened Step
  import opened Game
  import opened Invariant
  import opened Entering
  import opened Running
  import opened Repairing
  import opened Runs
  import opened Liveness
  import opened Regions
  import opened Progress
  import Closure
  import Conservation

  // ---- commands come to no join, and disarm no race they leave standing

  predicate OpensTame(s: Instance, o: Opening) { !o.Refused? ==> Tame(s, o.At().s, {}) }

  lemma StartTame(p: Process, s: Instance, variables: Value)
    ensures OpensTame(s, OpenStart(p, s, variables))
  {
    var o := OpenStart(p, s, variables);
    if !o.Refused? {
      Grows(s, o.m.s);
    }
  }

  lemma WorkTame(p: Process, s: Instance, id: ItemId, patch: Value)
    ensures OpensTame(s, OpenCompleteWorkItem(p, s, id, patch))
  {
    hide Tame, Patched, WithdrawArms, LeaveSingle, Closed;
    if !OpenCompleteWorkItem(p, s, id, patch).Refused? {
      var token, n := s.items[id].token, s.items[id].element;
      var m := Say(Unpark(Idle(CloseItem(s, id)), {token}).(scope := s.tokens[token].scope), WorkItemCompleted(id, n));
      Fewer(s, m.s, {token});
      PatchedIs(m, patch);
      var m1 := Patched(m, patch);
      Grows(m.s, m1.s);
      Wider(m.s, m1.s, {}, {token});
      Then(s, m.s, m1.s, {token});
      WithdrawTame(m1, token);
      var m2 := WithdrawArms(m1, token);
      Then(s, m1.s, m2.s, {token});
      Settled(s, m2.s, {token});
      LeavesSame(p, Finished(m2, n), token, n);
    }
  }

  lemma DecisionTame(p: Process, s: Instance, token: TokenId, answer: Option<Value>, detail: Option<string>)
    ensures OpensTame(s, OpenCompleteDecision(p, s, token, answer, detail))
  {
    hide Assign, Freeze, Tame;
    var o := OpenCompleteDecision(p, s, token, answer, detail);
    if !o.Refused? {
      if answer.None? {
        FreezeTame(Idle(s).(scope := s.tokens[token].scope), token, s.tokens[token].node, None, detail);
      } else {
        Fewer(s, o.m.s, {token});
        Settled(s, o.m.s, {token});
      }
    }
  }

  /** The host's own wait ends, and the scope it opened. */
  lemma BoundaryTame(p: Process, m: Machine, token: TokenId, boundary: NodeIx)
    requires InterruptToBoundary(p, m, token, boundary).Ok?
    ensures var b := InterruptToBoundary(p, m, token, boundary).m.s; Tame(m.s, b, {}) && token !in b.tokens
  {
    hide Tame, TearDown, LeaveSingle, WithdrawArms;
    var parked := m.s.tokens[token];
    var m1 := Unpark(m, {token});
    UnparkTame(m, {token});
    var m2 := if parked.wait.OnScope? then DropScope(TearDown(m1, parked.wait.child), parked.wait.child) else m1;
    if parked.wait.OnScope? {
      TearTame(m1, parked.wait.child);
      var torn := TearDown(m1, parked.wait.child);
      Grows(torn.s, m2.s);
      Then(m1.s, torn.s, m2.s, {});
      Then(m.s, m1.s, m2.s, {});
    }
    var m3 := WithdrawArms(m2.(scope := parked.scope), token);
    WithdrawTame(m2.(scope := parked.scope), token);
    Settled(m2.s, m3.s, {token});
    Then(m.s, m2.s, m3.s, {});
    LeavesSame(p, Finished(Started(m3, boundary), boundary), token, boundary);
  }

  lemma ErrorTame(p: Process, s: Instance, id: ItemId, code: Option<string>)
    ensures OpensTame(s, OpenRaiseError(p, s, id, code))
  {
    hide Tame, Freeze, InterruptToBoundary, Catcher, Closed;
    var o := OpenRaiseError(p, s, id, code);
    if !o.Refused? {
      var item := s.items[id];
      var m := Say(Idle(CloseItem(s, id)), WorkItemFailed(id, item.element, code));
      Grows(s, m.s);
      var scope := if item.token in s.tokens then s.tokens[item.token].scope else ROOT;
      match Catcher(p, s.scopes, item.element, item.token, scope, code) {
        case Some(caught) => BoundaryTame(p, m, caught.0, caught.1);
        case None => FreezeTame(m, item.token, item.element, code, None);
      }
      Then(s, m.s, o.m.s, {});
    }
  }

  /** What the host waited on is its own. */
  lemma HostTame(p: Process, m: Machine, token: TokenId, boundary: NodeIx)
    requires InterruptHost(p, m, token, boundary).Ok?
    requires var w := m.s.TokenAt(token).wait; w.OnMessage? ==> w.Ref() in m.s.subs ==> m.s.SubAt(w.Ref()).token == token
    ensures Tame(m.s, InterruptHost(p, m, token, boundary).m.s, {})
  {
    hide Tame, InterruptToBoundary, Closed;
    var o := InterruptHost(p, m, token, boundary);
    match m.s.tokens[token].wait
    case OnItem(item) =>
      var m1 := Say(m.(s := m.s.(items := Closed(m.s.items, {item}))), WorkItemCancelled(item, m.s.items[item].element));
      Grows(m.s, m1.s);
      BoundaryTame(p, m1, token, boundary);
      Then(m.s, m1.s, o.m.s, {});
    case OnMessage(sub) =>
      var m1 := Withdraw(m, {}, {sub});
      Fewer(m.s, m1.s, {token});
      BoundaryTame(p, m1, token, boundary);
      Settled(m.s, m1.s, {token});
      Then(m.s, m1.s, o.m.s, {});
    case OnScope(_) => BoundaryTame(p, m, token, boundary);
  }

  lemma RaceTame(p: Process, m: Machine, token: TokenId, gateway: NodeIx, winner: NodeIx)
    requires TakeGatewayPath(p, WithdrawArms(m, token), token, gateway, winner).Ok?
    ensures Tame(m.s, TakeGatewayPath(p, WithdrawArms(m, token), token, gateway, winner).m.s, {})
  {
    hide Tame, FlowTo;
    var b := TakeGatewayPath(p, WithdrawArms(m, token), token, gateway, winner).m.s;
    Fewer(m.s, b, {token});
    Settled(m.s, b, {token});
  }

  lemma TimerSideTame(p: Process, m: Machine, id: TimerId, timer: Timer)
    requires Minting(m.s) && TimerSidePath(p, m, id, timer).Ok?
    ensures Tame(m.s, TimerSidePath(p, m, id, timer).m.s, {})
  {
    Grows(m.s, TimerSidePath(p, m, id, timer).m.s);
  }

  lemma MessageSideTame(p: Process, m: Machine, sub: Sub)
    requires Minting(m.s) && MessageSidePath(p, m, sub).Ok?
    ensures Tame(m.s, MessageSidePath(p, m, sub).m.s, {})
  {
    hide Tame, Subscribe, Minting;
    var m1 := m.(scope := m.s.tokens[sub.token].scope);
    SubscribeTame(p, m1, sub.token, sub.element);
    var armed := Subscribe(p, m1, sub.token, sub.element);
    var b := MessageSidePath(p, m, sub).m.s;
    if armed.ok {
      Grows(armed.m.s, b);
      Then(m.s, armed.m.s, b, {});
    }
  }

  /** What a token waits on names the token. */
  lemma WaitsOnItsOwn(p: Process, s: Instance, id: TokenId)
    requires Inv(p, Idle(s), {}) && id in s.tokens
    ensures var w := s.TokenAt(id).wait; w.OnMessage? ==> w.Ref() in s.subs && s.SubAt(w.Ref()).token == id
    ensures Minting(s)
  {
    InvMints(p, Idle(s), {});
    hide Minting;
    assert TokenOk(p, s, id, s.tokens[id]);
  }

  lemma FireTame(p: Process, s: Instance, id: TimerId)
    requires Inv(p, Idle(s), {})
    ensures OpensTame(s, OpenFireTimer(p, s, id))
  {
    hide Inv, Tame, InterruptHost, TimerSidePath, TakeGatewayPath, Process.Interrupts;
    var o := OpenFireTimer(p, s, id);
    if !o.Refused? {
      var token := s.timers[id].token;
      WaitsOnItsOwn(p, s, token);
      var m := Say(Idle(s.(timers := s.timers - {id})), TimerFired(id, s.timers[id].element));
      Fewer(s, m.s, {token});
      TimerOpens(p, s, m, token, id);
    }
  }

  lemma TimerOpens(p: Process, s: Instance, m: Machine, token: TokenId, id: TimerId)
    requires Tame(s, m.s, {token}) && m.s == s.(timers := s.timers - {id}) && Minting(s)
    requires id in s.timers && s.TimerAt(id).token == token && token in s.tokens
    requires var w := s.TokenAt(token).wait; w.OnMessage? ==> w.Ref() in s.subs && s.SubAt(w.Ref()).token == token
    requires m == Say(Idle(m.s), TimerFired(id, s.TimerAt(id).element)) && !OpenFireTimer(p, s, id).Refused?
    ensures Tame(s, OpenFireTimer(p, s, id).At().s, {})
  {
    hide Tame, InterruptHost, TimerSidePath, TakeGatewayPath, Process.Interrupts, LeaveSingle;
    var o := OpenFireTimer(p, s, id);
    var timer, t := s.timers[id], s.tokens[token];
    if t.wait == OnTimer(id) {
      var m1 := Finished(Unpark(m, {token}).(scope := t.scope), timer.element);
      UnparkTame(m, {token});
      Wider(m.s, m1.s, {}, {token});
      Then(s, m.s, m1.s, {token});
      Settled(s, m1.s, {token});
      LeavesSame(p, m1, token, timer.element);
    } else if t.wait.AtEventGateway? {
      RaceTame(p, m.(scope := t.scope), token, t.node, timer.element);
      RaceGone(p, m.(scope := t.scope), token, t.node, timer.element);
      Wider(m.s, o.m.s, {}, {token});
      Then(s, m.s, o.m.s, {token});
      Settled(s, o.m.s, {token});
    } else {
      Settled(s, m.s, {token});
      if p.Interrupts(timer.element) {
        HostTame(p, m, token, timer.element);
      } else {
        TimerSideTame(p, m, id, timer);
      }
      Then(s, m.s, o.m.s, {});
    }
  }

  lemma RaceGone(p: Process, m: Machine, token: TokenId, gateway: NodeIx, winner: NodeIx)
    requires TakeGatewayPath(p, WithdrawArms(m, token), token, gateway, winner).Ok?
    ensures token !in TakeGatewayPath(p, WithdrawArms(m, token), token, gateway, winner).m.s.tokens
  {
    hide FlowTo, Withdraw;
  }

  lemma DeliverTame(p: Process, s: Instance, id: SubId, patch: Value)
    requires Inv(p, Idle(s), {})
    ensures OpensTame(s, OpenDeliverMessage(p, s, id, patch))
  {
    hide Inv, Tame, InterruptHost, MessageSidePath, TakeGatewayPath, Process.Interrupts, Rearms, Patched, LeaveSingle;
    var o := OpenDeliverMessage(p, s, id, patch);
    if !o.Refused? {
      var token := s.subs[id].token;
      var m0 := Say(Idle(s.(subs := s.subs - {id})), MessageReceived(id, s.subs[id].element, s.subs[id].message));
      PatchedIs(m0, patch);
      WaitsOnItsOwn(p, s, token);
      var m := Patched(m0, patch);
      Fewer(s, m.s, {token});
      MessageOpens(p, s, m, token, id, patch);
    }
  }

  lemma MessageOpens(p: Process, s: Instance, m: Machine, token: TokenId, id: SubId, patch: Value)
    requires Tame(s, m.s, {token}) && Minting(s) && id in s.subs && s.SubAt(id).token == token && token in s.tokens
    requires m == Patched(Say(Idle(s.(subs := s.subs - {id})), MessageReceived(id, s.SubAt(id).element, s.SubAt(id).message)), patch)
    requires m.s == s.(subs := s.subs - {id}, variables := m.s.variables)
    requires var w := s.TokenAt(token).wait; w.OnMessage? ==> w.Ref() in s.subs && s.SubAt(w.Ref()).token == token
    requires !OpenDeliverMessage(p, s, id, patch).Refused?
    ensures Tame(s, OpenDeliverMessage(p, s, id, patch).At().s, {})
  {
    hide Tame, InterruptHost, MessageSidePath, TakeGatewayPath, Process.Interrupts, LeaveSingle, Patched, Rearms, WithdrawArms;
    var o := OpenDeliverMessage(p, s, id, patch);
    var sub, t := s.subs[id], s.tokens[token];
    if t.wait == OnMessage(id) {
      var m1 := WithdrawArms(m.(scope := t.scope), token);
      WithdrawTame(m.(scope := t.scope), token);
      Then(s, m.s, m1.s, {token});
      var m2 := Unpark(m1, {token});
      UnparkTame(m1, {token});
      Wider(m1.s, m2.s, {}, {token});
      Then(s, m1.s, m2.s, {token});
      Settled(s, m2.s, {token});
      LeavesSame(p, Finished(m2, sub.element), token, sub.element);
    } else if t.wait.AtEventGateway? {
      RaceTame(p, m.(scope := t.scope), token, t.node, sub.element);
      RaceGone(p, m.(scope := t.scope), token, t.node, sub.element);
      Wider(m.s, o.m.s, {}, {token});
      Then(s, m.s, o.m.s, {token});
      Settled(s, o.m.s, {token});
    } else {
      Settled(s, m.s, {token});
      if p.Interrupts(sub.element) {
        HostTame(p, m, token, sub.element);
      } else {
        MessageSideTame(p, m, sub);
      }
      Then(s, m.s, o.m.s, {});
    }
  }

  lemma DisposedTame(p: Process, m: Machine, cause: TokenId, resume: NodeIx, d: Disposition)
    requires Disposed(p, m, cause, resume, d).Ok?
    ensures Tame(m.s, Disposed(p, m, cause, resume, d).m.s, {})
  {
    hide Tame, InterruptToBoundary, CompleteScopeIfEmpty, Catcher, Assign, LeaveSingle, Terminate;
    var o := Disposed(p, m, cause, resume, d);
    UnparkTame(m, {cause});
    var m1 := Unpark(m, {cause});
    match d
    case Retry(_) =>
    case AdvancePast(_, answer) =>
      var kind := p.KindOf(resume);
      var m2 := if answer.Some? && kind.BusinessRule?
                then m1.(s := m1.s.(variables := Assign(m1.s.variables, kind.result, answer.value))) else m1;
      LeavesSame(p, Finished(m2, resume), cause, resume);
      Grows(m1.s, m2.s);
      Then(m.s, m1.s, m2.s, {});
    case Divert(code) =>
      var caught := Catcher(p, m.s.scopes, resume, cause, m.scope, code).value;
      BoundaryTame(p, m, caught.0, caught.1);
    case Abandon =>
      EmptyTame(p, m1, m.scope);
      Then(m.s, m1.s, o.m.s, {});
    case AbandonInstance => GoneTame(m);
  }

  lemma EmptyTame(p: Process, m: Machine, scope: ScopeId)
    requires CompleteScopeIfEmpty(p, m, scope).Ok?
    ensures Tame(m.s, CompleteScopeIfEmpty(p, m, scope).m.s, {})
  {
    hide Tame, CompleteScope, ScopeIsEmpty;
    Grows(m.s, m.s);
    if scope != ROOT && ScopeIsEmpty(m, scope) {
      CompletesTame(p, m, scope);
    }
  }

  lemma GoneTame(m: Machine)
    ensures Tame(m.s, Terminate(m).s, {})
  {
  }

  lemma CollateralTame(m: Machine)
    ensures Tame(m.s, Collateral(m).s, {})
  {
    Fewer(m.s, Collateral(m).s, {});
  }

  lemma RepairTame(p: Process, s: Instance, incident: nat, d: Disposition, why: string)
    ensures OpensTame(s, OpenRepair(p, s, incident, d, why))
  {
    hide Tame, Disposed, Collateral, RepairRefusal, Patched, Sorted, Causes;
    var o := OpenRepair(p, s, incident, d, why);
    if !o.Refused? {
      RepairAccepted(p, s, incident, d, why);
      var cause := CauseOf(s);
      AcceptedTame(p, s, cause, incident, d, why);
      var m := Accepted(p, s, cause, incident, d, why);
      hide Accepted, OpenRepair;
      var resume := p.ResumePoint(s.tokens[cause].node);
      DisposedTame(p, m, cause, resume, d);
      var m1 := Disposed(p, m, cause, resume, d).m;
      Then(s, m.s, m1.s, {});
      CollateralTame(m1);
      Then(s, m1.s, Collateral(m1).s, {});
    }
  }

  lemma AcceptedTame(p: Process, s: Instance, cause: TokenId, incident: nat, d: Disposition, why: string)
    requires cause in s.tokens
    ensures Tame(s, Accepted(p, s, cause, incident, d, why).s, {})
  {
    hide Merge;
    Grows(s, Accepted(p, s, cause, incident, d, why).s);
  }

  lemma OpenTamely(p: Process, s: Instance, c: Command)
    requires Inv(p, Idle(s), {})
    ensures OpensTame(s, OpenCommand(p, s, c))
  {
    hide Inv, OpensTame, OpenStart, OpenCompleteWorkItem, OpenRaiseError, OpenFireTimer, OpenDeliverMessage, OpenCompleteDecision, OpenRepair;
    match c
    case StartWith(variables) => StartTame(p, s, variables);
    case CompleteWorkItem(item, patch) => WorkTame(p, s, item, patch);
    case RaiseError(item, code) => ErrorTame(p, s, item, code);
    case FireTimer(timer) => FireTame(p, s, timer);
    case DeliverMessage(sub, patch) => DeliverTame(p, s, sub, patch);
    case CompleteDecision(token, answer, detail) => DecisionTame(p, s, token, answer, detail);
    case Repair(incident, d, why) => RepairTame(p, s, incident, d, why);
  }

  // ---- over whole runs

  lemma Advance1Lives(p: Process, m: Machine)
    requires WellFormed(p) && Certified(p) && RaceRule(p) && Inv(p, m, {}) && m.s.status.Active? && m.q != [] && Lively(p, m.s)
    ensures Entered(p, Advance1(p, m)) && Lively(p, Advance1(p, m).m.s)
  {
    var mv, rest := m.q[0], m.q[1..];
    assert m.q == [mv] + rest;
    var m1 := m.(q := rest, scope := mv.scope);
    assert Distinct(m.q);
    hide Inv, WellFormed, Certified, Lively, RaceRule, Enter;
    Rotated(mv, rest);
    Reordered(p, m, {}, rest + [mv]);
    Freezing.InvSame(p, m.(q := rest + [mv]), InHand(m1, mv), {});
    EnterKeeps(p, m1, mv);
    EnterLives(p, m1, mv);
  }

  lemma {:induction false} AdvancedLives(p: Process, m: Machine, k: nat)
    requires Linted(p) && RaceRule(p) && Inv(p, m, {}) && Lively(p, m.s)
    ensures var o := Advanced(p, m, k); o.Ok? && Lively(p, o.m.s)
    decreases k
  {
    hide Inv, WellFormed, Certified, SidePathsOk, Advance1, Lively, RaceRule;
    if k == 0 || m.q == [] {
    } else {
      QueuedIsActive(p, m);
      Advance1Lives(p, m);
      AdvancedLives(p, Advance1(p, m).m, k - 1);
    }
  }

  lemma SettleTame(p: Process, m: Machine)
    ensures Tame(m.s, Settle(p, m).s, {})
  {
    hide Reask;
    if m.s.status.Active? {
      Conservation.ReaskIs(p, m, m.reask);
    }
  }

  lemma RunLives(p: Process, m: Machine)
    requires Linted(p) && RaceRule(p) && Inv(p, m, {}) && Ends(p, m) && Lively(p, m.s)
    ensures Lively(p, Run(p, m).s)
  {
    hide Linted, RaceRule, Inv, Lively, Tame, Settle, Advanced, EndsIn;
    var k: nat :| EndsIn(p, m, k);
    DrainIs(p, m, k);
    AdvancedLives(p, m, k);
    SettleTame(p, Drain(p, m));
    TameKeeps(p, Drain(p, m).s, Settle(p, Drain(p, m)).s);
  }

  lemma StepLives(p: Process, s: Instance, c: Command)
    requires Linted(p) && RaceRule(p) && Resting(p, s) && Lively(p, s)
    ensures Lively(p, StepOf(p, s, c).s)
  {
    hide Linted, RaceRule, Inv, Lively, Tame, Run, OpenCommand, Ends;
    OpenSound(p, s, c);
    OpenTamely(p, s, c);
    var o := OpenCommand(p, s, c);
    if !o.Refused? {
      TameKeeps(p, s, o.m.s);
      if o.Opened? && Ends(p, o.m) {
        RunLives(p, o.m);
      }
    }
  }

  lemma NewLives(p: Process)
    ensures Lively(p, NEW_INSTANCE)
  {
    forall n: NodeIx, scope: ScopeId | n < |p.nodes| && p.IsJoin(n) ensures !AllArrived(p, NEW_INSTANCE, n, scope) {
      assert p.Incoming(n)[0] in p.Incoming(n);
    }
  }

  /** Every run: no join waits with everybody there, and every race has an arm. */
  lemma {:induction false} RunsLive(p: Process, commands: seq<Command>)
    requires Linted(p) && RaceRule(p)
    ensures Lively(p, After(p, commands).s)
    decreases |commands|
  {
    hide Linted, RaceRule, StepOf, Resting;
    if commands == [] {
      NewLives(p);
    } else {
      hide Lively;
      RunsLive(p, commands[..|commands| - 1]);
      StepLives(p, After(p, commands[..|commands| - 1]).s, commands[|commands| - 1]);
    }
  }

  // ---- the theorem

  /** Something outside the core can move the instance: open work, an armed timer,
      an open subscription, or a decision asked. */
  predicate Pending(s: Instance) {
    || (exists i :: i in s.items && s.items[i].open)
    || s.timers != map[] || s.subs != map[]
    || (exists id :: id in s.tokens && s.tokens[id].wait.OnDecision?)
  }

  /** Some command, and not a repair, is accepted. */
  ghost predicate GoesForward(p: Process, s: Instance) {
    exists c :: Takes(p, s, c)
  }

  ghost predicate Takes(p: Process, s: Instance, c: Command) { !c.Repair? && !OpenCommand(p, s, c).Refused? }

  /** Waits that only somebody outside can end. */
  predicate Outer(w: Wait) { w.OnItem? || w.OnTimer? || w.OnMessage? || w.OnDecision? }

  lemma OuterOwns(p: Process, s: Instance, id: TokenId)
    requires Inv(p, Idle(s), {}) && id in s.tokens
    ensures var w := s.TokenAt(id).wait;
            && (w.OnItem? ==> w.Ref() in s.items && s.ItemAt(w.Ref()).open)
            && (w.OnTimer? ==> w.Ref() in s.timers)
            && (w.OnMessage? ==> w.Ref() in s.subs && p.KindOf(s.SubAt(w.Ref()).element).MessageCatch?)
  {
    assert TokenOk(p, s, id, s.tokens[id]);
  }

  lemma NotCorrupt(p: Process, s: Instance, c: Command)
    requires Linted(p) && Resting(p, s) && (s.status.Active? ==> Asked(s, c))
    ensures OpenCommand(p, s, c) != Refused(InvariantViolated)
  {
    hide Linted, Resting, OpenCommand, Inv;
    OpenSound(p, s, c);
  }

  /** An open item can be completed, a timer fired, a decision answered, and a
      message delivered to a catch. */
  lemma Accepts(p: Process, s: Instance, c: Command)
    requires Linted(p) && Resting(p, s) && s.status.Active?
    requires match c
             case CompleteWorkItem(i, _) => i in s.items && s.ItemAt(i).open
             case FireTimer(k) => k in s.timers
             case DeliverMessage(k, _) => k in s.subs && p.KindOf(s.SubAt(k).element).MessageCatch?
             case CompleteDecision(id, _, _) => id in s.tokens && s.TokenAt(id).wait.OnDecision?
             case _ => false
    ensures Takes(p, s, c)
  {
    hide Linted, Resting, LeaveSingle, InterruptHost, TakeGatewayPath, TimerSidePath, MessageSidePath, WithdrawArms, Patched, Rearms, Freeze;
    NotCorrupt(p, s, c);
  }

  lemma OuterForward(p: Process, s: Instance, id: TokenId)
    requires Linted(p) && Resting(p, s) && s.status.Active? && id in s.tokens && Outer(s.TokenAt(id).wait)
    ensures GoesForward(p, s)
  {
    hide Linted, Takes;
    OuterOwns(p, s, id);
    hide Resting;
    match s.tokens[id].wait
    case OnItem(i) => Accepts(p, s, Command.CompleteWorkItem(i, EMPTY));
    case OnTimer(k) => Accepts(p, s, Command.FireTimer(k));
    case OnMessage(k) => Accepts(p, s, Command.DeliverMessage(k, EMPTY));
    case OnDecision => Accepts(p, s, Command.CompleteDecision(id, Some(Null), None));
  }

  lemma RaceOwns(p: Process, s: Instance, id: TokenId, k: SubId)
    requires Inv(p, Idle(s), {}) && id in s.tokens && s.TokenAt(id).wait.AtEventGateway? && k in s.subs && s.SubAt(k).token == id
    ensures p.KindOf(s.SubAt(k).element).MessageCatch?
  {
  }

  lemma RaceForward(p: Process, s: Instance, id: TokenId)
    requires Linted(p) && Resting(p, s) && s.status.Active? && id in s.tokens && s.TokenAt(id).wait.AtEventGateway? && HasArm(s, id)
    ensures GoesForward(p, s)
  {
    hide Linted, Takes, Inv;
    if k :| k in s.timers && s.timers[k].token == id {
      Accepts(p, s, Command.FireTimer(k));
    } else {
      var k :| k in s.subs && s.subs[k].token == id;
      RaceOwns(p, s, id, k);
      Accepts(p, s, Command.DeliverMessage(k, EMPTY));
    }
  }

  /** What is taken is something pending. */
  lemma ForwardIsPending(p: Process, s: Instance)
    requires s.status.Active? && GoesForward(p, s)
    ensures Pending(s)
  {
    hide LeaveSingle, InterruptHost, TakeGatewayPath, TimerSidePath, MessageSidePath, WithdrawArms, Patched, Rearms, Freeze, Catcher,
         InterruptToBoundary;
    var c :| Takes(p, s, c);
  }

  lemma OnlyInternalWaits(p: Process, s: Instance, id: TokenId)
    requires Linted(p) && Resting(p, s) && Lively(p, s) && s.status.Active? && !GoesForward(p, s) && id in s.tokens
    ensures s.TokenAt(id).wait.AtJoin? || (s.TokenAt(id).wait.OnScope? && s.TokenAt(id).scope < s.TokenAt(id).wait.Ref())
    ensures s.TokenAt(id).wait.OnScope? ==> s.TokenAt(id).wait.Ref() in s.scopes && s.TokenAt(id).wait.Ref() < s.nextScope
  {
    hide Linted, GoesForward, HasArm, NoJoinFull;
    InternalWait(p, s, id);
    hide Resting;
    var w := s.tokens[id].wait;
    if Outer(w) {
      OuterForward(p, s, id);
    } else if w.AtEventGateway? {
      RaceForward(p, s, id);
    }
  }

  lemma InternalWait(p: Process, s: Instance, id: TokenId)
    requires Inv(p, Idle(s), {}) && s.status.Active? && id in s.tokens
    ensures var w := s.TokenAt(id).wait;
            && !w.AtIncident? && !w.Halted?
            && (w.OnScope? ==> w.Ref() in s.scopes && s.TokenAt(id).scope < w.Ref() < s.nextScope)
  {
    assert TokenOk(p, s, id, s.tokens[id]);
  }

  ghost predicate AllAtJoins(s: Instance, scope: ScopeId) {
    forall id :: id in s.tokens && s.tokens[id].scope == scope ==> s.tokens[id].wait.AtJoin?
  }

  lemma SomebodyInside(p: Process, s: Instance, c: ScopeId) returns (a: TokenId)
    requires Inv(p, Idle(s), {}) && c in s.scopes
    ensures a in s.tokens && s.TokenAt(a).scope == c
  {
    assert Everybody(p, s, []) == TokenPlaces(p, s.tokens);
    assert LivesIn(Everybody(p, s, []), c);
    a :| a in Everybody(p, s, []) && Everybody(p, s, [])[a].scope == c;
  }

  /** If nothing goes forward, some scope holds only tokens that wait at joins. */
  lemma {:induction false} Innermost(p: Process, s: Instance, id: TokenId) returns (a: TokenId)
    requires Linted(p) && Resting(p, s) && Lively(p, s) && s.status.Active? && !GoesForward(p, s) && id in s.tokens
    ensures a in s.tokens && AllAtJoins(s, s.TokenAt(a).scope)
    decreases s.nextScope - s.TokenAt(id).scope
  {
    hide Linted, Inv, Lively, GoesForward;
    a := id;
    if AllAtJoins(s, s.tokens[id].scope) {
    } else {
      var t :| t in s.tokens && s.tokens[t].scope == s.tokens[id].scope && !s.tokens[t].wait.AtJoin?;
      OnlyInternalWaits(p, s, t);
      var inner := SomebodyInside(p, s, s.tokens[t].wait.child);
      a := Innermost(p, s, inner);
    }
  }

  /** Tokens that all wait at joins wait for one another in ever smaller blocks. */
  lemma {:induction false} NotAllAtJoins(p: Process, R: Regions, s: Instance, split: NodeIx, a: TokenId)
    requires WellFormed(p) && HostRule(p) && SidePathRule(p) && ReachedRule(p) && Balanced(p, R) && Inv(p, Idle(s), {}) && NoJoinFull(p, s)
    requires a in s.tokens && AllAtJoins(s, s.TokenAt(a).scope) && split in R && Block(R, split).join == s.TokenAt(a).node
    ensures false
    decreases Block(R, split).branch.Keys
  {
    hide WellFormed, HostRule, SidePathRule, ReachedRule, Balanced, Inv, IsRegion, NoJoinFull, AllArrived, ArrivedOn, Delivers, AllAtJoins;
    var t := s.tokens[a];
    assert t.wait.AtJoin? by { AtJoins(s, t.scope, a); }
    AtItsJoin(p, s, a);
    var g := Missing(p, s, t.node, t.scope);
    var own, j, b := OnTheWay(p, R, s, a, g);
    RegionOf(p, R, split);
    var u := s.tokens[b];
    assert u.wait.AtJoin? by { AtJoins(s, t.scope, b); }
    AtItsJoin(p, s, b);
    assert Delivers(p, split, R[split], j, u.wait.arrivedVia);
    if u.node == t.node {
      DeliversOnce(p, split, R[split], j, u.wait.arrivedVia, g);
      Arrived(s, b);
    } else {
      WaitsWithin(p, R, split, j, u.node, u.wait.arrivedVia);
      var inner := ClosedBy(p, R, u.node);
      InnerBlock(p, R, split, inner);
      NotAllAtJoins(p, R, s, inner, b);
    }
  }

  lemma AtJoins(s: Instance, scope: ScopeId, id: TokenId)
    requires AllAtJoins(s, scope) && id in s.tokens && s.TokenAt(id).scope == scope
    ensures s.TokenAt(id).wait.AtJoin?
  {
  }

  lemma Missing(p: Process, s: Instance, n: NodeIx, scope: ScopeId) returns (g: FlowIx)
    requires NoJoinFull(p, s) && n < |p.nodes| && p.IsJoin(n)
    ensures g in p.Incoming(n) && ArrivedOn(s, n, scope, g) == {}
  {
    assert !AllArrived(p, s, n, scope);
    g :| g in p.Incoming(n) && ArrivedOn(s, n, scope, g) == {};
  }

  lemma Arrived(s: Instance, b: TokenId)
    requires b in s.tokens && s.TokenAt(b).wait.AtJoin?
    ensures b in ArrivedOn(s, s.TokenAt(b).node, s.TokenAt(b).scope, s.TokenAt(b).wait.Ref())
  {
  }

  /** No deadlock. Of a process the linter accepts, after any commands at all, an
      active instance has something pending, and takes a command that is no repair:
      an open item to complete, a timer to fire, a message a catch waits for, a
      decision to answer. Without a wait-free cycle that command's step returns. */
  lemma NoDeadlock(p: Process, commands: seq<Command>)
    requires LintAccepts(p) && RaceRule(p) && Closure.SidePathCompiled(p) && Linted(p)
    ensures var s := After(p, commands).s;
            s.status.Active? ==>
              Pending(s) && exists c: Command :: !c.Repair? && StepOf(p, s, c).error.None? && (NoWaitFreeCycle(p) ==> StepOf(p, s, c).returned)
  {
    hide Linted, WellFormed, HostRule, SidePathRule, ReachedRule, Balanced, After, Inv, RaceRule, Pending, Lively, StepOf, OpenCommand, NoWaitFreeCycle;
    var s := After(p, commands).s;
    if s.status.Active? {
      RunsLive(p, commands);
      if !GoesForward(p, s) {
        var id :| id in s.tokens;
        StuckNowhere(p, s, id);
      }
      ForwardIsPending(p, s);
      var c :| Takes(p, s, c);
      TakenIsNoError(p, s, c);
    }
  }

  lemma TakenIsNoError(p: Process, s: Instance, c: Command)
    requires Linted(p) && Resting(p, s) && Takes(p, s, c)
    ensures !c.Repair? && StepOf(p, s, c).error.None?
  {
    hide Linted, Resting, OpenCommand, Inv, Run;
    OpenSound(p, s, c);
  }

  lemma StuckNowhere(p: Process, s: Instance, id: TokenId)
    requires LintAccepts(p) && Linted(p) && Resting(p, s) && Lively(p, s) && s.status.Active? && id in s.tokens
    ensures GoesForward(p, s)
  {
    hide Linted, WellFormed, HostRule, SidePathRule, ReachedRule, Balanced, Inv, GoesForward, Lively, AllAtJoins;
    if !GoesForward(p, s) {
      var R: Regions :| Balanced(p, R);
      var a := Innermost(p, s, id);
      AtJoins(s, s.tokens[a].scope, a);
      AtItsJoin(p, s, a);
      var split := ClosedBy(p, R, s.tokens[a].node);
      assert NoJoinFull(p, s) by { NoneFull(p, s); }
      NotAllAtJoins(p, R, s, split, a);
    }
  }

  lemma NoneFull(p: Process, s: Instance)
    requires Lively(p, s)
    ensures NoJoinFull(p, s)
  {
  }
}
