/** The history of any run reads, to its end, as the instance it led to. */
module Histories {
  import opened Basics
  import opened Json
  import opened Compiled
  import opened State
  import opened Advance
  import opened Step
  import opened Game
  import opened Invariant
  import opened Freezing
  import opened Running
  import opened Stepping
  import opened Runs
  import opened Replay
  import opened Telling

  // ---- running down

  lemma {:induction false} AdvancedTold(p: Process, m: Machine, k: nat)
    requires Linted(p) && Inv(p, m, {})
    ensures Advanced(p, m, k).Ok? && Told(p, m, Advanced(p, m, k).m)
    decreases k
  {
    hide Told, Inv, WellFormed, Certified, SidePathsOk, Enter;
    if k == 0 || m.q == [] {
      Quiet(p, m, m);
    } else {
      QueuedIsActive(p, m);
      Advance1Keeps(p, m);
      var mv := m.q[0];
      var m1 := m.(q := m.q[1..], scope := mv.scope);
      Quiet(p, m, m1);
      EnterTold(p, m1, mv.token, mv.node, mv.via);
      var m2 := Advance1(p, m).m;
      ThenTold(p, m, m1, m2);
      AdvancedTold(p, m2, k - 1);
      ThenTold(p, m, m2, Advanced(p, m, k).m);
    }
  }

  lemma DrainTold(p: Process, m: Machine)
    requires Linted(p) && Inv(p, m, {}) && Ends(p, m)
    ensures Told(p, m, Drain(p, m))
  {
    hide Told, Inv, Linted, EndsIn;
    var k: nat :| EndsIn(p, m, k);
    DrainIs(p, m, k);
    AdvancedTold(p, m, k);
  }

  lemma {:induction false} ReaskTold(p: Process, m: Machine, ids: seq<TokenId>)
    ensures Told(p, m, Reask(p, m, ids)) && Reask(p, m, ids).s.status == m.s.status
    decreases |ids|
  {
    hide Told;
    if ids == [] {
      Quiet(p, m, m);
    } else if ids[0] !in m.s.tokens {
      ReaskTold(p, m, ids[1..]);
    } else {
      var t := m.s.tokens[ids[0]];
      var m1 := m.(s := m.s.(tokens := m.s.tokens[ids[0] := t.(wait := OnDecision)]));
      var kind := p.KindOf(t.node);
      var m2 := if kind.BusinessRule? then Say(m1, DecisionRequested(t.node, kind.decision)) else m1;
      if kind.BusinessRule? {
        Notes(p, m, m2, DecisionRequested(t.node, kind.decision));
      } else {
        Quiet(p, m, m2);
      }
      ReaskTold(p, m2, ids[1..]);
      ThenTold(p, m, m2, Reask(p, m2, ids[1..]));
    }
  }

  /** An instance with no tokens has nothing open. */
  lemma NobodyOwns(p: Process, s: Instance)
    requires Inv(p, Idle(s), {}) && s.tokens == map[]
    ensures NothingOpen(BookOf(s))
  {
  }

  lemma SettleTold(p: Process, m: Machine)
    requires Inv(p, m, {}) && m.q == []
    ensures Told(p, m, Settle(p, m))
  {
    hide Told, Inv, Reask, Read, ReadAll;
    if !m.s.status.Active? {
      Quiet(p, m, m);
    } else {
      ReaskTold(p, m, m.reask);
      var m1 := Reask(p, m, m.reask).(reask := []);
      StillTold(p, m, Reask(p, m, m.reask), m1);
      InvSame(p, m, m.(reask := m.reask), {});
      ReaskKeeps(p, m, m.reask);
      if m1.s.tokens == map[] {
        Rests(p, m1);
        NobodyOwns(p, m1.s);
        EndsReads(p, BookOf(m1.s));
        Says(p, m1, Settle(p, m), InstanceCompleted);
        ThenTold(p, m, m1, Settle(p, m));
      }
    }
  }

  lemma RunTold(p: Process, m: Machine)
    requires Linted(p) && Inv(p, m, {}) && Ends(p, m)
    ensures Told(p, m, Run(p, m))
  {
    hide Told, Inv, Linted, Ends, Drain, Settle;
    DrainTold(p, m);
    DrainKeeps(p, m);
    SettleTold(p, Drain(p, m));
    ThenTold(p, m, Drain(p, m), Run(p, m));
  }

  // ---- the commands

  /** What an opening says reads as what it changed. */
  ghost predicate OpeningTold(p: Process, s: Instance, o: Opening) {
    match o
    case Refused(_) => true
    case Opened(m) => ReadAll(p, BookOf(s), m.ev) == Some(BookOf(m.s))
    case Ended(m) => ReadAll(p, BookOf(s), m.ev) == Some(BookOf(m.s))
  }

  lemma IdleTold(p: Process, s: Instance, m: Machine)
    requires Told(p, Idle(s), m)
    ensures ReadAll(p, BookOf(s), m.ev) == Some(BookOf(m.s))
  {
    assert m.ev[|Idle(s).ev|..] == m.ev;
  }

  lemma PatchedTold(p: Process, m: Machine, patch: Value)
    ensures Told(p, m, Patched(m, patch))
  {
    hide Told;
    if patch == EMPTY {
      Quiet(p, m, m);
    } else {
      Says(p, m, Patched(m, patch), VariablesPatched(patch));
    }
  }

  lemma OpenStartTold(p: Process, s: Instance, variables: Value)
    ensures OpeningTold(p, s, OpenStart(p, s, variables))
  {
    hide Told;
    if s.status.Created? {
      var m := OpenStart(p, s, variables).m;
      Says(p, Idle(s), m, InstanceStarted(variables));
      IdleTold(p, s, m);
    }
  }

  lemma OneClosed(s: Instance, id: ItemId)
    ensures OpenWork(CloseItem(s, id).items) == OpenWork(s.items) - {id}
  {
  }

  lemma CompleteWorkItemTold(p: Process, s: Instance, id: ItemId, patch: Value)
    ensures OpeningTold(p, s, OpenCompleteWorkItem(p, s, id, patch))
  {
    hide Told, OpenWork, WithdrawArms, Patched, LeaveSingle;
    if s.status.Active? && id in s.items && s.items[id].open && s.items[id].token in s.tokens {
      var item := s.items[id];
      var m0 := Say(Unpark(Idle(CloseItem(s, id)), {item.token}).(scope := s.tokens[item.token].scope), WorkItemCompleted(id, item.element));
      OneClosed(s, id);
      OpenRow(s, id);
      Says(p, Idle(s), m0, WorkItemCompleted(id, item.element));
      var m1 := Patched(m0, patch);
      PatchedTold(p, m0, patch);
      ThenTold(p, Idle(s), m0, m1);
      var m2 := WithdrawArms(m1, item.token);
      WithdrawArmsTold(p, m1, item.token);
      ThenTold(p, Idle(s), m1, m2);
      PassTold(p, m2, item.element);
      ThenTold(p, Idle(s), m2, Finished(m2, item.element));
      LeavesTold(p, Idle(s), Finished(m2, item.element), item.token, item.element);
      var o := LeaveSingle(p, Finished(m2, item.element), item.token, item.element);
      if o.Ok? {
        IdleTold(p, s, o.m);
      }
    }
  }

  lemma OpenRow(s: Instance, id: ItemId)
    requires id in s.items && s.ItemAt(id).open
    ensures id in OpenWork(s.items) && OpenWork(s.items)[id].element == s.ItemAt(id).element
  {
  }

  lemma CompleteDecisionTold(p: Process, s: Instance, token: TokenId, answer: Option<Value>, detail: Option<string>)
    ensures OpeningTold(p, s, OpenCompleteDecision(p, s, token, answer, detail))
  {
    hide Told, WithdrawArms, LeaveSingle, Freeze;
    if s.status.Active? && token in s.tokens && s.tokens[token].wait.OnDecision? && p.KindOf(s.tokens[token].node).BusinessRule? {
      var parked := s.tokens[token];
      var kind := p.KindOf(parked.node);
      var m := Idle(s).(scope := parked.scope);
      Quiet(p, Idle(s), m);
      match answer
      case None =>
        FreezeTold(p, m, token, parked.node, None, detail);
        ThenTold(p, Idle(s), m, Freeze(m, token, parked.node, None, detail));
        IdleTold(p, s, Freeze(m, token, parked.node, None, detail));
      case Some(value) =>
        var e := DecisionEvaluated(parked.node, value, if value.Null? then detail else None);
        var m1 := Say(m, e);
        var m2 := Unpark(m1.(s := m1.s.(variables := Assign(s.variables, kind.result, value))), {token});
        Says(p, Idle(s), m2, e);
        var m3 := WithdrawArms(m2, token);
        WithdrawArmsTold(p, m2, token);
        ThenTold(p, Idle(s), m2, m3);
        PassTold(p, m3, parked.node);
        ThenTold(p, Idle(s), m3, Finished(m3, parked.node));
        LeavesTold(p, Idle(s), Finished(m3, parked.node), token, parked.node);
        var o := LeaveSingle(p, Finished(m3, parked.node), token, parked.node);
        if o.Ok? {
          IdleTold(p, s, o.m);
        }
    }
  }

  lemma InterruptTold(p: Process, a: Machine, m: Machine, token: TokenId, boundary: NodeIx)
    requires Told(p, a, m)
    ensures var o := InterruptToBoundary(p, m, token, boundary); o.Ok? ==> Told(p, a, o.m) && |a.ev| < |o.m.ev|
  {
    hide Told, TearDown, WithdrawArms, LeaveSingle;
    if token in m.s.tokens {
      var parked := m.s.tokens[token];
      var m1 := Unpark(m, {token});
      StillTold(p, a, m, m1);
      var m2 := if parked.wait.OnScope? then DropScope(TearDown(m1, parked.wait.child), parked.wait.child) else m1;
      if parked.wait.OnScope? {
        TearDownTold(p, m1, parked.wait.child);
        ThenTold(p, a, m1, TearDown(m1, parked.wait.child));
        StillTold(p, a, TearDown(m1, parked.wait.child), m2);
      }
      var m3 := m2.(scope := parked.scope);
      StillTold(p, a, m2, m3);
      WithdrawArmsTold(p, m3, token);
      ThenTold(p, a, m3, WithdrawArms(m3, token));
      var m4 := WithdrawArms(m3, token);
      PassTold(p, m4, boundary);
      ThenTold(p, a, m4, Finished(Started(m4, boundary), boundary));
      LeavesTold(p, a, Finished(Started(m4, boundary), boundary), token, boundary);
    }
  }

  lemma RaiseErrorTold(p: Process, s: Instance, id: ItemId, code: Option<string>)
    ensures OpeningTold(p, s, OpenRaiseError(p, s, id, code))
  {
    hide Told, OpenWork, InterruptToBoundary, Catcher, Freeze;
    if s.status.Active? && id in s.items && s.items[id].open {
      var item := s.items[id];
      var m := Say(Idle(CloseItem(s, id)), WorkItemFailed(id, item.element, code));
      OneClosed(s, id);
      OpenRow(s, id);
      Says(p, Idle(s), m, WorkItemFailed(id, item.element, code));
      var scope := if item.token in s.tokens then s.tokens[item.token].scope else ROOT;
      match Catcher(p, s.scopes, item.element, item.token, scope, code)
      case Some(caught) =>
        InterruptTold(p, Idle(s), m, caught.0, caught.1);
        var o := InterruptToBoundary(p, m, caught.0, caught.1);
        if o.Ok? {
          IdleTold(p, s, o.m);
        }
      case None =>
        FreezeTold(p, m, item.token, item.element, code, None);
        ThenTold(p, Idle(s), m, Freeze(m, item.token, item.element, code, None));
        IdleTold(p, s, Freeze(m, item.token, item.element, code, None));
    }
  }

  lemma InterruptHostTold(p: Process, a: Machine, m: Machine, token: TokenId, boundary: NodeIx)
    requires Told(p, a, m) && token in m.s.tokens
    requires m.s.TokenAt(token).wait.OnItem? ==> m.s.TokenAt(token).wait.Ref() in m.s.items && m.s.ItemAt(m.s.TokenAt(token).wait.Ref()).open
    ensures var o := InterruptHost(p, m, token, boundary); o.Ok? ==> Told(p, a, o.m) && |a.ev| < |o.m.ev|
  {
    hide Told, OpenWork, InterruptToBoundary, Withdraw;
    var t := m.s.tokens[token];
    match t.wait
    case OnItem(item) =>
      var m1 := Say(m.(s := m.s.(items := Closed(m.s.items, {item}))), WorkItemCancelled(item, m.s.items[item].element));
      OneClosed(m.s, item);
      OpenRow(m.s, item);
      Says(p, m, m1, WorkItemCancelled(item, m.s.items[item].element));
      ThenTold(p, a, m, m1);
      InterruptTold(p, a, m1, token, boundary);
    case OnMessage(sub) =>
      if sub in m.s.subs {
        WithdrawTold(p, m, {}, {sub});
        ThenTold(p, a, m, Withdraw(m, {}, {sub}));
        InterruptTold(p, a, Withdraw(m, {}, {sub}), token, boundary);
      }
    case OnScope(_) => InterruptTold(p, a, m, token, boundary);
    case _ =>
  }

  lemma GatewayTold(p: Process, a: Machine, m: Machine, token: TokenId, gateway: NodeIx, winner: NodeIx)
    requires Told(p, a, m)
    ensures var o := TakeGatewayPath(p, m, token, gateway, winner); o.Ok? ==> Told(p, a, o.m) && |a.ev| < |o.m.ev|
  {
    hide Told, LeaveSingle, FlowTo;
    var m0 := Unpark(m, {token});
    StillTold(p, a, m, m0);
    PassTold(p, m0, gateway);
    var m1 := Finished(m0, gateway);
    ThenTold(p, a, m0, m1);
    var f := FlowTo(p, p.Outgoing(gateway), winner);
    if f.Some? {
      var m2 := Say(m1, FlowTaken(f.value));
      Notes(p, m1, m2, FlowTaken(f.value));
      ThenTold(p, a, m1, m2);
      PassTold(p, m2, winner);
      ThenTold(p, a, m2, Finished(Started(m2, winner), winner));
      LeavesTold(p, a, Finished(Started(m2, winner), winner), token, winner);
    }
  }

  // ---- a timer fires

  /** What follows a fire and does not continue it reads as if it had not been. */
  lemma {:induction false} AfterFire(p: Process, b: Book, fired: Option<(TimerId, Timer)>, ev: seq<Event>)
    requires ev != [] && NoneContinues(ev) && b.fired.None?
    ensures ReadAll(p, b.(fired := fired), ev) == ReadAll(p, b, ev)
  {
    var front, last := ev[..|ev| - 1], ev[|ev| - 1];
    if front == [] {
      assert ReadAll(p, b.(fired := fired), front) == Some(b.(fired := fired)) && ReadAll(p, b, front) == Some(b);
      FireReads(p, b, fired, last);
    } else {
      AfterFire(p, b, fired, front);
    }
  }

  lemma FireReads(p: Process, b: Book, fired: Option<(TimerId, Timer)>, e: Event)
    requires !Continues(e) && b.fired.None?
    ensures Read(p, b.(fired := fired), e) == Read(p, b, e)
  {
  }

  function Fired(s: Instance, id: TimerId): Machine {
    Say(Idle(s.(timers := s.timers - {id})), TimerFired(id, s.TimerAt(id).element))
  }

  lemma FiredReads(p: Process, s: Instance, id: TimerId, m: Machine)
    requires id in s.timers && Told(p, Fired(s, id), m) && |Fired(s, id).ev| < |m.ev|
    ensures ReadAll(p, BookOf(s), m.ev) == Some(BookOf(m.s))
  {
    var m0 := Fired(s, id);
    var d := m.ev[|m0.ev|..];
    var b := BookOf(m0.s).(fired := Some((id, s.timers[id])));
    ReadOne(p, BookOf(s), m0.ev[0]);
    assert m0.ev == [m0.ev[0]] && m.ev == m0.ev + d;
    hide ReadAll;
    assert ReadAll(p, BookOf(s), m0.ev) == Some(b);
    ReadOn(p, BookOf(s), m0.ev, d);
    AfterFire(p, BookOf(m0.s), Some((id, s.timers[id])), d);
  }

  lemma RearmedReads(p: Process, s: Instance, id: TimerId, m: Machine)
    requires id in s.timers && m == Fired(s, id).(scope := m.scope)
    ensures var m1 := RearmCycle(m, id, s.TimerAt(id));
            m1 != m ==> (exists e :: m1.ev == m.ev + [e]) && ReadAll(p, BookOf(s), m1.ev) == Some(BookOf(m1.s))
  {
    var timer := s.timers[id];
    var m1 := RearmCycle(m, id, timer);
    if m1 != m {
      var b := BookOf(m.s).(fired := Some((id, timer)));
      ReadOne(p, BookOf(s), m.ev[0]);
      assert m.ev == [m.ev[0]];
      hide ReadAll;
      assert ReadAll(p, BookOf(s), m.ev) == Some(b);
      ReadPush(p, BookOf(s), m.ev, b, m1.ev[|m.ev|]);
    }
  }

  lemma SpawnTold(p: Process, m: Machine, b: NodeIx)
    ensures var o := SpawnSideToken(p, m, b); o.Ok? ==> Told(p, m, o.m) && |m.ev| < |o.m.ev|
  {
    hide Told, LeaveSingle;
    var m1 := FreshToken(m);
    Quiet(p, m, m1);
    PassTold(p, m1, b);
    ThenTold(p, m, m1, Finished(Started(m1, b), b));
    LeavesTold(p, m, Finished(Started(m1, b), b), m.s.nextToken, b);
  }

  lemma ReadThenTold(p: Process, s: Instance, a: Machine, b: Machine)
    requires ReadAll(p, BookOf(s), a.ev) == Some(BookOf(a.s)) && Told(p, a, b)
    ensures ReadAll(p, BookOf(s), b.ev) == Some(BookOf(b.s))
  {
    ReadOn(p, BookOf(s), a.ev, b.ev[|a.ev|..]);
    assert b.ev == a.ev + b.ev[|a.ev|..];
  }

  lemma TimerSideReads(p: Process, s: Instance, id: TimerId)
    requires id in s.timers && s.TimerAt(id).token in s.tokens
    ensures var o := TimerSidePath(p, Fired(s, id), id, s.TimerAt(id));
            o.Ok? ==> ReadAll(p, BookOf(s), o.m.ev) == Some(BookOf(o.m.s))
  {
    hide ReadAll, Told, RearmCycle, SpawnSideToken;
    var timer := s.timers[id];
    var m0 := Fired(s, id).(scope := s.tokens[timer.token].scope);
    var m1 := RearmCycle(m0, id, timer);
    RearmedReads(p, s, id, m0);
    SpawnTold(p, m1, timer.element);
    var o := SpawnSideToken(p, m1, timer.element);
    if o.Ok? {
      if m1 == m0 {
        Quiet(p, Fired(s, id), m0);
        ThenTold(p, Fired(s, id), m0, o.m);
        FiredReads(p, s, id, o.m);
      } else {
        ReadThenTold(p, s, m1, o.m);
      }
    }
  }

  lemma FireTimerTold(p: Process, s: Instance, id: TimerId)
    requires Inv(p, Idle(s), {})
    ensures OpeningTold(p, s, OpenFireTimer(p, s, id))
  {
    hide Told, ReadAll, InterruptHost, TakeGatewayPath, TimerSidePath, LeaveSingle, WithdrawArms, Inv;
    if s.status.Active? && id in s.timers && s.timers[id].token in s.tokens {
      var timer := s.timers[id];
      var t := s.tokens[timer.token];
      var m := Fired(s, id);
      Quiet(p, m, m);
      if t.wait == OnTimer(id) {
        var m0 := Unpark(m, {timer.token}).(scope := t.scope);
        Quiet(p, m, m0);
        PassTold(p, m0, timer.element);
        ThenTold(p, m, m0, Finished(m0, timer.element));
        LeavesTold(p, m, Finished(m0, timer.element), timer.token, timer.element);
        var o := LeaveSingle(p, Finished(m0, timer.element), timer.token, timer.element);
        if o.Ok? {
          FiredReads(p, s, id, o.m);
        }
      } else if t.wait.OnItem? || t.wait.OnMessage? || t.wait.OnScope? {
        if p.Interrupts(timer.element) {
          HostWorks(p, s, timer.token);
          InterruptHostTold(p, m, m, timer.token, timer.element);
          var o := InterruptHost(p, m, timer.token, timer.element);
          if o.Ok? {
            FiredReads(p, s, id, o.m);
          }
        } else {
          TimerSideReads(p, s, id);
        }
      } else if t.wait.AtEventGateway? {
        var m0 := m.(scope := t.scope);
        Quiet(p, m, m0);
        WithdrawArmsTold(p, m0, timer.token);
        ThenTold(p, m, m0, WithdrawArms(m0, timer.token));
        GatewayTold(p, m, WithdrawArms(m0, timer.token), timer.token, t.node, timer.element);
        var o := TakeGatewayPath(p, WithdrawArms(m0, timer.token), timer.token, t.node, timer.element);
        if o.Ok? {
          FiredReads(p, s, id, o.m);
        }
      }
    }
  }

  lemma HostWorks(p: Process, s: Instance, token: TokenId)
    requires Inv(p, Idle(s), {}) && token in s.tokens
    ensures s.TokenAt(token).wait.OnItem? ==> s.TokenAt(token).wait.Ref() in s.items && s.ItemAt(s.TokenAt(token).wait.Ref()).open
  {
    TokenIn(p, s, token);
  }

  // ---- a message is delivered

  lemma MessageSideTold(p: Process, a: Machine, m: Machine, sub: Sub)
    requires Told(p, a, m) && m.s.status.Active?
    ensures var o := MessageSidePath(p, m, sub); o.Ok? ==> Told(p, a, o.m)
  {
    hide Told, Subscribe, SpawnSideToken;
    if sub.token in m.s.tokens {
      var m0 := m.(scope := m.s.tokens[sub.token].scope);
      StillTold(p, a, m, m0);
      SubscribeTold(p, m0, sub.token, sub.element);
      var armed := Subscribe(p, m0, sub.token, sub.element);
      ThenTold(p, a, m0, armed.m);
      if armed.ok {
        SpawnTold(p, armed.m, sub.element);
        var o := SpawnSideToken(p, armed.m, sub.element);
        if o.Ok? {
          ThenTold(p, a, armed.m, o.m);
        }
      }
    }
  }

  lemma DeliverMessageTold(p: Process, s: Instance, id: SubId, patch: Value)
    requires Inv(p, Idle(s), {})
    ensures OpeningTold(p, s, OpenDeliverMessage(p, s, id, patch))
  {
    hide Told, ReadAll, Rearms, InterruptHost, TakeGatewayPath, MessageSidePath, LeaveSingle, WithdrawArms, Patched, Inv;
    PatchedIs(Say(Idle(s.(subs := s.subs - {id})), MessageReceived(id, s.SubAt(id).element, s.SubAt(id).message)), patch);
    if s.status.Active? && id in s.subs && s.subs[id].token in s.tokens {
      var sub := s.subs[id];
      var t := s.tokens[sub.token];
      var a := Idle(s);
      var e := MessageReceived(id, sub.element, sub.message);
      var m0 := Say(Idle(s.(subs := s.subs - {id})), e);
      Says(p, a, m0, e);
      var m := Patched(m0, patch);
      PatchedTold(p, m0, patch);
      ThenTold(p, a, m0, m);
      var m1 := m.(scope := t.scope);
      StillTold(p, a, m, m1);
      var m2 := WithdrawArms(m1, sub.token);
      WithdrawArmsTold(p, m1, sub.token);
      ThenTold(p, a, m1, m2);
      var o := if t.wait == OnMessage(id) then LeaveSingle(p, Finished(Unpark(m2, {sub.token}), sub.element), sub.token, sub.element)
               else if t.wait.AtEventGateway? then TakeGatewayPath(p, m2, sub.token, t.node, sub.element)
               else if p.Interrupts(sub.element) then InterruptHost(p, m, sub.token, sub.element)
               else MessageSidePath(p, m, sub);
      if t.wait == OnMessage(id) {
        var m3 := Unpark(m2, {sub.token});
        StillTold(p, a, m2, m3);
        PassTold(p, m3, sub.element);
        ThenTold(p, a, m3, Finished(m3, sub.element));
        LeavesTold(p, a, Finished(m3, sub.element), sub.token, sub.element);
      } else if t.wait.AtEventGateway? {
        GatewayTold(p, a, m2, sub.token, t.node, sub.element);
      } else if p.Interrupts(sub.element) {
        HostWorks(p, s, sub.token);
        InterruptHostTold(p, a, m, sub.token, sub.element);
      } else {
        MessageSideTold(p, a, m, sub);
      }
      if o.Ok? {
        IdleTold(p, s, o.m);
      }
    }
  }

  // ---- repair

  lemma CollateralTold(p: Process, a: Machine, m: Machine)
    requires Told(p, a, m)
    ensures Told(p, a, Collateral(m))
  {
    hide Told, MovesOf, Flying, Asking;
    StillTold(p, a, m, Collateral(m));
  }

  lemma DisposedTold(p: Process, m: Machine, cause: TokenId, resume: NodeIx, d: Disposition)
    requires m.s.status.Active? && !d.AdvancePast?
    ensures var o := Disposed(p, m, cause, resume, d); o.Ok? ==> Told(p, m, o.m)
  {
    hide Told, InterruptToBoundary, CompleteScopeIfEmpty, Terminate, Catcher;
    Quiet(p, m, m);
    var m1 := Unpark(m, {cause});
    Quiet(p, m, m1);
    match d
    case Retry(_) => Quiet(p, m, Disposed(p, m, cause, resume, d).m);
    case Divert(code) =>
      var caught := Catcher(p, m.s.scopes, resume, cause, m.scope, code);
      if caught.Some? {
        InterruptTold(p, m, m, caught.value.0, caught.value.1);
      }
    case Abandon => CompleteIfEmptyTold(p, m, m1, m.scope);
    case AbandonInstance => TerminateTold(p, m);
  }

  /** Of an advance: the answer is told by the event that opened the repair. */
  lemma AdvanceTold(p: Process, m: Machine, cause: TokenId, resume: NodeIx, d: Disposition)
    requires d.AdvancePast?
    ensures var a := m.(s := m.s.(variables := p.Bind(resume, d.Answer(), m.s.variables)));
            var o := Disposed(p, m, cause, resume, d);
            o.Ok? ==> Told(p, a, o.m)
  {
    hide Told, LeaveSingle, Process.Bind;
    var a := m.(s := m.s.(variables := p.Bind(resume, d.Answer(), m.s.variables)));
    var m2 := Unpark(a, {cause});
    Quiet(p, a, m2);
    PassTold(p, m2, resume);
    ThenTold(p, a, m2, Finished(m2, resume));
    LeavesTold(p, a, Finished(m2, resume), cause, resume);
  }

  lemma RepairOpens(p: Process, s: Instance, incident: nat, d: Disposition, why: string)
    requires RepairRefusal(p, s, incident, d, why).None?
    ensures s.status.Failed? && incident + 1 == s.nextIncident && Causes(s) != {} && CauseOf(s) in s.tokens
    ensures var decision := p.KindOf(p.ResumePoint(s.TokenAt(CauseOf(s)).node)).BusinessRule?;
            d.AdvancePast? && decision ==> d.Patch() == EMPTY
  {
    assert CauseOf(s) in Sorted(Causes(s));
  }

  /** The instance as a repair's opening event leaves it. */
  function Reopened(p: Process, s: Instance, resume: NodeIx, answer: Option<Value>): Instance {
    s.(status := Active, variables := p.Bind(resume, answer, s.variables))
  }

  /** The event that opens a repair of the cause at `n`. */
  function Repairs(s: Instance, n: NodeIx, d: Disposition, why: string): Event {
    IncidentRepaired(if s.nextIncident > 0 then s.nextIncident - 1 else 0, n, d.Kind(), d.Code(), d.Answer(), why)
  }

  lemma ReopenedTold(p: Process, s: Instance, m: Machine, n: NodeIx, d: Disposition, why: string)
    requires s.status.Failed? && s.nextIncident > 0 && m.ev == [Repairs(s, n, d, why)]
    requires m.s == Reopened(p, s, p.ResumePoint(n), d.Answer())
    ensures Told(p, Idle(s), m)
  {
    hide Told;
    Says(p, Idle(s), m, Repairs(s, n, d, why));
  }

  lemma RepairTold(p: Process, s: Instance, m: Machine, n: NodeIx, cause: TokenId, d: Disposition, why: string)
    requires s.status.Failed? && s.nextIncident > 0
    requires d.AdvancePast? && p.KindOf(p.ResumePoint(n)).BusinessRule? ==> d.Patch() == EMPTY
    requires var m1 := Patched(Say(Idle(s), Repairs(s, n, d, why)), d.Patch()); m.s == m1.s.(status := Active) && m.ev == m1.ev
    ensures var o := Disposed(p, m, cause, p.ResumePoint(n), d); o.Ok? ==> Told(p, Idle(s), o.m)
  {
    hide Told, Disposed, Patched, Assign, Process.ResultPath;
    var resume := p.ResumePoint(n);
    var m0 := Say(Idle(s), Repairs(s, n, d, why));
    var a := m0.(s := Reopened(p, s, resume, d.Answer()));
    ReopenedTold(p, s, a, n, d, why);
    var o := Disposed(p, m, cause, resume, d);
    if o.Ok? {
      if d.AdvancePast? && p.KindOf(resume).BusinessRule? {
        PatchNothing(m0);
        AdvanceTold(p, m, cause, resume, d);
        var a2 := m.(s := Reopened(p, m.s, resume, d.Answer()));
        StillTold(p, Idle(s), a, a2);
        ThenTold(p, Idle(s), a2, o.m);
      } else {
        PatchedTold(p, a, d.Patch());
        ThenTold(p, Idle(s), a, Patched(a, d.Patch()));
        PatchedAlike(m0, a, d.Patch());
        StillTold(p, Idle(s), Patched(a, d.Patch()), m);
        if d.AdvancePast? {
          AdvanceTold(p, m, cause, resume, d);
        } else {
          DisposedTold(p, m, cause, resume, d);
        }
        ThenTold(p, Idle(s), m, o.m);
      }
    }
  }

  lemma OpenRepairTold(p: Process, s: Instance, incident: nat, d: Disposition, why: string)
    ensures OpeningTold(p, s, OpenRepair(p, s, incident, d, why))
  {
    hide Told, ReadAll, RepairRefusal, Disposed, Patched, Collateral, Causes;
    if RepairRefusal(p, s, incident, d, why).None? {
      RepairOpens(p, s, incident, d, why);
      var cause := CauseOf(s);
      var parked := s.tokens[cause];
      assert Repairs(s, parked.node, d, why) == IncidentRepaired(incident, parked.node, d.Kind(), d.Code(), d.Answer(), why);
      var m1 := Patched(Say(Idle(s), Repairs(s, parked.node, d, why)), d.Patch());
      var m2 := m1.(s := m1.s.(status := Active), scope := parked.scope);
      RepairTold(p, s, m2, parked.node, cause, d, why);
      var o := Disposed(p, m2, cause, p.ResumePoint(parked.node), d);
      if o.Ok? {
        CollateralTold(p, Idle(s), o.m);
        IdleTold(p, s, o.m);
        IdleTold(p, s, Collateral(o.m));
      }
    }
  }

  lemma PatchNothing(m: Machine)
    ensures Patched(m, EMPTY) == m
  {
  }

  lemma PatchedAlike(m: Machine, a: Machine, patch: Value)
    requires a.ev == m.ev && a.s == m.s.(status := Active)
    ensures Patched(a, patch).ev == Patched(m, patch).ev
    ensures Patched(a, patch).s == Patched(m, patch).s.(status := Active)
  {
  }

  // ---- every history

  lemma OpenTold(p: Process, s: Instance, c: Command)
    requires Inv(p, Idle(s), {})
    ensures OpeningTold(p, s, OpenCommand(p, s, c))
  {
    hide Inv, OpeningTold, OpenStart, OpenCompleteWorkItem, OpenRaiseError, OpenFireTimer, OpenDeliverMessage, OpenCompleteDecision, OpenRepair;
    match c
    case StartWith(variables) => OpenStartTold(p, s, variables);
    case CompleteWorkItem(item, patch) => CompleteWorkItemTold(p, s, item, patch);
    case RaiseError(item, code) => RaiseErrorTold(p, s, item, code);
    case FireTimer(timer) => FireTimerTold(p, s, timer);
    case DeliverMessage(sub, patch) => DeliverMessageTold(p, s, sub, patch);
    case CompleteDecision(token, answer, detail) => CompleteDecisionTold(p, s, token, answer, detail);
    case Repair(incident, d, why) => OpenRepairTold(p, s, incident, d, why);
  }

  lemma StepReads(p: Process, s: Instance, c: Command)
    requires Linted(p) && Resting(p, s)
    ensures var r := StepOf(p, s, c); ReadAll(p, BookOf(s), r.ev) == Some(BookOf(r.s))
  {
    hide Linted, Ends, Inv, ReadAll, OpenCommand, Run;
    OpenTold(p, s, c);
    OpenSound(p, s, c);
    match OpenCommand(p, s, c)
    case Refused(_) => ReadNothing(p, BookOf(s));
    case Opened(m) =>
      if Ends(p, m) {
        RunTold(p, m);
        ReadThenTold(p, s, m, Run(p, m));
      } else {
        ReadNothing(p, BookOf(s));
      }
    case Ended(_) =>
  }

  /** The events are a complete to-do list and a complete account: whatever the
      commands, reading the history from blank gives exactly the document, the
      open work, the armed timers, the open subscriptions and the counters of the
      instance it led to. */
  lemma {:induction false} HistoryReads(p: Process, commands: seq<Command>)
    requires Linted(p)
    ensures var h := After(p, commands); ReadAll(p, BLANK, h.ev) == Some(BookOf(h.s))
  {
    hide Linted, Ends, ReadAll, StepOf;
    if commands == [] {
      ReadNothing(p, BLANK);
      assert OpenWork(NEW_INSTANCE.items) == map[];
    } else {
      var front := commands[..|commands| - 1];
      HistoryReads(p, front);
      var before := After(p, front);
      StepReads(p, before.s, commands[|commands| - 1]);
      ReadOn(p, BLANK, before.ev, StepOf(p, before.s, commands[|commands| - 1]).ev);
    }
  }
}
