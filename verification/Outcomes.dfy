/** What becomes of a command, said without the step's own functions: which is
    refused and why, which freezes, which ends the instance, and who comes next. */
module Outcomes {
  import opened Basics
  import opened Json
  import opened Compiled
  import opened State
  import opened Advance
  import opened Step
  import opened Invariant
  import opened Branching
  import opened Running
  import opened Stepping
  import opened Repairing
  import opened Effects
  import opened Entries
  import opened Saying
  import opened Conservation
  import opened Runs
  import opened Incident

  // ---- a decision that fails

  /** A token that holds nothing has nothing withdrawn. */
  lemma NothingStripped(p: Process, m: Machine, token: TokenId)
    requires Owned(p, m.s) && token in m.s.tokens && HoldsNothing(m.s.TokenAt(token).wait)
    ensures Stripped(m, token) == m
  {
    IdlersOwn(p, m.s, {token});
    hide Owned;
    assert Closed(m.s.items, {}) == m.s.items && m.s.timers - {} == m.s.timers && m.s.subs - {} == m.s.subs;
    assert m.ev + [] + [] == m.ev && m.ev + [] == m.ev;
  }

  /** A step whose command freezes the instance ends there. */
  lemma FrozenStep(p: Process, s: Instance, c: Command, m: Machine)
    requires OpenCommand(p, s, c) == Opened(m) && m.q == [] && !m.s.status.Active?
    ensures StepOf(p, s, c) == Stepped(m.s, m.ev, None, true)
  {
    hide Linted, Resting, OpenCommand;
    StepGives(p, s, c, m, 0, m);
  }

  /** Only that the instance is frozen on `token`: pending decisions are halted with
      it, and nobody else is touched. */
  predicate HaltedOn(s: Instance, token: TokenId, s': Instance) {
    && s' == s.(status := Failed, tokens := s'.tokens, nextIncident := s.nextIncident + 1)
    && s'.tokens.Keys == s.tokens.Keys
    && forall id :: id in s.tokens ==>
         var t := s.tokens[id];
         s'.tokens[id] == if id == token then t.(wait := AtIncident) else if t.wait.OnDecision? then t.(wait := Halted(AwaitingDecision)) else t
  }

  /** A decision without an answer is an incident at that decision and nothing more:
      nothing is written, and nobody goes on. */
  lemma DecisionFails(p: Process, s: Instance, token: TokenId, detail: Option<string>)
    requires Linted(p) && Resting(p, s) && s.status.Active? && token in s.tokens && s.TokenAt(token).wait.OnDecision?
    ensures var r := StepOf(p, s, CompleteDecision(token, None, detail));
            && HaltedOn(s, token, r.s) && r.ev == [IncidentRaised(s.TokenAt(token).node, None, detail, s.nextIncident)]
            && r.error.None? && r.returned
  {
    hide Linted, Inv, StepOf, Owned, HaltedOn;
    var t := s.TokenAt(token);
    TokenIn(p, s, token);
    IdleOwned(p, s);
    var m := Idle(s).(scope := t.scope);
    NothingStripped(p, m, token);
    IcedAlone(s, token);
    hide Stripped, Iced;
    FrozenStep(p, s, CompleteDecision(token, None, detail), Freeze(m, token, t.node, None, detail));
  }

  lemma IcedAlone(s: Instance, token: TokenId)
    requires token in s.tokens
    ensures HaltedOn(s, token, Iced(s, [], token, s.TokenAt(token).node, s.TokenAt(token).scope))
  {
  }

  // ---- errors

  /** Item `id` is closed and its token frozen where it failed, its arms withdrawn;
      nobody else's rows are touched. */
  ghost predicate FailedOn(s: Instance, id: ItemId, token: TokenId, s': Instance) {
    && HaltedOn(s, token, s'.(items := s.items, timers := s.timers, subs := s.subs))
    && s'.items.Keys == s.items.Keys
    && (forall i :: i in s.items ==> s'.items[i] == if i == id then s.items[i].(open := false) else s.items[i])
    && (forall k :: k in s'.timers <==> k in s.timers && s.timers[k].token != token)
    && (forall k :: k in s'.timers ==> s'.timers[k] == s.timers[k])
    && (forall k :: k in s'.subs <==> k in s.subs && s.subs[k].token != token)
    && (forall k :: k in s'.subs ==> s'.subs[k] == s.subs[k])
  }

  /** A token with no work open loses its arms only. */
  lemma StripsArms(m: Machine, token: TokenId)
    requires token in m.s.tokens && !m.s.TokenAt(token).wait.OnScope? && m.s.OpenItemsOf({token}) == {}
    ensures Stripped(m, token).s == m.s.(timers := m.s.timers - m.s.TimersOf({token}), subs := m.s.subs - m.s.SubsOf({token}))
    ensures Stripped(m, token).q == m.q
  {
    hide Sorted;
    assert Closed(m.s.items, {}) == m.s.items;
    var m1 := WithdrawArms(m, token);
    assert m1.s.OpenItemsOf({token}) == {};
  }

  lemma FailedRows(s: Instance, id: ItemId, token: TokenId, s': Instance)
    requires HaltedOn(s, token, s'.(items := s.items, timers := s.timers, subs := s.subs))
    requires s'.items == Closed(s.items, {id}) && s'.timers == s.timers - s.TimersOf({token}) && s'.subs == s.subs - s.SubsOf({token})
    ensures FailedOn(s, id, token, s')
  {
    hide HaltedOn;
  }

  lemma UncaughtFreezes(s: Instance, m: Machine, id: ItemId, token: TokenId, element: NodeIx, code: Option<string>)
    requires token in s.tokens && s.TokenAt(token) == Token(element, s.TokenAt(token).scope, OnItem(id)) && s.OpenItemsOf({token}) == {id}
    requires m.s == CloseItem(s, id) && m.q == []
    ensures FailedOn(s, id, token, Freeze(m, token, element, code, None).s)
  {
    NoneOpen(s, id, token);
    StripsArms(m, token);
    IcedAlone(s, token);
    hide HaltedOn, FailedOn, Stripped, HaltDecisions, Closed;
    FailedRows(s, id, token, Freeze(m, token, element, code, None).s);
  }

  lemma NoneOpen(s: Instance, id: ItemId, token: TokenId)
    requires s.OpenItemsOf({token}) == {id}
    ensures CloseItem(s, id).OpenItemsOf({token}) == {}
  {
    assert forall i :: i in CloseItem(s, id).OpenItemsOf({token}) ==> i in s.OpenItemsOf({token});
  }

  /** A failed item: the nearest host with a boundary that takes the code loses its
      token to it, with all it holds; with no such host on the walk outward, the
      instance freezes where the item failed. */
  lemma ErrorLands(p: Process, s: Instance, id: ItemId, code: Option<string>)
    requires WellFormed(p) && Resting(p, s) && s.status.Active? && id in s.items && s.ItemAt(id).open
    ensures s.ItemAt(id).token in s.tokens
    ensures var item := s.ItemAt(id);
            var hosts := OutwardFrom(s.scopes, item.element, item.token, s.TokenAt(item.token).scope);
            match OpenCommand(p, s, RaiseError(id, code))
            case Opened(m) => exists i, b :: Lands(p, hosts, code, i, b) && Sends(p, s, hosts[i].0, b, s.variables, Opened(m))
            case Ended(m) => (forall h :: h in hosts ==> CatchesNothing(p, h.1, code)) && FailedOn(s, id, item.token, m.s) && m.q == []
            case Refused(_) => false
  {
    hide Inv, WellFormed, Catcher, Freeze, InterruptToBoundary, Sends, FailedOn, Catches, CatchesNothing, OutwardFrom, Lands;
    var item := s.ItemAt(id);
    ItemOwner(p, s, id);
    ErrorSends(p, s, id, code);
    var scope := s.TokenAt(item.token).scope;
    var i := Nearest(p, s.scopes, item.element, item.token, scope, code);
    var m := Say(Idle(CloseItem(s, id)), WorkItemFailed(id, item.element, code));
    match Catcher(p, s.scopes, item.element, item.token, scope, code) {
      case Some(who) => SendsOpen(p, s, who.0, who.1, s.variables, OpenRaiseError(p, s, id, code));
      case None =>
    }
    UncaughtFreezes(s, m, id, item.token, item.element, code);
    FreezeEmpties(m, item.token, item.element, code, None);
  }

  lemma SendsOpen(p: Process, s: Instance, token: TokenId, n: NodeIx, variables: Value, o: Opening)
    requires Sends(p, s, token, n, variables, o)
    ensures o.Opened?
  {
  }

  lemma FreezeEmpties(m: Machine, token: TokenId, element: NodeIx, code: Option<string>, detail: Option<string>)
    ensures Freeze(m, token, element, code, detail).q == []
  {
  }

  // ---- what is refused

  /** Why a disposition is refused at the resume point of the cause. */
  ghost predicate Objected(p: Process, s: Instance, cause: TokenId, d: Disposition, r: Refusal) {
    var resume := p.ResumePoint(s.TokenAt(cause).node);
    match d
    case Retry(_) => false
    case AdvancePast(patch, answer) =>
      (match p.KindOf(resume)
       case EventBasedGateway => r == GatewayHasNoSingleWayOn
       case BusinessRule(_, _) => r == DecisionNeedsAnAnswer && (answer.None? || patch != EMPTY)
       case _ => r == AnswerOnlyForADecision && answer.Some?)
    case Divert(code) =>
      r == NothingCatches && forall h :: h in OutwardFrom(s.scopes, resume, cause, s.TokenAt(cause).scope) ==> CatchesNothing(p, h.1, code)
    case Abandon => r == AJoinWouldWait && !p.OnSidePath(resume) && Accompanied(s, cause)
    case AbandonInstance => false
  }

  /** The boundary would not arm again once the message is delivered: no key in the
      patched document, or another waits for the message under it. */
  ghost predicate CannotRearm(p: Process, s: Instance, id: SubId, patch: Value) {
    var v := Merge(s.variables, patch);
    match p.KindOf(s.SubAt(id).element)
    case MessageBoundary(message, key, false) =>
      forall text :: Keyed(v, key, text) ==> exists k :: k in s.subs && k != id && s.subs[k].message == message && s.subs[k].key == text
    case _ => false
  }

  ghost predicate RepairIsRefused(p: Process, s: Instance, incident: nat, d: Disposition, why: string, r: Refusal) {
    && s.status.Failed? && incident + 1 == s.nextIncident
    && if forall c :: c in why ==> IsSpace(c) then r == NoReason
       else exists cause :: cause in s.tokens && s.tokens[cause].wait.AtIncident? && Objected(p, s, cause, d, r)
  }

  /** The error a command is refused with, of an instance at rest. */
  ghost predicate RefusedWith(p: Process, s: Instance, c: Command, e: StepError) {
    match e
    case AlreadyStarted => c.StartWith? && s.status.Active?
    case InstanceNotActive(status) =>
      status == s.status && if c.StartWith? then !s.status.Created? && !s.status.Active? else !c.Repair? && !s.status.Active?
    case UnknownWorkItem(id) => s.status.Active? && NamesItem(c, id) && id !in s.items
    case WorkItemNotOpen(id) => s.status.Active? && NamesItem(c, id) && id in s.items && !s.items[id].open
    case UnknownTimer(id) => s.status.Active? && c == FireTimer(id) && id !in s.timers
    case UnknownSubscription(id) => s.status.Active? && (match c case DeliverMessage(sub, _) => sub == id && id !in s.subs case _ => false)
    case BoundaryCannotRearm(n) =>
      s.status.Active? && (match c
                           case DeliverMessage(id, patch) => id in s.subs && s.subs[id].element == n && CannotRearm(p, s, id, patch)
                           case _ => false)
    case IncidentNotOpen(named, open) =>
      && (match c case Repair(incident, _, _) => named == incident case _ => false)
      && open != Some(named) && open == if s.status.Failed? then Some(s.nextIncident - 1) else None
    case RepairRefused(r) => (match c case Repair(incident, d, why) => RepairIsRefused(p, s, incident, d, why, r) case _ => false)
    case InvariantViolated => s.status.Active? && !Asked(s, c)
  }

  predicate NamesItem(c: Command, id: ItemId) {
    match c
    case CompleteWorkItem(item, _) => item == id
    case RaiseError(item, _) => item == id
    case _ => false
  }

  lemma RearmsUnless(p: Process, s: Instance, id: SubId, patch: Value)
    requires id in s.subs
    ensures CannotRearm(p, s, id, patch) <==>
              p.KindOf(s.SubAt(id).element).MessageBoundary? && !p.Interrupts(s.SubAt(id).element) && !Rearms(p, s, id, patch)
  {
    hide Merge, KeyText, Keyed, Json.Resolve;
    var n, v := s.SubAt(id).element, Merge(s.variables, patch);
    if p.KindOf(n).MessageBoundary? {
      forall text ensures Keyed(v, p.KindOf(n).key, text) <==> KeyText(Json.Resolve(v, p.KindOf(n).key)) == Some(text) {
        KeyedIs(v, p.KindOf(n).key, text);
      }
    }
  }

  lemma ObjectedIs(p: Process, s: Instance, d: Disposition, r: Refusal)
    ensures var cause := CauseOf(s); Objected(p, s, cause, d, r) <==> DispositionRefusal(p, s, cause, d) == Some(r)
  {
    hide CauseOf, OutwardFrom, CatchesNothing, Catcher, Process.ResumePoint;
    var cause := CauseOf(s);
    if d.Divert? {
      var hosts := OutwardFrom(s.scopes, p.ResumePoint(s.TokenAt(cause).node), cause, s.TokenAt(cause).scope);
      var i := Nearest(p, s.scopes, p.ResumePoint(s.TokenAt(cause).node), cause, s.TokenAt(cause).scope, d.code);
      forall b | Lands(p, hosts, d.code, i, b) ensures !CatchesNothing(p, hosts[i].1, d.code) {
        CaughtSomething(p, hosts[i].1, d.code, b);
      }
    }
  }

  lemma CaughtSomething(p: Process, host: NodeIx, code: Option<string>, b: NodeIx)
    requires Catches(p, host, code, b)
    ensures !CatchesNothing(p, host, code)
  {
    var i: nat :| TakesAt(p.ErrorBoundaries(host), i, code, b);
    assert p.ErrorBoundaries(host)[i] in p.ErrorBoundaries(host);
  }

  lemma RepairRefusedWith(p: Process, s: Instance, incident: nat, d: Disposition, why: string, e: StepError)
    requires Resting(p, s) && !e.InvariantViolated?
    ensures RepairRefusal(p, s, incident, d, why) == Some(e) <==> RefusedWith(p, s, Repair(incident, d, why), e)
  {
    hide Inv, Objected, DispositionRefusal, Owned, CauseOf;
    if s.status.Failed? {
      CausesAre(p, s);
      OnlyCause(p, s, CauseOf(s));
      if e.RepairRefused? {
        ObjectedIs(p, s, d, e.refusal);
      }
    }
  }

  lemma RepairRefuses(p: Process, s: Instance, incident: nat, d: Disposition, why: string, e: StepError)
    requires !e.InvariantViolated?
    ensures OpenCommand(p, s, Repair(incident, d, why)) == Refused(e) <==> RepairRefusal(p, s, incident, d, why) == Some(e)
  {
    hide RepairRefusal, Disposed, Patched, Collateral, CauseOf;
  }

  lemma OpensUnless(p: Process, s: Instance, c: Command, e: StepError)
    requires Linted(p) && Resting(p, s) && !e.InvariantViolated? && !c.Repair? && (s.status.Active? ==> Asked(s, c))
    ensures OpenCommand(p, s, c) == Refused(e) <==> RefusedWith(p, s, c, e)
  {
    hide Linted, Resting, CannotRearm, Rearms, InterruptToBoundary, Freeze, Catcher, Merge, FiredAt, DeliveredTo, Decided, LeaveSingle, WithdrawArms;
    OpenSound(p, s, c);
    match c
    case DeliverMessage(id, patch) =>
      if id in s.subs { RearmsUnless(p, s, id, patch); }
    case _ =>
  }

  lemma StepErrors(p: Process, s: Instance, c: Command)
    ensures StepOf(p, s, c).error == match OpenCommand(p, s, c) case Refused(e) => Some(e) case _ => None
  {
    hide Linted, Resting, OpenCommand;
  }

  /** A command is refused exactly with the error that stands in its way, checked in
      the order given, and accepted when none does. */
  lemma RefusedExactlyWhen(p: Process, s: Instance, c: Command, e: StepError)
    requires Linted(p) && Resting(p, s)
    ensures StepOf(p, s, c).error == Some(e) <==> RefusedWith(p, s, c, e)
  {
    hide Linted, Resting, CannotRearm, RepairIsRefused, OpenCommand, RepairRefusal, Run, Ends;
    StepErrors(p, s, c);
    OpenSound(p, s, c);
    if e.InvariantViolated? {
    } else if c.Repair? {
      RepairRefusedWith(p, s, c.incident, c.disposition, c.why, e);
      RepairRefuses(p, s, c.incident, c.disposition, c.why, e);
    } else if s.status.Active? ==> Asked(s, c) {
      OpensUnless(p, s, c, e);
    }
  }

  // ---- how a run begins, goes on and ends

  /** A start: the document given, and one token on its way to the start of the
      process. */
  lemma StartOpens(p: Process, s: Instance, variables: Value)
    requires s.status.Created?
    ensures OpenCommand(p, s, StartWith(variables))
         == Opened(Machine(s.(status := Active, variables := variables, nextToken := s.nextToken + 1),
                           [Move(s.nextToken, p.ScopeStart(0), None, ROOT)], [InstanceStarted(variables)], ROOT, []))
  {
    assert [] + [InstanceStarted(variables)] == [InstanceStarted(variables)];
  }

  lemma {:induction false} ArmsQueueNothing(p: Process, m: Machine, token: TokenId, elements: seq<NodeIx>)
    ensures var a := ArmAll(p, m, token, elements); if a.ok then a.m.q == m.q else a.m.s.status.Failed?
    decreases |elements|
  {
    hide Freeze, ArmKey, Process.Resolve;
    if elements == [] {
    } else {
      var n := elements[0];
      FreezeFails(m, token, n);
      if Arm(p, m, token, n).ok {
        ArmsQueueNothing(p, Arm(p, m, token, n).m, token, elements[1..]);
      }
    }
  }

  predicate Arms(k: Kind) { k.Task? || k.MessageCatch? || k.TimerCatch? || k.EventBasedGateway? || k.SubProcess? }

  lemma ArmsBehind(p: Process, m: Machine, token: TokenId, n: NodeIx, via: Option<FlowIx>)
    requires Arms(p.KindOf(n)) && (p.KindOf(n).EventBasedGateway? ==> forall e :: e in Targets(p, p.Outgoing(n)) ==> p.IsCatch(e))
    ensures var o := Enter(p, m, token, n, via); o.Ok? && o.m.s.status.Active? ==> m.q <= o.m.q
  {
    hide ArmAll, Freeze, Process.Resolve, ArmKey;
    FreezeFails(m, token, n);
    match p.KindOf(n)
    case Task(work, topic) => ArmsQueueNothing(p, OpenItem(Started(m, n), token, n, work, topic), token, p.Boundaries(n));
    case MessageCatch(_, _) =>
      var armed := Subscribe(p, Started(m, n), token, n);
      ArmsQueueNothing(p, Park(armed.m, token, n, OnMessage(m.s.nextSub)), token, p.Boundaries(n));
    case EventBasedGateway =>
      var m1 := Park(Started(m, n), token, n, AtEventGateway);
      AlternativesArm(p, m1, token, Targets(p, p.Outgoing(n)));
      ArmsQueueNothing(p, m1, token, Targets(p, p.Outgoing(n)));
    case SubProcess(_) => ArmsQueueNothing(p, OpenScope(Started(m, n), token, n), token, p.Boundaries(n));
    case _ =>
  }

  lemma PassesBehind(p: Process, m: Machine, token: TokenId, n: NodeIx, via: Option<FlowIx>)
    requires !Arms(p.KindOf(n)) && !p.KindOf(n).TerminateEnd?
    ensures var o := Enter(p, m, token, n, via); o.Ok? ==> m.q <= o.m.q
  {
    hide Sorted, ForkOn, AllArrived, Consumed, ArrivedOn, ScopeIsEmpty, FirstHolding;
    ForkIs(p, Finished(Started(m, n), n), p.Outgoing(n));
  }

  /** First come, first served: the next move is the oldest, and whoever was queued
      behind it stays ahead of whoever it queues, while the instance is active and no
      scope is cut short. */
  lemma FirstComesFirst(p: Process, m: Machine)
    requires WellFormed(p) && m.q != [] && m.Head().node < |p.nodes| && !p.KindOf(m.Head().node).TerminateEnd?
    ensures var o := Advance1(p, m); o.Ok? && o.m.s.status.Active? ==> m.q[1..] <= o.m.q
  {
    hide Enter, Targets;
    var mv := m.Head();
    if Arms(p.KindOf(mv.node)) {
      if p.KindOf(mv.node).EventBasedGateway? { AlternativesAreCatches(p, mv.node); }
      ArmsBehind(p, m.(q := m.q[1..], scope := mv.scope), mv.token, mv.node, mv.via);
    } else {
      PassesBehind(p, m.(q := m.q[1..], scope := mv.scope), mv.token, mv.node, mv.via);
    }
  }

  /** The questions put again, in order, to the decisions that are still there. */
  function Questions(p: Process, tokens: map<TokenId, Token>, ids: seq<TokenId>): seq<Event> {
    if ids == [] then []
    else
      var rest := Questions(p, tokens, ids[1..]);
      if ids[0] !in tokens then rest
      else
        match p.KindOf(tokens[ids[0]].node)
        case BusinessRule(decision, _) => [DecisionRequested(tokens[ids[0]].node, decision)] + rest
        case _ => rest
  }

  lemma {:induction false} SameQuestions(p: Process, a: map<TokenId, Token>, b: map<TokenId, Token>, ids: seq<TokenId>)
    requires a.Keys == b.Keys && forall id :: id in a ==> a[id].node == b[id].node
    ensures Questions(p, a, ids) == Questions(p, b, ids)
    decreases |ids|
  {
    if ids == [] {
    } else {
      SameQuestions(p, a, b, ids[1..]);
    }
  }

  lemma {:induction false} ReaskSays(p: Process, m: Machine, ids: seq<TokenId>)
    ensures Reask(p, m, ids).ev == m.ev + Questions(p, m.s.tokens, ids)
    decreases |ids|
  {
    if ids == [] {
    } else if ids[0] !in m.s.tokens {
      ReaskSays(p, m, ids[1..]);
    } else {
      var t := m.s.tokens[ids[0]];
      var m1 := m.(s := m.s.(tokens := m.s.tokens[ids[0] := t.(wait := OnDecision)]));
      var kind := p.KindOf(t.node);
      var m2 := if kind.BusinessRule? then Say(m1, DecisionRequested(t.node, kind.decision)) else m1;
      ReaskSays(p, m2, ids[1..]);
      SameQuestions(p, m.s.tokens, m2.s.tokens, ids[1..]);
    }
  }

  lemma {:induction false} NobodyAsked(p: Process, ids: seq<TokenId>)
    ensures Questions(p, map[], ids) == []
    decreases |ids|
  {
    if ids == [] {
    } else {
      NobodyAsked(p, ids[1..]);
    }
  }

  /** The queue done, an emptied instance is completed; any other stays active: the
      decisions to be asked again are asked and pending, and nobody else has moved. */
  lemma Settles(p: Process, m: Machine)
    requires m.s.status.Active?
    ensures var r := Settle(p, m);
            if m.s.tokens == map[] then r.s == m.s.(status := Status.Completed) && r.ev == m.ev + [InstanceCompleted]
            else
              && r.s == m.s.(tokens := r.s.tokens) && r.s.tokens.Keys == m.s.tokens.Keys
              && (forall id :: id in m.s.tokens ==>
                    r.s.TokenAt(id) == if id in m.reask then m.s.TokenAt(id).(wait := OnDecision) else m.s.TokenAt(id))
              && r.ev == m.ev + Questions(p, m.s.tokens, m.reask)
  {
    hide Reask, Questions;
    ReaskIs(p, m, m.reask);
    ReaskSays(p, m, m.reask);
    NobodyAsked(p, m.reask);
    assert m.s.tokens == map[] ==> Reask(p, m, m.reask).s.tokens == map[];
  }

  /** Abandoning the instance terminates it, and says so last. */
  lemma AbandonsInstance(p: Process, s: Instance, incident: nat, why: string)
    requires Linted(p) && Resting(p, s)
    ensures var r := StepOf(p, s, Repair(incident, AbandonInstance, why));
            r.error.None? ==>
              && r.returned && EndedAs(Idle(s), Status.Terminated, Idle(r.s))
              && exists n :: Tells([IncidentRepaired(incident, n, AbandonInstanceKind, None, None, why)], [InstanceTerminated], r.ev)
  {
    hide Linted, Inv, StepOf, RepairRefusal, Terminate, EndedAs, Tells, CauseOf;
    var c := Repair(incident, AbandonInstance, why);
    EndedStep(p, s, c);
    RepairSays(p, s, incident, AbandonInstance, why);
    if RepairRefusal(p, s, incident, AbandonInstance, why).None? {
      var parked := s.TokenAt(CauseOf(s));
      var m := Say(Idle(s), IncidentRepaired(incident, parked.node, AbandonInstanceKind, None, None, why)).(s := s.(status := Active), scope := parked.scope);
      TerminatedIs(m);
      EndedFrom(s, m, Terminate(m));
    }
  }

  lemma EndedStep(p: Process, s: Instance, c: Command)
    ensures match OpenCommand(p, s, c)
            case Ended(m) => StepOf(p, s, c) == Stepped(m.s, m.ev, None, true)
            case Refused(e) => StepOf(p, s, c).error == Some(e)
            case _ => true
  {
    hide Linted, Resting, OpenCommand;
  }

  lemma EndedFrom(s: Instance, m: Machine, m': Machine)
    requires EndedAs(m, Status.Terminated, m') && m.s == s.(status := Active)
    ensures EndedAs(Idle(s), Status.Terminated, Idle(m'.s))
  {
  }

  /** Where a repair resumes: a boundary's incident at the host it is on, that of an
      alternative at the gateway it races at, any other where it is. */
  lemma ResumesAt(p: Process, n: NodeIx)
    requires WellFormed(p) && n < |p.nodes|
    ensures match p.KindOf(n)
            case TimerBoundary(_, _) => n in p.hosts && p.ResumePoint(n) == p.hosts[n]
            case MessageBoundary(_, _, _) => n in p.hosts && p.ResumePoint(n) == p.hosts[n]
            case ErrorBoundary(_) => n in p.hosts && p.ResumePoint(n) == p.hosts[n]
            case _ => if p.IsAlternative(n) then p.KindOf(p.ResumePoint(n)).EventBasedGateway? && p.Races(p.ResumePoint(n), n) else p.ResumePoint(n) == n
  {
    if p.IsAlternative(n) {
      var f :| f in p.Incoming(n) && p.KindOf(p.Source(f)).EventBasedGateway?;
      InTo(p, n, f);
      assert ShapeOk(p, p.Source(f));
    }
  }
}
