/** What keeps an instance moving, kept by every step: no join waits with everybody
    there, and every race has an arm. */
module Liveness {
  import opened Basics
  import opened Json
  import opened Compiled
  import opened State
  import opened Advance
  import opened Game
  import opened Invariant
  import opened Entering

  predicate HasArm(s: Instance, id: TokenId) {
    (exists k :: k in s.timers && s.timers[k].token == id) || (exists k :: k in s.subs && s.subs[k].token == id)
  }

  ghost predicate NoJoinFull(p: Process, s: Instance) {
    forall n: NodeIx, scope: ScopeId :: n < |p.nodes| && p.IsJoin(n) ==> !AllArrived(p, s, n, scope)
  }

  predicate RacesArmed(s: Instance) {
    forall id :: id in s.tokens && s.tokens[id].wait.AtEventGateway? ==> HasArm(s, id)
  }

  ghost predicate Lively(p: Process, s: Instance) { NoJoinFull(p, s) && RacesArmed(s) }

  // ---- steps that start no wait at a join and disarm no race

  /** The token is the same in both, with every arm it had. */
  predicate Kept(a: Instance, b: Instance, id: TokenId) {
    && id in a.tokens && id in b.tokens && a.tokens[id] == b.tokens[id]
    && (forall k :: k in a.timers && a.timers[k].token == id ==> k in b.timers && b.timers[k].token == id)
    && (forall k :: k in a.subs && a.subs[k].token == id ==> k in b.subs && b.subs[k].token == id)
  }

  /** From `a` to `b` nobody came to a join, and races but those of `X` are as armed. */
  predicate Tame(a: Instance, b: Instance, X: set<TokenId>) {
    && (forall id :: id in b.tokens && b.tokens[id].wait.AtJoin? ==> id in a.tokens && a.tokens[id] == b.tokens[id])
    && (forall id :: id in b.tokens && b.tokens[id].wait.AtEventGateway? && id !in X ==> Kept(a, b, id) || HasArm(b, id))
  }

  lemma TameKeeps(p: Process, a: Instance, b: Instance)
    requires Lively(p, a) && Tame(a, b, {})
    ensures Lively(p, b)
  {
    forall n: NodeIx, scope: ScopeId | n < |p.nodes| && p.IsJoin(n) ensures !AllArrived(p, b, n, scope) {
      assert !AllArrived(p, a, n, scope);
      var f :| f in p.Incoming(n) && ArrivedOn(a, n, scope, f) == {};
      assert ArrivedOn(b, n, scope, f) <= ArrivedOn(a, n, scope, f);
    }
  }

  lemma KeptHas(a: Instance, b: Instance, id: TokenId)
    requires Kept(a, b, id) && HasArm(a, id)
    ensures HasArm(b, id)
  {
  }

  lemma KeptTwice(a: Instance, b: Instance, c: Instance, id: TokenId)
    requires Kept(a, b, id) && Kept(b, c, id)
    ensures Kept(a, c, id)
  {
  }

  lemma Then(a: Instance, b: Instance, c: Instance, X: set<TokenId>)
    requires Tame(a, b, X) && Tame(b, c, X)
    ensures Tame(a, c, X)
  {
    hide Kept, HasArm;
    forall id | id in c.tokens && c.tokens[id].wait.AtEventGateway? && id !in X ensures Kept(a, c, id) || HasArm(c, id) {
      if Kept(b, c, id) {
        KeptSame(b, c, id);
        if Kept(a, b, id) {
          KeptTwice(a, b, c, id);
        } else {
          KeptHas(b, c, id);
        }
      }
    }
  }

  lemma KeptSame(a: Instance, b: Instance, id: TokenId)
    requires Kept(a, b, id)
    ensures id in a.tokens && id in b.tokens && a.TokenAt(id) == b.TokenAt(id)
  {
  }

  lemma Wider(a: Instance, b: Instance, X: set<TokenId>, Y: set<TokenId>)
    requires Tame(a, b, X) && X <= Y
    ensures Tame(a, b, Y)
  {
  }

  /** Nobody excepted is at a gateway any more. */
  lemma Settled(a: Instance, b: Instance, X: set<TokenId>)
    requires Tame(a, b, X) && forall id :: id in X && id in b.tokens ==> !b.TokenAt(id).wait.AtEventGateway?
    ensures Tame(a, b, {})
  {
  }

  // ---- the smallest steps

  /** Fewer tokens, and of the rows only those of tokens in `X`. */
  lemma Fewer(a: Instance, b: Instance, X: set<TokenId>)
    requires forall id :: id in b.tokens ==> id in a.tokens && b.TokenAt(id) == a.TokenAt(id)
    requires forall k :: k in a.timers && a.TimerAt(k).token !in X ==> k in b.timers && b.TimerAt(k) == a.TimerAt(k)
    requires forall k :: k in a.subs && a.SubAt(k).token !in X ==> k in b.subs && b.SubAt(k) == a.SubAt(k)
    ensures Tame(a, b, X)
  {
  }

  /** One token parks, neither at a join nor at a gateway, and rows are only added. */
  lemma Parks(a: Instance, b: Instance, id: TokenId, t: Token)
    requires b.tokens == a.tokens[id := t] && !t.wait.AtJoin? && !t.wait.AtEventGateway?
    requires forall k :: k in a.timers ==> k in b.timers && b.TimerAt(k) == a.TimerAt(k)
    requires forall k :: k in a.subs ==> k in b.subs && b.SubAt(k) == a.SubAt(k)
    ensures Tame(a, b, {})
  {
  }

  /** Rows are only added. */
  lemma Grows(a: Instance, b: Instance)
    requires b.tokens == a.tokens
    requires forall k :: k in a.timers ==> k in b.timers && b.TimerAt(k) == a.TimerAt(k)
    requires forall k :: k in a.subs ==> k in b.subs && b.SubAt(k) == a.SubAt(k)
    ensures Tame(a, b, {})
  {
  }

  lemma WithdrawTame(m: Machine, token: TokenId)
    ensures Tame(m.s, WithdrawArms(m, token).s, {token}) && WithdrawArms(m, token).s.tokens == m.s.tokens
    ensures WithdrawArms(m, token).s.scopes == m.s.scopes && WithdrawArms(m, token).s.variables == m.s.variables
  {
    Fewer(m.s, WithdrawArms(m, token).s, {token});
  }

  lemma UnparkTame(m: Machine, ids: set<TokenId>)
    ensures Tame(m.s, Unpark(m, ids).s, {})
  {
    Fewer(m.s, Unpark(m, ids).s, {});
  }

  lemma TearTame(m: Machine, scope: ScopeId)
    ensures Tame(m.s, TearDown(m, scope).s, {})
    ensures forall id :: id in TearDown(m, scope).s.tokens ==> id in m.s.tokens && TearDown(m, scope).s.TokenAt(id) == m.s.TokenAt(id)
  {
    var gone := m.s.TokensWithin(Subtree(m.s.scopes, scope));
    var b := TearDown(m, scope).s;
    hide Subtree, ReapEvents, Sorted;
    Fewer(m.s, b, gone);
    Settled(m.s, b, gone);
  }

  // ---- freezing and arming

  lemma StripTame(m: Machine, token: TokenId)
    ensures Tame(m.s, Stripped(m, token).s, {token})
    ensures forall id :: id in Stripped(m, token).s.tokens ==> id in m.s.tokens && Stripped(m, token).s.TokenAt(id) == m.s.TokenAt(id)
  {
    hide Tame, TearDown, WithdrawArms;
    var m1 := WithdrawArms(m, token);
    WithdrawTame(m, token);
    var m2 := CancelItems(m1, m1.s.OpenItemsOf({token}));
    Grows(m1.s, m2.s);
    Wider(m1.s, m2.s, {}, {token});
    Then(m.s, m1.s, m2.s, {token});
    if token in m2.s.tokens && m2.s.tokens[token].wait.OnScope? {
      var child := m2.s.tokens[token].wait.child;
      var m3 := TearDown(m2, child);
      TearTame(m2, child);
      Wider(m2.s, m3.s, {}, {token});
      Then(m.s, m2.s, m3.s, {token});
      Grows(m3.s, DropScope(m3, child).s);
      Wider(m3.s, DropScope(m3, child).s, {}, {token});
      Then(m.s, m3.s, DropScope(m3, child).s, {token});
    }
  }

  lemma {:induction false} InFlightHalted(q: seq<Move>)
    ensures forall id :: id in InFlightTokens(q) ==> InFlightTokens(q)[id].wait.Halted?
    decreases |q|
  {
    if q == [] {
    } else {
      InFlightHalted(q[..|q| - 1]);
    }
  }

  lemma IceTame(s: Instance, q: seq<Move>, token: TokenId, element: NodeIx, scope: ScopeId)
    ensures var s' := Iced(s, q, token, element, scope);
            Tame(s, s', {}) && (token in s'.tokens ==> !s'.TokenAt(token).wait.AtEventGateway?)
  {
    InFlightHalted(q);
    hide InFlightTokens;
  }

  lemma FreezeTame(m: Machine, token: TokenId, element: NodeIx, code: Option<string>, detail: Option<string>)
    ensures Tame(m.s, Freeze(m, token, element, code, detail).s, {})
  {
    hide Tame, Stripped, Iced;
    var m1 := Stripped(m, token);
    StripTame(m, token);
    var scope := if token in m1.s.tokens then m1.s.tokens[token].scope else m1.scope;
    IceTame(m1.s, m1.q, token, element, scope);
    var s' := Iced(m1.s, m1.q, token, element, scope);
    Wider(m1.s, s', {}, {token});
    Then(m.s, m1.s, s', {token});
    Settled(m.s, s', {token});
  }

  /** Numbered below the counters: what is minted is new. */
  ghost predicate Minting(s: Instance) {
    (forall k :: k in s.timers ==> k < s.nextTimer) && (forall k :: k in s.subs ==> k < s.nextSub)
  }

  lemma RecordTame(m: Machine, token: TokenId, element: NodeIx, due: TimerDue, remaining: Option<nat>, continues: Option<TimerId>)
    requires Minting(m.s)
    ensures var b := RecordTimer(m, token, element, due, remaining, continues).s;
            Tame(m.s, b, {}) && Minting(b) && b.tokens == m.s.tokens && HasArm(b, token)
  {
    var b := RecordTimer(m, token, element, due, remaining, continues).s;
    assert b.timers[m.s.nextTimer].token == token;
    Grows(m.s, b);
  }

  lemma OpenTame(m: Machine, token: TokenId, element: NodeIx, message: string, key: string)
    requires Minting(m.s)
    ensures var b := OpenSub(m, token, element, message, key).s;
            Tame(m.s, b, {}) && Minting(b) && b.tokens == m.s.tokens && HasArm(b, token)
  {
    var b := OpenSub(m, token, element, message, key).s;
    assert b.subs[m.s.nextSub].token == token;
    Grows(m.s, b);
  }

  /** An arm made is one its token has; one that is not is the freeze. */
  ghost predicate ArmedTamely(m: Machine, token: TokenId, a: Advance.Arming) {
    Tame(m.s, a.m.s, {}) && (a.ok ==> Minting(a.m.s) && a.m.s.tokens == m.s.tokens && HasArm(a.m.s, token))
  }

  lemma ArmTame(p: Process, m: Machine, token: TokenId, element: NodeIx)
    requires Minting(m.s)
    ensures ArmedTamely(m, token, Arm(p, m, token, element))
  {
    match p.KindOf(element)
    case TimerCatch(due) => ArmTimerTame(p, m, token, element, due);
    case TimerBoundary(due, _) => ArmTimerTame(p, m, token, element, due);
    case _ => SubscribeTame(p, m, token, element);
  }

  lemma ArmTimerTame(p: Process, m: Machine, token: TokenId, element: NodeIx, due: TimerSource)
    requires Minting(m.s)
    ensures ArmedTamely(m, token, ArmTimer(p, m, token, element, due))
  {
    hide Tame, Freeze, RecordTimer, HasArm, Minting;
    FreezeTame(Say(m, TimerResolveFailed(element)), token, element, None, None);
    var d := p.Resolve(due, m.s.variables);
    if d.Some? {
      RecordTame(m, token, element, d.value, if d.value.Cycle? then p.repeats(d.value.text) else None, None);
    }
  }

  lemma SubscribeTame(p: Process, m: Machine, token: TokenId, element: NodeIx)
    requires Minting(m.s)
    ensures ArmedTamely(m, token, Subscribe(p, m, token, element))
  {
    hide Tame, Freeze, OpenSub, HasArm, Minting, ArmKey;
    FreezeTame(Say(m, CorrelationFailed(element)), token, element, None, None);
    match ArmKey(p, m.s, m.s.variables, element, None)
    case Key(message, key) => OpenTame(m, token, element, message, key);
    case Unusable =>
    case Duplicate(message, key) => FreezeTame(Say(m, DuplicateSubscription(element, message, key)), token, element, None, None);
  }

  lemma {:induction false} ArmAllTame(p: Process, m: Machine, token: TokenId, elements: seq<NodeIx>)
    requires Minting(m.s)
    ensures Tame(m.s, ArmAll(p, m, token, elements).m.s, {})
    ensures ArmAll(p, m, token, elements).ok ==> ArmAll(p, m, token, elements).m.s.tokens == m.s.tokens
    decreases |elements|
  {
    hide Arm, Minting, HasArm;
    if elements == [] {
      Grows(m.s, m.s);
    } else {
      hide Tame;
      ArmTame(p, m, token, elements[0]);
      var first := Arm(p, m, token, elements[0]);
      if first.ok {
        ArmAllTame(p, first.m, token, elements[1..]);
        Then(m.s, first.m.s, ArmAll(p, first.m, token, elements[1..]).m.s, {});
      }
    }
  }

  /** Every alternative armed, or the freeze: a race of one at least has an arm. */
  lemma {:induction false} AlternativesTame(p: Process, m: Machine, token: TokenId, elements: seq<NodeIx>)
    requires Minting(m.s) && ArmAlternatives(p, m, token, elements).Ok?
    ensures var b := ArmAlternatives(p, m, token, elements).m.s;
            && Tame(m.s, b, {})
            && (elements != [] ==> HasArm(b, token) || OffGateway(b, token))
            && (HasArm(m.s, token) && token in m.s.tokens ==> HasArm(b, token) || OffGateway(b, token))
    decreases |elements|
  {
    hide Arm, Minting;
    if elements == [] {
      Grows(m.s, m.s);
    } else {
      hide Tame;
      ArmTame(p, m, token, elements[0]);
      var first := Arm(p, m, token, elements[0]);
      if first.ok {
        AlternativesTame(p, first.m, token, elements[1..]);
        Then(m.s, first.m.s, ArmAlternatives(p, first.m, token, elements[1..]).m.s, {});
      } else {
        ArmFailsAt(p, m, token, elements[0]);
      }
    }
  }

  /** Not at a gateway: an arm that failed froze the token on it. */
  ghost predicate OffGateway(s: Instance, id: TokenId) { id in s.tokens ==> !s.tokens[id].wait.AtEventGateway? }

  lemma ArmFailsAt(p: Process, m: Machine, token: TokenId, element: NodeIx)
    requires !Arm(p, m, token, element).ok
    ensures OffGateway(Arm(p, m, token, element).m.s, token)
  {
    hide Freeze, OffGateway, ArmKey, RecordTimer, OpenSub;
    FreezeParksCause(Say(m, TimerResolveFailed(element)), token, element);
    FreezeParksCause(Say(m, CorrelationFailed(element)), token, element);
    forall message, key ensures OffGateway(Freeze(Say(m, DuplicateSubscription(element, message, key)), token, element, None, None).s, token) {
      FreezeParksCause(Say(m, DuplicateSubscription(element, message, key)), token, element);
    }
  }

  lemma FreezeParksCause(m: Machine, token: TokenId, element: NodeIx)
    ensures OffGateway(Freeze(m, token, element, None, None).s, token)
  {
    hide Stripped, Iced;
    var m1 := Stripped(m, token);
    IceTame(m1.s, m1.q, token, element, if token in m1.s.tokens then m1.s.tokens[token].scope else m1.scope);
  }

  // ---- entering a node

  /** Every event-based gateway has alternatives to race. */
  ghost predicate RaceRule(p: Process) {
    forall n: NodeIx :: n < |p.nodes| && p.KindOf(n).EventBasedGateway? ==> |p.Outgoing(n)| >= 2
  }

  lemma InvMints(p: Process, m: Machine, except: set<ScopeId>)
    requires Inv(p, m, except)
    ensures Minting(m.s)
  {
  }

  lemma LeavesSame(p: Process, m: Machine, token: TokenId, n: NodeIx)
    ensures var o := LeaveSingle(p, m, token, n); o.Ok? ==> o.m.s == m.s
  {
  }

  lemma TaskTame(p: Process, m: Machine, token: TokenId, n: NodeIx, work: WorkKind, topic: string)
    requires Minting(m.s)
    ensures Tame(m.s, EnterTask(p, m, token, n, work, topic).s, {})
  {
    hide Tame, ArmAll, Minting;
    var item := m.s.nextItem;
    var m1 := Started(m, n);
    var m2 := m1.(s := m1.s.(items := m1.s.items[item := Item(n, token, work, topic, true)], nextItem := item + 1));
    var m3 := Say(Park(m2, token, n, OnItem(item)), WorkItemCreated(item, n, work, topic));
    Parks(m.s, m3.s, token, Token(n, m.scope, OnItem(item)));
    assert Minting(m3.s) by { MintsAlike(m.s, m3.s); }
    ArmAllTame(p, m3, token, p.Boundaries(n));
    Then(m.s, m3.s, EnterTask(p, m, token, n, work, topic).s, {});
  }

  lemma MintsAlike(a: Instance, b: Instance)
    requires Minting(a) && b.timers == a.timers && b.subs == a.subs && b.nextTimer == a.nextTimer && b.nextSub == a.nextSub
    ensures Minting(b)
  {
  }

  lemma TimerCatchTame(p: Process, m: Machine, token: TokenId, n: NodeIx, due: TimerSource)
    requires Minting(m.s)
    ensures Tame(m.s, EnterTimerCatch(p, m, token, n, due).s, {})
  {
    hide Tame, ArmTimer, Minting, HasArm;
    ArmTimerTame(p, Started(m, n), token, n, due);
    var armed := ArmTimer(p, Started(m, n), token, n, due);
    if armed.ok {
      var m1 := Park(armed.m, token, n, OnTimer(m.s.nextTimer));
      Parks(armed.m.s, m1.s, token, Token(n, armed.m.scope, OnTimer(m.s.nextTimer)));
      Then(m.s, armed.m.s, m1.s, {});
    }
  }

  lemma MessageCatchTame(p: Process, m: Machine, token: TokenId, n: NodeIx)
    requires Minting(m.s)
    ensures Tame(m.s, EnterMessageCatch(p, m, token, n).s, {})
  {
    hide Tame, Subscribe, Minting, HasArm, ArmAll;
    SubscribeTame(p, Started(m, n), token, n);
    var armed := Subscribe(p, Started(m, n), token, n);
    if armed.ok {
      var m1 := Park(armed.m, token, n, OnMessage(m.s.nextSub));
      Parks(armed.m.s, m1.s, token, Token(n, armed.m.scope, OnMessage(m.s.nextSub)));
      Then(m.s, armed.m.s, m1.s, {});
      MintsAlike(armed.m.s, m1.s);
      ArmAllTame(p, m1, token, p.Boundaries(n));
      Then(m.s, m1.s, ArmAll(p, m1, token, p.Boundaries(n)).m.s, {});
    }
  }

  lemma SubProcessTame(p: Process, m: Machine, token: TokenId, n: NodeIx, body: ScopeIx)
    requires Minting(m.s)
    ensures Tame(m.s, EnterSubProcess(p, m, token, n, body).s, {})
  {
    hide Tame, Minting, ArmAll;
    var m1 := OpenScope(Started(m, n), token, n);
    Parks(m.s, m1.s, token, Token(n, m.scope, OnScope(m.s.nextScope)));
    MintsAlike(m.s, m1.s);
    ArmAllTame(p, m1, token, p.Boundaries(n));
    var armed := ArmAll(p, m1, token, p.Boundaries(n));
    Then(m.s, m1.s, armed.m.s, {});
    Grows(armed.m.s, FreshToken(armed.m).s);
    Then(m.s, armed.m.s, FreshToken(armed.m).s, {});
  }

  /** The gateway's token races with an arm, or is frozen. */
  lemma EventGatewayTame(p: Process, m: Machine, token: TokenId, n: NodeIx)
    requires Minting(m.s) && |p.Outgoing(n)| > 0 && EnterEventGateway(p, m, token, n).Ok?
    ensures Tame(m.s, EnterEventGateway(p, m, token, n).m.s, {})
  {
    hide Tame, ArmAlternatives, HasArm, Minting, OffGateway;
    var m1 := Park(Started(m, n), token, n, AtEventGateway);
    var to := Targets(p, p.Outgoing(n));
    ParksAnyhow(m.s, m1.s, token, Token(n, m.scope, AtEventGateway));
    MintsAlike(m.s, m1.s);
    AlternativesTame(p, m1, token, to);
    var b := ArmAlternatives(p, m1, token, to).m.s;
    Wider(m1.s, b, {}, {token});
    Then(m.s, m1.s, b, {token});
    RaceSettled(m.s, b, token);
  }

  lemma ParksAnyhow(a: Instance, b: Instance, id: TokenId, t: Token)
    requires b == a.(tokens := a.tokens[id := t]) && !t.wait.AtJoin?
    ensures Tame(a, b, {id})
  {
  }

  lemma RaceSettled(a: Instance, b: Instance, id: TokenId)
    requires Tame(a, b, {id}) && (HasArm(b, id) || OffGateway(b, id))
    ensures Tame(a, b, {})
  {
    hide Kept, HasArm;
  }

  lemma {:induction false} ForkTame(p: Process, m: Machine, flows: seq<FlowIx>)
    ensures Tame(m.s, ForkOn(p, m, flows).s, {})
    decreases |flows|
  {
    if flows == [] {
      Grows(m.s, m.s);
    } else {
      hide Tame;
      var m1 := Leave(p, FreshToken(m), m.s.nextToken, flows[0]);
      Grows(m.s, m1.s);
      ForkTame(p, m1, flows[1..]);
      Then(m.s, m1.s, ForkOn(p, m1, flows[1..]).s, {});
    }
  }

  /** A scope's token goes on when the scope is done. */
  lemma CompletesTame(p: Process, m: Machine, scope: ScopeId)
    requires CompleteScope(p, m, scope).Ok?
    ensures Tame(m.s, CompleteScope(p, m, scope).m.s, {})
  {
    hide Sorted;
    var token := m.s.scopes[scope].token;
    var b := CompleteScope(p, m, scope).m.s;
    Fewer(m.s, b, {token});
    Settled(m.s, b, {token});
  }

  lemma EndTame(p: Process, m: Machine, n: NodeIx)
    requires EnterEnd(p, m, n).Ok?
    ensures Tame(m.s, EnterEnd(p, m, n).m.s, {})
  {
    hide Tame, CompleteScope, ScopeIsEmpty;
    Grows(m.s, m.s);
    var m1 := Finished(Started(m, n), n);
    if m.scope != ROOT && ScopeIsEmpty(m1, m.scope) {
      CompletesTame(p, m1, m.scope);
    }
  }

  lemma TerminateEndTame(p: Process, m: Machine, n: NodeIx)
    requires EnterTerminateEnd(p, m, n).Ok?
    ensures Tame(m.s, EnterTerminateEnd(p, m, n).m.s, {})
  {
    hide CompleteScope, TearDown;
    var m1 := Finished(Started(m, n), n);
    if m.scope != ROOT {
      hide Tame;
      TearTame(m1, m.scope);
      var m2 := TearDown(m1, m.scope);
      CompletesTame(p, m2, m.scope);
      Then(m.s, m2.s, CompleteScope(p, m2, m.scope).m.s, {});
    }
  }

  /** A join parks its token only while somebody is missing. */
  lemma JoinLives(p: Process, m: Machine, token: TokenId, n: NodeIx, via: Option<FlowIx>)
    requires Lively(p, m.s) && token !in m.s.tokens && EnterJoin(p, m, token, n, via).Ok?
    requires via.Some? && via.value in p.Incoming(n)
    ensures Lively(p, EnterJoin(p, m, token, n, via).m.s)
  {
    var m1 := Park(m, token, n, AtJoin(via.value));
    if AllArrived(p, m1.s, n, m.scope) {
      var gone := Consumed(p, m1.s, n, m.scope);
      ArrivesAlone(m.s, m1.s, token, n, m.scope, via.value);
      assert Sorted(ArrivedOn(m1.s, n, m.scope, via.value))[0] == token;
      var b := EnterJoin(p, m, token, n, via).m.s;
      hide Consumed, AllArrived, ArrivedOn, Lively;
      Fewer(m.s, b, {});
      TameKeeps(p, m.s, b);
    } else {
      ParksAtJoin(p, m.s, m1.s, token, n, m.scope, via.value);
    }
  }

  lemma ArrivesAlone(a: Instance, b: Instance, token: TokenId, n: NodeIx, scope: ScopeId, f: FlowIx)
    requires token !in a.tokens && b.tokens == a.tokens[token := Token(n, scope, AtJoin(f))] && ArrivedOn(a, n, scope, f) == {}
    ensures ArrivedOn(b, n, scope, f) == {token} && Sorted(ArrivedOn(b, n, scope, f)) == [token]
  {
    assert forall t :: t in ArrivedOn(b, n, scope, f) ==> t == token || t in ArrivedOn(a, n, scope, f);
    assert ArrivedOn(b, n, scope, f) == {token};
    assert |Sorted({token})| == 1 && Sorted({token})[0] in {token};
  }

  lemma ParksAtJoin(p: Process, a: Instance, b: Instance, token: TokenId, n: NodeIx, scope: ScopeId, f: FlowIx)
    requires Lively(p, a) && token !in a.tokens && b == a.(tokens := a.tokens[token := Token(n, scope, AtJoin(f))])
    requires !AllArrived(p, b, n, scope)
    ensures Lively(p, b)
  {
    forall n': NodeIx, scope': ScopeId | n' < |p.nodes| && p.IsJoin(n') ensures !AllArrived(p, b, n', scope') {
      if n' != n || scope' != scope {
        assert !AllArrived(p, a, n', scope');
        var g :| g in p.Incoming(n') && ArrivedOn(a, n', scope', g) == {};
        assert ArrivedOn(b, n', scope', g) <= ArrivedOn(a, n', scope', g);
      }
    }
    forall id | id in b.tokens && b.tokens[id].wait.AtEventGateway? ensures HasArm(b, id) {
      assert HasArm(a, id);
    }
  }

  lemma HandIs(p: Process, m: Machine, mv: Move)
    requires AboutToEnter(p, m, mv)
    ensures Minting(m.s) && mv.token !in m.s.tokens && mv.node < |p.nodes|
    ensures p.IsJoin(mv.node) ==> mv.via.Some? && mv.Came() in p.Incoming(mv.node)
  {
    HandOk(p, m, mv);
    hide Safe, Everybody, Inhabited, StatusOk, ReaskOk, WellFormed, TokensOk, ScopesOk, ItemsOk, SubsDistinct;
    assert MoveOk(p, m.s, mv);
  }

  /** Whatever node is entered. */
  lemma EnterLives(p: Process, m: Machine, mv: Move)
    requires AboutToEnter(p, m, mv) && RaceRule(p) && Lively(p, m.s) && Enter(p, m, mv.token, mv.node, mv.via).Ok?
    ensures Lively(p, Enter(p, m, mv.token, mv.node, mv.via).m.s)
  {
    hide AboutToEnter, Lively, Tame, Minting, EnterTask, EnterTimerCatch, EnterMessageCatch, EnterEventGateway, EnterSubProcess,
         EnterJoin, EnterEnd, EnterTerminateEnd, ForkOn;
    HandIs(p, m, mv);
    var b := Enter(p, m, mv.token, mv.node, mv.via).m.s;
    var n := mv.node;
    match p.KindOf(n) {
      case Task(work, topic) => TaskTame(p, m, mv.token, n, work, topic);
      case TimerCatch(due) => TimerCatchTame(p, m, mv.token, n, due);
      case MessageCatch(_, _) => MessageCatchTame(p, m, mv.token, n);
      case EventBasedGateway => EventGatewayTame(p, m, mv.token, n);
      case SubProcess(body) => SubProcessTame(p, m, mv.token, n, body);
      case End => EndTame(p, m, n);
      case TerminateEnd => TerminateEndTame(p, m, n);
      case BusinessRule(_, _) => Parks(m.s, b, mv.token, Token(n, m.scope, OnDecision));
      case ParallelGateway =>
        if p.IsJoin(n) {
          JoinLives(p, m, mv.token, n, mv.via);
        } else {
          ForkTame(p, Finished(Started(m, n), n), p.Outgoing(n));
        }
      case _ => Grows(m.s, b);
    }
    if !p.IsJoin(n) {
      TameKeeps(p, m.s, b);
    }
  }
}
