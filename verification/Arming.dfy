/** Arming a parked token keeps the invariant, and so does failing to. */
module Arming {
  import opened Basics
  import opened Json
  import opened Compiled
  import opened State
  import opened Advance
  import opened Game
  import opened Invariant
  import opened Keeping
  import opened Freezing

  lemma GrownTokens(p: Process, s: Instance, s1: Instance)
    requires TokensOk(p, s) && Grown(s, s1) && s1.tokens == s.tokens && s1.nextToken == s.nextToken
    ensures TokensOk(p, s1)
  {
    hide TokenOk, Grown;
    forall id | id in s1.tokens ensures TokenOk(p, s1, id, s1.tokens[id]) {
      TokenStays(p, s, s1, id, s.tokens[id]);
    }
  }

  lemma TimerAdded(p: Process, s: Instance, timer: Timer)
    requires Owned(p, s) && timer.token in s.tokens && TimerOwned(p, s.nextTimer, timer.element, s.TokenAt(timer.token))
    ensures Owned(p, s.AddTimer(timer))
  {
    hide TokensOk, TimerOwned, SubsOk;
    GrownTokens(p, s, s.AddTimer(timer));
    SubsKept(p, s, s.AddTimer(timer));
  }

  lemma SubsKept(p: Process, s: Instance, s1: Instance)
    requires SubsOk(p, s) && s1.tokens == s.tokens && s1.subs == s.subs && s1.nextSub == s.nextSub
    ensures SubsOk(p, s1)
  {
  }

  lemma SubAdded(p: Process, s: Instance, sub: Sub)
    requires Owned(p, s) && sub.token in s.tokens && SubOwned(p, s.nextSub, sub.element, s.TokenAt(sub.token))
    requires forall k :: k in s.subs ==> !(s.SubAt(k).message == sub.message && s.SubAt(k).key == sub.key)
    ensures Owned(p, s.AddSub(sub))
  {
    hide TokensOk, TimerOwned, SubOwned;
    GrownTokens(p, s, s.AddSub(sub));
  }

  lemma RecordTimerKeeps(p: Process, m: Machine, except: set<ScopeId>, token: TokenId, element: NodeIx,
                         due: TimerDue, remaining: Option<nat>, continues: Option<TimerId>)
    requires Inv(p, m, except) && token in m.s.tokens
    requires TimerOwned(p, m.s.nextTimer, element, m.s.TokenAt(token))
    ensures Inv(p, RecordTimer(m, token, element, due, remaining, continues), except)
    ensures OnlyArms(m, RecordTimer(m, token, element, due, remaining, continues))
  {
    hide Inv, Owned, TimerOwned;
    OwnedIn(p, m, except);
    var m' := RecordTimer(m, token, element, due, remaining, continues);
    TimerAdded(p, m.s, Timer(element, token, due, remaining));
    RowsChange(p, m, except, m'.s);
    InvSame(p, m.(s := m'.s), m', except);
  }

  lemma OpenSubKeeps(p: Process, m: Machine, except: set<ScopeId>, token: TokenId, element: NodeIx, message: string, key: string)
    requires Inv(p, m, except) && token in m.s.tokens
    requires SubOwned(p, m.s.nextSub, element, m.s.TokenAt(token))
    requires forall k :: k in m.s.subs ==> !(m.s.SubAt(k).message == message && m.s.SubAt(k).key == key)
    ensures Inv(p, OpenSub(m, token, element, message, key), except)
    ensures OnlyArms(m, OpenSub(m, token, element, message, key))
  {
    hide Inv, Owned, SubOwned;
    OwnedIn(p, m, except);
    var m' := OpenSub(m, token, element, message, key);
    SubAdded(p, m.s, Sub(element, token, message, key));
    RowsChange(p, m, except, m'.s);
    InvSame(p, m.(s := m'.s), m', except);
  }

  lemma OwnedIn(p: Process, m: Machine, except: set<ScopeId>)
    requires Inv(p, m, except)
    ensures Owned(p, m.s)
  {
  }

  lemma TokenHere(p: Process, m: Machine, except: set<ScopeId>, token: TokenId)
    requires Inv(p, m, except) && token in m.s.tokens
    ensures TokenOk(p, m.s, token, m.s.TokenAt(token))
  {
  }

  /** `element` is armed on a token like `t`: a boundary of its host, or an
      alternative of its gateway. */
  ghost predicate ArmsAt(p: Process, t: Token, element: NodeIx) {
    || (Hosting(t.wait) && element in p.Boundaries(t.node))
    || (t.wait.AtEventGateway? && p.Races(t.node, element))
  }

  lemma RacesIs(p: Process, gateway: NodeIx, n: NodeIx)
    requires WellFormed(p) && gateway < |p.nodes| && p.KindOf(gateway).EventBasedGateway? && p.Races(gateway, n)
    ensures p.IsCatch(n) && n < |p.nodes| && |p.Incoming(n)| == 1 && p.Source(p.Incoming(n)[0]) == gateway
    ensures p.ResumePoint(n) == gateway && p.ScopeOf(n) == p.ScopeOf(gateway)
    ensures !p.IsAlternative(gateway)
  {
    assert ShapeOk(p, gateway);
    var g :| g in p.Outgoing(gateway) && p.Target(g) == n;
    OutOf(p, gateway, g);
    GatewayIsNoAlternative(p, gateway);
    hide Process.IsAlternative, FlowsWired, StaticScopesOk;
  }

  lemma GatewayIsNoAlternative(p: Process, gateway: NodeIx)
    requires WellFormed(p) && gateway < |p.nodes| && p.KindOf(gateway).EventBasedGateway?
    ensures !p.IsAlternative(gateway)
  {
    hide BoundariesOk, StaticScopesOk;
    forall f | f in p.Incoming(gateway) ensures ShapeOk(p, p.Source(f)) && f in p.Outgoing(p.Source(f)) && p.Target(f) == gateway {
      InTo(p, gateway, f);
    }
  }

  /** An arm that cannot be made freezes its token at the arm, to resume where
      the token stands. */
  lemma ArmFreezesAt(p: Process, t: Token, element: NodeIx)
    requires WellFormed(p) && ArmsAt(p, t, element) && t.node < |p.nodes|
    requires t.wait.OnItem? ==> p.KindOf(t.node).Task?
    requires t.wait.AtEventGateway? ==> p.KindOf(t.node).EventBasedGateway?
    ensures FreezesAt(p, PlaceOf(p, t), element) && p.ScopeOf(element) == p.ScopeOf(t.node)
    ensures p.ResumePoint(element) == t.node && PlaceOf(p, t) == Place(t.node, None, t.scope)
  {
    if t.wait.AtEventGateway? {
      RacesIs(p, t.node, element);
    } else {
      assert element in p.hosts && p.hosts[element] == t.node && p.MayHost(t.node);
    }
  }

  /** What arming leaves alone. */
  ghost predicate OnlyArms(m: Machine, m': Machine) {
    && m'.s.tokens == m.s.tokens && m'.s.scopes == m.s.scopes && m'.s.status == m.s.status
    && m'.q == m.q && m'.reask == m.reask && m'.scope == m.scope && m'.s.nextToken == m.s.nextToken
    && m'.s.nextScope == m.s.nextScope && m'.s.variables == m.s.variables
  }

  ghost predicate Armed(p: Process, m: Machine, except: set<ScopeId>, a: Arming) {
    if a.ok then Inv(p, a.m, except) && OnlyArms(m, a.m)
    else Inv(p, a.m, {}) && a.m.s.status.Failed?
  }

  lemma NotReasked(p: Process, m: Machine, except: set<ScopeId>, token: TokenId)
    requires Inv(p, m, except) && token in m.s.tokens
    requires !m.s.TokenAt(token).wait.Halted? && !m.s.TokenAt(token).wait.OnDecision?
    ensures token !in m.reask
  {
  }

  ghost predicate CanArm(p: Process, m: Machine, except: set<ScopeId>, token: TokenId) {
    && Inv(p, m, except) && m.s.status.Active?
    && token in m.s.tokens && except <= ChildScopes(m.s, token)
  }

  /** The arm could not be made. */
  lemma ArmFails(p: Process, m: Machine, except: set<ScopeId>, token: TokenId, element: NodeIx, e: Event)
    requires WellFormed(p) && CanArm(p, m, except, token) && ArmsAt(p, m.s.TokenAt(token), element)
    ensures Armed(p, m, except, Arming(Freeze(Say(m, e), token, element, None, None), false))
  {
    hide Inv, WellFormed, FreezesAt;
    TokenHere(p, m, except, token);
    NotReasked(p, m, except, token);
    InvSame(p, m, Say(m, e), except);
    ArmFreezesAt(p, m.s.tokens[token], element);
    FreezeParked(p, Say(m, e), except, token, element, None, None);
  }

  lemma OwnsArm(p: Process, t: Token, element: NodeIx, k: nat)
    requires WellFormed(p) && ArmsAt(p, t, element)
    requires t.wait.AtEventGateway? ==> t.node < |p.nodes| && p.KindOf(t.node).EventBasedGateway?
    ensures p.KindOf(element).TimerCatch? || p.KindOf(element).TimerBoundary? ==> TimerOwned(p, k, element, t)
    ensures p.KindOf(element).MessageCatch? || p.KindOf(element).MessageBoundary? ==> SubOwned(p, k, element, t)
    ensures p.KindOf(element).TimerCatch? || p.KindOf(element).TimerBoundary?
            || p.KindOf(element).MessageCatch? || p.KindOf(element).MessageBoundary?
  {
    if t.wait.AtEventGateway? {
      RacesIs(p, t.node, element);
    }
  }

  lemma ArmTimerKeeps(p: Process, m: Machine, except: set<ScopeId>, token: TokenId, element: NodeIx, source: TimerSource)
    requires WellFormed(p) && CanArm(p, m, except, token) && ArmsAt(p, m.s.TokenAt(token), element)
    requires p.KindOf(element).TimerCatch? || p.KindOf(element).TimerBoundary?
    ensures Armed(p, m, except, ArmTimer(p, m, token, element, source))
  {
    hide Freeze, Inv, WellFormed, TimerOwned, ArmsAt, RecordTimer;
    if p.Resolve(source, m.s.variables).None? {
      ArmFails(p, m, except, token, element, TimerResolveFailed(element));
    } else {
      TokenHere(p, m, except, token);
      OwnsArm(p, m.s.tokens[token], element, m.s.nextTimer);
      var due := p.Resolve(source, m.s.variables).value;
      RecordTimerKeeps(p, m, except, token, element, due, if due.Cycle? then p.repeats(due.text) else None, None);
    }
  }

  lemma SubscribeKeeps(p: Process, m: Machine, except: set<ScopeId>, token: TokenId, element: NodeIx)
    requires WellFormed(p) && CanArm(p, m, except, token) && ArmsAt(p, m.s.TokenAt(token), element)
    requires p.KindOf(element).MessageCatch? || p.KindOf(element).MessageBoundary?
    ensures Armed(p, m, except, Subscribe(p, m, token, element))
  {
    hide Freeze, Inv, WellFormed, SubOwned, ArmsAt, OpenSub;
    match ArmKey(p, m.s, m.s.variables, element, None)
    case Key(message, key) =>
      TokenHere(p, m, except, token);
      OwnsArm(p, m.s.tokens[token], element, m.s.nextSub);
      OpenSubKeeps(p, m, except, token, element, message, key);
    case Unusable => ArmFails(p, m, except, token, element, CorrelationFailed(element));
    case Duplicate(message, key) => ArmFails(p, m, except, token, element, DuplicateSubscription(element, message, key));
  }

  lemma ArmKeeps(p: Process, m: Machine, except: set<ScopeId>, token: TokenId, element: NodeIx)
    requires WellFormed(p) && CanArm(p, m, except, token) && ArmsAt(p, m.s.TokenAt(token), element)
    ensures Armed(p, m, except, Arm(p, m, token, element))
  {
    hide Inv, WellFormed, ArmsAt, Armed, TimerOwned, SubOwned, ArmTimer, Subscribe;
    TokenHere(p, m, except, token);
    OwnsArm(p, m.s.tokens[token], element, 0);
    match p.KindOf(element)
    case TimerCatch(due) => ArmTimerKeeps(p, m, except, token, element, due);
    case TimerBoundary(due, _) => ArmTimerKeeps(p, m, except, token, element, due);
    case _ => SubscribeKeeps(p, m, except, token, element);
  }

  lemma {:induction false} ArmAllKeeps(p: Process, m: Machine, except: set<ScopeId>, token: TokenId, elements: seq<NodeIx>)
    requires WellFormed(p) && CanArm(p, m, except, token)
    requires forall e :: e in elements ==> ArmsAt(p, m.s.TokenAt(token), e)
    ensures Armed(p, m, except, ArmAll(p, m, token, elements))
    decreases |elements|
  {
    hide Arm;
    if elements == [] {
    } else {
      ArmKeeps(p, m, except, token, elements[0]);
      var first := Arm(p, m, token, elements[0]);
      if first.ok {
        hide Inv, WellFormed, ArmsAt;
        ArmAllKeeps(p, first.m, except, token, elements[1..]);
      }
    }
  }

  /** Alternatives are armed as boundaries are: none of them is an error. */
  lemma {:induction false} ArmAlternativesKeep(p: Process, m: Machine, token: TokenId, elements: seq<NodeIx>)
    requires WellFormed(p) && CanArm(p, m, {}, token) && m.s.TokenAt(token).wait.AtEventGateway?
    requires forall e :: e in elements ==> p.Races(m.s.TokenAt(token).node, e)
    ensures var o := ArmAlternatives(p, m, token, elements);
            o.Ok? && Inv(p, o.m, {}) && (o.m.s.status.Failed? || OnlyArms(m, o.m))
    decreases |elements|
  {
    hide Arm;
    if elements == [] {
    } else {
      TokenHere(p, m, {}, token);
      hide Inv;
      RacesIs(p, m.s.tokens[token].node, elements[0]);
      ArmKeeps(p, m, {}, token, elements[0]);
      var first := Arm(p, m, token, elements[0]);
      if first.ok {
        ArmAlternativesKeep(p, first.m, token, elements[1..]);
      }
    }
  }
}
