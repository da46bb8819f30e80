/** Entering a node keeps the invariant and is never the internal error. */
module Entering {
  import opened Basics
  import opened Json
  import opened Compiled
  import opened State
  import opened Advance
  import opened Game
  import opened Invariant
  import opened Keeping
  import opened Freezing
  import opened Arming

  /** A move taken from the queue, about to enter its node. */
  ghost predicate AboutToEnter(p: Process, m: Machine, mv: Move) {
    && WellFormed(p)
    && Inv(p, InHand(m, mv), {}) && m.s.status.Active? && m.scope == mv.scope
  }

  ghost predicate Entered(p: Process, o: Outcome) {
    o.Ok? && Inv(p, o.m, {})
  }

  lemma HandOk(p: Process, m: Machine, mv: Move)
    requires AboutToEnter(p, m, mv)
    ensures MoveOk(p, m.s, mv) && mv.node < |p.nodes| && ShapeOk(p, mv.node)
  {
    assert mv in InHand(m, mv).q;
  }

  // ---- the token goes on

  lemma OutEnterable(p: Process, n: NodeIx, f: FlowIx)
    requires WellFormed(p) && n < |p.nodes| && f in p.Outgoing(n) && !p.KindOf(n).EventBasedGateway?
    ensures p.Target(f) < |p.nodes| && p.ScopeOf(p.Target(f)) == p.ScopeOf(n)
    ensures Enterable(p, p.Target(f), Some(f))
  {
    assert ShapeOk(p, n);
    OutOf(p, n, f);
    var t := p.Target(f);
    forall g | g in p.Incoming(t) ensures !p.KindOf(p.Source(g)).EventBasedGateway? {
      InTo(p, t, g);
      assert ShapeOk(p, p.Source(g)) && g in p.Outgoing(p.Source(g)) && p.Target(g) == t;
      assert f in p.Incoming(t);
    }
  }

  /** A node that neither joins nor forks hands its token on as it took it. */
  lemma PassesMarks(p: Process, at: Place, f: FlowIx)
    requires at.node < |p.nodes| && !p.IsJoin(at.node) && !p.IsFork(at.node) && f in p.Outgoing(at.node)
    requires at.via.Some? ==> at.via.value in p.Incoming(at.node)
    ensures SameMarks(p, Place(p.Target(f), Some(f), at.scope), at)
  {
    forall c | Conserving(p, c)
      ensures Marked(c, Place(p.Target(f), Some(f), at.scope)) <==> Marked(c, at)
    {
      assert NodeConserves(p, c, at.node);
    }
  }

  /** On its way in or in the node: alike. */
  lemma StandsIn(p: Process, at: Place)
    requires at.node < |p.nodes| && !p.IsJoin(at.node)
    requires at.via.Some? ==> at.via.value in p.Incoming(at.node)
    ensures SameMarks(p, Place(at.node, None, at.scope), at)
  {
    forall c | Conserving(p, c)
      ensures Marked(c, Place(at.node, None, at.scope)) <==> Marked(c, at)
    {
      assert NodeConserves(p, c, at.node);
    }
  }

  lemma HandLeaves(p: Process, m: Machine, mv: Move, f: FlowIx)
    requires AboutToEnter(p, m, mv) && f in p.Outgoing(mv.node)
    requires !p.KindOf(mv.node).EventBasedGateway? && !p.KindOf(mv.node).ParallelGateway?
    ensures Inv(p, Leave(p, m, mv.token, f), {})
  {
    HandOk(p, m, mv);
    OutEnterable(p, mv.node, f);
    PassesMarks(p, PlaceOfMove(mv), f);
    var to := Move(mv.token, p.Target(f), Some(f), mv.scope);
    hide Inv, WellFormed, ShapeOk, MoveOk;
    Onward(p, m, mv, to);
    InvSame(p, InHand(m, to), Leave(p, m, mv.token, f), {});
  }

  lemma EnterStartKeeps(p: Process, m: Machine, mv: Move)
    requires AboutToEnter(p, m, mv) && p.KindOf(mv.node).Start?
    ensures Entered(p, Enter(p, m, mv.token, mv.node, mv.via))
  {
    hide EnterTask, EnterDecision, EnterTimerCatch, EnterMessageCatch, EnterEventGateway, EnterSubProcess, EnterJoin, ForkOn, EnterEnd, EnterTerminateEnd, EnterExclusive;
    HandOk(p, m, mv);
    var f := p.Outgoing(mv.node)[0];
    assert f in p.Outgoing(mv.node);
    HandLeaves(p, m, mv, f);
    hide Inv, WellFormed;
    InvSame(p, Leave(p, m, mv.token, f), Leave(p, Finished(Started(m, mv.node), mv.node), mv.token, f), {});
  }

  lemma FirstHoldingIs(p: Process, flows: seq<FlowIx>, defaultFlow: Option<FlowIx>, variables: Value)
    ensures var f := FirstHolding(p, flows, defaultFlow, variables);
            f == defaultFlow || (f.Some? && f.value in flows)
  {
  }

  lemma EnterExclusiveKeeps(p: Process, m: Machine, mv: Move)
    requires AboutToEnter(p, m, mv) && p.KindOf(mv.node).ExclusiveGateway?
    ensures Entered(p, Enter(p, m, mv.token, mv.node, mv.via))
  {
    hide EnterTask, EnterDecision, EnterTimerCatch, EnterMessageCatch, EnterEventGateway, EnterSubProcess, EnterJoin, ForkOn, EnterEnd, EnterTerminateEnd;
    HandOk(p, m, mv);
    var d := p.KindOf(mv.node).defaultFlow;
    FirstHoldingIs(p, p.Outgoing(mv.node), d, m.s.variables);
    var f := Chosen(p, mv.node, d, m.s.variables).value;
    HandLeaves(p, m, mv, f);
    hide Inv, WellFormed;
    InvSame(p, Leave(p, m, mv.token, f), Leave(p, Finished(Started(m, mv.node), mv.node), mv.token, f), {});
  }

  // ---- the token parks

  /** `s1` is `s` with the token in and the rows it brings. */
  ghost predicate Admits(p: Process, s: Instance, s1: Instance, id: TokenId, t: Token) {
    && s1.tokens == s.tokens[id := t] && Grown(s, s1)
    && s1.status == s.status && s1.nextToken == s.nextToken && s1.nextIncident == s.nextIncident
    && (forall i :: i in s1.items && i !in s.items ==>
          i < s1.nextItem && s1.items[i].token == id && t.wait == OnItem(i))
    && (forall k :: k in s1.timers && k !in s.timers ==>
          k < s1.nextTimer && s1.timers[k].token == id && TimerOwned(p, k, s1.timers[k].element, t))
    && (forall k :: k in s1.subs && k !in s.subs ==>
          k < s1.nextSub && s1.subs[k].token == id && SubOwned(p, k, s1.subs[k].element, t))
    && (forall c :: c in s1.scopes && c !in s.scopes ==>
          ROOT < c < s1.nextScope && t.scope < c && s1.scopes[c] == Scope(t.node, t.scope, id) && t.wait == OnScope(c))
  }

  lemma AdmittedTokens(p: Process, s: Instance, s1: Instance, id: TokenId, t: Token)
    requires TokensOk(p, s) && id < s.nextToken
    requires Grown(s, s1) && s1.tokens == s.tokens[id := t] && s1.nextToken == s.nextToken && TokenOk(p, s1, id, t)
    ensures TokensOk(p, s1)
  {
    hide TokenOk, Grown;
    forall a | a in s.tokens ensures TokenOk(p, s1, a, s.tokens[a]) {
      TokenStays(p, s, s1, a, s.tokens[a]);
    }
  }

  lemma AdmittedRows(p: Process, s: Instance, s1: Instance, id: TokenId, t: Token)
    requires TimersOk(p, s) && SubsOk(p, s) && ItemsOk(s) && ScopesOk(s) && id !in s.tokens
    requires Admits(p, s, s1, id, t)
    ensures TimersOk(p, s1) && SubsOk(p, s1) && ItemsOk(s1) && ScopesOk(s1)
  {
    hide TimerOwned, SubOwned;
  }

  lemma AdmittedOwned(p: Process, s: Instance, s1: Instance, id: TokenId, t: Token)
    requires Owned(p, s) && id !in s.tokens && id < s.nextToken
    requires Admits(p, s, s1, id, t) && TokenOk(p, s1, id, t) && SubsDistinct(s1)
    ensures Owned(p, s1)
  {
    AdmittedTokens(p, s, s1, id, t);
    AdmittedRows(p, s, s1, id, t);
    hide TokensOk, TokenOk, TimersOk, SubsOk, ItemsOk, ScopesOk, SubsDistinct;
  }

  /** The token in hand parks in its node with what it brings. */
  lemma HandParks(p: Process, m: Machine, mv: Move, s1: Instance, wait: Wait)
    requires AboutToEnter(p, m, mv) && !p.IsJoin(mv.node)
    requires !wait.AtIncident? && !wait.Halted? && !wait.AtJoin?
    requires var t := Token(mv.node, mv.scope, wait);
             Admits(p, m.s, s1, mv.token, t) && (MoveOk(p, m.s, mv) ==> TokenOk(p, s1, mv.token, t))
    requires SubsDistinct(s1)
    ensures Inv(p, m.(s := s1), s1.scopes.Keys - m.s.scopes.Keys)
  {
    HandOk(p, m, mv);
    var t := Token(mv.node, mv.scope, wait);
    AdmittedOwned(p, m.s, s1, mv.token, t);
    StandsIn(p, PlaceOfMove(mv));
    assert SameMarks(p, PlaceOf(p, t), PlaceOfMove(mv));
    hide Owned, QueueOk, SameMarks, TokenOk, SubsDistinct;
    ParkHand(p, m, mv, s1, t);
  }

  lemma BoundariesArmAt(p: Process, t: Token)
    requires Hosting(t.wait)
    ensures forall e :: e in p.Boundaries(t.node) ==> ArmsAt(p, t, e)
  {
  }

  /** A host is parked: its boundaries are armed, or it froze on one of them. */
  lemma HostArms(p: Process, m: Machine, except: set<ScopeId>, token: TokenId)
    requires WellFormed(p) && CanArm(p, m, except, token) && Hosting(m.s.TokenAt(token).wait)
    ensures Armed(p, m, except, ArmAll(p, m, token, p.Boundaries(m.s.TokenAt(token).node)))
  {
    BoundariesArmAt(p, m.s.tokens[token]);
    hide WellFormed, CanArm, ArmsAt, Armed;
    ArmAllKeeps(p, m, except, token, p.Boundaries(m.s.tokens[token].node));
  }

  lemma HandOwned(p: Process, m: Machine, mv: Move)
    requires AboutToEnter(p, m, mv)
    ensures Owned(p, m.s) && MoveOk(p, m.s, mv) && ShapeOk(p, mv.node)
  {
    HandOk(p, m, mv);
  }

  lemma DecisionAdmitted(p: Process, m: Machine, mv: Move, m1: Machine)
    requires Owned(p, m.s) && MoveOk(p, m.s, mv) && m.scope == mv.scope && p.KindOf(mv.node).BusinessRule?
    requires m1 == Park(m, mv.token, mv.node, OnDecision)
    ensures var t := Token(mv.node, mv.scope, OnDecision);
            Admits(p, m.s, m1.s, mv.token, t) && TokenOk(p, m1.s, mv.token, t) && SubsDistinct(m1.s)
  {
    hide TokensOk, TimersOk, SubsOk, TimerOwned, SubOwned, Enterable;
  }

  lemma EnterDecisionKeeps(p: Process, m: Machine, mv: Move)
    requires AboutToEnter(p, m, mv) && p.KindOf(mv.node).BusinessRule?
    ensures Entered(p, Enter(p, m, mv.token, mv.node, mv.via))
  {
    var m1 := Park(m, mv.token, mv.node, OnDecision);
    HandOwned(p, m, mv);
    hide Inv, WellFormed, Owned, MoveOk, ShapeOk, Admits;
    DecisionAdmitted(p, m, mv, m1);
    HandParks(p, m, mv, m1.s, OnDecision);
    InvSame(p, m.(s := m1.s), EnterDecision(p, m, mv.token, mv.node, p.KindOf(mv.node).decision), {});
  }

  function WithItem(m: Machine, mv: Move, work: WorkKind, topic: string): Machine {
    OpenItem(Started(m, mv.node), mv.token, mv.node, work, topic)
  }

  lemma ItemAdmitted(p: Process, m: Machine, mv: Move, work: WorkKind, topic: string)
    requires Owned(p, m.s) && MoveOk(p, m.s, mv) && m.scope == mv.scope && p.KindOf(mv.node).Task?
    ensures var t := Token(mv.node, mv.scope, OnItem(m.s.nextItem));
            var s1 := WithItem(m, mv, work, topic).s;
            Admits(p, m.s, s1, mv.token, t) && TokenOk(p, s1, mv.token, t) && SubsDistinct(s1)
  {
    hide TokensOk, TimersOk, SubsOk, TimerOwned, SubOwned, Enterable;
  }

  lemma EnterTaskKeeps(p: Process, m: Machine, mv: Move)
    requires AboutToEnter(p, m, mv) && p.KindOf(mv.node).Task?
    ensures Entered(p, Enter(p, m, mv.token, mv.node, mv.via))
  {
    hide Inv, WellFormed, Owned, MoveOk, ShapeOk, Admits;
    var kind := p.KindOf(mv.node);
    var m1 := WithItem(m, mv, kind.work, kind.topic);
    HandOwned(p, m, mv);
    ItemAdmitted(p, m, mv, kind.work, kind.topic);
    HandParks(p, m, mv, m1.s, OnItem(m.s.nextItem));
    assert m1.s.scopes.Keys - m.s.scopes.Keys == {};
    InvSame(p, m.(s := m1.s), m1, {});
    HostArms(p, m1, {}, mv.token);
  }

  /** A node a repair can re-enter is where its own failure is parked. */
  lemma ResumesAtItself(p: Process, n: NodeIx)
    requires WellFormed(p) && CanResume(p, n)
    ensures p.ResumePoint(n) == n && IncidentAt(p, n)
  {
    assert !p.IsBoundary(n);
  }

  lemma HandFreezesAt(p: Process, mv: Move)
    requires WellFormed(p) && mv.node < |p.nodes| && Enterable(p, mv.node, mv.via)
    requires p.IsCatch(mv.node)
    ensures FreezesAt(p, PlaceOfMove(mv), mv.node)
  {
    ResumesAtItself(p, mv.node);
    StandsIn(p, PlaceOfMove(mv));
  }

  /** A catch whose own arm cannot be made freezes on the way in. */
  lemma CatchFreezes(p: Process, m: Machine, mv: Move, e: Event)
    requires AboutToEnter(p, m, mv) && p.IsCatch(mv.node)
    ensures Inv(p, Freeze(Say(Started(m, mv.node), e), mv.token, mv.node, None, None), {})
  {
    HandOk(p, m, mv);
    HandFreezesAt(p, mv);
    var m1 := Say(Started(m, mv.node), e);
    hide Inv, WellFormed, FreezesAt, MoveOk;
    InvSame(p, InHand(m, mv), InHand(m1, mv), {});
    FreezeHand(p, m1, mv, mv.node, None, None);
  }

  function WithTimer(m: Machine, mv: Move, due: TimerDue, remaining: Option<nat>): Machine {
    Park(RecordTimer(Started(m, mv.node), mv.token, mv.node, due, remaining, None), mv.token, mv.node, OnTimer(m.s.nextTimer))
  }

  lemma TimerAdmitted(p: Process, m: Machine, mv: Move, due: TimerDue, remaining: Option<nat>)
    requires Owned(p, m.s) && MoveOk(p, m.s, mv) && m.scope == mv.scope && p.KindOf(mv.node).TimerCatch?
    ensures var t := Token(mv.node, mv.scope, OnTimer(m.s.nextTimer));
            var s1 := WithTimer(m, mv, due, remaining).s;
            Admits(p, m.s, s1, mv.token, t) && TokenOk(p, s1, mv.token, t) && SubsDistinct(s1)
  {
    hide TokensOk, SubsOk, SubOwned;
  }

  lemma EnterTimerCatchKeeps(p: Process, m: Machine, mv: Move)
    requires AboutToEnter(p, m, mv) && p.KindOf(mv.node).TimerCatch?
    ensures Entered(p, Enter(p, m, mv.token, mv.node, mv.via))
  {
    hide Freeze;
    var source := p.KindOf(mv.node).due;
    var due := p.Resolve(source, m.s.variables);
    if due.None? {
      CatchFreezes(p, m, mv, TimerResolveFailed(mv.node));
    } else {
      var remaining := if due.value.Cycle? then p.repeats(due.value.text) else None;
      var m1 := WithTimer(m, mv, due.value, remaining);
      HandOwned(p, m, mv);
      hide Inv, WellFormed, Owned, MoveOk, ShapeOk, Admits;
      TimerAdmitted(p, m, mv, due.value, remaining);
      HandParks(p, m, mv, m1.s, OnTimer(m.s.nextTimer));
      assert m1.s.scopes.Keys - m.s.scopes.Keys == {};
      InvSame(p, m.(s := m1.s), m1, {});
    }
  }

  function WithSub(m: Machine, mv: Move, message: string, key: string): Machine {
    Park(OpenSub(Started(m, mv.node), mv.token, mv.node, message, key), mv.token, mv.node, OnMessage(m.s.nextSub))
  }

  lemma SubAdmitted(p: Process, m: Machine, mv: Move, message: string, key: string)
    requires Owned(p, m.s) && MoveOk(p, m.s, mv) && m.scope == mv.scope && p.KindOf(mv.node).MessageCatch?
    requires forall k :: k in m.s.subs ==> !(m.s.SubAt(k).message == message && m.s.SubAt(k).key == key)
    ensures var t := Token(mv.node, mv.scope, OnMessage(m.s.nextSub));
            var s1 := WithSub(m, mv, message, key).s;
            Admits(p, m.s, s1, mv.token, t) && TokenOk(p, s1, mv.token, t) && SubsDistinct(s1)
  {
    hide TokensOk, TimersOk, TimerOwned;
  }

  lemma WithSubKeeps(p: Process, m: Machine, mv: Move, message: string, key: string)
    requires AboutToEnter(p, m, mv) && p.KindOf(mv.node).MessageCatch?
    requires forall k :: k in m.s.subs ==> !(m.s.SubAt(k).message == message && m.s.SubAt(k).key == key)
    ensures Inv(p, ArmAll(p, WithSub(m, mv, message, key), mv.token, p.Boundaries(mv.node)).m, {})
  {
    var m1 := WithSub(m, mv, message, key);
    HandOwned(p, m, mv);
    hide Inv, WellFormed, Owned, MoveOk, ShapeOk, Admits;
    SubAdmitted(p, m, mv, message, key);
    HandParks(p, m, mv, m1.s, OnMessage(m.s.nextSub));
    assert m1.s.scopes.Keys - m.s.scopes.Keys == {};
    InvSame(p, m.(s := m1.s), m1, {});
    HostArms(p, m1, {}, mv.token);
  }

  lemma EnterMessageCatchKeeps(p: Process, m: Machine, mv: Move)
    requires AboutToEnter(p, m, mv) && p.KindOf(mv.node).MessageCatch?
    ensures Entered(p, Enter(p, m, mv.token, mv.node, mv.via))
  {
    hide Freeze, AboutToEnter, Inv, ArmAll;
    match ArmKey(p, m.s, m.s.variables, mv.node, None)
    case Unusable => CatchFreezes(p, m, mv, CorrelationFailed(mv.node));
    case Duplicate(message, key) => CatchFreezes(p, m, mv, DuplicateSubscription(mv.node, message, key));
    case Key(message, key) => WithSubKeeps(p, m, mv, message, key);
  }

  lemma GatewayAdmitted(p: Process, m: Machine, mv: Move, m1: Machine)
    requires Owned(p, m.s) && MoveOk(p, m.s, mv) && m.scope == mv.scope && p.KindOf(mv.node).EventBasedGateway?
    requires m1 == Park(Started(m, mv.node), mv.token, mv.node, AtEventGateway)
    ensures var t := Token(mv.node, mv.scope, AtEventGateway);
            Admits(p, m.s, m1.s, mv.token, t) && TokenOk(p, m1.s, mv.token, t) && SubsDistinct(m1.s)
  {
    hide TokensOk, TimersOk, SubsOk, TimerOwned, SubOwned, Enterable;
  }

  lemma TargetsRace(p: Process, n: NodeIx)
    ensures forall e :: e in Targets(p, p.Outgoing(n)) ==> p.Races(n, e)
  {
    var out := p.Outgoing(n);
    forall e | e in Targets(p, out) ensures p.Races(n, e) {
      var i :| 0 <= i < |Targets(p, out)| && Targets(p, out)[i] == e;
      assert out[i] in out && p.Target(out[i]) == e;
    }
  }

  lemma EnterEventGatewayKeeps(p: Process, m: Machine, mv: Move)
    requires AboutToEnter(p, m, mv) && p.KindOf(mv.node).EventBasedGateway?
    ensures Entered(p, Enter(p, m, mv.token, mv.node, mv.via))
  {
    var m1 := Park(Started(m, mv.node), mv.token, mv.node, AtEventGateway);
    HandOwned(p, m, mv);
    hide Inv, WellFormed, Owned, MoveOk, ShapeOk, Admits, Targets;
    GatewayAdmitted(p, m, mv, m1);
    HandParks(p, m, mv, m1.s, AtEventGateway);
    assert m1.s.scopes.Keys - m.s.scopes.Keys == {};
    InvSame(p, m.(s := m1.s), m1, {});
    TargetsRace(p, mv.node);
    ArmAlternativesKeep(p, m1, mv.token, Targets(p, p.Outgoing(mv.node)));
  }

  // ---- a subprocess opens its scope

  function WithScope(m: Machine, mv: Move): Machine { OpenScope(Started(m, mv.node), mv.token, mv.node) }

  lemma ScopeAdmitted(p: Process, m: Machine, mv: Move)
    requires Owned(p, m.s) && MoveOk(p, m.s, mv) && m.scope == mv.scope && p.KindOf(mv.node).SubProcess?
    ensures var t := Token(mv.node, mv.scope, OnScope(m.s.nextScope));
            var s1 := WithScope(m, mv).s;
            Admits(p, m.s, s1, mv.token, t) && TokenOk(p, s1, mv.token, t) && SubsDistinct(s1)
  {
    hide TokensOk, TimersOk, SubsOk, TimerOwned, SubOwned, Enterable;
  }

  /** A scope that is not open yet has nobody in it. */
  lemma NobodyYet(p: Process, m: Machine, tokens: map<TokenId, Token>, c: ScopeId)
    requires TokensOk(p, m.s) && QueueOk(p, m.s, m.q) && c != ROOT && c !in m.s.scopes
    requires forall id :: id in tokens ==> (id in m.s.tokens && tokens[id] == m.s.TokenAt(id)) || tokens[id].scope != c
    ensures !LivesIn(TokenPlaces(p, tokens) + MovePlaces(m.q), c)
  {
    var pop: Population := TokenPlaces(p, tokens) + MovePlaces(m.q);
    forall a | a in pop ensures pop[a].scope != c {
      if a in MovePlaces(m.q) {
        MovePlacesFrom(m.q, a);
      } else {
        assert a in m.s.tokens ==> TokenOk(p, m.s, a, m.s.tokens[a]);
      }
    }
  }

  lemma ScopeStartOk(p: Process, s: Instance, child: ScopeId, n: NodeIx)
    requires WellFormed(p) && n < |p.nodes| && p.KindOf(n).SubProcess?
    requires child in s.scopes && s.ScopeAt(child).element == n
    ensures var start := p.ScopeStart(p.KindOf(n).body);
            PlaceOk(p, s, start, child) && p.KindOf(start).Start? && Enterable(p, start, None)
  {
    assert ShapeOk(p, p.ScopeStart(p.KindOf(n).body));
  }

  lemma NobodyInside(p: Process, m: Machine, mv: Move)
    requires Owned(p, m.s) && QueueOk(p, m.s, m.q) && MoveOk(p, m.s, mv) && m.scope == mv.scope
    ensures var m1 := WithScope(m, mv); !LivesIn(Everybody(p, m1.s, m1.q), m.s.nextScope)
  {
    var m1 := WithScope(m, mv);
    NobodyYet(p, m, m1.s.tokens, m.s.nextScope);
  }

  lemma HandQueue(p: Process, m: Machine, mv: Move)
    requires AboutToEnter(p, m, mv)
    ensures QueueOk(p, m.s, m.q)
  {
    InHandPlaces(p, m, mv);
  }

  lemma ScopeParks(p: Process, m: Machine, mv: Move)
    requires AboutToEnter(p, m, mv) && p.KindOf(mv.node).SubProcess?
    ensures var m1 := WithScope(m, mv);
            CanArm(p, m1, {m.s.nextScope}, mv.token) && !LivesIn(Everybody(p, m1.s, m1.q), m.s.nextScope)
  {
    hide Inv, WellFormed, MoveOk, ShapeOk, Admits, QueueOk, TokenOk, SubsDistinct, Everybody, LivesIn, TokensOk, TimersOk, SubsOk, ItemsOk;
    var m1 := WithScope(m, mv);
    var child := m.s.nextScope;
    HandOwned(p, m, mv);
    HandQueue(p, m, mv);
    ScopeAdmitted(p, m, mv);
    NobodyInside(p, m, mv);
    HandParks(p, m, mv, m1.s, OnScope(child));
    assert m1.s.scopes.Keys - m.s.scopes.Keys == {child};
    InvSame(p, m.(s := m1.s), m1, {child});
  }

  lemma EnterSubProcessKeeps(p: Process, m: Machine, mv: Move)
    requires AboutToEnter(p, m, mv) && p.KindOf(mv.node).SubProcess?
    ensures Entered(p, Enter(p, m, mv.token, mv.node, mv.via))
  {
    var m1 := WithScope(m, mv);
    var child := m.s.nextScope;
    HandOwned(p, m, mv);
    ScopeParks(p, m, mv);
    HostArms(p, m1, {child}, mv.token);
    var armed := ArmAll(p, m1, mv.token, p.Boundaries(mv.node));
    if armed.ok {
      ScopeStartOk(p, armed.m.s, child, mv.node);
      hide Inv, WellFormed, Owned, MoveOk, ShapeOk, ArmAll, Enterable, PlaceOk;
      var start := p.ScopeStart(p.KindOf(mv.node).body);
      assert Everybody(p, armed.m.s, armed.m.q) == Everybody(p, m1.s, m1.q);
      FirstInside(p, armed.m, child, start);
    }
  }
}
