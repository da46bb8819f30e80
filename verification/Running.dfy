/** The advancer runs to quiescence: every move keeps the invariant and none is
    the internal error, and the queue empties because no cycle is wait-free. */
module Running {
  import opened Basics
  import opened Compiled
  import opened State
  import opened Advance
  import opened Game
  import opened Invariant
  import opened Keeping
  import opened Freezing
  import opened Entering
  import opened Leaving
  import opened Branching

  /** Whatever the node, entering it keeps the invariant. */
  lemma EnterKeeps(p: Process, m: Machine, mv: Move)
    requires AboutToEnter(p, m, mv) && Certified(p)
    ensures Entered(p, Enter(p, m, mv.token, mv.node, mv.via))
  {
    hide AboutToEnter, Certified, Entered, Enter;
    assert Enterable(p, mv.node, mv.via) by { HandEnterable(p, m, mv); }
    match p.KindOf(mv.node)
    case Start => EnterStartKeeps(p, m, mv);
    case BusinessRule(_, _) => EnterDecisionKeeps(p, m, mv);
    case Task(_, _) => EnterTaskKeeps(p, m, mv);
    case TimerCatch(_) => EnterTimerCatchKeeps(p, m, mv);
    case MessageCatch(_, _) => EnterMessageCatchKeeps(p, m, mv);
    case EventBasedGateway => EnterEventGatewayKeeps(p, m, mv);
    case SubProcess(_) => EnterSubProcessKeeps(p, m, mv);
    case ExclusiveGateway(_) => EnterExclusiveKeeps(p, m, mv);
    case ParallelGateway =>
      if p.IsJoin(mv.node) {
        EnterJoinKeeps(p, m, mv);
      } else {
        EnterForkKeeps(p, m, mv);
      }
    case End => EnterEndKeeps(p, m, mv);
    case TerminateEnd => EnterTerminateEndKeeps(p, m, mv);
  }

  lemma HandEnterable(p: Process, m: Machine, mv: Move)
    requires AboutToEnter(p, m, mv)
    ensures Enterable(p, mv.node, mv.via) && mv.node < |p.nodes|
  {
    HandOk(p, m, mv);
  }

  // ---- the order of the queue is no part of the invariant

  ghost predicate SameMoves(q: seq<Move>, r: seq<Move>) {
    Distinct(q) && Distinct(r) && forall mv :: mv in q <==> mv in r
  }

  lemma SameMovesStand(q: seq<Move>, r: seq<Move>)
    requires SameMoves(q, r)
    ensures MovePlaces(q) == MovePlaces(r)
  {
    hide MovePlaces, Distinct;
    MovesStand(q);
    MovesStand(r);
  }

  lemma Reordered(p: Process, m: Machine, except: set<ScopeId>, r: seq<Move>)
    requires Inv(p, m, except) && SameMoves(m.q, r)
    ensures Inv(p, m.(q := r), except)
  {
    hide Owned, Safe, Inhabited, MoveOk;
    SameMovesStand(m.q, r);
    assert m.q == [] ==> r == [] by { if r != [] { assert r[0] in r; } }
  }

  lemma Rotated(mv: Move, rest: seq<Move>)
    requires Distinct([mv] + rest)
    ensures SameMoves([mv] + rest, rest + [mv])
  {
    var q := [mv] + rest;
    assert forall i :: 0 <= i < |rest| ==> rest[i] == q[i + 1];
    forall other | other in rest ensures other.token != mv.token {
      var i :| 0 <= i < |rest| && rest[i] == other;
      assert q[0] == mv && q[i + 1] == other;
    }
    DistinctPush(rest, mv);
  }

  /** One move of the advancer. */
  lemma Advance1Keeps(p: Process, m: Machine)
    requires WellFormed(p) && Certified(p) && Inv(p, m, {}) && m.s.status.Active? && m.q != []
    ensures Entered(p, Advance1(p, m))
  {
    var mv, rest := m.q[0], m.q[1..];
    assert m.q == [mv] + rest;
    var m1 := m.(q := rest, scope := mv.scope);
    assert Distinct(m.q);
    hide Inv, WellFormed, Certified, Entered;
    Rotated(mv, rest);
    Reordered(p, m, {}, rest + [mv]);
    InvSame(p, m.(q := rest + [mv]), InHand(m1, mv), {});
    EnterKeeps(p, m1, mv);
  }

  // ---- no wait-free cycle

  /** Where the body of scope `k` exits to, over subprocess nodes below `n`. */
  function ExitTargets(p: Process, k: ScopeIx, n: nat): seq<NodeIx> {
    if n == 0 then []
    else ExitTargets(p, k, n - 1) + if p.KindOf(n - 1) == SubProcess(k) then Targets(p, p.Outgoing(n - 1)) else []
  }

  /** The nodes a token may be handed to within the step that enters `n`. */
  function Emits(p: Process, n: NodeIx): seq<NodeIx> {
    match p.KindOf(n)
    case Start => Targets(p, p.Outgoing(n))
    case ExclusiveGateway(_) => Targets(p, p.Outgoing(n))
    case ParallelGateway => Targets(p, p.Outgoing(n))
    case SubProcess(body) => [p.ScopeStart(body)]
    case End => ExitTargets(p, p.ScopeOf(n), |p.nodes|)
    case TerminateEnd => ExitTargets(p, p.ScopeOf(n), |p.nodes|)
    case _ => []
  }

  /** Heights that descend wherever a token is handed on without a wait: there
      are such exactly when no cycle of the process is free of waits. */
  ghost predicate Descends(p: Process, h: NodeIx -> nat) {
    forall n, e :: e in Emits(p, n) ==> h(e) < h(n)
  }

  ghost predicate NoWaitFreeCycle(p: Process) {
    exists h :: Descends(p, h)
  }

  /** At most so many moves a token entering `n` costs before all is at rest, under
      heights that descend. */
  ghost function Weight(p: Process, h: NodeIx -> nat, n: NodeIx): nat
    decreases h(n), 1, 0
  {
    1 + Weights(p, h, Emits(p, n), h(n))
  }

  ghost function Weights(p: Process, h: NodeIx -> nat, ns: seq<NodeIx>, below: nat): nat
    decreases below, 0, |ns|
  {
    if ns == [] then 0
    else (if h(ns[0]) < below then Weight(p, h, ns[0]) else 0) + Weights(p, h, ns[1..], below)
  }

  ghost function QueueWeight(p: Process, h: NodeIx -> nat, q: seq<Move>): nat {
    if q == [] then 0 else QueueWeight(p, h, q[..|q| - 1]) + Weight(p, h, q[|q| - 1].node)
  }

  lemma {:induction false} WeightIn(p: Process, h: NodeIx -> nat, ns: seq<NodeIx>, below: nat, e: NodeIx)
    requires Descends(p, h) && (forall n :: n in ns ==> h(n) < below) && e in ns
    ensures Weights(p, h, ns, below) >= Weight(p, h, e)
    decreases |ns|
  {
    if ns[0] == e {
    } else {
      WeightIn(p, h, ns[1..], below, e);
    }
  }

  lemma QueueWeightPush(p: Process, h: NodeIx -> nat, q: seq<Move>, mv: Move)
    requires Descends(p, h)
    ensures QueueWeight(p, h, q + [mv]) == QueueWeight(p, h, q) + Weight(p, h, mv.node)
  {
    assert (q + [mv])[..|q|] == q;
  }

  /** The queue weighs less than with a token at `n` in hand. */
  ghost predicate Lighter(p: Process, h: NodeIx -> nat, q: seq<Move>, n: NodeIx, after: seq<Move>) {
    QueueWeight(p, h, after) < QueueWeight(p, h, q) + Weight(p, h, n)
  }

  lemma HandsOne(p: Process, h: NodeIx -> nat, q: seq<Move>, kept: seq<Move>, n: NodeIx, to: Move)
    requires Descends(p, h) && to.node in Emits(p, n) && QueueWeight(p, h, kept) <= QueueWeight(p, h, q)
    ensures Lighter(p, h, q, n, kept + [to])
  {
    QueueWeightPush(p, h, kept, to);
    WeightIn(p, h, Emits(p, n), h(n), to.node);
  }

  lemma {:induction false} SparedWeight(p: Process, h: NodeIx -> nat, q: seq<Move>, doomed: set<ScopeId>)
    requires Descends(p, h)
    ensures QueueWeight(p, h, Spared(q, doomed)) <= QueueWeight(p, h, q)
  {
    hide Weight, Descends;
    if q == [] {
    } else {
      var front, last := q[..|q| - 1], q[|q| - 1];
      hide QueueWeight, Spared;
      SparedWeight(p, h, front, doomed);
      assert q == front + [last];
      QueueWeightPush(p, h, front, last);
      QueueWeightPush(p, h, Spared(front, doomed), last);
      SparedPush(front, last, doomed);
    }
  }

  lemma {:induction false} ForkWeight(p: Process, h: NodeIx -> nat, q: seq<Move>, first: TokenId, flows: seq<FlowIx>, scope: ScopeId, below: nat)
    requires Descends(p, h) && forall e :: e in Targets(p, flows) ==> h(e) < below
    ensures QueueWeight(p, h, q + ForkMoves(p, first, flows, scope))
         == QueueWeight(p, h, q) + Weights(p, h, Targets(p, flows), below)
    decreases |flows|
  {
    hide Weight, Descends, QueueWeight;
    if flows == [] {
      assert q + [] == q;
    } else {
      var mv := Move(first, p.Target(flows[0]), Some(flows[0]), scope);
      var rest := ForkMoves(p, first + 1, flows[1..], scope);
      assert Targets(p, flows)[0] == mv.node && Targets(p, flows)[1..] == Targets(p, flows[1..]);
      ForkWeight(p, h, q + [mv], first + 1, flows[1..], scope, below);
      QueueWeightPush(p, h, q, mv);
      assert q + ForkMoves(p, first, flows, scope) == (q + [mv]) + rest;
    }
  }

  lemma TargetIn(p: Process, flows: seq<FlowIx>, f: FlowIx)
    requires f in flows
    ensures p.Target(f) in Targets(p, flows)
  {
    var i :| 0 <= i < |flows| && flows[i] == f;
    assert Targets(p, flows)[i] == p.Target(f);
  }

  lemma {:induction false} ExitIn(p: Process, k: ScopeIx, n: nat, element: NodeIx, f: FlowIx)
    requires element < n && p.KindOf(element) == SubProcess(k) && f in p.Outgoing(element)
    ensures p.Target(f) in ExitTargets(p, k, n)
  {
    if element == n - 1 {
      TargetIn(p, p.Outgoing(element), f);
    } else {
      ExitIn(p, k, n - 1, element, f);
    }
  }

  /** Arming queues nothing; failing to arm empties the queue. */
  lemma ArmQueue(p: Process, m: Machine, token: TokenId, element: NodeIx)
    ensures var a := Arm(p, m, token, element); a.m.q == if a.ok then m.q else []
  {
  }

  lemma {:induction false} ArmAllQueue(p: Process, m: Machine, token: TokenId, elements: seq<NodeIx>)
    ensures var a := ArmAll(p, m, token, elements); a.m.q == if a.ok then m.q else []
    decreases |elements|
  {
    hide Arm;
    if elements == [] {
    } else {
      ArmQueue(p, m, token, elements[0]);
      var first := Arm(p, m, token, elements[0]);
      if first.ok {
        ArmAllQueue(p, first.m, token, elements[1..]);
      }
    }
  }

  lemma {:induction false} ArmAlternativesQueue(p: Process, m: Machine, token: TokenId, elements: seq<NodeIx>)
    ensures var o := ArmAlternatives(p, m, token, elements); o.Ok? ==> o.m.q == m.q || o.m.q == []
    decreases |elements|
  {
    hide Arm;
    if elements == [] || !p.IsCatch(elements[0]) {
    } else {
      ArmQueue(p, m, token, elements[0]);
      var first := Arm(p, m, token, elements[0]);
      if first.ok {
        ArmAlternativesQueue(p, first.m, token, elements[1..]);
      }
    }
  }

  lemma Parks(p: Process, h: NodeIx -> nat, q: seq<Move>, n: NodeIx, after: seq<Move>)
    requires Descends(p, h) && (after == q || after == [])
    ensures Lighter(p, h, q, n, after)
  {
  }

  lemma TaskLightens(p: Process, h: NodeIx -> nat, m: Machine, mv: Move)
    requires Descends(p, h)
    requires var k := p.KindOf(mv.node); k.Task? || k.TimerCatch? || k.MessageCatch? || k.BusinessRule? || k.EventBasedGateway?
    ensures var o := Enter(p, m, mv.token, mv.node, mv.via); o.Ok? ==> Lighter(p, h, m.q, mv.node, o.m.q)
  {
    hide Lighter, ArmAll, ArmAlternatives, Descends, ArmTimer, Subscribe;
    match p.KindOf(mv.node) {
      case Task(work, topic) => ArmAllQueue(p, WithItem(m, mv, work, topic), mv.token, p.Boundaries(mv.node));
      case TimerCatch(due) => ArmTimerQueue(p, Started(m, mv.node), mv.token, mv.node, due);
      case MessageCatch(_, _) =>
        SubscribeQueue(p, Started(m, mv.node), mv.token, mv.node);
        var armed := Subscribe(p, Started(m, mv.node), mv.token, mv.node);
        if armed.ok {
          ArmAllQueue(p, Park(armed.m, mv.token, mv.node, OnMessage(m.s.nextSub)), mv.token, p.Boundaries(mv.node));
        }
      case BusinessRule(_, _) =>
      case EventBasedGateway =>
        ArmAlternativesQueue(p, Park(Started(m, mv.node), mv.token, mv.node, AtEventGateway), mv.token, Targets(p, p.Outgoing(mv.node)));
    }
    var o := Enter(p, m, mv.token, mv.node, mv.via);
    if o.Ok? {
      Parks(p, h, m.q, mv.node, o.m.q);
    }
  }

  lemma ArmTimerQueue(p: Process, m: Machine, token: TokenId, element: NodeIx, due: TimerSource)
    ensures var a := ArmTimer(p, m, token, element, due); a.m.q == if a.ok then m.q else []
  {
  }

  lemma SubscribeQueue(p: Process, m: Machine, token: TokenId, element: NodeIx)
    ensures var a := Subscribe(p, m, token, element); a.m.q == if a.ok then m.q else []
  {
  }

  lemma LeaveLightens(p: Process, h: NodeIx -> nat, m: Machine, n: NodeIx, token: TokenId, f: FlowIx, m1: Machine)
    requires Descends(p, h) && f in p.Outgoing(n) && Emits(p, n) == Targets(p, p.Outgoing(n)) && m1.q == m.q
    ensures Lighter(p, h, m.q, n, Leave(p, m1, token, f).q)
  {
    TargetIn(p, p.Outgoing(n), f);
    HandsOne(p, h, m.q, m.q, n, Move(token, p.Target(f), Some(f), m1.scope));
  }

  lemma SubProcessLightens(p: Process, h: NodeIx -> nat, m: Machine, mv: Move)
    requires Descends(p, h) && p.KindOf(mv.node).SubProcess?
    ensures Lighter(p, h, m.q, mv.node, EnterSubProcess(p, m, mv.token, mv.node, p.Body(mv.node)).q)
  {
    hide Lighter, ArmAll, Descends;
    var m1 := WithScope(m, mv);
    ArmAllQueue(p, m1, mv.token, p.Boundaries(mv.node));
    var armed := ArmAll(p, m1, mv.token, p.Boundaries(mv.node));
    if armed.ok {
      var body := p.KindOf(mv.node).body;
      HandsOne(p, h, m.q, m.q, mv.node, Move(armed.m.s.nextToken, p.ScopeStart(body), None, m.s.nextScope));
    } else {
      Parks(p, h, m.q, mv.node, []);
    }
  }

  lemma GatewayLightens(p: Process, h: NodeIx -> nat, m: Machine, mv: Move)
    requires AboutToEnter(p, m, mv) && Descends(p, h)
    requires var k := p.KindOf(mv.node); k.Start? || k.ExclusiveGateway? || k.ParallelGateway?
    ensures var o := Enter(p, m, mv.token, mv.node, mv.via); o.Ok? ==> Lighter(p, h, m.q, mv.node, o.m.q)
  {
    hide AboutToEnter, Lighter, Descends, AllArrived, ArrivedOn, Consumed;
    HandOk(p, m, mv);
    var n := mv.node;
    match p.KindOf(n)
    case Start => LeaveLightens(p, h, m, n, mv.token, p.Outgoing(n)[0], Finished(Started(m, n), n));
    case ExclusiveGateway(d) =>
      FirstHoldingIs(p, p.Outgoing(n), d, m.s.variables);
      LeaveLightens(p, h, m, n, mv.token, Chosen(p, n, d, m.s.variables).value, Finished(Started(m, n), n));
    case ParallelGateway => ParallelLightens(p, h, m, mv);
  }

  lemma ParallelLightens(p: Process, h: NodeIx -> nat, m: Machine, mv: Move)
    requires AboutToEnter(p, m, mv) && Descends(p, h) && p.KindOf(mv.node).ParallelGateway?
    ensures var o := Enter(p, m, mv.token, mv.node, mv.via); o.Ok? ==> Lighter(p, h, m.q, mv.node, o.m.q)
  {
    hide AboutToEnter, Lighter, Descends, AllArrived, ArrivedOn, Consumed;
    HandOk(p, m, mv);
    var n := mv.node;
    if p.IsJoin(n) {
      Parks(p, h, m.q, n, m.q);
      var o := Enter(p, m, mv.token, n, mv.via);
      if o.Ok? && o.m.q != m.q {
        var m1 := Park(m, mv.token, n, AtJoin(mv.via.value));
        var m2 := Finished(Started(Unpark(m1, Consumed(p, m1.s, n, m.scope)), n), n);
        LeaveLightens(p, h, m, n, m2.s.nextToken, p.Outgoing(n)[0], FreshToken(m2));
      }
    } else {
      var m1 := Finished(Started(m, n), n);
      ForkIs(p, m1, p.Outgoing(n));
      ForkLightens(p, h, m.q, n, m.s.nextToken, m.scope);
    }
  }

  lemma ForkLightens(p: Process, h: NodeIx -> nat, q: seq<Move>, n: NodeIx, first: TokenId, scope: ScopeId)
    requires Descends(p, h) && p.KindOf(n).ParallelGateway?
    ensures Lighter(p, h, q, n, q + ForkMoves(p, first, p.Outgoing(n), scope))
  {
    ForkWeight(p, h, q, first, p.Outgoing(n), scope, h(n));
  }

  lemma ResumeLightens(p: Process, h: NodeIx -> nat, m: Machine, mv: Move, m1: Machine)
    requires AboutToEnter(p, m, mv) && Descends(p, h) && mv.scope != ROOT && m1 == m.(ev := m1.ev)
    requires p.KindOf(mv.node).End? || p.KindOf(mv.node).TerminateEnd?
    ensures var o := CompleteScope(p, TearDown(m1, mv.scope), mv.scope); o.Ok? ==> Lighter(p, h, m.q, mv.node, o.m.q)
  {
    hide Inv, WellFormed, TearDown, CompleteScope, Owned, Lighter, Descends, Enterable;
    HandOwned(p, m, mv);
    ParentOf(p, m, mv);
    var parent := m.s.scopes[mv.scope];
    SubProcessGoesOn(p, m.s.tokens[parent.token], parent.token);
    var f := p.Outgoing(parent.element)[0];
    TornCompletes(p, m1, mv.scope);
    SparedWeight(p, h, m.q, ChildScopes(m.s, parent.token));
    ExitIn(p, p.ScopeOf(mv.node), |p.nodes|, parent.element, f);
    HandsOne(p, h, m.q, Spared(m.q, ChildScopes(m.s, parent.token)), mv.node, Move(parent.token, p.Target(f), Some(f), parent.parent));
  }

  lemma EndLightens(p: Process, h: NodeIx -> nat, m: Machine, mv: Move)
    requires AboutToEnter(p, m, mv) && Descends(p, h)
    requires p.KindOf(mv.node).End? || p.KindOf(mv.node).TerminateEnd?
    ensures var o := Enter(p, m, mv.token, mv.node, mv.via); o.Ok? ==> Lighter(p, h, m.q, mv.node, o.m.q)
  {
    HandOwned(p, m, mv);
    hide WellFormed, Inv, TearDown, CompleteScope, Lighter, Descends;
    Parks(p, h, m.q, mv.node, m.q);
    Parks(p, h, m.q, mv.node, []);
    var m1 := Finished(Started(m, mv.node), mv.node);
    if mv.scope != ROOT {
      if ScopeIsEmpty(m1, mv.scope) {
        TearEmpty(m1, mv.scope);
      }
      ResumeLightens(p, h, m, mv, m1);
    }
  }

  /** Every move of the advancer makes the queue lighter. */
  lemma EnterLightens(p: Process, h: NodeIx -> nat, m: Machine, mv: Move)
    requires AboutToEnter(p, m, mv) && Descends(p, h)
    ensures var o := Enter(p, m, mv.token, mv.node, mv.via); o.Ok? ==> Lighter(p, h, m.q, mv.node, o.m.q)
  {
    hide AboutToEnter, Lighter, Descends;
    match p.KindOf(mv.node)
    case Start => GatewayLightens(p, h, m, mv);
    case ExclusiveGateway(_) => GatewayLightens(p, h, m, mv);
    case ParallelGateway => GatewayLightens(p, h, m, mv);
    case SubProcess(_) => SubProcessLightens(p, h, m, mv);
    case End => EndLightens(p, h, m, mv);
    case TerminateEnd => EndLightens(p, h, m, mv);
    case Task(_, _) => TaskLightens(p, h, m, mv);
    case TimerCatch(_) => TaskLightens(p, h, m, mv);
    case MessageCatch(_, _) => TaskLightens(p, h, m, mv);
    case BusinessRule(_, _) => TaskLightens(p, h, m, mv);
    case EventBasedGateway => TaskLightens(p, h, m, mv);
    case _ =>
  }

  // ---- to quiescence

  /** What the linter promises of a process the engine runs. */
  ghost predicate Linted(p: Process) {
    WellFormed(p) && Certified(p) && SidePathsOk(p)
  }

  ghost function Heights(p: Process): (h: NodeIx -> nat)
    ensures NoWaitFreeCycle(p) ==> Descends(p, h)
  {
    if h :| Descends(p, h) then h else (n: NodeIx) => 0
  }

  lemma QueuedIsActive(p: Process, m: Machine)
    requires Inv(p, m, {}) && m.q != []
    ensures m.s.status.Active?
  {
  }

  lemma {:induction false} FrontWeight(p: Process, h: NodeIx -> nat, q: seq<Move>)
    requires Descends(p, h) && q != []
    ensures QueueWeight(p, h, q) == Weight(p, h, q[0].node) + QueueWeight(p, h, q[1..])
    decreases |q|
  {
    hide Weight, Descends;
    if |q| > 1 {
      var front, last := q[..|q| - 1], q[|q| - 1];
      assert q == front + [last] && q[1..] == front[1..] + [last];
      QueueWeightPush(p, h, front, last);
      QueueWeightPush(p, h, front[1..], last);
      hide QueueWeight;
      FrontWeight(p, h, front);
    } else {
      assert q[..0] == [] && q[1..] == [];
    }
  }

  lemma Advance1Lightens(p: Process, h: NodeIx -> nat, m: Machine)
    requires WellFormed(p) && Certified(p) && Descends(p, h) && Inv(p, m, {}) && m.q != []
    ensures Entered(p, Advance1(p, m))
    ensures QueueWeight(p, h, Advance1(p, m).m.q) < QueueWeight(p, h, m.q)
  {
    var mv, rest := m.q[0], m.q[1..];
    assert m.q == [mv] + rest && Distinct(m.q);
    QueuedIsActive(p, m);
    hide Inv, WellFormed, Certified, Descends, Distinct, Weight, QueueWeight, Enter;
    var m1 := m.(q := rest, scope := mv.scope);
    Rotated(mv, rest);
    Reordered(p, m, {}, rest + [mv]);
    InvSame(p, m.(q := rest + [mv]), InHand(m1, mv), {});
    EnterKeeps(p, m1, mv);
    EnterLightens(p, h, m1, mv);
    FrontWeight(p, h, m.q);
  }

  /** At most `k` moves of the advancer. */
  function Advanced(p: Process, m: Machine, k: int): Outcome
    decreases k
  {
    if k <= 0 || m.q == [] then Ok(m)
    else
      var o := Advance1(p, m);
      if o.Ok? then Advanced(p, o.m, k - 1) else o
  }

  /** However many moves are made, the invariant holds and none is the internal error. */
  lemma {:induction false} AdvancedKeeps(p: Process, m: Machine, k: nat)
    requires Linted(p) && Inv(p, m, {})
    ensures var o := Advanced(p, m, k); o.Ok? && Inv(p, o.m, {})
    decreases k
  {
    hide Inv, WellFormed, Certified, SidePathsOk, Advance1;
    if k == 0 || m.q == [] {
    } else {
      QueuedIsActive(p, m);
      Advance1Keeps(p, m);
      AdvancedKeeps(p, Advance1(p, m).m, k - 1);
    }
  }

  ghost predicate EndsIn(p: Process, m: Machine, k: int) {
    Advanced(p, m, k).Ok? && Advanced(p, m, k).m.q == []
  }

  /** The advancer comes to rest. */
  ghost predicate Ends(p: Process, m: Machine) {
    exists k: nat :: EndsIn(p, m, k)
  }

  /** At rest is at rest. */
  lemma {:induction false} EndsOnce(p: Process, m: Machine, j: nat, k: nat)
    requires EndsIn(p, m, j) && j <= k
    ensures Advanced(p, m, k) == Advanced(p, m, j)
    decreases j
  {
    hide Advance1;
    if j == 0 || m.q == [] {
    } else {
      EndsOnce(p, Advance1(p, m).m, j - 1, k - 1);
    }
  }

  /** The queue run down, where it comes to rest. */
  ghost function Drain(p: Process, m: Machine): Machine {
    if k: nat :| EndsIn(p, m, k) then Advanced(p, m, k).m else m
  }

  lemma DrainIs(p: Process, m: Machine, k: nat)
    requires EndsIn(p, m, k)
    ensures Ends(p, m) && Advanced(p, m, k) == Ok(Drain(p, m))
  {
    hide EndsIn, Advanced;
    var j: nat :| EndsIn(p, m, j) && Advanced(p, m, j).m == Drain(p, m);
    hide Drain;
    DrainedAlike(p, m, j, k);
    EndsOk(p, m, k);
  }

  lemma EndsOk(p: Process, m: Machine, k: nat)
    requires EndsIn(p, m, k)
    ensures Advanced(p, m, k).Ok? && Advanced(p, m, k).m.q == []
  {
  }

  lemma DrainKeeps(p: Process, m: Machine)
    requires Linted(p) && Inv(p, m, {}) && Ends(p, m)
    ensures Inv(p, Drain(p, m), {}) && Drain(p, m).q == []
  {
    hide Linted, Inv, EndsIn, Advanced, Drain;
    var k: nat :| EndsIn(p, m, k);
    DrainIs(p, m, k);
    EndsOk(p, m, k);
    AdvancedKeeps(p, m, k);
  }

  lemma DrainedAlike(p: Process, m: Machine, j: nat, k: nat)
    requires EndsIn(p, m, j) && EndsIn(p, m, k)
    ensures Advanced(p, m, j) == Advanced(p, m, k)
  {
    if j <= k {
      EndsOnce(p, m, j, k);
    } else {
      EndsOnce(p, m, k, j);
    }
  }

  /** Without a wait-free cycle the advancer terminates, in no more moves than
      the queue weighs. */
  lemma {:induction false} Quiesces(p: Process, m: Machine, k: nat)
    requires Linted(p) && NoWaitFreeCycle(p) && Inv(p, m, {}) && k >= QueueWeight(p, Heights(p), m.q)
    ensures EndsIn(p, m, k)
    decreases k
  {
    hide Inv, WellFormed, Certified, NoWaitFreeCycle, Weight, QueueWeight, Descends, Advance1;
    if m.q == [] {
    } else {
      Advance1Lightens(p, Heights(p), m);
      Quiesces(p, Advance1(p, m).m, k - 1);
    }
  }

  // ---- asking halted decisions again

  predicate AwaitsAnswer(t: Token) { HaltDecision(t).wait == Halted(AwaitingDecision) }

  lemma ReaskedTokens(p: Process, s: Instance, s1: Instance, id: TokenId)
    requires TokensOk(p, s) && ROOT !in s.scopes && id in s.tokens && AwaitsAnswer(s.TokenAt(id))
    requires s1 == s.(tokens := s.tokens[id := s.TokenAt(id).(wait := OnDecision)])
    ensures TokensOk(p, s1) && TokenPlaces(p, s1.tokens) == TokenPlaces(p, s.tokens)
  {
    assert TokenOk(p, s, id, s.tokens[id]);
    var t := s1.tokens[id];
    assert TokenOk(p, s1, id, t);
    AdmittedTokens(p, s, s1, id, t);
    hide TokensOk, TokenOk;
  }

  lemma ReaskedRows(p: Process, s: Instance, s1: Instance, id: TokenId)
    requires TimersOk(p, s) && SubsOk(p, s) && SubsDistinct(s) && ItemsOk(s) && ScopesOk(s)
    requires id in s.tokens && AwaitsAnswer(s.TokenAt(id))
    requires s1 == s.(tokens := s.tokens[id := s.TokenAt(id).(wait := OnDecision)])
    ensures TimersOk(p, s1) && SubsOk(p, s1) && SubsDistinct(s1) && ItemsOk(s1) && ScopesOk(s1)
  {
  }

  lemma ReaskedToken(p: Process, s: Instance, s1: Instance, id: TokenId)
    requires Owned(p, s) && id in s.tokens && AwaitsAnswer(s.TokenAt(id))
    requires s1 == s.(tokens := s.tokens[id := s.TokenAt(id).(wait := OnDecision)])
    ensures Owned(p, s1) && TokenPlaces(p, s1.tokens) == TokenPlaces(p, s.tokens)
  {
    hide TokensOk, TimersOk, SubsOk, SubsDistinct, ItemsOk;
    ReaskedTokens(p, s, s1, id);
    ReaskedRows(p, s, s1, id);
  }

  lemma ReaskedStatus(s: Instance, s1: Instance, id: TokenId, rest: seq<TokenId>)
    requires StatusOk(s, [], [id] + rest) && ReaskOk(s, [], [id] + rest) && s.status.Active?
    requires s1 == if id in s.tokens then s.(tokens := s.tokens[id := s.TokenAt(id).(wait := OnDecision)]) else s
    ensures StatusOk(s1, [], rest) && ReaskOk(s1, [], rest)
  {
    assert forall other :: other in rest ==> other in [id] + rest;
    assert forall other :: other in [id] + rest && other != id ==> other in rest;
  }

  lemma AskedAgain(p: Process, m: Machine, id: TokenId, rest: seq<TokenId>, s1: Instance)
    requires Inv(p, m, {}) && m.s.status.Active? && m.q == [] && m.reask == [id] + rest
    requires s1 == if id in m.s.tokens then m.s.(tokens := m.s.tokens[id := m.s.TokenAt(id).(wait := OnDecision)]) else m.s
    ensures Inv(p, m.(s := s1, reask := rest), {})
  {
    hide Owned, Safe, LivesIn, TokenPlaces, StatusOk;
    ReaskedStatus(m.s, s1, id, rest);
    if id in m.s.tokens {
      assert id in m.reask;
      ReaskedToken(p, m.s, s1, id);
    }
    hide ReaskOk;
  }

  lemma {:induction false} ReaskKeeps(p: Process, m: Machine, ids: seq<TokenId>)
    requires Inv(p, m.(reask := ids), {}) && m.s.status.Active? && m.q == []
    ensures var m' := Reask(p, m, ids);
            && Inv(p, m'.(reask := []), {}) && m'.s.status.Active? && m'.q == []
            && m'.s.tokens.Keys == m.s.tokens.Keys
    decreases |ids|
  {
    hide Inv;
    if ids == [] {
    } else {
      var id, rest := ids[0], ids[1..];
      assert ids == [id] + rest;
      var s1 := if id in m.s.tokens then m.s.(tokens := m.s.tokens[id := m.s.tokens[id].(wait := OnDecision)]) else m.s;
      AskedAgain(p, m.(reask := ids), id, rest, s1);
      if id in m.s.tokens {
        var kind := p.KindOf(m.s.tokens[id].node);
        var m1 := m.(s := s1);
        var m2 := if kind.BusinessRule? then Say(m1, DecisionRequested(m.s.tokens[id].node, kind.decision)) else m1;
        InvSame(p, m1.(reask := rest), m2.(reask := rest), {});
        ReaskKeeps(p, m2, rest);
      } else {
        ReaskKeeps(p, m, rest);
      }
    }
  }

  lemma Rests(p: Process, m: Machine)
    requires Inv(p, m, {}) && m.q == [] && (m.s.status.Active? ==> m.reask == [])
    ensures Inv(p, Idle(m.s), {})
  {
    hide Owned, Safe, LivesIn, TokenPlaces;
  }

  lemma CompletedRests(p: Process, s: Instance)
    requires Inv(p, Idle(s), {}) && s.tokens == map[]
    ensures Inv(p, Idle(s.(status := Status.Completed)), {})
  {
    hide Safe, LivesIn;
  }

  /** Settled: asked again what was halted, and complete if nothing is left. */
  lemma SettleRests(p: Process, m: Machine)
    requires Inv(p, m, {}) && m.q == []
    ensures Resting(p, Settle(p, m).s)
  {
    hide Inv, Reask;
    if !m.s.status.Active? {
      Rests(p, m);
    } else {
      InvSame(p, m, m.(reask := m.reask), {});
      ReaskKeeps(p, m, m.reask);
      var m1 := Reask(p, m, m.reask).(reask := []);
      Rests(p, m1);
      if m1.s.tokens == map[] {
        CompletedRests(p, m1.s);
      }
    }
  }

  /** The rest of a step, once its command has queued its moves. */
  ghost function Run(p: Process, m: Machine): Machine { Settle(p, Drain(p, m)) }

  /** A run that ends leaves the instance at rest. */
  lemma RunRests(p: Process, m: Machine)
    requires Linted(p) && Inv(p, m, {}) && Ends(p, m)
    ensures Resting(p, Run(p, m).s)
  {
    hide Linted, Inv, Ends, Drain, Settle;
    DrainKeeps(p, m);
    SettleRests(p, Drain(p, m));
  }
}
