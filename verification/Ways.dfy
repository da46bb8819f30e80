/** Which gateways a run can come to, read off the graph: every node that sequence
    flows lead to from the start, through no race. */
module Ways {
  import opened Basics
  import opened Json
  import opened Compiled
  import opened State
  import opened Advance
  import opened Step
  import opened Game
  import opened Invariant
  import opened Running
  import opened Repairing
  import opened Effects
  import opened Runs
  import opened Rings
  import opened Swapping
  import opened Lone
  import Conservation
  import Leaving
  import Deadlock

  /** A token at `u` leaves by a flow, whatever it waits for first. */
  predicate Flows(p: Process, u: NodeIx, w: NodeIx) {
    u < |p.nodes| && !p.KindOf(u).EventBasedGateway? && exists f :: f in p.Outgoing(u) && p.Target(f) == w
  }

  ghost predicate IsWay(p: Process, way: seq<NodeIx>, n: NodeIx) {
    && way != [] && way[0] == p.Begin() && way[|way| - 1] == n
    && (forall i :: 0 <= i < |way| - 1 ==> Flows(p, way[i], way[i + 1]))
  }

  /** Sequence flows lead to `n` from the start, through no race. */
  ghost predicate FlowLed(p: Process, n: NodeIx) {
    exists way :: IsWay(p, way, n)
  }

  // ---- what a token that waits is parked as

  /** Waiting at `n` itself, or the cause of a freeze that resumes there. */
  predicate WaitsAtNode(p: Process, s: Instance, id: TokenId, n: NodeIx) {
    && id in s.tokens
    && var t := s.tokens[id];
       || (s.status.Active? && t.node == n && Deadlock.Outer(t.wait))
       || (s.status.Failed? && t.wait.AtIncident? && p.ResumePoint(t.node) == n)
  }

  /** Parked on `element`, the instance frozen. */
  ghost predicate FrozenAt(s: Instance, id: TokenId, element: NodeIx) {
    id in s.tokens && s.tokens[id].wait.AtIncident? && s.tokens[id].node == element && s.status.Failed?
  }

  lemma FreezeParks(m: Machine, token: TokenId, element: NodeIx, code: Option<string>, detail: Option<string>)
    requires m.q == []
    ensures FrozenAt(Freeze(m, token, element, code, detail).s, token, element)
  {
    StripCalm(m, token);
    hide Stripped;
  }

  lemma ArmParks(p: Process, m: Machine, token: TokenId, n: NodeIx)
    requires m.q == []
    ensures var a := Arm(p, m, token, n);
            && (a.ok ==> a.m.s.tokens == m.s.tokens && a.m.s.status == m.s.status && a.m.q == [])
            && (!a.ok ==> FrozenAt(a.m.s, token, n))
  {
    hide ArmTimer, Subscribe;
    match p.KindOf(n)
    case TimerCatch(due) => TimerParks(p, m, token, n, due);
    case TimerBoundary(due, _) => TimerParks(p, m, token, n, due);
    case _ => SubscribeParks(p, m, token, n);
  }

  lemma TimerParks(p: Process, m: Machine, token: TokenId, n: NodeIx, due: TimerSource)
    requires m.q == []
    ensures var a := ArmTimer(p, m, token, n, due);
            && (a.ok ==> a.m.s.tokens == m.s.tokens && a.m.s.status == m.s.status && a.m.q == [])
            && (!a.ok ==> FrozenAt(a.m.s, token, n))
  {
    hide Freeze, Process.Resolve;
    FreezeParks(Say(m, TimerResolveFailed(n)), token, n, None, None);
  }

  lemma SubscribeParks(p: Process, m: Machine, token: TokenId, n: NodeIx)
    requires m.q == []
    ensures var a := Subscribe(p, m, token, n);
            && (a.ok ==> a.m.s.tokens == m.s.tokens && a.m.s.status == m.s.status && a.m.q == [])
            && (!a.ok ==> FrozenAt(a.m.s, token, n))
  {
    hide Freeze, ArmKey;
    FreezeParks(Say(m, CorrelationFailed(n)), token, n, None, None);
    forall message, key ensures FrozenAt(Freeze(Say(m, DuplicateSubscription(n, message, key)), token, n, None, None).s, token, n) {
      FreezeParks(Say(m, DuplicateSubscription(n, message, key)), token, n, None, None);
    }
  }

  lemma {:induction false} ArmAllParks(p: Process, m: Machine, token: TokenId, elements: seq<NodeIx>)
    requires m.q == []
    ensures var a := ArmAll(p, m, token, elements);
            && (a.ok ==> a.m.s.tokens == m.s.tokens && a.m.s.status == m.s.status)
            && (!a.ok ==> exists b :: b in elements && FrozenAt(a.m.s, token, b))
    decreases |elements|
  {
    hide Arm, FrozenAt;
    if elements == [] {
    } else {
      ArmParks(p, m, token, elements[0]);
      var first := Arm(p, m, token, elements[0]);
      if first.ok {
        ArmAllParks(p, first.m, token, elements[1..]);
        assert forall b :: b in elements[1..] ==> b in elements;
      } else {
        assert elements[0] in elements;
      }
    }
  }

  lemma ResumesAtBoundary(p: Process, n: NodeIx, b: NodeIx)
    requires BoundariesOk(p) && b in p.Boundaries(n)
    ensures p.ResumePoint(b) == n
  {
  }

  lemma ResumesHere(p: Process, n: NodeIx)
    requires !p.IsAlternative(n) && n !in p.hosts
    ensures p.ResumePoint(n) == n
  {
    if |p.Incoming(n)| == 1 {
      assert p.Incoming(n)[0] in p.Incoming(n);
    }
  }

  lemma HostParks(p: Process, m: Machine, token: TokenId, n: NodeIx, wait: Wait)
    requires BoundariesOk(p) && m.q == [] && m.s.status.Active? && Deadlock.Outer(wait)
    requires token in m.s.tokens && m.s.TokenAt(token) == Token(n, m.scope, wait)
    ensures WaitsAtNode(p, ArmAll(p, m, token, p.Boundaries(n)).m.s, token, n)
  {
    hide ArmAll, Process.ResumePoint, Process.Boundaries, BoundariesOk;
    ArmAllParks(p, m, token, p.Boundaries(n));
    var a := ArmAll(p, m, token, p.Boundaries(n));
    if !a.ok {
      var b :| b in p.Boundaries(n) && FrozenAt(a.m.s, token, b);
      ResumesAtBoundary(p, n, b);
    }
  }

  predicate Waiting(k: Kind) { k.Task? || k.BusinessRule? || k.TimerCatch? || k.MessageCatch? }

  /** A token that enters a node where tokens wait is parked there, or freezes there. */
  lemma ParksThere(p: Process, m: Machine, token: TokenId, n: NodeIx, via: Option<FlowIx>)
    requires BoundariesOk(p) && n !in p.hosts && !p.IsAlternative(n) && m.q == [] && m.s.status.Active? && Waiting(p.KindOf(n))
    ensures var o := Enter(p, m, token, n, via); o.Ok? && WaitsAtNode(p, o.m.s, token, n)
  {
    hide BoundariesOk, ArmAll, ArmTimer, Subscribe, Process.IsAlternative, Process.ResumePoint;
    ResumesHere(p, n);
    match p.KindOf(n)
    case BusinessRule(_, _) =>
    case Task(work, topic) =>
      var item := m.s.nextItem;
      var m1 := Started(m, n);
      var m2 := m1.(s := m1.s.(items := m1.s.items[item := Item(n, token, work, topic, true)], nextItem := item + 1));
      HostParks(p, Say(Park(m2, token, n, OnItem(item)), WorkItemCreated(item, n, work, topic)), token, n, OnItem(item));
    case TimerCatch(due) => TimerParks(p, Started(m, n), token, n, due);
    case MessageCatch(_, _) =>
      SubscribeParks(p, Started(m, n), token, n);
      var armed := Subscribe(p, Started(m, n), token, n);
      if armed.ok {
        HostParks(p, Park(armed.m, token, n, OnMessage(m.s.nextSub)), token, n, OnMessage(m.s.nextSub));
      }
  }

  // ---- after the step, and into the next

  /** Asking halted decisions again leaves such a token as it is. */
  lemma SettleLeaves(p: Process, m: Machine, id: TokenId, n: NodeIx)
    requires Inv(p, m, {}) && m.q == [] && WaitsAtNode(p, m.s, id, n)
    ensures WaitsAtNode(p, Settle(p, m).s, id, n)
  {
    hide Owned, Safe, Inhabited, Everybody, StatusOk, QueueOk, Reask;
    if m.s.status.Active? {
      Conservation.ReaskIs(p, m, m.reask);
    }
  }

  /** The command that sends such a token on. */
  ghost predicate SendsOn(p: Process, s: Instance, c: Command, w: NodeIx) {
    var o := OpenCommand(p, s, c);
    o.Opened? && |o.At().q| > 0 && o.At().Head().node == w
  }

  lemma OnlyWayOut(p: Process, n: NodeIx, w: NodeIx)
    requires WellFormed(p) && Flows(p, n, w) && Waiting(p.KindOf(n))
    ensures |p.Outgoing(n)| == 1 && p.Target(p.OnlyFlow(n)) == w
  {
    assert ShapeOk(p, n);
  }

  lemma WaiterOwns(p: Process, s: Instance, id: TokenId)
    requires Inv(p, Idle(s), {}) && id in s.tokens
    ensures var t := s.TokenAt(id);
            && (t.wait.OnItem? ==> t.wait.Ref() in s.items && s.ItemAt(t.wait.Ref()).open && s.ItemAt(t.wait.Ref()).token == id && s.ItemAt(t.wait.Ref()).element == t.node)
            && (t.wait.OnTimer? ==> t.wait.Ref() in s.timers && s.TimerAt(t.wait.Ref()).token == id && s.TimerAt(t.wait.Ref()).element == t.node)
            && (t.wait.OnMessage? ==> t.wait.Ref() in s.subs && s.SubAt(t.wait.Ref()).token == id && s.SubAt(t.wait.Ref()).element == t.node)
  {
    assert TokenOk(p, s, id, s.tokens[id]);
  }

  lemma WaiterGoesOn(p: Process, s: Instance, id: TokenId, n: NodeIx, w: NodeIx) returns (c: Command)
    requires Linted(p) && Resting(p, s) && WaitsAtNode(p, s, id, n) && s.status.Active? && Waiting(p.KindOf(n)) && Flows(p, n, w)
    ensures SendsOn(p, s, c, w)
  {
    hide Certified, SidePathsOk, WellFormed, Inv, OpenCompleteWorkItem, OpenCompleteDecision, OpenFireTimer, OpenDeliverMessage, Leaving.Freed, Flows, Merge, Assign;
    OnlyWayOut(p, n, w);
    WaiterOwns(p, s, id);
    match s.tokens[id].wait
    case OnItem(i) =>
      WorkSends(p, s, i, EMPTY);
      c := Command.CompleteWorkItem(i, EMPTY);
    case OnDecision =>
      AnswerSends(p, s, id, Null, None);
      c := Command.CompleteDecision(id, Some(Null), None);
    case OnTimer(k) =>
      TimerSends(p, s, k);
      c := Command.FireTimer(k);
    case OnMessage(k) =>
      MessageSends(p, s, k, EMPTY);
      c := Command.DeliverMessage(k, EMPTY);
  }

  lemma OneCauseHere(p: Process, s: Instance, id: TokenId)
    requires Inv(p, Idle(s), {}) && s.status.Failed? && id in s.tokens && s.TokenAt(id).wait.AtIncident?
    ensures Sorted(Causes(s)) == [id] && |Causes(s)| == 1 && s.OpenIncident().Some?
  {
    CausesAre(p, s);
    hide Inv;
    assert id in Causes(s) && id in Sorted(Causes(s));
  }

  /** A repair that goes past where the token froze. */
  lemma CauseGoesPast(p: Process, s: Instance, id: TokenId, n: NodeIx, w: NodeIx) returns (c: Command)
    requires Linted(p) && Resting(p, s) && WaitsAtNode(p, s, id, n) && s.status.Failed? && Waiting(p.KindOf(n)) && Flows(p, n, w)
    ensures SendsOn(p, s, c, w)
  {
    hide Certified, SidePathsOk, WellFormed, Inv, OpenRepair, Flows, Causes, Sorted, Blank, RepairedDocument, Process.ResumePoint;
    OnlyWayOut(p, n, w);
    OneCauseHere(p, s, id);
    var d := AdvancePast(EMPTY, if p.KindOf(n).BusinessRule? then Some(Null) else None);
    var incident := s.OpenIncident().value;
    NotBlank();
    assert RepairRefusal(p, s, incident, d, "r").None?;
    RepairSends(p, s, incident, d, "r");
    hide RepairRefusal;
    c := Repair(incident, d, "r");
    var token, way :| GoesItsWay(p, s, id, d, token, way, OpenRepair(p, s, incident, d, "r").At());
  }

  lemma NotBlank()
    ensures !Blank("r")
  {
    assert "r"[0] in "r";
  }

  lemma GoesOnFrom(p: Process, s: Instance, id: TokenId, n: NodeIx, w: NodeIx) returns (c: Command)
    requires Linted(p) && Resting(p, s) && WaitsAtNode(p, s, id, n) && Waiting(p.KindOf(n)) && Flows(p, n, w)
    ensures SendsOn(p, s, c, w)
  {
    hide Linted, Resting, SendsOn, Flows, Process.ResumePoint;
    if s.status.Active? {
      c := WaiterGoesOn(p, s, id, n, w);
    } else {
      c := CauseGoesPast(p, s, id, n, w);
    }
  }

  // ---- one edge further

  /** Whatever the document, a gateway at `n` chooses a flow to `w`. */
  ghost predicate ChoosesOnly(p: Process, n: NodeIx, w: NodeIx) {
    p.KindOf(n).ExclusiveGateway? &&
    forall v :: var f := Chosen(p, n, p.KindOf(n).defaultFlow, v); f.Some? && p.Target(f.value) == w
  }

  lemma HeadMay(p: Process, m: Machine)
    requires WellFormed(p) && Inv(p, m, {}) && m.q != []
    ensures var n := m.Head().node; n < |p.nodes| && m.s.status.Active? && n !in p.hosts && !p.IsAlternative(n)
  {
    HeadIsNode(p, m);
    assert MoveOk(p, m.s, m.q[0]);
    hide Inv, Process.IsAlternative;
    assert !p.IsBoundary(m.q[0].node);
  }

  /** What one more move gives at a node where tokens wait: the step is over. */
  lemma StepParks(p: Process, m0: Machine, k: nat, n: NodeIx) returns (id: TokenId)
    requires Linted(p) && OneWay(p) && Inv(p, m0, {}) && |m0.q| <= 1 && Comes(p, m0, k, {n}) && Waiting(p.KindOf(n))
    ensures EndsIn(p, m0, k + 1) && Inv(p, Advanced(p, m0, k + 1).m, {})
    ensures WaitsAtNode(p, Advanced(p, m0, k + 1).m.s, id, n)
  {
    hide Certified, SidePathsOk, WellFormed, OneWay, Inv, Enter, Advanced, WaitsAtNode, Process.IsAlternative;
    AdvancedAlone(p, m0, k);
    AdvancedAlone(p, m0, k + 1);
    AdvancedThen(p, m0, k);
    var at := Advanced(p, m0, k).m;
    HeadMay(p, at);
    Lone.NoScopes(p, at);
    var mv := at.q[0];
    assert mv in at.q && at.q[1..] == [];
    BoundariesIn(p);
    var m := at.(q := [], scope := ROOT);
    ParksThere(p, m, mv.token, n, mv.via);
    RestsThere(p, m, mv.token, n, mv.via);
    id := mv.token;
  }

  lemma BoundariesIn(p: Process)
    requires WellFormed(p)
    ensures BoundariesOk(p)
  {
  }

  /** From a node where tokens wait. */
  lemma WaitsThenGoes(p: Process, commands: seq<Command>, c: Command, k: nat, n: NodeIx, w: NodeIx) returns (next: Command)
    requires Linted(p) && OneWay(p) && Enters(p, commands, c, k, {n}) && Waiting(p.KindOf(n)) && Flows(p, n, w)
    ensures Enters(p, commands + [c], next, 0, {w})
  {
    hide Linted, OneWay, Inv, After, OpenCommand, Advanced, Resting, Comes, WaitsAtNode, Flows, Settle;
    var s := After(p, commands).s;
    OpenSound(p, s, c);
    var m := OpenCommand(p, s, c).m;
    MovesAlone(p, commands, c, 0);
    NoMoves(p, m);
    var id := StepParks(p, m, k, n);
    var r := Advanced(p, m, k + 1).m;
    StepGives(p, s, c, m, k + 1, r);
    SettleLeaves(p, r, id, n);
    AfterOne(p, commands, c);
    var s' := After(p, commands + [c]).s;
    next := GoesOnFrom(p, s', id, n, w);
    SentComes(p, s', next, w);
  }

  lemma SentComes(p: Process, s: Instance, c: Command, w: NodeIx)
    requires SendsOn(p, s, c, w)
    ensures OpenCommand(p, s, c).Opened? && Comes(p, OpenCommand(p, s, c).At(), 0, {w})
  {
    hide OpenCommand;
  }

  // ---- from a gateway

  /** The same process, but that the conditions out of `n` choose `f`. */
  function Picking(p: Process, n: NodeIx, f: FlowIx): Process {
    p.(flows := seq(|p.flows|, g requires 0 <= g < |p.flows| =>
         if p.flows[g].source == n then p.flows[g].(condition := Some((v: Value) => g == f)) else p.flows[g]))
  }

  lemma PickingApart(p: Process, n: NodeIx, f: FlowIx)
    ensures Apart(p, Picking(p, n, f), {n})
  {
    var p' := Picking(p, n, f);
    forall g: FlowIx
      ensures p'.Target(g) == p.Target(g) && p'.Source(g) == p.Source(g)
      ensures p.Source(g) != n ==> p'.FlowAt(g).condition == p.FlowAt(g).condition
    {
      if g < |p.flows| {
        assert p'.flows[g].source == p.flows[g].source && p'.flows[g].target == p.flows[g].target;
      }
    }
  }

  lemma PickingHolds(p: Process, n: NodeIx, f: FlowIx, g: FlowIx, v: Value)
    requires g < |p.flows| && p.Source(g) == n
    ensures Holds(Picking(p, n, f), g, v) <==> g == f
  {
  }

  lemma {:induction false} FirstPicked(p: Process, n: NodeIx, f: FlowIx, flows: seq<FlowIx>, d: Option<FlowIx>, v: Value)
    requires forall i :: 0 <= i < |flows| ==> flows[i] < |p.flows| && p.Source(flows[i]) == n
    ensures FirstHolding(Picking(p, n, f), flows, d, v) == if f in flows && Some(f) != d then Some(f) else d
    decreases |flows|
  {
    if flows == [] {
    } else {
      PickingHolds(p, n, f, flows[0], v);
      hide Picking, Holds;
      FirstPicked(p, n, f, flows[1..], d, v);
    }
  }

  lemma PickedIsChosen(p: Process, n: NodeIx, f: FlowIx, v: Value)
    requires WellFormed(p) && p.KindOf(n).ExclusiveGateway? && f in p.Outgoing(n)
    ensures Chosen(Picking(p, n, f), n, p.KindOf(n).defaultFlow, v) == Some(f)
  {
    SplitFlows(p, n);
    var out := p.Outgoing(n);
    assert Picking(p, n, f).Outgoing(n) == out && forall i :: 0 <= i < |out| ==> out[i] in out;
    hide Picking, WellFormed;
    FirstPicked(p, n, f, out, p.KindOf(n).defaultFlow, v);
  }

  /** Over the move that enters a start or a gateway. */
  lemma PassesComes(p: Process, commands: seq<Command>, c: Command, k: nat, n: NodeIx, w: NodeIx)
    requires Linted(p) && OneWay(p) && Enters(p, commands, c, k, {n}) && Flows(p, n, w)
    requires p.KindOf(n).Start? || ChoosesOnly(p, n, w)
    ensures Enters(p, commands, c, k + 1, {w})
  {
    hide Certified, SidePathsOk, WellFormed, OneWay, Inv, After, OpenCommand, Advanced, Resting, Flows, Chosen;
    MovesAlone(p, commands, c, k);
    MovesAlone(p, commands, c, k + 1);
    var m := OpenCommand(p, After(p, commands).s, c).m;
    AdvancedThen(p, m, k);
    PassesTo(p, Advanced(p, m, k).m, n, w);
  }

  lemma PassesTo(p: Process, m: Machine, n: NodeIx, w: NodeIx)
    requires WellFormed(p) && |m.q| == 1 && m.Head().node == n && Flows(p, n, w) && Advance1(p, m).Ok?
    requires p.KindOf(n).Start? || ChoosesOnly(p, n, w)
    ensures Advance1(p, m).m.q != [] && Advance1(p, m).m.Head().node == w
  {
    assert m.q[1..] == [];
    if p.KindOf(n).Start? {
      assert ShapeOk(p, n);
    }
    hide WellFormed, Chosen;
  }

  lemma PicksComes(p: Process, commands: seq<Command>, c: Command, k: nat, n: NodeIx, w: NodeIx)
    requires Linted(p) && OneWay(p) && Enters(p, commands, c, k, {n}) && p.KindOf(n).ExclusiveGateway? && Flows(p, n, w)
    ensures ComeTo(p, {w})
  {
    hide Certified, SidePathsOk, WellFormed, OneWay, Enters, Picking, SameGraph, Chosen;
    var f :| f in p.Outgoing(n) && p.Target(f) == w;
    var p' := Picking(p, n, f);
    PickingApart(p, n, f);
    SameLinted(p, p');
    OneWayToo(p, p');
    var before, first, moves := FirstEntry(p, commands, c, k, {n});
    EntersToo(p, p', {n}, before, first, moves);
    SameFlows(p, p', n);
    forall v ensures Chosen(p', n, p'.KindOf(n).defaultFlow, v) == Some(f) {
      PickedIsChosen(p, n, f, v);
    }
    assert |p'.nodes| == |p.nodes| by { SameNodes(p, p'); }
    PassesComes(p', before, first, moves, n, w);
    assert EntersOn(p, p', before, first, moves + 1, {w});
  }

  lemma EnteredNode(p: Process, commands: seq<Command>, c: Command, k: nat, n: NodeIx, w: NodeIx)
    requires Linted(p) && OneWay(p) && Enters(p, commands, c, k, {n}) && Flows(p, n, w)
    ensures p.KindOf(n).Start? || p.KindOf(n).ExclusiveGateway? || Waiting(p.KindOf(n))
  {
    hide Certified, SidePathsOk, Inv, After, OpenCommand, Advanced, Resting, FlowsWired, StaticScopesOk;
    MovesAlone(p, commands, c, k);
    var at := Advanced(p, OpenCommand(p, After(p, commands).s, c).m, k).m;
    HeadMay(p, at);
    assert ShapeOk(p, n) && !p.IsBoundary(n);
  }

  /** Where a token can come to it can also go on from, by any flow but a race's. */
  lemma OneFurther(p: Process, u: NodeIx, w: NodeIx)
    requires Linted(p) && OneWay(p) && ComeTo(p, {u}) && Flows(p, u, w)
    ensures ComeTo(p, {w})
  {
    hide Linted, OneWay, Enters, SameGraph;
    var p', commands, c, k: nat :| EntersOn(p, p', commands, c, k, {u});
    OneWayToo(p, p');
    FlowsToo(p, p', u, w);
    EnteredNode(p', commands, c, k, u, w);
    if Waiting(p'.KindOf(u)) {
      var next := WaitsThenGoes(p', commands, c, k, u, w);
      assert EntersOn(p, p', commands + [c], next, 0, {w});
    } else if p'.KindOf(u).Start? {
      PassesComes(p', commands, c, k, u, w);
      assert EntersOn(p, p', commands, c, k + 1, {w});
    } else {
      PicksComes(p', commands, c, k, u, w);
      var p'', commands', c', k': nat :| EntersOn(p', p'', commands', c', k', {w});
      SameTwice(p, p', p'');
      assert EntersOn(p, p'', commands', c', k', {w});
    }
  }

  lemma FlowsToo(p: Process, p': Process, u: NodeIx, w: NodeIx)
    requires SameGraph(p, p') && Flows(p, u, w)
    ensures Flows(p', u, w)
  {
    SameFlows(p, p', u);
    assert |p'.nodes| == |p.nodes|;
    hide SameGraph;
  }

  lemma StartIsComeTo(p: Process)
    requires Linted(p)
    ensures ComeTo(p, {p.Begin()})
  {
    var o := OpenCommand(p, NEW_INSTANCE, StartWith(Null));
    assert o.Opened? && o.m.q[0].node == p.Begin();
    assert After(p, []).s == NEW_INSTANCE;
    hide Linted, OpenCommand, After;
    assert Comes(p, o.m, 0, {p.Begin()});
    assert Enters(p, [], StartWith(Null), 0, {p.Begin()});
    assert EntersOn(p, p, [], StartWith(Null), 0, {p.Begin()});
  }

  lemma {:induction false} WayIsComeTo(p: Process, way: seq<NodeIx>, n: NodeIx)
    requires Linted(p) && OneWay(p) && IsWay(p, way, n)
    ensures ComeTo(p, {n})
    decreases |way|
  {
    hide Linted, OneWay, ComeTo, Flows;
    if |way| == 1 {
      StartIsComeTo(p);
    } else {
      var front, u := way[..|way| - 1], way[|way| - 2];
      assert Flows(p, u, way[|way| - 2 + 1]);
      assert IsWay(p, front, u);
      WayIsComeTo(p, front, u);
      OneFurther(p, u, n);
    }
  }

  /** Without parallel gateways and subprocesses, where sequence flows lead to every
      exclusive gateway through no race: some step of some run fails to return, under
      some conditions, if and only if some cycle is free of waits. */
  lemma QuiescenceExactlyWhen(p: Process)
    requires Linted(p) && OneWay(p)
    requires forall n: NodeIx :: n < |p.nodes| && p.KindOf(n).ExclusiveGateway? ==> FlowLed(p, n)
    ensures SomeStepSpins(p) <==> !NoWaitFreeCycle(p)
  {
    hide Linted, OneWay, ComeTo, IsWay, SomeStepSpins, NoWaitFreeCycle;
    forall n: NodeIx | n < |p.nodes| && p.KindOf(n).ExclusiveGateway? ensures ComeTo(p, {n}) {
      var way :| IsWay(p, way, n);
      WayIsComeTo(p, way, n);
    }
    ReturnsExactlyWhenNoCycle(p);
  }
}
