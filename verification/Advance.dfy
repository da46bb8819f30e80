/** What every move of the advancer does to a machine: the instance, the queue
    of moves in flight, and the events said so far. Sweeps over ids are given
    here without their loops; module Engine runs the loops. */
module Advance {
  import opened Basics
  import opened Json
  import opened Compiled
  import opened State

  /** A token in flight: it lives in the queue rather than in the state. */
  datatype Move = Move(token: TokenId, node: NodeIx, via: Option<FlowIx>, scope: ScopeId)
  {
    /** The flow it comes by, where it comes by one. */
    function Came(): FlowIx { if via.Some? then via.value else 0 }
  }

  datatype Machine = Machine(
    s: Instance,
    q: seq<Move>,
    ev: seq<Event>,
    // The runtime scope of the move being processed.
    scope: ScopeId,
    // Halted decisions a repair asks again once its moves have settled.
    reask: seq<TokenId>)
  {
    /** The next move; a move of nobody when there is none. */
    function Head(): Move { if q == [] then Move(0, 0, None, ROOT) else q[0] }
  }

  function Idle(s: Instance): Machine { Machine(s, [], [], ROOT, []) }

  /** `Poisoned` is the internal-invariant error, a bug in the engine: `m` is the
      machine it was met in. */
  datatype Outcome = Ok(m: Machine) | Poisoned(m: Machine)

  /** `ok` is false when the arm could not be made and the instance froze on it. */
  datatype Arming = Arming(m: Machine, ok: bool)

  // ---- saying, leaving, parking

  function Say(m: Machine, e: Event): Machine { m.(ev := m.ev + [e]) }

  function Started(m: Machine, n: NodeIx): Machine { Say(m, ElementStarted(n)) }

  function Finished(m: Machine, n: NodeIx): Machine { Say(m, ElementCompleted(n)) }

  function Leave(p: Process, m: Machine, token: TokenId, f: FlowIx): Machine {
    Say(m, FlowTaken(f)).(q := m.q + [Move(token, p.Target(f), Some(f), m.scope)])
  }

  function LeaveSingle(p: Process, m: Machine, token: TokenId, n: NodeIx): Outcome {
    if |p.Outgoing(n)| == 1 then Ok(Leave(p, m, token, p.Outgoing(n)[0])) else Poisoned(m)
  }

  function Park(m: Machine, token: TokenId, n: NodeIx, wait: Wait): Machine {
    m.(s := m.s.(tokens := m.s.tokens[token := Token(n, m.scope, wait)]))
  }

  function Unpark(m: Machine, ids: set<TokenId>): Machine {
    m.(s := m.s.(tokens := m.s.tokens - ids))
  }

  function FreshToken(m: Machine): Machine { m.(s := m.s.(nextToken := m.s.nextToken + 1)) }

  // ---- withdrawing

  function TimerCancels(timers: map<TimerId, Timer>, ids: seq<TimerId>): seq<Event> {
    seq(|ids|, i requires 0 <= i < |ids| => TimerCancelled(ids[i], if ids[i] in timers then timers[ids[i]].element else 0))
  }

  function SubCancels(subs: map<SubId, Sub>, ids: seq<SubId>): seq<Event> {
    seq(|ids|, i requires 0 <= i < |ids| =>
      if ids[i] in subs then SubscriptionCancelled(ids[i], subs[ids[i]].element, subs[ids[i]].message) else SubscriptionCancelled(ids[i], 0, ""))
  }

  function ItemCancels(items: map<ItemId, Item>, ids: seq<ItemId>): seq<Event> {
    seq(|ids|, i requires 0 <= i < |ids| => WorkItemCancelled(ids[i], if ids[i] in items then items[ids[i]].element else 0))
  }

  /** Timers first, then subscriptions, each in id order. */
  function Withdraw(m: Machine, ts: set<TimerId>, us: set<SubId>): Machine {
    m.(s := m.s.(timers := m.s.timers - ts, subs := m.s.subs - us),
       ev := m.ev + TimerCancels(m.s.timers, Sorted(ts)) + SubCancels(m.s.subs, Sorted(us)))
  }

  function WithdrawArms(m: Machine, token: TokenId): Machine {
    Withdraw(m, m.s.TimersOf({token}), m.s.SubsOf({token}))
  }

  function Closed(items: map<ItemId, Item>, ids: set<ItemId>): map<ItemId, Item> {
    map i | i in items :: if i in ids then items[i].(open := false) else items[i]
  }

  function CancelItems(m: Machine, ids: set<ItemId>): Machine {
    m.(s := m.s.(items := Closed(m.s.items, ids)),
       ev := m.ev + ItemCancels(m.s.items, Sorted(ids)))
  }

  // ---- tearing a scope down

  function ReapOneEvents(s: Instance, token: TokenId): seq<Event> {
    ItemCancels(s.items, Sorted(s.OpenItemsOf({token})))
    + TimerCancels(s.timers, Sorted(s.TimersOf({token})))
    + SubCancels(s.subs, Sorted(s.SubsOf({token})))
  }

  function ReapEvents(s: Instance, tokens: seq<TokenId>): seq<Event> {
    if tokens == [] then []
    else ReapEvents(s, tokens[..|tokens| - 1]) + ReapOneEvents(s, tokens[|tokens| - 1])
  }

  /** Open work and arms of the tokens in `ids` go. */
  function Disowned(s: Instance, ids: set<TokenId>): Instance {
    s.(items := Closed(s.items, s.OpenItemsOf(ids)),
       timers := s.timers - s.TimersOf(ids),
       subs := s.subs - s.SubsOf(ids))
  }

  /** Every token in `ids` goes, with its open work and its arms. */
  function Reaped(s: Instance, ids: set<TokenId>): Instance {
    Disowned(s, ids).(tokens := s.tokens - ids)
  }

  function Spared(q: seq<Move>, doomed: set<ScopeId>): seq<Move> {
    if q == [] then []
    else
      var rest := Spared(q[..|q| - 1], doomed);
      if q[|q| - 1].scope in doomed then rest else rest + [q[|q| - 1]]
  }

  /** Everything inside `scope` and its nested scopes goes; the entry of `scope`
      itself is left for the caller to close. */
  function TearDown(m: Machine, scope: ScopeId): Machine {
    var doomed := Subtree(m.s.scopes, scope);
    var gone := m.s.TokensWithin(doomed);
    m.(s := Reaped(m.s, gone).(scopes := m.s.scopes - (doomed - {scope})),
       q := Spared(m.q, doomed),
       ev := m.ev + ReapEvents(m.s, Sorted(gone)))
  }

  function DropScope(m: Machine, scope: ScopeId): Machine {
    m.(s := m.s.(scopes := m.s.scopes - {scope}))
  }

  // ---- completing a scope

  predicate ScopeIsEmpty(m: Machine, scope: ScopeId) {
    && (forall t :: t in m.s.tokens ==> m.s.tokens[t].scope != scope)
    && (forall i :: 0 <= i < |m.q| ==> m.q[i].scope != scope)
  }

  function CompleteScope(p: Process, m: Machine, scope: ScopeId): Outcome {
    if scope !in m.s.scopes then Poisoned(m)
    else
      var closed := m.s.ScopeAt(scope);
      var m1 := Finished(WithdrawArms(DropScope(m, scope), closed.token), closed.element);
      if closed.token !in m1.s.tokens then Poisoned(m1)
      else LeaveSingle(p, Unpark(m1, {closed.token}).(scope := closed.parent), closed.token, closed.element)
  }

  function CompleteScopeIfEmpty(p: Process, m: Machine, scope: ScopeId): Outcome {
    if scope == ROOT || !ScopeIsEmpty(m, scope) then Ok(m) else CompleteScope(p, m, scope)
  }

  /** End the instance: every open item and arm withdrawn, everything gone. */
  function Terminate(m: Machine): Machine {
    var open := set i | i in m.s.items && m.s.items[i].open;
    var m1 := Withdraw(CancelItems(m, open), m.s.timers.Keys, m.s.subs.Keys);
    Say(m1.(s := m1.s.(tokens := map[], scopes := map[], status := Status.Terminated), q := []), InstanceTerminated)
  }

  // ---- the freeze

  function InFlightTokens(q: seq<Move>): map<TokenId, Token> {
    if q == [] then map[]
    else
      var mv := q[|q| - 1];
      InFlightTokens(q[..|q| - 1])[mv.token := Token(mv.node, mv.scope, Halted(InFlight(mv.via)))]
  }

  function HaltDecision(t: Token): Token {
    if t.wait.OnDecision? then t.(wait := Halted(AwaitingDecision)) else t
  }

  function HaltDecisions(tokens: map<TokenId, Token>): map<TokenId, Token> {
    map id | id in tokens :: HaltDecision(tokens[id])
  }

  /** The scope a parked token waits on is torn down and closed with it. */
  function DropChildScope(m: Machine, token: TokenId): Machine {
    if token in m.s.tokens && m.s.tokens[token].wait.OnScope?
    then var child := m.s.tokens[token].wait.child; DropScope(TearDown(m, child), child)
    else m
  }

  /** What the token holds is withdrawn; a scope it waits on goes with it. */
  function Stripped(m: Machine, token: TokenId): Machine {
    var m1 := WithdrawArms(m, token);
    DropChildScope(CancelItems(m1, m1.s.OpenItemsOf({token})), token)
  }

  /** The cause parked, everything else halted where it stands. */
  function Iced(s: Instance, q: seq<Move>, token: TokenId, element: NodeIx, scope: ScopeId): Instance {
    s.(tokens := HaltDecisions(s.tokens[token := Token(element, scope, AtIncident)]) + InFlightTokens(q),
       status := Failed,
       nextIncident := s.nextIncident + 1)
  }

  /** Withdraw what the token holds, park it as the cause, halt the rest. */
  function Freeze(m: Machine, token: TokenId, element: NodeIx, code: Option<string>, detail: Option<string>): Machine {
    var m1 := Stripped(m, token);
    var scope := if token in m1.s.tokens then m1.s.tokens[token].scope else m1.scope;
    Say(m1.(s := Iced(m1.s, m1.q, token, element, scope), q := []),
        IncidentRaised(element, code, detail, m1.s.nextIncident))
  }

  // ---- arming

  datatype Key = Key(message: string, key: string) | Unusable | Duplicate(message: string, key: string)

  /** What a message arm opens with against `variables`, or why it cannot. */
  function ArmKey(p: Process, s: Instance, variables: Value, element: NodeIx, excluding: Option<SubId>): Key {
    var kind := p.KindOf(element);
    if !kind.MessageCatch? && !kind.MessageBoundary? then Unusable
    else
      var text := KeyText(Resolve(variables, kind.key));
      if text.None? then Unusable
      else if exists id :: id in s.subs && Some(id) != excluding
                           && s.subs[id].message == kind.message && s.subs[id].key == text.value
      then Duplicate(kind.message, text.value)
      else Key(kind.message, text.value)
  }

  function RecordTimer(m: Machine, token: TokenId, element: NodeIx, due: TimerDue,
                       remaining: Option<nat>, continues: Option<TimerId>): Machine
  {
    var id := m.s.nextTimer;
    Say(m.(s := m.s.AddTimer(Timer(element, token, due, remaining))),
        TimerArmed(id, element, due, token, continues, remaining))
  }

  function ArmTimer(p: Process, m: Machine, token: TokenId, element: NodeIx, source: TimerSource): Arming {
    match p.Resolve(source, m.s.variables)
    case None => Arming(Freeze(Say(m, TimerResolveFailed(element)), token, element, None, None), false)
    case Some(due) =>
      var remaining := if due.Cycle? then p.repeats(due.text) else None;
      Arming(RecordTimer(m, token, element, due, remaining, None), true)
  }

  function OpenSub(m: Machine, token: TokenId, element: NodeIx, message: string, key: string): Machine {
    var id := m.s.nextSub;
    Say(m.(s := m.s.AddSub(Sub(element, token, message, key))),
        MessageSubscribed(id, element, message, key, token))
  }

  function Subscribe(p: Process, m: Machine, token: TokenId, element: NodeIx): Arming {
    match ArmKey(p, m.s, m.s.variables, element, None)
    case Key(message, key) => Arming(OpenSub(m, token, element, message, key), true)
    case Unusable => Arming(Freeze(Say(m, CorrelationFailed(element)), token, element, None, None), false)
    case Duplicate(message, key) =>
      Arming(Freeze(Say(m, DuplicateSubscription(element, message, key)), token, element, None, None), false)
  }

  /** One arm: a timer for a timer element, a subscription for a message one. */
  function Arm(p: Process, m: Machine, token: TokenId, element: NodeIx): Arming {
    match p.KindOf(element)
    case TimerCatch(due) => ArmTimer(p, m, token, element, due)
    case TimerBoundary(due, _) => ArmTimer(p, m, token, element, due)
    case _ => Subscribe(p, m, token, element)
  }

  /** Arm in order, stopping at the first that cannot. */
  function ArmAll(p: Process, m: Machine, token: TokenId, elements: seq<NodeIx>): Arming
    decreases |elements|
  {
    if elements == [] then Arming(m, true)
    else
      var first := Arm(p, m, token, elements[0]);
      if first.ok then ArmAll(p, first.m, token, elements[1..]) else first
  }

  /** A cycle fired: arm the next occurrence, unless that was the last. */
  function RearmCycle(m: Machine, fired: TimerId, timer: Timer): Machine {
    if !timer.due.Cycle? then m
    else
      var left := if timer.remaining.None? then None
                  else if timer.remaining.value == 0 then Some(0)
                  else Some(timer.remaining.value - 1);
      if left == Some(0) then m
      else RecordTimer(m, timer.token, timer.element, timer.due, left, Some(fired))
  }

  // ---- boundaries and races

  function SpawnSideToken(p: Process, m: Machine, boundary: NodeIx): Outcome {
    LeaveSingle(p, Finished(Started(FreshToken(m), boundary), boundary), m.s.nextToken, boundary)
  }

  function InterruptToBoundary(p: Process, m: Machine, token: TokenId, boundary: NodeIx): Outcome {
    if token !in m.s.tokens then Poisoned(m)
    else
      var parked := m.s.TokenAt(token);
      var m1 := Unpark(m, {token});
      var m2 := if parked.wait.OnScope? then DropScope(TearDown(m1, parked.wait.child), parked.wait.child) else m1;
      var m3 := WithdrawArms(m2.(scope := parked.scope), token);
      LeaveSingle(p, Finished(Started(m3, boundary), boundary), token, boundary)
  }

  /** End the host's own wait, then take the boundary path. */
  function InterruptHost(p: Process, m: Machine, token: TokenId, boundary: NodeIx): Outcome {
    if token !in m.s.tokens then Poisoned(m)
    else match m.s.TokenAt(token).wait
      case OnItem(item) =>
        if item !in m.s.items then Poisoned(m)
        else
          var m1 := Say(m.(s := m.s.(items := Closed(m.s.items, {item}))), WorkItemCancelled(item, m.s.ItemAt(item).element));
          InterruptToBoundary(p, m1, token, boundary)
      case OnMessage(sub) =>
        if sub !in m.s.subs then Poisoned(m)
        else InterruptToBoundary(p, Withdraw(m, {}, {sub}), token, boundary)
      case OnScope(_) => InterruptToBoundary(p, m, token, boundary)
      case _ => Poisoned(m)
  }

  function FlowTo(p: Process, flows: seq<FlowIx>, n: NodeIx): Option<FlowIx> {
    if flows == [] then None
    else if p.Target(flows[0]) == n then Some(flows[0])
    else FlowTo(p, flows[1..], n)
  }

  /** Complete the gateway and walk to the winning catch and past it; the catch
      is not entered, its wait already happened. */
  function TakeGatewayPath(p: Process, m: Machine, token: TokenId, gateway: NodeIx, winner: NodeIx): Outcome {
    var m1 := Finished(Unpark(m, {token}), gateway);
    match FlowTo(p, p.Outgoing(gateway), winner)
    case None => Poisoned(m)
    case Some(f) =>
      LeaveSingle(p, Finished(Started(Say(m1, FlowTaken(f)), winner), winner), token, winner)
  }

  // ---- entering a node

  /** The token parked on a new open item. */
  function OpenItem(m: Machine, token: TokenId, n: NodeIx, work: WorkKind, topic: string): Machine {
    var item := m.s.nextItem;
    Say(Park(m.(s := m.s.AddItem(Item(n, token, work, topic, true))), token, n, OnItem(item)), WorkItemCreated(item, n, work, topic))
  }

  function EnterTask(p: Process, m: Machine, token: TokenId, n: NodeIx, work: WorkKind, topic: string): Machine {
    ArmAll(p, OpenItem(Started(m, n), token, n, work, topic), token, p.Boundaries(n)).m
  }

  function EnterDecision(p: Process, m: Machine, token: TokenId, n: NodeIx, decision: string): Machine {
    Say(Park(Started(m, n), token, n, OnDecision), DecisionRequested(n, decision))
  }

  function EnterTimerCatch(p: Process, m: Machine, token: TokenId, n: NodeIx, due: TimerSource): Machine {
    var armed := ArmTimer(p, Started(m, n), token, n, due);
    if armed.ok then Park(armed.m, token, n, OnTimer(m.s.nextTimer)) else armed.m
  }

  function EnterMessageCatch(p: Process, m: Machine, token: TokenId, n: NodeIx): Machine {
    var armed := Subscribe(p, Started(m, n), token, n);
    if armed.ok
    then ArmAll(p, Park(armed.m, token, n, OnMessage(m.s.nextSub)), token, p.Boundaries(n)).m
    else armed.m
  }

  function Targets(p: Process, flows: seq<FlowIx>): seq<NodeIx> {
    seq(|flows|, i requires 0 <= i < |flows| => p.Target(flows[i]))
  }

  /** Every alternative is armed on the gateway's token, in declaration order.
      An alternative that is not a catch is the internal error. */
  function EnterEventGateway(p: Process, m: Machine, token: TokenId, n: NodeIx): Outcome {
    ArmAlternatives(p, Park(Started(m, n), token, n, AtEventGateway), token, Targets(p, p.Outgoing(n)))
  }

  function ArmAlternatives(p: Process, m: Machine, token: TokenId, elements: seq<NodeIx>): Outcome
    decreases |elements|
  {
    if elements == [] then Ok(m)
    else if !p.IsCatch(elements[0]) then Poisoned(m)
    else
      var first := Arm(p, m, token, elements[0]);
      if first.ok then ArmAlternatives(p, first.m, token, elements[1..]) else Ok(first.m)
  }

  function OpenScope(m: Machine, token: TokenId, n: NodeIx): Machine {
    Park(m.(s := m.s.AddScope(Scope(n, m.scope, token))), token, n, OnScope(m.s.nextScope))
  }

  function EnterSubProcess(p: Process, m: Machine, token: TokenId, n: NodeIx, body: ScopeIx): Machine {
    var armed := ArmAll(p, OpenScope(Started(m, n), token, n), token, p.Boundaries(n));
    if armed.ok
    then FreshToken(armed.m).(q := armed.m.q + [Move(armed.m.s.nextToken, p.ScopeStart(body), None, m.s.nextScope)])
    else armed.m
  }

  predicate Holds(p: Process, f: FlowIx, variables: Value) {
    match p.FlowAt(f).condition
    case Some(holds) => holds(variables)
    case None => false
  }

  function FirstHolding(p: Process, flows: seq<FlowIx>, defaultFlow: Option<FlowIx>, variables: Value): Option<FlowIx> {
    if flows == [] then defaultFlow
    else if Some(flows[0]) != defaultFlow && Holds(p, flows[0], variables) then Some(flows[0])
    else FirstHolding(p, flows[1..], defaultFlow, variables)
  }

  function Chosen(p: Process, n: NodeIx, defaultFlow: Option<FlowIx>, variables: Value): Option<FlowIx> {
    var out := p.Outgoing(n);
    if |out| == 1 then Some(out[0]) else FirstHolding(p, out, defaultFlow, variables)
  }

  function EnterExclusive(p: Process, m: Machine, token: TokenId, n: NodeIx, defaultFlow: Option<FlowIx>): Outcome {
    match Chosen(p, n, defaultFlow, m.s.variables)
    case None => Poisoned(m)
    case Some(f) => Ok(Leave(p, Finished(Started(m, n), n), token, f))
  }

  /** One fresh token per outgoing flow, in declaration order. */
  function ForkOn(p: Process, m: Machine, flows: seq<FlowIx>): Machine
    decreases |flows|
  {
    if flows == [] then m
    else ForkOn(p, Leave(p, FreshToken(m), m.s.nextToken, flows[0]), flows[1..])
  }

  predicate WaitsAt(t: Token, n: NodeIx, scope: ScopeId, f: FlowIx) {
    t.node == n && t.scope == scope && t.wait == AtJoin(f)
  }

  /** The tokens parked at join `n` of `scope` on flow `f`. */
  function ArrivedOn(s: Instance, n: NodeIx, scope: ScopeId, f: FlowIx): set<TokenId> {
    set t | t in s.tokens && WaitsAt(s.tokens[t], n, scope, f)
  }

  predicate AllArrived(p: Process, s: Instance, n: NodeIx, scope: ScopeId) {
    forall f :: f in p.Incoming(n) ==> ArrivedOn(s, n, scope, f) != {}
  }

  /** The token a join consumes for each incoming flow: the first parked on it. */
  function Consumed(p: Process, s: Instance, n: NodeIx, scope: ScopeId): set<TokenId> {
    set f | f in p.Incoming(n) && ArrivedOn(s, n, scope, f) != {} :: Sorted(ArrivedOn(s, n, scope, f))[0]
  }

  function EnterJoin(p: Process, m: Machine, token: TokenId, n: NodeIx, via: Option<FlowIx>): Outcome {
    match via
    case None => Poisoned(m)
    case Some(flow) =>
      var m1 := Park(m, token, n, AtJoin(flow));
      if ArrivedOn(m.s, n, m.scope, flow) != {} then Poisoned(m)
      else if !AllArrived(p, m1.s, n, m.scope) then Ok(m1)
      else
        var m2 := Finished(Started(Unpark(m1, Consumed(p, m1.s, n, m.scope)), n), n);
        LeaveSingle(p, FreshToken(m2), m2.s.nextToken, n)
  }

  function EnterEnd(p: Process, m: Machine, n: NodeIx): Outcome {
    CompleteScopeIfEmpty(p, Finished(Started(m, n), n), m.scope)
  }

  function EnterTerminateEnd(p: Process, m: Machine, n: NodeIx): Outcome {
    var m1 := Finished(Started(m, n), n);
    if m.scope != ROOT then CompleteScope(p, TearDown(m1, m.scope), m.scope)
    else Ok(Terminate(m1))
  }

  /** Enter a node; `m.scope` is the scope of the move. */
  function Enter(p: Process, m: Machine, token: TokenId, n: NodeIx, via: Option<FlowIx>): Outcome {
    match p.KindOf(n)
    case Start => LeaveSingle(p, Finished(Started(m, n), n), token, n)
    case BusinessRule(decision, _) => Ok(EnterDecision(p, m, token, n, decision))
    case Task(work, topic) => Ok(EnterTask(p, m, token, n, work, topic))
    case TimerCatch(due) => Ok(EnterTimerCatch(p, m, token, n, due))
    case MessageCatch(_, _) => Ok(EnterMessageCatch(p, m, token, n))
    case EventBasedGateway => EnterEventGateway(p, m, token, n)
    case SubProcess(body) => Ok(EnterSubProcess(p, m, token, n, body))
    case TimerBoundary(_, _) => Poisoned(m)
    case MessageBoundary(_, _, _) => Poisoned(m)
    case ErrorBoundary(_) => Poisoned(m)
    case ExclusiveGateway(defaultFlow) => EnterExclusive(p, m, token, n, defaultFlow)
    case ParallelGateway =>
      if |p.Incoming(n)| > 1 then EnterJoin(p, m, token, n, via)
      else Ok(ForkOn(p, Finished(Started(m, n), n), p.Outgoing(n)))
    case End => EnterEnd(p, m, n)
    case TerminateEnd => EnterTerminateEnd(p, m, n)
  }

  /** Take the first move of the queue, if there is one. */
  function Advance1(p: Process, m: Machine): Outcome {
    if m.q == [] then Ok(m)
    else
      var mv := m.q[0];
      Enter(p, m.(q := m.q[1..], scope := mv.scope), mv.token, mv.node, mv.via)
  }

  /** Halted decisions are asked again. */
  function Reask(p: Process, m: Machine, ids: seq<TokenId>): Machine
    decreases |ids|
  {
    if ids == [] then m
    else if ids[0] !in m.s.tokens then Reask(p, m, ids[1..])
    else
      var t := m.s.tokens[ids[0]];
      var m1 := m.(s := m.s.(tokens := m.s.tokens[ids[0] := t.(wait := OnDecision)]));
      var kind := p.KindOf(t.node);
      Reask(p, if kind.BusinessRule? then Say(m1, DecisionRequested(t.node, kind.decision)) else m1, ids[1..])
  }

  /** Once the queue is done: ask again, then complete an emptied instance. */
  function Settle(p: Process, m: Machine): Machine {
    if m.s.status != Active then m
    else
      var m1 := Reask(p, m, m.reask).(reask := []);
      if m1.s.tokens == map[]
      then Say(m1.(s := m1.s.(status := Status.Completed)), InstanceCompleted)
      else m1
  }
}
