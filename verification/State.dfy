/** Instance runtime state, and the events that are the core's only output. */
module State {
  import opened Basics
  import opened Json
  import opened Compiled

  type TokenId = nat
  type ItemId = nat
  type TimerId = nat
  type SubId = nat
  /** A runtime scope instance; 0 is the instance root and is never stored. */
  type ScopeId = nat
  const ROOT: ScopeId := 0

  datatype Status = Created | Active | Completed | Terminated | Failed

  datatype Halt = InFlight(via: Option<FlowIx>) | AwaitingDecision

  datatype Wait =
    | AtJoin(arrivedVia: FlowIx)
    | OnItem(item: ItemId)
    | OnTimer(timer: TimerId)
    | OnMessage(sub: SubId)
    | AtEventGateway
    | AtIncident
    | Halted(halt: Halt)
    | OnScope(child: ScopeId)
    | OnDecision
  {
    /** The id of what is waited on: the flow arrived by, a row, a scope. */
    function Ref(): nat {
      match this
      case AtJoin(flow) => flow
      case OnItem(item) => item
      case OnTimer(timer) => timer
      case OnMessage(sub) => sub
      case OnScope(child) => child
      case _ => 0
    }

    /** A move halted on its way, and the flow it was on. */
    predicate InFlight() { Halted? && halt.InFlight? }
    function Via(): Option<FlowIx> { if InFlight() then halt.via else None }
  }

  datatype Token = Token(node: NodeIx, scope: ScopeId, wait: Wait)
  const NO_TOKEN := Token(0, ROOT, AtEventGateway)
  datatype Scope = Scope(element: NodeIx, parent: ScopeId, token: TokenId)
  datatype Item = Item(element: NodeIx, token: TokenId, work: WorkKind, topic: string, open: bool)
  datatype Timer = Timer(element: NodeIx, token: TokenId, due: TimerDue, remaining: Option<nat>)
  datatype Sub = Sub(element: NodeIx, token: TokenId, message: string, key: string)

  datatype Instance = Instance(
    status: Status,
    variables: Value,
    tokens: map<TokenId, Token>,
    items: map<ItemId, Item>,
    timers: map<TimerId, Timer>,
    subs: map<SubId, Sub>,
    scopes: map<ScopeId, Scope>,
    nextToken: nat,
    nextItem: nat,
    nextTimer: nat,
    nextSub: nat,
    nextScope: nat,
    nextIncident: nat)
  {
    /** The incident the instance is frozen on: the last one minted. */
    function OpenIncident(): Option<nat> {
      if status == Failed && nextIncident > 0 then Some(nextIncident - 1) else None
    }

    /** Rows by id; one that is not there reads as a row of nobody. */
    function TokenAt(id: TokenId): Token { if id in tokens then tokens[id] else NO_TOKEN }
    function ItemAt(id: ItemId): Item { if id in items then items[id] else Item(0, 0, Service, "", false) }
    function TimerAt(id: TimerId): Timer { if id in timers then timers[id] else Timer(0, 0, Date(""), None) }
    function SubAt(id: SubId): Sub { if id in subs then subs[id] else Sub(0, 0, "", "") }
    function ScopeAt(id: ScopeId): Scope { if id in scopes then scopes[id] else Scope(0, ROOT, 0) }

    /** The same with `n` more token ids handed out. */
    function Minted(n: int): Instance { if n < 0 then this else this.(nextToken := nextToken + n) }

    /** The same with a row added under the next number. */
    function AddItem(row: Item): Instance { this.(items := items[nextItem := row], nextItem := nextItem + 1) }
    function AddTimer(row: Timer): Instance { this.(timers := timers[nextTimer := row], nextTimer := nextTimer + 1) }
    function AddSub(row: Sub): Instance { this.(subs := subs[nextSub := row], nextSub := nextSub + 1) }
    function AddScope(row: Scope): Instance { this.(scopes := scopes[nextScope := row], nextScope := nextScope + 1) }

    function OpenItemsOf(ids: set<TokenId>): set<ItemId> {
      set i | i in items && items[i].open && items[i].token in ids
    }

    function TimersOf(ids: set<TokenId>): set<TimerId> {
      set k | k in timers && timers[k].token in ids
    }

    function SubsOf(ids: set<TokenId>): set<SubId> {
      set k | k in subs && subs[k].token in ids
    }

    function TokensWithin(doomed: set<ScopeId>): set<TokenId> {
      set t | t in tokens && tokens[t].scope in doomed
    }
  }

  predicate ParentsOlder(scopes: map<ScopeId, Scope>) { forall k :: k in scopes ==> scopes[k].parent < k }

  /** Is `c` the scope `root` or nested in it? Parents are older than children. */
  predicate Within(scopes: map<ScopeId, Scope>, c: ScopeId, root: ScopeId)
    decreases c
  {
    c == root || (c in scopes && scopes[c].parent < c && Within(scopes, scopes[c].parent, root))
  }

  /** What a cancelled subprocess tears down: the scope and all nested in it. */
  function Subtree(scopes: map<ScopeId, Scope>, root: ScopeId): set<ScopeId> {
    {root} + set c | c in scopes && Within(scopes, c, root)
  }

  const NEW_INSTANCE :=
    Instance(Created, Null, map[], map[], map[], map[], map[], 0, 0, 0, 0, 1, 0)

  datatype RepairKind = RetryKind | AdvanceKind | DivertKind | AbandonKind | AbandonInstanceKind

  datatype Event =
    | InstanceStarted(variables: Value)
    | ElementStarted(element: NodeIx)
    | ElementCompleted(element: NodeIx)
    | FlowTaken(flow: FlowIx)
    | WorkItemCreated(item: ItemId, element: NodeIx, work: WorkKind, topic: string)
    | WorkItemCompleted(item: ItemId, element: NodeIx)
    | WorkItemCancelled(item: ItemId, element: NodeIx)
    | WorkItemFailed(item: ItemId, element: NodeIx, code: Option<string>)
    | DecisionRequested(element: NodeIx, decision: string)
    | DecisionEvaluated(element: NodeIx, result: Value, reason: Option<string>)
    | IncidentRaised(element: NodeIx, code: Option<string>, detail: Option<string>, incident: nat)
    | IncidentRepaired(incident: nat, element: NodeIx, disposition: RepairKind,
                       code: Option<string>, answer: Option<Value>, why: string)
    | VariablesPatched(patch: Value)
    | TimerArmed(timer: TimerId, element: NodeIx, due: TimerDue, token: TokenId,
                 continues: Option<TimerId>, remaining: Option<nat>)
    | TimerFired(timer: TimerId, element: NodeIx)
    | TimerCancelled(timer: TimerId, element: NodeIx)
    | MessageSubscribed(sub: SubId, element: NodeIx, message: string, key: string, token: TokenId)
    | MessageReceived(sub: SubId, element: NodeIx, message: string)
    | SubscriptionCancelled(sub: SubId, element: NodeIx, message: string)
    | CorrelationFailed(element: NodeIx)
    | TimerResolveFailed(element: NodeIx)
    | DuplicateSubscription(element: NodeIx, message: string, key: string)
    | InstanceCompleted
    | InstanceTerminated
}
