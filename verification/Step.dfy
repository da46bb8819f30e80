/** The step function: six commands, five repair dispositions. A command opens
    by checking and by queueing its first moves; the advancer does the rest. */
module Step {
  import opened Basics
  import opened Json
  import opened Compiled
  import opened State
  import opened Advance

  datatype Disposition =
    | Retry(patch: Value)
    | AdvancePast(patch: Value, answer: Option<Value>)
    | Divert(code: Option<string>)
    | Abandon
    | AbandonInstance
  {
    function Kind(): RepairKind {
      match this
      case Retry(_) => RetryKind
      case AdvancePast(_, _) => AdvanceKind
      case Divert(_) => DivertKind
      case Abandon => AbandonKind
      case AbandonInstance => AbandonInstanceKind
    }

    function Code(): Option<string> { if Divert? then code else None }
    function Answer(): Option<Value> { if AdvancePast? then answer else None }

    function Patch(): Value {
      match this
      case Retry(patch) => patch
      case AdvancePast(patch, _) => patch
      case _ => EMPTY
    }
  }

  datatype Command =
    | StartWith(variables: Value)
    | CompleteWorkItem(item: ItemId, patch: Value)
    | RaiseError(item: ItemId, code: Option<string>)
    | FireTimer(timer: TimerId)
    | DeliverMessage(sub: SubId, patch: Value)
    | CompleteDecision(token: TokenId, answer: Option<Value>, detail: Option<string>)
    | Repair(incident: nat, disposition: Disposition, why: string)

  datatype Refusal =
    | NoReason
    | CauseUnknown
    | GatewayHasNoSingleWayOn
    | DecisionNeedsAnAnswer
    | AnswerOnlyForADecision
    | NothingCatches
    | AJoinWouldWait

  datatype StepError =
    | AlreadyStarted
    | InstanceNotActive(status: Status)
    | UnknownWorkItem(item: ItemId)
    | WorkItemNotOpen(item: ItemId)
    | UnknownTimer(timer: TimerId)
    | UnknownSubscription(sub: SubId)
    | BoundaryCannotRearm(element: NodeIx)
    | IncidentNotOpen(named: nat, open: Option<nat>)
    | RepairRefused(refusal: Refusal)
    | InvariantViolated

  /** `Opened` has moves to run down; `Closed` is a step that ends without them. */
  datatype Opening = Refused(error: StepError) | Opened(m: Machine) | Ended(m: Machine) {
    /** The machine a command opened or ended with; a refusal has none of its own. */
    function At(): Machine { if Refused? then Idle(NEW_INSTANCE) else m }
  }

  function Open(o: Outcome): Opening {
    if o.Ok? then Opened(o.m) else Refused(InvariantViolated)
  }

  // ---- pieces of the commands

  /** A patch that is not `{}` is merged, and said. */
  function Patched(m: Machine, patch: Value): Machine {
    if patch == EMPTY then m
    else Say(m.(s := m.s.(variables := Merge(m.s.variables, patch))), VariablesPatched(patch))
  }

  lemma PatchedIs(m: Machine, patch: Value)
    ensures var m' := Patched(m, patch);
            m'.s == m.s.(variables := m'.s.variables) && m'.q == m.q && m'.reask == m.reask && m'.scope == m.scope
  {
    hide Merge;
  }

  function CloseItem(s: Instance, item: ItemId): Instance { s.(items := Closed(s.items, {item})) }

  /** The boundary that catches `code` raised at `host`, and the token it
      interrupts: on the host, else on the nearest enclosing subprocess. */
  function Catcher(p: Process, scopes: map<ScopeId, Scope>, host: NodeIx, token: TokenId, scope: ScopeId, code: Option<string>)
    : Option<(TokenId, NodeIx)>
    decreases scope
  {
    var b := p.ErrorBoundary(host, code);
    if b.Some? then Some((token, b.value))
    else if scope in scopes && scopes[scope].parent < scope then
      Catcher(p, scopes, scopes[scope].element, scopes[scope].token, scopes[scope].parent, code)
    else None
  }

  /** The host's arm is kept alive first, then a sibling takes the side path. */
  function TimerSidePath(p: Process, m: Machine, fired: TimerId, timer: Timer): Outcome {
    if timer.token !in m.s.tokens then Poisoned(m)
    else
      var m1 := RearmCycle(m.(scope := m.s.TokenAt(timer.token).scope), fired, timer);
      SpawnSideToken(p, m1, timer.element)
  }

  function MessageSidePath(p: Process, m: Machine, sub: Sub): Outcome {
    if sub.token !in m.s.tokens then Poisoned(m)
    else
      var armed := Subscribe(p, m.(scope := m.s.TokenAt(sub.token).scope), sub.token, sub.element);
      if armed.ok then SpawnSideToken(p, armed.m, sub.element) else Ok(armed.m)
  }

  // ---- the commands

  function OpenStart(p: Process, s: Instance, variables: Value): Opening {
    if s.status.Active? then Refused(AlreadyStarted)
    else if !s.status.Created? then Refused(InstanceNotActive(s.status))
    else
      var m := Say(Idle(s.(status := Active, variables := variables)), InstanceStarted(variables));
      Opened(FreshToken(m).(q := [Move(s.nextToken, p.Begin(), None, ROOT)]))
  }

  function OpenCompleteWorkItem(p: Process, s: Instance, id: ItemId, patch: Value): Opening {
    if !s.status.Active? then Refused(InstanceNotActive(s.status))
    else if id !in s.items then Refused(UnknownWorkItem(id))
    else if !s.ItemAt(id).open then Refused(WorkItemNotOpen(id))
    else
      var item := s.ItemAt(id);
      if item.token !in s.tokens then Refused(InvariantViolated)
      else
        var m := Say(Unpark(Idle(CloseItem(s, id)), {item.token}).(scope := s.TokenAt(item.token).scope),
                     WorkItemCompleted(id, item.element));
        var m1 := Finished(WithdrawArms(Patched(m, patch), item.token), item.element);
        Open(LeaveSingle(p, m1, item.token, item.element))
  }

  function OpenCompleteDecision(p: Process, s: Instance, token: TokenId, answer: Option<Value>, detail: Option<string>): Opening {
    if !s.status.Active? then Refused(InstanceNotActive(s.status))
    else if token !in s.tokens || !s.TokenAt(token).wait.OnDecision? then Refused(InvariantViolated)
    else
      var parked := s.TokenAt(token);
      if !p.KindOf(parked.node).BusinessRule? then Refused(InvariantViolated)
      else
        var m := Idle(s).(scope := parked.scope);
        match answer
        case None => Opened(Freeze(m, token, parked.node, None, detail))
        case Some(value) => Open(Decided(p, m, token, parked.node, value, detail))
  }

  /** An answer is written at the bound path, and the token goes on. */
  function Decided(p: Process, m: Machine, token: TokenId, n: NodeIx, value: Value, detail: Option<string>): Outcome {
    var m1 := Say(m, DecisionEvaluated(n, value, if value.Null? then detail else None));
    var m2 := Unpark(m1.(s := m1.s.(variables := Assign(m1.s.variables, p.ResultPath(n), value))), {token});
    LeaveSingle(p, Finished(WithdrawArms(m2, token), n), token, n)
  }

  function OpenRaiseError(p: Process, s: Instance, id: ItemId, code: Option<string>): Opening {
    if !s.status.Active? then Refused(InstanceNotActive(s.status))
    else if id !in s.items then Refused(UnknownWorkItem(id))
    else if !s.ItemAt(id).open then Refused(WorkItemNotOpen(id))
    else
      var item := s.ItemAt(id);
      var m := Say(Idle(CloseItem(s, id)), WorkItemFailed(id, item.element, code));
      var scope := if item.token in s.tokens then s.TokenAt(item.token).scope else ROOT;
      match Catcher(p, s.scopes, item.element, item.token, scope, code)
      case Some(caught) => Open(InterruptToBoundary(p, m, caught.0, caught.1))
      case None => Ended(Freeze(m, item.token, item.element, code, None))
  }

  function OpenFireTimer(p: Process, s: Instance, id: TimerId): Opening {
    if !s.status.Active? then Refused(InstanceNotActive(s.status))
    else if id !in s.timers then Refused(UnknownTimer(id))
    else
      var timer := s.TimerAt(id);
      Open(FiredAt(p, Say(Idle(s.(timers := s.timers - {id})), TimerFired(id, timer.element)), id, timer))
  }

  /** Where a fire goes: to the catch itself, to the boundary's host, or to the race
      it wins. */
  function FiredAt(p: Process, m: Machine, id: TimerId, timer: Timer): Outcome {
    if timer.token !in m.s.tokens then Poisoned(m)
    else
      var t := m.s.TokenAt(timer.token);
      if t.wait == OnTimer(id) then
        var m1 := Finished(Unpark(m, {timer.token}).(scope := t.scope), timer.element);
        LeaveSingle(p, m1, timer.token, timer.element)
      else if t.wait.OnItem? || t.wait.OnMessage? || t.wait.OnScope? then
        if p.Interrupts(timer.element) then InterruptHost(p, m, timer.token, timer.element)
        else TimerSidePath(p, m, id, timer)
      else if t.wait.AtEventGateway? then
        TakeGatewayPath(p, WithdrawArms(m.(scope := t.scope), timer.token), timer.token, t.node, timer.element)
      else Poisoned(m)
  }

  /** Would the side path's boundary re-arm after this delivery? */
  predicate Rearms(p: Process, s: Instance, id: SubId, patch: Value) {
    ArmKey(p, s, Merge(s.variables, patch), s.SubAt(id).element, Some(id)).Key?
  }

  function OpenDeliverMessage(p: Process, s: Instance, id: SubId, patch: Value): Opening {
    if !s.status.Active? then Refused(InstanceNotActive(s.status))
    else if id !in s.subs then Refused(UnknownSubscription(id))
    else
      var sub := s.SubAt(id);
      if p.KindOf(sub.element).MessageBoundary? && !p.Interrupts(sub.element) && !Rearms(p, s, id, patch)
      then Refused(BoundaryCannotRearm(sub.element))
      else
        Open(DeliveredTo(p, Patched(Say(Idle(s.(subs := s.subs - {id})), MessageReceived(id, sub.element, sub.message)), patch), id, sub))
  }

  /** Where a delivery goes: to the catch itself, to the race it wins, or to the
      boundary's host. */
  function DeliveredTo(p: Process, m: Machine, id: SubId, sub: Sub): Outcome {
    if sub.token !in m.s.tokens then Poisoned(m)
    else
      var t := m.s.TokenAt(sub.token);
      if t.wait == OnMessage(id) then
        var m1 := Unpark(WithdrawArms(m.(scope := t.scope), sub.token), {sub.token});
        LeaveSingle(p, Finished(m1, sub.element), sub.token, sub.element)
      else if t.wait.AtEventGateway? then
        TakeGatewayPath(p, WithdrawArms(m.(scope := t.scope), sub.token), sub.token, t.node, sub.element)
      else if t.wait.OnItem? || t.wait.OnMessage? || t.wait.OnScope? then
        if p.Interrupts(sub.element) then InterruptHost(p, m, sub.token, sub.element) else MessageSidePath(p, m, sub)
      else Poisoned(m)
  }

  // ---- repair

  /** The tokens parked at an incident: one, but for instances frozen before
      repair existed. */
  function Causes(s: Instance): set<TokenId> {
    set t | t in s.tokens && s.tokens[t].wait.AtIncident?
  }

  /** The token a repair acts on. */
  function CauseOf(s: Instance): TokenId {
    if Causes(s) == {} then 0 else Sorted(Causes(s))[0]
  }

  /** Consuming the token would leave a join waiting for it. */
  predicate StrandsAJoin(p: Process, s: Instance, cause: TokenId, scope: ScopeId, resume: NodeIx) {
    !p.OnSidePath(resume) && exists t :: t in s.tokens && t != cause && s.tokens[t].scope == scope
  }

  /** The White_Space property of Unicode. */
  predicate IsSpace(c: char) {
    var n := c as int;
    || 0x9 <= n <= 0xD || n == 0x20 || n == 0x85 || n == 0xA0 || n == 0x1680 || 0x2000 <= n <= 0x200A
    || n == 0x2028 || n == 0x2029 || n == 0x202F || n == 0x205F || n == 0x3000
  }

  /** A reason is more than blanks. */
  predicate Blank(why: string) {
    forall c :: c in why ==> IsSpace(c)
  }

  /** Why a disposition cannot be taken at `resume`. */
  function DispositionRefusal(p: Process, s: Instance, cause: TokenId, d: Disposition): Option<Refusal> {
    var parked := s.TokenAt(cause);
    var resume := p.ResumePoint(parked.node);
    var decision := p.KindOf(resume).BusinessRule?;
    match d
    case Retry(_) => None
    case AbandonInstance => None
    case AdvancePast(patch, answer) =>
      if p.KindOf(resume).EventBasedGateway? then Some(GatewayHasNoSingleWayOn)
      else if decision && (answer.None? || patch != EMPTY) then Some(DecisionNeedsAnAnswer)
      else if !decision && answer.Some? then Some(AnswerOnlyForADecision)
      else None
    case Divert(code) =>
      if Catcher(p, s.scopes, resume, cause, parked.scope, code).None? then Some(NothingCatches) else None
    case Abandon =>
      if StrandsAJoin(p, s, cause, parked.scope, resume) then Some(AJoinWouldWait) else None
  }

  /** Everything a repair checks, in the order it checks it. */
  function RepairRefusal(p: Process, s: Instance, incident: nat, d: Disposition, why: string): Option<StepError> {
    if s.OpenIncident() != Some(incident) then Some(IncidentNotOpen(incident, s.OpenIncident()))
    else if Blank(why) then Some(RepairRefused(NoReason))
    else if Causes(s) == {} then Some(InvariantViolated)
    else if |Causes(s)| > 1 && !d.AbandonInstance? then Some(RepairRefused(CauseUnknown))
    else
      match DispositionRefusal(p, s, CauseOf(s), d)
      case Some(r) => Some(RepairRefused(r))
      case None => None
  }

  /** What the disposition does at the resume point. */
  function Disposed(p: Process, m: Machine, cause: TokenId, resume: NodeIx, d: Disposition): Outcome {
    match d
    case Retry(_) => Ok(Unpark(m, {cause}).(q := m.q + [Move(cause, resume, None, m.scope)]))
    case AdvancePast(_, answer) =>
      var m1 := Unpark(m, {cause});
      var m2 := m1.(s := m1.s.(variables := p.Bind(resume, answer, m1.s.variables)));
      LeaveSingle(p, Finished(m2, resume), cause, resume)
    case Divert(code) =>
      (match Catcher(p, m.s.scopes, resume, cause, m.scope, code)
       case Some(caught) => InterruptToBoundary(p, m, caught.0, caught.1)
       case None => Poisoned(m))
    case Abandon => CompleteScopeIfEmpty(p, Unpark(m, {cause}), m.scope)
    case AbandonInstance => Ok(Terminate(m))
  }

  /** The move a halted token was on. */
  function Again(id: TokenId, t: Token): Move { Move(id, t.node, t.wait.Via(), t.scope) }

  function MovesOf(s: Instance, ids: seq<TokenId>): seq<Move> {
    seq(|ids|, i requires 0 <= i < |ids| => Again(ids[i], s.TokenAt(ids[i])))
  }

  function Flying(s: Instance): set<TokenId> {
    set t | t in s.tokens && s.tokens[t].wait.InFlight()
  }

  function Asking(s: Instance): set<TokenId> {
    set t | t in s.tokens && s.tokens[t].wait == Halted(AwaitingDecision)
  }

  /** Collateral resumes with the cause, in token order: a move on the flow it
      was on, a pending decision once the moves have settled. */
  function Collateral(m: Machine): Machine {
    m.(s := m.s.(tokens := m.s.tokens - Flying(m.s)),
       q := m.q + MovesOf(m.s, Sorted(Flying(m.s))),
       reask := m.reask + Sorted(Asking(m.s)))
  }

  function OpenRepair(p: Process, s: Instance, incident: nat, d: Disposition, why: string): Opening {
    match RepairRefusal(p, s, incident, d, why)
    case Some(refusal) => Refused(refusal)
    case None =>
      var cause := CauseOf(s);
      var parked := s.TokenAt(cause);
      var m := Say(Idle(s), IncidentRepaired(incident, parked.node, d.Kind(),
                                             d.Code(), d.Answer(), why));
      var m1 := Patched(m, d.Patch());
      var m2 := m1.(s := m1.s.(status := Active), scope := parked.scope);
      var o := Disposed(p, m2, cause, p.ResumePoint(parked.node), d);
      if o.Poisoned? then Refused(InvariantViolated)
      else if d.AbandonInstance? then Ended(o.m)
      else Opened(Collateral(o.m))
  }

  function OpenCommand(p: Process, s: Instance, c: Command): Opening {
    match c
    case StartWith(variables) => OpenStart(p, s, variables)
    case CompleteWorkItem(item, patch) => OpenCompleteWorkItem(p, s, item, patch)
    case RaiseError(item, code) => OpenRaiseError(p, s, item, code)
    case FireTimer(timer) => OpenFireTimer(p, s, timer)
    case DeliverMessage(sub, patch) => OpenDeliverMessage(p, s, sub, patch)
    case CompleteDecision(token, answer, detail) => OpenCompleteDecision(p, s, token, answer, detail)
    case Repair(incident, d, why) => OpenRepair(p, s, incident, d, why)
  }
}
