/** The one invariant of the machine: it holds between any two moves of the
    advancer, over parked tokens and tokens in flight alike. */
module Invariant {
  import opened Basics
  import opened Compiled
  import opened State
  import opened Advance
  import opened Game

  // ---- places

  /** The static scope a runtime scope is an instance of. */
  function StaticScope(p: Process, s: Instance, scope: ScopeId): ScopeIx {
    if scope in s.scopes && p.KindOf(s.scopes[scope].element).SubProcess?
    then p.KindOf(s.scopes[scope].element).body
    else 0
  }

  ghost predicate PlaceOk(p: Process, s: Instance, n: NodeIx, scope: ScopeId) {
    && n < |p.nodes|
    && (scope == ROOT || scope in s.scopes)
    && p.ScopeOf(n) == StaticScope(p, s, scope)
  }

  /** Nodes a repair can re-enter. */
  ghost predicate CanResume(p: Process, r: NodeIx) {
    var k := p.KindOf(r);
    && r < |p.nodes|
    && !p.IsAlternative(r)
    && (k.Task? || k.BusinessRule? || k.TimerCatch? || k.MessageCatch? || k.SubProcess? || k.EventBasedGateway?)
  }

  /** Where an incident can be parked, and where it resumes: the same scope. */
  ghost predicate IncidentAt(p: Process, n: NodeIx) {
    CanResume(p, p.ResumePoint(n)) && p.ScopeOf(p.ResumePoint(n)) == p.ScopeOf(n)
  }

  /** A token can stand on the way into `n`. */
  ghost predicate Enterable(p: Process, n: NodeIx, via: Option<FlowIx>) {
    && !p.IsBoundary(n) && !p.IsAlternative(n)
    && (via.Some? ==> via.value in p.Incoming(n))
    && (via.None? ==> p.KindOf(n).Start? || CanResume(p, n))
  }

  function PlaceOf(p: Process, t: Token): (at: Place)
    ensures at.scope == t.scope
  {
    match t.wait
    case AtJoin(f) => Place(t.node, Some(f), t.scope)
    case Halted(InFlight(via)) => Place(t.node, via, t.scope)
    case AtIncident => Place(p.ResumePoint(t.node), None, t.scope)
    case _ => Place(t.node, None, t.scope)
  }

  function PlaceOfMove(mv: Move): Place { Place(mv.node, mv.via, mv.scope) }

  function TokenPlaces(p: Process, tokens: map<TokenId, Token>): Population {
    map id | id in tokens :: PlaceOf(p, tokens[id])
  }

  function MovePlaces(q: seq<Move>): Population {
    if q == [] then map[]
    else MovePlaces(q[..|q| - 1])[q[|q| - 1].token := PlaceOfMove(q[|q| - 1])]
  }

  /** Everybody: parked and in flight. */
  function Everybody(p: Process, s: Instance, q: seq<Move>): Population {
    TokenPlaces(p, s.tokens) + MovePlaces(q)
  }

  // ---- ownership

  ghost predicate TokenOk(p: Process, s: Instance, id: TokenId, t: Token) {
    && PlaceOk(p, s, t.node, t.scope)
    && match t.wait
       case AtJoin(f) => p.IsJoin(t.node) && f in p.Incoming(t.node)
       case OnItem(i) => p.KindOf(t.node).Task? && i in s.items && s.items[i].open && s.items[i].token == id && s.items[i].element == t.node
       case OnTimer(k) =>
         && p.KindOf(t.node).TimerCatch? && !p.IsAlternative(t.node)
         && k in s.timers && s.timers[k].token == id && s.timers[k].element == t.node
       case OnMessage(k) =>
         && p.KindOf(t.node).MessageCatch? && !p.IsAlternative(t.node)
         && k in s.subs && s.subs[k].token == id && s.subs[k].element == t.node
       case AtEventGateway => p.KindOf(t.node).EventBasedGateway?
       case AtIncident => IncidentAt(p, t.node)
       case Halted(InFlight(via)) => Enterable(p, t.node, via)
       case Halted(AwaitingDecision) => p.KindOf(t.node).BusinessRule?
       case OnScope(c) => p.KindOf(t.node).SubProcess? && c in s.scopes && s.scopes[c] == Scope(t.node, t.scope, id)
       case OnDecision => p.KindOf(t.node).BusinessRule?
  }

  predicate Hosting(w: Wait) { w.OnItem? || w.OnMessage? || w.OnScope? }

  ghost predicate TimerOwned(p: Process, k: TimerId, element: NodeIx, t: Token) {
    || (t.wait == OnTimer(k) && element == t.node)
    || (Hosting(t.wait) && element in p.Boundaries(t.node) && p.KindOf(element).TimerBoundary?)
    || (t.wait.AtEventGateway? && p.Races(t.node, element) && p.KindOf(element).TimerCatch?)
  }

  ghost predicate SubOwned(p: Process, k: SubId, element: NodeIx, t: Token) {
    || (t.wait == OnMessage(k) && element == t.node)
    || (Hosting(t.wait) && element in p.Boundaries(t.node) && p.KindOf(element).MessageBoundary?)
    || (t.wait.AtEventGateway? && p.Races(t.node, element) && p.KindOf(element).MessageCatch?)
  }

  ghost predicate TokensOk(p: Process, s: Instance) {
    forall id :: id in s.tokens ==> id < s.nextToken && TokenOk(p, s, id, s.tokens[id])
  }

  ghost predicate TimersOk(p: Process, s: Instance) {
    forall k :: k in s.timers ==>
      k < s.nextTimer && s.timers[k].token in s.tokens && TimerOwned(p, k, s.timers[k].element, s.tokens[s.timers[k].token])
  }

  ghost predicate SubsOk(p: Process, s: Instance) {
    forall k :: k in s.subs ==>
      k < s.nextSub && s.subs[k].token in s.tokens && SubOwned(p, k, s.subs[k].element, s.tokens[s.subs[k].token])
  }

  /** No two open subscriptions wait for one message under one key. */
  ghost predicate SubsDistinct(s: Instance) {
    forall j, k :: j in s.subs && k in s.subs && s.subs[j].message == s.subs[k].message && s.subs[j].key == s.subs[k].key ==> j == k
  }

  ghost predicate ItemsOk(s: Instance) {
    forall i :: i in s.items ==>
      i < s.nextItem && (s.items[i].open ==> s.items[i].token in s.tokens && s.tokens[s.items[i].token].wait == OnItem(i))
  }

  /** Scopes and the tokens waiting on them are each other's inverse; a parent
      is older than its child, so the scope tree has no cycle. */
  ghost predicate ScopesOk(s: Instance) {
    forall c :: c in s.scopes ==>
      && ROOT < c < s.nextScope && s.scopes[c].parent < c
      && s.scopes[c].token in s.tokens
      && s.tokens[s.scopes[c].token] == Token(s.scopes[c].element, s.scopes[c].parent, OnScope(c))
  }

  ghost predicate Owned(p: Process, s: Instance) {
    && TokensOk(p, s) && TimersOk(p, s) && SubsOk(p, s) && SubsDistinct(s) && ItemsOk(s) && ScopesOk(s)
    && s.nextScope > 0
  }

  // ---- the queue

  ghost predicate MoveOk(p: Process, s: Instance, mv: Move) {
    && mv.token < s.nextToken && mv.token !in s.tokens
    && PlaceOk(p, s, mv.node, mv.scope)
    && Enterable(p, mv.node, mv.via)
  }

  /** No token is queued twice. */
  ghost predicate Distinct(q: seq<Move>) {
    forall i, j :: 0 <= i < j < |q| ==> q[i].token != q[j].token
  }

  ghost predicate QueueOk(p: Process, s: Instance, q: seq<Move>) {
    (forall mv :: mv in q ==> MoveOk(p, s, mv)) && Distinct(q)
  }

  // ---- status

  ghost predicate OneCause(s: Instance) {
    && (exists id :: id in s.tokens && s.tokens[id].wait.AtIncident?)
    && (forall a, b :: a in s.tokens && b in s.tokens && s.tokens[a].wait.AtIncident? && s.tokens[b].wait.AtIncident? ==> a == b)
  }

  ghost predicate StatusOk(s: Instance, q: seq<Move>, reask: seq<TokenId>) {
    match s.status
    case Created => q == [] && s.tokens == map[] && s.nextIncident == 0
    case Active =>
      forall id :: id in s.tokens ==>
        var w := s.tokens[id].wait;
        !w.AtIncident? && (w.Halted? ==> w.halt.AwaitingDecision? && id in reask)
    case Completed => q == [] && s.tokens == map[]
    case Terminated => q == [] && s.tokens == map[]
    case Failed =>
      && q == [] && OneCause(s) && s.nextIncident > 0
      && (forall id :: id in s.tokens ==> !s.tokens[id].wait.OnDecision?)
  }

  ghost predicate ReaskOk(s: Instance, q: seq<Move>, reask: seq<TokenId>) {
    forall id :: id in reask ==>
      && id < s.nextToken
      && (forall mv :: mv in q ==> mv.token != id)
      && (id in s.tokens ==> HaltDecision(s.tokens[id]).wait == Halted(AwaitingDecision))
  }

  // ---- scopes are inhabited

  /** Every open scope but `except` has somebody in it. */
  ghost predicate Inhabited(s: Instance, pop: Population, except: set<ScopeId>) {
    forall c :: c in s.scopes && c !in except ==> LivesIn(pop, c)
  }

  ghost predicate LivesIn(pop: Population, c: ScopeId) {
    exists a :: a in pop && pop[a].scope == c
  }

  /** `except` names a scope that is open but not yet entered. A move taken in
      hand still counts: see `InHand`. */
  ghost predicate Inv(p: Process, m: Machine, except: set<ScopeId>) {
    && Owned(p, m.s)
    && QueueOk(p, m.s, m.q)
    && StatusOk(m.s, m.q, m.reask)
    && ReaskOk(m.s, m.q, m.reask)
    && Inhabited(m.s, Everybody(p, m.s, m.q), except)
    && Safe(p, Everybody(p, m.s, m.q))
  }

  /** The machine with a move taken from the queue still counted. */
  function InHand(m: Machine, mv: Move): Machine { m.(q := m.q + [mv]) }

  /** The same of an instance at rest: nothing queued, and an active instance
      has a token left. */
  ghost predicate Resting(p: Process, s: Instance) {
    Inv(p, Idle(s), {}) && (s.status.Active? ==> s.tokens != map[])
  }
}
