/** The compiled process: the flat graph the step function walks, and what the
    linter and the compiler guarantee of it. An element is named by its node
    index; the linter makes ids and indices interchangeable. */
module Compiled {
  import opened Basics
  import opened Json

  type NodeIx = nat
  type FlowIx = nat
  /** A static scope: 0 is the process root, every embedded subprocess adds one. */
  type ScopeIx = nat

  datatype WorkKind = Service | User

  datatype TimerKind = DurationKind | DateKind | CycleKind
  datatype TimerDue = Duration(text: string) | Date(text: string) | Cycle(text: string)
  datatype TimerSource = Literal(due: TimerDue) | Variable(kind: TimerKind, path: seq<string>)

  datatype Kind =
    | Start
    | End
    | TerminateEnd
    | Task(work: WorkKind, topic: string)
    | BusinessRule(decision: string, result: seq<string>)
    | ExclusiveGateway(defaultFlow: Option<FlowIx>)
    | ParallelGateway
    | ErrorBoundary(code: Option<string>)
    | TimerCatch(due: TimerSource)
    | MessageCatch(message: string, key: seq<string>)
    | TimerBoundary(due: TimerSource, interrupting: bool)
    | MessageBoundary(message: string, key: seq<string>, interrupting: bool)
    | EventBasedGateway
    | SubProcess(body: ScopeIx)

  datatype Node = Node(kind: Kind, incoming: seq<FlowIx>, outgoing: seq<FlowIx>)

  /** A condition is what it says of a variable document. */
  datatype Flow = Flow(source: NodeIx, target: NodeIx, condition: Option<Value -> bool>)

  datatype Process = Process(
    nodes: seq<Node>,
    flows: seq<Flow>,
    errorBoundaries: map<NodeIx, seq<(Option<string>, NodeIx)>>,
    boundaries: map<NodeIx, seq<NodeIx>>,
    hosts: map<NodeIx, NodeIx>,
    sidePath: seq<bool>,
    scopeStarts: seq<NodeIx>,
    // The owning scope of every node; the compiler has it while it compiles.
    scopeOf: seq<ScopeIx>,
    // ISO-8601, from the model crate: which texts are valid, and a cycle's repeats.
    validTime: (TimerKind, string) -> bool,
    repeats: string -> Option<nat>)
  {
    function NodeAt(n: NodeIx): Node {
      if n < |nodes| then nodes[n] else Node(End, [], [])
    }

    function KindOf(n: NodeIx): Kind { NodeAt(n).kind }
    function Incoming(n: NodeIx): seq<FlowIx> { NodeAt(n).incoming }
    function Outgoing(n: NodeIx): seq<FlowIx> { NodeAt(n).outgoing }
    /** The `i`th flow out of a node that has so many. */
    function Branch(n: NodeIx, i: nat): FlowIx { if i < |Outgoing(n)| then Outgoing(n)[i] else |flows| }
    /** The one flow out of a node that has one. */
    function OnlyFlow(n: NodeIx): FlowIx { if Outgoing(n) == [] then |flows| else Outgoing(n)[0] }
    function FlowAt(f: FlowIx): Flow { if f < |flows| then flows[f] else Flow(|nodes|, |nodes|, None) }
    function Target(f: FlowIx): NodeIx { FlowAt(f).target }
    function Source(f: FlowIx): NodeIx { FlowAt(f).source }
    function ScopeStart(k: ScopeIx): NodeIx { if k < |scopeStarts| then scopeStarts[k] else |nodes| }
    /** Where an instance begins. */
    function Begin(): NodeIx { ScopeStart(0) }
    function ScopeOf(n: NodeIx): ScopeIx { if n < |scopeOf| then scopeOf[n] else 0 }
    /** Where a decision's answer goes, what a message is matched on, a subprocess's own scope. */
    function ResultPath(n: NodeIx): seq<string> { if KindOf(n).BusinessRule? then KindOf(n).result else [] }
    function KeyPath(n: NodeIx): seq<string> {
      if KindOf(n).MessageCatch? || KindOf(n).MessageBoundary? then KindOf(n).key else []
    }
    /** The document with a decision's answer at its bound path. */
    function Bind(n: NodeIx, answer: Option<Value>, v: Value): Value {
      match answer
      case Some(result) => if KindOf(n).BusinessRule? then Assign(v, ResultPath(n), result) else v
      case None => v
    }
    function Body(n: NodeIx): ScopeIx { if KindOf(n).SubProcess? then KindOf(n).body else 0 }
    /** The node a boundary is on. */
    function HostOf(n: NodeIx): NodeIx { if n in hosts then hosts[n] else |nodes| }
    function Boundaries(host: NodeIx): seq<NodeIx> { if host in boundaries then boundaries[host] else [] }
    function ErrorBoundaries(host: NodeIx): seq<(Option<string>, NodeIx)> {
      if host in errorBoundaries then errorBoundaries[host] else []
    }
    predicate OnSidePath(n: NodeIx) { n < |sidePath| && sidePath[n] }
    predicate IsJoin(n: NodeIx) { KindOf(n).ParallelGateway? && |Incoming(n)| > 1 }
    predicate IsFork(n: NodeIx) { KindOf(n).ParallelGateway? && |Incoming(n)| <= 1 }

    /** Does triggering this boundary cancel its host? */
    predicate Interrupts(n: NodeIx) {
      match KindOf(n)
      case TimerBoundary(_, interrupting) => interrupting
      case MessageBoundary(_, _, interrupting) => interrupting
      case _ => true
    }

    /** The boundary on `host` for exactly `code`, else the catch-all. */
    function ErrorBoundary(host: NodeIx, code: Option<string>): Option<NodeIx> {
      var candidates := ErrorBoundaries(host);
      var exact := if code.Some? then FirstFor(candidates, code) else None;
      if exact.Some? then exact else FirstFor(candidates, None)
    }

    /** Where a repair re-enters for an incident parked at `n`. */
    function ResumePoint(n: NodeIx): NodeIx {
      if n in hosts then hosts[n]
      else if |Incoming(n)| == 1 && KindOf(Source(Incoming(n)[0])).EventBasedGateway?
      then Source(Incoming(n)[0])
      else n
    }

    predicate IsBoundary(n: NodeIx) {
      var k := KindOf(n);
      k.ErrorBoundary? || k.TimerBoundary? || k.MessageBoundary?
    }

    predicate IsCatch(n: NodeIx) {
      KindOf(n).TimerCatch? || KindOf(n).MessageCatch?
    }

    /** A catch reached from an event-based gateway: armed by it, never entered. */
    predicate IsAlternative(n: NodeIx) {
      exists f :: f in Incoming(n) && KindOf(Source(f)).EventBasedGateway?
    }

    /** Is `n` one of the alternatives racing at `gateway`? */
    predicate Races(gateway: NodeIx, n: NodeIx) {
      exists f :: f in Outgoing(gateway) && Target(f) == n
    }

    /** Nodes a token waits at with boundaries armed on it. */
    predicate MayHost(n: NodeIx) {
      var k := KindOf(n);
      (k.Task? || k.MessageCatch? || k.SubProcess?) && !IsAlternative(n)
    }

    function Resolve(source: TimerSource, variables: Value): Option<TimerDue> {
      match source
      case Literal(due) => Some(due)
      case Variable(kind, path) =>
        var v := Json.Resolve(variables, path);
        if v.Str? && validTime(kind, v.s) then Some(DueOf(kind, v.s)) else None
    }
  }

  function DueOf(kind: TimerKind, text: string): TimerDue {
    match kind
    case DurationKind => Duration(text)
    case DateKind => Date(text)
    case CycleKind => Cycle(text)
  }

  function FirstFor(candidates: seq<(Option<string>, NodeIx)>, code: Option<string>): Option<NodeIx> {
    if candidates == [] then None
    else if candidates[0].0 == code then Some(candidates[0].1)
    else FirstFor(candidates[1..], code)
  }

  predicate NoRepeats<T(==)>(s: seq<T>) {
    forall i, j :: 0 <= i < j < |s| ==> s[i] != s[j]
  }

  /** Flow lists are exact: a flow stands once in its source's outgoing list and
      once in its target's incoming list, and stays within one scope. */
  ghost predicate FlowsWired(p: Process) {
    && |p.scopeOf| == |p.nodes|
    && (forall f :: 0 <= f < |p.flows| ==>
          && p.flows[f].source < |p.nodes| && p.flows[f].target < |p.nodes|
          && f in p.nodes[p.flows[f].source].outgoing
          && f in p.nodes[p.flows[f].target].incoming
          && p.ScopeOf(p.flows[f].source) == p.ScopeOf(p.flows[f].target))
    && (forall n :: 0 <= n < |p.nodes| ==>
          && NoRepeats(p.nodes[n].incoming) && NoRepeats(p.nodes[n].outgoing))
    && (forall n: NodeIx, f :: n < |p.nodes| && f in p.nodes[n].outgoing ==> f < |p.flows|)
    && (forall n: NodeIx, f :: n < |p.nodes| && f in p.nodes[n].incoming ==> f < |p.flows|)
    && (forall n, f :: 0 <= n < |p.nodes| && f in p.nodes[n].outgoing ==> p.flows[f].source == n)
    && (forall n, f :: 0 <= n < |p.nodes| && f in p.nodes[n].incoming ==> p.flows[f].target == n)
  }

  ghost predicate NodeWired(p: Process, n: NodeIx, f: FlowIx)
    requires n < |p.nodes|
  {
    && (f in p.nodes[n].outgoing ==> f < |p.flows| && p.flows[f].source == n)
    && (f in p.nodes[n].incoming ==> f < |p.flows| && p.flows[f].target == n)
    && NoRepeats(p.nodes[n].incoming) && NoRepeats(p.nodes[n].outgoing)
  }

  ghost predicate FlowWired(p: Process, f: FlowIx)
    requires f < |p.flows|
  {
    && p.flows[f].source < |p.nodes| && p.flows[f].target < |p.nodes|
    && f in p.nodes[p.flows[f].source].outgoing
    && f in p.nodes[p.flows[f].target].incoming
    && p.ScopeOf(p.flows[f].source) == p.ScopeOf(p.flows[f].target)
  }

  /** Wired node by node and flow by flow. */
  lemma WiredBy(p: Process)
    requires |p.scopeOf| == |p.nodes|
    requires forall n: NodeIx, f: FlowIx :: n < |p.nodes| ==> NodeWired(p, n, f)
    requires forall f: FlowIx :: f < |p.flows| ==> FlowWired(p, f)
    ensures FlowsWired(p)
  {
    forall n: NodeIx, f | n < |p.nodes| && f in p.nodes[n].outgoing ensures f < |p.flows| {
      assert NodeWired(p, n, f);
    }
    forall n: NodeIx, f | n < |p.nodes| && f in p.nodes[n].incoming ensures f < |p.flows| {
      assert NodeWired(p, n, f);
    }
    forall n: NodeIx, f | n < |p.nodes| && f in p.nodes[n].outgoing ensures p.flows[f].source == n {
      assert NodeWired(p, n, f);
    }
    forall n: NodeIx, f | n < |p.nodes| && f in p.nodes[n].incoming ensures p.flows[f].target == n {
      assert NodeWired(p, n, f);
    }
    forall n: NodeIx | n < |p.nodes| ensures NoRepeats(p.nodes[n].incoming) && NoRepeats(p.nodes[n].outgoing) {
      assert NodeWired(p, n, 0);
    }
    forall f: FlowIx | f < |p.flows|
      ensures p.flows[f].source < |p.nodes| && p.flows[f].target < |p.nodes|
      ensures f in p.nodes[p.flows[f].source].outgoing && f in p.nodes[p.flows[f].target].incoming
      ensures p.ScopeOf(p.flows[f].source) == p.ScopeOf(p.flows[f].target)
    {
      assert FlowWired(p, f);
    }
    hide NodeWired, FlowWired, NoRepeats;
  }

  lemma OutOf(p: Process, n: NodeIx, f: FlowIx)
    requires FlowsWired(p) && n < |p.nodes| && f in p.Outgoing(n)
    ensures f < |p.flows| && p.flows[f].source == n && p.Source(f) == n && p.Target(f) < |p.nodes| && f in p.Incoming(p.Target(f))
  {
    assert f in p.nodes[n].outgoing && p.flows[f].source == n;
  }

  lemma InTo(p: Process, n: NodeIx, f: FlowIx)
    requires FlowsWired(p) && n < |p.nodes| && f in p.Incoming(n)
    ensures f < |p.flows| && p.flows[f].target == n && p.Target(f) == n && p.Source(f) < |p.nodes| && f in p.Outgoing(p.Source(f))
  {
    assert f in p.nodes[n].incoming && p.flows[f].target == n;
  }

  /** The cardinalities the linter demands of a node's flows, and what may stand
      at the end of one. */
  ghost predicate ShapeOk(p: Process, n: NodeIx) {
    var node := p.NodeAt(n);
    && (forall f :: f in node.outgoing ==>
          && !p.KindOf(p.Target(f)).Start? && !p.IsBoundary(p.Target(f)))
    && match node.kind
       case Start => |node.incoming| == 0 && |node.outgoing| == 1
       case End => |node.outgoing| == 0
       case TerminateEnd => |node.outgoing| == 0
       case ExclusiveGateway(defaultFlow) =>
         && |node.outgoing| >= 1
         && (|node.outgoing| > 1 ==> defaultFlow.Some? && defaultFlow.value in node.outgoing)
       case ParallelGateway => |node.outgoing| >= 1 && (|node.incoming| > 1 ==> |node.outgoing| == 1)
       case EventBasedGateway =>
         forall f :: f in node.outgoing ==>
           p.IsCatch(p.Target(f)) && p.Incoming(p.Target(f)) == [f]
       case BusinessRule(_, result) => |node.outgoing| == 1 && result != []
       case MessageCatch(_, key) => |node.outgoing| == 1 && key != []
       case MessageBoundary(_, key, _) => |node.incoming| == 0 && |node.outgoing| == 1 && key != []
       case TimerBoundary(_, _) => |node.incoming| == 0 && |node.outgoing| == 1
       case ErrorBoundary(_) => |node.incoming| == 0 && |node.outgoing| == 1
       case _ => |node.outgoing| == 1
  }

  /** Every boundary hangs on one supported host of its own scope. */
  ghost predicate BoundariesOk(p: Process) {
    && (forall n :: 0 <= n < |p.nodes| ==> (n in p.hosts <==> p.IsBoundary(n)))
    && (forall b :: b in p.hosts ==>
          && b < |p.nodes| && p.hosts[b] < |p.nodes|
          && p.ScopeOf(b) == p.ScopeOf(p.hosts[b]))
    && (forall h, b :: h in p.boundaries && b in p.boundaries[h] ==>
          && b in p.hosts && p.hosts[b] == h && p.MayHost(h)
          && (p.KindOf(b).TimerBoundary? || p.KindOf(b).MessageBoundary?))
    && (forall h, e :: h in p.errorBoundaries && e in p.errorBoundaries[h] ==>
          && e.1 in p.hosts && p.hosts[e.1] == h
          && p.KindOf(e.1) == ErrorBoundary(e.0)
          && (p.KindOf(h).Task? || p.KindOf(h).SubProcess?))
  }

  /** Every static scope has its start, and every one but the root its subprocess. */
  ghost predicate StaticScopesOk(p: Process) {
    && |p.scopeStarts| > 0
    && (forall k :: 0 <= k < |p.scopeStarts| ==>
          && p.scopeStarts[k] < |p.nodes|
          && p.KindOf(p.scopeStarts[k]).Start?
          && p.ScopeOf(p.scopeStarts[k]) == k)
    && (forall n :: 0 <= n < |p.nodes| && p.KindOf(n).SubProcess? ==>
          0 < p.KindOf(n).body < |p.scopeStarts|)
  }

  /** What lint and compile hand to the step function. */
  ghost predicate WellFormed(p: Process) {
    && FlowsWired(p)
    && (forall n :: 0 <= n < |p.nodes| ==> ShapeOk(p, n))
    && BoundariesOk(p)
    && StaticScopesOk(p)
  }

  /** Over flows and boundaries, a token at `m` or interrupted there may come to `n`. */
  predicate Onwards(p: Process, m: NodeIx, n: NodeIx) {
    (exists f :: f in p.Outgoing(m) && p.Target(f) == n) || (n in p.hosts && p.hosts[n] == m)
  }

  predicate StartsSidePath(p: Process, n: NodeIx) {
    p.IsBoundary(n) && !p.Interrupts(n)
  }

  /** Nothing is on a side path that no non-interrupting boundary leads to, in
      ever fewer steps; and no side path comes to a parallel gateway. */
  ghost predicate SidePathsOk(p: Process) {
    && (forall n: NodeIx :: p.OnSidePath(n) ==> n < |p.nodes| && !p.KindOf(n).ParallelGateway?)
    && exists steps: NodeIx -> nat :: LedTo(p, steps)
  }

  ghost predicate LedTo(p: Process, steps: NodeIx -> nat) {
    forall n: NodeIx :: p.OnSidePath(n) ==>
      exists m: NodeIx :: m < |p.nodes| && Onwards(p, m, n) && (StartsSidePath(p, m) || (p.OnSidePath(m) && steps(m) < steps(n)))
  }
}
