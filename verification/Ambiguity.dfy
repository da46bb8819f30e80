/** Message arms that are certain to collide: what the compiler refuses, and what
    it means by it. */
module Ambiguity {
  import opened Basics
  import opened Compiled
  import opened Closure

  // ---- what is inside a subprocess

  /** Each scope but the root belongs to one subprocess, of an earlier scope. */
  ghost predicate Nested(p: Process) {
    && |p.scopeOf| == |p.nodes|
    && (forall n: NodeIx :: n < |p.nodes| ==> p.ScopeOf(n) < |p.scopeStarts|)
    && (forall n: NodeIx :: n < |p.nodes| && p.KindOf(n).SubProcess? ==> p.ScopeOf(n) < p.KindOf(n).body < |p.scopeStarts|)
    && (forall m: NodeIx, n: NodeIx :: m < |p.nodes| && n < |p.nodes| && p.KindOf(m).SubProcess? && p.KindOf(n) == p.KindOf(m) ==> m == n)
  }

  /** The subprocess whose body scope `k` is, among the nodes below `n`. */
  function OwnerBelow(p: Process, k: ScopeIx, n: nat): Option<NodeIx> {
    if n == 0 then None
    else if p.KindOf(n - 1) == SubProcess(k) then Some(n - 1)
    else OwnerBelow(p, k, n - 1)
  }

  function OwnerOf(p: Process, k: ScopeIx): Option<NodeIx> { OwnerBelow(p, k, |p.nodes|) }

  /** The scope around a scope. */
  function Around(p: Process): nat -> seq<nat> {
    (k: nat) => if OwnerOf(p, k).Some? then [p.ScopeOf(OwnerOf(p, k).value)] else []
  }

  lemma {:induction false} OwnerBelowIs(p: Process, k: ScopeIx, n: nat)
    requires n <= |p.nodes|
    ensures var o := OwnerBelow(p, k, n);
            && (o.Some? ==> o.value < n && p.KindOf(o.value) == SubProcess(k))
            && (o.None? ==> forall m: NodeIx :: m < n ==> p.KindOf(m) != SubProcess(k))
  {
    if n == 0 || p.KindOf(n - 1) == SubProcess(k) {
    } else {
      OwnerBelowIs(p, k, n - 1);
    }
  }

  /** Which scope lies around which, in one pass over the subprocesses. */
  method ParentScopes(p: Process) returns (parents: seq<Option<ScopeIx>>)
    requires Nested(p)
    ensures |parents| == |p.scopeStarts|
    ensures forall k :: 0 <= k < |parents| ==> parents[k] == ParentOf(p, k)
  {
    parents := seq(|p.scopeStarts|, k requires 0 <= k < |p.scopeStarts| => None);
    for n := 0 to |p.nodes|
      invariant |parents| == |p.scopeStarts|
      invariant forall k :: 0 <= k < |parents| ==> parents[k] == if OwnerBelow(p, k, n).Some? then Some(p.ScopeOf(OwnerBelow(p, k, n).value)) else None
    {
      var kind := p.KindOf(n);
      if kind.SubProcess? {
        parents := parents[kind.body := Some(p.ScopeOf(n))];
      }
    }
  }

  function ParentOf(p: Process, k: ScopeIx): Option<ScopeIx> {
    if OwnerOf(p, k).Some? then Some(p.ScopeOf(OwnerOf(p, k).value)) else None
  }

  lemma ParentIsOlder(p: Process, k: ScopeIx)
    requires Nested(p) && ParentOf(p, k).Some?
    ensures ParentOf(p, k).value < k
    ensures Around(p)(k) == [ParentOf(p, k).value]
  {
    OwnerBelowIs(p, k, |p.nodes|);
  }

  lemma StopsHere(edges: nat -> seq<nat>, a: nat, b: nat)
    requires Reaches(edges, a, b) && a != b
    ensures exists c :: c in edges(a) && Reaches(edges, c, b)
  {
    var path :| IsPath(edges, path, a, b);
    assert path[0 + 1] in edges(path[0]);
    assert IsPath(edges, path[1..], path[1], b);
  }

  lemma ReachesFrom(edges: nat -> seq<nat>, a: nat, b: nat, c: nat)
    requires b in edges(a) && Reaches(edges, b, c)
    ensures Reaches(edges, a, c)
  {
    var path :| IsPath(edges, path, b, c);
    assert IsPath(edges, [a] + path, a, c);
  }

  /** Up the scope-parent chain. */
  method Inside(p: Process, parents: seq<Option<ScopeIx>>, scope: ScopeIx, root: ScopeIx) returns (inside: bool)
    requires Nested(p) && scope < |p.scopeStarts| && |parents| == |p.scopeStarts|
    requires forall k :: 0 <= k < |parents| ==> parents[k] == ParentOf(p, k)
    ensures inside <==> Reaches(Around(p), scope, root)
  {
    hide Around, ParentOf, Reaches;
    var at: nat := scope;
    while true
      invariant at < |parents| && (Reaches(Around(p), scope, root) <==> Reaches(Around(p), at, root))
      decreases at
    {
      if at == root {
        ReachesSelf(Around(p), at);
        return true;
      }
      if parents[at].None? {
        NothingAround(p, at);
        if Reaches(Around(p), at, root) {
          StopsHere(Around(p), at, root);
        }
        return false;
      }
      ParentIsOlder(p, at);
      var up := parents[at].value;
      if Reaches(Around(p), at, root) {
        StopsHere(Around(p), at, root);
      }
      if Reaches(Around(p), up, root) {
        ReachesFrom(Around(p), at, up, root);
      }
      at := up;
    }
  }

  lemma NothingAround(p: Process, k: ScopeIx)
    requires ParentOf(p, k).None?
    ensures Around(p)(k) == []
  {
  }

  /** `n` is in the body of `activity`, at any depth. */
  ghost predicate InBody(p: Process, activity: NodeIx, n: NodeIx) {
    activity < |p.nodes| && n < |p.nodes| && p.KindOf(activity).SubProcess? && Reaches(Around(p), p.ScopeOf(n), p.KindOf(activity).body)
  }

  method BodyOf(p: Process, parents: seq<Option<ScopeIx>>, activity: NodeIx) returns (body: set<NodeIx>)
    requires Nested(p) && |parents| == |p.scopeStarts|
    requires forall k :: 0 <= k < |parents| ==> parents[k] == ParentOf(p, k)
    ensures forall n: NodeIx :: n in body <==> InBody(p, activity, n)
  {
    body := {};
    if activity < |p.nodes| && p.KindOf(activity).SubProcess? {
      hide Reaches, Around, ParentOf;
      for n := 0 to |p.nodes|
        invariant forall m: NodeIx :: m in body <==> m < n && InBody(p, activity, m)
      {
        var inside := Inside(p, parents, p.ScopeOf(n), p.KindOf(activity).body);
        if inside {
          body := body + {n};
        }
      }
    }
  }

  // ---- the forward closure

  /** One step of the closure: a flow, an attached boundary, a body. Error
      boundaries are no part of it. */
  ghost predicate SideStep(p: Process, v: NodeIx, w: NodeIx) {
    || (exists f :: f in p.Outgoing(v) && p.Target(f) == w)
    || w in p.Boundaries(v)
    || InBody(p, v, w)
  }

  ghost predicate IsSidePath(p: Process, path: seq<NodeIx>, a: NodeIx, b: NodeIx) {
    && path != [] && path[0] == a && path[|path| - 1] == b
    && (forall i :: 0 <= i < |path| - 1 ==> SideStep(p, path[i], path[i + 1]))
  }

  ghost predicate SideReaches(p: Process, a: NodeIx, b: NodeIx) {
    exists path :: IsSidePath(p, path, a, b)
  }

  lemma SideSelf(p: Process, a: NodeIx)
    ensures SideReaches(p, a, a)
  {
    assert IsSidePath(p, [a], a, a);
  }

  lemma SideOn(p: Process, a: NodeIx, b: NodeIx, c: NodeIx)
    requires SideReaches(p, a, b) && SideStep(p, b, c)
    ensures SideReaches(p, a, c)
  {
    var path :| IsSidePath(p, path, a, b);
    assert IsSidePath(p, path + [c], a, c);
  }

  ghost predicate SideStays(p: Process, v: NodeIx, S: set<NodeIx>) {
    forall w :: SideStep(p, v, w) ==> w in S
  }

  lemma {:induction false} SideCloses(p: Process, S: set<NodeIx>, path: seq<NodeIx>, a: NodeIx, b: NodeIx)
    requires a in S && forall v :: v in S ==> SideStays(p, v, S)
    requires IsSidePath(p, path, a, b)
    ensures b in S
    decreases |path|
  {
    if |path| <= 1 {
    } else {
      assert SideStep(p, path[0], path[0 + 1]);
      SideCloses(p, S, path[1..], path[1], b);
    }
  }

  lemma SideStepBelow(p: Process, v: NodeIx, w: NodeIx)
    requires WellFormed(p) && SideStep(p, v, w)
    ensures w < |p.nodes|
  {
    if w in p.Boundaries(v) {
      assert w in p.hosts;
    } else if f :| f in p.Outgoing(v) && p.Target(f) == w {
      FlowOnward(p, v, f);
    }
  }

  method FlowTargets(p: Process, v: NodeIx) returns (targets: set<NodeIx>)
    ensures forall w :: w in targets <==> exists f :: f in p.Outgoing(v) && p.Target(f) == w
  {
    targets := set f | f in p.Outgoing(v) :: p.Target(f);
  }

  /** The worklist's invariant: all reached is reached, and only what is still on
      the stack has its steps to take. */
  ghost predicate Exploring(p: Process, seed: NodeIx, reached: set<NodeIx>, stack: seq<NodeIx>) {
    && seed in reached && (forall v :: v in stack ==> v in reached)
    && (forall v :: v in reached ==> v < |p.nodes| && SideReaches(p, seed, v))
    && (forall v :: v in reached && v !in stack ==> SideStays(p, v, reached))
  }

  /** A stack worklist: everything a side path may come to. */
  method SideClosure(p: Process, parents: seq<Option<ScopeIx>>, seed: NodeIx) returns (reached: set<NodeIx>)
    requires WellFormed(p) && Nested(p) && seed < |p.nodes| && |parents| == |p.scopeStarts|
    requires forall k :: 0 <= k < |parents| ==> parents[k] == ParentOf(p, k)
    ensures forall n: NodeIx :: n in reached <==> SideReaches(p, seed, n)
  {
    hide WellFormed, Nested, InBody, SideStep, SideReaches, ParentOf, Exploring;
    reached := {seed};
    var stack := [seed];
    Setting(p, seed);
    while stack != []
      invariant Exploring(p, seed, reached, stack)
      invariant |reached| <= |p.nodes|
      decreases |p.nodes| - |reached|, |stack|
    {
      var v := stack[|stack| - 1];
      var targets := FlowTargets(p, v);
      var body := BodyOf(p, parents, v);
      var onward := targets + (set b | b in p.Boundaries(v)) + body;
      OnwardSteps(p, v, onward, targets, body);
      var newly := onward - reached;
      Visiting(p, seed, reached, stack, onward);
      stack := stack[..|stack| - 1] + Sorted(newly);
      reached := reached + newly;
    }
    Explored(p, seed, reached);
  }

  lemma Setting(p: Process, seed: NodeIx)
    requires seed < |p.nodes|
    ensures Exploring(p, seed, {seed}, [seed])
  {
    SideSelf(p, seed);
  }

  lemma Visiting(p: Process, seed: NodeIx, reached: set<NodeIx>, stack: seq<NodeIx>, onward: set<NodeIx>)
    requires WellFormed(p) && Exploring(p, seed, reached, stack) && stack != []
    requires forall w :: w in onward <==> SideStep(p, stack[|stack| - 1], w)
    ensures var newly := onward - reached;
            && Exploring(p, seed, reached + newly, stack[..|stack| - 1] + Sorted(newly))
            && |reached + newly| == |reached| + |newly| <= |p.nodes|
            && (newly == {} ==> |Sorted(newly)| == 0) && (newly != {} ==> |newly| > 0)
  {
    hide WellFormed, SideStep, SideReaches;
    var v, newly := stack[|stack| - 1], onward - reached;
    assert v in stack;
    forall w | w in newly ensures w < |p.nodes| && SideReaches(p, seed, w) {
      SideStepBelow(p, v, w);
      SideOn(p, seed, v, w);
    }
    BelowFits(reached + newly, |p.nodes|);
    StillStays(p, v, reached, newly, stack, stack[..|stack| - 1] + Sorted(newly));
    hide SideStays, Sorted;
    assert forall u :: u in stack[..|stack| - 1] ==> u in stack;
  }

  lemma Explored(p: Process, seed: NodeIx, reached: set<NodeIx>)
    requires Exploring(p, seed, reached, [])
    ensures forall n: NodeIx :: n in reached <==> SideReaches(p, seed, n)
  {
    forall n: NodeIx | SideReaches(p, seed, n) ensures n in reached {
      EndsInside(p, reached, seed, n);
    }
  }

  lemma EndsInside(p: Process, S: set<NodeIx>, a: NodeIx, b: NodeIx)
    requires a in S && SideReaches(p, a, b) && forall v :: v in S ==> SideStays(p, v, S)
    ensures b in S
  {
    var path :| IsSidePath(p, path, a, b);
    SideCloses(p, S, path, a, b);
  }

  lemma OnwardSteps(p: Process, v: NodeIx, onward: set<NodeIx>, targets: set<NodeIx>, body: set<NodeIx>)
    requires forall w :: w in targets <==> exists f :: f in p.Outgoing(v) && p.Target(f) == w
    requires forall w :: w in body <==> InBody(p, v, w)
    requires onward == targets + (set b | b in p.Boundaries(v)) + body
    ensures forall w :: w in onward <==> SideStep(p, v, w)
  {
    hide InBody;
  }

  lemma StillStays(p: Process, v: NodeIx, before: set<NodeIx>, more: set<NodeIx>, popped: seq<NodeIx>, stack: seq<NodeIx>)
    requires popped != [] && popped[|popped| - 1] == v && stack == popped[..|popped| - 1] + Sorted(more)
    requires forall u :: u in before && u !in popped ==> SideStays(p, u, before)
    requires forall w :: SideStep(p, v, w) ==> w in before + more
    ensures forall u :: u in before + more && u !in stack ==> SideStays(p, u, before + more)
  {
    hide SideStep;
    assert popped == popped[..|popped| - 1] + [v];
    forall u | u in before + more && u !in stack ensures SideStays(p, u, before + more) {
      assert u !in Sorted(more);
      if u != v {
        assert u !in popped;
      }
    }
  }

  // ---- arms

  function Joined(key: seq<string>): string {
    if key == [] then "" else if |key| == 1 then key[0] else key[0] + "." + Joined(key[1..])
  }

  /** The message and the binding an arm opens with. */
  function ArmOf(p: Process, n: NodeIx): Option<(string, string)> {
    match p.KindOf(n)
    case MessageCatch(message, key) => Some((message, Joined(key)))
    case MessageBoundary(message, key, _) => Some((message, Joined(key)))
    case _ => None
  }

  predicate Asks(p: Process, host: NodeIx, b: NodeIx) {
    b in p.Boundaries(host) && p.KindOf(b).MessageBoundary?
  }

  /** What is armed for as long as a host with message boundaries waits: those
      boundaries, its own arm, its body, and what runs beside it. */
  ghost predicate LiveWith(p: Process, host: NodeIx, n: NodeIx) {
    || Asks(p, host, n)
    || (n == host && p.KindOf(host).MessageCatch?)
    || InBody(p, host, n)
    || exists b :: Asks(p, host, b) && !p.Interrupts(b) && SideReaches(p, b, n)
  }

  ghost predicate HostsMessages(p: Process, host: NodeIx) {
    host in p.boundaries && exists b :: Asks(p, host, b)
  }

  /** The arms live with `host` that open with `arm`. */
  ghost function Colliding(p: Process, host: NodeIx, arm: (string, string)): set<NodeIx> {
    set n: NodeIx | n < |p.nodes| && LiveWith(p, host, n) && ArmOf(p, n) == Some(arm)
  }

  datatype Group = Group(elements: seq<NodeIx>, message: string, binding: string)

  /** Two arms or more of one host's live set with one message and one binding. */
  ghost predicate Collides(p: Process, host: NodeIx, g: Group) {
    && HostsMessages(p, host)
    && g.elements == Sorted(Colliding(p, host, (g.message, g.binding))) && |g.elements| >= 2
  }

  lemma LiveBelow(p: Process, host: NodeIx, n: NodeIx)
    requires WellFormed(p) && HostsMessages(p, host) && LiveWith(p, host, n)
    ensures n < |p.nodes|
  {
    var b0 :| Asks(p, host, b0);
    assert b0 in p.boundaries[host] && b0 in p.hosts && p.hosts[b0] == host;
    if Asks(p, host, n) {
      assert n in p.boundaries[host] && n in p.hosts;
    } else if b :| Asks(p, host, b) && !p.Interrupts(b) && SideReaches(p, b, n) {
      assert b in p.boundaries[host] && b in p.hosts;
      var path :| IsSidePath(p, path, b, n);
      if |path| > 1 {
        assert SideStep(p, path[|path| - 2], path[|path| - 2 + 1]);
        SideStepBelow(p, path[|path| - 2], n);
      }
    }
  }

  method LiveSet(p: Process, parents: seq<Option<ScopeIx>>, host: NodeIx) returns (live: set<NodeIx>)
    requires WellFormed(p) && Nested(p) && HostsMessages(p, host) && |parents| == |p.scopeStarts|
    requires forall k :: 0 <= k < |parents| ==> parents[k] == ParentOf(p, k)
    ensures forall n: NodeIx :: n in live <==> LiveWith(p, host, n)
    ensures forall n: NodeIx :: n in live ==> n < |p.nodes|
  {
    hide WellFormed, Nested, InBody, SideReaches, ParentOf;
    var attached := p.Boundaries(host);
    live := set b | b in attached && p.KindOf(b).MessageBoundary?;
    if p.KindOf(host).MessageCatch? {
      live := live + {host};
    }
    var body := BodyOf(p, parents, host);
    ghost var own := live + body;
    var side: set<NodeIx> := {};
    for i := 0 to |attached|
      invariant forall n: NodeIx :: n in side <==> exists b :: b in attached[..i] && p.KindOf(b).MessageBoundary? && !p.Interrupts(b) && SideReaches(p, b, n)
    {
      var b := attached[i];
      assert b in attached && forall c :: c in attached[..i + 1] <==> c in attached[..i] || c == b;
      if p.KindOf(b).MessageBoundary? && !p.Interrupts(b) {
        BoundaryBelow(p, host, b);
        var reached := SideClosure(p, parents, b);
        side := side + reached;
      }
    }
    assert attached[..|attached|] == attached;
    live := live + body + side;
    forall n: NodeIx | n in live ensures n < |p.nodes| {
      LiveBelow(p, host, n);
    }
  }

  lemma BoundaryBelow(p: Process, host: NodeIx, b: NodeIx)
    requires WellFormed(p) && b in p.Boundaries(host)
    ensures b < |p.nodes|
  {
    assert b in p.boundaries[host] && b in p.hosts;
  }

  // ---- the order they are told in

  /** Texts by their characters, as an ordered map of the engine keeps them. */
  predicate TextBefore(a: string, b: string) {
    b != "" && (a == "" || a[0] < b[0] || (a[0] == b[0] && TextBefore(a[1..], b[1..])))
  }

  predicate ArmBefore(a: (string, string), b: (string, string)) {
    TextBefore(a.0, b.0) || (a.0 == b.0 && TextBefore(a.1, b.1))
  }

  lemma {:induction false} TextsCompare(a: string, b: string)
    ensures a == b <==> !TextBefore(a, b) && !TextBefore(b, a)
    decreases |a|
  {
    if a == "" || b == "" || a[0] != b[0] {
    } else {
      TextsCompare(a[1..], b[1..]);
      assert a == [a[0]] + a[1..] && b == [b[0]] + b[1..];
    }
  }

  lemma {:induction false} TextsChain(a: string, b: string, c: string)
    requires TextBefore(a, b) && TextBefore(b, c)
    ensures TextBefore(a, c)
    decreases |a|
  {
    if a == "" || a[0] < b[0] || b[0] < c[0] {
    } else {
      TextsChain(a[1..], b[1..], c[1..]);
    }
  }

  lemma ArmsChain(a: (string, string), b: (string, string), c: (string, string))
    requires ArmBefore(a, b) && ArmBefore(b, c)
    ensures ArmBefore(a, c)
  {
    hide TextBefore;
    if TextBefore(a.0, b.0) && TextBefore(b.0, c.0) {
      TextsChain(a.0, b.0, c.0);
    }
    if TextBefore(a.1, b.1) && TextBefore(b.1, c.1) {
      TextsChain(a.1, b.1, c.1);
    }
  }

  predicate IsFirst(arm: (string, string), arms: set<(string, string)>) {
    arm in arms && forall b :: b in arms ==> b == arm || ArmBefore(arm, b)
  }

  lemma {:induction false} HasFirst(arms: set<(string, string)>)
    requires arms != {}
    ensures exists arm :: IsFirst(arm, arms)
    decreases |arms|
  {
    hide ArmBefore;
    var x :| x in arms;
    if arms == {x} {
      assert IsFirst(x, arms);
    } else {
      HasFirst(arms - {x});
      var y :| IsFirst(y, arms - {x});
      Before(x, y);
      if ArmBefore(x, y) {
        forall b | b in arms ensures b == x || ArmBefore(x, b) {
          if b != x && b != y {
            ArmsChain(x, y, b);
          }
        }
        assert IsFirst(x, arms);
      } else {
        assert IsFirst(y, arms);
      }
    }
  }

  lemma Before(a: (string, string), b: (string, string))
    ensures a == b || ArmBefore(a, b) || ArmBefore(b, a)
  {
    hide TextBefore;
    TextsCompare(a.0, b.0);
    TextsCompare(a.1, b.1);
  }

  function KeyOf(g: Group): (string, string) { (g.message, g.binding) }

  predicate InOrder(groups: seq<Group>) {
    forall i, j :: 0 <= i < j < |groups| ==> ArmBefore(KeyOf(groups[i]), KeyOf(groups[j]))
  }

  /** The groups of one host, by message and binding. */
  method GroupsOf(p: Process, live: set<NodeIx>, host: NodeIx) returns (groups: seq<Group>)
    requires HostsMessages(p, host)
    requires forall n: NodeIx :: n in live <==> n < |p.nodes| && LiveWith(p, host, n)
    ensures forall g :: g in groups <==> Collides(p, host, g)
    ensures InOrder(groups)
  {
    hide LiveWith, HostsMessages, Sorted, ArmBefore;
    var arms := set n | n in live && ArmOf(p, n).Some? :: ArmOf(p, n).value;
    groups := [];
    var rest := arms;
    while rest != {}
      invariant rest <= arms && InOrder(groups)
      invariant forall g :: g in groups <==> Collides(p, host, g) && KeyOf(g) in arms - rest
      invariant forall a, b :: a in arms - rest && b in rest ==> ArmBefore(a, b)
    {
      HasFirst(rest);
      var arm :| IsFirst(arm, rest);
      var elements := set n | n in live && ArmOf(p, n) == Some(arm);
      assert elements == Colliding(p, host, arm);
      if |Sorted(elements)| >= 2 {
        groups := groups + [Group(Sorted(elements), arm.0, arm.1)];
      }
      rest := rest - {arm};
    }
    forall g | Collides(p, host, g) ensures KeyOf(g) in arms {
      var colliding := Colliding(p, host, (g.message, g.binding));
      SortedIn(colliding);
      assert g.elements[0] in colliding;
    }
  }

  lemma SortedIn(S: set<nat>)
    ensures forall i :: 0 <= i < |Sorted(S)| ==> Sorted(S)[i] in S
  {
    forall i | 0 <= i < |Sorted(S)| ensures Sorted(S)[i] in S {
      assert Sorted(S)[i] in Sorted(S);
    }
  }

  predicate Distinct<T(==)>(s: seq<T>) {
    forall i, j :: 0 <= i < j < |s| ==> s[i] != s[j]
  }

  /** `host` is the first whose live set holds the group. */
  ghost predicate FirstHost(p: Process, g: Group, host: NodeIx) {
    Collides(p, host, g) && forall h :: Collides(p, h, g) ==> host <= h
  }

  predicate Precedes(h: NodeIx, g: Group, h': NodeIx, g': Group) {
    h < h' || (h == h' && ArmBefore(KeyOf(g), KeyOf(g')))
  }

  /** Host by host, and for one host by message and binding. */
  ghost predicate ToldInOrder(p: Process, found: seq<Group>) {
    forall i, j, h, h' :: 0 <= i < j < |found| && FirstHost(p, found[i], h) && FirstHost(p, found[j], h') ==> Precedes(h, found[i], h', found[j])
  }

  /** What has been found, with the host each group was found at. */
  ghost predicate FoundAt(p: Process, found: seq<Group>, at: seq<NodeIx>) {
    && |at| == |found| && (forall i :: 0 <= i < |found| ==> FirstHost(p, found[i], at[i]))
    && (forall i, j :: 0 <= i < j < |found| ==> Precedes(at[i], found[i], at[j], found[j]))
  }

  lemma FoundInOrder(p: Process, found: seq<Group>, at: seq<NodeIx>)
    requires FoundAt(p, found, at)
    ensures ToldInOrder(p, found)
  {
    hide Collides, ArmBefore;
  }

  /** One group more, of the host being looked at. */
  lemma FoundOn(p: Process, found: seq<Group>, at: seq<NodeIx>, g: Group, host: NodeIx)
    requires FoundAt(p, found, at) && FirstHost(p, g, host)
    requires forall i :: 0 <= i < |found| ==> Precedes(at[i], found[i], host, g)
    ensures FoundAt(p, found + [g], at + [host])
  {
    hide FirstHost, Precedes;
  }

  /** So far: the groups of the first `i` hosts, each once, where it was first found. */
  ghost predicate FoundUpTo(p: Process, hosts: seq<NodeIx>, i: nat, found: seq<Group>, at: seq<NodeIx>)
    requires i <= |hosts|
  {
    && (forall g :: g in found <==> exists host :: host in hosts[..i] && Collides(p, host, g))
    && Distinct(found) && FoundAt(p, found, at)
    && (forall k :: 0 <= k < |at| ==> at[k] in hosts[..i])
  }

  /** One host's groups, those that an earlier host had already left out. */
  method AddNew(p: Process, found: seq<Group>, groups: seq<Group>, ghost hosts: seq<NodeIx>, ghost i: nat, ghost at: seq<NodeIx>)
    returns (all: seq<Group>, ghost allAt: seq<NodeIx>)
    requires i < |hosts| && Ascending(hosts) && (forall host, g :: Collides(p, host, g) ==> host in hosts)
    requires FoundUpTo(p, hosts, i, found, at) && InOrder(groups) && forall g :: g in groups <==> Collides(p, hosts[i], g)
    ensures FoundUpTo(p, hosts, i + 1, all, allAt)
  {
    hide Collides, FoundAt, Precedes, InOrder;
    ghost var host := hosts[i];
    all, allAt := found, at;
    AtAligned(p, found, at);
    for j := 0 to |groups|
      invariant forall g :: g in all <==> g in found || g in groups[..j]
      invariant Distinct(all) && FoundAt(p, all, allAt) && |allAt| == |all|
      invariant forall k :: 0 <= k < |allAt| ==> allAt[k] in hosts[..i] || (allAt[k] == host && all[k] in groups[..j])
    {
      assert forall g :: g in groups[..j + 1] <==> g in groups[..j] || g == groups[j];
      if groups[j] !in all {
        assert groups[j] in groups;
        FirstAt(p, hosts, i, found, groups[j]);
        Behind(hosts, i, groups, j, all, allAt);
        FoundOn(p, all, allAt, groups[j], host);
        all, allAt := all + [groups[j]], allAt + [host];
      }
    }
    assert groups[..|groups|] == groups;
    assert forall h :: h in hosts[..i + 1] <==> h in hosts[..i] || h == host;
  }

  lemma AtAligned(p: Process, found: seq<Group>, at: seq<NodeIx>)
    requires FoundAt(p, found, at)
    ensures |at| == |found|
  {
  }

  /** The compiler's refusal: every group of colliding arms, each once, and no other,
      in the order of their hosts. */
  method AmbiguousArms(p: Process) returns (found: seq<Group>)
    requires WellFormed(p) && Nested(p)
    ensures forall g :: g in found <==> exists host :: Collides(p, host, g)
    ensures Distinct(found) && ToldInOrder(p, found)
  {
    hide WellFormed, Nested, Collides, LiveWith, ParentOf, Sorted, FoundAt, ToldInOrder, Distinct;
    var parents := ParentScopes(p);
    var hosts := Sorted(p.boundaries.Keys);
    forall host, g | Collides(p, host, g) ensures host in hosts {
      HostListed(p, host, g);
    }
    found := [];
    ghost var at: seq<NodeIx> := [];
    NothingFound(p);
    for i := 0 to |hosts|
      invariant FoundUpTo(p, hosts, i, found, at)
    {
      var host := hosts[i];
      var asking := set b | b in p.Boundaries(host) && p.KindOf(b).MessageBoundary?;
      if asking != {} {
        assert HostsMessages(p, host) by { HostAsks(p, host, asking); }
        var live := LiveSet(p, parents, host);
        var groups := GroupsOf(p, live, host);
        found, at := AddNew(p, found, groups, hosts, i, at);
      } else {
        NobodyAsks(p, host, asking);
        assert forall h :: h in hosts[..i + 1] <==> h in hosts[..i] || h == host;
      }
    }
    assert hosts[..|hosts|] == hosts;
    FoundInOrder(p, found, at);
  }

  lemma NothingFound(p: Process)
    ensures FoundAt(p, [], []) && Distinct<Group>([])
  {
  }

  /** A group that no earlier host has is first found at this one. */
  lemma FirstAt(p: Process, hosts: seq<NodeIx>, i: nat, before: seq<Group>, g: Group)
    requires i < |hosts| && Ascending(hosts) && Collides(p, hosts[i], g) && g !in before
    requires forall g :: g in before <==> exists host :: host in hosts[..i] && Collides(p, host, g)
    requires forall host :: Collides(p, host, g) ==> host in hosts
    ensures FirstHost(p, g, hosts[i])
  {
    hide Collides;
    forall k | 0 <= k < i ensures hosts[k] in hosts[..i] {
      assert hosts[..i][k] == hosts[k];
    }
    forall h | Collides(p, h, g) ensures hosts[i] <= h {
      var k :| 0 <= k < |hosts| && hosts[k] == h;
    }
  }

  lemma Behind(hosts: seq<NodeIx>, i: nat, groups: seq<Group>, j: nat, found: seq<Group>, at: seq<NodeIx>)
    requires i < |hosts| && Ascending(hosts) && j < |groups| && InOrder(groups) && |at| == |found|
    requires forall k :: 0 <= k < |at| ==> at[k] in hosts[..i] || (at[k] == hosts[i] && found[k] in groups[..j])
    ensures forall k :: 0 <= k < |at| ==> Precedes(at[k], found[k], hosts[i], groups[j])
  {
    hide ArmBefore;
  }

  lemma HostListed(p: Process, host: NodeIx, g: Group)
    requires Collides(p, host, g)
    ensures host in p.boundaries
  {
  }

  lemma HostAsks(p: Process, host: NodeIx, asking: set<NodeIx>)
    requires host in p.boundaries && asking != {}
    requires asking == set b | b in p.Boundaries(host) && p.KindOf(b).MessageBoundary?
    ensures HostsMessages(p, host)
  {
    var b :| b in asking;
    assert Asks(p, host, b);
  }

  lemma NobodyAsks(p: Process, host: NodeIx, asking: set<NodeIx>)
    requires asking == {} && asking == set b | b in p.Boundaries(host) && p.KindOf(b).MessageBoundary?
    ensures forall g :: !Collides(p, host, g)
  {
    forall b ensures !Asks(p, host, b) {
      assert b !in asking;
    }
  }

  /** A group is reported exactly when two distinct arms with one message and one
      binding are live with one host. */
  lemma AmbiguousExactlyWhenTwo(p: Process, host: NodeIx, arm: (string, string))
    requires WellFormed(p) && HostsMessages(p, host)
    ensures (exists g :: Collides(p, host, g) && (g.message, g.binding) == arm)
       <==> exists a: NodeIx, b: NodeIx :: a != b && LiveWith(p, host, a) && LiveWith(p, host, b) && ArmOf(p, a) == ArmOf(p, b) == Some(arm)
  {
    hide WellFormed, LiveWith, HostsMessages, Sorted, ArmOf;
    var colliding := Colliding(p, host, arm);
    var g := Group(Sorted(colliding), arm.0, arm.1);
    SortedIn(colliding);
    if |colliding| >= 2 {
      assert Collides(p, host, g);
      assert g.elements[0] != g.elements[1];
      assert g.elements[0] in colliding && g.elements[1] in colliding;
    }
    if a: NodeIx, b: NodeIx :| a != b && LiveWith(p, host, a) && LiveWith(p, host, b) && ArmOf(p, a) == ArmOf(p, b) == Some(arm) {
      LiveBelow(p, host, a);
      LiveBelow(p, host, b);
      assert {a, b} <= colliding;
      SubsetFits({a, b}, colliding);
    }
  }
}
