/** Error boundaries are no part of the closure that looks for colliding arms, though
    they are part of a side path: when that makes no difference, what the refusal
    misses when it does, and a process and a run that show it. */
module Unseen {
  import opened Basics
  import opened Json
  import opened Compiled
  import opened State
  import opened Advance
  import opened Step
  import opened Running
  import opened Runs
  import opened Closure
  import opened Ambiguity
  import opened Regions

  // ---- the closure with error boundaries

  /** A step of the closure, or into an error boundary. */
  ghost predicate FullStep(p: Process, v: NodeIx, w: NodeIx) {
    SideStep(p, v, w) || w in Nodes(p.ErrorBoundaries(v))
  }

  ghost predicate IsFullPath(p: Process, path: seq<NodeIx>, a: NodeIx, b: NodeIx) {
    && path != [] && path[0] == a && path[|path| - 1] == b
    && (forall i :: 0 <= i < |path| - 1 ==> FullStep(p, path[i], path[i + 1]))
  }

  ghost predicate FullReaches(p: Process, a: NodeIx, b: NodeIx) {
    exists path :: IsFullPath(p, path, a, b)
  }

  /** What the closure of `b` comes to holds every error boundary of its own hosts. */
  ghost predicate HoldsErrors(p: Process, b: NodeIx) {
    forall v, e :: SideReaches(p, b, v) && e in Nodes(p.ErrorBoundaries(v)) ==> SideReaches(p, b, e)
  }

  lemma SideIsFull(p: Process, a: NodeIx, b: NodeIx)
    requires SideReaches(p, a, b)
    ensures FullReaches(p, a, b)
  {
    hide SideStep;
    var path :| IsSidePath(p, path, a, b);
    assert IsFullPath(p, path, a, b);
  }

  lemma FullOn(p: Process, a: NodeIx, b: NodeIx, c: NodeIx)
    requires FullReaches(p, a, b) && FullStep(p, b, c)
    ensures FullReaches(p, a, c)
  {
    hide FullStep;
    var path :| IsFullPath(p, path, a, b);
    assert IsFullPath(p, path + [c], a, c);
  }

  lemma {:induction false} FullIsSide(p: Process, path: seq<NodeIx>, a: NodeIx, b: NodeIx)
    requires HoldsErrors(p, a) && IsFullPath(p, path, a, b)
    ensures SideReaches(p, a, b)
    decreases |path|
  {
    hide SideReaches, SideStep;
    if |path| == 1 {
      SideSelf(p, a);
    } else {
      var front, v := path[..|path| - 1], path[|path| - 2];
      assert FullStep(p, v, path[|path| - 2 + 1]);
      assert IsFullPath(p, front, a, v);
      FullIsSide(p, front, a, v);
      if SideStep(p, v, b) {
        SideOn(p, a, v, b);
      }
    }
  }

  /** The closure is the whole side path exactly when it holds the error boundaries
      of what is on it. */
  lemma ClosuresAgreeExactlyWhen(p: Process, b: NodeIx)
    ensures (forall n :: FullReaches(p, b, n) <==> SideReaches(p, b, n)) <==> HoldsErrors(p, b)
  {
    hide FullReaches, SideReaches, SideStep;
    if HoldsErrors(p, b) {
      forall n ensures FullReaches(p, b, n) <==> SideReaches(p, b, n) {
        if FullReaches(p, b, n) {
          FullEnds(p, b, n);
        }
        if SideReaches(p, b, n) {
          SideIsFull(p, b, n);
        }
      }
    } else {
      var v, e :| SideReaches(p, b, v) && e in Nodes(p.ErrorBoundaries(v)) && !SideReaches(p, b, e);
      SideIsFull(p, b, v);
      FullOn(p, b, v, e);
      assert FullReaches(p, b, e) && !SideReaches(p, b, e);
    }
  }

  lemma FullEnds(p: Process, a: NodeIx, b: NodeIx)
    requires HoldsErrors(p, a) && FullReaches(p, a, b)
    ensures SideReaches(p, a, b)
  {
    hide HoldsErrors;
    var path :| IsFullPath(p, path, a, b);
    FullIsSide(p, path, a, b);
  }

  // ---- what the refusal misses

  /** Live with the host, error paths counted. */
  ghost predicate FullLiveWith(p: Process, host: NodeIx, n: NodeIx) {
    || LiveWith(p, host, n)
    || exists b :: Asks(p, host, b) && !p.Interrupts(b) && FullReaches(p, b, n)
  }

  ghost function FullColliding(p: Process, host: NodeIx, arm: (string, string)): set<NodeIx> {
    set n: NodeIx | n < |p.nodes| && FullLiveWith(p, host, n) && ArmOf(p, n) == Some(arm)
  }

  ghost predicate FullCollides(p: Process, host: NodeIx, g: Group) {
    && HostsMessages(p, host)
    && g.elements == Sorted(FullColliding(p, host, (g.message, g.binding))) && |g.elements| >= 2
  }

  /** An arm that only an error path brings beside the host, where another arm waits
      for the same message under the same binding. */
  ghost predicate Misses(p: Process, host: NodeIx, n: NodeIx) {
    && n < |p.nodes| && FullLiveWith(p, host, n) && !LiveWith(p, host, n) && ArmOf(p, n).Some?
    && exists m: NodeIx :: m < |p.nodes| && m != n && FullLiveWith(p, host, m) && ArmOf(p, m) == ArmOf(p, n)
  }

  lemma CollidingIsFull(p: Process, host: NodeIx, arm: (string, string))
    ensures Colliding(p, host, arm) <= FullColliding(p, host, arm)
  {
  }

  lemma NothingMissed(p: Process, host: NodeIx, arm: (string, string))
    requires forall n: NodeIx :: !Misses(p, host, n)
    ensures FullColliding(p, host, arm) == Colliding(p, host, arm) || |FullColliding(p, host, arm)| <= 1
  {
    hide FullLiveWith, LiveWith, ArmOf;
    var full := FullColliding(p, host, arm);
    if |full| > 1 {
      CollidingIsFull(p, host, arm);
      forall n | n in full ensures n in Colliding(p, host, arm) {
        assert |full - {n}| == |full| - 1;
        var m :| m in full - {n};
        assert !Misses(p, host, n);
      }
    }
  }

  /** The refusal names every collision, error paths counted, exactly when no such
      arm is missed. What a caller can check on the graph alone is `HoldsErrors`:
      `RefusalComplete` shows that with it nothing is missed at any host. */
  lemma RefusalCompleteExactlyWhen(p: Process, host: NodeIx)
    requires HostsMessages(p, host)
    ensures (forall g :: FullCollides(p, host, g) <==> Collides(p, host, g)) <==> forall n: NodeIx :: !Misses(p, host, n)
  {
    hide FullLiveWith, LiveWith, ArmOf, Sorted, HostsMessages, Misses, Colliding, FullColliding;
    if forall n: NodeIx :: !Misses(p, host, n) {
      forall g ensures FullCollides(p, host, g) <==> Collides(p, host, g) {
        NothingMissed(p, host, KeyOf(g));
        CollidingIsFull(p, host, KeyOf(g));
        SubsetFits(Colliding(p, host, KeyOf(g)), FullColliding(p, host, KeyOf(g)));
      }
    } else {
      var n: NodeIx :| Misses(p, host, n);
      MissedIsUntold(p, host, n);
    }
  }

  lemma MissedIsUntold(p: Process, host: NodeIx, n: NodeIx)
    requires HostsMessages(p, host) && Misses(p, host, n)
    ensures exists g :: FullCollides(p, host, g) && !Collides(p, host, g)
  {
    hide FullLiveWith, LiveWith, ArmOf, HostsMessages;
    var arm := ArmOf(p, n).value;
    var full := FullColliding(p, host, arm);
    var m: NodeIx :| m < |p.nodes| && m != n && FullLiveWith(p, host, m) && ArmOf(p, m) == ArmOf(p, n);
    assert {m, n} <= full;
    SubsetFits({m, n}, full);
    var g := Group(Sorted(full), arm.0, arm.1);
    assert FullCollides(p, host, g);
    assert n in g.elements && n !in Colliding(p, host, arm);
  }

  /** With closures that hold their error boundaries nothing is missed. */
  lemma RefusalComplete(p: Process)
    requires forall host, b :: Asks(p, host, b) && !p.Interrupts(b) ==> HoldsErrors(p, b)
    ensures forall host, g :: FullCollides(p, host, g) <==> Collides(p, host, g)
  {
    hide HoldsErrors, FullReaches, SideReaches, Sorted, Asks, Process.Interrupts, FullCollides, Collides;
    forall host, g ensures FullCollides(p, host, g) <==> Collides(p, host, g) {
      if HostsMessages(p, host) {
        forall n: NodeIx ensures !Misses(p, host, n) {
          NothingBeside(p, host, n);
        }
        RefusalCompleteExactlyWhen(p, host);
      } else {
        NobodyTold(p, host, g);
      }
    }
  }

  lemma NobodyTold(p: Process, host: NodeIx, g: Group)
    requires !HostsMessages(p, host)
    ensures !FullCollides(p, host, g) && !Collides(p, host, g)
  {
  }

  lemma NothingBeside(p: Process, host: NodeIx, n: NodeIx)
    requires forall b :: Asks(p, host, b) && !p.Interrupts(b) ==> HoldsErrors(p, b)
    ensures !Misses(p, host, n)
  {
    hide HoldsErrors, FullReaches, SideReaches, Asks, Process.Interrupts, InBody, ArmOf;
    if b :| Asks(p, host, b) && !p.Interrupts(b) && FullReaches(p, b, n) {
      FullEnds(p, b, n);
    }
  }

  // ---- a process

  /** A task whose message boundary lets a side path out, on which a failing task
      sends the token to a catch of the boundary's own message. */
  const UNSEEN := Process(
    [Node(Start, [], [0]),
     Node(Task(User, ""), [0], [1]),
     Node(End, [1], []),
     Node(MessageBoundary("m", ["k"], false), [], [2]),
     Node(Task(Service, "t"), [2], [3]),
     Node(End, [3], []),
     Node(ErrorBoundary(None), [], [4]),
     Node(MessageCatch("m", ["k"]), [4], [5]),
     Node(End, [5], [])],
    [Flow(0, 1, None), Flow(1, 2, None), Flow(3, 4, None), Flow(4, 5, None), Flow(6, 7, None), Flow(7, 8, None)],
    map[4 := [(None, 6)]], map[1 := [3]], map[3 := 1, 6 := 4],
    [false, false, false, false, true, true, true, true, true], [0], [0, 0, 0, 0, 0, 0, 0, 0, 0],
    (kind, text) => false, text => None)

  // The task and its boundary; the failing task, its boundary and the catch behind it.
  const HOST: NodeIx := 1
  const ASIDE: NodeIx := 3
  const ESCAPE: NodeIx := 6
  const CATCH: NodeIx := 7

  lemma UnseenSteps(v: NodeIx, w: NodeIx)
    requires SideStep(UNSEEN, v, w) && v in {3, 4, 5}
    ensures w in {4, 5}
  {
    var p := UNSEEN;
    assert p.Outgoing(3) == [2] && p.Outgoing(4) == [3] && p.Outgoing(5) == [];
    assert p.Target(2) == 4 && p.Target(3) == 5;
  }

  lemma UnseenLive(n: NodeIx)
    requires LiveWith(UNSEEN, HOST, n)
    ensures n in {3, 4, 5}
  {
    var p := UNSEEN;
    assert p.Boundaries(1) == [3];
    if b :| Asks(p, 1, b) && SideReaches(p, b, n) {
      var path :| IsSidePath(p, path, b, n);
      forall v | v in {3, 4, 5} ensures SideStays(p, v, {3, 4, 5}) {
        forall w | SideStep(p, v, w) ensures w in {3, 4, 5} {
          UnseenSteps(v, w);
        }
      }
      SideCloses(p, {3, 4, 5}, path, b, n);
    }
  }

  lemma UnseenAlone(arm: (string, string))
    ensures |Colliding(UNSEEN, HOST, arm)| <= 1
  {
    var colliding := Colliding(UNSEEN, HOST, arm);
    forall n | n in colliding ensures n == 3 {
      UnseenLive(n);
    }
    assert colliding <= {3};
    SubsetFits(colliding, {3});
  }

  lemma UnseenWired()
    ensures FlowsWired(UNSEEN)
  {
    assert |UNSEEN.nodes| == |UNSEEN.scopeOf| == 9;
    assert forall n: NodeIx, f: FlowIx :: n < 9 ==> NodeWired(UNSEEN, n, f);
    assert forall f: FlowIx :: f < |UNSEEN.flows| ==> FlowWired(UNSEEN, f);
    hide UNSEEN, NodeWired, FlowWired, FlowsWired;
    WiredBy(UNSEEN);
  }

  lemma UnseenShape(n: NodeIx)
    requires n < 9
    ensures ShapeOk(UNSEEN, n)
  {
  }

  lemma UnseenAttached()
    ensures var p := UNSEEN;
            && p.hosts.Keys == {3, 6} && p.boundaries.Keys == {1} && p.boundaries[1] == [3] && p.hosts[3] == 1 && p.MayHost(1)
            && p.KindOf(3).MessageBoundary?
            && p.errorBoundaries.Keys == {4} && p.errorBoundaries[4] == [(None, 6)] && p.hosts[6] == 4
            && p.KindOf(6) == ErrorBoundary(None) && p.KindOf(4).Task?
  {
    assert !UNSEEN.IsAlternative(1);
  }

  lemma UnseenBoundaries()
    ensures BoundariesOk(UNSEEN)
  {
    assert |UNSEEN.nodes| == 9;
    UnseenAttached();
    assert forall n: NodeIx :: n < 9 ==> (n in UNSEEN.hosts <==> UNSEEN.IsBoundary(n));
    assert forall n: NodeIx :: n in UNSEEN.hosts ==> UNSEEN.hosts[n] < 9 && UNSEEN.ScopeOf(n) == UNSEEN.ScopeOf(UNSEEN.hosts[n]);
    hide UNSEEN;
  }

  lemma UnseenStatics()
    ensures StaticScopesOk(UNSEEN)
  {
    assert |UNSEEN.nodes| == 9 && UNSEEN.scopeStarts == [0] && UNSEEN.KindOf(0).Start? && UNSEEN.ScopeOf(0) == 0;
    assert forall n: NodeIx :: !UNSEEN.KindOf(n).SubProcess?;
    hide UNSEEN;
  }

  lemma UnseenWellFormed()
    ensures WellFormed(UNSEEN)
  {
    assert |UNSEEN.nodes| == 9;
    UnseenWired();
    UnseenBoundaries();
    UnseenStatics();
    hide UNSEEN, FlowsWired, ShapeOk, BoundariesOk, StaticScopesOk;
    forall n: NodeIx | n < |UNSEEN.nodes| ensures ShapeOk(UNSEEN, n) {
      UnseenShape(n);
    }
  }

  // ---- it passes the linter

  function Next(n: NodeIx): set<NodeIx> {
    if n == 0 then {1} else if n == 1 then {2, 3} else if n == 3 then {4} else if n == 4 then {5, 6}
    else if n == 6 then {7} else if n == 7 then {8} else {}
  }

  function Out(n: NodeIx): seq<FlowIx> {
    if n == 0 then [0] else if n == 1 then [1] else if n == 3 then [2] else if n == 4 then [3]
    else if n == 6 then [4] else if n == 7 then [5] else []
  }

  function EndOf(f: FlowIx): NodeIx {
    if f == 0 then 1 else if f == 1 then 2 else if f == 2 then 4 else if f == 3 then 5 else if f == 4 then 7 else 8
  }

  lemma OutIs(n: NodeIx)
    ensures UNSEEN.Outgoing(n) == Out(n)
  {
  }

  lemma EndOfIs(f: FlowIx)
    requires f < 6
    ensures UNSEEN.Target(f) == EndOf(f)
  {
  }

  lemma NextIs(m: NodeIx, n: NodeIx)
    ensures Onwards(UNSEEN, m, n) <==> n in Next(m)
  {
    UnseenAttached();
    OutIs(m);
    hide UNSEEN;
    forall f: FlowIx | f < 6 ensures UNSEEN.Target(f) == EndOf(f) {
      EndOfIs(f);
    }
    if n in Next(m) && n !in {3, 6} {
      assert Out(m)[0] in Out(m);
    }
  }

  lemma AheadByFlow(p: Process, m: NodeIx, f: FlowIx)
    requires f in p.Outgoing(m)
    ensures p.Target(f) in OnwardOf(p, m)
  {
    var i :| 0 <= i < |p.Outgoing(m)| && p.Outgoing(m)[i] == f;
    assert OnwardOf(p, m)[i] == p.Target(f);
  }

  lemma NextIsAhead(m: NodeIx, n: NodeIx)
    requires n in Next(m)
    ensures n in OnwardOf(UNSEEN, m)
  {
    var p := UNSEEN;
    UnseenAttached();
    if n == 6 {
      assert Nodes(p.ErrorBoundaries(4))[0] == 6;
    } else if n == 3 {
      assert p.Boundaries(1) == [3];
    } else {
      AheadByFlow(p, m, p.Outgoing(m)[0]);
    }
  }

  /** The closed set the side path of the boundary runs in. */
  const SIDE: set<NodeIx> := {3, 4, 5, 6, 7, 8}

  lemma {:induction false} WalksWithin(path: seq<NodeIx>, v: NodeIx)
    requires IsWalk(UNSEEN, path, ASIDE, v)
    ensures v in SIDE
    decreases |path|
  {
    hide UNSEEN;
    if |path| == 1 {
    } else {
      var front, u := path[..|path| - 1], path[|path| - 2];
      assert Onwards(UNSEEN, u, path[|path| - 2 + 1]);
      WalksWithin(front, u);
      NextIs(u, v);
    }
  }

  lemma {:induction false} AheadWithin(path: seq<nat>, v: NodeIx)
    requires IsPath(OnwardIn(UNSEEN), path, ASIDE, v)
    ensures v in SIDE
    decreases |path|
  {
    hide UNSEEN, OnwardOf;
    if |path| == 1 {
    } else {
      var front, u := path[..|path| - 1], path[|path| - 2];
      assert path[|path| - 2 + 1] in OnwardIn(UNSEEN)(u);
      AheadWithin(front, u);
      UnseenWellFormed();
      hide WellFormed;
      OnwardIs(UNSEEN, u, v);
      NextIs(u, v);
    }
  }

  lemma UnseenBoundary(n: NodeIx)
    ensures StartsSidePath(UNSEEN, n) <==> n == 3
    ensures n in UNSEEN.hosts && !UNSEEN.Interrupts(n) <==> n == 3
    ensures !IsSplit(UNSEEN, n) && !UNSEEN.IsJoin(n) && !UNSEEN.KindOf(n).ParallelGateway? && |UNSEEN.nodes| == 9
    ensures n < |UNSEEN.sidePath| <==> n < 9
    ensures n < 9 ==> (UNSEEN.sidePath[n] <==> n in SIDE - {3})
  {
  }

  /** Each node of the side path is one step ahead of another. */
  function Back(n: NodeIx): NodeIx { if n == 4 then 3 else if n == 5 || n == 6 then 4 else if n == 7 then 6 else 7 }

  lemma {:induction false} SideAhead(n: NodeIx)
    requires n in SIDE
    ensures OnSideOf(UNSEEN, ASIDE, n)
    ensures n != ASIDE ==> OnPathOf(UNSEEN, ASIDE, n)
    decreases n
  {
    UnseenBoundary(3);
    hide UNSEEN, OnwardOf;
    if n == 3 {
      assert IsWalk(UNSEEN, [3], 3, 3);
    } else {
      var m := Back(n);
      assert n in Next(m) && m in SIDE && m < n;
      SideAhead(m);
      NextIs(m, n);
      NextIsAhead(m, n);
      var path :| IsWalk(UNSEEN, path, 3, m);
      WalkOn(UNSEEN, path, 3, m, n);
      ReachesSelf(OnwardIn(UNSEEN), 3);
      ReachesOn(OnwardIn(UNSEEN), 3, m, n);
    }
  }

  lemma UnseenSided(n: NodeIx)
    ensures Sided(UNSEEN, n) <==> n in SIDE - {3}
  {
    if n in SIDE - {3} {
      SideAhead(n);
    }
    if Sided(UNSEEN, n) {
      var b: NodeIx :| OnPathOf(UNSEEN, b, n);
      UnseenBoundary(b);
      hide UNSEEN;
      var path :| IsPath(OnwardIn(UNSEEN), path, b, n);
      AheadWithin(path, n);
    }
  }

  lemma UnseenSides()
    ensures SidePathRule(UNSEEN)
  {
    hide UNSEEN, Onwards, OnSideOf;
    forall b, v | OnSideOf(UNSEEN, b, v) && v != b
      ensures !UNSEEN.KindOf(v).ParallelGateway?
      ensures forall u: NodeIx :: u < |UNSEEN.nodes| && Onwards(UNSEEN, u, v) ==> OnSideOf(UNSEEN, b, u)
    {
      UnseenBoundary(v);
      UnseenBeside(b, v);
    }
  }

  lemma UnseenBalanced()
    ensures ReachedRule(UNSEEN) && exists R: Regions :: Balanced(UNSEEN, R)
  {
    forall n: NodeIx ensures !IsSplit(UNSEEN, n) && !UNSEEN.IsJoin(n) {
      UnseenBoundary(n);
    }
    hide UNSEEN, IsSplit, Process.IsJoin;
    var R: map<NodeIx, Region> := map[];
    assert Balanced(UNSEEN, R);
  }

  /** The linter lets it through, and its side paths are the compiler's. */
  lemma UnseenIsAccepted()
    ensures LintAccepts(UNSEEN) && SidePathCompiled(UNSEEN) && Nested(UNSEEN) && Linted(UNSEEN)
  {
    hide UNSEEN, WellFormed, Nested, HostRule, SidePathCompiled, SidePathRule, ReachedRule, Balanced;
    UnseenWellFormed();
    UnseenNested();
    UnseenHosted();
    UnseenSides();
    UnseenBalanced();
    UnseenCompiled();
    AcceptedIsLinted(UNSEEN);
  }

  lemma UnseenBeside(b: NodeIx, v: NodeIx)
    requires OnSideOf(UNSEEN, b, v) && v != b
    ensures forall u: NodeIx :: Onwards(UNSEEN, u, v) ==> OnSideOf(UNSEEN, b, u)
  {
    UnseenBoundary(b);
    hide UNSEEN, OnSideOf, Onwards;
    assert b == 3 && exists path :: IsWalk(UNSEEN, path, b, v) by { SideIsWalk(b, v); }
    var path :| IsWalk(UNSEEN, path, b, v);
    WalksWithin(path, v);
    forall u: NodeIx | Onwards(UNSEEN, u, v) ensures OnSideOf(UNSEEN, b, u) {
      NextIs(u, v);
      SideAhead(u);
    }
  }

  lemma SideIsWalk(b: NodeIx, v: NodeIx)
    requires OnSideOf(UNSEEN, b, v)
    ensures b == 3 && exists path :: IsWalk(UNSEEN, path, b, v)
  {
    UnseenBoundary(b);
    hide UNSEEN;
  }

  lemma UnseenCompiled()
    ensures SidePathCompiled(UNSEEN)
  {
    assert |UNSEEN.sidePath| == |UNSEEN.nodes| == 9;
    hide UNSEEN, Sided;
    forall n: NodeIx | n < 9 ensures UNSEEN.sidePath[n] <==> Sided(UNSEEN, n) {
      UnseenBoundary(n);
      UnseenSided(n);
    }
  }

  lemma UnseenNested()
    ensures Nested(UNSEEN)
  {
    assert |UNSEEN.nodes| == |UNSEEN.scopeOf| == 9 && |UNSEEN.scopeStarts| == 1;
    assert forall n: NodeIx :: !UNSEEN.KindOf(n).SubProcess? && UNSEEN.ScopeOf(n) == 0;
  }

  lemma UnseenHosted()
    ensures HostRule(UNSEEN)
  {
    UnseenAttached();
  }

  // ---- a run that freezes on what was not refused

  const DOC := Obj(map["k" := Str("x")])

  lemma DocIs()
    ensures KeyText(Json.Resolve(DOC, ["k"])) == Some("x") && Merge(DOC, EMPTY) == DOC
  {
    assert Lookup(DOC, ["k"]) == Lookup(Str("x"), ["k"][1..]) == Some(Str("x"));
    assert Merge(DOC, EMPTY).members == DOC.members;
  }

  /** The row of the boundary's arm. */
  const ARM := Sub(3, 0, "m", "x")

  const STARTED := Instance(Active, DOC, map[], map[], map[], map[], map[], 1, 0, 0, 0, 1, 0)

  /** Waiting at the task, its boundary armed. */
  const WAITING := Instance(Active, DOC, map[0 := Token(1, ROOT, OnItem(0))], map[0 := Item(1, 0, User, "", true)], map[],
                            map[0 := ARM], map[], 1, 1, 0, 1, 1, 0)

  /** The side token at the failing task. */
  const BESIDE := Instance(Active, DOC, map[0 := Token(1, ROOT, OnItem(0)), 1 := Token(4, ROOT, OnItem(1))],
                           map[0 := Item(1, 0, User, "", true), 1 := Item(4, 1, Service, "t", true)], map[],
                           map[1 := ARM], map[], 2, 2, 0, 2, 1, 0)

  /** Delivered: the boundary armed again, its side token on the way to that task. */
  const SENT := WAITING.(subs := map[1 := ARM], nextSub := 2, nextToken := 2)

  const TO_START := [Move(0, 0, None, ROOT)]
  const TO_TASK := [Move(0, 1, Some(0), ROOT)]
  const TO_SERVICE := [Move(1, 4, Some(2), ROOT)]
  const TO_CATCH := [Move(1, 7, Some(4), ROOT)]

  const STARTS := StartWith(DOC)
  const DELIVERS := DeliverMessage(0, EMPTY)
  const FAILS := RaiseError(1, None)

  /** The run: a delivery, then an error on the side path. The instance is frozen at
      the catch, on a second subscription for the message its host waits for. */
  const COLLISION := [STARTS, DELIVERS, FAILS]

  const SIDE_TOKEN: TokenId := 1

  /** Frozen at the catch, on the key that the boundary's arm holds already. */
  ghost predicate FrozenAtCatch(s: Instance, ev: seq<Event>) {
    && s.status.Failed? && s.OpenIncident() == Some(0)
    && SIDE_TOKEN in s.tokens && s.tokens[SIDE_TOKEN] == Token(CATCH, ROOT, AtIncident)
    && DuplicateSubscription(CATCH, "m", "x") in ev
  }

  lemma Starts() returns (m: Machine)
    ensures OpenCommand(UNSEEN, NEW_INSTANCE, STARTS) == Opened(m)
    ensures m.q == TO_START && m.reask == []
    ensures m.s == STARTED
  {
    m := OpenStart(UNSEEN, NEW_INSTANCE, DOC).m;
  }

  lemma LeavesStart(m: Machine)
    requires m.q == TO_START
    ensures var o := Advance1(UNSEEN, m);
            o.Ok? && o.m.s == m.s && o.m.q == TO_TASK && o.m.reask == m.reask
  {
    assert UNSEEN.Outgoing(0) == [0] && UNSEEN.Target(0) == 1;
  }

  lemma ComesToTask(m: Machine)
    requires m.q == TO_TASK && m.s == STARTED
    ensures var o := Advance1(UNSEEN, m); o.Ok? && o.m.s == WAITING && o.m.q == [] && o.m.reask == m.reask
  {
    assert UNSEEN.KindOf(HOST) == Task(User, "") && UNSEEN.Boundaries(HOST) == [ASIDE] && UNSEEN.KindOf(ASIDE) == MessageBoundary("m", ["k"], false);
    TaskIsEntered(UNSEEN, m, m.Head());
    var m1 := OpenItem(Started(m.(q := [], scope := ROOT), HOST), 0, HOST, User, "");
    KeyIsFree(m1.s, None);
    hide UNSEEN, ArmKey, Advance1, DOC;
    ArmsFirst(UNSEEN, m1, 0, ASIDE);
  }

  lemma TaskIsEntered(p: Process, m: Machine, mv: Move)
    requires m.q == [mv] && p.KindOf(mv.node).Task?
    ensures match p.KindOf(mv.node)
            case Task(work, topic) =>
              Advance1(p, m) == Outcome.Ok(EnterTask(p, m.(q := [], scope := mv.scope), mv.token, mv.node, work, topic))
            case _ => false
  {
    hide EnterMessageCatch, EnterTask, EnterTimerCatch, EnterEventGateway, EnterSubProcess, EnterJoin, ForkOn;
    assert m.q[1..] == [];
  }

  lemma ArmsFirst(p: Process, m: Machine, token: TokenId, n: NodeIx)
    ensures ArmAll(p, m, token, [n]) == Arm(p, m, token, n)
  {
    hide Arm;
    assert [n][1..] == [];
  }

  /** The boundary's key is free when its own row is not counted. */
  lemma KeyIsFree(s: Instance, excluding: Option<SubId>)
    requires forall id :: id in s.subs ==> Some(id) == excluding
    ensures ArmKey(UNSEEN, s, DOC, ASIDE, excluding) == Key("m", "x")
  {
    DocIs();
    assert UNSEEN.KindOf(3) == MessageBoundary("m", ["k"], false);
    hide UNSEEN, Json.Resolve, KeyText, DOC;
  }

  lemma GoesBeside(m: Machine)
    requires m.s == WAITING.(subs := map[]) && m.q == [] && m.reask == []
    ensures var o := MessageSidePath(UNSEEN, m, ARM);
            && o.Ok? && o.m.q == TO_SERVICE && o.m.reask == []
            && o.m.s == SENT
  {
    KeyIsFree(m.s, None);
    assert UNSEEN.Outgoing(3) == [2] && UNSEEN.Target(2) == 4;
    hide UNSEEN, ArmKey, DOC;
  }

  /** A delivery to a boundary that leaves its host alone. */
  lemma DeliversAside(p: Process, s: Instance, id: SubId)
    requires s.status.Active? && id in s.subs && s.SubAt(id).token in s.tokens && s.TokenAt(s.SubAt(id).token).wait.OnItem?
    requires p.KindOf(s.SubAt(id).element).MessageBoundary? && !p.Interrupts(s.SubAt(id).element)
    requires ArmKey(p, s, Merge(s.variables, EMPTY), s.SubAt(id).element, Some(id)).Key?
    ensures var sub := s.SubAt(id);
            var m := Say(Idle(s.(subs := s.subs - {id})), MessageReceived(id, sub.element, sub.message));
            OpenDeliverMessage(p, s, id, EMPTY) == Open(MessageSidePath(p, m, sub))
  {
    hide ArmKey, MessageSidePath, Merge;
  }

  lemma Delivers() returns (m: Machine)
    ensures OpenCommand(UNSEEN, WAITING, DELIVERS) == Opened(m)
    ensures m.q == TO_SERVICE && m.reask == []
    ensures m.s == SENT
  {
    hide OpenDeliverMessage, MessageSidePath, ArmKey, KeyText, Json.Resolve, Merge;
    DocIs();
    KeyIsFree(WAITING, Some(0));
    assert UNSEEN.KindOf(3) == MessageBoundary("m", ["k"], false);
    hide UNSEEN, DOC;
    DeliversAside(UNSEEN, WAITING, 0);
    var m0 := Say(Idle(WAITING.(subs := map[])), MessageReceived(0, 3, "m"));
    assert WAITING.subs - {0} == map[];
    GoesBeside(m0);
    m := MessageSidePath(UNSEEN, m0, ARM).m;
  }

  lemma ComesToService(m: Machine)
    requires m.q == TO_SERVICE
    requires m.s == SENT
    ensures var o := Advance1(UNSEEN, m); o.Ok? && o.m.s == BESIDE && o.m.q == [] && o.m.reask == m.reask
  {
    assert UNSEEN.Boundaries(4) == [];
  }

  lemma TakesErrorPath(m: Machine)
    requires m.s.tokens == BESIDE.tokens && m.s.subs == BESIDE.subs && m.s.timers == map[] && m.q == [] && m.reask == []
    ensures var o := InterruptToBoundary(UNSEEN, m, SIDE_TOKEN, ESCAPE);
            && o.Ok? && o.m.q == TO_CATCH && o.m.reask == []
            && o.m.s == m.s.(tokens := m.s.tokens - {SIDE_TOKEN})
  {
    assert UNSEEN.Outgoing(6) == [4] && UNSEEN.Target(4) == 7;
    hide UNSEEN, DOC, Sorted;
    assert m.s.SubsOf({1}) == {} && m.s.TimersOf({1}) == {};
    assert m.s.subs - {} == m.s.subs && m.s.timers - {} == m.s.timers;
  }

  lemma Fails() returns (m: Machine)
    ensures OpenCommand(UNSEEN, BESIDE, FAILS) == Opened(m)
    ensures m.q == TO_CATCH && m.reask == [] && SIDE_TOKEN !in m.s.tokens
    ensures m.s.status.Active? && m.s.variables == DOC && m.s.subs == BESIDE.subs && m.s.nextIncident == 0
  {
    assert UNSEEN.ErrorBoundaries(4) == [(None, 6)];
    var m0 := Say(Idle(CloseItem(BESIDE, 1)), WorkItemFailed(1, 4, None));
    TakesErrorPath(m0);
    hide UNSEEN, DOC, InterruptToBoundary;
    assert UNSEEN.ErrorBoundary(4, None) == Some(6);
    assert Catcher(UNSEEN, BESIDE.scopes, 4, 1, ROOT, None) == Some((1, 6));
    m := InterruptToBoundary(UNSEEN, m0, 1, 6).m;
  }

  lemma KeyIsTaken(s: Instance, id: SubId)
    requires id in s.subs && s.SubAt(id).message == "m" && s.SubAt(id).key == "x"
    ensures ArmKey(UNSEEN, s, DOC, CATCH, None) == Duplicate("m", "x")
  {
    DocIs();
    assert UNSEEN.KindOf(7) == MessageCatch("m", ["k"]);
    hide UNSEEN, Json.Resolve, KeyText, DOC;
  }

  lemma CatchIsEntered(p: Process, m: Machine, mv: Move)
    requires m.q == [mv] && p.KindOf(mv.node).MessageCatch?
    ensures Advance1(p, m) == Outcome.Ok(EnterMessageCatch(p, m.(q := [], scope := mv.scope), mv.token, mv.node))
  {
    hide EnterMessageCatch, EnterTask, EnterTimerCatch, EnterEventGateway, EnterSubProcess, EnterJoin, ForkOn;
    assert m.q[1..] == [];
  }

  lemma FreezesOnIt(m: Machine)
    requires m.q == TO_CATCH && SIDE_TOKEN !in m.s.tokens
    requires m.s.status.Active? && m.s.variables == DOC && m.s.subs == BESIDE.subs && m.s.nextIncident == 0
    ensures var o := Advance1(UNSEEN, m); o.Ok? && o.m.q == [] && FrozenAtCatch(o.m.s, o.m.ev)
  {
    assert UNSEEN.KindOf(7).MessageCatch?;
    hide UNSEEN, ArmKey, DOC, Freeze, EnterMessageCatch, Advance1;
    CatchIsEntered(UNSEEN, m, m.q[0]);
    var m0 := m.(q := [], scope := ROOT);
    assert m.s.subs[1] == ARM;
    KeyIsTaken(m.s, 1);
    var m1 := Say(Started(m0, 7), DuplicateSubscription(7, "m", "x"));
    assert DuplicateSubscription(7, "m", "x") in m1.ev;
  }

  lemma FirstStep()
    requires Linted(UNSEEN)
    ensures After(UNSEEN, [STARTS]).s == WAITING
  {
    hide UNSEEN, Linted, DOC, OpenCommand, Advance1, StepOf;
    NewRests(UNSEEN);
    var m := Starts();
    LeavesStart(m);
    var m1 := Advance1(UNSEEN, m).m;
    ComesToTask(m1);
    var m2 := Advance1(UNSEEN, m1).m;
    assert Advanced(UNSEEN, m, 2) == Advanced(UNSEEN, m1, 1);
    StepGives(UNSEEN, NEW_INSTANCE, STARTS, m, 2, m2);
    AfterOne(UNSEEN, [], STARTS);
    assert [] + [STARTS] == [STARTS];
  }

  lemma SecondStep()
    requires Linted(UNSEEN)
    ensures After(UNSEEN, [STARTS, DELIVERS]).s == BESIDE
  {
    hide UNSEEN, Linted, DOC, OpenCommand, Advance1, StepOf;
    FirstStep();
    var m := Delivers();
    ComesToService(m);
    StepGives(UNSEEN, WAITING, DELIVERS, m, 1, Advance1(UNSEEN, m).m);
    AfterOne(UNSEEN, [STARTS], DELIVERS);
    assert [STARTS] + [DELIVERS] == [STARTS, DELIVERS];
  }

  lemma ThirdStep()
    requires Linted(UNSEEN)
    ensures FrozenAtCatch(After(UNSEEN, COLLISION).s, After(UNSEEN, COLLISION).ev)
  {
    hide UNSEEN, Linted, DOC, OpenCommand, Advance1, StepOf, BESIDE;
    SecondStep();
    var m := Fails();
    FreezesOnIt(m);
    StepGives(UNSEEN, BESIDE, FAILS, m, 1, Advance1(UNSEEN, m).m);
    AfterOne(UNSEEN, [STARTS, DELIVERS], FAILS);
    assert [STARTS, DELIVERS] + [FAILS] == COLLISION;
  }

  /** The compiler reports nothing of a process the linter accepts, whose catch
      behind an error boundary is missed; and a run of it freezes on just the
      duplicate that the refusal is there to rule out. */
  lemma ErrorPathsAreUnseen(host: NodeIx, g: Group)
    ensures LintAccepts(UNSEEN) && SidePathCompiled(UNSEEN) && Linted(UNSEEN) && Nested(UNSEEN)
    ensures !Collides(UNSEEN, host, g) && Misses(UNSEEN, HOST, CATCH) && OnPathOf(UNSEEN, ASIDE, CATCH)
    ensures FrozenAtCatch(After(UNSEEN, COLLISION).s, After(UNSEEN, COLLISION).ev)
  {
    hide WellFormed, Nested, Linted, LintAccepts, SidePathCompiled, OnPathOf, Sorted, Colliding, ArmOf, Misses, After;
    UnseenIsAccepted();
    ThirdStep();
    SideAhead(7);
    UnseenAlone((g.message, g.binding));
    assert HostsMessages(UNSEEN, host) ==> host == 1;
    UnseenMisses();
  }

  lemma UnseenMisses()
    ensures Misses(UNSEEN, HOST, CATCH)
  {
    var p := UNSEEN;
    assert |p.nodes| == 9 && ArmOf(p, 7) == ArmOf(p, 3) == Some(("m", "k"));
    assert Asks(p, 1, 3) && !p.Interrupts(3);
    assert 4 in {4} && p.Outgoing(3) == [2] && p.Target(2) == 4 && 2 in p.Outgoing(3);
    assert Nodes(p.ErrorBoundaries(4))[0] == 6;
    assert p.Outgoing(6) == [4] && p.Target(4) == 7 && 4 in p.Outgoing(6);
    if LiveWith(p, 1, 7) {
      UnseenLive(7);
    }
    hide UNSEEN, ArmOf, InBody, LiveWith, Process.Interrupts, Process.Boundaries, Process.ErrorBoundaries;
    assert SideStep(p, 3, 4) && FullStep(p, 4, 6) && SideStep(p, 6, 7);
    SideSelf(p, 3);
    SideIsFull(p, 3, 3);
    FullOn(p, 3, 3, 4);
    FullOn(p, 3, 4, 6);
    FullOn(p, 3, 6, 7);
    assert LiveWith(p, 1, 3);
    assert FullLiveWith(p, 1, 3) && FullLiveWith(p, 1, 7);
  }
}
