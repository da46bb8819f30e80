/** The condition under which every step returns, as a reader of the graph would
    put it: no set of nodes hands a token on within itself without a wait. */
module Waits {
  import opened Basics
  import opened Compiled
  import opened Advance
  import opened Running
  import opened Rings
  import Regions

  ghost predicate HandsWithin(p: Process, n: NodeIx, R: set<NodeIx>) {
    exists e :: e in Emits(p, n) && e in R
  }

  /** Nodes every one of which may hand its token on, without a wait, to another. */
  ghost predicate Recurs(p: Process, R: set<NodeIx>) {
    R != {} && forall n :: n in R ==> n < |p.nodes| && HandsWithin(p, n, R)
  }

  lemma {:induction false} NoneRecurs(p: Process, h: NodeIx -> nat, R: set<NodeIx>, n: NodeIx)
    requires Descends(p, h) && Recurs(p, R) && n in R
    ensures false
    decreases h(n)
  {
    hide Emits;
    assert HandsWithin(p, n, R);
    var e :| e in Emits(p, n) && e in R;
    NoneRecurs(p, h, R, e);
  }

  /** The nodes left when those that hand on to none left are taken away, `k` times. */
  ghost function Pruned(p: Process, k: nat): set<NodeIx> {
    if k == 0 then Below(|p.nodes|) else Handing(p, Pruned(p, k - 1))
  }

  ghost function Handing(p: Process, S: set<NodeIx>): set<NodeIx> {
    set n | n in S && HandsWithin(p, n, S)
  }

  function Below(n: nat): (S: set<NodeIx>)
    ensures |S| == n && forall k: NodeIx :: k in S <==> k < n
  {
    if n == 0 then {} else Below(n - 1) + {n - 1}
  }

  lemma {:induction false} PrunedShrinks(p: Process, j: nat, k: nat)
    requires j <= k
    ensures Pruned(p, k) <= Pruned(p, j)
    decreases k
  {
    if j >= k {
    } else {
      PrunedShrinks(p, j, k - 1);
    }
  }

  /** If no set recurs, each pruning takes somebody away. */
  lemma HandingShrinks(p: Process, S: set<NodeIx>)
    requires !Recurs(p, S) && S <= Below(|p.nodes|)
    ensures |Handing(p, S)| <= if S == {} then 0 else |S| - 1
  {
    hide HandsWithin;
    if S != {} {
      var n :| n in S && !HandsWithin(p, n, S);
      SubsetFits(Handing(p, S), S - {n});
    }
  }

  lemma {:induction false} PrunedVanishes(p: Process, k: nat)
    requires k <= |p.nodes| && forall R :: !Recurs(p, R)
    ensures |Pruned(p, k)| <= |p.nodes| - k
    decreases k
  {
    hide Handing, Recurs, HandsWithin;
    if k == 0 {
    } else {
      PrunedVanishes(p, k - 1);
      PrunedShrinks(p, 0, k - 1);
      HandingShrinks(p, Pruned(p, k - 1));
    }
  }

  /** In how many of the first `k` prunings `n` is left. */
  ghost function Lasts(p: Process, n: NodeIx, k: nat): (h: nat)
    ensures h <= k
  {
    if k == 0 then 0 else Lasts(p, n, k - 1) + if n in Pruned(p, k - 1) then 1 else 0
  }

  lemma {:induction false} LastsUntil(p: Process, n: NodeIx, k: nat)
    ensures forall j: nat :: j < k ==> (n in Pruned(p, j) <==> j < Lasts(p, n, k))
    decreases k
  {
    hide Pruned;
    if k == 0 {
    } else {
      LastsUntil(p, n, k - 1);
      var h := Lasts(p, n, k - 1);
      if n in Pruned(p, k - 1) && h < k - 1 {
        PrunedShrinks(p, h, k - 1);
      }
    }
  }

  lemma TargetWithin(p: Process, n: NodeIx, e: NodeIx)
    requires FlowsWired(p) && e in Targets(p, p.Outgoing(n))
    ensures n < |p.nodes| && e < |p.nodes| && exists f :: f in p.Outgoing(n) && p.Target(f) == e
  {
    hide FlowsWired;
    var i :| 0 <= i < |p.Outgoing(n)| && Targets(p, p.Outgoing(n))[i] == e;
    assert p.Outgoing(n)[i] in p.Outgoing(n);
    OutOf(p, n, p.Outgoing(n)[i]);
  }

  lemma {:induction false} ExitsWithin(p: Process, k: ScopeIx, m: nat, e: NodeIx)
    requires FlowsWired(p) && StaticScopesOk(p) && m <= |p.nodes| && e in ExitTargets(p, k, m)
    ensures k > 0 && e < |p.nodes| && exists n: NodeIx :: n < m && p.KindOf(n).SubProcess?
  {
    hide FlowsWired, Targets;
    if e in ExitTargets(p, k, m - 1) {
      ExitsWithin(p, k, m - 1, e);
    } else {
      TargetWithin(p, m - 1, e);
      assert p.KindOf(m - 1) == SubProcess(k);
    }
  }

  lemma BodyWithin(p: Process, n: NodeIx)
    requires StaticScopesOk(p) && p.KindOf(n).SubProcess?
    ensures n < |p.nodes| && p.ScopeStart(p.KindOf(n).body) < |p.nodes|
  {
  }

  lemma EmitsWithin(p: Process, n: NodeIx, e: NodeIx)
    requires FlowsWired(p) && StaticScopesOk(p) && |p.scopeOf| == |p.nodes| && e in Emits(p, n)
    ensures n < |p.nodes| && e < |p.nodes|
  {
    hide FlowsWired, StaticScopesOk, Targets, ExitTargets;
    if p.KindOf(n).SubProcess? {
      BodyWithin(p, n);
    } else if p.KindOf(n).End? || p.KindOf(n).TerminateEnd? {
      ExitsWithin(p, p.ScopeOf(n), |p.nodes|, e);
    } else {
      TargetWithin(p, n, e);
    }
  }

  lemma {:induction false} PrunedOn(p: Process, n: NodeIx, e: NodeIx, k: nat)
    requires e in Emits(p, n) && n < |p.nodes| && e in Pruned(p, k)
    ensures n in Pruned(p, k + 1)
    decreases k
  {
    hide Emits;
    if k == 0 {
    } else {
      PrunedShrinks(p, k - 1, k);
      PrunedOn(p, n, e, k - 1);
    }
    assert HandsWithin(p, n, Pruned(p, k));
  }

  /** In how many prunings a node lasts is a height that descends. */
  lemma LastsDescends(p: Process, N: nat, n: NodeIx, e: NodeIx)
    requires Pruned(p, N) == {} && e in Emits(p, n) && n < |p.nodes| && e < |p.nodes|
    ensures Lasts(p, e, N + 1) < Lasts(p, n, N + 1)
  {
    hide Emits, Lasts;
    LastsUntil(p, e, N + 1);
    LastsUntil(p, n, N + 1);
    EverybodyFirst(p, e);
    var h := Lasts(p, e, N + 1);
    assert h > 0 && h <= N;
    PrunedOn(p, n, e, h - 1);
    hide Pruned;
  }

  lemma PrunedDescends(p: Process)
    requires FlowsWired(p) && StaticScopesOk(p) && |p.scopeOf| == |p.nodes| && forall R :: !Recurs(p, R)
    ensures NoWaitFreeCycle(p)
  {
    hide FlowsWired, StaticScopesOk, Emits, Pruned, Lasts, Recurs;
    var N := |p.nodes|;
    PrunedVanishes(p, N);
    var h: NodeIx -> nat := (n: NodeIx) => Lasts(p, n, N + 1);
    forall n, e | e in Emits(p, n) ensures h(e) < h(n) {
      EmitsWithin(p, n, e);
      LastsDescends(p, N, n, e);
    }
    assert Descends(p, h);
  }

  /** Heights that descend exist exactly when no set of nodes recurs: the condition
      under which every step returns is that no cycle is free of waits. */
  lemma NoCycleExactlyWhenNoneRecurs(p: Process)
    requires WellFormed(p)
    ensures NoWaitFreeCycle(p) <==> forall R :: !Recurs(p, R)
  {
    WiredIn(p);
    hide WellFormed, Emits, Descends;
    if NoWaitFreeCycle(p) {
      var h :| Descends(p, h);
      forall R ensures !Recurs(p, R) {
        if Recurs(p, R) {
          var n :| n in R;
          NoneRecurs(p, h, R, n);
        }
      }
    } else if forall R :: !Recurs(p, R) {
      PrunedDescends(p);
    }
  }

  lemma WiredIn(p: Process)
    requires WellFormed(p)
    ensures FlowsWired(p) && StaticScopesOk(p) && |p.scopeOf| == |p.nodes|
  {
  }

  lemma EverybodyFirst(p: Process, n: NodeIx)
    requires n < |p.nodes|
    ensures n in Pruned(p, 0)
  {
  }

  /** Without parallel gateways and subprocesses, a cycle that is free of waits is
      one of exclusive gateways: one that conditions can make spin. */
  lemma CycleIsExclusive(p: Process)
    requires WellFormed(p)
    requires forall n: NodeIx :: n < |p.nodes| ==> !p.KindOf(n).ParallelGateway? && !p.KindOf(n).SubProcess?
    ensures !NoWaitFreeCycle(p) <==> exists R :: R != {} && Cyclic(p, R)
  {
    hide WellFormed, Emits, NoWaitFreeCycle, Cyclic, HandsWithin;
    NoCycleExactlyWhenNoneRecurs(p);
    if R :| Recurs(p, R) {
      var S := RecursExclusively(p, R);
    }
    if R: set<NodeIx> :| R != {} && Cyclic(p, R) {
      forall n | n in R ensures n < |p.nodes| && HandsWithin(p, n, R) {
        CyclicHands(p, R, n);
      }
      assert Recurs(p, R);
    }
  }

  lemma RecursExclusively(p: Process, R: set<NodeIx>) returns (S: set<NodeIx>)
    requires WellFormed(p) && Recurs(p, R)
    requires forall n: NodeIx :: n < |p.nodes| ==> !p.KindOf(n).ParallelGateway? && !p.KindOf(n).SubProcess?
    ensures S != {} && Cyclic(p, S)
  {
    hide WellFormed, Emits, HandsWithin;
    S := set n | n in R && p.KindOf(n).ExclusiveGateway?;
    forall n | n in R ensures exists f :: f in p.Outgoing(n) && p.Target(f) in S {
      RecursOn(p, R, n);
    }
  }

  lemma CyclicHands(p: Process, R: set<NodeIx>, n: NodeIx)
    requires Cyclic(p, R) && n in R
    ensures n < |p.nodes| && HandsWithin(p, n, R)
  {
    hide ExitTargets, Targets, HandsWithin, Emits;
    var f :| f in p.Outgoing(n) && p.Target(f) in R;
    ExclusiveEmits(p, n);
    TargetIn(p, p.Outgoing(n), f);
    HandsTo(p, n, p.Target(f), R);
  }

  lemma ExclusiveEmits(p: Process, n: NodeIx)
    requires p.KindOf(n).ExclusiveGateway?
    ensures n < |p.nodes| && Emits(p, n) == Targets(p, p.Outgoing(n))
  {
  }

  lemma HandsTo(p: Process, n: NodeIx, e: NodeIx, R: set<NodeIx>)
    requires e in Emits(p, n) && e in R
    ensures HandsWithin(p, n, R)
  {
  }

  /** What such a node hands on to is an exclusive gateway again. */
  lemma RecursOn(p: Process, R: set<NodeIx>, n: NodeIx)
    requires WellFormed(p) && Recurs(p, R) && n in R
    requires forall n: NodeIx :: n < |p.nodes| ==> !p.KindOf(n).ParallelGateway? && !p.KindOf(n).SubProcess?
    ensures exists f :: f in p.Outgoing(n) && p.Target(f) in R && p.KindOf(p.Target(f)).ExclusiveGateway?
  {
    hide WellFormed, Emits;
    assert HandsWithin(p, n, R);
    var e :| e in Emits(p, n) && e in R;
    assert HandsWithin(p, e, R);
    var d :| d in Emits(p, e);
    HandsByFlow(p, n, e);
    HandsByFlow(p, e, d);
    var f :| f in p.Outgoing(n) && p.Target(f) == e;
    NoStartAhead(p, n, f);
  }

  lemma NoStartAhead(p: Process, n: NodeIx, f: FlowIx)
    requires WellFormed(p) && n < |p.nodes| && f in p.Outgoing(n)
    ensures !p.KindOf(p.Target(f)).Start?
  {
    assert ShapeOk(p, n);
  }

  lemma HandsByFlow(p: Process, n: NodeIx, e: NodeIx)
    requires WellFormed(p) && e in Emits(p, n)
    requires forall n: NodeIx :: n < |p.nodes| ==> !p.KindOf(n).ParallelGateway? && !p.KindOf(n).SubProcess?
    ensures n < |p.nodes| && exists f :: f in p.Outgoing(n) && p.Target(f) == e
    ensures p.KindOf(n).Start? || p.KindOf(n).ExclusiveGateway?
  {
    WiredIn(p);
    hide WellFormed, FlowsWired, StaticScopesOk, ExitTargets, Targets;
    if p.KindOf(n).End? || p.KindOf(n).TerminateEnd? {
      ExitsWithin(p, p.ScopeOf(n), |p.nodes|, e);
    } else {
      TargetWithin(p, n, e);
    }
  }

  lemma SpinningHasNone(n: NodeIx)
    ensures !SPINNING.IsBoundary(n) && !Regions.IsSplit(SPINNING, n) && !SPINNING.IsJoin(n) && SPINNING.hosts == map[]
  {
  }

  /** The process that spins breaks no rule about structure, side paths or blocks. */
  lemma SpinningIsAccepted()
    ensures Regions.LintAccepts(SPINNING)
  {
    hide Linted, WellFormed, SPINNING;
    SpinningLinted();
    LintedIsFormed(SPINNING);
    SpinningHasNone(0);
    forall n: NodeIx ensures !SPINNING.IsBoundary(n) && !Regions.IsSplit(SPINNING, n) && !SPINNING.IsJoin(n) {
      SpinningHasNone(n);
    }
    hide Process.IsBoundary, Process.IsJoin, Regions.IsSplit;
    var R: map<NodeIx, Regions.Region> := map[];
    assert Regions.Balanced(SPINNING, R);
  }

  lemma LintedIsFormed(p: Process)
    requires Linted(p)
    ensures WellFormed(p)
  {
  }
}
