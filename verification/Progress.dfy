/** The other half of the block rule: a join is never starved. While a token waits
    at it, every other branch of its block still holds one. */
module Progress {
  import opened Basics
  import opened Compiled
  import opened State
  import opened Advance
  import opened Step
  import opened Game
  import opened Invariant
  import opened Running
  import opened Runs
  import opened Regions
  import Closure

  /** On branch `i` of split `s`: in one of its nodes, or on a flow out of one, or on
      the flow that enters it. */
  predicate PlacedOn(p: Process, s: NodeIx, r: Region, i: nat, at: Place) {
    if at.via.Some? then Delivers(p, s, r, i, at.via.value) else OnBranch(r, i, at.node)
  }

  /** Markings of blocks agree on where tokens begin and end: there are no starts and
      no ends in a block. */
  lemma ChosenAreMatched(p: Process, R: Regions, c: map<NodeIx, nat>, d: map<NodeIx, nat>)
    requires Marking(p, R, c) && Marking(p, R, d)
    ensures Matched(p, MarksOf(p, R, c), MarksOf(p, R, d))
  {
    hide WellFormed, HostRule, SidePathRule, ReachedRule, Balanced, Beside;
    forall n: NodeIx | n < |p.nodes| && (p.KindOf(n).Start? || p.KindOf(n).End?) ensures !Off(R, c, n) && !Off(R, d, n) {
      forall t | t in R ensures n !in R[t].branch {
        RegionOf(p, R, t);
        OutsideBlocks(p, t, R[t], n);
      }
    }
  }

  lemma OutsideBlocks(p: Process, s: NodeIx, r: Region, n: NodeIx)
    requires WellFormed(p) && IsRegion(p, s, r) && (p.KindOf(n).Start? || p.KindOf(n).End?)
    ensures n !in r.branch
  {
    hide WellFormed, BranchesOk;
    if n in r.branch && p.KindOf(n).Start? {
      BlockHasNoStart(p, s, r, n);
    }
  }

  /** Two markings that differ in the branch chosen of one split differ on its
      branches only. */
  lemma DifferOnBranch(p: Process, R: Regions, J: NodeIx, s: NodeIx, i: nat, j: nat, at: Place)
    requires s in R && Marked(MarksOf(p, R, Leading(R, J, s, j)), at) && !Marked(MarksOf(p, R, Leading(R, J, s, i)), at)
    ensures PlacedOn(p, s, Block(R, s), j, at)
  {
    hide Beside;
    var c, d := Leading(R, J, s, i), Leading(R, J, s, j);
    if at.via.None? {
      NodeDiffers(R, J, s, i, j, at.node);
    } else {
      var g := at.via.value;
      var x := p.Source(g);
      if Off(R, c, x) {
        NodeDiffers(R, J, s, i, j, x);
      } else {
        assert x in R && (x != s ==> c[x] == d[x]);
      }
    }
  }

  lemma NodeDiffers(R: Regions, J: NodeIx, s: NodeIx, i: nat, j: nat, n: NodeIx)
    requires s in R && Off(R, Leading(R, J, s, i), n) && !Off(R, Leading(R, J, s, j), n)
    ensures OnBranch(Block(R, s), j, n)
  {
    var c, d := Leading(R, J, s, i), Leading(R, J, s, j);
    var t :| t in R && t in c && n in R[t].branch && R[t].branch[n] != c[t];
    assert t in d && R[t].branch[n] == d[t];
  }

  /** While a token stands on a flow into a join, every branch of the block has a
      token of the same scope. */
  lemma EveryBranchHolds(p: Process, R: Regions, m: Machine, except: set<ScopeId>, s: NodeIx, a: TokenId, j: nat)
    requires WellFormed(p) && HostRule(p) && SidePathRule(p) && ReachedRule(p) && Balanced(p, R) && Inv(p, m, except)
    requires s in R && j < |p.Outgoing(s)|
    requires a in Everybody(p, m.s, m.q)
    requires var at := PlaceIn(Everybody(p, m.s, m.q), a); at.via.Some? && at.On() in p.Incoming(Block(R, s).join)
    ensures var pop := Everybody(p, m.s, m.q);
            exists b :: b in pop && PlaceIn(pop, b).scope == PlaceIn(pop, a).scope && PlacedOn(p, s, Block(R, s), j, PlaceIn(pop, b))
  {
    hide WellFormed, HostRule, SidePathRule, ReachedRule, Balanced, Conserving, Matched, MarksOf, Everybody, Beside, Off,
         Owned, QueueOk, StatusOk, ReaskOk, Inhabited, Leading, Chooses;
    var pop := Everybody(p, m.s, m.q);
    var f, J := pop[a].via.value, R[s].join;
    RegionOf(p, R, s);
    var i := BranchOf(p, R, s, f);
    if i == j {
      assert PlacedOn(p, s, R[s], j, pop[a]);
    } else {
      var c, d := Leading(R, J, s, i), Leading(R, J, s, j);
      LeadingChooses(p, R, s, i);
      LeadingChooses(p, R, s, j);
      LeadingAt(R, J, s, i);
      LeadingAt(R, J, s, j);
      ChosenIsConserved(p, R, c);
      ChosenIsConserved(p, R, d);
      ChosenAreMatched(p, R, c, d);
      InMarks(p, R, c, d, s, i, j, f);
      assert Has(MarksOf(p, R, c), pop, pop[a].scope);
      assert Even(MarksOf(p, R, c), MarksOf(p, R, d), pop);
      assert Has(MarksOf(p, R, d), pop, pop[a].scope);
      var b :| b in pop && pop[b].scope == pop[a].scope && Marked(MarksOf(p, R, d), pop[b]);
      assert One(MarksOf(p, R, c), pop);
      DifferOnBranch(p, R, J, s, i, j, pop[b]);
    }
  }

  lemma LeadingAt(R: Regions, J: NodeIx, s: NodeIx, i: nat)
    requires s in R
    ensures Picks(Leading(R, J, s, i), s, i)
  {
  }

  lemma InMarks(p: Process, R: Regions, c: map<NodeIx, nat>, d: map<NodeIx, nat>, s: NodeIx, i: nat, j: nat, f: FlowIx)
    requires Marking(p, R, c) && Marking(p, R, d) && s in R && f in p.Incoming(Block(R, s).join) && i < |p.Outgoing(s)| && Delivers(p, s, Block(R, s), i, f)
    requires !Off(R, c, Block(R, s).join) && Picks(c, s, i) && Picks(d, s, j) && i != j
    ensures f in MarksOf(p, R, c).flows && f !in MarksOf(p, R, d).flows
  {
    hide WellFormed, HostRule, SidePathRule, ReachedRule, Balanced, Beside, Off, NodeMarked, FlowMarked, Delivers;
    var J := R[s].join;
    RegionOf(p, R, s);
    NoGatewayBeside(p, J);
    JoinMarked(p, R, c, J);
    FlowInto(p, f, J);
    DeliveredMarked(p, R, c, s, i, f);
    DeliveredMarked(p, R, d, s, i, f);
  }

  /** Somebody of the waiter's scope is on the branch that a missing flow ends. */
  lemma OnTheWay(p: Process, R: Regions, s: Instance, a: TokenId, g: FlowIx) returns (split: NodeIx, j: nat, b: TokenId)
    requires WellFormed(p) && HostRule(p) && SidePathRule(p) && ReachedRule(p) && Balanced(p, R) && Inv(p, Idle(s), {})
    requires a in s.tokens && s.TokenAt(a).wait.AtJoin? && g in p.Incoming(s.TokenAt(a).node)
    ensures split in R && Block(R, split).join == s.TokenAt(a).node && j < |p.Outgoing(split)| && Delivers(p, split, Block(R, split), j, g)
    ensures b in s.tokens && s.TokenAt(b).scope == s.TokenAt(a).scope && PlacedOn(p, split, Block(R, split), j, PlaceOf(p, s.TokenAt(b)))
  {
    hide WellFormed, HostRule, SidePathRule, ReachedRule, Balanced, Inv, IsRegion, PlacedOn;
    var t := s.tokens[a];
    AtItsJoin(p, s, a);
    split := ClosedBy(p, R, t.node);
    j := BranchOf(p, R, split, g);
    assert Everybody(p, s, []) == TokenPlaces(p, s.tokens);
    EveryBranchHolds(p, R, Idle(s), {}, split, a, j);
    b :| b in Everybody(p, s, []) && Everybody(p, s, [])[b].scope == t.scope && PlacedOn(p, split, R[split], j, Everybody(p, s, [])[b]);
    assert b in s.tokens && PlaceOf(p, s.tokens[b]) == Everybody(p, s, [])[b];
  }

  /** Of every run: no join waits on a branch that nobody is on. */
  lemma NoJoinIsStarved(p: Process, R: Regions, commands: seq<Command>, a: TokenId, g: FlowIx)
    requires LintAccepts(p) && Balanced(p, R) && Closure.SidePathCompiled(p) && Linted(p)
    requires var s := After(p, commands).s; a in s.tokens && s.TokenAt(a).wait.AtJoin? && g in p.Incoming(s.TokenAt(a).node)
    ensures var s := After(p, commands).s;
            var at := s.TokenAt(a);
            exists split, j: nat, b ::
              && split in R && Block(R, split).join == at.node && j < |p.Outgoing(split)| && Delivers(p, split, Block(R, split), j, g)
              && b in s.tokens && s.TokenAt(b).scope == at.scope && PlacedOn(p, split, Block(R, split), j, PlaceOf(p, s.TokenAt(b)))
  {
    hide Linted, WellFormed, HostRule, SidePathRule, ReachedRule, Balanced, After, Inv, IsRegion, PlacedOn;
    var split, j, b := OnTheWay(p, R, After(p, commands).s, a, g);
  }

  lemma AtItsJoin(p: Process, s: Instance, a: TokenId)
    requires Inv(p, Idle(s), {}) && a in s.tokens && s.TokenAt(a).wait.AtJoin?
    ensures var t := s.TokenAt(a); t.node < |p.nodes| && p.IsJoin(t.node) && t.wait.Ref() in p.Incoming(t.node)
  {
    assert TokenOk(p, s, a, s.tokens[a]);
  }

  // ---- blocks lie in one another

  /** A block that ends within another began there. */
  lemma BeganWithin(p: Process, R: Regions, s: NodeIx, t: NodeIx)
    requires WellFormed(p) && SidePathRule(p) && ReachedRule(p) && Balanced(p, R)
    requires s in R && t in R && Block(R, t).join in Block(R, s).branch
    ensures t != s && t in Block(R, s).branch
  {
    hide WellFormed, SidePathRule, ReachedRule, Balanced, IsRegion, Into, IsBranchWalk;
    RegionOf(p, R, s);
    RegionOf(p, R, t);
    var k: nat := if OnBranch(R[t], 0, s) then 1 else 0;
    var g := BranchDelivers(p, t, R[t], k);
    var y := p.Source(g);
    NoStrangerDelivers(p, R, t, s, g);
    FromBlock(p, s, R[s], g);
    if y != t {
      DeliversFrom(p, t, k, g);
      BranchNode(p, t, R[t], y);
      var path :| IsBranchWalk(p, t, R[t], k, path, y);
      BranchWithin(p, R, t, s, k, path, y);
    }
  }

  lemma DeliversFrom(p: Process, t: NodeIx, k: nat, g: FlowIx)
    requires WellFormed(p) && t < |p.nodes| && k < |p.Outgoing(t)|
    ensures g == p.Outgoing(t)[k] ==> p.Source(g) == t
  {
    OutOf(p, t, p.Outgoing(t)[k]);
  }

  lemma StaysIn(p: Process, s: NodeIx, r: Region, u: NodeIx, v: NodeIx)
    requires IsRegion(p, s, r) && u in r.branch && Into(p, u, v) && v != r.join
    ensures v in r.branch
  {
  }

  lemma {:induction false} WalkInside(p: Process, R: Regions, s: NodeIx, t: NodeIx, k: nat, path: seq<NodeIx>, v: NodeIx)
    requires WellFormed(p) && Balanced(p, R) && s in R && t in R && t in Block(R, s).branch && Block(R, s).join !in Block(R, t).branch
    requires IsBranchWalk(p, t, Block(R, t), k, path, v)
    ensures v in Block(R, s).branch
    decreases |path|
  {
    hide WellFormed, Balanced, IsRegion, Into;
    RegionOf(p, R, s);
    RegionOf(p, R, t);
    if |path| == 1 {
      EntryIsNoBoundary(p, t, k);
      StaysIn(p, s, R[s], t, v);
    } else {
      var front, u := path[..|path| - 1], path[|path| - 2];
      assert Into(p, u, path[|path| - 2 + 1]) && OnBranch(R[t], k, u);
      assert IsBranchWalk(p, t, R[t], k, front, u);
      WalkInside(p, R, s, t, k, front, u);
      StaysIn(p, s, R[s], u, v);
    }
  }

  /** A block that ends within another lies within it. */
  lemma InnerBlock(p: Process, R: Regions, s: NodeIx, t: NodeIx)
    requires WellFormed(p) && SidePathRule(p) && ReachedRule(p) && Balanced(p, R)
    requires s in R && t in R && Block(R, t).join in Block(R, s).branch
    ensures Block(R, t).branch.Keys < Block(R, s).branch.Keys
  {
    hide WellFormed, SidePathRule, ReachedRule, Balanced, IsRegion, Into, IsBranchWalk;
    RegionOf(p, R, s);
    RegionOf(p, R, t);
    BeganWithin(p, R, s, t);
    NotInEachOther(p, R, s, t);
    if R[s].join in R[t].branch {
      BeganWithin(p, R, t, s);
    }
    forall v | v in R[t].branch ensures v in R[s].branch {
      BranchNode(p, t, R[t], v);
      var path :| IsBranchWalk(p, t, R[t], R[t].branch[v], path, v);
      WalkInside(p, R, s, t, R[t].branch[v], path, v);
    }
    assert R[t].join in R[s].branch.Keys && R[t].join !in R[t].branch.Keys;
  }

  /** A token waiting at another join on a branch of the block: that join is within. */
  lemma WaitsWithin(p: Process, R: Regions, s: NodeIx, j: nat, n: NodeIx, f: FlowIx)
    requires WellFormed(p) && Balanced(p, R) && s in R && j < |p.Outgoing(s)| && n < |p.nodes| && f in p.Incoming(n) && n != Block(R, s).join
    requires Delivers(p, s, Block(R, s), j, f)
    ensures n in Block(R, s).branch
  {
    hide WellFormed, Balanced, IsRegion, Into;
    RegionOf(p, R, s);
    FlowInto(p, f, n);
    if f == p.Outgoing(s)[j] {
      EntryPlace(p, s, R[s], j);
    } else {
      StaysIn(p, s, R[s], p.Source(f), n);
    }
  }
}
