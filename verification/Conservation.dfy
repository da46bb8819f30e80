/** What a freeze halts and a repair resumes: nothing is lost on the way, and
    nothing is made up. */
module Conservation {
  import opened Basics
  import opened Json
  import opened Compiled
  import opened State
  import opened Advance
  import opened Step
  import opened Game
  import opened Invariant
  import opened Keeping
  import opened Freezing
  import opened Entering
  import opened Leaving
  import opened Branching
  import opened Stepping
  import opened Repairing
  import Closure

  // ---- the freeze

  /** Everybody but those inside `closed` is still there: the cause at its
      incident, the parked where they were, the queued halted on their flow. */
  ghost predicate Halts(m: Machine, token: TokenId, element: NodeIx, scope: ScopeId, closed: set<ScopeId>, s': Instance) {
    && token in s'.tokens && s'.tokens[token] == Token(element, scope, AtIncident)
    && (forall id :: id in m.s.tokens && id != token && m.s.tokens[id].scope !in closed ==>
          id in s'.tokens && s'.tokens[id] == HaltDecision(m.s.tokens[id]))
    && (forall mv :: mv in m.q && mv.scope !in closed ==>
          mv.token in s'.tokens && s'.tokens[mv.token] == Token(mv.node, mv.scope, Halted(InFlight(mv.via))))
    && (forall id :: id in s'.tokens ==>
          || id == token
          || (id in m.s.tokens && m.s.tokens[id].scope !in closed)
          || exists mv :: mv in m.q && mv.token == id && mv.scope !in closed)
    && s'.status.Failed? && s'.OpenIncident() == Some(m.s.nextIncident)
  }

  /** Work, arms and scopes of everybody outside `gone` are untouched. */
  ghost predicate KeepsRows(s: Instance, gone: set<TokenId>, closed: set<ScopeId>, s': Instance) {
    && s'.items == Closed(s.items, s.OpenItemsOf(gone))
    && s'.timers == s.timers - s.TimersOf(gone) && s'.subs == s.subs - s.SubsOf(gone)
    && s'.scopes == s.scopes - closed && s'.variables == s.variables
  }

  lemma IcedHalts(m: Machine, m0: Machine, token: TokenId, element: NodeIx, scope: ScopeId, closed: set<ScopeId>)
    requires m0.s.tokens == m.s.tokens - (m.s.TokensWithin(closed) + {token}) && m0.s.nextIncident == m.s.nextIncident
    requires forall mv :: mv in m0.q <==> mv in m.q && mv.scope !in closed
    requires Distinct(m0.q) && forall mv :: mv in m.q ==> mv.token !in m.s.tokens && mv.token != token
    ensures Halts(m, token, element, scope, closed, Iced(m0.s, m0.q, token, element, scope))
  {
    InFlightIs(m0.q);
    IcedReads(m0.s.tokens, InFlightTokens(m0.q), token, Token(element, scope, AtIncident));
    hide HaltDecisions, InFlightTokens, Distinct;
  }

  lemma IcedRows(s: Instance, gone: set<TokenId>, closed: set<ScopeId>, q: seq<Move>, token: TokenId, element: NodeIx, scope: ScopeId)
    ensures KeepsRows(s, gone, closed, Iced(Reaped(s, gone).(scopes := s.scopes - closed), q, token, element, scope))
  {
  }

  lemma QueueApart(p: Process, s: Instance, q: seq<Move>)
    requires QueueOk(p, s, q)
    ensures Distinct(q) && forall mv :: mv in q ==> mv.token !in s.tokens
  {
  }

  /** A freeze on a parked token loses nobody but the scope that token waited on. */
  lemma FreezeKeepsEverybody(p: Process, m: Machine, token: TokenId, element: NodeIx, code: Option<string>, detail: Option<string>)
    requires Owned(p, m.s) && QueueOk(p, m.s, m.q) && token in m.s.tokens
    ensures var s' := Freeze(m, token, element, code, detail).s;
            var closed := ChildScopes(m.s, token);
            && Halts(m, token, element, m.s.TokenAt(token).scope, closed, s')
            && KeepsRows(m.s, WithChildren(m.s, token), closed, s')
  {
    hide Owned, ChildScopes, Spared, Freeze, Halts, KeepsRows, Distinct, QueueOk, Iced;
    var closed := ChildScopes(m.s, token);
    var gone := WithChildren(m.s, token);
    QueueApart(p, m.s, m.q);
    FreezeIs(p, m, token, element, code, detail);
    SparedIs(m.q, closed);
    SparedPlaces(m.q, closed);
    var m0 := m.(s := Reaped(m.s, gone).(scopes := m.s.scopes - closed), q := Spared(m.q, closed));
    assert gone == m.s.TokensWithin(closed) + {token};
    IcedHalts(m, m0, token, element, m.s.tokens[token].scope, closed);
    IcedRows(m.s, gone, closed, m0.q, token, element, m.s.tokens[token].scope);
  }

  /** A freeze of the token in hand, on a node it could not park at, loses nobody. */
  lemma FreezeInHandKeepsEverybody(p: Process, m: Machine, token: TokenId, element: NodeIx, code: Option<string>, detail: Option<string>)
    requires Owned(p, m.s) && QueueOk(p, m.s, m.q) && token !in m.s.tokens && forall mv :: mv in m.q ==> mv.token != token
    ensures var s' := Freeze(m, token, element, code, detail).s;
            && Halts(m, token, element, m.scope, {}, s')
            && KeepsRows(m.s, {token}, {}, s')
  {
    StrippedNothing(p, m, token);
    QueueApart(p, m.s, m.q);
    hide Owned, QueueOk, Distinct;
    assert m.s.tokens - (m.s.TokensWithin({}) + {token}) == m.s.tokens;
    IcedHalts(m, m, token, element, m.scope, {});
    hide Halts, Stripped;
  }

  // ---- freeze, then thaw

  /** Nobody halted and nobody at an incident: an active instance between steps. */
  predicate NobodyHalted(s: Instance) {
    forall id :: id in s.tokens ==> !s.tokens[id].wait.AtIncident? && !s.tokens[id].wait.Halted?
  }

  lemma HaltsFlying(m: Machine, token: TokenId, element: NodeIx, scope: ScopeId, closed: set<ScopeId>, s': Instance)
    requires Halts(m, token, element, scope, closed, s') && NobodyHalted(m.s)
    requires forall mv :: mv in m.q ==> mv.token !in m.s.tokens && mv.token != token
    ensures forall id :: id in Flying(s') <==> exists mv :: mv in m.q && mv.token == id && mv.scope !in closed
    ensures forall id :: id in Asking(s') <==>
              id in m.s.tokens && id != token && m.s.TokenAt(id).scope !in closed && m.s.TokenAt(id).wait.OnDecision?
  {
  }

  /** What a freeze halted, a repair puts back: the queue as it was, on the flows
      it was on, everybody else parked as they were, and the decisions that were
      pending asked again, and no others. */
  lemma FreezeThenThaw(m: Machine, token: TokenId, element: NodeIx, scope: ScopeId, closed: set<ScopeId>, s': Instance, variables: Value)
    requires Halts(m, token, element, scope, closed, s') && NobodyHalted(m.s) && Distinct(m.q)
    requires forall mv :: mv in m.q ==> mv.token !in m.s.tokens && mv.token != token
    ensures var t := Thawed(s', token, variables);
            && Distinct(t.q) && (forall mv :: mv in t.q <==> mv in m.q && mv.scope !in closed)
            && (forall id :: id in t.s.tokens <==> id in m.s.tokens && id != token && m.s.TokenAt(id).scope !in closed)
            && (forall id :: id in t.s.tokens ==> t.s.TokenAt(id) == HaltDecision(m.s.TokenAt(id)))
            && (forall id :: id in t.reask <==> id in t.s.tokens && m.s.TokenAt(id).wait.OnDecision?)
  {
    HaltsFlying(m, token, element, scope, closed, s');
    ThawIs(s', token, variables);
    var t := Thawed(s', token, variables);
    hide Thawed, Flying, Asking, Distinct;
    forall mv | mv in t.q ensures mv in m.q && mv.scope !in closed {
      var other :| other in m.q && other.token == mv.token && other.scope !in closed;
    }
    forall mv | mv in m.q && mv.scope !in closed ensures mv in t.q {
      assert mv.token in Flying(s');
      var back :| back in t.q && back.token == mv.token;
    }
  }

  lemma {:induction false} ReaskIs(p: Process, m: Machine, ids: seq<TokenId>)
    ensures var r := Reask(p, m, ids);
            && r.s == m.s.(tokens := r.s.tokens) && r.s.tokens.Keys == m.s.tokens.Keys && r.q == m.q
            && (forall id :: id in m.s.tokens ==>
                  r.s.TokenAt(id) == if id in ids then m.s.TokenAt(id).(wait := OnDecision) else m.s.TokenAt(id))
    decreases |ids|
  {
    if ids == [] {
    } else {
      var rest := ids[1..];
      assert forall id :: id in ids <==> id == ids[0] || id in rest;
      if ids[0] !in m.s.tokens {
        ReaskIs(p, m, rest);
      } else {
        var t := m.s.tokens[ids[0]];
        var m1 := m.(s := m.s.(tokens := m.s.tokens[ids[0] := t.(wait := OnDecision)]));
        var kind := p.KindOf(t.node);
        ReaskIs(p, if kind.BusinessRule? then Say(m1, DecisionRequested(t.node, kind.decision)) else m1, rest);
      }
    }
  }

  /** Once asked again, whoever was parked is parked as before the freeze. */
  lemma ThawRestores(p: Process, m: Machine, token: TokenId, element: NodeIx, scope: ScopeId, closed: set<ScopeId>, s': Instance, variables: Value)
    requires Halts(m, token, element, scope, closed, s') && NobodyHalted(m.s) && Distinct(m.q)
    requires forall mv :: mv in m.q ==> mv.token !in m.s.tokens && mv.token != token
    ensures var t := Thawed(s', token, variables);
            Reask(p, t, t.reask).s.tokens == m.s.tokens - (m.s.TokensWithin(closed) + {token})
  {
    hide Thawed, Reask, Halts, Distinct, NobodyHalted, HaltDecision;
    FreezeThenThaw(m, token, element, scope, closed, s', variables);
    var t := Thawed(s', token, variables);
    ReaskIs(p, t, t.reask);
    AskedAgain(m.s.tokens - (m.s.TokensWithin(closed) + {token}), t.s.tokens, t.reask, Reask(p, t, t.reask).s.tokens);
  }

  lemma AskedAgain(before: map<TokenId, Token>, halted: map<TokenId, Token>, reask: seq<TokenId>, after: map<TokenId, Token>)
    requires before.Keys == halted.Keys == after.Keys
    requires forall id :: id in before ==> halted[id] == HaltDecision(before[id]) && (id in reask <==> before[id].wait.OnDecision?)
    requires forall id :: id in before ==> after[id] == if id in reask then halted[id].(wait := OnDecision) else halted[id]
    ensures after == before
  {
  }

  // ---- a repair and the collateral

  /** What a disposition leaves before the collateral is queued: at most one new
      move, and of the halted moves exactly those whose scope is still there. */
  ghost predicate Spares(s: Instance, r: Machine) {
    && r.reask == [] && |r.q| <= 1 && (r.q != [] ==> r.q[0].token !in Flying(s))
    && (forall id :: id in Flying(s) ==> (id in r.s.tokens <==> s.tokens[id].scope == ROOT || s.tokens[id].scope in r.s.scopes))
    && (forall id :: id in r.s.tokens ==> id in s.tokens && r.s.tokens[id] == s.tokens[id])
  }

  /** Every halted move whose scope survived is queued again exactly once, on the
      flow it was on; of the others none; and one new move at most. */
  ghost predicate Resumes(s: Instance, m: Machine) {
    && Distinct(m.q)
    && (forall id :: id in Flying(s) ==> id !in m.s.tokens)
    && (forall id :: id in Flying(s) && (s.tokens[id].scope == ROOT || s.tokens[id].scope in m.s.scopes) ==> Again(id, s.TokenAt(id)) in m.q)
    && (forall mv :: mv in m.q && mv.token in Flying(s) ==>
          && mv == Again(mv.token, s.TokenAt(mv.token))
          && (mv.scope == ROOT || mv.scope in m.s.scopes))
    && (forall a, b :: a in m.q && b in m.q && a.token !in Flying(s) && b.token !in Flying(s) ==> a == b)
  }

  lemma SparedResume(s: Instance, r: Machine)
    requires Spares(s, r) && Distinct(Collateral(r).q)
    ensures Resumes(s, Collateral(r))
  {
    hide Collateral, Distinct, Flying, Resumes, MovesOf, Asking;
    var r0 := r.(q := []);
    CollateralIs(r0);
    CollateralAfter(r0, r.q);
    assert r0.(q := r.q) == r;
    SparedFlying(s, r);
    ResumesFrom(s, r, Collateral(r0).q, Collateral(r));
  }

  lemma ResumesFrom(s: Instance, r: Machine, again: seq<Move>, m: Machine)
    requires Spares(s, r) && Distinct(m.q) && m.q == r.q + again
    requires m.s == r.s.(tokens := r.s.tokens - Flying(r.s))
    requires forall mv :: mv in again ==> mv.token in Flying(r.s) && mv == Again(mv.token, r.s.TokenAt(mv.token))
    requires forall id :: id in Flying(r.s) ==> exists mv :: mv in again && mv.token == id
    requires forall id :: id in Flying(r.s) <==> id in Flying(s) && id in r.s.tokens
    ensures Resumes(s, m)
  {
    FlyingAre(s);
    hide Distinct, Flying, Asking;
    forall mv ensures mv in m.q <==> mv in r.q || mv in again {
    }
    forall id | id in Flying(s) && (s.tokens[id].scope == ROOT || s.tokens[id].scope in m.s.scopes) ensures Again(id, s.TokenAt(id)) in m.q {
      var mv :| mv in again && mv.token == id;
    }
  }

  lemma SparedFlying(s: Instance, r: Machine)
    requires Spares(s, r)
    ensures forall id :: id in Flying(r.s) <==> id in Flying(s) && id in r.s.tokens
    ensures forall id :: id in Flying(s) ==> id in s.tokens
  {
  }

  lemma ParkedWithin(p: Process, s: Instance, cause: TokenId)
    requires FrozenOn(p, s, cause)
    ensures forall id :: id in s.tokens ==> s.TokenAt(id).scope == ROOT || s.TokenAt(id).scope in s.scopes
    ensures cause !in Flying(s)
  {
    forall id | id in s.tokens ensures s.tokens[id].scope == ROOT || s.tokens[id].scope in s.scopes {
      assert TokenOk(p, s, id, s.tokens[id]);
    }
  }

  /** The cause went on alone. */
  lemma HandSpares(p: Process, s: Instance, cause: TokenId, r: Machine)
    requires FrozenOn(p, s, cause)
    requires r.s == s.(status := Active, variables := r.s.variables, tokens := s.tokens - {cause}) && r.reask == []
    requires |r.q| <= 1 && (r.q != [] ==> r.Head().token == cause)
    ensures Spares(s, r)
  {
    hide Inv;
    ParkedWithin(p, s, cause);
  }

  /** It took a scope with it. */
  lemma ScopeSpares(p: Process, s: Instance, cause: TokenId, token: TokenId, to: Move, r: Machine)
    requires FrozenOn(p, s, cause) && ScopeSent(s, cause, token, to, r)
    ensures Spares(s, r)
  {
    hide Inv, ChildScopes, Freed;
    ParkedWithin(p, s, cause);
    SentFlying(s, cause, token, to, r);
    ClosedAreYounger(p, s, cause, token);
  }

  lemma ClosedAreYounger(p: Process, s: Instance, cause: TokenId, token: TokenId)
    requires FrozenOn(p, s, cause) && token in s.tokens
    ensures ROOT !in ChildScopes(s, token) && Freed(s, token).scopes == s.scopes - ChildScopes(s, token)
  {
    hide TokensOk, TimersOk, SubsOk, ItemsOk, Safe;
    OnlyCause(p, s, cause);
    TokenIn(p, s, token);
    if s.tokens[token].wait.OnScope? {
      var child := s.tokens[token].wait.child;
      assert child > ROOT;
      assert !Within(s.scopes, ROOT, child);
    }
  }

  lemma AbandonSpares(p: Process, s: Instance, cause: TokenId, m: Machine)
    requires WellFormed(p) && SidePathsOk(p) && Acting(p, s, cause, m)
    requires !StrandsAJoin(p, s, cause, s.TokenAt(cause).scope, p.ResumePoint(s.TokenAt(cause).node))
    ensures var o := Disposed(p, m, cause, p.ResumePoint(s.TokenAt(cause).node), Abandon);
            o.Ok? && Spares(s, o.m)
  {
    hide Inv, WellFormed, SidePathsOk, CompleteScope, ScopeIsEmpty, Owned, Spares, Flying, GoesOn, ScopeSent, StrandsAJoin;
    AbandonSound(p, s, cause, m);
    var scope := s.tokens[cause].scope;
    var m1 := Unpark(m, {cause});
    if scope == ROOT || !ScopeIsEmpty(m1, scope) {
      HandSpares(p, s, cause, m1);
    } else {
      ActingOwned(p, s, cause, m);
      var up := s.scopes[scope];
      ScopeOwner(p, s, scope);
      TokenIn(p, s, up.token);
      SubProcessGoesOn(p, s.tokens[up.token], up.token);
      var f := p.Outgoing(up.element)[0];
      CauseGone(p, s, cause, m, m1);
      CompletesSent(p, s, cause, m1, scope);
      ScopeSpares(p, s, cause, up.token, Move(up.token, p.Target(f), Some(f), up.parent), CompleteScope(p, m1, scope).m);
    }
  }

  lemma DivertSpares(p: Process, s: Instance, cause: TokenId, m: Machine, code: Option<string>)
    requires WellFormed(p) && Acting(p, s, cause, m)
    requires Catcher(p, s.scopes, p.ResumePoint(s.TokenAt(cause).node), cause, s.TokenAt(cause).scope, code).Some?
    ensures var o := Disposed(p, m, cause, p.ResumePoint(s.TokenAt(cause).node), Divert(code));
            o.Ok? && Spares(s, o.m)
  {
    hide Inv, WellFormed, Freed, InterruptToBoundary, Catcher, Spares, Owned, GoesOn, Flying;
    ActingOwned(p, s, cause, m);
    var t := s.tokens[cause];
    var resume := p.ResumePoint(t.node);
    CatcherGoesOn(p, s, resume, cause, t.scope, code);
    var caught := Catcher(p, s.scopes, resume, cause, t.scope, code).value;
    DivertIs(p, s, cause, m, caught.0, caught.1);
    var r := InterruptToBoundary(p, m, caught.0, caught.1).m;
    if caught.0 == cause {
      FreedCause(p, s, cause);
      HandSpares(p, s, cause, r);
    } else {
      ScopeSpares(p, s, cause, caught.0, r.q[0], r);
    }
  }

  lemma DisposedSpares(p: Process, s: Instance, cause: TokenId, m: Machine, d: Disposition)
    requires WellFormed(p) && SidePathsOk(p) && Acting(p, s, cause, m) && !d.AbandonInstance?
    requires DispositionRefusal(p, s, cause, d).None?
    ensures var o := Disposed(p, m, cause, p.ResumePoint(s.TokenAt(cause).node), d);
            o.Ok? && Spares(s, o.m)
  {
    hide Inv, WellFormed, SidePathsOk, Catcher, StrandsAJoin, InterruptToBoundary, CompleteScopeIfEmpty, Spares;
    var resume := p.ResumePoint(s.tokens[cause].node);
    match d {
      case Retry(patch) =>
        HandSpares(p, s, cause, Disposed(p, m, cause, resume, d).m);
      case AdvancePast(patch, answer) =>
        ResumeGoesOn(p, s, cause);
        HandSpares(p, s, cause, Disposed(p, m, cause, resume, d).m);
      case Divert(code) => DivertSpares(p, s, cause, m, code);
      case Abandon => AbandonSpares(p, s, cause, m);
    }
  }

  /** Any repair but abandoning the instance resumes the collateral: of the moves
      a freeze halted, exactly those whose scope the disposition did not tear
      down, each on the flow it was on. */
  lemma RepairResumes(p: Process, s: Instance, incident: nat, d: Disposition, why: string)
    requires WellFormed(p) && SidePathsOk(p) && Resting(p, s) && !d.AbandonInstance?
    ensures var o := OpenRepair(p, s, incident, d, why);
            o.Refused? || (o.Opened? && Resumes(s, o.At()))
  {
    hide Inv, WellFormed, SidePathsOk, Collateral, Disposed, DispositionRefusal, Blank, Resumes, Spares, Distinct;
    if s.status.Failed? && RepairRefusal(p, s, incident, d, why).None? {
      CausesAre(p, s);
      var cause := CauseOf(s);
      var parked := s.tokens[cause];
      var m := Say(Idle(s), IncidentRepaired(incident, parked.node, d.Kind(),
                                             if d.Divert? then d.code else None,
                                             if d.AdvancePast? then d.answer else None, why));
      var m1 := Patched(m, d.Patch());
      var m2 := m1.(s := m1.s.(status := Active), scope := parked.scope);
      RepairActs(p, s, cause, m2, d);
      DisposedSpares(p, s, cause, m2, d);
      var r := Disposed(p, m2, cause, p.ResumePoint(parked.node), d).m;
      QueueOkIn(p, Collateral(r));
      SparedResume(s, r);
    }
  }

  // ---- who is where when

  /** Failed is exactly one token at its incident; active, nobody is halted. */
  lemma StatusTells(p: Process, s: Instance)
    requires Resting(p, s)
    ensures s.status.Failed? <==> |Causes(s)| == 1
    ensures s.status.Failed? || Causes(s) == {}
    ensures s.status.Active? ==> NobodyHalted(s) && s.tokens != map[]
    ensures s.status.Completed? || s.status.Terminated? || s.status.Created? ==> s.tokens == map[]
    ensures s.status.Failed? ==> forall id :: id in s.tokens ==> !s.TokenAt(id).wait.OnDecision?
  {
    if s.status.Failed? {
      CausesAre(p, s);
    } else {
      hide Owned, Safe;
      assert Causes(s) == {};
    }
  }

  // ---- joins

  /** Nobody stands twice on one flow into a join: in one scope, of everybody
      parked, queued or halted, at most one. */
  lemma JoinsAreOneSafe(p: Process, m: Machine, except: set<ScopeId>, n: NodeIx, f: FlowIx, a: TokenId, b: TokenId)
    requires Certified(p) && Inv(p, m, except) && n < |p.nodes| && p.IsJoin(n) && f in p.Incoming(n)
    requires var pop := Everybody(p, m.s, m.q);
             && a in pop && b in pop && PlaceIn(pop, a).scope == PlaceIn(pop, b).scope
             && PlaceIn(pop, a).via == Some(f) && PlaceIn(pop, b).via == Some(f)
    ensures a == b
  {
    hide Owned, QueueOk, StatusOk, ReaskOk, Inhabited, Everybody, Conserving;
    var c :| Conserving(p, c) && f in c.flows;
    assert One(c, Everybody(p, m.s, m.q));
  }

  /** `mv` is the last arrival its join waits for. */
  ghost predicate LastArrival(p: Process, m: Machine, mv: Move) {
    && AboutToEnter(p, m, mv) && Certified(p) && p.IsJoin(mv.node)
    && forall f :: f in p.Incoming(mv.node) && Some(f) != mv.via ==> ArrivedOn(m.s, mv.node, mv.scope, f) != {}
  }

  lemma OneWaits(p: Process, m: Machine, mv: Move, f: FlowIx, a: TokenId, b: TokenId)
    requires AboutToEnter(p, m, mv) && Certified(p) && p.IsJoin(mv.node) && f in p.Incoming(mv.node)
    requires a in ArrivedOn(m.s, mv.node, mv.scope, f) && b in ArrivedOn(m.s, mv.node, mv.scope, f)
    ensures a == b
  {
    hide Certified, WellFormed;
    HandOk(p, m, mv);
    InHandPlaces(p, m, mv);
    QueuePlacesApart(p, m.s, InHand(m, mv).q);
    JoinsAreOneSafe(p, InHand(m, mv), {}, mv.node, f, a, b);
  }

  /** Exactly one token waits on each flow of `flows`. */
  ghost predicate OneOnEach(s: Instance, n: NodeIx, scope: ScopeId, flows: seq<FlowIx>) {
    forall f :: f in flows ==> exists t :: ArrivedOn(s, n, scope, f) == {t}
  }

  /** The tokens waiting at a join in one scope, on any of some flows. */
  function WaitingOn(s: Instance, n: NodeIx, scope: ScopeId, flows: seq<FlowIx>): set<TokenId> {
    set t | t in s.tokens && s.tokens[t].node == n && s.tokens[t].scope == scope && s.tokens[t].wait.AtJoin? && s.tokens[t].wait.arrivedVia in flows
  }

  lemma WaitingSplits(s: Instance, n: NodeIx, scope: ScopeId, flows: seq<FlowIx>, f: FlowIx)
    ensures WaitingOn(s, n, scope, flows + [f]) == WaitingOn(s, n, scope, flows) + ArrivedOn(s, n, scope, f)
    ensures f !in flows ==> WaitingOn(s, n, scope, flows) !! ArrivedOn(s, n, scope, f)
  {
  }

  lemma {:induction false} OnePerFlowWaits(s: Instance, n: NodeIx, scope: ScopeId, flows: seq<FlowIx>)
    requires NoRepeats(flows) && OneOnEach(s, n, scope, flows)
    ensures |WaitingOn(s, n, scope, flows)| == |flows|
    decreases |flows|
  {
    if flows == [] {
    } else {
      var f, rest := flows[|flows| - 1], flows[..|flows| - 1];
      assert flows == rest + [f] && f !in rest && forall g :: g in rest ==> g in flows;
      OnePerFlowWaits(s, n, scope, rest);
      WaitingSplits(s, n, scope, rest, f);
      assert f in flows;
      var t :| ArrivedOn(s, n, scope, f) == {t};
      hide WaitingOn, ArrivedOn;
      assert t in {t};
    }
  }

  lemma ConsumesTheWaiting(p: Process, s: Instance, n: NodeIx, scope: ScopeId)
    requires OneOnEach(s, n, scope, p.Incoming(n))
    ensures AllArrived(p, s, n, scope) && Consumed(p, s, n, scope) == WaitingOn(s, n, scope, p.Incoming(n))
  {
    forall f | f in p.Incoming(n) ensures ArrivedOn(s, n, scope, f) == {Sorted(ArrivedOn(s, n, scope, f))[0]} {
      var t :| ArrivedOn(s, n, scope, f) == {t};
      assert Sorted({t})[0] in Sorted({t});
    }
    hide Sorted;
    assert AllArrived(p, s, n, scope);
    forall t | t in WaitingOn(s, n, scope, p.Incoming(n)) ensures t in Consumed(p, s, n, scope) {
      assert t in ArrivedOn(s, n, scope, s.tokens[t].wait.arrivedVia);
    }
    forall t | t in Consumed(p, s, n, scope) ensures t in WaitingOn(s, n, scope, p.Incoming(n)) {
      var f :| f in p.Incoming(n) && t == Sorted(ArrivedOn(s, n, scope, f))[0];
      assert t in ArrivedOn(s, n, scope, f);
    }
  }

  lemma ParkedArrivals(p: Process, m: Machine, mv: Move)
    requires LastArrival(p, m, mv)
    ensures mv.via.Some? && mv.Came() in p.Incoming(mv.node) && ArrivedOn(m.s, mv.node, mv.scope, mv.Came()) == {}
    ensures var s1 := Park(m, mv.token, mv.node, AtJoin(mv.Came())).s;
            && OneOnEach(s1, mv.node, mv.scope, p.Incoming(mv.node))
            && ArrivedOn(s1, mv.node, mv.scope, mv.Came()) == {mv.token}
  {
    hide Certified, WellFormed, Inv;
    JoinFree(p, m, mv);
    var n, scope, f0 := mv.node, mv.scope, mv.via.value;
    var s1 := Park(m, mv.token, n, AtJoin(f0)).s;
    assert ArrivedOn(s1, n, scope, f0) == {mv.token};
    forall f | f in p.Incoming(n) ensures exists t :: ArrivedOn(s1, n, scope, f) == {t} {
      if f != f0 {
        var t :| t in ArrivedOn(m.s, n, scope, f);
        forall b | b in ArrivedOn(m.s, n, scope, f) ensures b == t {
          OneWaits(p, m, mv, f, t, b);
        }
        assert ArrivedOn(m.s, n, scope, f) == {t};
        HandFresh(p, m, mv);
        assert ArrivedOn(s1, n, scope, f) == ArrivedOn(m.s, n, scope, f);
      }
    }
  }

  lemma HandFresh(p: Process, m: Machine, mv: Move)
    requires AboutToEnter(p, m, mv)
    ensures mv.token !in m.s.tokens && m.scope == mv.scope && mv.node < |p.nodes|
    ensures forall t :: t in m.s.tokens && m.s.TokenAt(t).node == mv.node && m.s.TokenAt(t).wait.AtJoin? ==>
              m.s.TokenAt(t).wait.Ref() in p.Incoming(mv.node)
  {
    HandOk(p, m, mv);
    forall t | t in m.s.tokens && m.s.tokens[t].node == mv.node && m.s.tokens[t].wait.AtJoin?
      ensures m.s.tokens[t].wait.arrivedVia in p.Incoming(mv.node)
    {
      assert TokenOk(p, m.s, t, m.s.tokens[t]);
    }
  }

  lemma JoinShape(p: Process, m: Machine, mv: Move)
    requires LastArrival(p, m, mv)
    ensures NoRepeats(p.Incoming(mv.node)) && |p.Outgoing(mv.node)| == 1
  {
    HandOk(p, m, mv);
    assert ShapeOk(p, mv.node);
  }

  /** A join that fires takes everybody waiting at it in its own scope, which is
      one token for each incoming flow, and sends one on. */
  lemma JoinFiresOnce(p: Process, m: Machine, mv: Move)
    requires LastArrival(p, m, mv)
    ensures var n, scope := mv.node, mv.scope;
            var o := EnterJoin(p, m, mv.token, n, mv.via);
            var waiting := set t | t in m.s.tokens && m.s.TokenAt(t).node == n && m.s.TokenAt(t).scope == scope && m.s.TokenAt(t).wait.AtJoin?;
            && o.Ok? && |p.Outgoing(n)| == 1
            && o.m.s == m.s.(tokens := m.s.tokens - waiting).Minted(1) && |waiting| + 1 == |p.Incoming(n)|
            && o.m.ev == m.ev + [ElementStarted(n), ElementCompleted(n), FlowTaken(p.OnlyFlow(n))]
            && o.m.q == m.q + [Move(m.s.nextToken, p.Target(p.OnlyFlow(n)), Some(p.OnlyFlow(n)), scope)]
  {
    hide Certified, WellFormed, Inv, LastArrival, AboutToEnter, WaitingOn, Consumed, AllArrived;
    assert AboutToEnter(p, m, mv) by { ArrivesLast(p, m, mv); }
    ParkedArrivals(p, m, mv);
    HandFresh(p, m, mv);
    JoinShape(p, m, mv);
    var n, scope, flows := mv.node, mv.scope, p.Incoming(mv.node);
    var m1 := Park(m, mv.token, n, AtJoin(mv.via.value));
    OnePerFlowWaits(m1.s, n, scope, flows);
    ConsumesTheWaiting(p, m1.s, n, scope);
    var waiting := set t | t in m.s.tokens && m.s.TokenAt(t).node == n && m.s.TokenAt(t).scope == scope && m.s.TokenAt(t).wait.AtJoin?;
    HandJoins(m, mv, flows);
    assert m1.s.tokens - (waiting + {mv.token}) == m.s.tokens - waiting;
    FiredIs(p, m1, n, waiting + {mv.token});
    hide OneOnEach, ArrivedOn, LeaveSingle;
  }

  lemma FiredIs(p: Process, m: Machine, n: NodeIx, gone: set<TokenId>)
    requires |p.Outgoing(n)| == 1
    ensures var f := p.OnlyFlow(n);
            LeaveSingle(p, FreshToken(Finished(Started(Unpark(m, gone), n), n)), m.s.nextToken, n)
            == Outcome.Ok(m.(s := m.s.(tokens := m.s.tokens - gone).Minted(1),
                             q := m.q + [Move(m.s.nextToken, p.Target(f), Some(f), m.scope)],
                             ev := m.ev + [ElementStarted(n), ElementCompleted(n), FlowTaken(f)]))
  {
    var f := p.OnlyFlow(n);
    assert m.ev + [ElementStarted(n)] + [ElementCompleted(n)] + [FlowTaken(f)] == m.ev + [ElementStarted(n), ElementCompleted(n), FlowTaken(f)];
  }

  /** Before that an arrival waits, parked on the flow it came by, and nothing else
      happens. */
  lemma JoinWaits(p: Process, m: Machine, mv: Move, f: FlowIx)
    requires AboutToEnter(p, m, mv) && Certified(p) && p.IsJoin(mv.node) && f in p.Incoming(mv.node) && Some(f) != mv.via
    requires forall t :: t in m.s.tokens ==> m.s.TokenAt(t) != Token(mv.node, mv.scope, AtJoin(f))
    ensures mv.via.Some?
    ensures Enter(p, m, mv.token, mv.node, mv.via)
         == Outcome.Ok(m.(s := m.s.(tokens := m.s.tokens[mv.token := Token(mv.node, mv.scope, AtJoin(mv.Came()))])))
  {
    EntersJoin(p, m, mv);
    hide AboutToEnter, Certified, Enter, Process.IsJoin;
    JoinFree(p, m, mv);
    assert m.scope == mv.scope by { HandFresh(p, m, mv); }
    assert ArrivedOn(Park(m, mv.token, mv.node, AtJoin(mv.Came())).s, mv.node, mv.scope, f) == {};
    hide ArrivedOn;
  }

  lemma HandJoins(m: Machine, mv: Move, flows: seq<FlowIx>)
    requires mv.via.Some? && mv.Came() in flows && mv.token !in m.s.tokens && m.scope == mv.scope
    requires forall t :: t in m.s.tokens && m.s.TokenAt(t).node == mv.node && m.s.TokenAt(t).wait.AtJoin? ==> m.s.TokenAt(t).wait.Ref() in flows
    ensures var waiting := set t | t in m.s.tokens && m.s.TokenAt(t).node == mv.node && m.s.TokenAt(t).scope == mv.scope && m.s.TokenAt(t).wait.AtJoin?;
            && WaitingOn(Park(m, mv.token, mv.node, AtJoin(mv.Came())).s, mv.node, mv.scope, flows) == waiting + {mv.token}
            && mv.token !in waiting
  {
  }

  lemma ArrivesLast(p: Process, m: Machine, mv: Move)
    requires LastArrival(p, m, mv)
    ensures AboutToEnter(p, m, mv) && p.IsJoin(mv.node)
  {
  }

  // ---- scopes

  /** Everybody left in a scope, parked or queued, is gone. */
  lemma NobodyLivesIn(p: Process, m: Machine, scope: ScopeId)
    requires QueueOk(p, m.s, m.q)
    ensures ScopeIsEmpty(m, scope) <==> !LivesIn(Everybody(p, m.s, m.q), scope)
  {
    if !ScopeIsEmpty(m, scope) {
      SomebodyLives(p, m, scope);
    } else {
      hide QueueOk;
      forall a | a in Everybody(p, m.s, m.q) ensures Everybody(p, m.s, m.q)[a].scope != scope {
        if a in MovePlaces(m.q) {
          MovePlacesFrom(m.q, a);
          MovesComeFrom(m.q, a);
        }
      }
    }
  }

  lemma {:induction false} MovesComeFrom(q: seq<Move>, a: TokenId)
    requires a in MovePlaces(q)
    ensures exists i :: 0 <= i < |q| && MovePlaces(q)[a] == PlaceOfMove(q[i])
    decreases |q|
  {
    if q[|q| - 1].token == a {
      assert MovePlaces(q)[a] == PlaceOfMove(q[|q| - 1]);
    } else {
      MovesComeFrom(q[..|q| - 1], a);
      var i :| 0 <= i < |q| - 1 && MovePlaces(q[..|q| - 1])[a] == PlaceOfMove(q[..|q| - 1][i]);
      assert MovePlaces(q)[a] == PlaceOfMove(q[i]);
    }
  }

  /** The token goes when scope `c` does: it waits on it, or lives in it or deeper. */
  predicate GoesWith(s: Instance, c: ScopeId, token: TokenId) {
    token in s.tokens && (s.tokens[token].wait == OnScope(c) || Within(s.scopes, s.tokens[token].scope, c))
  }

  /** What is queued of nobody inside `c`, in its order. */
  function MovesOutside(q: seq<Move>, scopes: map<ScopeId, Scope>, c: ScopeId): seq<Move> {
    if q == [] then []
    else
      var front, last := MovesOutside(q[..|q| - 1], scopes, c), q[|q| - 1];
      if Within(scopes, last.scope, c) then front else front + [last]
  }

  /** Scope `c` is closed with every scope in it: their tokens and moves are gone, and
      with each token its open work and its arms; the token that waited on it leaves
      by the one flow out of its subprocess; nothing outside is touched. */
  ghost predicate ClosedOff(p: Process, m: Machine, c: ScopeId, m': Machine) {
    var s, s', up := m.s, m'.s, m.s.ScopeAt(c);
    && c in s.scopes && s.TokenAt(up.token) == Token(up.element, up.parent, OnScope(c)) && |p.Outgoing(up.element)| == 1
    && s' == s.(tokens := s'.tokens, items := s'.items, timers := s'.timers, subs := s'.subs, scopes := s'.scopes)
    && (forall t :: t in s'.tokens <==> t in s.tokens && !GoesWith(s, c, t))
    && (forall t :: t in s'.tokens ==> s'.tokens[t] == s.tokens[t])
    && (forall k :: k in s'.timers <==> k in s.timers && !GoesWith(s, c, s.timers[k].token))
    && (forall k :: k in s'.timers ==> s'.timers[k] == s.timers[k])
    && (forall k :: k in s'.subs <==> k in s.subs && !GoesWith(s, c, s.subs[k].token))
    && (forall k :: k in s'.subs ==> s'.subs[k] == s.subs[k])
    && s'.items.Keys == s.items.Keys
    && (forall i :: i in s'.items ==> s'.items[i] == s.items[i].(open := s.items[i].open && !GoesWith(s, c, s.items[i].token)))
    && (forall k :: k in s'.scopes <==> k in s.scopes && !Within(s.scopes, k, c))
    && (forall k :: k in s'.scopes ==> s'.scopes[k] == s.scopes[k])
    && var f := p.OnlyFlow(up.element); m'.q == MovesOutside(m.q, s.scopes, c) + [Move(up.token, p.Target(f), Some(f), up.parent)]
  }

  lemma {:induction false} SparedAreOutside(q: seq<Move>, scopes: map<ScopeId, Scope>, c: ScopeId)
    requires c in scopes
    ensures Spared(q, Subtree(scopes, c)) == MovesOutside(q, scopes, c)
    decreases |q|
  {
    if q != [] {
      SparedAreOutside(q[..|q| - 1], scopes, c);
    }
  }

  lemma GoneGoWith(p: Process, s: Instance, c: ScopeId)
    requires Owned(p, s) && c in s.scopes
    ensures var up := s.ScopeAt(c); up.token in s.tokens && s.TokenAt(up.token) == Token(up.element, up.parent, OnScope(c))
    ensures ChildScopes(s, s.ScopeAt(c).token) == Subtree(s.scopes, c)
    ensures forall t :: t in WithChildren(s, s.ScopeAt(c).token) <==> GoesWith(s, c, t)
  {
    hide Owned;
    WaitedFor(p, s, c);
    assert s.ScopeAt(c) == s.scopes[c] && s.TokenAt(s.scopes[c].token) == s.tokens[s.scopes[c].token];
  }

  /** To complete a scope is to close it off, with whatever is still running inside. */
  lemma CompletedIsClosedOff(p: Process, m: Machine, c: ScopeId, m': Machine)
    requires Owned(p, m.s) && c in m.s.scopes && |p.Outgoing(m.s.ScopeAt(c).element)| == 1
    requires var up := m.s.ScopeAt(c);
             var f := p.OnlyFlow(up.element);
             var x := Exits(m, up.token, Move(up.token, p.Target(f), Some(f), up.parent));
             m'.s == x.s && m'.q == x.q
    ensures ClosedOff(p, m, c, m') && m'.s.status == m.s.status
  {
    hide Owned, GoesWith, Subtree, Spared, MovesOutside, ChildScopes, WithChildren, Reaped, Within;
    var up := m.s.ScopeAt(c);
    GoneGoWith(p, m.s, c);
    SparedAreOutside(m.q, m.s.scopes, c);
    SubtreeIs(m.s.scopes, c);
    ReapedRows(m.s, WithChildren(m.s, up.token), Subtree(m.s.scopes, c));
    assert m'.s == Reaped(m.s, WithChildren(m.s, up.token)).(scopes := m.s.scopes - Subtree(m.s.scopes, c));
    hide Freed, Exits;
  }

  lemma ReapedRows(s: Instance, gone: set<TokenId>, closed: set<ScopeId>)
    ensures var r := Reaped(s, gone).(scopes := s.scopes - closed);
            && r == s.(tokens := r.tokens, items := r.items, timers := r.timers, subs := r.subs, scopes := r.scopes)
            && r.tokens == s.tokens - gone && r.scopes == s.scopes - closed && r.items.Keys == s.items.Keys
            && (forall k :: k in r.timers <==> k in s.timers && s.TimerAt(k).token !in gone)
            && (forall k :: k in r.timers ==> r.TimerAt(k) == s.TimerAt(k))
            && (forall k :: k in r.subs <==> k in s.subs && s.SubAt(k).token !in gone)
            && (forall k :: k in r.subs ==> r.SubAt(k) == s.SubAt(k))
            && (forall i :: i in r.items ==> r.ItemAt(i) == s.ItemAt(i).(open := s.ItemAt(i).open && s.ItemAt(i).token !in gone))
  {
  }

  lemma SubtreeIs(scopes: map<ScopeId, Scope>, c: ScopeId)
    requires c in scopes
    ensures forall k :: k in scopes ==> (k in Subtree(scopes, c) <==> Within(scopes, k, c))
  {
  }

  /** A token that ends inside a subprocess resumes the token waiting outside
      exactly when nobody, parked or in flight, is left in the scope. */
  lemma LastOutResumes(p: Process, m: Machine, mv: Move)
    requires AboutToEnter(p, m, mv) && p.KindOf(mv.node).End? && mv.scope != ROOT
    ensures var o := Enter(p, m, mv.token, mv.node, mv.via);
            && o.Ok? && mv.scope in m.s.scopes
            && (LivesIn(Everybody(p, m.s, m.q), mv.scope) ==> o.m.s == m.s && o.m.q == m.q)
            && (!LivesIn(Everybody(p, m.s, m.q), mv.scope) ==> ClosedOff(p, m, mv.scope, o.m))
  {
    hide Inv, WellFormed, LivesIn, Everybody, ScopeIsEmpty, Owned, QueueOk, ClosedOff, CompleteScope, TearDown;
    ParentOf(p, m, mv);
    InHandOk(p, m, mv);
    NobodyLivesIn(p, m, mv.scope);
    var m1 := Finished(Started(m, mv.node), mv.node);
    assert ScopeIsEmpty(m1, mv.scope) <==> ScopeIsEmpty(m, mv.scope) by { SayingEmpties(m, m1, mv.scope); }
    EntersEnd(p, m, mv);
    if ScopeIsEmpty(m1, mv.scope) {
      ScopesOf(p, m.s);
      hide ScopesOk;
      TearEmpty(m1, mv.scope);
      CompletesHand(p, m, mv, m1);
    }
  }

  lemma EntersEnd(p: Process, m: Machine, mv: Move)
    requires m.scope == mv.scope && (p.KindOf(mv.node).End? || p.KindOf(mv.node).TerminateEnd?)
    ensures var m1 := Finished(Started(m, mv.node), mv.node);
            Enter(p, m, mv.token, mv.node, mv.via)
            == if p.KindOf(mv.node).End? then CompleteScopeIfEmpty(p, m1, mv.scope)
               else if mv.scope != ROOT then CompleteScope(p, TearDown(m1, mv.scope), mv.scope) else Outcome.Ok(Terminate(m1))
  {
    hide CompleteScopeIfEmpty, CompleteScope, TearDown, Terminate;
  }

  lemma ScopesOf(p: Process, s: Instance)
    requires Owned(p, s)
    ensures ScopesOk(s)
  {
  }

  /** The scope of the token in hand, torn down and completed. */
  lemma CompletesHand(p: Process, m: Machine, mv: Move, m1: Machine)
    requires AboutToEnter(p, m, mv) && mv.scope != ROOT && m1 == m.(ev := m1.ev)
    ensures var o := CompleteScope(p, TearDown(m1, mv.scope), mv.scope);
            o.Ok? && o.m.s.status == m.s.status && ClosedOff(p, m, mv.scope, o.m)
  {
    hide Inv, WellFormed, Owned, CompleteScope, TearDown, ClosedOff, Exits;
    ParentOf(p, m, mv);
    var up := m.s.scopes[mv.scope];
    SubProcessGoesOn(p, m.s.tokens[up.token], up.token);
    TornCompletes(p, m1, mv.scope);
    var f := p.OnlyFlow(up.element);
    ExitsSame(m, m1, up.token, Move(up.token, p.Target(f), Some(f), up.parent));
    CompletedIsClosedOff(p, m, mv.scope, CompleteScope(p, TearDown(m1, mv.scope), mv.scope).m);
    assert ClosedOff(p, m, mv.scope, CompleteScope(p, TearDown(m1, mv.scope), mv.scope).m);
  }

  /** A terminate end in a subprocess ends that subprocess only: its scope is closed
      off, whoever is still in it, and the instance goes on. */
  lemma TerminateEndsScope(p: Process, m: Machine, mv: Move)
    requires AboutToEnter(p, m, mv) && p.KindOf(mv.node).TerminateEnd? && mv.scope != ROOT
    ensures var o := Enter(p, m, mv.token, mv.node, mv.via);
            o.Ok? && o.m.s.status.Active? && ClosedOff(p, m, mv.scope, o.m)
  {
    hide Inv, WellFormed, CompleteScope, TearDown, ClosedOff;
    EntersEnd(p, m, mv);
    CompletesHand(p, m, mv, Finished(Started(m, mv.node), mv.node));
  }

  /** A terminate end outside every subprocess ends the instance: nobody, nothing
      open and no arm is left, and the document is as it was. */
  lemma TerminateEndsInstance(p: Process, m: Machine, mv: Move)
    requires AboutToEnter(p, m, mv) && p.KindOf(mv.node).TerminateEnd? && mv.scope == ROOT
    ensures var o := Enter(p, m, mv.token, mv.node, mv.via);
            o.Ok? && EndedAs(m, Status.Terminated, o.m)
  {
    hide Inv, WellFormed, Terminate, EndedAs;
    EntersEnd(p, m, mv);
    TerminatedIs(Finished(Started(m, mv.node), mv.node));
    EndedSame(m, Finished(Started(m, mv.node), mv.node), Terminate(Finished(Started(m, mv.node), mv.node)));
  }

  /** The instance is over: its document and its numbers are kept, its items closed. */
  ghost predicate EndedAs(m: Machine, status: Status, m': Machine) {
    && m'.s == m.s.(status := status, tokens := map[], scopes := map[], timers := map[], subs := map[], items := m'.s.items)
    && m'.q == [] && m'.s.items.Keys == m.s.items.Keys
    && (forall i :: i in m'.s.items ==> m'.s.items[i] == m.s.items[i].(open := false))
  }

  lemma TerminatedIs(m: Machine)
    ensures EndedAs(m, Status.Terminated, Terminate(m))
  {
    hide Sorted;
    TerminateIs(m);
  }

  lemma EndedSame(m: Machine, m1: Machine, m': Machine)
    requires EndedAs(m1, Status.Terminated, m') && m1.s == m.s
    ensures EndedAs(m, Status.Terminated, m')
  {
  }

  /** An end outside every subprocess consumes its token, and that is all. */
  lemma EndConsumes(p: Process, m: Machine, mv: Move)
    requires AboutToEnter(p, m, mv) && p.KindOf(mv.node).End? && mv.scope == ROOT
    ensures var o := Enter(p, m, mv.token, mv.node, mv.via); o.Ok? && o.m.s == m.s && o.m.q == m.q
  {
    hide Inv, WellFormed;
    EntersEnd(p, m, mv);
  }

  lemma InHandOk(p: Process, m: Machine, mv: Move)
    requires AboutToEnter(p, m, mv)
    ensures QueueOk(p, m.s, m.q)
  {
    InHandPlaces(p, m, mv);
  }

  lemma SayingEmpties(m: Machine, m1: Machine, scope: ScopeId)
    requires m1.s == m.s && m1.q == m.q
    ensures ScopeIsEmpty(m1, scope) <==> ScopeIsEmpty(m, scope)
  {
  }

  // ---- abandoning

  /** An accepted abandon consumes the last token of its scope, or one that no
      parallel gateway lies ahead of: no join is left waiting for it. */
  lemma AbandonStrandsNobody(p: Process, s: Instance, incident: nat, why: string, n: NodeIx)
    requires WellFormed(p) && Closure.SidePathCompiled(p) && Resting(p, s)
    requires forall m: NodeIx :: p.OnSidePath(m) ==> !p.KindOf(m).ParallelGateway?
    requires RepairRefusal(p, s, incident, Abandon, why).None?
    ensures |Causes(s)| == 1
    ensures var cause := CauseOf(s);
            && cause in s.tokens
            && var resume := p.ResumePoint(s.TokenAt(cause).node);
               || (forall t :: t in s.tokens && s.TokenAt(t).scope == s.TokenAt(cause).scope ==> t == cause)
               || (Closure.Reaches(Closure.OnwardIn(p), resume, n) ==> !p.KindOf(n).ParallelGateway?)
  {
    hide Inv, WellFormed, Blank, Closure.SidePathCompiled, Closure.Reaches, Closure.OnwardIn, Process.ResumePoint;
    CausesAre(p, s);
    var cause := CauseOf(s);
    var resume := p.ResumePoint(s.tokens[cause].node);
    if p.OnSidePath(resume) && Closure.Reaches(Closure.OnwardIn(p), resume, n) {
      Closure.NoJoinAhead(p, resume, n);
    }
  }
}
