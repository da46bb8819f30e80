/** What a maintainer may say of any run at any moment, in one place. */
module Accounts {
  import opened Basics
  import opened Json
  import opened Compiled
  import opened State
  import opened Advance
  import opened Step
  import opened Game
  import opened Invariant
  import opened Running
  import opened Stepping
  import opened Conservation
  import opened Runs
  import opened Telling
  import opened Histories
  import opened Ledger

  lemma RunReads(p: Process, commands: seq<Command>)
    requires Linted(p)
    ensures var h := After(p, commands); Readable(p, h.ev) && BookAfter(p, h.ev) == BookOf(h.s)
  {
    HistoryReads(p, commands);
  }

  // ---- the document

  /** After any commands the document is the started one with every patch merged
      and every answer assigned, in event order. */
  lemma RunDocument(p: Process, commands: seq<Command>)
    requires Linted(p)
    ensures var h := After(p, commands); h.s.variables == Document(p, h.ev)
  {
    hide After, Readable, BookAfter, Document;
    RunReads(p, commands);
    DocumentIsFold(p, After(p, commands).ev);
  }

  // ---- rows

  predicate IsOpen(s: Instance, r: Row) {
    match r
    case TimerRow(id) => id in s.timers
    case SubRow(id) => id in s.subs
    case ItemRow(id) => id in s.items && s.items[id].open
  }

  /** Each timer, subscription and work item is opened at most once, closed at
      most once and only then, and is in the state exactly between the two. */
  lemma RunRows(p: Process, commands: seq<Command>, r: Row)
    requires Linted(p)
    ensures var h := After(p, commands);
            var opens, closes := Times(h.ev, e => Opens(e, r)), Times(h.ev, e => Closes(e, r));
            && closes <= opens <= 1
            && (IsOpen(h.s, r) <==> opens - closes == 1)
  {
    hide After, Readable, BookAfter, Times, Linted;
    RunReads(p, commands);
    var h := After(p, commands);
    RowLife(p, h.ev, r);
  }

  // ---- incidents

  /** Incidents are 0, 1, 2, … each raised, then repaired, then the next; the
      state's own counter and status say how far the run has come. */
  lemma RunIncidents(p: Process, commands: seq<Command>)
    requires Linted(p)
    ensures var h := After(p, commands);
            var log := IncidentLog(h.ev);
            && Alternates(log)
            && |log| == 2 * h.s.nextIncident - (if h.s.status.Failed? then 1 else 0)
  {
    hide After, Readable, BookAfter, IncidentLog, Linted;
    RunReads(p, commands);
    IncidentsInOrder(p, After(p, commands).ev);
  }

  /** An incident once repaired is never repaired again: the same repair sent
      twice is refused by number, and a refusal changes nothing. */
  lemma ResentRepair(p: Process, commands: seq<Command>, incident: nat, d: Disposition, why: string)
    requires Linted(p) && Repaired(incident) in IncidentLog(After(p, commands).ev)
    ensures var s := After(p, commands).s;
            var r := StepOf(p, s, Repair(incident, d, why));
            r.error == Some(IncidentNotOpen(incident, s.OpenIncident())) && r.s == s && r.ev == []
  {
    hide After, IncidentLog, Linted, Resting;
    RunIncidents(p, commands);
    var log := IncidentLog(After(p, commands).ev);
    var i :| 0 <= i < |log| && log[i] == Repaired(incident);
    assert RepairRefusal(p, After(p, commands).s, incident, d, why).Some?;
    hide RepairRefusal;
  }

  // ---- cycles

  ghost predicate CyclesKept(p: Process, s: Instance, c: Chains) {
    && (forall r :: r in c.dues ==> Bounded(p, c.dues[r], FiresOf(c, r)))
    && (forall k :: k in s.timers ==> InChain(p, c, k, s.timers[k], 0) && s.timers[k].token in s.tokens)
    && (forall j, k :: j in s.timers && k in s.timers && c.roots[j] == c.roots[k] ==> j == k)
  }

  /** No chain of a cycle's timers fires more often than it may, one timer of a
      chain is armed at a time and counts what is left, and an armed timer's
      token is there to be fired for. */
  lemma RunCycles(p: Process, commands: seq<Command>)
    requires Linted(p)
    ensures CyclesKept(p, After(p, commands).s, ChainsOf(After(p, commands).ev))
  {
    hide After, Readable, BookAfter, ChainsOf, Linted, InChain, Bounded;
    RunReads(p, commands);
    var h := After(p, commands);
    CyclesBounded(p, h.ev);
  }

  // ---- joins

  /** At every moment of every step of every run nobody stands twice on one flow
      into a join, and no step meets the internal error. */
  lemma EveryMoment(p: Process, commands: seq<Command>, c: Command, k: nat)
    requires Linted(p) && OpenCommand(p, After(p, commands).s, c).Opened?
    requires After(p, commands).s.status.Active? ==> Asked(After(p, commands).s, c)
    ensures var o := Advanced(p, OpenCommand(p, After(p, commands).s, c).At(), k);
            && o.Ok? && Inv(p, o.m, {})
            && (forall n: NodeIx, f: FlowIx, a, b ::
                  var pop := Everybody(p, o.m.s, o.m.q);
                  && n < |p.nodes| && p.IsJoin(n) && f in p.Incoming(n)
                  && a in pop && b in pop && PlaceIn(pop, a).scope == PlaceIn(pop, b).scope
                  && PlaceIn(pop, a).via == Some(f) && PlaceIn(pop, b).via == Some(f)
                  ==> a == b)
  {
    hide After, OpenCommand, Advanced, Inv, Everybody, Certified, WellFormed, SidePathsOk;
    var m := OpenCommand(p, After(p, commands).s, c).m;
    OpenSound(p, After(p, commands).s, c);
    AdvancedKeeps(p, m, k);
    var o := Advanced(p, m, k);
    var pop := Everybody(p, o.m.s, o.m.q);
    forall n: NodeIx, f: FlowIx, a, b
      | && n < |p.nodes| && p.IsJoin(n) && f in p.Incoming(n)
        && a in pop && b in pop && pop[a].scope == pop[b].scope
        && pop[a].via == Some(f) && pop[b].via == Some(f)
      ensures a == b
    {
      JoinsAreOneSafe(p, o.m, {}, n, f, a, b);
    }
  }

  // ---- a delivery to a side path

  /** What a delivery leaves before anything is re-armed. */
  function Undelivered(s: Instance, id: SubId, patch: Value): Instance {
    s.(subs := s.subs - {id}, variables := if patch == EMPTY then s.variables else Merge(s.variables, patch))
  }

  /** The arm opened again, and one token out on the boundary's flow. */
  predicate SentAside(p: Process, s: Instance, left: Instance, sub: Sub, key: Key, o: Opening) {
    && o.Opened? && key.Key? && |p.Outgoing(sub.element)| == 1 && sub.token in s.tokens
    && o.At().s == left.AddSub(Sub(sub.element, sub.token, key.message, key.key)).Minted(1)
    && var f := p.OnlyFlow(sub.element);
       o.At().q == [Move(s.nextToken, p.Target(f), Some(f), s.TokenAt(sub.token).scope)]
  }

  /** Delivering to a non-interrupting boundary is refused exactly when its re-arm
      would fail on what the delivery leaves; an accepted one re-arms, leaves the
      host's token, work and other arms as they were, and sends one token out. */
  lemma SideDelivery(p: Process, s: Instance, id: SubId, patch: Value)
    requires WellFormed(p) && Resting(p, s) && s.status.Active? && id in s.subs
    requires p.KindOf(s.SubAt(id).element).MessageBoundary? && !p.Interrupts(s.SubAt(id).element)
    ensures var left := Undelivered(s, id, patch);
            var key := ArmKey(p, left, left.variables, s.SubAt(id).element, None);
            var o := OpenDeliverMessage(p, s, id, patch);
            if key.Key? then SentAside(p, s, left, s.SubAt(id), key, o) else o == Refused(BoundaryCannotRearm(s.SubAt(id).element))
  {
    hide Inv, WellFormed, ArmKey, SpawnSideToken, OpenDeliverMessage, Subscribe;
    SubOwner(p, s, id);
    SideShape(p, s, id);
    var sub := s.subs[id];
    var left := Undelivered(s, id, patch);
    RearmAgrees(p, s, left, id, patch);
    var m := SideOpens(p, s, id, patch);
    match ArmKey(p, left, left.variables, sub.element, None)
    case Key(message, key) => SideSends(p, m, sub.token, sub.element, message, key);
    case _ =>
  }

  lemma SideOpens(p: Process, s: Instance, id: SubId, patch: Value) returns (m: Machine)
    requires s.status.Active? && id in s.subs && s.SubAt(id).token in s.tokens
    requires p.KindOf(s.SubAt(id).element).MessageBoundary? && !p.Interrupts(s.SubAt(id).element)
    requires Hosting(s.TokenAt(s.SubAt(id).token).wait) && s.TokenAt(s.SubAt(id).token).wait != OnMessage(id)
    ensures m.s == Undelivered(s, id, patch) && m.q == [] && m.scope == s.TokenAt(s.SubAt(id).token).scope
    ensures var sub := s.SubAt(id);
            var armed := Subscribe(p, m, sub.token, sub.element);
            OpenDeliverMessage(p, s, id, patch)
            == if !Rearms(p, s, id, patch) then Refused(BoundaryCannotRearm(sub.element))
               else if armed.ok then Open(SpawnSideToken(p, armed.m, sub.element))
               else Open(Ok(armed.m))
  {
    hide ArmKey, SpawnSideToken, Subscribe, Rearms;
    var sub := s.subs[id];
    m := Patched(Say(Idle(s.(subs := s.subs - {id})), MessageReceived(id, sub.element, sub.message)), patch);
    m := m.(scope := s.tokens[sub.token].scope);
  }

  lemma SideShape(p: Process, s: Instance, id: SubId)
    requires WellFormed(p) && Inv(p, Idle(s), {}) && id in s.subs && s.SubAt(id).token in s.tokens
    requires p.KindOf(s.SubAt(id).element).MessageBoundary? && SubOwned(p, id, s.SubAt(id).element, s.TokenAt(s.SubAt(id).token))
    requires TokenOk(p, s, s.SubAt(id).token, s.TokenAt(s.SubAt(id).token))
    ensures Hosting(s.TokenAt(s.SubAt(id).token).wait) && s.TokenAt(s.SubAt(id).token).wait != OnMessage(id)
    ensures |p.Outgoing(s.SubAt(id).element)| == 1 && p.KeyPath(s.SubAt(id).element) != []
  {
    hide Inv;
    assert s.subs[id].element < |p.nodes| && ShapeOk(p, s.subs[id].element);
  }

  lemma SideSends(p: Process, m: Machine, token: TokenId, element: NodeIx, message: string, key: string)
    requires |p.Outgoing(element)| == 1 && ArmKey(p, m.s, m.s.variables, element, None) == Key(message, key)
    ensures var armed := Subscribe(p, m, token, element);
            var f := p.OnlyFlow(element);
            var o := SpawnSideToken(p, armed.m, element);
            && armed.ok && o.Ok?
            && o.m.s == m.s.AddSub(Sub(element, token, message, key)).Minted(1)
            && o.m.q == m.q + [Move(m.s.nextToken, p.Target(f), Some(f), m.scope)]
  {
    hide ArmKey;
  }
}
