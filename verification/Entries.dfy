/** What entering a node sets up and says: which arms, which flow, which tokens. */
module Entries {
  import opened Basics
  import opened Json
  import opened Compiled
  import opened State
  import opened Advance
  import opened Branching

  // ---- arms

  predicate IsTimer(p: Process, n: NodeIx) { p.KindOf(n).TimerCatch? || p.KindOf(n).TimerBoundary? }
  predicate IsMessage(p: Process, n: NodeIx) { p.KindOf(n).MessageCatch? || p.KindOf(n).MessageBoundary? }

  /** The time `source` names in the document: written out, or a valid text of its
      kind at its path. */
  predicate Due(p: Process, source: TimerSource, v: Value, due: TimerDue) {
    match source
    case Literal(written) => due == written
    case Variable(kind, path) =>
      match Lookup(v, path)
      case Some(Str(text)) => p.validTime(kind, text) && OfKind(kind, text, due)
      case _ => false
  }

  predicate OfKind(kind: TimerKind, text: string, due: TimerDue) {
    match due
    case Duration(d) => kind == DurationKind && d == text
    case Date(d) => kind == DateKind && d == text
    case Cycle(d) => kind == CycleKind && d == text
  }

  /** `text` is the key that stands at `path`. */
  predicate Keyed(v: Value, path: seq<string>, text: string) {
    match Lookup(v, path)
    case Some(found) => KeyText(found) == Some(text)
    case None => false
  }

  predicate TimerFits(p: Process, v: Value, token: TokenId, n: NodeIx, row: Timer) {
    && row.element == n && row.token == token
    && row.remaining == (match row.due case Cycle(text) => p.repeats(text) case _ => None)
    && match p.KindOf(n)
       case TimerCatch(due) => Due(p, due, v, row.due)
       case TimerBoundary(due, _) => Due(p, due, v, row.due)
       case _ => false
  }

  predicate SubFits(p: Process, v: Value, token: TokenId, n: NodeIx, row: Sub) {
    && row.element == n && row.token == token
    && match p.KindOf(n)
       case MessageCatch(message, key) => row.message == message && Keyed(v, key, row.key)
       case MessageBoundary(message, key, _) => row.message == message && Keyed(v, key, row.key)
       case _ => false
  }

  /** `n` is armed among the rows minted since `s`, as its element says. */
  ghost predicate ArmedFor(p: Process, s: Instance, s': Instance, token: TokenId, n: NodeIx) {
    && (IsTimer(p, n) ==> exists k :: s.nextTimer <= k < s'.nextTimer && k in s'.timers && TimerFits(p, s.variables, token, n, s'.timers[k]))
    && (IsMessage(p, n) ==> exists k :: s.nextSub <= k < s'.nextSub && k in s'.subs && SubFits(p, s.variables, token, n, s'.subs[k]))
  }

  /** Why `n` cannot be armed, and what is said of it: no such time, no such key, or
      somebody waits for the message under that key already. */
  ghost predicate Hindered(p: Process, s: Instance, n: NodeIx, said: Event) {
    match p.KindOf(n)
    case TimerCatch(due) => said == TimerResolveFailed(n) && forall d :: !Due(p, due, s.variables, d)
    case TimerBoundary(due, _) => said == TimerResolveFailed(n) && forall d :: !Due(p, due, s.variables, d)
    case MessageCatch(message, key) => Unheard(s, n, message, key, said)
    case MessageBoundary(message, key, _) => Unheard(s, n, message, key, said)
    case _ => false
  }

  ghost predicate Unheard(s: Instance, n: NodeIx, message: string, key: seq<string>, said: Event) {
    match said
    case CorrelationFailed(element) => element == n && forall text :: !Keyed(s.variables, key, text)
    case DuplicateSubscription(element, about, text) =>
      && element == n && about == message && Keyed(s.variables, key, text)
      && exists id :: id in s.subs && s.subs[id].message == message && s.subs[id].key == text
    case _ => false
  }

  /** Rows minted since `s`, and nothing else changed. */
  ghost predicate OnlyMinted(s: Instance, s': Instance, minted: int) {
    && s' == s.(timers := s'.timers, subs := s'.subs, nextTimer := s'.nextTimer, nextSub := s'.nextSub)
    && s.nextTimer <= s'.nextTimer && s.nextSub <= s'.nextSub
    && (s'.nextTimer - s.nextTimer) + (s'.nextSub - s.nextSub) == minted
    && (forall k :: k in s.timers ==> k in s'.timers && s'.timers[k] == s.timers[k])
    && (forall k :: k in s.subs ==> k in s'.subs && s'.subs[k] == s.subs[k])
    && (forall k :: k in s'.timers && k !in s.timers ==> s.nextTimer <= k < s'.nextTimer)
    && (forall k :: k in s'.subs && k !in s.subs ==> s.nextSub <= k < s'.nextSub)
  }

  ghost predicate Numbered(s: Instance) {
    && (forall k :: k in s.timers ==> k < s.nextTimer)
    && (forall k :: k in s.subs ==> k < s.nextSub)
  }

  lemma DueIs(p: Process, source: TimerSource, v: Value, due: TimerDue)
    ensures Due(p, source, v, due) <==> p.Resolve(source, v) == Some(due)
  {
  }

  lemma KeyedIs(v: Value, path: seq<string>, text: string)
    ensures Keyed(v, path, text) <==> KeyText(Json.Resolve(v, path)) == Some(text)
  {
  }

  /** One arm is made exactly when nothing hinders it, and then as its element says;
      hindered, it freezes the instance there. */
  lemma ArmsOne(p: Process, m: Machine, token: TokenId, n: NodeIx)
    requires Numbered(m.s) && (IsTimer(p, n) || IsMessage(p, n))
    ensures var a := Arm(p, m, token, n);
            if a.ok
            then Armed(p, m, token, [n], a.m) && forall said :: !Hindered(p, m.s, n, said)
            else StopsOn(p, m, token, n, a.m)
  {
    hide Arm, Armed, Hindered, StopsOn;
    if IsTimer(p, n) {
      TimerArms(p, m, token, n);
    } else {
      MessageArms(p, m, token, n);
    }
  }

  ghost predicate StopsOn(p: Process, m: Machine, token: TokenId, n: NodeIx, m': Machine) {
    exists said :: Hindered(p, m.s, n, said) && m' == Freeze(m.(ev := m.ev + [said]), token, n, None, None)
  }

  lemma TimerArms(p: Process, m: Machine, token: TokenId, n: NodeIx)
    requires Numbered(m.s) && IsTimer(p, n)
    ensures var a := Arm(p, m, token, n);
            if a.ok
            then Armed(p, m, token, [n], a.m) && forall said :: !Hindered(p, m.s, n, said)
            else StopsOn(p, m, token, n, a.m)
  {
    hide Freeze, Due, Process.Resolve;
    var source := p.KindOf(n).due;
    forall due ensures Due(p, source, m.s.variables, due) <==> p.Resolve(source, m.s.variables) == Some(due) {
      DueIs(p, source, m.s.variables, due);
    }
    match p.Resolve(source, m.s.variables)
    case Some(due) =>
      assert Due(p, source, m.s.variables, due);
      var a := Arm(p, m, token, n);
      var k := m.s.nextTimer;
      assert TimerFits(p, m.s.variables, token, n, a.m.s.timers[k]);
    case None => assert Hindered(p, m.s, n, TimerResolveFailed(n));
  }

  lemma MessageArms(p: Process, m: Machine, token: TokenId, n: NodeIx)
    requires Numbered(m.s) && IsMessage(p, n)
    ensures var a := Arm(p, m, token, n);
            if a.ok
            then Armed(p, m, token, [n], a.m) && forall said :: !Hindered(p, m.s, n, said)
            else StopsOn(p, m, token, n, a.m)
  {
    hide Freeze, Keyed, KeyText, Json.Resolve, Armed, OpenSub, Numbered;
    var kind := p.KindOf(n);
    forall text ensures Keyed(m.s.variables, kind.key, text) <==> KeyText(Json.Resolve(m.s.variables, kind.key)) == Some(text) {
      KeyedIs(m.s.variables, kind.key, text);
    }
    match ArmKey(p, m.s, m.s.variables, n, None)
    case Key(message, key) =>
      assert Keyed(m.s.variables, kind.key, key);
      OpenedArms(p, m, token, n, message, key);
    case Unusable => assert Hindered(p, m.s, n, CorrelationFailed(n));
    case Duplicate(message, key) => assert Hindered(p, m.s, n, DuplicateSubscription(n, message, key));
  }

  lemma OpenedArms(p: Process, m: Machine, token: TokenId, n: NodeIx, message: string, key: string)
    requires Numbered(m.s) && IsMessage(p, n) && SubFits(p, m.s.variables, token, n, Sub(n, token, message, key))
    ensures Armed(p, m, token, [n], OpenSub(m, token, n, message, key))
  {
    hide SubFits;
    var k := m.s.nextSub;
    assert OpenSub(m, token, n, message, key).s.subs[k] == Sub(n, token, message, key);
  }

  // ---- in order

  predicate ArmSaid(p: Process, e: Event, token: TokenId, n: NodeIx) {
    match e
    case TimerArmed(_, element, _, for_, continues, _) => IsTimer(p, n) && element == n && for_ == token && continues.None?
    case MessageSubscribed(_, element, _, _, for_) => IsMessage(p, n) && element == n && for_ == token
    case _ => false
  }

  /** Each of the elements is armed, in order, and exactly as many rows are minted as
      there are elements; nothing else changes. */
  ghost predicate Armed(p: Process, m: Machine, token: TokenId, elements: seq<NodeIx>, m': Machine) {
    && OnlyMinted(m.s, m'.s, |elements|) && Numbered(m'.s) && m' == m.(s := m'.s, ev := m'.ev)
    && (forall n :: n in elements ==> ArmedFor(p, m.s, m'.s, token, n))
    && |m'.ev| == |m.ev| + |elements| && m.ev <= m'.ev
    && (forall i :: 0 <= i < |elements| ==> ArmSaid(p, m'.ev[|m.ev| + i], token, elements[i]))
  }

  /** Those before it are armed, and the `i`th freezes the instance. */
  ghost predicate StopsAt(p: Process, m: Machine, token: TokenId, elements: seq<NodeIx>, i: int, m': Machine) {
    0 <= i < |elements| && exists m1 :: Armed(p, m, token, elements[..i], m1) && StopsOn(p, m1, token, elements[i], m')
  }

  ghost predicate ArmsOrStops(p: Process, m: Machine, token: TokenId, elements: seq<NodeIx>, m': Machine) {
    Armed(p, m, token, elements, m') || exists i :: StopsAt(p, m, token, elements, i, m')
  }

  ghost predicate Armable(p: Process, elements: seq<NodeIx>) {
    forall n :: n in elements ==> IsTimer(p, n) || IsMessage(p, n)
  }

  lemma NothingArmed(p: Process, m: Machine, token: TokenId)
    requires Numbered(m.s)
    ensures Armed(p, m, token, [], m)
  {
  }

  lemma MintedBoth(s: Instance, s1: Instance, s2: Instance, i: nat, j: nat)
    requires OnlyMinted(s, s1, i) && OnlyMinted(s1, s2, j)
    ensures OnlyMinted(s, s2, i + j)
  {
  }

  lemma ArmedStill(p: Process, s: Instance, s1: Instance, s2: Instance, token: TokenId, n: NodeIx, i: nat, j: nat)
    requires OnlyMinted(s, s1, i) && OnlyMinted(s1, s2, j)
    ensures ArmedFor(p, s, s1, token, n) || ArmedFor(p, s1, s2, token, n) ==> ArmedFor(p, s, s2, token, n)
  {
    hide TimerFits, SubFits;
  }

  lemma ArmedThen(p: Process, m: Machine, m1: Machine, m2: Machine, token: TokenId, n: NodeIx, rest: seq<NodeIx>)
    requires Armed(p, m, token, [n], m1) && Armed(p, m1, token, rest, m2)
    ensures Armed(p, m, token, [n] + rest, m2)
  {
    hide ArmedFor, OnlyMinted, Numbered, ArmSaid;
    MintedBoth(m.s, m1.s, m2.s, 1, |rest|);
    assert n in [n];
    forall k | k in [n] + rest ensures ArmedFor(p, m.s, m2.s, token, k) {
      ArmedStill(p, m.s, m1.s, m2.s, token, k, 1, |rest|);
    }
    forall i | 0 <= i < |rest| + 1 ensures ArmSaid(p, m2.ev[|m.ev| + i], token, ([n] + rest)[i]) {
      if i == 0 {
        assert m2.ev[|m.ev|] == m1.ev[|m.ev|];
      }
    }
  }

  /** Boundaries and alternatives are armed one after the other, each as its element
      and the document say; the first that cannot be ends it with an incident. */
  lemma {:induction false} ArmsEach(p: Process, m: Machine, token: TokenId, elements: seq<NodeIx>)
    requires Numbered(m.s) && Armable(p, elements)
    ensures var a := ArmAll(p, m, token, elements);
            if a.ok then Armed(p, m, token, elements, a.m) else exists i :: StopsAt(p, m, token, elements, i, a.m)
    decreases |elements|
  {
    hide Arm, Armed, StopsOn, Numbered, Hindered, IsTimer, IsMessage;
    if elements == [] {
      NothingArmed(p, m, token);
    } else {
      var n, rest := elements[0], elements[1..];
      assert n in elements && forall k :: k in rest ==> k in elements;
      ArmsOne(p, m, token, n);
      var first := Arm(p, m, token, n);
      if first.ok {
        StillNumbered(p, m, token, n, first.m);
        ArmsEach(p, first.m, token, rest);
        var last := ArmAll(p, first.m, token, rest);
        if last.ok {
          ArmedThen(p, m, first.m, last.m, token, n, rest);
          assert [n] + rest == elements;
        } else {
          var i :| StopsAt(p, first.m, token, rest, i, last.m);
          var m1 :| Armed(p, first.m, token, rest[..i], m1) && StopsOn(p, m1, token, rest[i], last.m);
          ArmedThen(p, m, first.m, m1, token, n, rest[..i]);
          assert [n] + rest[..i] == elements[..i + 1];
          assert StopsAt(p, m, token, elements, i + 1, last.m);
        }
      } else {
        NothingArmed(p, m, token);
        assert elements[..0] == [];
        assert StopsAt(p, m, token, elements, 0, first.m);
      }
    }
  }

  lemma StillNumbered(p: Process, m: Machine, token: TokenId, n: NodeIx, m': Machine)
    requires Armed(p, m, token, [n], m')
    ensures Numbered(m'.s)
  {
  }

  /** The arms of a race are the gateway's alternatives, as a host's are its
      boundaries. */
  lemma {:induction false} AlternativesArm(p: Process, m: Machine, token: TokenId, elements: seq<NodeIx>)
    requires forall n :: n in elements ==> p.IsCatch(n)
    ensures ArmAlternatives(p, m, token, elements) == Ok(ArmAll(p, m, token, elements).m)
    decreases |elements|
  {
    hide Arm;
    if elements == [] {
    } else {
      assert elements[0] in elements && forall n :: n in elements[1..] ==> n in elements;
      AlternativesArm(p, Arm(p, m, token, elements[0]).m, token, elements[1..]);
    }
  }

  // ---- hosts

  /** The token parked at `n`, and what is said of it. */
  function ParkedAt(m: Machine, token: TokenId, n: NodeIx, wait: Wait, said: seq<Event>): Machine {
    m.(s := m.s.(tokens := m.s.tokens[token := Token(n, m.scope, wait)]), ev := m.ev + said)
  }

  /** A task entered: its item open under the next number, its token waiting on it,
      and every boundary armed on that token. */
  lemma TaskSetUp(p: Process, m: Machine, token: TokenId, n: NodeIx, via: Option<FlowIx>, work: WorkKind, topic: string)
    requires Numbered(m.s) && Armable(p, p.Boundaries(n)) && p.KindOf(n) == Task(work, topic)
    ensures var o := Enter(p, m, token, n, via);
            var i := m.s.nextItem;
            var minted := m.(s := m.s.AddItem(Item(n, token, work, topic, true)));
            o.Ok? && ArmsOrStops(p, ParkedAt(minted, token, n, OnItem(i), [ElementStarted(n), WorkItemCreated(i, n, work, topic)]), token, p.Boundaries(n), o.m)
  {
    hide ArmAll, Armed, StopsAt;
    var m1 := OpenItem(Started(m, n), token, n, work, topic);
    assert m1.ev == m.ev + [ElementStarted(n), WorkItemCreated(m.s.nextItem, n, work, topic)];
    ArmsEach(p, m1, token, p.Boundaries(n));
  }

  /** A decision entered: it is asked, and the token waits for the answer. */
  lemma DecisionSetUp(p: Process, m: Machine, token: TokenId, n: NodeIx, via: Option<FlowIx>, decision: string, result: seq<string>)
    requires p.KindOf(n) == BusinessRule(decision, result)
    ensures Enter(p, m, token, n, via) == Ok(ParkedAt(m, token, n, OnDecision, [ElementStarted(n), DecisionRequested(n, decision)]))
  {
    assert m.ev + [ElementStarted(n)] + [DecisionRequested(n, decision)] == m.ev + [ElementStarted(n), DecisionRequested(n, decision)];
  }

  /** A timer catch entered: its timer armed under the next number, and the token
      waiting on it; or, hindered, an incident there. */
  lemma TimerCatchSetUp(p: Process, m: Machine, token: TokenId, n: NodeIx, via: Option<FlowIx>)
    requires Numbered(m.s) && p.KindOf(n).TimerCatch?
    ensures var o := Enter(p, m, token, n, via);
            var started := m.(ev := m.ev + [ElementStarted(n)]);
            && o.Ok?
            && (|| StopsOn(p, started, token, n, o.m)
                || exists armed :: Armed(p, started, token, [n], armed) && o.m == ParkedAt(armed, token, n, OnTimer(m.s.nextTimer), []))
  {
    hide Armed, StopsOn, ArmTimer;
    var started := Started(m, n);
    ArmsOne(p, started, token, n);
    ArmedScope(p, started, token, n, Arm(p, started, token, n).m);
  }

  lemma ArmedScope(p: Process, m: Machine, token: TokenId, n: NodeIx, m': Machine)
    ensures Armed(p, m, token, [n], m') ==> m'.scope == m.scope && Numbered(m'.s) && m'.ev + [] == m'.ev
  {
  }

  /** A message catch entered: its subscription open under the next number, the token
      waiting on it, and every boundary armed on that token. */
  lemma MessageCatchSetUp(p: Process, m: Machine, token: TokenId, n: NodeIx, via: Option<FlowIx>)
    requires Numbered(m.s) && p.KindOf(n).MessageCatch? && Armable(p, p.Boundaries(n))
    ensures var o := Enter(p, m, token, n, via);
            var started := m.(ev := m.ev + [ElementStarted(n)]);
            && o.Ok?
            && (|| StopsOn(p, started, token, n, o.m)
                || (exists armed :: Armed(p, started, token, [n], armed)
                      && ArmsOrStops(p, ParkedAt(armed, token, n, OnMessage(m.s.nextSub), []), token, p.Boundaries(n), o.m)))
  {
    hide Armed, StopsOn, StopsAt, Subscribe, ArmAll;
    var started := Started(m, n);
    ArmsOne(p, started, token, n);
    var armed := Subscribe(p, started, token, n);
    ArmedScope(p, started, token, n, armed.m);
    if armed.ok {
      ArmsEach(p, ParkedAt(armed.m, token, n, OnMessage(m.s.nextSub), []), token, p.Boundaries(n));
    }
  }

  /** A subprocess entered: its scope open, every boundary armed before the body
      starts, and one fresh token on its way into the body. */
  lemma SubProcessSetUp(p: Process, m: Machine, token: TokenId, n: NodeIx, via: Option<FlowIx>, body: ScopeIx)
    requires Numbered(m.s) && Armable(p, p.Boundaries(n)) && p.KindOf(n) == SubProcess(body)
    ensures var o := Enter(p, m, token, n, via);
            var c := m.s.nextScope;
            var host := ParkedAt(m.(s := m.s.AddScope(Scope(n, m.scope, token))), token, n, OnScope(c), [ElementStarted(n)]);
            && o.Ok?
            && (|| (exists i :: StopsAt(p, host, token, p.Boundaries(n), i, o.m))
                || (exists armed :: Armed(p, host, token, p.Boundaries(n), armed)
                      && o.m == armed.(s := armed.s.(nextToken := m.s.nextToken + 1),
                                       q := m.q + [Move(m.s.nextToken, p.ScopeStart(body), None, c)])))
  {
    hide ArmAll, StopsAt, OnlyMinted, ArmedFor, ArmSaid;
    var host := OpenScope(Started(m, n), token, n);
    ArmsEach(p, host, token, p.Boundaries(n));
    var armed := ArmAll(p, host, token, p.Boundaries(n));
    if armed.ok {
      MintsNoToken(host.s, armed.m.s, |p.Boundaries(n)|);
    }
  }

  lemma MintsNoToken(s: Instance, s': Instance, minted: nat)
    requires OnlyMinted(s, s', minted)
    ensures s'.nextToken == s.nextToken
  {
  }

  /** A race entered: every alternative armed once on the gateway's token, in the
      order of its flows, and none of them entered. */
  lemma RaceSetUp(p: Process, m: Machine, token: TokenId, n: NodeIx, via: Option<FlowIx>, alternatives: seq<NodeIx>)
    requires WellFormed(p) && n < |p.nodes| && p.KindOf(n).EventBasedGateway? && Numbered(m.s)
    requires |alternatives| == |p.Outgoing(n)| && forall i :: 0 <= i < |alternatives| ==> alternatives[i] == p.Target(p.Branch(n, i))
    ensures var o := Enter(p, m, token, n, via);
            o.Ok? && ArmsOrStops(p, ParkedAt(m, token, n, AtEventGateway, [ElementStarted(n)]), token, alternatives, o.m)
  {
    hide ArmAll, Armed, StopsAt, Arm;
    assert Targets(p, p.Outgoing(n)) == alternatives;
    AlternativesAreCatches(p, n);
    var m1 := Park(Started(m, n), token, n, AtEventGateway);
    AlternativesArm(p, m1, token, alternatives);
    ArmsEach(p, m1, token, alternatives);
  }

  lemma AlternativesAreCatches(p: Process, n: NodeIx)
    requires WellFormed(p) && n < |p.nodes| && p.KindOf(n).EventBasedGateway?
    ensures forall e :: e in Targets(p, p.Outgoing(n)) ==> p.IsCatch(e)
    ensures Armable(p, Targets(p, p.Outgoing(n)))
  {
    assert ShapeOk(p, n);
    var elements := Targets(p, p.Outgoing(n));
    forall e | e in elements ensures p.IsCatch(e) {
      var i :| 0 <= i < |elements| && elements[i] == e;
      assert p.Outgoing(n)[i] in p.Outgoing(n);
    }
  }

  lemma FreezeFails(m: Machine, token: TokenId, n: NodeIx)
    ensures forall m1: Machine, code: Option<string>, detail: Option<string> :: Freeze(m1, token, n, code, detail).s.status.Failed?
  {
  }

  // ---- passing on

  /** A start is passed by its one flow. */
  lemma StartPasses(p: Process, m: Machine, token: TokenId, n: NodeIx, via: Option<FlowIx>)
    requires p.KindOf(n).Start? && |p.Outgoing(n)| == 1
    ensures var f := p.OnlyFlow(n);
            Enter(p, m, token, n, via)
            == Ok(m.(q := m.q + [Move(token, p.Target(f), Some(f), m.scope)], ev := m.ev + [ElementStarted(n), ElementCompleted(n), FlowTaken(f)]))
  {
    var f := p.OnlyFlow(n);
    assert m.ev + [ElementStarted(n)] + [ElementCompleted(n)] + [FlowTaken(f)] == m.ev + [ElementStarted(n), ElementCompleted(n), FlowTaken(f)];
  }

  /** The condition on the flow is true of the document; a flow without one is not. */
  predicate IsTrue(p: Process, f: FlowIx, v: Value) {
    match p.FlowAt(f).condition
    case Some(condition) => condition(v)
    case None => false
  }

  /** The only flow; or the first, in order, whose condition is true and that is not
      the default; or the default when there is none. */
  ghost predicate Takes(p: Process, n: NodeIx, defaultFlow: Option<FlowIx>, v: Value, f: FlowIx) {
    var out := p.Outgoing(n);
    if |out| == 1 then f == out[0]
    else
      || (Some(f) == defaultFlow && forall g :: g in out ==> Some(g) == defaultFlow || !IsTrue(p, g, v))
      || (Some(f) != defaultFlow && exists i :: FirstTrue(p, out, defaultFlow, v, i) && out[i] == f)
  }

  predicate FirstTrue(p: Process, out: seq<FlowIx>, defaultFlow: Option<FlowIx>, v: Value, i: int) {
    && 0 <= i < |out| && Some(out[i]) != defaultFlow && IsTrue(p, out[i], v)
    && forall j :: 0 <= j < i ==> Some(out[j]) == defaultFlow || !IsTrue(p, out[j], v)
  }

  lemma {:induction false} FirstHoldingIs(p: Process, flows: seq<FlowIx>, defaultFlow: Option<FlowIx>, v: Value)
    ensures match FirstHolding(p, flows, defaultFlow, v)
            case Some(f) =>
              || (exists i :: FirstTrue(p, flows, defaultFlow, v, i) && flows[i] == f)
              || (Some(f) == defaultFlow && forall g :: g in flows ==> Some(g) == defaultFlow || !IsTrue(p, g, v))
            case None => defaultFlow.None?
    decreases |flows|
  {
    if flows != [] && (Some(flows[0]) == defaultFlow || !Holds(p, flows[0], v)) {
      FirstHoldingIs(p, flows[1..], defaultFlow, v);
      assert forall g :: g in flows ==> g == flows[0] || g in flows[1..];
      forall i | FirstTrue(p, flows[1..], defaultFlow, v, i) ensures FirstTrue(p, flows, defaultFlow, v, i + 1) {
        assert forall j :: 0 < j <= i ==> flows[j] == flows[1..][j - 1];
      }
    } else if flows != [] {
      assert FirstTrue(p, flows, defaultFlow, v, 0);
    }
  }

  /** An exclusive gateway lets the token out by one flow: the only one, the first
      that is true, or the default. */
  lemma ExclusiveTakesFirst(p: Process, m: Machine, token: TokenId, n: NodeIx, via: Option<FlowIx>, defaultFlow: Option<FlowIx>)
    requires p.KindOf(n) == ExclusiveGateway(defaultFlow) && (|p.Outgoing(n)| == 1 || defaultFlow.Some?)
    ensures var o := Enter(p, m, token, n, via);
            exists f :: Takes(p, n, defaultFlow, m.s.variables, f)
              && o == Ok(m.(q := m.q + [Move(token, p.Target(f), Some(f), m.scope)],
                            ev := m.ev + [ElementStarted(n), ElementCompleted(n), FlowTaken(f)]))
  {
    hide FirstHolding, FirstTrue, IsTrue;
    var out := p.Outgoing(n);
    FirstHoldingIs(p, out, defaultFlow, m.s.variables);
    var f := Chosen(p, n, defaultFlow, m.s.variables).value;
    assert forall i :: FirstTrue(p, out, defaultFlow, m.s.variables, i) ==> Some(out[i]) != defaultFlow by { TrueIsNoDefault(p, out, defaultFlow, m.s.variables); }
    assert Takes(p, n, defaultFlow, m.s.variables, f);
    assert m.ev + [ElementStarted(n)] + [ElementCompleted(n)] + [FlowTaken(f)] == m.ev + [ElementStarted(n), ElementCompleted(n), FlowTaken(f)];
  }

  lemma TrueIsNoDefault(p: Process, out: seq<FlowIx>, defaultFlow: Option<FlowIx>, v: Value)
    ensures forall i :: FirstTrue(p, out, defaultFlow, v, i) ==> 0 <= i < |out| && Some(out[i]) != defaultFlow
  {
  }

  /** A fork sends one new token down each outgoing flow, in order. */
  lemma ForkSpreads(p: Process, m: Machine, token: TokenId, n: NodeIx, via: Option<FlowIx>)
    requires p.IsFork(n)
    ensures var o := Enter(p, m, token, n, via);
            var out := p.Outgoing(n);
            && o.Ok? && o.m.s == m.s.Minted(|out|)
            && |o.m.q| == |m.q| + |out| && m.q <= o.m.q
            && (forall i :: 0 <= i < |out| ==> o.m.q[|m.q| + i] == Move(m.s.nextToken + i, p.Target(out[i]), Some(out[i]), m.scope))
            && |o.m.ev| == |m.ev| + 2 + |out| && m.ev + [ElementStarted(n), ElementCompleted(n)] <= o.m.ev
            && (forall i :: 0 <= i < |out| ==> o.m.ev[|m.ev| + 2 + i] == FlowTaken(out[i]))
  {
    hide ForkOn;
    var m1 := Finished(Started(m, n), n);
    ForkQueues(p, m1, p.Outgoing(n));
    ForkSays(p, m1, p.Outgoing(n));
    assert m1.ev == m.ev + [ElementStarted(n), ElementCompleted(n)];
  }

  lemma ForkQueues(p: Process, m: Machine, flows: seq<FlowIx>)
    ensures var m' := ForkOn(p, m, flows);
            && m'.s == m.s.Minted(|flows|) && |m'.q| == |m.q| + |flows| && m.q <= m'.q
            && forall i :: 0 <= i < |flows| ==> m'.q[|m.q| + i] == Move(m.s.nextToken + i, p.Target(flows[i]), Some(flows[i]), m.scope)
  {
    hide ForkOn, ForkMoves;
    ForkIs(p, m, flows);
    ForkMovesAt(p, m.s.nextToken, flows, m.scope);
  }

  lemma {:induction false} ForkSays(p: Process, m: Machine, flows: seq<FlowIx>)
    ensures var m' := ForkOn(p, m, flows);
            && |m'.ev| == |m.ev| + |flows| && m.ev <= m'.ev
            && forall i :: 0 <= i < |flows| ==> m'.ev[|m.ev| + i] == FlowTaken(flows[i])
    decreases |flows|
  {
    if flows == [] {
    } else {
      var m1 := Leave(p, FreshToken(m), m.s.nextToken, flows[0]);
      ForkSays(p, m1, flows[1..]);
      assert ForkOn(p, m, flows) == ForkOn(p, m1, flows[1..]);
      hide ForkOn;
      forall i | 0 <= i < |flows| ensures ForkOn(p, m1, flows[1..]).ev[|m.ev| + i] == FlowTaken(flows[i]) {
        if i == 0 {
          assert ForkOn(p, m1, flows[1..]).ev[|m.ev|] == m1.ev[|m.ev|];
        }
      }
    }
  }
}
