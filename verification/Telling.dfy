/** The events tell everything: reading what a machine has said takes the book
    of the instance before to the book of the instance after. */
module Telling {
  import opened Basics
  import opened Json
  import opened Compiled
  import opened State
  import opened Advance
  import opened Leaving
  import opened Replay

  function OpenWork(items: map<ItemId, Item>): map<ItemId, Work> {
    map i | i in items && items[i].open :: Work(items[i].element, items[i].work, items[i].topic)
  }

  /** What the history of an instance must say of it. */
  function BookOf(s: Instance): Book {
    Book(s.status, s.variables, OpenWork(s.items), s.timers, s.subs, s.nextItem, s.nextTimer, s.nextSub, s.nextIncident, None)
  }

  /** The next occurrence of a cycle. */
  predicate Continues(e: Event) { e.TimerArmed? && e.continues.Some? }

  predicate NoneContinues(ev: seq<Event>) {
    forall e :: e in ev ==> !Continues(e)
  }

  /** What was said between two machines reads as what changed between them. */
  ghost predicate Told(p: Process, a: Machine, b: Machine) {
    && a.ev <= b.ev && NoneContinues(b.ev[|a.ev|..])
    && ReadAll(p, BookOf(a.s), b.ev[|a.ev|..]) == Some(BookOf(b.s))
  }

  lemma ThenTold(p: Process, a: Machine, b: Machine, c: Machine)
    requires Told(p, a, b) && Told(p, b, c)
    ensures Told(p, a, c)
  {
    var x, y := b.ev[|a.ev|..], c.ev[|b.ev|..];
    assert c.ev[|a.ev|..] == x + y;
    ReadOn(p, BookOf(a.s), x, y);
  }

  lemma Quiet(p: Process, a: Machine, b: Machine)
    requires b.ev == a.ev && BookOf(b.s) == BookOf(a.s)
    ensures Told(p, a, b)
  {
    assert b.ev[|a.ev|..] == [];
  }

  lemma Says(p: Process, a: Machine, b: Machine, e: Event)
    requires b.ev == a.ev + [e] && !Continues(e) && Read(p, BookOf(a.s), e) == Some(BookOf(b.s))
    ensures Told(p, a, b)
  {
    assert b.ev[|a.ev|..] == [e];
    ReadOne(p, BookOf(a.s), e);
  }

  lemma SaysAll(p: Process, a: Machine, b: Machine, ev: seq<Event>)
    requires b.ev == a.ev + ev && NoneContinues(ev) && ReadAll(p, BookOf(a.s), ev) == Some(BookOf(b.s))
    ensures Told(p, a, b)
  {
    assert b.ev[|a.ev|..] == ev;
  }

  // ---- cancelling in bulk

  lemma ReadPush(p: Process, b: Book, ev: seq<Event>, b1: Book, e: Event)
    requires ReadAll(p, b, ev) == Some(b1)
    ensures ReadAll(p, b, ev + [e]) == Read(p, b1, e)
  {
    assert (ev + [e])[..|ev|] == ev;
  }

  lemma ReadNothing(p: Process, b: Book)
    ensures ReadAll(p, b, []) == Some(b)
  {
  }

  /** `ids` lists the members of `S`, each once. */
  ghost predicate Lists(ids: seq<nat>, S: set<nat>) {
    NoRepeats(ids) && forall k :: k in ids <==> k in S
  }

  lemma SortedLists(S: set<nat>)
    ensures Lists(Sorted(S), S)
  {
  }

  lemma LastOf(ids: seq<nat>, S: set<nat>)
    requires ids != [] && Lists(ids, S)
    ensures var front, last := ids[..|ids| - 1], ids[|ids| - 1];
            ids == front + [last] && last in S && Lists(front, S - {last})
  {
    var front, last := ids[..|ids| - 1], ids[|ids| - 1];
    assert ids == front + [last];
  }

  /** The book has these rows of the instance. */
  predicate Keeps(b: Book, s: Instance, items: set<ItemId>, ts: set<TimerId>, us: set<SubId>) {
    && (forall i :: i in items ==> i in s.items && i in b.items && b.items[i].element == s.items[i].element)
    && (forall k :: k in ts ==> k in s.timers && k in b.timers && b.timers[k] == s.timers[k])
    && (forall k :: k in us ==> k in s.subs && k in b.subs && b.subs[k] == s.subs[k])
  }

  lemma {:induction false} TimersRead(p: Process, b: Book, s: Instance, ids: seq<TimerId>, S: set<TimerId>)
    requires b.fired.None? && Lists(ids, S)
    requires Keeps(b, s, {}, S, {})
    ensures ReadAll(p, b, TimerCancels(s.timers, ids)) == Some(b.(timers := b.timers - S))
    decreases |ids|
  {
    hide ReadAll, Read;
    if ids == [] {
      ReadNothing(p, b);
      assert TimerCancels(s.timers, ids) == [];
      assert b.timers - S == b.timers;
    } else {
      LastOf(ids, S);
      var front, last := ids[..|ids| - 1], ids[|ids| - 1];
      var e := TimerCancelled(last, s.timers[last].element);
      TimersRead(p, b, s, front, S - {last});
      assert TimerCancels(s.timers, ids) == TimerCancels(s.timers, front) + [e];
      hide TimerCancels, Lists;
      var b1 := b.(timers := b.timers - (S - {last}));
      ReadPush(p, b, TimerCancels(s.timers, front), b1, e);
      TimerStruck(p, b1, s, last);
      assert b1.timers - {last} == b.timers - S;
    }
  }

  lemma TimerStruck(p: Process, b: Book, s: Instance, k: TimerId)
    requires b.fired.None? && Keeps(b, s, {}, {k}, {})
    ensures Read(p, b, TimerCancelled(k, s.TimerAt(k).element)) == Some(b.(timers := b.timers - {k}))
  {
  }

  lemma {:induction false} SubsRead(p: Process, b: Book, s: Instance, ids: seq<SubId>, S: set<SubId>)
    requires b.fired.None? && Lists(ids, S)
    requires Keeps(b, s, {}, {}, S)
    ensures ReadAll(p, b, SubCancels(s.subs, ids)) == Some(b.(subs := b.subs - S))
    decreases |ids|
  {
    hide ReadAll, Read;
    if ids == [] {
      ReadNothing(p, b);
      assert SubCancels(s.subs, ids) == [];
      assert b.subs - S == b.subs;
    } else {
      LastOf(ids, S);
      var front, last := ids[..|ids| - 1], ids[|ids| - 1];
      var e := SubscriptionCancelled(last, s.subs[last].element, s.subs[last].message);
      SubsRead(p, b, s, front, S - {last});
      assert SubCancels(s.subs, ids) == SubCancels(s.subs, front) + [e];
      hide SubCancels, Lists;
      var b1 := b.(subs := b.subs - (S - {last}));
      ReadPush(p, b, SubCancels(s.subs, front), b1, e);
      SubStruck(p, b1, s, last);
      assert b1.subs - {last} == b.subs - S;
    }
  }

  lemma SubStruck(p: Process, b: Book, s: Instance, k: SubId)
    requires b.fired.None? && Keeps(b, s, {}, {}, {k})
    ensures Read(p, b, SubscriptionCancelled(k, s.SubAt(k).element, s.SubAt(k).message)) == Some(b.(subs := b.subs - {k}))
  {
  }

  lemma {:induction false} ItemsRead(p: Process, b: Book, s: Instance, ids: seq<ItemId>, S: set<ItemId>)
    requires b.fired.None? && Lists(ids, S)
    requires Keeps(b, s, S, {}, {})
    ensures ReadAll(p, b, ItemCancels(s.items, ids)) == Some(b.(items := b.items - S))
    decreases |ids|
  {
    hide ReadAll, Read;
    if ids == [] {
      ReadNothing(p, b);
      assert ItemCancels(s.items, ids) == [];
      assert b.items - S == b.items;
    } else {
      LastOf(ids, S);
      var front, last := ids[..|ids| - 1], ids[|ids| - 1];
      var e := WorkItemCancelled(last, s.items[last].element);
      ItemsRead(p, b, s, front, S - {last});
      assert ItemCancels(s.items, ids) == ItemCancels(s.items, front) + [e];
      hide ItemCancels, Lists;
      var b1 := b.(items := b.items - (S - {last}));
      ReadPush(p, b, ItemCancels(s.items, front), b1, e);
      ItemStruck(p, b1, s, last);
      assert b1.items - {last} == b.items - S;
    }
  }

  lemma ItemStruck(p: Process, b: Book, s: Instance, k: ItemId)
    requires b.fired.None? && Keeps(b, s, {k}, {}, {})
    ensures Read(p, b, WorkItemCancelled(k, s.ItemAt(k).element)) == Some(b.(items := b.items - {k}))
  {
  }

  lemma WithdrawReads(p: Process, b: Book, s: Instance, ts: set<TimerId>, us: set<SubId>)
    requires b.fired.None?
    requires Keeps(b, s, {}, ts, us)
    ensures ReadAll(p, b, TimerCancels(s.timers, Sorted(ts)) + SubCancels(s.subs, Sorted(us)))
         == Some(b.(timers := b.timers - ts, subs := b.subs - us))
  {
    hide ReadAll, Read, TimerCancels, SubCancels, Lists, Sorted;
    SortedLists(ts);
    SortedLists(us);
    TimersRead(p, b, s, Sorted(ts), ts);
    SubsRead(p, b.(timers := b.timers - ts), s, Sorted(us), us);
    ReadOn(p, b, TimerCancels(s.timers, Sorted(ts)), SubCancels(s.subs, Sorted(us)));
  }

  lemma CancelsContinueNothing(s: Instance, items: seq<ItemId>, ts: seq<TimerId>, us: seq<SubId>)
    ensures NoneContinues(ItemCancels(s.items, items))
    ensures NoneContinues(TimerCancels(s.timers, ts) + SubCancels(s.subs, us))
  {
  }

  lemma WithdrawTold(p: Process, m: Machine, ts: set<TimerId>, us: set<SubId>)
    requires ts <= m.s.timers.Keys && us <= m.s.subs.Keys
    ensures Told(p, m, Withdraw(m, ts, us))
  {
    hide ReadAll, Read, TimerCancels, SubCancels, Sorted;
    WithdrawReads(p, BookOf(m.s), m.s, ts, us);
    CancelsContinueNothing(m.s, [], Sorted(ts), Sorted(us));
    var ev := TimerCancels(m.s.timers, Sorted(ts)) + SubCancels(m.s.subs, Sorted(us));
    assert Withdraw(m, ts, us).ev == m.ev + ev;
    SaysAll(p, m, Withdraw(m, ts, us), ev);
  }

  lemma ClosedWork(items: map<ItemId, Item>, ids: set<ItemId>)
    ensures OpenWork(Closed(items, ids)) == OpenWork(items) - ids
  {
  }

  lemma CancelItemsTold(p: Process, m: Machine, ids: set<ItemId>)
    requires ids <= m.s.items.Keys && forall i :: i in ids ==> m.s.ItemAt(i).open
    ensures Told(p, m, CancelItems(m, ids))
  {
    hide ReadAll, Read, ItemCancels, Sorted, Lists;
    SortedLists(ids);
    ItemsRead(p, BookOf(m.s), m.s, Sorted(ids), ids);
    ClosedWork(m.s.items, ids);
    CancelsContinueNothing(m.s, Sorted(ids), [], []);
    SaysAll(p, m, CancelItems(m, ids), ItemCancels(m.s.items, Sorted(ids)));
  }

  // ---- tearing down

  /** `b` with the belongings of `ids` struck out. */
  function Struck(b: Book, s: Instance, ids: set<TokenId>): Book {
    b.(items := b.items - s.OpenItemsOf(ids), timers := b.timers - s.TimersOf(ids), subs := b.subs - s.SubsOf(ids))
  }

  lemma ReapOneReads(p: Process, b: Book, s: Instance, token: TokenId)
    requires b.fired.None?
    requires Keeps(b, s, s.OpenItemsOf({token}), s.TimersOf({token}), s.SubsOf({token}))
    ensures ReadAll(p, b, ReapOneEvents(s, token)) == Some(Struck(b, s, {token}))
  {
    hide ReadAll, Read, TimerCancels, SubCancels, ItemCancels, Sorted, Lists;
    var items, ts, us := s.OpenItemsOf({token}), s.TimersOf({token}), s.SubsOf({token});
    SortedLists(items);
    ItemsRead(p, b, s, Sorted(items), items);
    var b1 := b.(items := b.items - items);
    WithdrawReads(p, b1, s, ts, us);
    var x, y, z := ItemCancels(s.items, Sorted(items)), TimerCancels(s.timers, Sorted(ts)), SubCancels(s.subs, Sorted(us));
    assert x + y + z == x + (y + z);
    ReadOn(p, b, x, y + z);
  }

  lemma StruckTwice(s: Instance, a: set<TokenId>, token: TokenId)
    requires token !in a
    ensures Struck(Struck(BookOf(s), s, a), s, {token}) == Struck(BookOf(s), s, a + {token})
    ensures var b := Struck(BookOf(s), s, a);
            b.fired.None? && Keeps(b, s, s.OpenItemsOf({token}), s.TimersOf({token}), s.SubsOf({token}))
  {
    assert s.OpenItemsOf(a + {token}) == s.OpenItemsOf(a) + s.OpenItemsOf({token});
    assert s.TimersOf(a + {token}) == s.TimersOf(a) + s.TimersOf({token});
    assert s.SubsOf(a + {token}) == s.SubsOf(a) + s.SubsOf({token});
  }

  lemma NothingStruck(s: Instance, ids: set<TokenId>)
    requires ids == {}
    ensures Struck(BookOf(s), s, ids) == BookOf(s)
  {
    assert s.OpenItemsOf(ids) == {} && s.TimersOf(ids) == {} && s.SubsOf(ids) == {};
    assert OpenWork(s.items) - {} == OpenWork(s.items) && s.timers - {} == s.timers && s.subs - {} == s.subs;
  }

  lemma {:induction false} ReapReads(p: Process, s: Instance, tokens: seq<TokenId>, ids: set<TokenId>)
    requires Lists(tokens, ids)
    ensures ReadAll(p, BookOf(s), ReapEvents(s, tokens)) == Some(Struck(BookOf(s), s, ids))
    decreases |tokens|
  {
    hide ReadAll, Read, Struck, BookOf, ReapOneEvents;
    if tokens == [] {
      assert ids == {};
      ReadNothing(p, BookOf(s));
      NothingStruck(s, ids);
    } else {
      LastOf(tokens, ids);
      hide ReapEvents, Lists;
      var front, last := tokens[..|tokens| - 1], tokens[|tokens| - 1];
      var a := ids - {last};
      assert a + {last} == ids;
      ReapReads(p, s, front, a);
      StruckTwice(s, a, last);
      ReapOneReads(p, Struck(BookOf(s), s, a), s, last);
      ReapEventsPush(s, front, last);
      ReadOn(p, BookOf(s), ReapEvents(s, front), ReapOneEvents(s, last));
    }
  }

  lemma {:induction false} ReapContinuesNothing(s: Instance, tokens: seq<TokenId>)
    ensures NoneContinues(ReapEvents(s, tokens))
  {
    if tokens == [] {
    } else {
      var last := tokens[|tokens| - 1];
      ReapContinuesNothing(s, tokens[..|tokens| - 1]);
      CancelsContinueNothing(s, Sorted(s.OpenItemsOf({last})), Sorted(s.TimersOf({last})), Sorted(s.SubsOf({last})));
      hide ItemCancels, TimerCancels, SubCancels, Sorted;
    }
  }

  lemma TearDownTold(p: Process, m: Machine, scope: ScopeId)
    ensures Told(p, m, TearDown(m, scope))
  {
    hide ReadAll, Read, ReapEvents, Sorted, Lists;
    var gone := m.s.TokensWithin(Subtree(m.s.scopes, scope));
    SortedLists(gone);
    ReapReads(p, m.s, Sorted(gone), gone);
    ClosedWork(m.s.items, m.s.OpenItemsOf(gone));
    ReapContinuesNothing(m.s, Sorted(gone));
    SaysAll(p, m, TearDown(m, scope), ReapEvents(m.s, Sorted(gone)));
  }

  // ---- the advancer

  /** Events that leave nothing to do. */
  predicate Neutral(e: Event) {
    || e.ElementStarted? || e.ElementCompleted? || e.FlowTaken? || e.DecisionRequested?
    || e.CorrelationFailed? || e.TimerResolveFailed? || e.DuplicateSubscription?
  }

  lemma Notes(p: Process, a: Machine, b: Machine, e: Event)
    requires Neutral(e) && b.ev == a.ev + [e] && BookOf(b.s) == BookOf(a.s)
    ensures Told(p, a, b)
  {
    Says(p, a, b, e);
  }

  /** Nothing a book holds changed, and nothing was said. */
  lemma StillTold(p: Process, a: Machine, b: Machine, c: Machine)
    requires Told(p, a, b) && c.ev == b.ev && BookOf(c.s) == BookOf(b.s)
    ensures Told(p, a, c)
  {
    hide ReadAll;
  }

  lemma LeaveTold(p: Process, m: Machine, token: TokenId, f: FlowIx)
    ensures Told(p, m, Leave(p, m, token, f))
  {
    hide ReadAll, Told;
    Notes(p, m, Leave(p, m, token, f), FlowTaken(f));
  }

  /** Started and finished within one step. */
  lemma PassTold(p: Process, m: Machine, n: NodeIx)
    ensures Told(p, m, Finished(Started(m, n), n)) && Told(p, m, Started(m, n)) && Told(p, m, Finished(m, n))
  {
    hide ReadAll, Told;
    Notes(p, m, Started(m, n), ElementStarted(n));
    Notes(p, m, Finished(m, n), ElementCompleted(n));
    Notes(p, Started(m, n), Finished(Started(m, n), n), ElementCompleted(n));
    ThenTold(p, m, Started(m, n), Finished(Started(m, n), n));
  }

  /** What leaves by one flow was told, if what came before it was. */
  lemma LeavesTold(p: Process, a: Machine, m: Machine, token: TokenId, n: NodeIx)
    requires Told(p, a, m)
    ensures var o := LeaveSingle(p, m, token, n); o.Ok? ==> Told(p, a, o.m) && |a.ev| < |o.m.ev|
  {
    assert |a.ev| <= |m.ev|;
    hide ReadAll, Told;
    if |p.Outgoing(n)| == 1 {
      LeaveTold(p, m, token, p.Outgoing(n)[0]);
      ThenTold(p, a, m, Leave(p, m, token, p.Outgoing(n)[0]));
    }
  }

  lemma WithdrawArmsTold(p: Process, m: Machine, token: TokenId)
    ensures Told(p, m, WithdrawArms(m, token))
  {
    hide Told, Withdraw;
    WithdrawTold(p, m, m.s.TimersOf({token}), m.s.SubsOf({token}));
  }

  lemma DropChildTold(p: Process, m: Machine, token: TokenId)
    ensures Told(p, m, DropChildScope(m, token))
  {
    hide ReadAll, Told, TearDown;
    Quiet(p, m, m);
    if token in m.s.tokens && m.s.tokens[token].wait.OnScope? {
      var child := m.s.tokens[token].wait.child;
      TearDownTold(p, m, child);
      StillTold(p, m, TearDown(m, child), DropScope(TearDown(m, child), child));
    }
  }

  lemma StrippedTold(p: Process, m: Machine, token: TokenId)
    ensures Told(p, m, Stripped(m, token))
  {
    hide ReadAll, Told, WithdrawArms, CancelItems, DropChildScope;
    var m1 := WithdrawArms(m, token);
    WithdrawArmsTold(p, m, token);
    var m2 := CancelItems(m1, m1.s.OpenItemsOf({token}));
    CancelItemsTold(p, m1, m1.s.OpenItemsOf({token}));
    DropChildTold(p, m2, token);
    ThenTold(p, m, m1, m2);
    ThenTold(p, m, m2, DropChildScope(m2, token));
  }

  lemma FreezeTold(p: Process, m: Machine, token: TokenId, element: NodeIx, code: Option<string>, detail: Option<string>)
    requires m.s.status.Active?
    ensures Told(p, m, Freeze(m, token, element, code, detail))
  {
    StrippedStatus(m, token);
    hide ReadAll, Told, Stripped, InFlightTokens, HaltDecisions;
    var m1 := Stripped(m, token);
    var m2 := Freeze(m, token, element, code, detail);
    StrippedTold(p, m, token);
    Says(p, m1, m2, IncidentRaised(element, code, detail, m1.s.nextIncident));
    ThenTold(p, m, m1, m2);
  }

  lemma StrippedStatus(m: Machine, token: TokenId)
    ensures Stripped(m, token).s.status == m.s.status
  {
  }

  // ---- arming

  lemma RecordTimerTold(p: Process, m: Machine, token: TokenId, element: NodeIx, due: TimerDue)
    ensures var remaining := if due.Cycle? then p.repeats(due.text) else None;
            Told(p, m, RecordTimer(m, token, element, due, remaining, None))
  {
    hide ReadAll, Told;
    var remaining := if due.Cycle? then p.repeats(due.text) else None;
    Says(p, m, RecordTimer(m, token, element, due, remaining, None),
         TimerArmed(m.s.nextTimer, element, due, token, None, remaining));
  }

  lemma OpenSubTold(p: Process, m: Machine, token: TokenId, element: NodeIx, message: string, key: string)
    requires forall k :: k in m.s.subs ==> !(m.s.SubAt(k).message == message && m.s.SubAt(k).key == key)
    ensures Told(p, m, OpenSub(m, token, element, message, key))
  {
    hide ReadAll, Told;
    Says(p, m, OpenSub(m, token, element, message, key), MessageSubscribed(m.s.nextSub, element, message, key, token));
  }

  lemma FailsTold(p: Process, m: Machine, e: Event, token: TokenId, element: NodeIx)
    requires Neutral(e) && m.s.status.Active?
    ensures Told(p, m, Freeze(Say(m, e), token, element, None, None))
  {
    hide ReadAll, Told, Freeze;
    Notes(p, m, Say(m, e), e);
    FreezeTold(p, Say(m, e), token, element, None, None);
    ThenTold(p, m, Say(m, e), Freeze(Say(m, e), token, element, None, None));
  }

  /** Told, and active still if armed. */
  ghost predicate ArmTold(p: Process, m: Machine, a: Arming) {
    Told(p, m, a.m) && (a.ok ==> a.m.s.status == m.s.status)
  }

  lemma ArmTimerTold(p: Process, m: Machine, token: TokenId, element: NodeIx, source: TimerSource)
    requires m.s.status.Active?
    ensures ArmTold(p, m, ArmTimer(p, m, token, element, source))
  {
    hide Told, Freeze;
    var due := p.Resolve(source, m.s.variables);
    if due.None? {
      FailsTold(p, m, TimerResolveFailed(element), token, element);
    } else {
      RecordTimerTold(p, m, token, element, due.value);
    }
  }

  lemma SubscribeTold(p: Process, m: Machine, token: TokenId, element: NodeIx)
    requires m.s.status.Active?
    ensures ArmTold(p, m, Subscribe(p, m, token, element))
  {
    hide Told, Freeze;
    match ArmKey(p, m.s, m.s.variables, element, None)
    case Key(message, key) => OpenSubTold(p, m, token, element, message, key);
    case Unusable => FailsTold(p, m, CorrelationFailed(element), token, element);
    case Duplicate(message, key) => FailsTold(p, m, DuplicateSubscription(element, message, key), token, element);
  }

  lemma OneArmTold(p: Process, m: Machine, token: TokenId, element: NodeIx)
    requires m.s.status.Active?
    ensures ArmTold(p, m, Arm(p, m, token, element))
  {
    hide ArmTold, ArmTimer, Subscribe;
    match p.KindOf(element)
    case TimerCatch(due) => ArmTimerTold(p, m, token, element, due);
    case TimerBoundary(due, _) => ArmTimerTold(p, m, token, element, due);
    case _ => SubscribeTold(p, m, token, element);
  }

  lemma {:induction false} ArmAllTold(p: Process, m: Machine, token: TokenId, elements: seq<NodeIx>)
    requires m.s.status.Active?
    ensures ArmTold(p, m, ArmAll(p, m, token, elements))
    decreases |elements|
  {
    hide Told, Arm;
    if elements == [] {
      Quiet(p, m, m);
    } else {
      OneArmTold(p, m, token, elements[0]);
      var first := Arm(p, m, token, elements[0]);
      if first.ok {
        ArmAllTold(p, first.m, token, elements[1..]);
        ThenTold(p, m, first.m, ArmAll(p, first.m, token, elements[1..]).m);
      }
    }
  }

  lemma {:induction false} ArmAlternativesTold(p: Process, m: Machine, token: TokenId, elements: seq<NodeIx>)
    requires m.s.status.Active?
    ensures var o := ArmAlternatives(p, m, token, elements); o.Ok? ==> Told(p, m, o.m)
    decreases |elements|
  {
    hide Told, Arm;
    if elements == [] {
      Quiet(p, m, m);
    } else if p.IsCatch(elements[0]) {
      OneArmTold(p, m, token, elements[0]);
      var first := Arm(p, m, token, elements[0]);
      if first.ok {
        ArmAlternativesTold(p, first.m, token, elements[1..]);
        var o := ArmAlternatives(p, first.m, token, elements[1..]);
        if o.Ok? {
          ThenTold(p, m, first.m, o.m);
        }
      }
    }
  }

  // ---- scopes and ends

  lemma DropScopeTold(p: Process, m: Machine, scope: ScopeId)
    ensures Told(p, m, DropScope(m, scope))
  {
    hide Told;
    Quiet(p, m, DropScope(m, scope));
  }

  lemma CompleteScopeTold(p: Process, a: Machine, m: Machine, scope: ScopeId)
    requires Told(p, a, m)
    ensures var o := CompleteScope(p, m, scope); o.Ok? ==> Told(p, a, o.m)
  {
    hide Told, WithdrawArms, LeaveSingle;
    if scope in m.s.scopes {
      var closed := m.s.scopes[scope];
      var m0 := DropScope(m, scope);
      var m1 := WithdrawArms(m0, closed.token);
      var m2 := Finished(m1, closed.element);
      DropScopeTold(p, m, scope);
      WithdrawArmsTold(p, m0, closed.token);
      PassTold(p, m1, closed.element);
      ThenTold(p, a, m, m0);
      ThenTold(p, a, m0, m1);
      ThenTold(p, a, m1, m2);
      if closed.token in m2.s.tokens {
        var m3 := Unpark(m2, {closed.token}).(scope := closed.parent);
        StillTold(p, a, m2, m3);
        LeavesTold(p, a, m3, closed.token, closed.element);
      }
    }
  }

  lemma CompleteIfEmptyTold(p: Process, a: Machine, m: Machine, scope: ScopeId)
    requires Told(p, a, m)
    ensures var o := CompleteScopeIfEmpty(p, m, scope); o.Ok? ==> Told(p, a, o.m)
  {
    hide Told, CompleteScope;
    CompleteScopeTold(p, a, m, scope);
  }

  lemma NoneOpen(items: map<ItemId, Item>)
    ensures OpenWork(Closed(items, set i | i in items && items[i].open)) == map[]
  {
  }

  lemma EndsReads(p: Process, b: Book)
    requires b.status.Active? && b.fired.None? && NothingOpen(b)
    ensures Read(p, b, InstanceTerminated) == Some(b.(status := Status.Terminated))
    ensures Read(p, b, InstanceCompleted) == Some(b.(status := Status.Completed))
  {
  }

  lemma AllWithdrawn(m: Machine)
    ensures var m1 := Withdraw(m, m.s.timers.Keys, m.s.subs.Keys);
            m1.s == m.s.(timers := map[], subs := map[])
  {
    assert m.s.timers - m.s.timers.Keys == map[] && m.s.subs - m.s.subs.Keys == map[];
  }

  /** Every open item cancelled, every arm withdrawn. */
  function Emptied(m: Machine): Machine {
    var m0 := CancelItems(m, set i | i in m.s.items && m.s.items[i].open);
    Withdraw(m0, m0.s.timers.Keys, m0.s.subs.Keys)
  }

  lemma EmptiedTold(p: Process, m: Machine)
    requires m.s.status.Active?
    ensures Told(p, m, Emptied(m)) && Emptied(m).s.status.Active? && NothingOpen(BookOf(Emptied(m).s))
    ensures Terminate(m) == Say(Emptied(m).(s := Emptied(m).s.(tokens := map[], scopes := map[], status := Status.Terminated), q := []), InstanceTerminated)
  {
    hide Told, Read, ReadAll, Withdraw, CancelItems, OpenWork, Closed, TimerCancels, SubCancels, ItemCancels, Sorted;
    var open := set i | i in m.s.items && m.s.items[i].open;
    var m0 := CancelItems(m, open);
    CancelItemsTold(p, m, open);
    NoneOpen(m.s.items);
    CancelledItems(m, open);
    var m1 := Withdraw(m0, m0.s.timers.Keys, m0.s.subs.Keys);
    WithdrawTold(p, m0, m0.s.timers.Keys, m0.s.subs.Keys);
    AllWithdrawn(m0);
    ThenTold(p, m, m0, m1);
  }

  lemma TerminateTold(p: Process, m: Machine)
    requires m.s.status.Active?
    ensures Told(p, m, Terminate(m))
  {
    hide Told, Read, ReadAll, Emptied, Terminate, OpenWork, NothingOpen;
    EmptiedTold(p, m);
    var m1 := Emptied(m);
    EndsReads(p, BookOf(m1.s));
    Says(p, m1, Terminate(m), InstanceTerminated);
    ThenTold(p, m, m1, Terminate(m));
  }

  lemma CancelledItems(m: Machine, ids: set<ItemId>)
    requires ids <= m.s.items.Keys
    ensures CancelItems(m, ids).s == m.s.(items := Closed(m.s.items, ids))
  {
  }

  // ---- entering

  lemma OpenItemTold(p: Process, m: Machine, token: TokenId, n: NodeIx, work: WorkKind, topic: string)
    ensures var m' := OpenItem(m, token, n, work, topic); Told(p, m, m') && m'.s.status == m.s.status
  {
    var item, m' := m.s.nextItem, OpenItem(m, token, n, work, topic);
    assert OpenWork(m'.s.items) == OpenWork(m.s.items)[item := Work(n, work, topic)];
    hide Told, OpenWork;
    Says(p, m, m', WorkItemCreated(item, n, work, topic));
  }

  lemma EnterTaskTold(p: Process, m: Machine, token: TokenId, n: NodeIx, work: WorkKind, topic: string)
    requires m.s.status.Active?
    ensures Told(p, m, EnterTask(p, m, token, n, work, topic))
  {
    hide Told, ArmAll, OpenItem;
    var m1 := Started(m, n);
    PassTold(p, m, n);
    var m3 := OpenItem(m1, token, n, work, topic);
    OpenItemTold(p, m1, token, n, work, topic);
    ThenTold(p, m, m1, m3);
    ArmAllTold(p, m3, token, p.Boundaries(n));
    ThenTold(p, m, m3, ArmAll(p, m3, token, p.Boundaries(n)).m);
  }

  lemma EnterDecisionTold(p: Process, m: Machine, token: TokenId, n: NodeIx, decision: string)
    ensures Told(p, m, EnterDecision(p, m, token, n, decision))
  {
    hide Told;
    PassTold(p, m, n);
    Notes(p, Started(m, n), EnterDecision(p, m, token, n, decision), DecisionRequested(n, decision));
    ThenTold(p, m, Started(m, n), EnterDecision(p, m, token, n, decision));
  }

  lemma EnterTimerCatchTold(p: Process, m: Machine, token: TokenId, n: NodeIx, due: TimerSource)
    requires m.s.status.Active?
    ensures Told(p, m, EnterTimerCatch(p, m, token, n, due))
  {
    hide Told, ArmTimer;
    var m1 := Started(m, n);
    PassTold(p, m, n);
    ArmTimerTold(p, m1, token, n, due);
    var armed := ArmTimer(p, m1, token, n, due);
    ThenTold(p, m, m1, armed.m);
    if armed.ok {
      StillTold(p, m, armed.m, Park(armed.m, token, n, OnTimer(m.s.nextTimer)));
    }
  }

  lemma EnterMessageCatchTold(p: Process, m: Machine, token: TokenId, n: NodeIx)
    requires m.s.status.Active?
    ensures Told(p, m, EnterMessageCatch(p, m, token, n))
  {
    hide Told, Subscribe, ArmAll;
    var m1 := Started(m, n);
    PassTold(p, m, n);
    SubscribeTold(p, m1, token, n);
    var armed := Subscribe(p, m1, token, n);
    ThenTold(p, m, m1, armed.m);
    if armed.ok {
      var m2 := Park(armed.m, token, n, OnMessage(m.s.nextSub));
      StillTold(p, m, armed.m, m2);
      ArmAllTold(p, m2, token, p.Boundaries(n));
      ThenTold(p, m, m2, ArmAll(p, m2, token, p.Boundaries(n)).m);
    }
  }

  lemma EnterEventGatewayTold(p: Process, m: Machine, token: TokenId, n: NodeIx)
    requires m.s.status.Active?
    ensures var o := EnterEventGateway(p, m, token, n); o.Ok? ==> Told(p, m, o.m)
  {
    hide Told, ArmAlternatives, Targets;
    PassTold(p, m, n);
    var m1 := Park(Started(m, n), token, n, AtEventGateway);
    StillTold(p, m, Started(m, n), m1);
    ArmAlternativesTold(p, m1, token, Targets(p, p.Outgoing(n)));
    var o := ArmAlternatives(p, m1, token, Targets(p, p.Outgoing(n)));
    if o.Ok? {
      ThenTold(p, m, m1, o.m);
    }
  }

  lemma EnterSubProcessTold(p: Process, m: Machine, token: TokenId, n: NodeIx, body: ScopeIx)
    requires m.s.status.Active?
    ensures Told(p, m, EnterSubProcess(p, m, token, n, body))
  {
    hide Told, ArmAll;
    PassTold(p, m, n);
    var m1 := OpenScope(Started(m, n), token, n);
    StillTold(p, m, Started(m, n), m1);
    ArmAllTold(p, m1, token, p.Boundaries(n));
    var armed := ArmAll(p, m1, token, p.Boundaries(n));
    ThenTold(p, m, m1, armed.m);
    if armed.ok {
      StillTold(p, m, armed.m, EnterSubProcess(p, m, token, n, body));
    }
  }

  lemma {:induction false} ForkTold(p: Process, a: Machine, m: Machine, flows: seq<FlowIx>)
    requires Told(p, a, m)
    ensures Told(p, a, ForkOn(p, m, flows))
    decreases |flows|
  {
    hide Told;
    if flows == [] {
    } else {
      var m1 := FreshToken(m);
      StillTold(p, a, m, m1);
      LeaveTold(p, m1, m.s.nextToken, flows[0]);
      var m2 := Leave(p, m1, m.s.nextToken, flows[0]);
      ThenTold(p, a, m1, m2);
      ForkTold(p, a, m2, flows[1..]);
    }
  }

  lemma EnterJoinTold(p: Process, m: Machine, token: TokenId, n: NodeIx, via: Option<FlowIx>)
    ensures var o := EnterJoin(p, m, token, n, via); o.Ok? ==> Told(p, m, o.m)
  {
    hide Told, AllArrived, Consumed, ArrivedOn, LeaveSingle;
    if via.Some? {
      var m1 := Park(m, token, n, AtJoin(via.value));
      Quiet(p, m, m1);
      if AllArrived(p, m1.s, n, m.scope) {
        var m2 := Unpark(m1, Consumed(p, m1.s, n, m.scope));
        StillTold(p, m, m1, m2);
        PassTold(p, m2, n);
        var m3 := Finished(Started(m2, n), n);
        ThenTold(p, m, m2, m3);
        StillTold(p, m, m3, FreshToken(m3));
        LeavesTold(p, m, FreshToken(m3), m3.s.nextToken, n);
      }
    }
  }

  lemma EnterTerminateEndTold(p: Process, m: Machine, n: NodeIx)
    requires m.s.status.Active?
    ensures var o := EnterTerminateEnd(p, m, n); o.Ok? ==> Told(p, m, o.m)
  {
    hide Told, TearDown, CompleteScope, Terminate;
    var m1 := Finished(Started(m, n), n);
    PassTold(p, m, n);
    if m.scope != ROOT {
      TearDownTold(p, m1, m.scope);
      ThenTold(p, m, m1, TearDown(m1, m.scope));
      CompleteScopeTold(p, m, TearDown(m1, m.scope), m.scope);
    } else {
      TerminateTold(p, m1);
      ThenTold(p, m, m1, Terminate(m1));
    }
  }

  /** Entering a node tells all it changes. */
  lemma EnterTold(p: Process, m: Machine, token: TokenId, n: NodeIx, via: Option<FlowIx>)
    requires m.s.status.Active?
    ensures var o := Enter(p, m, token, n, via); o.Ok? ==> Told(p, m, o.m)
  {
    hide Told, EnterTask, EnterDecision, EnterTimerCatch, EnterMessageCatch, EnterEventGateway, EnterSubProcess, EnterJoin, EnterTerminateEnd,
         LeaveSingle, Leave, ForkOn, CompleteScopeIfEmpty, Chosen;
    var m1 := Finished(Started(m, n), n);
    PassTold(p, m, n);
    match p.KindOf(n)
    case Start => LeavesTold(p, m, m1, token, n);
    case BusinessRule(decision, _) => EnterDecisionTold(p, m, token, n, decision);
    case Task(work, topic) => EnterTaskTold(p, m, token, n, work, topic);
    case TimerCatch(due) => EnterTimerCatchTold(p, m, token, n, due);
    case MessageCatch(_, _) => EnterMessageCatchTold(p, m, token, n);
    case EventBasedGateway => EnterEventGatewayTold(p, m, token, n);
    case SubProcess(body) => EnterSubProcessTold(p, m, token, n, body);
    case ExclusiveGateway(d) =>
      var f := Chosen(p, n, d, m.s.variables);
      if f.Some? {
        LeaveTold(p, m1, token, f.value);
        ThenTold(p, m, m1, Leave(p, m1, token, f.value));
      }
    case ParallelGateway =>
      EnterJoinTold(p, m, token, n, via);
      ForkTold(p, m, m1, p.Outgoing(n));
    case End => CompleteIfEmptyTold(p, m, m1, m.scope);
    case TerminateEnd => EnterTerminateEndTold(p, m, n);
    case _ =>
  }
}
