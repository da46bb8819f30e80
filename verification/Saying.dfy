/** What a command says: its own event first, the moves it opens last, and in
    between only what it withdraws. */
module Saying {
  import opened Basics
  import opened Json
  import opened Compiled
  import opened State
  import opened Advance
  import opened Step
  import opened Entries
  import opened Effects

  predicate Cancels(e: Event) { e.WorkItemCancelled? || e.TimerCancelled? || e.SubscriptionCancelled? }

  /** Between `a` and `b` only withdrawals are said. */
  ghost predicate Quietly(a: seq<Event>, b: seq<Event>) {
    a <= b && forall i :: |a| <= i < |b| ==> Cancels(b[i])
  }

  /** Withdrawals only, then `last`. */
  ghost predicate Tells(a: seq<Event>, last: seq<Event>, b: seq<Event>) {
    |a| + |last| <= |b| && Quietly(a, b[..|b| - |last|]) && b[|b| - |last|..] == last
  }

  /** The token passes `n` and takes the one flow out of it. */
  function Passed(p: Process, n: NodeIx): seq<Event> { [ElementCompleted(n), FlowTaken(p.OnlyFlow(n))] }

  /** It is a boundary or an alternative: it starts as it is passed. */
  function Through(p: Process, n: NodeIx): seq<Event> { [ElementStarted(n)] + Passed(p, n) }

  lemma QuietEnds(a: seq<Event>, b: seq<Event>, last: seq<Event>)
    requires Quietly(a, b)
    ensures Tells(a, last, b + last)
  {
  }

  lemma QuietThen(a: seq<Event>, b: seq<Event>, c: seq<Event>)
    requires Quietly(a, b) && Quietly(b, c)
    ensures Quietly(a, c)
  {
    assert forall i :: 0 <= i < |b| ==> b[i] == c[i];
  }

  lemma QuietTells(a: seq<Event>, b: seq<Event>, last: seq<Event>, c: seq<Event>)
    requires Quietly(a, b) && Tells(b, last, c)
    ensures Tells(a, last, c)
  {
    QuietThen(a, b, c[..|c| - |last|]);
  }

  // ---- withdrawing

  lemma WithdrawQuiet(m: Machine, ts: set<TimerId>, us: set<SubId>)
    ensures Quietly(m.ev, Withdraw(m, ts, us).ev)
  {
  }

  lemma WithdrawArmsQuiet(m: Machine, token: TokenId)
    ensures Quietly(m.ev, WithdrawArms(m, token).ev)
  {
    WithdrawQuiet(m, m.s.TimersOf({token}), m.s.SubsOf({token}));
  }

  // ---- in which order

  /** Whose row it was. */
  function Owner(s: Instance, e: Event): TokenId {
    match e
    case WorkItemCancelled(i, _) => s.ItemAt(i).token
    case TimerCancelled(k, _) => s.TimerAt(k).token
    case SubscriptionCancelled(k, _, _) => s.SubAt(k).token
    case _ => 0
  }

  function Number(e: Event): nat {
    match e
    case WorkItemCancelled(i, _) => i
    case TimerCancelled(k, _) => k
    case SubscriptionCancelled(k, _, _) => k
    case _ => 0
  }

  /** Work, then timers, then subscriptions. */
  function Rank(e: Event): nat { if e.WorkItemCancelled? then 0 else if e.TimerCancelled? then 1 else 2 }

  predicate Precedes(a: Event, b: Event) { Rank(a) < Rank(b) || (Rank(a) == Rank(b) && Number(a) < Number(b)) }

  /** Token by token, and of each its work, its timers, its subscriptions, by number. */
  predicate Follows(s: Instance, a: Event, b: Event) { Owner(s, a) < Owner(s, b) || (Owner(s, a) == Owner(s, b) && Precedes(a, b)) }

  ghost predicate TokenByToken(s: Instance, ev: seq<Event>, from: nat) {
    forall i, j :: from <= i < j < |ev| ==> Follows(s, ev[i], ev[j])
  }

  ghost predicate InOrder(ev: seq<Event>, from: nat) {
    forall i, j :: from <= i < j < |ev| ==> Precedes(ev[i], ev[j])
  }

  /** All of one rank, by number. */
  ghost predicate OfRank(ev: seq<Event>, rank: nat) {
    && (forall i :: 0 <= i < |ev| ==> Rank(ev[i]) == rank)
    && (forall i, j :: 0 <= i < j < |ev| ==> Number(ev[i]) < Number(ev[j]))
  }

  lemma CancelsByNumber(s: Instance, items: seq<ItemId>, timers: seq<TimerId>, subs: seq<SubId>)
    requires Ascending(items) && Ascending(timers) && Ascending(subs)
    ensures OfRank(ItemCancels(s.items, items), 0) && OfRank(TimerCancels(s.timers, timers), 1) && OfRank(SubCancels(s.subs, subs), 2)
  {
  }

  lemma RanksInOrder(before: seq<Event>, a: seq<Event>, b: seq<Event>, c: seq<Event>)
    requires OfRank(a, 0) && OfRank(b, 1) && OfRank(c, 2)
    ensures InOrder(before + a + b + c, |before|)
  {
    hide Rank, Number;
    var all := before + a + b + c;
    var n, k := |before| + |a|, |before| + |a| + |b|;
    assert forall i :: |before| <= i < n ==> all[i] == a[i - |before|];
    assert forall i :: n <= i < k ==> all[i] == b[i - n];
    assert forall i :: k <= i < |all| ==> all[i] == c[i - k];
  }

  /** A token's arms are withdrawn timers first, then subscriptions, each by number. */
  lemma WithdrawsInOrder(m: Machine, token: TokenId)
    ensures InOrder(WithdrawArms(m, token).ev, |m.ev|)
  {
    hide Sorted, ItemCancels, TimerCancels, SubCancels, OfRank;
    CancelsByNumber(m.s, [], Sorted(m.s.TimersOf({token})), Sorted(m.s.SubsOf({token})));
    RanksInOrder(m.ev, ItemCancels(m.s.items, []), TimerCancels(m.s.timers, Sorted(m.s.TimersOf({token}))), SubCancels(m.s.subs, Sorted(m.s.SubsOf({token}))));
    assert m.ev + ItemCancels(m.s.items, []) == m.ev by { assert ItemCancels(m.s.items, []) == [] by { NoCancels(m.s); } }
  }

  lemma NoCancels(s: Instance)
    ensures ItemCancels(s.items, []) == []
  {
  }

  lemma ReapsOneInOrder(s: Instance, token: TokenId)
    ensures InOrder(ReapOneEvents(s, token), 0) && forall e :: e in ReapOneEvents(s, token) ==> Owner(s, e) == token
  {
    hide Sorted, OfRank, Owner;
    var items, timers, subs := Sorted(s.OpenItemsOf({token})), Sorted(s.TimersOf({token})), Sorted(s.SubsOf({token}));
    ReapsOwn(s, token, items, timers, subs);
    CancelsByNumber(s, items, timers, subs);
    hide ItemCancels, TimerCancels, SubCancels;
    RanksInOrder([], ItemCancels(s.items, items), TimerCancels(s.timers, timers), SubCancels(s.subs, subs));
    assert [] + ItemCancels(s.items, items) == ItemCancels(s.items, items);
  }

  lemma ReapsOwn(s: Instance, token: TokenId, items: seq<ItemId>, timers: seq<TimerId>, subs: seq<SubId>)
    requires forall i :: i in items ==> i in s.OpenItemsOf({token})
    requires forall k :: k in timers ==> k in s.TimersOf({token})
    requires forall k :: k in subs ==> k in s.SubsOf({token})
    ensures forall e :: e in ItemCancels(s.items, items) || e in TimerCancels(s.timers, timers) || e in SubCancels(s.subs, subs) ==> Owner(s, e) == token
  {
    forall e | e in ItemCancels(s.items, items) ensures Owner(s, e) == token {
      var i :| 0 <= i < |items| && ItemCancels(s.items, items)[i] == e;
      assert items[i] in items;
    }
    forall e | e in TimerCancels(s.timers, timers) ensures Owner(s, e) == token {
      var i :| 0 <= i < |timers| && TimerCancels(s.timers, timers)[i] == e;
      assert timers[i] in timers;
    }
    forall e | e in SubCancels(s.subs, subs) ensures Owner(s, e) == token {
      var i :| 0 <= i < |subs| && SubCancels(s.subs, subs)[i] == e;
      assert subs[i] in subs;
    }
  }

  lemma {:induction false} ReapsInOrder(s: Instance, tokens: seq<TokenId>)
    requires Ascending(tokens)
    ensures var ev := ReapEvents(s, tokens);
            && (forall e :: e in ev ==> Owner(s, e) in tokens)
            && TokenByToken(s, ev, 0)
    decreases |tokens|
  {
    if tokens == [] {
    } else {
      var front, last := tokens[..|tokens| - 1], tokens[|tokens| - 1];
      ReapsInOrder(s, front);
      ReapsOneInOrder(s, last);
      var a, b := ReapEvents(s, front), ReapOneEvents(s, last);
      assert ReapEvents(s, tokens) == a + b;
      hide ReapEvents, ReapOneEvents, Owner, Precedes;
      assert forall t :: t in front ==> t < last;
      forall i, j | 0 <= i < j < |a + b| ensures Follows(s, (a + b)[i], (a + b)[j]) {
        assert i < |a| ==> (a + b)[i] in a;
        assert j >= |a| ==> (a + b)[j] in b;
        assert i >= |a| ==> (a + b)[i] in b;
      }
    }
  }

  /** A scope is torn down token by token, each token's work, timers and
      subscriptions by number. */
  lemma TearsDownInOrder(m: Machine, scope: ScopeId)
    ensures TokenByToken(m.s, TearDown(m, scope).ev, |m.ev|)
  {
    hide Sorted, Reaped, Spared, ReapEvents, Subtree, Follows;
    var tokens := Sorted(m.s.TokensWithin(Subtree(m.s.scopes, scope)));
    ReapsInOrder(m.s, tokens);
    var more, n := ReapEvents(m.s, tokens), |m.ev|;
    assert TearDown(m, scope).ev == m.ev + more;
    forall i, j | n <= i < j < n + |more| ensures Follows(m.s, (m.ev + more)[i], (m.ev + more)[j]) {
      assert Follows(m.s, more[i - n], more[j - n]);
    }
  }

  /** An instance is ended work first, then timers, then subscriptions, by number. */
  lemma TerminatesInOrder(m: Machine)
    ensures var ev := Terminate(m).ev; ev != [] && InOrder(ev[..|ev| - 1], |m.ev|)
  {
    hide Sorted, ItemCancels, TimerCancels, SubCancels, OfRank, InOrder;
    var open := set i | i in m.s.items && m.s.items[i].open;
    var a, b, c := ItemCancels(m.s.items, Sorted(open)), TimerCancels(m.s.timers, Sorted(m.s.timers.Keys)), SubCancels(m.s.subs, Sorted(m.s.subs.Keys));
    CancelsByNumber(m.s, Sorted(open), Sorted(m.s.timers.Keys), Sorted(m.s.subs.Keys));
    RanksInOrder(m.ev, a, b, c);
    assert Terminate(m).ev == m.ev + a + b + c + [InstanceTerminated];
    assert (m.ev + a + b + c + [InstanceTerminated])[..|m.ev + a + b + c|] == m.ev + a + b + c;
  }

  lemma {:induction false} ReapQuiet(s: Instance, tokens: seq<TokenId>)
    ensures forall e :: e in ReapEvents(s, tokens) ==> Cancels(e)
    decreases |tokens|
  {
    if tokens == [] {
    } else {
      ReapQuiet(s, tokens[..|tokens| - 1]);
      ReapOneQuiet(s, tokens[|tokens| - 1]);
      hide ReapOneEvents;
    }
  }

  lemma ReapOneQuiet(s: Instance, token: TokenId)
    ensures forall e :: e in ReapOneEvents(s, token) ==> Cancels(e)
  {
    hide Sorted;
  }

  lemma TearDownQuiet(m: Machine, scope: ScopeId)
    ensures Quietly(m.ev, TearDown(m, scope).ev)
  {
    hide Reaped, Spared, ReapEvents, Subtree;
    var gone := m.s.TokensWithin(Subtree(m.s.scopes, scope));
    ReapQuiet(m.s, Sorted(gone));
    hide Sorted;
    var more := ReapEvents(m.s, Sorted(gone));
    assert forall i :: 0 <= i < |more| ==> more[i] in more;
  }

  lemma StrippedQuiet(m: Machine, token: TokenId)
    ensures Quietly(m.ev, Stripped(m, token).ev)
  {
    hide Sorted, TearDown, WithdrawArms;
    var m1 := WithdrawArms(m, token);
    WithdrawArmsQuiet(m, token);
    var m2 := CancelItems(m1, m1.s.OpenItemsOf({token}));
    assert Quietly(m1.ev, m2.ev);
    QuietThen(m.ev, m1.ev, m2.ev);
    if token in m2.s.tokens && m2.s.tokens[token].wait.OnScope? {
      var child := m2.s.tokens[token].wait.child;
      TearDownQuiet(m2, child);
      QuietThen(m.ev, m2.ev, TearDown(m2, child).ev);
    }
  }

  /** A freeze says what it withdraws, then the incident: where, under which code,
      why, and numbered by the counter. */
  lemma FreezeSays(m: Machine, token: TokenId, element: NodeIx, code: Option<string>, detail: Option<string>)
    ensures Tells(m.ev, [IncidentRaised(element, code, detail, m.s.nextIncident)], Freeze(m, token, element, code, detail).ev)
  {
    StrippedQuiet(m, token);
    StrippedCounts(m, token);
    hide Stripped, Iced;
    QuietEnds(m.ev, Stripped(m, token).ev, [IncidentRaised(element, code, detail, m.s.nextIncident)]);
  }

  lemma StrippedCounts(m: Machine, token: TokenId)
    ensures Stripped(m, token).s.nextIncident == m.s.nextIncident && Stripped(m, token).s.variables == m.s.variables
  {
    hide Sorted, ReapEvents, Subtree, Spared;
  }

  // ---- leaving

  lemma PassesSaying(p: Process, a: seq<Event>, m: Machine, token: TokenId, n: NodeIx)
    requires Quietly(a, m.ev)
    ensures var o := LeaveSingle(p, Finished(m, n), token, n); o.Ok? ==> Tells(a, Passed(p, n), o.m.ev)
  {
    hide Quietly, Tells;
    QuietEnds(a, m.ev, Passed(p, n));
    assert m.ev + [ElementCompleted(n)] + [FlowTaken(p.OnlyFlow(n))] == m.ev + Passed(p, n);
  }

  lemma GoesThrough(p: Process, a: seq<Event>, m: Machine, token: TokenId, n: NodeIx)
    requires Quietly(a, m.ev)
    ensures var o := LeaveSingle(p, Finished(Started(m, n), n), token, n); o.Ok? ==> Tells(a, Through(p, n), o.m.ev)
  {
    hide Quietly, Tells;
    QuietEnds(a, m.ev, Through(p, n));
    assert m.ev + [ElementStarted(n)] + [ElementCompleted(n)] + [FlowTaken(p.OnlyFlow(n))] == m.ev + Through(p, n);
  }

  /** The boundary that interrupts says it starts and completes, after everything its
      host held is said withdrawn. */
  lemma InterruptSays(p: Process, m: Machine, token: TokenId, boundary: NodeIx)
    ensures var o := InterruptToBoundary(p, m, token, boundary); o.Ok? ==> Tells(m.ev, Through(p, boundary), o.m.ev)
  {
    hide TearDown, WithdrawArms, LeaveSingle, Quietly, Tells, Through;
    if token in m.s.tokens {
      var parked := m.s.TokenAt(token);
      var m1 := Unpark(m, {token});
      var m2 := if parked.wait.OnScope? then DropScope(TearDown(m1, parked.wait.child), parked.wait.child) else m1;
      assert Quietly(m1.ev, m2.ev) by {
        if parked.wait.OnScope? { TearDownQuiet(m1, parked.wait.child); } else { NothingSaid(m1.ev); }
      }
      var m3 := WithdrawArms(m2.(scope := parked.scope), token);
      WithdrawArmsQuiet(m2.(scope := parked.scope), token);
      QuietThen(m.ev, m2.ev, m3.ev);
      GoesThrough(p, m.ev, m3, token, boundary);
    }
  }

  lemma NothingSaid(a: seq<Event>)
    ensures Quietly(a, a)
  {
  }

  lemma HostSays(p: Process, m: Machine, token: TokenId, boundary: NodeIx)
    ensures var o := InterruptHost(p, m, token, boundary); o.Ok? ==> Tells(m.ev, Through(p, boundary), o.m.ev)
  {
    hide InterruptToBoundary, Closed, Through;
    if token in m.s.tokens {
      match m.s.TokenAt(token).wait
      case OnItem(item) =>
        if item in m.s.items {
          var m1 := Say(m.(s := m.s.(items := Closed(m.s.items, {item}))), WorkItemCancelled(item, m.s.ItemAt(item).element));
          InterruptSays(p, m1, token, boundary);
          if InterruptToBoundary(p, m1, token, boundary).Ok? {
            QuietTells(m.ev, m1.ev, Through(p, boundary), InterruptToBoundary(p, m1, token, boundary).m.ev);
          }
        }
      case OnMessage(sub) =>
        hide Sorted;
        var m1 := Withdraw(m, {}, {sub});
        WithdrawQuiet(m, {}, {sub});
        InterruptSays(p, m1, token, boundary);
        if sub in m.s.subs && InterruptToBoundary(p, m1, token, boundary).Ok? {
          QuietTells(m.ev, m1.ev, Through(p, boundary), InterruptToBoundary(p, m1, token, boundary).m.ev);
        }
      case OnScope(_) => InterruptSays(p, m, token, boundary);
      case _ =>
    }
  }

  // ---- the commands

  function PatchSaid(patch: Value): seq<Event> { if patch == EMPTY then [] else [VariablesPatched(patch)] }

  /** A completed item: the completion, the patch if there is one, the arms
      withdrawn, and the task passed. */
  lemma WorkSays(p: Process, s: Instance, id: ItemId, patch: Value)
    ensures var o := OpenCompleteWorkItem(p, s, id, patch);
            var n := s.ItemAt(id).element;
            o.Opened? ==> Tells([WorkItemCompleted(id, n)] + PatchSaid(patch), Passed(p, n), o.At().ev)
  {
    hide WithdrawArms, LeaveSingle, Passed, Merge, Quietly;
    var item := s.ItemAt(id);
    var m := Say(Unpark(Idle(CloseItem(s, id)), {item.token}).(scope := s.TokenAt(item.token).scope), WorkItemCompleted(id, item.element));
    assert Patched(m, patch).ev == [WorkItemCompleted(id, item.element)] + PatchSaid(patch);
    WithdrawArmsQuiet(Patched(m, patch), item.token);
    PassesSaying(p, Patched(m, patch).ev, WithdrawArms(Patched(m, patch), item.token), item.token, item.element);
  }

  /** An answered decision: the answer, with the reason it is null where it is, and
      the decision passed. */
  lemma AnswerSays(p: Process, s: Instance, token: TokenId, answer: Value, detail: Option<string>)
    ensures var o := OpenCompleteDecision(p, s, token, Some(answer), detail);
            var n := s.TokenAt(token).node;
            o.Opened? ==> Tells([DecisionEvaluated(n, answer, if answer.Null? then detail else None)], Passed(p, n), o.At().ev)
  {
    hide WithdrawArms, LeaveSingle, Passed, Assign, Quietly;
    var n := s.TokenAt(token).node;
    var m1 := Say(Idle(s).(scope := s.TokenAt(token).scope), DecisionEvaluated(n, answer, if answer.Null? then detail else None));
    var m2 := Unpark(m1.(s := m1.s.(variables := Assign(m1.s.variables, p.ResultPath(n), answer))), {token});
    assert m1.ev == [DecisionEvaluated(n, answer, if answer.Null? then detail else None)];
    WithdrawArmsQuiet(m2, token);
    PassesSaying(p, m1.ev, WithdrawArms(m2, token), token, n);
  }

  /** A failed item: the failure under its code; then the boundary that caught it, or
      the incident at the element, under the same code and no further detail. */
  lemma ErrorSays(p: Process, s: Instance, id: ItemId, code: Option<string>)
    ensures var n := s.ItemAt(id).element;
            match OpenRaiseError(p, s, id, code)
            case Refused(_) => true
            case Opened(m) => exists b :: Tells([WorkItemFailed(id, n, code)], Through(p, b), m.ev)
            case Ended(m) => Tells([WorkItemFailed(id, n, code)], [IncidentRaised(n, code, None, s.nextIncident)], m.ev)
  {
    hide InterruptToBoundary, Freeze, Catcher, Tells, Through, Closed;
    var item := s.ItemAt(id);
    var m := Say(Idle(CloseItem(s, id)), WorkItemFailed(id, item.element, code));
    var scope := if item.token in s.tokens then s.TokenAt(item.token).scope else ROOT;
    assert m.ev == [WorkItemFailed(id, item.element, code)];
    match Catcher(p, s.scopes, item.element, item.token, scope, code)
    case Some(caught) => InterruptSays(p, m, caught.0, caught.1);
    case None => FreezeSays(m, item.token, item.element, code, None);
  }

  /** A race won: the gateway passed by the flow to the winner, and the winner. */
  function Won(p: Process, gateway: NodeIx, f: FlowIx, winner: NodeIx): seq<Event> {
    [ElementCompleted(gateway), FlowTaken(f)] + Through(p, winner)
  }

  lemma RaceSays(p: Process, a: seq<Event>, m: Machine, token: TokenId, gateway: NodeIx, winner: NodeIx)
    requires Quietly(a, m.ev)
    ensures var o := TakeGatewayPath(p, m, token, gateway, winner);
            o.Ok? ==> exists f :: f in p.Outgoing(gateway) && p.Target(f) == winner && Tells(a, Won(p, gateway, f, winner), o.m.ev)
  {
    hide Quietly, Tells;
    FlowToLeads(p, p.Outgoing(gateway), winner);
    hide FlowTo;
    match FlowTo(p, p.Outgoing(gateway), winner)
    case None =>
    case Some(f) =>
      QuietEnds(a, m.ev, Won(p, gateway, f, winner));
      assert m.ev + [ElementCompleted(gateway)] + [FlowTaken(f)] + [ElementStarted(winner)] + [ElementCompleted(winner)] + [FlowTaken(p.OnlyFlow(winner))]
          == m.ev + Won(p, gateway, f, winner);
  }

  lemma {:induction false} FlowToLeads(p: Process, flows: seq<FlowIx>, n: NodeIx)
    ensures var f := FlowTo(p, flows, n); f.Some? ==> f.value in flows && p.Target(f.value) == n
    decreases |flows|
  {
    if flows == [] {
    } else {
      FlowToLeads(p, flows[1..], n);
    }
  }

  /** How a token says it goes on past `element` from where it waits: the catch
      itself, the boundary of its host, or the race it wins. */
  ghost predicate GoesOnSaying(p: Process, a: seq<Event>, t: Token, element: NodeIx, b: seq<Event>) {
    if t.wait.AtEventGateway?
    then exists f :: f in p.Outgoing(t.node) && p.Target(f) == element && Tells(a, Won(p, t.node, f, element), b)
    else Tells(a, if element == t.node then Passed(p, element) else Through(p, element), b)
  }

  /** A fired timer: the firing, what it withdraws, and the way past its element. */
  lemma TimerSays(p: Process, s: Instance, id: TimerId)
    requires var t := s.TokenAt(s.TimerAt(id).token); t.wait == OnTimer(id) <==> s.TimerAt(id).element == t.node
    ensures var timer := s.TimerAt(id);
            var t := s.TokenAt(timer.token);
            var o := OpenFireTimer(p, s, id);
            o.Opened? && !GoesAside(p, t, timer.element) ==> GoesOnSaying(p, [TimerFired(id, timer.element)], t, timer.element, o.At().ev)
  {
    hide InterruptHost, TimerSidePath, TakeGatewayPath, LeaveSingle, WithdrawArms, Quietly, Tells, Passed, Through, Won;
    var timer := s.TimerAt(id);
    var t := s.TokenAt(timer.token);
    var m := Say(Idle(s.(timers := s.timers - {id})), TimerFired(id, timer.element));
    assert m.ev == [TimerFired(id, timer.element)];
    NothingSaid(m.ev);
    PassesSaying(p, m.ev, Unpark(m, {timer.token}).(scope := t.scope), timer.token, timer.element);
    HostSays(p, m, timer.token, timer.element);
    WithdrawArmsQuiet(m.(scope := t.scope), timer.token);
    RaceSays(p, m.ev, WithdrawArms(m.(scope := t.scope), timer.token), timer.token, t.node, timer.element);
  }

  /** A delivered message: the receipt, the patch if there is one, what it withdraws,
      and the way past its element. */
  lemma MessageSays(p: Process, s: Instance, id: SubId, patch: Value)
    requires var t := s.TokenAt(s.SubAt(id).token); t.wait == OnMessage(id) <==> s.SubAt(id).element == t.node
    ensures var sub := s.SubAt(id);
            var t := s.TokenAt(sub.token);
            var o := OpenDeliverMessage(p, s, id, patch);
            o.Opened? && !GoesAside(p, t, sub.element) ==>
              GoesOnSaying(p, [MessageReceived(id, sub.element, sub.message)] + PatchSaid(patch), t, sub.element, o.At().ev)
  {
    hide InterruptHost, MessageSidePath, TakeGatewayPath, LeaveSingle, WithdrawArms, Rearms, Merge, Quietly, Tells, Passed, Through, Won;
    var sub := s.SubAt(id);
    var t := s.TokenAt(sub.token);
    var m := Patched(Say(Idle(s.(subs := s.subs - {id})), MessageReceived(id, sub.element, sub.message)), patch);
    assert m.ev == [MessageReceived(id, sub.element, sub.message)] + PatchSaid(patch);
    assert m.s.tokens == s.tokens;
    WithdrawArmsQuiet(m.(scope := t.scope), sub.token);
    PassesSaying(p, m.ev, Unpark(WithdrawArms(m.(scope := t.scope), sub.token), {sub.token}), sub.token, sub.element);
    HostSays(p, m, sub.token, sub.element);
    RaceSays(p, m.ev, WithdrawArms(m.(scope := t.scope), sub.token), sub.token, t.node, sub.element);
  }

  /** A cycle beside its host: the firing, the next occurrence under the next number
      with one repeat fewer where one is left, and the boundary. */
  lemma TimerBesideSays(p: Process, s: Instance, id: TimerId)
    requires GoesAside(p, s.TokenAt(s.TimerAt(id).token), s.TimerAt(id).element) && s.TokenAt(s.TimerAt(id).token).wait != OnTimer(id)
    ensures var timer := s.TimerAt(id);
            var o := OpenFireTimer(p, s, id);
            o.Opened? ==>
              o.At().ev == [TimerFired(id, timer.element)]
                + (match (timer.due, timer.remaining)
                   case (Cycle(_), None) => [TimerArmed(s.nextTimer, timer.element, timer.due, timer.token, Some(id), None)]
                   case (Cycle(_), Some(left)) =>
                     if left > 1 then [TimerArmed(s.nextTimer, timer.element, timer.due, timer.token, Some(id), Some(left - 1))] else []
                   case _ => [])
                + Through(p, timer.element)
  {
  }

  lemma SubscribeSays(p: Process, m: Machine, token: TokenId, element: NodeIx)
    ensures var a := Subscribe(p, m, token, element);
            if a.ok
            then exists message, key :: a.m.ev == m.ev + [MessageSubscribed(m.s.nextSub, element, message, key, token)]
            else a.m.s.status.Failed?
  {
    hide Stripped, ArmKey, Iced;
    FreezeFails(Say(m, CorrelationFailed(element)), token, element);
    match ArmKey(p, m.s, m.s.variables, element, None)
    case Key(message, key) => assert Subscribe(p, m, token, element).m.ev == m.ev + [MessageSubscribed(m.s.nextSub, element, message, key, token)];
    case _ =>
  }

  /** A message beside its host: the receipt, the patch, the subscription anew under
      the next number, and the boundary. */
  lemma MessageBesideSays(p: Process, s: Instance, id: SubId, patch: Value)
    requires GoesAside(p, s.TokenAt(s.SubAt(id).token), s.SubAt(id).element) && s.TokenAt(s.SubAt(id).token).wait != OnMessage(id)
    ensures var sub := s.SubAt(id);
            match OpenDeliverMessage(p, s, id, patch)
            case Opened(m) =>
              m.s.status.Active? ==> exists message, key ::
                m.ev == [MessageReceived(id, sub.element, sub.message)] + PatchSaid(patch)
                      + [MessageSubscribed(s.nextSub, sub.element, message, key, sub.token)] + Through(p, sub.element)
            case _ => true
  {
    hide Subscribe, Rearms, Merge, Through, Closed;
    var sub := s.SubAt(id);
    var m := Patched(Say(Idle(s.(subs := s.subs - {id})), MessageReceived(id, sub.element, sub.message)), patch);
    var said := [MessageReceived(id, sub.element, sub.message)] + PatchSaid(patch);
    assert m.ev == said && m.s.tokens == s.tokens;
    var m1 := m.(scope := m.s.TokenAt(sub.token).scope);
    SubscribeSays(p, m1, sub.token, sub.element);
    var armed := Subscribe(p, m1, sub.token, sub.element);
    if armed.ok {
      var message, key :| armed.m.ev == said + [MessageSubscribed(s.nextSub, sub.element, message, key, sub.token)];
      SideSays(p, armed.m, sub.element);
      assert armed.m.ev + Through(p, sub.element) == said + [MessageSubscribed(s.nextSub, sub.element, message, key, sub.token)] + Through(p, sub.element);
    }
  }

  lemma SideSays(p: Process, m: Machine, b: NodeIx)
    ensures var o := SpawnSideToken(p, m, b); o.Ok? ==> o.m.ev == m.ev + Through(p, b)
  {
  }

  // ---- repairs

  function RepairSaid(incident: nat, n: NodeIx, d: Disposition, why: string): seq<Event> {
    match d
    case Retry(patch) => [IncidentRepaired(incident, n, RetryKind, None, None, why)] + PatchSaid(patch)
    case AdvancePast(patch, answer) => [IncidentRepaired(incident, n, AdvanceKind, None, answer, why)] + PatchSaid(patch)
    case Divert(code) => [IncidentRepaired(incident, n, DivertKind, code, None, why)]
    case Abandon => [IncidentRepaired(incident, n, AbandonKind, None, None, why)]
    case AbandonInstance => [IncidentRepaired(incident, n, AbandonInstanceKind, None, None, why)]
  }

  lemma TerminateSays(m: Machine)
    ensures Tells(m.ev, [InstanceTerminated], Terminate(m).ev)
  {
    hide Sorted;
    var open := set i | i in m.s.items && m.s.items[i].open;
    var m1 := CancelItems(m, open);
    assert Quietly(m.ev, m1.ev);
    WithdrawQuiet(m1, m.s.timers.Keys, m.s.subs.Keys);
    QuietThen(m.ev, m1.ev, Withdraw(m1, m.s.timers.Keys, m.s.subs.Keys).ev);
    QuietEnds(m.ev, Withdraw(m1, m.s.timers.Keys, m.s.subs.Keys).ev, [InstanceTerminated]);
  }

  lemma CompleteScopeSays(p: Process, m: Machine, scope: ScopeId)
    ensures var o := CompleteScope(p, m, scope); o.Ok? ==> exists n :: Tells(m.ev, Passed(p, n), o.m.ev)
  {
    hide WithdrawArms, LeaveSingle, Passed, Quietly, Tells;
    var closed := m.s.ScopeAt(scope);
    WithdrawArmsQuiet(DropScope(m, scope), closed.token);
    var m1 := WithdrawArms(DropScope(m, scope), closed.token);
    PassesSaying(p, m.ev, Unpark(m1, {closed.token}).(scope := closed.parent), closed.token, closed.element);
  }

  /** A repair: the incident by its number, the disposition with all it carries and
      the reason given, the patch if there is one, and the way on. */
  lemma RepairSays(p: Process, s: Instance, incident: nat, d: Disposition, why: string)
    ensures var o := OpenRepair(p, s, incident, d, why);
            var n := s.TokenAt(CauseOf(s)).node;
            var said := RepairSaid(incident, n, d, why);
            !o.Refused? ==>
              match d
              case Retry(_) => o.At().ev == said
              case AdvancePast(_, _) => o.At().ev == said + Passed(p, p.ResumePoint(n))
              case Divert(_) => exists b :: Tells(said, Through(p, b), o.At().ev)
              case Abandon => o.At().ev == said || exists up :: Tells(said, Passed(p, up), o.At().ev)
              case AbandonInstance => Tells(said, [InstanceTerminated], o.At().ev)
  {
    hide RepairRefusal, CauseOf, InterruptToBoundary, CompleteScope, ScopeIsEmpty, Terminate, Catcher, Tells, Through, Merge, Process.ResumePoint, Sorted;
    var parked := s.TokenAt(CauseOf(s));
    var m := Say(Idle(s), IncidentRepaired(incident, parked.node, d.Kind(), d.Code(), d.Answer(), why));
    var m1 := Patched(m, d.Patch());
    var m2 := m1.(s := m1.s.(status := Active), scope := parked.scope);
    assert m2.ev == RepairSaid(incident, parked.node, d, why);
    match d
    case Divert(code) =>
      match Catcher(p, m2.s.scopes, p.ResumePoint(parked.node), CauseOf(s), m2.scope, code) {
        case Some(caught) => InterruptSays(p, m2, caught.0, caught.1);
        case None =>
      }
    case Abandon => CompleteScopeSays(p, Unpark(m2, {CauseOf(s)}), m2.scope);
    case AbandonInstance => TerminateSays(m2);
    case _ =>
  }

  // ---- ends

  /** An end starts and completes; then the subprocess it was the last of is passed,
      or the instance is terminated, or nothing more is said. */
  lemma EndSays(p: Process, m: Machine, token: TokenId, n: NodeIx, via: Option<FlowIx>)
    requires p.KindOf(n).End? || p.KindOf(n).TerminateEnd?
    ensures var said := m.ev + [ElementStarted(n), ElementCompleted(n)];
            match Enter(p, m, token, n, via)
            case Ok(m') =>
              || m'.ev == said || (exists up :: Tells(said, Passed(p, up), m'.ev))
              || (p.KindOf(n).TerminateEnd? && m.scope == ROOT && Tells(said, [InstanceTerminated], m'.ev))
            case Poisoned(_) => true
  {
    hide CompleteScope, Terminate, TearDown, Tells, Quietly, ScopeIsEmpty;
    var m1 := Finished(Started(m, n), n);
    var said := m.ev + [ElementStarted(n), ElementCompleted(n)];
    assert m1.ev == said;
    CompleteScopeSays(p, m1, m.scope);
    TerminateSays(m1);
    TearDownQuiet(m1, m.scope);
    var torn := TearDown(m1, m.scope);
    CompleteScopeSays(p, torn, m.scope);
    if CompleteScope(p, torn, m.scope).Ok? {
      var up :| Tells(torn.ev, Passed(p, up), CompleteScope(p, torn, m.scope).m.ev);
      QuietTells(said, torn.ev, Passed(p, up), CompleteScope(p, torn, m.scope).m.ev);
    }
  }
}
