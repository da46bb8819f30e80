/** What every readable history says: rows opened once and closed at most once,
    incidents in number order, bounded cycles, the document as a forward fold. */
module Ledger {
  import opened Basics
  import opened Json
  import opened Compiled
  import opened State
  import opened Replay

  ghost predicate Readable(p: Process, ev: seq<Event>) {
    ReadAll(p, BLANK, ev).Some?
  }

  function BookAfter(p: Process, ev: seq<Event>): Book {
    ValueOr(ReadAll(p, BLANK, ev), BLANK)
  }

  lemma ReadableFront(p: Process, ev: seq<Event>)
    requires ev != [] && Readable(p, ev)
    ensures Readable(p, ev[..|ev| - 1])
    ensures Read(p, BookAfter(p, ev[..|ev| - 1]), ev[|ev| - 1]) == Some(BookAfter(p, ev))
  {
  }

  // ---- rows

  datatype Row = TimerRow(id: nat) | SubRow(id: nat) | ItemRow(id: nat)

  predicate Opens(e: Event, r: Row) {
    match e
    case TimerArmed(timer, _, _, _, _, _) => r == TimerRow(timer)
    case MessageSubscribed(sub, _, _, _, _) => r == SubRow(sub)
    case WorkItemCreated(item, _, _, _) => r == ItemRow(item)
    case _ => false
  }

  predicate Closes(e: Event, r: Row) {
    match e
    case TimerFired(timer, _) => r == TimerRow(timer)
    case TimerCancelled(timer, _) => r == TimerRow(timer)
    case MessageReceived(sub, _, _) => r == SubRow(sub)
    case SubscriptionCancelled(sub, _, _) => r == SubRow(sub)
    case WorkItemCompleted(item, _) => r == ItemRow(item)
    case WorkItemCancelled(item, _) => r == ItemRow(item)
    case WorkItemFailed(item, _, _) => r == ItemRow(item)
    case _ => false
  }

  predicate OpenIn(b: Book, r: Row) {
    match r
    case TimerRow(id) => id in b.timers
    case SubRow(id) => id in b.subs
    case ItemRow(id) => id in b.items
  }

  predicate MintedIn(b: Book, r: Row) {
    match r
    case TimerRow(id) => id < b.nextTimer
    case SubRow(id) => id < b.nextSub
    case ItemRow(id) => id < b.nextItem
  }

  function Times(ev: seq<Event>, that: Event -> bool): nat {
    if ev == [] then 0 else Times(ev[..|ev| - 1], that) + if that(ev[|ev| - 1]) then 1 else 0
  }

  /** An event opens the row, closes it, or leaves it. */
  ghost predicate Steps(b: Book, e: Event, r: Row, b1: Book) {
    && (Opens(e, r) ==> !MintedIn(b, r) && OpenIn(b1, r) && MintedIn(b1, r))
    && (Closes(e, r) ==> OpenIn(b, r) && !OpenIn(b1, r) && (MintedIn(b1, r) <==> MintedIn(b, r)))
    && (!Opens(e, r) && !Closes(e, r) ==> (OpenIn(b1, r) <==> OpenIn(b, r)) && (MintedIn(b1, r) <==> MintedIn(b, r)))
    && !(Opens(e, r) && Closes(e, r))
  }

  lemma TimerStep(p: Process, b: Book, e: Event, r: Row, b1: Book)
    requires Read(p, b, e) == Some(b1) && (OpenIn(b, r) ==> MintedIn(b, r)) && r.TimerRow?
    ensures Steps(b, e, r, b1)
  {
    hide Merge, Assign, Follows, NothingOpen, Process.KindOf, Process.ResumePoint;
  }

  lemma SubStep(p: Process, b: Book, e: Event, r: Row, b1: Book)
    requires Read(p, b, e) == Some(b1) && (OpenIn(b, r) ==> MintedIn(b, r)) && r.SubRow?
    ensures Steps(b, e, r, b1)
  {
    hide Merge, Assign, Follows, NothingOpen, Process.KindOf, Process.ResumePoint;
  }

  lemma ItemStep(p: Process, b: Book, e: Event, r: Row, b1: Book)
    requires Read(p, b, e) == Some(b1) && (OpenIn(b, r) ==> MintedIn(b, r)) && r.ItemRow?
    ensures Steps(b, e, r, b1)
  {
    hide Merge, Assign, Follows, NothingOpen, Process.KindOf, Process.ResumePoint;
  }

  lemma RowStep(p: Process, b: Book, e: Event, r: Row, b1: Book)
    requires Read(p, b, e) == Some(b1) && (OpenIn(b, r) ==> MintedIn(b, r))
    ensures Steps(b, e, r, b1)
  {
    hide Read, Steps;
    match r
    case TimerRow(_) => TimerStep(p, b, e, r, b1);
    case SubRow(_) => SubStep(p, b, e, r, b1);
    case ItemRow(_) => ItemStep(p, b, e, r, b1);
  }

  /** A row is opened at most once, closed at most once and only after, and is
      open exactly between. */
  lemma {:induction false} RowLife(p: Process, ev: seq<Event>, r: Row)
    requires Readable(p, ev)
    ensures var opens, closes := Times(ev, e => Opens(e, r)), Times(ev, e => Closes(e, r));
            && closes <= opens <= 1
            && (opens == 1 <==> MintedIn(BookAfter(p, ev), r))
            && (opens - closes == 1 <==> OpenIn(BookAfter(p, ev), r))
  {
    if ev == [] {
    } else {
      ReadableFront(p, ev);
      var front, last := ev[..|ev| - 1], ev[|ev| - 1];
      hide Read, ReadAll;
      RowLife(p, front, r);
      RowStep(p, BookAfter(p, front), last, r, BookAfter(p, ev));
    }
  }

  // ---- incidents

  datatype Entry = Raised(incident: nat) | Repaired(incident: nat)

  function IncidentLog(ev: seq<Event>): seq<Entry> {
    if ev == [] then []
    else
      var front := IncidentLog(ev[..|ev| - 1]);
      match ev[|ev| - 1]
      case IncidentRaised(_, _, _, n) => front + [Raised(n)]
      case IncidentRepaired(n, _, _, _, _, _) => front + [Repaired(n)]
      case _ => front
  }

  /** Raised and repaired in turn, numbered without a gap. */
  predicate Alternates(log: seq<Entry>) {
    forall i :: 0 <= i < |log| ==> log[i] == if i % 2 == 0 then Raised(i / 2) else Repaired(i / 2)
  }

  lemma IncidentStep(p: Process, b: Book, e: Event, b1: Book)
    requires Read(p, b, e) == Some(b1) && (b.status.Failed? ==> b.incidents > 0)
    ensures match e
            case IncidentRaised(_, _, _, n) => !b.status.Failed? && n == b.incidents && b1.incidents == b.incidents + 1 && b1.status.Failed?
            case IncidentRepaired(n, _, _, _, _, _) => b.status.Failed? && n + 1 == b.incidents && b1.incidents == b.incidents && !b1.status.Failed?
            case _ => b1.incidents == b.incidents && (b1.status.Failed? <==> b.status.Failed?)
  {
  }

  /** Incidents are numbered 0, 1, 2, … without a gap, and each is repaired at
      most once, after it was raised and before the next one is. */
  lemma {:induction false} IncidentsInOrder(p: Process, ev: seq<Event>)
    requires Readable(p, ev)
    ensures var log := IncidentLog(ev);
            && Alternates(log)
            && |log| == 2 * BookAfter(p, ev).incidents - (if BookAfter(p, ev).status.Failed? then 1 else 0)
            && (BookAfter(p, ev).status.Failed? ==> BookAfter(p, ev).incidents > 0)
  {
    if ev == [] {
    } else {
      ReadableFront(p, ev);
      var front, last := ev[..|ev| - 1], ev[|ev| - 1];
      hide Read, ReadAll;
      IncidentsInOrder(p, front);
      IncidentStep(p, BookAfter(p, front), last, BookAfter(p, ev));
    }
  }

  // ---- the document

  /** The document as the writes alone make it, in event order. */
  function Document(p: Process, ev: seq<Event>): Value {
    if ev == [] then Null
    else
      Written(p, Document(p, ev[..|ev| - 1]), ev[|ev| - 1])
  }

  /** What one event writes. */
  function Written(p: Process, v: Value, e: Event): Value {
    match e
    case InstanceStarted(variables) => variables
    case VariablesPatched(patch) => Merge(v, patch)
    case DecisionEvaluated(element, result, _) => p.Bind(element, Some(result), v)
    case IncidentRepaired(_, element, _, _, answer, _) => p.Bind(p.ResumePoint(element), answer, v)
    case _ => v
  }

  lemma ReadWrites(p: Process, b: Book, e: Event, b1: Book)
    requires Read(p, b, e) == Some(b1)
    ensures b1.variables == Written(p, b.variables, e)
  {
    hide Merge, Assign, Follows, NothingOpen, Process.ResumePoint;
  }

  lemma {:induction false} DocumentIsFold(p: Process, ev: seq<Event>)
    requires Readable(p, ev)
    ensures BookAfter(p, ev).variables == Document(p, ev)
  {
    hide ReadAll, Read, Written;
    if ev == [] {
      NothingRead(p);
    } else {
      ReadableFront(p, ev);
      DocumentIsFold(p, ev[..|ev| - 1]);
      ReadWrites(p, BookAfter(p, ev[..|ev| - 1]), ev[|ev| - 1], BookAfter(p, ev));
    }
  }

  lemma NothingRead(p: Process)
    ensures ReadAll(p, BLANK, []) == Some(BLANK)
  {
  }

  // ---- cycles

  /** The chains of timers a history has run: the first timer of every timer's
      chain, what that chain was armed with, and how often it has fired. */
  datatype Chains = Chains(roots: map<TimerId, TimerId>, dues: map<TimerId, TimerDue>, fires: map<TimerId, nat>)

  function RootOf(c: Chains, k: TimerId): TimerId { if k in c.roots then c.roots[k] else k }
  function FiresOf(c: Chains, root: TimerId): nat { if root in c.fires then c.fires[root] else 0 }

  function Link(c: Chains, e: Event): Chains {
    match e
    case TimerArmed(k, _, due, _, continues, _) =>
      (match continues
       case Some(j) => c.(roots := c.roots[k := RootOf(c, j)])
       case None => c.(roots := c.roots[k := k], dues := c.dues[k := due]))
    case TimerFired(k, _) => Fire(c, k)
    case _ => c
  }

  function Fire(c: Chains, k: TimerId): Chains {
    c.(fires := c.fires[RootOf(c, k) := FiresOf(c, RootOf(c, k)) + 1])
  }

  function ChainsOf(ev: seq<Event>): Chains {
    if ev == [] then Chains(map[], map[], map[]) else Link(ChainsOf(ev[..|ev| - 1]), ev[|ev| - 1])
  }

  /** How often a chain may fire: a cycle as often as it repeats, but once at
      least; anything else once. */
  function Limit(p: Process, due: TimerDue): Option<nat> {
    if !due.Cycle? then Some(1)
    else match p.repeats(due.text)
      case None => None
      case Some(n) => Some(if n == 0 then 1 else n)
  }

  /** An armed timer of a chain that has fired `fires` times. */
  ghost predicate Counts(p: Process, t: Timer, due: TimerDue, fires: nat) {
    && t.due == due
    && (!due.Cycle? ==> t.remaining.None? && fires == 0)
    && (due.Cycle? ==>
          match p.repeats(due.text)
          case None => t.remaining.None?
          case Some(n) =>
            match t.remaining
            case Some(left) => left + fires == n && (fires > 0 ==> left > 0)
            case None => false)
  }

  ghost predicate Bounded(p: Process, due: TimerDue, fires: nat) {
    match Limit(p, due)
    case Some(n) => fires <= n
    case None => true
  }

  /** `t` counts right in its chain, `ago` fires ago. */
  ghost predicate InChain(p: Process, c: Chains, k: TimerId, t: Timer, ago: nat) {
    && k in c.roots && c.roots[k] in c.dues && FiresOf(c, c.roots[k]) >= ago
    && Counts(p, t, c.dues[c.roots[k]], FiresOf(c, c.roots[k]) - ago)
  }

  ghost predicate Chained(p: Process, b: Book, c: Chains) {
    && (forall k :: k in c.roots ==> k < b.nextTimer)
    && (forall k :: k in c.dues ==> k < b.nextTimer)
    && (forall k :: k in c.fires ==> k in c.dues)
    && (forall k :: k in b.timers ==> InChain(p, c, k, b.timers[k], 0))
    && (forall j, k :: j in b.timers && k in b.timers && c.roots[j] == c.roots[k] ==> j == k)
    && (b.fired.Some? ==>
          var (j, t) := b.fired.value;
          && InChain(p, c, j, t, 1)
          && (forall k :: k in b.timers ==> c.roots[k] != c.roots[j]))
    && (forall r :: r in c.dues ==> Bounded(p, c.dues[r], FiresOf(c, r)))
  }

  /** An arming, read: the row in the book, under the number that was next. */
  predicate Arms(p: Process, b: Book, b1: Book, k: TimerId, t: Timer, continues: Option<TimerId>) {
    && k == b.nextTimer && Follows(p, b.fired, t, continues)
    && b1 == b.(fired := None, timers := b.timers[k := t], nextTimer := k + 1)
  }

  lemma ArmedReads(p: Process, b: Book, e: Event, b1: Book)
    requires Read(p, b, e) == Some(b1)
    ensures match e
            case TimerArmed(k, n, due, token, continues, remaining) => Arms(p, b, b1, k, Timer(n, token, due, remaining), continues)
            case _ => true
  {
  }

  /** Chains of other timers are untouched by a new root. */
  lemma NewRoot(p: Process, c: Chains, k: TimerId, t: Timer, n: TimerId, root: TimerId)
    requires InChain(p, c, k, t, 0) && k != n
    ensures InChain(p, c.(roots := c.roots[n := root]), k, t, 0)
  {
  }

  lemma NewChain(p: Process, c: Chains, k: TimerId, t: Timer, n: TimerId, due: TimerDue)
    requires InChain(p, c, k, t, 0) && k != n && n !in c.dues
    ensures InChain(p, c.(roots := c.roots[n := n], dues := c.dues[n := due]), k, t, 0)
  {
  }

  lemma ChainStarts(p: Process, c: Chains, n: TimerId, t: Timer)
    requires t.remaining == (if t.due.Cycle? then p.repeats(t.due.text) else None) && n !in c.fires
    ensures InChain(p, c.(roots := c.roots[n := n], dues := c.dues[n := t.due]), n, t, 0)
    ensures Bounded(p, t.due, 0)
  {
  }

  lemma ChainsKnown(p: Process, b: Book, c: Chains)
    requires Chained(p, b, c)
    ensures forall k :: k in b.timers ==> k in c.roots && c.roots[k] in c.dues && k < b.nextTimer && c.roots[k] < b.nextTimer
  {
  }

  lemma FirstArmed(p: Process, b: Book, b1: Book, c: Chains, n: TimerId, t: Timer)
    requires Chained(p, b, c) && Arms(p, b, b1, n, t, None)
    ensures Chained(p, b1, c.(roots := c.roots[n := n], dues := c.dues[n := t.due]))
  {
    hide InChain, Bounded;
    ChainsKnown(p, b, c);
    forall k | k in b.timers ensures InChain(p, c.(roots := c.roots[n := n], dues := c.dues[n := t.due]), k, b.timers[k], 0) {
      NewChain(p, c, k, b.timers[k], n, t.due);
    }
    ChainStarts(p, c, n, t);
  }

  lemma ChainIn(p: Process, c: Chains, k: TimerId, t: Timer, ago: nat)
    requires InChain(p, c, k, t, ago)
    ensures k in c.roots && c.roots[k] in c.dues
  {
  }

  /** The next occurrence counts on from the one that fired. */
  lemma ChainGoesOn(p: Process, c: Chains, j: TimerId, t: Timer, n: TimerId, next: Timer)
    requires InChain(p, c, j, t, 1) && Follows(p, Some((j, t)), next, Some(j)) && n != j
    ensures InChain(p, c.(roots := c.roots[n := c.roots[j]]), n, next, 0)
  {
  }

  lemma NextArmed(p: Process, b: Book, b1: Book, c: Chains, n: TimerId, t: Timer, j: TimerId)
    requires Chained(p, b, c) && Arms(p, b, b1, n, t, Some(j))
    ensures Chained(p, b1, c.(roots := c.roots[n := RootOf(c, j)]))
  {
    hide InChain, Bounded;
    ChainsKnown(p, b, c);
    var before := b.fired.value.1;
    ChainIn(p, c, j, before, 1);
    ChainGoesOn(p, c, j, before, n, t);
    hide Follows;
    forall k | k in b.timers ensures InChain(p, c.(roots := c.roots[n := c.roots[j]]), k, b.timers[k], 0) {
      NewRoot(p, c, k, b.timers[k], n, c.roots[j]);
    }
  }

  /** A fire, read: the row out of the book, and remembered. */
  predicate Fires(b: Book, b1: Book, k: TimerId) {
    k in b.timers && b1 == b.(fired := Some((k, b.timers[k])), timers := b.timers - {k})
  }

  lemma FiredReads(p: Process, b: Book, e: Event, b1: Book)
    requires Read(p, b, e) == Some(b1)
    ensures match e case TimerFired(k, _) => Fires(b, b1, k) case _ => true
  {
  }

  lemma OtherFires(p: Process, c: Chains, n: TimerId, k: TimerId, t: Timer)
    requires InChain(p, c, k, t, 0) && RootOf(c, k) != RootOf(c, n)
    ensures InChain(p, Fire(c, n), k, t, 0)
  {
  }

  lemma OwnFires(p: Process, c: Chains, k: TimerId, t: Timer)
    requires InChain(p, c, k, t, 0)
    ensures InChain(p, Fire(c, k), k, t, 1) && Bounded(p, c.dues[c.roots[k]], FiresOf(Fire(c, k), c.roots[k]))
  {
  }

  lemma TimerFires(p: Process, b: Book, b1: Book, c: Chains, n: TimerId)
    requires Chained(p, b, c) && Fires(b, b1, n)
    ensures Chained(p, b1, Fire(c, n))
  {
    hide InChain, Bounded;
    ChainsKnown(p, b, c);
    OwnFires(p, c, n, b.timers[n]);
    forall k | k in b.timers && k != n ensures InChain(p, Fire(c, n), k, b.timers[k], 0) && c.roots[k] != c.roots[n] {
      OtherFires(p, c, n, k, b.timers[k]);
    }
  }

  lemma TimersLeft(p: Process, b: Book, b1: Book, c: Chains)
    requires Chained(p, b, c) && b1.fired.None? && b1.nextTimer == b.nextTimer
    requires forall k :: k in b1.timers ==> k in b.timers && b1.timers[k] == b.timers[k]
    ensures Chained(p, b1, c)
  {
    hide InChain, Bounded;
  }

  lemma LinkKeeps(p: Process, b: Book, e: Event, c: Chains, b1: Book)
    requires Chained(p, b, c) && Read(p, b, e) == Some(b1)
    ensures Chained(p, b1, Link(c, e))
  {
    hide Chained, Arms, Fire;
    match e
    case TimerArmed(k, n, due, token, continues, remaining) =>
      hide Read;
      ArmedReads(p, b, e, b1);
      match continues {
        case None => FirstArmed(p, b, b1, c, k, Timer(n, token, due, remaining));
        case Some(j) => NextArmed(p, b, b1, c, k, Timer(n, token, due, remaining), j);
      }
    case TimerFired(k, _) =>
      hide Read;
      FiredReads(p, b, e, b1);
      TimerFires(p, b, b1, c, k);
    case _ => TimersLeft(p, b, b1, c);
  }

  /** No chain fires more often than it may, and no two timers of one chain are
      armed at a time; an armed one has as many fires left as are missing. */
  lemma {:induction false} CyclesBounded(p: Process, ev: seq<Event>)
    requires Readable(p, ev)
    ensures Chained(p, BookAfter(p, ev), ChainsOf(ev))
  {
    hide ReadAll, Chained;
    if ev == [] {
      NothingRead(p);
      NoChains(p);
    } else {
      ReadableFront(p, ev);
      hide Read, Link;
      CyclesBounded(p, ev[..|ev| - 1]);
      LinkKeeps(p, BookAfter(p, ev[..|ev| - 1]), ev[|ev| - 1], ChainsOf(ev[..|ev| - 1]), BookAfter(p, ev));
    }
  }

  lemma NoChains(p: Process)
    ensures Chained(p, BLANK, Chains(map[], map[], map[]))
  {
  }
}
