/** Reading a history: what its events alone say is left to do. The reader is
    strict: it stops at an event no history can hold. */
module Replay {
  import opened Basics
  import opened Json
  import opened Compiled
  import opened State

  datatype Work = Work(element: NodeIx, work: WorkKind, topic: string)

  /** What a reader knows: the document, and everything still open. */
  datatype Book = Book(
    status: Status,
    variables: Value,
    items: map<ItemId, Work>,
    timers: map<TimerId, Timer>,
    subs: map<SubId, Sub>,
    nextItem: nat,
    nextTimer: nat,
    nextSub: nat,
    incidents: nat,
    // The timer the last event fired: only the very next event may continue it.
    fired: Option<(TimerId, Timer)>)

  const BLANK := Book(Created, Null, map[], map[], map[], 0, 0, 0, 0, None)

  function CloseWork(b: Book, item: ItemId, element: NodeIx): Option<Book> {
    if item in b.items && b.items[item].element == element then Some(b.(items := b.items - {item})) else None
  }

  function CloseSub(b: Book, sub: SubId, element: NodeIx, message: string): Option<Book> {
    if sub in b.subs && b.subs[sub].element == element && b.subs[sub].message == message
    then Some(b.(subs := b.subs - {sub})) else None
  }

  function CloseTimer(b: Book, timer: TimerId, element: NodeIx): Option<Book> {
    if timer in b.timers && b.timers[timer].element == element then Some(b.(timers := b.timers - {timer})) else None
  }

  /** A first arm carries the cycle's own repeats; the next occurrence follows
      the fire it continues at once, with one repeat fewer and some left. */
  predicate Follows(p: Process, fired: Option<(TimerId, Timer)>, timer: Timer, continues: Option<TimerId>) {
    match continues
    case None => timer.remaining == if timer.due.Cycle? then p.repeats(timer.due.text) else None
    case Some(k) =>
      && fired.Some? && fired.value.0 == k && timer.due.Cycle?
      && var before := fired.value.1;
         && timer == before.(remaining := timer.remaining)
         && (before.remaining.None? ==> timer.remaining.None?)
         && (before.remaining.Some? ==> before.remaining.value > 1 && timer.remaining == Some(before.remaining.value - 1))
  }

  predicate NothingOpen(b: Book) {
    b.items == map[] && b.timers == map[] && b.subs == map[]
  }

  function Read(p: Process, before: Book, e: Event): Option<Book> {
    var b := before.(fired := None);
    match e
    case InstanceStarted(variables) =>
      if b.status.Created? then Some(b.(status := Active, variables := variables)) else None
    case InstanceCompleted =>
      if b.status.Active? && NothingOpen(b) then Some(b.(status := Completed)) else None
    case InstanceTerminated =>
      if b.status.Active? && NothingOpen(b) then Some(b.(status := Terminated)) else None
    case WorkItemCreated(item, element, work, topic) =>
      if item == b.nextItem then Some(b.(items := b.items[item := Work(element, work, topic)], nextItem := item + 1)) else None
    case WorkItemCompleted(item, element) => CloseWork(b, item, element)
    case WorkItemCancelled(item, element) => CloseWork(b, item, element)
    case WorkItemFailed(item, element, _) => CloseWork(b, item, element)
    case TimerArmed(timer, element, due, token, continues, remaining) =>
      var armed := Timer(element, token, due, remaining);
      if timer == b.nextTimer && Follows(p, before.fired, armed, continues)
      then Some(b.(timers := b.timers[timer := armed], nextTimer := timer + 1)) else None
    case TimerFired(timer, element) =>
      (match CloseTimer(b, timer, element)
       case Some(closed) => Some(closed.(fired := Some((timer, b.timers[timer]))))
       case None => None)
    case TimerCancelled(timer, element) => CloseTimer(b, timer, element)
    case MessageSubscribed(sub, element, message, key, token) =>
      if sub == b.nextSub && forall k :: k in b.subs ==> !(b.subs[k].message == message && b.subs[k].key == key)
      then Some(b.(subs := b.subs[sub := Sub(element, token, message, key)], nextSub := sub + 1)) else None
    case MessageReceived(sub, element, message) => CloseSub(b, sub, element, message)
    case SubscriptionCancelled(sub, element, message) => CloseSub(b, sub, element, message)
    case VariablesPatched(patch) => Some(b.(variables := Merge(b.variables, patch)))
    case DecisionEvaluated(element, result, _) =>
      if p.KindOf(element).BusinessRule? then Some(b.(variables := Assign(b.variables, p.ResultPath(element), result))) else None
    case IncidentRaised(_, _, _, incident) =>
      if b.status.Active? && incident == b.incidents then Some(b.(status := Failed, incidents := incident + 1)) else None
    case IncidentRepaired(incident, element, _, _, answer, _) =>
      if b.status.Failed? && incident + 1 == b.incidents then
        Some(b.(status := Active, variables := p.Bind(p.ResumePoint(element), answer, b.variables)))
      else None
    case _ => Some(b)
  }

  function ReadAll(p: Process, b: Book, ev: seq<Event>): Option<Book> {
    if ev == [] then Some(b)
    else
      match ReadAll(p, b, ev[..|ev| - 1])
      case Some(front) => Read(p, front, ev[|ev| - 1])
      case None => None
  }

  lemma {:induction false} ReadOn(p: Process, b: Book, x: seq<Event>, y: seq<Event>)
    ensures ReadAll(p, b, x + y)
         == match ReadAll(p, b, x) case Some(c) => ReadAll(p, c, y) case None => None
  {
    if y == [] {
      assert x + y == x;
    } else {
      ReadOn(p, b, x, y[..|y| - 1]);
      assert (x + y)[..|x + y| - 1] == x + y[..|y| - 1];
    }
  }

  lemma ReadOne(p: Process, b: Book, e: Event)
    ensures ReadAll(p, b, [e]) == Read(p, b, e)
  {
    assert [e][..0] == [];
  }
}
