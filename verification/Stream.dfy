/** The event stream: transactions take their id at the first write and row ids
    at insert, and commit in any order; a reader stops at the oldest transaction
    still running; retention deletes, and moves a floor.

    One arbitrary reader is watched: readers leave nothing behind in the database. */
module Stream {
  import opened Basics

  type SessionId = nat
  type InstanceId = nat

  /** A position in the stream, as a caller sends it: of any sign. */
  datatype Cursor = Cursor(txid: int, id: int)

  const ZERO := Cursor(0, 0)
  const PAGE := 1000

  predicate Before(a: Cursor, b: Cursor) {
    a.txid < b.txid || (a.txid == b.txid && a.id < b.id)
  }

  predicate AtMost(a: Cursor, b: Cursor) { a == b || Before(a, b) }

  datatype Row = Row(txid: nat, id: nat, instance: InstanceId) {
    function At(): Cursor { Cursor(txid, id) }
  }

  /** A transaction: its id once it has written, the instance rows it has locked,
      what it inserted, and the instances it retires. */
  datatype Session = Session(xid: Option<nat>, locks: set<InstanceId>, pending: seq<Row>, retiring: set<InstanceId>)

  datatype Db = Db(sessions: map<SessionId, Session>, rows: set<Row>, floor: Cursor, nextXid: nat, nextId: nat)

  // ---- the read, one statement on one snapshot

  /** Every transaction below the horizon has ended. */
  ghost predicate IsHorizon(db: Db, h: nat) {
    && h <= db.nextXid
    && (forall t :: t in db.sessions && db.sessions[t].xid.Some? ==> h <= db.sessions[t].xid.value)
    && (h == db.nextXid || exists t :: t in db.sessions && db.sessions[t].xid == Some(h))
  }

  function Xids(db: Db): set<nat> {
    set t | t in db.sessions && db.sessions[t].xid.Some? :: db.sessions[t].xid.value
  }

  /** The oldest transaction still running, else the next one. */
  function Horizon(db: Db): nat {
    var running := Sorted(Xids(db));
    if running == [] then db.nextXid else running[0]
  }

  ghost predicate XidsOk(db: Db) {
    forall t :: t in db.sessions && db.sessions[t].xid.Some? ==> db.sessions[t].xid.value < db.nextXid
  }

  lemma HorizonIs(db: Db)
    requires XidsOk(db)
    ensures IsHorizon(db, Horizon(db))
  {
    var running := Sorted(Xids(db));
    assert forall x :: x in Xids(db) <==> x in running;
    forall t | t in db.sessions && db.sessions[t].xid.Some? ensures Horizon(db) <= db.sessions[t].xid.value {
      assert db.sessions[t].xid.value in Xids(db);
      var i :| 0 <= i < |running| && running[i] == db.sessions[t].xid.value;
    }
    if running != [] {
      assert running[0] in running;
      var t :| t in db.sessions && db.sessions[t].xid.Some? && db.sessions[t].xid.value == running[0];
    }
  }

  function Eligible(db: Db, after: Cursor): set<Row> {
    set r | r in db.rows && Before(after, r.At()) && r.txid < Horizon(db)
  }

  ghost predicate FirstRow(S: set<Row>, r: Row) {
    r in S && forall q :: q in S ==> AtMost(r.At(), q.At())
  }

  ghost predicate Apart(S: set<Row>) {
    forall r, q :: r in S && q in S && r.At() == q.At() ==> r == q
  }

  lemma HasFirst(S: set<Row>)
    requires S != {}
    ensures exists r :: FirstRow(S, r)
    decreases |S|
  {
    var r :| r in S;
    if S == {r} {
      assert FirstRow(S, r);
    } else {
      HasFirst(S - {r});
      var q :| FirstRow(S - {r}, q);
      assert FirstRow(S, if AtMost(r.At(), q.At()) then r else q);
    }
  }

  /** The first `limit` of `S`, in (txid, id) order. */
  ghost function PageOf(S: set<Row>, limit: nat): seq<Row>
    decreases limit
  {
    if limit == 0 || S == {} then []
    else
      HasFirst(S);
      var r :| FirstRow(S, r);
      [r] + PageOf(S - {r}, limit - 1)
  }

  datatype ReadResult = Page(records: seq<Row>) | BadCursor | BadLimit | NoFloor | Truncated(cursor: Cursor, floor: Cursor)

  /** `floor` is what the floor table holds: nothing, if its row is gone. */
  ghost function ReadEvents(db: Db, floor: Option<Cursor>, after: Cursor, limit: nat): ReadResult {
    if after.txid < 0 || after.id < 0 then BadCursor
    else if limit == 0 then BadLimit
    else if floor.None? then NoFloor
    else if after != ZERO && Before(after, floor.value) then Truncated(after, floor.value)
    else Page(PageOf(Eligible(db, after), if limit < PAGE then limit else PAGE))
  }

  // ---- what a page holds

  ghost predicate Ordered(rows: seq<Row>) {
    forall i, j :: 0 <= i < j < |rows| ==> Before(rows[i].At(), rows[j].At())
  }

  /** In strictly increasing order, and with nothing of `S` left out before its end. */
  lemma {:induction false} PageIs(S: set<Row>, limit: nat)
    requires Apart(S)
    ensures var page := PageOf(S, limit);
            && Ordered(page) && |page| <= limit
            && (forall r :: r in page ==> r in S)
            && (forall r, q :: r in S && q in page && AtMost(r.At(), q.At()) ==> r in page)
            && (|page| < limit ==> forall r :: r in S ==> r in page)
    decreases limit
  {
    if limit == 0 || S == {} {
    } else {
      var page := PageOf(S, limit);
      var r := page[0];
      assert FirstRow(S, r) by { HasFirst(S); }
      var rest := PageOf(S - {r}, limit - 1);
      assert page == [r] + rest;
      PageIs(S - {r}, limit - 1);
      hide PageOf;
      forall q | q in rest ensures Before(r.At(), q.At()) {
      }
    }
  }

  // ---- interleavings

  /** The database, the reader, and what is remembered to say what they promise. */
  datatype World = World(
    db: Db,
    // Every cursor the reader may resume from: zero, or a returned record's; with
    // the floor of the read that began it.
    released: set<(Cursor, Cursor)>,
    received: set<Row>,
    // Everything ever committed, and each instance's events in the order of its steps.
    ever: set<Row>,
    story: map<InstanceId, seq<Row>>)

  datatype Action =
    | Begin(t: SessionId)
    | Write(t: SessionId)
    | Lock(t: SessionId, instance: InstanceId)
    | Insert(t: SessionId, instance: InstanceId)
    | Retire(t: SessionId, instance: InstanceId)
    | Commit(t: SessionId)
    | Abort(t: SessionId)
    | ReadFrom(after: Cursor, limit: nat)

  const NEW_WORLD := World(Db(map[], {}, ZERO, 1, 1), {}, {}, {}, map[])

  function Story(story: map<InstanceId, seq<Row>>, instance: InstanceId): seq<Row> {
    if instance in story then story[instance] else []
  }

  function WithXid(db: Db, t: SessionId): Db
    requires t in db.sessions
  {
    if db.sessions[t].xid.Some? then db
    else db.(sessions := db.sessions[t := db.sessions[t].(xid := Some(db.nextXid))], nextXid := db.nextXid + 1)
  }

  predicate Locked(db: Db, instance: InstanceId) {
    exists t :: t in db.sessions && instance in db.sessions[t].locks
  }

  predicate Enabled(w: World, a: Action) {
    match a
    case Begin(t) => t !in w.db.sessions
    case Write(t) => t in w.db.sessions
    case Lock(t, i) => t in w.db.sessions && !Locked(w.db, i)
    case Insert(t, i) => t in w.db.sessions && i in w.db.sessions[t].locks && i !in w.db.sessions[t].retiring
    case Retire(t, i) =>
      t in w.db.sessions && i in w.db.sessions[t].locks && forall r :: r in w.db.sessions[t].pending ==> r.instance != i
    case Commit(t) => t in w.db.sessions
    case Abort(t) => t in w.db.sessions
    case ReadFrom(after, _) => after == ZERO || exists f :: f in w.released && f.0 == after
  }

  /** The rows a session deletes when it commits. */
  function Gone(db: Db, s: Session): set<Row> {
    set r | r in db.rows && r.instance in s.retiring
  }

  /** The floor after a deletion: the highest position deleted, if it is higher. */
  ghost predicate FloorAfter(floor: Cursor, gone: set<Row>, next: Cursor) {
    && AtMost(floor, next) && (forall r :: r in gone ==> AtMost(r.At(), next))
    && (next == floor || exists r :: r in gone && r.At() == next)
  }

  function Raised(floor: Cursor, top: Cursor): Cursor { if Before(floor, top) then top else floor }

  ghost predicate LastRow(S: set<Row>, r: Row) {
    r in S && forall q :: q in S ==> AtMost(q.At(), r.At())
  }

  lemma HasLast(S: set<Row>)
    requires S != {}
    ensures exists r :: LastRow(S, r)
    decreases |S|
  {
    var r :| r in S;
    if S == {r} {
      assert LastRow(S, r);
    } else {
      HasLast(S - {r});
      var q :| LastRow(S - {r}, q);
      assert LastRow(S, if AtMost(q.At(), r.At()) then r else q);
    }
  }

  ghost function NewFloor(floor: Cursor, gone: set<Row>): (next: Cursor)
    ensures FloorAfter(floor, gone, next)
  {
    if gone == {} then floor
    else
      HasLast(gone);
      var r :| LastRow(gone, r);
      Raised(floor, r.At())
  }

  function OfInstance(rows: seq<Row>, i: InstanceId): seq<Row> {
    if rows == [] then []
    else
      var front := OfInstance(rows[..|rows| - 1], i);
      if rows[|rows| - 1].instance == i then front + [rows[|rows| - 1]] else front
  }

  ghost function Committed(w: World, t: SessionId): World
    requires t in w.db.sessions
  {
    var s := w.db.sessions[t];
    var added := set r | r in s.pending;
    var gone := Gone(w.db, s);
    w.(db := w.db.(sessions := w.db.sessions - {t}, rows := w.db.rows - gone + added, floor := NewFloor(w.db.floor, gone)),
       ever := w.ever + added,
       story := map i | i in w.story.Keys + s.locks :: Story(w.story, i) + OfInstance(s.pending, i))
  }

  /** The cursors a page hands out, each with the floor its reader began at. */
  function Handed(page: seq<Row>, known: set<(Cursor, Cursor)>, after: Cursor): set<(Cursor, Cursor)> {
    set r, k | r in page && k in known && k.0 == after :: (r.At(), k.1)
  }

  ghost function Delivered(w: World, after: Cursor, limit: nat): World {
    var result := ReadEvents(w.db, Some(w.db.floor), after, limit);
    if !result.Page? then w
    else
      w.(received := w.received + (set r | r in result.records),
         released := w.released + Handed(result.records, w.released + {(ZERO, w.db.floor)}, after))
  }

  ghost function Then(w: World, a: Action): World
    requires Enabled(w, a)
  {
    var db := w.db;
    match a
    case Begin(t) => w.(db := db.(sessions := db.sessions[t := Session(None, {}, [], {})]))
    case Write(t) => w.(db := WithXid(db, t))
    case Lock(t, i) => w.(db := db.(sessions := db.sessions[t := db.sessions[t].(locks := db.sessions[t].locks + {i})]))
    case Insert(t, i) =>
      var db1 := WithXid(db, t);
      var s := db1.sessions[t];
      w.(db := db1.(sessions := db1.sessions[t := s.(pending := s.pending + [Row(s.xid.value, db1.nextId, i)])], nextId := db1.nextId + 1))
    case Retire(t, i) =>
      var db1 := WithXid(db, t);
      w.(db := db1.(sessions := db1.sessions[t := db1.sessions[t].(retiring := db1.sessions[t].retiring + {i})]))
    case Commit(t) => Committed(w, t)
    case Abort(t) => w.(db := db.(sessions := db.sessions - {t}))
    case ReadFrom(after, limit) => Delivered(w, after, limit)
  }

  // ---- what every interleaving keeps

  ghost predicate Rising(rows: seq<Row>) {
    forall i, j :: 0 <= i < j < |rows| ==> rows[i].id < rows[j].id
  }

  ghost predicate SessionOk(db: Db, s: Session) {
    && (s.xid.Some? ==> 1 <= s.xid.value < db.nextXid)
    && (s.pending != [] || s.retiring != {} ==> s.xid.Some?)
    && (forall r :: r in s.pending ==>
          s.xid == Some(r.txid) && r.instance in s.locks && r.instance !in s.retiring && 1 <= r.id < db.nextId)
    && Rising(s.pending) && s.retiring <= s.locks
  }

  /** A transaction id is one transaction's, a locked instance one session's. */
  ghost predicate SessionsOk(db: Db) {
    && 1 <= db.nextXid && 1 <= db.nextId
    && (forall t :: t in db.sessions ==> SessionOk(db, db.sessions[t]))
    && (forall t, u :: t in db.sessions && u in db.sessions && t != u ==>
          && db.sessions[t].locks !! db.sessions[u].locks
          && (db.sessions[t].xid.Some? ==> db.sessions[t].xid != db.sessions[u].xid))
  }

  /** Positions are never given twice; what is gone lies at or below the floor. */
  ghost predicate RowsOk(w: World) {
    && w.db.rows <= w.ever && Apart(w.ever)
    && (forall r :: r in w.ever ==> 1 <= r.txid < w.db.nextXid && 1 <= r.id < w.db.nextId)
    && (forall t, r :: t in w.db.sessions && r in w.ever ==> w.db.sessions[t].xid != Some(r.txid))
    && (forall r :: r in w.ever && r !in w.db.rows ==> AtMost(r.At(), w.db.floor))
  }

  /** Each instance's events, by ascending id, are in the order of its steps. */
  ghost predicate StoryOk(w: World) {
    && (forall i :: Rising(Story(w.story, i)))
    && Tells(w.story, w.ever)
    && (forall t, r, q :: t in w.db.sessions && r in w.db.sessions[t].pending && q in Story(w.story, r.instance) ==> q.id < r.id)
  }

  ghost predicate Tells(story: map<InstanceId, seq<Row>>, ever: set<Row>) {
    forall i, r :: r in Story(story, i) <==> r in ever && r.instance == i
  }

  /** Nothing running, and nothing to come, can write behind a released cursor. */
  ghost predicate FrontierOk(w: World) {
    forall f :: f in w.released ==>
      && 0 < f.0.txid < w.db.nextXid
      && forall t :: t in w.db.sessions && w.db.sessions[t].xid.Some? ==> f.0.txid < w.db.sessions[t].xid.value
  }

  /** Everything at or below a released cursor has been received: of what is still
      there, all of it; of what ever was, all that lies above the floor the reader
      began at. */
  ghost predicate DeliveredOk(w: World) {
    && w.received <= w.ever
    && (forall f, r :: f in w.released && r in w.db.rows && AtMost(r.At(), f.0) ==> r in w.received)
    && (forall f, r :: f in w.released && r in w.ever && Before(f.1, r.At()) && AtMost(r.At(), f.0) ==> r in w.received)
  }

  ghost predicate Sound(w: World) {
    SessionsOk(w.db) && RowsOk(w) && StoryOk(w) && FrontierOk(w) && DeliveredOk(w)
  }

  /** Only sessions change, and none of them gains a row. */
  ghost predicate Unmoved(db: Db, db1: Db) {
    && db1.rows == db.rows && db1.floor == db.floor && db1.nextXid >= db.nextXid && db1.nextId == db.nextId
    && (forall t :: t in db1.sessions ==> db1.sessions[t].pending == [] || (t in db.sessions && db1.sessions[t].pending == db.sessions[t].pending))
    && (forall t :: t in db1.sessions && db1.sessions[t].xid.Some? ==>
          (t in db.sessions && db1.sessions[t].xid == db.sessions[t].xid) || db1.sessions[t].xid.value >= db.nextXid)
  }

  lemma UnmovedRows(w: World, db1: Db)
    requires RowsOk(w) && Unmoved(w.db, db1)
    ensures RowsOk(w.(db := db1))
  {
  }

  lemma UnmovedStory(w: World, db1: Db)
    requires StoryOk(w) && Unmoved(w.db, db1)
    ensures StoryOk(w.(db := db1))
  {
  }

  lemma UnmovedFrontier(w: World, db1: Db)
    requires FrontierOk(w) && Unmoved(w.db, db1)
    ensures FrontierOk(w.(db := db1))
  {
  }

  lemma UnmovedKeeps(w: World, db1: Db)
    requires Sound(w) && Unmoved(w.db, db1) && SessionsOk(db1)
    ensures Sound(w.(db := db1))
  {
    hide SessionsOk, RowsOk, StoryOk, FrontierOk;
    UnmovedRows(w, db1);
    UnmovedStory(w, db1);
    UnmovedFrontier(w, db1);
    hide Unmoved;
  }

  lemma WithXidOk(db: Db, t: SessionId)
    requires SessionsOk(db) && t in db.sessions
    ensures SessionsOk(WithXid(db, t)) && Unmoved(db, WithXid(db, t))
  {
    var db1 := WithXid(db, t);
    forall u | u in db1.sessions ensures SessionOk(db1, db1.sessions[u]) {
      assert SessionOk(db, db.sessions[u]);
    }
    hide SessionOk;
  }

  lemma BeginOk(db: Db, t: SessionId)
    requires SessionsOk(db) && t !in db.sessions
    ensures var db1 := db.(sessions := db.sessions[t := Session(None, {}, [], {})]); SessionsOk(db1) && Unmoved(db, db1)
  {
    var db1 := db.(sessions := db.sessions[t := Session(None, {}, [], {})]);
    forall u | u in db1.sessions ensures SessionOk(db1, db1.sessions[u]) {
      assert u != t ==> SessionOk(db, db.sessions[u]);
    }
    hide SessionOk;
  }

  /** One session replaced by another of the same transaction and rows. */
  lemma ReplaceOk(db: Db, t: SessionId, s: Session)
    requires SessionsOk(db) && t in db.sessions && SessionOk(db, s)
    requires s.xid == db.sessions[t].xid && s.pending == db.sessions[t].pending
    requires forall u :: u in db.sessions && u != t ==> s.locks !! db.sessions[u].locks
    ensures var db1 := db.(sessions := db.sessions[t := s]); SessionsOk(db1) && Unmoved(db, db1)
  {
    var db1 := db.(sessions := db.sessions[t := s]);
    forall u | u in db1.sessions ensures SessionOk(db1, db1.sessions[u]) {
      assert u != t ==> SessionOk(db, db.sessions[u]);
    }
    hide SessionOk;
  }

  lemma LockOk(db: Db, t: SessionId, i: InstanceId)
    requires SessionsOk(db) && t in db.sessions && !Locked(db, i)
    ensures var db1 := db.(sessions := db.sessions[t := db.sessions[t].(locks := db.sessions[t].locks + {i})]);
            SessionsOk(db1) && Unmoved(db, db1)
  {
    hide Unmoved;
    assert SessionOk(db, db.sessions[t]);
    ReplaceOk(db, t, db.sessions[t].(locks := db.sessions[t].locks + {i}));
  }

  lemma EndOk(db: Db, t: SessionId)
    requires SessionsOk(db)
    ensures var db1 := db.(sessions := db.sessions - {t}); SessionsOk(db1) && Unmoved(db, db1)
  {
    var db1 := db.(sessions := db.sessions - {t});
    forall u | u in db1.sessions ensures SessionOk(db1, db1.sessions[u]) {
      assert SessionOk(db, db.sessions[u]);
    }
    hide SessionOk;
  }

  lemma RetireOk(db: Db, t: SessionId, i: InstanceId)
    requires SessionsOk(db) && t in db.sessions && i in db.sessions[t].locks && db.sessions[t].xid.Some?
    requires forall r :: r in db.sessions[t].pending ==> r.instance != i
    ensures var db1 := db.(sessions := db.sessions[t := db.sessions[t].(retiring := db.sessions[t].retiring + {i})]);
            SessionsOk(db1) && Unmoved(db, db1)
  {
    hide Unmoved;
    assert SessionOk(db, db.sessions[t]);
    ReplaceOk(db, t, db.sessions[t].(retiring := db.sessions[t].retiring + {i}));
  }

  lemma QuietKeeps(w: World, a: Action)
    requires Sound(w) && Enabled(w, a) && !a.Insert? && !a.Commit? && !a.ReadFrom?
    ensures Sound(Then(w, a))
  {
    hide RowsOk, StoryOk, FrontierOk, DeliveredOk, SessionsOk, Unmoved;
    match a
    case Begin(t) => BeginOk(w.db, t); UnmovedKeeps(w, Then(w, a).db);
    case Write(t) => WithXidOk(w.db, t); UnmovedKeeps(w, Then(w, a).db);
    case Lock(t, i) => LockOk(w.db, t, i); UnmovedKeeps(w, Then(w, a).db);
    case Abort(t) => EndOk(w.db, t); UnmovedKeeps(w, Then(w, a).db);
    case Retire(t, i) =>
      WithXidOk(w.db, t);
      var db1 := WithXid(w.db, t);
      UnmovedKeeps(w, db1);
      RetireOk(db1, t, i);
      UnmovedKeeps(w.(db := db1), Then(w, a).db);
  }

  // ---- inserting

  function Inserted(db: Db, t: SessionId, i: InstanceId): Db
    requires t in db.sessions && db.sessions[t].xid.Some?
  {
    var s := db.sessions[t];
    db.(sessions := db.sessions[t := s.(pending := s.pending + [Row(s.xid.value, db.nextId, i)])], nextId := db.nextId + 1)
  }

  lemma InsertSession(db: Db, s: Session, row: Row)
    requires SessionOk(db, s) && s.xid.Some? && row.instance in s.locks && row.instance !in s.retiring
    requires row.txid == s.xid.value && row.id == db.nextId && 1 <= db.nextId
    ensures SessionOk(db.(nextId := db.nextId + 1), s.(pending := s.pending + [row]))
  {
    var all := s.pending + [row];
    forall j, k | 0 <= j < k < |all| ensures all[j].id < all[k].id {
      assert all[j] in s.pending;
    }
  }

  lemma SessionGrows(db: Db, db1: Db, s: Session)
    requires SessionOk(db, s) && db1.nextXid >= db.nextXid && db1.nextId >= db.nextId
    ensures SessionOk(db1, s)
  {
  }

  lemma InsertOk(db: Db, t: SessionId, i: InstanceId)
    requires SessionsOk(db) && t in db.sessions && db.sessions[t].xid.Some?
    requires i in db.sessions[t].locks && i !in db.sessions[t].retiring
    ensures SessionsOk(Inserted(db, t, i))
  {
    hide SessionOk;
    var db1 := Inserted(db, t, i);
    var s := db.sessions[t];
    InsertSession(db, s, Row(s.xid.value, db.nextId, i));
    SessionGrows(db.(nextId := db.nextId + 1), db1, db1.sessions[t]);
    forall u | u in db1.sessions ensures SessionOk(db1, db1.sessions[u]) {
      if u != t {
        SessionGrows(db, db1, db.sessions[u]);
      }
    }
  }

  lemma InsertRows(w: World, t: SessionId, i: InstanceId)
    requires SessionsOk(w.db) && RowsOk(w) && t in w.db.sessions && w.db.sessions[t].xid.Some?
    ensures RowsOk(w.(db := Inserted(w.db, t, i)))
  {
  }

  lemma InsertStory(w: World, t: SessionId, i: InstanceId)
    requires StoryOk(w) && RowsOk(w) && t in w.db.sessions && w.db.sessions[t].xid.Some?
    ensures StoryOk(w.(db := Inserted(w.db, t, i)))
  {
    forall q | q in Story(w.story, i) ensures q.id < w.db.nextId {
      assert q in w.ever;
    }
    hide RowsOk;
  }

  lemma InsertKeeps(w: World, a: Action)
    requires Sound(w) && Enabled(w, a) && a.Insert?
    ensures Sound(Then(w, a))
  {
    hide RowsOk, StoryOk, DeliveredOk, SessionsOk, Unmoved, FrontierOk;
    WithXidOk(w.db, a.t);
    var db1 := WithXid(w.db, a.t);
    UnmovedKeeps(w, db1);
    var w0 := w.(db := db1);
    InsertOk(db1, a.t, a.instance);
    InsertRows(w0, a.t, a.instance);
    InsertStory(w0, a.t, a.instance);
    InsertFrontier(w0, a.t, a.instance);
  }

  lemma InsertFrontier(w: World, t: SessionId, i: InstanceId)
    requires FrontierOk(w) && DeliveredOk(w) && t in w.db.sessions && w.db.sessions[t].xid.Some?
    ensures FrontierOk(w.(db := Inserted(w.db, t, i))) && DeliveredOk(w.(db := Inserted(w.db, t, i)))
  {
  }

  // ---- committing

  lemma OfInstanceIs(rows: seq<Row>, i: InstanceId)
    requires Rising(rows)
    ensures Rising(OfInstance(rows, i))
    ensures forall r :: r in OfInstance(rows, i) <==> r in rows && r.instance == i
  {
    if rows != [] {
      var front, last := rows[..|rows| - 1], rows[|rows| - 1];
      assert rows == front + [last];
      OfInstanceIs(front, i);
      assert forall r :: r in front ==> r.id < last.id;
    }
  }

  lemma RisingAppend(a: seq<Row>, b: seq<Row>)
    requires Rising(a) && Rising(b) && forall r, q :: r in a && q in b ==> r.id < q.id
    ensures Rising(a + b)
  {
  }

  /** An instance's story goes on with what the commit brings of it. */
  lemma StoryGoesOn(w: World, t: SessionId, i: InstanceId)
    requires StoryOk(w) && t in w.db.sessions && SessionOk(w.db, w.db.sessions[t])
    ensures var story := Story(Committed(w, t).story, i);
            && Rising(story)
            && (forall r :: r in story <==> r in Story(w.story, i) || (r in w.db.sessions[t].pending && r.instance == i))
  {
    var s := w.db.sessions[t];
    OfInstanceIs(s.pending, i);
    if i in w.story.Keys + s.locks {
      RisingAppend(Story(w.story, i), OfInstance(s.pending, i));
    }
    hide Rising;
  }

  lemma OthersLater(w: World, t: SessionId, u: SessionId, r: Row)
    requires SessionsOk(w.db) && t in w.db.sessions && u in w.db.sessions && u != t && r in w.db.sessions[u].pending
    ensures forall q :: q in w.db.sessions[t].pending ==> q.instance != r.instance
  {
    assert SessionOk(w.db, w.db.sessions[u]) && SessionOk(w.db, w.db.sessions[t]);
  }

  lemma CommitTells(w: World, t: SessionId)
    requires SessionsOk(w.db) && StoryOk(w) && t in w.db.sessions
    ensures Tells(Committed(w, t).story, Committed(w, t).ever)
    ensures forall i :: Rising(Story(Committed(w, t).story, i))
  {
    var s := w.db.sessions[t];
    var w1 := Committed(w, t);
    assert w1.ever == w.ever + set r | r in s.pending;
    hide Committed, Rising, Story;
    forall i
      ensures Rising(Story(w1.story, i))
      ensures forall r :: r in Story(w1.story, i) <==> r in w1.ever && r.instance == i
    {
      StoryGoesOn(w, t, i);
    }
  }

  lemma CommitStory(w: World, t: SessionId)
    requires SessionsOk(w.db) && StoryOk(w) && t in w.db.sessions
    ensures StoryOk(Committed(w, t))
  {
    var w1 := Committed(w, t);
    CommitTells(w, t);
    hide SessionOk, Rising;
    forall u, r, q | u in w1.db.sessions && r in w1.db.sessions[u].pending && q in Story(w1.story, r.instance)
      ensures q.id < r.id
    {
      OthersLater(w, t, u, r);
      StoryGoesOn(w, t, r.instance);
    }
  }

  lemma CommitApart(ever: set<Row>, pending: seq<Row>, xid: Option<nat>)
    requires Apart(ever) && Rising(pending)
    requires forall r :: r in pending ==> xid == Some(r.txid)
    requires forall r :: r in ever ==> xid != Some(r.txid)
    ensures Apart(ever + set r | r in pending)
  {
  }

  lemma CommitRows(w: World, t: SessionId)
    requires SessionsOk(w.db) && RowsOk(w) && t in w.db.sessions
    ensures RowsOk(Committed(w, t))
  {
    var s := w.db.sessions[t];
    assert SessionOk(w.db, s);
    CommitApart(w.ever, s.pending, s.xid);
    assert FloorAfter(w.db.floor, Gone(w.db, s), NewFloor(w.db.floor, Gone(w.db, s)));
    hide NewFloor, Rising, Apart;
  }

  /** No commit can appear behind a released cursor. */
  lemma NothingBehind(w: World, t: SessionId, f: (Cursor, Cursor))
    requires SessionsOk(w.db) && FrontierOk(w) && f in w.released && t in w.db.sessions
    ensures forall r :: r in w.db.sessions[t].pending ==> Before(f.0, r.At())
  {
    assert SessionOk(w.db, w.db.sessions[t]);
  }

  lemma CommitDelivered(w: World, t: SessionId)
    requires SessionsOk(w.db) && FrontierOk(w) && DeliveredOk(w) && t in w.db.sessions
    ensures FrontierOk(Committed(w, t)) && DeliveredOk(Committed(w, t))
  {
    var w1 := Committed(w, t);
    var added := set r | r in w.db.sessions[t].pending;
    assert w1.ever == w.ever + added && w1.db.rows == w.db.rows - Gone(w.db, w.db.sessions[t]) + added;
    hide Committed, SessionOk;
    forall f | f in w.released ensures forall r :: r in added ==> Before(f.0, r.At()) {
      NothingBehind(w, t, f);
    }
    hide SessionsOk;
  }

  lemma CommitKeeps(w: World, a: Action)
    requires Sound(w) && Enabled(w, a) && a.Commit?
    ensures Sound(Then(w, a))
  {
    hide RowsOk, StoryOk, FrontierOk, DeliveredOk, SessionsOk, Unmoved;
    EndOk(w.db, a.t);
    CommitSessions(w, a.t);
    CommitRows(w, a.t);
    CommitStory(w, a.t);
    CommitDelivered(w, a.t);
  }

  lemma CommitSessions(w: World, t: SessionId)
    requires t in w.db.sessions && SessionsOk(w.db.(sessions := w.db.sessions - {t}))
    ensures SessionsOk(Committed(w, t).db)
  {
    var db1 := Committed(w, t).db;
    forall u | u in db1.sessions ensures SessionOk(db1, db1.sessions[u]) {
      SessionGrows(w.db.(sessions := w.db.sessions - {t}), db1, db1.sessions[u]);
    }
    hide SessionOk;
  }

  // ---- reading

  /** What a page of the eligible rows holds. */
  lemma PageReads(w: World, after: Cursor, limit: nat, page: seq<Row>)
    requires RowsOk(w) && page == PageOf(Eligible(w.db, after), limit)
    ensures Ordered(page) && |page| <= limit
    ensures forall r :: r in page ==> r in w.db.rows && Before(after, r.At()) && r.txid < Horizon(w.db)
    ensures forall r, q :: r in w.db.rows && q in page && Before(after, r.At()) && AtMost(r.At(), q.At()) ==> r in page
  {
    hide Horizon, PageOf;
    var S := Eligible(w.db, after);
    assert Apart(S);
    PageIs(S, limit);
    forall r, q | r in w.db.rows && q in page && Before(after, r.At()) && AtMost(r.At(), q.At()) ensures r in page {
      assert q in S && r in S;
    }
  }

  /** What a read may count on. */
  lemma ReadIs(w: World, after: Cursor, limit: nat, page: seq<Row>)
    requires SessionsOk(w.db) && RowsOk(w) && ReadEvents(w.db, Some(w.db.floor), after, limit) == Page(page)
    ensures Ordered(page) && |page| <= limit && |page| <= PAGE
    ensures forall r :: r in page ==> r in w.db.rows && Before(after, r.At())
    ensures forall r, q :: r in w.db.rows && q in page && Before(after, r.At()) && AtMost(r.At(), q.At()) ==> r in page
    ensures forall r, t :: r in page && t in w.db.sessions && w.db.sessions[t].xid.Some? ==> r.txid < w.db.sessions[t].xid.value
    ensures after == ZERO || AtMost(w.db.floor, after)
  {
    hide Horizon, PageOf, Eligible, RowsOk, SessionsOk, Ordered;
    PageReads(w, after, if limit < PAGE then limit else PAGE, page);
    XidsBelow(w.db);
    HorizonIs(w.db);
  }

  /** The row is final: its transaction has ended, and no other can come at or
      below it. */
  ghost predicate Final(db: Db, r: Row) {
    r.txid < db.nextXid && forall t :: t in db.sessions && db.sessions[t].xid.Some? ==> r.txid < db.sessions[t].xid.value
  }

  /** A read withholds nothing it could hand out: a page that is not full has every
      final row above the cursor, a full one leaves out only rows above its last. */
  lemma ReadTells(w: World, after: Cursor, limit: nat)
    requires SessionsOk(w.db) && limit > 0 && after.txid >= 0 && after.id >= 0 && (after == ZERO || AtMost(w.db.floor, after))
    requires RowsOk(w)
    ensures match ReadEvents(w.db, Some(w.db.floor), after, limit)
            case Page(page) =>
              forall r :: r in w.db.rows && Before(after, r.At()) && Final(w.db, r) ==>
                || r in page
                || (|page| == (if limit < 1000 then limit else 1000) && forall q :: q in page ==> Before(q.At(), r.At()))
            case _ => false
  {
    hide Horizon, PageOf, SessionsOk, Final;
    var size := if limit < PAGE then limit else PAGE;
    var S := Eligible(w.db, after);
    assert Apart(S);
    hide RowsOk, Apart;
    forall r | r in w.db.rows && Before(after, r.At()) && Final(w.db, r) && r !in PageOf(S, size)
      ensures |PageOf(S, size)| == size && forall q :: q in PageOf(S, size) ==> Before(q.At(), r.At())
    {
      XidsBelow(w.db);
      FinalBelow(w.db, r);
      PageLeaves(S, size, r);
    }
  }

  lemma FinalBelow(db: Db, r: Row)
    requires XidsOk(db) && Final(db, r)
    ensures r.txid < Horizon(db)
  {
    HorizonIs(db);
    hide Horizon;
  }

  lemma PageLeaves(S: set<Row>, limit: nat, r: Row)
    requires Apart(S) && r in S && r !in PageOf(S, limit)
    ensures |PageOf(S, limit)| == limit && forall q :: q in PageOf(S, limit) ==> Before(q.At(), r.At())
  {
    PageIs(S, limit);
    hide PageOf;
  }

  /** When nobody is writing, a page that is not full is all there is. */
  lemma QuietReadTellsAll(w: World, after: Cursor, limit: nat, page: seq<Row>)
    requires SessionsOk(w.db) && RowsOk(w) && (forall t :: t in w.db.sessions ==> w.db.sessions[t].xid.None?)
    requires ReadEvents(w.db, Some(w.db.floor), after, limit) == Page(page) && |page| < limit && |page| < PAGE
    ensures forall r :: r in w.db.rows && Before(after, r.At()) ==> r in page
  {
    ReadTells(w, after, limit);
    hide ReadEvents;
    assert forall r :: r in w.db.rows ==> Final(w.db, r);
  }

  /** Why a read is not answered, each exactly when. */
  lemma ReadRefuses(db: Db, floor: Option<Cursor>, after: Cursor, limit: nat)
    ensures ReadEvents(db, floor, after, limit).BadCursor? <==> after.txid < 0 || after.id < 0
    ensures ReadEvents(db, floor, after, limit).BadLimit? <==> after.txid >= 0 && after.id >= 0 && limit == 0
    ensures ReadEvents(db, floor, after, limit).NoFloor? <==> after.txid >= 0 && after.id >= 0 && limit > 0 && floor.None?
    ensures match floor
            case Some(at) =>
              after.txid >= 0 && after.id >= 0 && limit > 0 && after != ZERO && (after.txid < at.txid || (after.txid == at.txid && after.id < at.id))
              <==> ReadEvents(db, floor, after, limit) == Truncated(after, at)
            case None => true
  {
    hide PageOf, Eligible;
  }

  lemma XidsBelow(db: Db)
    requires SessionsOk(db)
    ensures XidsOk(db)
  {
    forall t | t in db.sessions && db.sessions[t].xid.Some? ensures db.sessions[t].xid.value < db.nextXid {
      assert SessionOk(db, db.sessions[t]);
    }
  }

  /** A resume that is answered has lost nothing above its cursor: whatever is
      gone lay at or below it. */
  lemma ResumeLosesNothing(w: World, after: Cursor, limit: nat)
    requires RowsOk(w) && after != ZERO && ReadEvents(w.db, Some(w.db.floor), after, limit).Page?
    ensures forall r :: r in w.ever && Before(after, r.At()) ==> r in w.db.rows
  {
  }

  /** One row of the page, and all that lies at or below it. */
  lemma PageDelivers(w: World, after: Cursor, limit: nat, page: seq<Row>, k: (Cursor, Cursor), q: Row, r: Row)
    requires SessionsOk(w.db) && RowsOk(w) && FrontierOk(w) && DeliveredOk(w)
    requires ReadEvents(w.db, Some(w.db.floor), after, limit) == Page(page) && q in page
    requires k in w.released + {(ZERO, w.db.floor)} && k.0 == after
    requires r in w.ever && AtMost(r.At(), q.At()) && (r in w.db.rows || Before(k.1, r.At()))
    ensures r in w.received || r in page
  {
    ReadIs(w, after, limit, page);
    if r in w.db.rows && Before(after, r.At()) {
      assert r in page;
    } else if r in w.db.rows {
      assert AtMost(r.At(), after);
    } else {
      assert AtMost(r.At(), w.db.floor);
    }
  }

  lemma ReadDelivered(w: World, after: Cursor, limit: nat)
    requires SessionsOk(w.db) && RowsOk(w) && FrontierOk(w) && DeliveredOk(w)
    ensures FrontierOk(Delivered(w, after, limit)) && DeliveredOk(Delivered(w, after, limit))
  {
    var result := ReadEvents(w.db, Some(w.db.floor), after, limit);
    if result.Page? {
      var page := result.records;
      var known := w.released + {(ZERO, w.db.floor)};
      ReadIs(w, after, limit, page);
      var w1 := Delivered(w, after, limit);
      forall f, r | f in Handed(page, known, after) && r in w.ever && AtMost(r.At(), f.0) && (r in w.db.rows || Before(f.1, r.At()))
        ensures r in w1.received
      {
        var q, k :| q in page && k in known && k.0 == after && f == (q.At(), k.1);
        PageDelivers(w, after, limit, page, k, q, r);
      }
      HandedFrontier(w, page, known, after);
      hide ReadEvents, SessionsOk, Horizon;
    }
  }

  lemma HandedFrontier(w: World, page: seq<Row>, known: set<(Cursor, Cursor)>, after: Cursor)
    requires RowsOk(w) && forall r :: r in page ==> r in w.db.rows
    requires forall r, t :: r in page && t in w.db.sessions && w.db.sessions[t].xid.Some? ==> r.txid < w.db.sessions[t].xid.value
    ensures forall f :: f in Handed(page, known, after) ==>
              && 0 < f.0.txid < w.db.nextXid
              && forall t :: t in w.db.sessions && w.db.sessions[t].xid.Some? ==> f.0.txid < w.db.sessions[t].xid.value
  {
  }

  lemma ReadKeeps(w: World, a: Action)
    requires Sound(w) && Enabled(w, a) && a.ReadFrom?
    ensures Sound(Then(w, a))
  {
    hide SessionsOk, FrontierOk, DeliveredOk;
    ReadDelivered(w, a.after, a.limit);
    hide ReadEvents;
  }

  // ---- every interleaving

  /** Where a run of enabled actions leads. */
  ghost function Play(actions: seq<Action>): Option<World> {
    if actions == [] then Some(NEW_WORLD)
    else
      var before := Play(actions[..|actions| - 1]);
      var a := actions[|actions| - 1];
      if before.Some? && Enabled(before.value, a) then Some(Then(before.value, a)) else None
  }

  /** Whatever the interleaving of begins, first writes, locks, inserts, commits,
      aborts, deletions and reads: a reader has received everything committed at
      or below its cursor that was not already gone when it began, nothing can
      still appear there, and what is gone lies below the floor. */
  lemma {:induction false} EveryInterleaving(actions: seq<Action>)
    requires Play(actions).Some?
    ensures Sound(Play(actions).value)
  {
    hide Then, Enabled, Sound;
    if actions == [] {
      NewWorldSound();
    } else {
      var front, a := actions[..|actions| - 1], actions[|actions| - 1];
      EveryInterleaving(front);
      var w := Play(front).value;
      match a
      case Insert(_, _) => InsertKeeps(w, a);
      case Commit(_) => CommitKeeps(w, a);
      case ReadFrom(_, _) => ReadKeeps(w, a);
      case _ => QuietKeeps(w, a);
    }
  }

  lemma NewWorldSound()
    ensures Sound(NEW_WORLD)
  {
  }

  /** Of every interleaving: once nobody is writing, a reader whose page is not full
      has received every event there is. */
  lemma CaughtUp(actions: seq<Action>, after: Cursor, limit: nat, page: seq<Row>)
    requires Play(actions).Some? && var w := Play(actions).value;
             && Enabled(w, ReadFrom(after, limit)) && (forall t :: t in w.db.sessions ==> w.db.sessions[t].xid.None?)
             && ReadEvents(w.db, Some(w.db.floor), after, limit) == Page(page) && |page| < limit && |page| < PAGE
    ensures forall r :: r in Play(actions).value.db.rows ==> r in Then(Play(actions).value, ReadFrom(after, limit)).received
  {
    EveryInterleaving(actions);
    hide Play, ReadEvents, SessionsOk, FrontierOk, StoryOk, Committed, WithXid, Horizon;
    var w := Play(actions).value;
    QuietReadTellsAll(w, after, limit, page);
    forall r | r in w.db.rows && r !in page ensures r in w.received {
      assert AtMost(r.At(), after);
    }
  }

  /** The floor never falls, and is never above what was deleted. */
  lemma FloorOnlyRises(w: World, a: Action)
    requires Enabled(w, a)
    ensures AtMost(w.db.floor, Then(w, a).db.floor)
    ensures Then(w, a).db.floor != w.db.floor ==>
              a.Commit? && exists r :: r in Gone(w.db, w.db.sessions[a.t]) && r.At() == Then(w, a).db.floor
  {
    hide NewFloor;
    if a.Commit? {
      var gone := Gone(w.db, w.db.sessions[a.t]);
      assert FloorAfter(w.db.floor, gone, NewFloor(w.db.floor, gone));
    }
  }

  /** Some session of the run was told to retire the instance. */
  ghost predicate Retired(actions: seq<Action>, i: InstanceId) {
    exists k, t :: 0 <= k < |actions| && actions[k] == Retire(t, i)
  }

  /** What a commit does to the stream: its own events are there, those of the
      instances it retires are not, and no other has come or gone; nothing but a
      commit changes it. */
  lemma CommitExactly(w: World, a: Action, r: Row)
    requires Enabled(w, a)
    ensures match a
            case Commit(t) =>
              t in w.db.sessions
              && (r in Then(w, a).db.rows <==>
                    r in w.db.sessions[t].pending || (r in w.db.rows && r.instance !in w.db.sessions[t].retiring))
            case _ => Then(w, a).db.rows == w.db.rows && Then(w, a).ever == w.ever
  {
    hide NewFloor, ReadEvents, OfInstance;
  }

  lemma RetiringIs(w: World, a: Action, t: SessionId, i: InstanceId)
    requires Enabled(w, a) && t in Then(w, a).db.sessions && i in Then(w, a).db.sessions[t].retiring
    ensures a == Retire(t, i) || (t in w.db.sessions && i in w.db.sessions[t].retiring)
  {
    hide NewFloor, ReadEvents, OfInstance;
  }

  lemma EverGrows(w: World, a: Action, r: Row)
    requires Enabled(w, a) && r in Then(w, a).ever && r !in w.ever
    ensures r in Then(w, a).db.rows
  {
    hide NewFloor, ReadEvents, OfInstance;
  }

  lemma {:induction false} RetiringWasTold(actions: seq<Action>, t: SessionId, i: InstanceId)
    requires match Play(actions) case Some(w) => t in w.db.sessions && i in w.db.sessions[t].retiring case None => false
    ensures Retired(actions, i)
    decreases |actions|
  {
    hide Then, Enabled;
    if actions != [] {
      var front, a := actions[..|actions| - 1], actions[|actions| - 1];
      var w := Play(front).value;
      RetiringIs(w, a, t, i);
      if a == Retire(t, i) {
        assert actions[|actions| - 1] == Retire(t, i);
      } else {
        RetiringWasTold(front, t, i);
        var k, u :| 0 <= k < |front| && front[k] == Retire(u, i);
        assert actions[k] == Retire(u, i);
      }
    }
  }

  /** Of every interleaving: an event once committed stays in the stream, unless a
      session was told to retire its instance. */
  lemma {:induction false} OnlyTheRetiredGo(actions: seq<Action>, r: Row)
    requires match Play(actions) case Some(w) => r in w.ever && r !in w.db.rows case None => false
    ensures Retired(actions, r.instance)
    decreases |actions|
  {
    hide Then, Enabled;
    if actions == [] {
    } else {
      var front, a := actions[..|actions| - 1], actions[|actions| - 1];
      var w := Play(front).value;
      CommitExactly(w, a, r);
      if r !in w.ever {
        EverGrows(w, a, r);
      } else if r in w.db.rows {
        RetiringWasTold(front, a.t, r.instance);
        var k, u :| 0 <= k < |front| && front[k] == Retire(u, r.instance);
        assert actions[k] == Retire(u, r.instance);
      } else {
        OnlyTheRetiredGo(front, r);
        var k, u :| 0 <= k < |front| && front[k] == Retire(u, r.instance);
        assert actions[k] == Retire(u, r.instance);
      }
    }
  }

  lemma OfOne(r: Row, i: InstanceId)
    requires r.instance == i
    ensures OfInstance([r], i) == [r]
  {
    assert [r][..0] == [];
  }

  lemma Plays(front: seq<Action>, w: World, a: Action, w1: World)
    requires Play(front) == Some(w) && Enabled(w, a) && Then(w, a) == w1
    ensures Play(front + [a]) == Some(w1)
  {
    assert (front + [a])[..|front|] == front;
  }

  /** A world where nothing was deleted or read, and all that happened is of instance 7. */
  function Stage(sessions: map<SessionId, Session>, rows: set<Row>, story: map<InstanceId, seq<Row>>, nextXid: nat, nextId: nat): World {
    World(Db(sessions, rows, ZERO, nextXid, nextId), {}, {}, rows, story)
  }

  lemma StoryPlus(story: map<InstanceId, seq<Row>>, r: Row)
    requires r.instance == 7 && story.Keys <= {7}
    ensures (map i | i in story.Keys + {7} :: Story(story, i) + OfInstance([r], i)) == map[7 := Story(story, 7) + [r]]
  {
    OfOne(r, 7);
    hide OfInstance;
  }

  lemma CommitsOne(t: SessionId, w: World, r: Row)
    requires t in w.db.sessions && r.instance == 7 && w.story.Keys <= {7}
    requires w.db.sessions[t] == Session(Some(r.txid), {7}, [r], {})
    ensures Then(w, Commit(t))
         == w.(db := w.db.(sessions := w.db.sessions - {t}, rows := w.db.rows + {r}), ever := w.ever + {r}, story := map[7 := Story(w.story, 7) + [r]])
  {
    StoryPlus(w.story, r);
    hide Gone, NewFloor, OfInstance, Story;
    assert (set q | q in [r]) == {r};
  }

  const IDLE := Session(None, {}, [], {})
  const EARLY := Row(2, 1, 7)
  const LATE := Row(1, 2, 7)
  const HALFWAY := Stage(map[1 := Session(Some(1), {}, [], {})], {EARLY}, map[7 := [EARLY]], 3, 2)

  const WRITTEN := Session(Some(1), {}, [], {})

  lemma ExampleOpens() returns (a: seq<Action>)
    ensures Play(a) == Some(Stage(map[1 := WRITTEN, 2 := IDLE.(locks := {7})], {}, map[], 2, 1))
  {
    assert {} + {7} == {7};
    var w1 := Stage(map[1 := IDLE], {}, map[], 1, 1);
    var w2 := Stage(map[1 := WRITTEN], {}, map[], 2, 1);
    var w3 := Stage(map[1 := WRITTEN, 2 := IDLE], {}, map[], 2, 1);
    Plays([], NEW_WORLD, Begin(1), w1);
    hide Play, Committed;
    a := [] + [Begin(1)];
    Plays(a, w1, Write(1), w2);
    a := a + [Write(1)];
    Plays(a, w2, Begin(2), w3);
    a := a + [Begin(2)];
    Plays(a, w3, Lock(2, 7), Stage(map[1 := WRITTEN, 2 := IDLE.(locks := {7})], {}, map[], 2, 1));
    a := a + [Lock(2, 7)];
  }

  lemma ExampleFirst() returns (a: seq<Action>)
    ensures Play(a) == Some(HALFWAY)
  {
    hide Play, Committed;
    var w4 := Stage(map[1 := WRITTEN, 2 := IDLE.(locks := {7})], {}, map[], 2, 1);
    var w5 := Stage(map[1 := WRITTEN, 2 := Session(Some(2), {7}, [EARLY], {})], {}, map[], 3, 2);
    a := ExampleOpens();
    assert IDLE.pending + [EARLY] == [EARLY];
    Plays(a, w4, Insert(2, 7), w5);
    a := a + [Insert(2, 7)];
    CommitsOne(2, w5, EARLY);
    hide Then;
    assert w5.db.sessions - {2} == map[1 := WRITTEN] && {} + {EARLY} == {EARLY} && [] + [EARLY] == [EARLY];
    Plays(a, w5, Commit(2), HALFWAY);
    a := a + [Commit(2)];
  }

  /** Per instance the ids ascend in step order; the stream's order may differ: a
      transaction that wrote before it took the lock comes first. */
  lemma StreamOrderIsNotStepOrder()
    ensures exists actions :: Play(actions).Some? && Story(Play(actions).value.story, 7) == [EARLY, LATE]
    ensures Before(LATE.At(), EARLY.At())
  {
    var a := ExampleFirst();
    hide Play, Committed;
    assert {} + {7} == {7} && [] + [LATE] == [LATE];
    var w7 := HALFWAY.(db := HALFWAY.db.(sessions := map[1 := Session(Some(1), {7}, [], {})]));
    var w8 := HALFWAY.(db := HALFWAY.db.(sessions := map[1 := Session(Some(1), {7}, [LATE], {})], nextId := 3));
    Plays(a, HALFWAY, Lock(1, 7), w7);
    a := a + [Lock(1, 7)];
    Plays(a, w7, Insert(1, 7), w8);
    a := a + [Insert(1, 7)];
    CommitsOne(1, w8, LATE);
    hide Then;
    Plays(a, w8, Commit(1), Then(w8, Commit(1)));
    assert [EARLY] + [LATE] == [EARLY, LATE];
  }
}
