/** Triggers that put notifications into the input queue: core/workspace/completion_triggers.go. */
module CompletionTriggers {
  import opened Wrappers
  import opened InputQueue
  import opened QueueOrder
  import opened QueueBatches

  // ---------------------------------------------------------------------
  // Firing, creating and cancelling
  // ---------------------------------------------------------------------

  datatype TriggerState = Pending | Fired | TriggerCancelled

  /** `spec` is everything the agent chose: workspace, title, reaction, policy, lifetime and mode. */
  datatype Trigger = Trigger(session: string, spec: string, expires: int, state: TriggerState, text: string)

  datatype Db = Db(rows: seq<Row>, triggers: map<string, Trigger>)

  datatype FireResult = Accepted | AlreadyAccepted | ContentConflict | Unavailable | Unknown | QueueError

  const WEEK: int := 7 * 24 * 60 * 60
  const MAX_PENDING: nat := 16

  function RowId(id: string): string {
    COMPLETION + id
  }

  /** Firing inserts the notification and marks the trigger in one transaction. */
  function Fire(db: Db, id: string, text: string, payload: string, now: int): (Db, FireResult) {
    if id !in db.triggers then (db, Unknown)
    else
      var t := db.triggers[id];
      if t.state == Fired then (db, if t.text != text then ContentConflict else AlreadyAccepted)
      else if t.state != Pending || t.expires <= now then (db, Unavailable)
      else if Any(db.rows, IsRow(t.session, RowId(id))) then (db, QueueError)
      else (Db(Insert(db.rows, t.session, RowId(id), payload), db.triggers[id := t.(state := Fired, text := text)]), Accepted)
  }

  function Unexpired(triggers: map<string, Trigger>, now: int): map<string, Trigger> {
    map id | id in triggers && (triggers[id].state == Fired || triggers[id].expires >= now - WEEK) :: triggers[id]
  }

  function PendingOf(triggers: map<string, Trigger>, session: string, now: int): set<string> {
    set id | id in triggers && triggers[id].session == session && triggers[id].state == Pending && triggers[id].expires > now
  }

  datatype CreateResult = Created | Existing | IdConflict | TooMany

  function Create(db: Db, id: string, session: string, spec: string, expires: int, now: int): (Db, CreateResult) {
    if id in db.triggers then
      (db, if db.triggers[id].session != session || db.triggers[id].spec != spec then IdConflict else Existing)
    else
      var kept := Unexpired(db.triggers, now);
      if |PendingOf(kept, session, now)| >= MAX_PENDING then (db.(triggers := kept), TooMany)
      else (db.(triggers := kept[id := Trigger(session, spec, expires, Pending, "")]), Created)
  }

  function Cancel(db: Db, session: string, id: string): (Db, bool) {
    if id in db.triggers && db.triggers[id].session == session && db.triggers[id].state == Pending
    then (db.(triggers := db.triggers[id := db.triggers[id].(state := TriggerCancelled)]), true)
    else (db, false)
  }

  /** Every fired trigger has its row in the queue. */
  ghost predicate Delivered(db: Db) {
    forall id :: id in db.triggers && db.triggers[id].state == Fired ==> HasRow(db.rows, db.triggers[id].session, RowId(id))
  }

  ghost predicate HasRow(rows: seq<Row>, session: string, id: string) {
    exists i :: 0 <= i < |rows| && rows[i].session == session && rows[i].id == id
  }

  ghost predicate DbInv(db: Db) {
    UniqueIds(db.rows) && Delivered(db)
  }

  /** Steps of the queue, single claims among them, and of the triggers. */
  datatype Label =
    | OnQueue(op: Op)
    | OnFire(id: string, text: string, payload: string, now: int)
    | OnCreate(id: string, session: string, spec: string, expires: int, now: int)
    | OnCancel(session: string, id: string)

  function Next(db: Db, l: Label): Db {
    match l
    case OnQueue(op) => db.(rows := DoOp(db.rows, op))
    case OnFire(id, text, payload, now) => Fire(db, id, text, payload, now).0
    case OnCreate(id, session, spec, expires, now) => Create(db, id, session, spec, expires, now).0
    case OnCancel(session, id) => Cancel(db, session, id).0
  }

  lemma ExtendsHasRow(a: seq<Row>, b: seq<Row>, session: string, id: string)
    requires Extends(a, b) && HasRow(a, session, id)
    ensures HasRow(b, session, id)
  {
    var i :| 0 <= i < |a| && a[i].session == session && a[i].id == id;
    assert b[i].id == id;
  }

  lemma ExtendsDelivered(db: Db, rows: seq<Row>)
    requires Delivered(db) && Extends(db.rows, rows)
    ensures Delivered(db.(rows := rows))
  {
    hide HasRow, Extends;
    forall id | id in db.triggers && db.triggers[id].state == Fired
      ensures HasRow(rows, db.triggers[id].session, RowId(id))
    {
      ExtendsHasRow(db.rows, rows, db.triggers[id].session, RowId(id));
    }
  }

  lemma ExtendsUnique(a: seq<Row>, b: seq<Row>)
    requires UniqueIds(a) && Extends(a, b) && |b| == |a|
    ensures UniqueIds(b)
  {
    forall i, j | 0 <= i < j < |b| ensures b[i].session != b[j].session || b[i].id != b[j].id {
      assert a[i].session != a[j].session || a[i].id != a[j].id;
    }
  }

  lemma InsertUnique(rows: seq<Row>, session: string, id: string, payload: string)
    requires UniqueIds(rows) && !Any(rows, IsRow(session, id))
    ensures UniqueIds(Insert(rows, session, id, payload))
  {
    hide First;
    var r := Insert(rows, session, id, payload);
    forall i, j | 0 <= i < j < |r| ensures r[i].session != r[j].session || r[i].id != r[j].id {
      if j == |rows| {
        assert !IsRow(session, id)(rows[i]);
      }
    }
  }

  lemma OpUnique(rows: seq<Row>, op: Op)
    requires UniqueIds(rows)
    ensures UniqueIds(DoOp(rows, op))
  {
    hide UniqueIds, First, Extends, Insert;
    if op.Plain? && op.step.Queue? {
      var l := op.step;
      if !Any(rows, IsRow(l.session, l.id)) {
        InsertUnique(rows, l.session, l.id, l.payload);
      }
    } else {
      OpExtends(rows, op);
      ExtendsUnique(rows, DoOp(rows, op));
    }
  }

  lemma FireInv(db: Db, id: string, text: string, payload: string, now: int)
    requires DbInv(db)
    ensures DbInv(Fire(db, id, text, payload, now).0)
  {
    hide UniqueIds, First;
    var next := Fire(db, id, text, payload, now);
    if next.1 == Accepted {
      var t := db.triggers[id];
      InsertUnique(db.rows, t.session, RowId(id), payload);
      InsertExtends(db.rows, t.session, RowId(id), payload);
      ExtendsDelivered(db, next.0.rows);
      assert next.0.rows[|db.rows|].id == RowId(id);
      assert HasRow(next.0.rows, t.session, RowId(id));
    }
  }

  lemma NextInv(db: Db, l: Label)
    requires DbInv(db)
    ensures DbInv(Next(db, l))
  {
    hide UniqueIds, DoOp, Extends, HasRow, Fire;
    match l
    case OnQueue(op) =>
      OpUnique(db.rows, op);
      OpExtends(db.rows, op);
      ExtendsDelivered(db, DoOp(db.rows, op));
    case OnFire(id, text, payload, now) => FireInv(db, id, text, payload, now);
    case OnCreate(_, _, _, _, _) =>
    case OnCancel(_, _) =>
  }

  function History(db: Db, labels: seq<Label>): Db {
    if labels == [] then db else Next(History(db, labels[..|labels| - 1]), labels[|labels| - 1])
  }

  lemma {:induction false} HistoryInv(db: Db, labels: seq<Label>)
    requires DbInv(db)
    ensures DbInv(History(db, labels))
    decreases |labels|
  {
    hide DbInv, Next;
    if labels != [] {
      HistoryInv(db, labels[..|labels| - 1]);
      NextInv(History(db, labels[..|labels| - 1]), labels[|labels| - 1]);
    }
  }

  /** Once fired, a trigger stays fired with its text, whatever happens to the queue or the daemon. */
  lemma {:induction false} FiredStays(db: Db, labels: seq<Label>, id: string)
    requires id in db.triggers && db.triggers[id].state == Fired
    ensures id in History(db, labels).triggers && History(db, labels).triggers[id] == db.triggers[id]
    decreases |labels|
  {
    hide First, DoOp;
    if labels != [] {
      FiredStays(db, labels[..|labels| - 1], id);
    }
  }

  /** A fired trigger has exactly one row, however often firing is retried: a retry with the same text
      is accepted without another row, and a different text is refused. Nothing is asked of the runs:
      single claims, batch names and times may be any. */
  lemma FiredExactlyOnce(db: Db, labels: seq<Label>, id: string, text: string, payload: string, now: int)
    requires DbInv(db)
    requires id in db.triggers && db.triggers[id].state == Fired
    ensures var later := History(db, labels);
      && Fire(later, id, text, payload, now)
         == (later, if db.triggers[id].text == text then AlreadyAccepted else ContentConflict)
      && exists i :: IsTheRow(later.rows, db.triggers[id].session, RowId(id), i)
  {
    hide UniqueIds, First, History;
    var later := History(db, labels);
    HistoryInv(db, labels);
    FiredStays(db, labels, id);
    OnlyRow(later.rows, db.triggers[id].session, RowId(id));
  }

  /** Row `i` and no other is this one. */
  ghost predicate IsTheRow(rows: seq<Row>, session: string, id: string, i: int) {
    && 0 <= i < |rows|
    && rows[i].session == session && rows[i].id == id
    && forall k :: 0 <= k < |rows| && k != i ==> rows[k].session != session || rows[k].id != id
  }

  lemma OnlyRow(rows: seq<Row>, session: string, id: string)
    requires UniqueIds(rows) && HasRow(rows, session, id)
    ensures exists i :: IsTheRow(rows, session, id, i)
  {
    var i :| 0 <= i < |rows| && rows[i].session == session && rows[i].id == id;
    forall k | 0 <= k < |rows| && k != i ensures rows[k].session != session || rows[k].id != id {
      if k < i {
        assert rows[k].session != rows[i].session || rows[k].id != rows[i].id;
      } else {
        assert rows[i].session != rows[k].session || rows[i].id != rows[k].id;
      }
    }
    assert IsTheRow(rows, session, id, i);
  }
}
