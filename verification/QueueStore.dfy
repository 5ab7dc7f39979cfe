/** The store's operations on the queue and the triggers: core/workspace/input_queue.go and
    core/workspace/completion_triggers.go. */
module QueueStores {
  import opened Wrappers
  import opened InputQueue
  import opened QueueOrder
  import opened QueueBatches
  import opened CompletionTriggers

  class QueueStore {
    var db: Db

    ghost predicate Valid()
      reads this
    {
      DbInv(db)
    }

    constructor ()
      ensures Valid() && db == Db([], map[])
    {
      db := Db([], map[]);
    }

    method QueueInput(session: string, id: string, payload: string)
      requires Valid()
      modifies this
      ensures Valid() && db == Next(old(db), OnQueue(Plain(Queue(session, id, payload))))
    {
      NextInv(db, OnQueue(Plain(Queue(session, id, payload))));
      if First(db.rows, IsRow(session, id)) == |db.rows| {
        db := db.(rows := Insert(db.rows, session, id, payload));
      }
    }

    /** Changes or removes an input the client still owns; a stale revision is a conflict. */
    method UpdateQueuedInput(session: string, id: string, revision: nat, payload: string, remove: bool) returns (ok: bool)
      requires Valid()
      modifies this
      ensures Valid() && db == Next(old(db), OnQueue(Plain(Edit(session, id, revision, payload, remove))))
      ensures ok <==> exists i :: 0 <= i < |old(db).rows| && Matches(session, id, revision, old(db).rows[i])
      ensures !ok ==> db == old(db)
    {
      hide UniqueIds, First;
      NextInv(db, OnQueue(Plain(Edit(session, id, revision, payload, remove))));
      var selects := (r: Row) => Matches(session, id, revision, r);
      ok := First(db.rows, selects) < |db.rows|;
      var rows := Update(db.rows, Edited(session, id, revision, payload, remove));
      if ok {
        assert selects(db.rows[First(db.rows, selects)]);
      } else {
        forall i | 0 <= i < |rows| ensures rows[i] == db.rows[i] {
          assert !selects(db.rows[i]);
        }
        assert rows == db.rows;
      }
      db := db.(rows := rows);
    }

    /** Claims the next batch; its rows in order, or none. */
    method ClaimQueuedInputs(session: string, batch: string, resume: bool) returns (claimed: seq<Row>)
      requires Valid()
      modifies this
      ensures Valid() && db == Next(old(db), OnQueue(Plain(ClaimAll(session, batch, resume))))
      ensures var c := ClaimBatch(old(db).rows, session, batch, resume);
        claimed == if c.batch == None then [] else Select(db.rows, session, c.batch.value)
    {
      hide UniqueIds, ClaimBatch, Delivered;
      NextInv(db, OnQueue(Plain(ClaimAll(session, batch, resume))));
      var claim := ClaimRows(db.rows, session, batch, resume);
      db := db.(rows := claim.rows);
      claimed := [];
      if claim.batch.Some? {
        claimed := SelectRows(claim.rows, session, claim.batch.value);
      }
    }

    /** Claims one input out of turn; a stale revision or a claimed input is a conflict. */
    method ClaimQueuedInput(session: string, id: string, revision: nat, batch: string) returns (ok: bool)
      requires Valid()
      modifies this
      ensures Valid() && db == Next(old(db), OnQueue(ClaimOneOf(session, id, revision, batch)))
      ensures ok <==> exists i :: 0 <= i < |old(db).rows| && Matches(session, id, revision, old(db).rows[i])
      ensures !ok ==> db == old(db)
    {
      hide UniqueIds, First;
      NextInv(db, OnQueue(ClaimOneOf(session, id, revision, batch)));
      var selects := (r: Row) => Matches(session, id, revision, r);
      ok := First(db.rows, selects) < |db.rows|;
      var rows := Update(db.rows, ClaimOne(session, id, revision, batch));
      if ok {
        assert selects(db.rows[First(db.rows, selects)]);
      } else {
        forall i | 0 <= i < |rows| ensures rows[i] == db.rows[i] {
          assert !selects(db.rows[i]);
        }
        assert rows == db.rows;
      }
      db := db.(rows := rows);
    }

    method FinishQueuedBatch(session: string, batch: string, success: bool)
      requires Valid()
      modifies this
      ensures Valid() && db == Next(old(db), OnQueue(Plain(Finish(session, batch, success))))
    {
      NextInv(db, OnQueue(Plain(Finish(session, batch, success))));
      var state := Paused;
      if success {
        state := Sent;
      }
      db := db.(rows := Update(db.rows, Settle(session, batch, state)));
    }

    method ReleaseQueuedBatch(session: string, batch: string)
      requires Valid()
      modifies this
      ensures Valid() && db == Next(old(db), OnQueue(Plain(ReleaseBatch(session, batch))))
    {
      NextInv(db, OnQueue(Plain(ReleaseBatch(session, batch))));
      db := db.(rows := Update(db.rows, Release(session, batch)));
    }

    method PauseQueuedInputs(session: string)
      requires Valid()
      modifies this
      ensures Valid() && db == Next(old(db), OnQueue(Plain(PauseAll(session))))
    {
      NextInv(db, OnQueue(Plain(PauseAll(session))));
      db := db.(rows := Update(db.rows, Pause(session)));
    }

    method RecoverQueuedInputs()
      requires Valid()
      modifies this
      ensures Valid() && db == Next(old(db), OnQueue(Plain(RecoverAll)))
    {
      NextInv(db, OnQueue(Plain(RecoverAll)));
      db := db.(rows := Update(db.rows, Recover()));
    }

    method FireCompletionTrigger(id: string, text: string, payload: string, now: int) returns (result: FireResult)
      requires Valid()
      modifies this
      ensures Valid() && (db, result) == Fire(old(db), id, text, payload, now)
    {
      hide UniqueIds, First;
      FireInv(db, id, text, payload, now);
      if id !in db.triggers {
        return Unknown;
      }
      var t := db.triggers[id];
      if t.state == Fired {
        if t.text != text {
          return ContentConflict;
        }
        return AlreadyAccepted;
      }
      if t.state != Pending || t.expires <= now {
        return Unavailable;
      }
      if First(db.rows, IsRow(t.session, RowId(id))) < |db.rows| {
        return QueueError;
      }
      db := Db(Insert(db.rows, t.session, RowId(id), payload), db.triggers[id := t.(state := Fired, text := text)]);
      return Accepted;
    }

    method CreateCompletionTrigger(id: string, session: string, spec: string, expires: int, now: int)
      returns (result: CreateResult)
      requires Valid()
      modifies this
      ensures Valid() && (db, result) == Create(old(db), id, session, spec, expires, now)
      ensures result == Created ==> |PendingOf(db.triggers, session, now)| <= MAX_PENDING
    {
      hide UniqueIds;
      NextInv(db, OnCreate(id, session, spec, expires, now));
      if id in db.triggers {
        var existing := db.triggers[id];
        return if existing.session != session || existing.spec != spec then IdConflict else Existing;
      }
      var kept := Unexpired(db.triggers, now);
      var count := |PendingOf(kept, session, now)|;
      if count >= MAX_PENDING {
        db := db.(triggers := kept);
        return TooMany;
      }
      db := db.(triggers := kept[id := Trigger(session, spec, expires, Pending, "")]);
      OneMorePending(kept, id, session, db.triggers[id], now);
      return Created;
    }

    method CancelCompletionTrigger(session: string, id: string) returns (ok: bool)
      requires Valid()
      modifies this
      ensures Valid() && (db, ok) == Cancel(old(db), session, id)
    {
      hide UniqueIds;
      NextInv(db, OnCancel(session, id));
      ok := id in db.triggers && db.triggers[id].session == session && db.triggers[id].state == Pending;
      if ok {
        db := db.(triggers := db.triggers[id := db.triggers[id].(state := TriggerCancelled)]);
      }
    }
  }

  /** The statements of one claim; an early return rolls all of them back. */
  method ClaimRows(before: seq<Row>, session: string, batch: string, resume: bool) returns (claim: Claim)
    ensures claim == ClaimBatch(before, session, batch, resume)
  {
    hide First;
    var rows := before;
    if resume {
      rows := Update(rows, Unpause(session));
    }
    var e := First(rows, Claimed(session));
    if e < |rows| {
      if !resume {
        return Claim(before, None);
      }
      var existing := rows[e].batch;
      return Claim(Update(rows, Resend(session, existing)), Some(existing));
    }
    if !resume && First(rows, PausedRow(session)) < |rows| {
      return Claim(before, None);
    }
    var f := First(rows, Claimable(session));
    if f == |rows| {
      return Claim(before, None);
    }
    if IsCompletion(rows[f]) {
      return Claim(Take(rows, session, rows[f].id, f + 1), Some(rows[f].id));
    }
    return Claim(Take(rows, session, batch, First(rows, Notification(session))), Some(batch));
  }

  lemma OneMorePending(triggers: map<string, Trigger>, id: string, session: string, t: Trigger, now: int)
    requires id !in triggers
    ensures |PendingOf(triggers[id := t], session, now)| <= |PendingOf(triggers, session, now)| + 1
  {
    var before, after := PendingOf(triggers, session, now), PendingOf(triggers[id := t], session, now);
    assert after == before || after == before + {id};
  }

  /** The rows of a batch that are not settled, in order. */
  function Select(rows: seq<Row>, session: string, batch: string): seq<Row> {
    if rows == [] then []
    else Select(rows[..|rows| - 1], session, batch)
         + if OfBatch(session, batch, rows[|rows| - 1]) then [rows[|rows| - 1]] else []
  }

  method SelectRows(rows: seq<Row>, session: string, batch: string) returns (result: seq<Row>)
    ensures result == Select(rows, session, batch)
  {
    result := [];
    for i := 0 to |rows|
      invariant result == Select(rows[..i], session, batch)
    {
      assert rows[..i + 1][..i] == rows[..i];
      if OfBatch(session, batch, rows[i]) {
        result := result + [rows[i]];
      }
    }
    assert rows[..|rows|] == rows;
  }
}
