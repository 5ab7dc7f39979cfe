/** What becomes of rows and batches over a run of the input queue: settled rows are final, claimed
    batches are frozen, and a claim takes the front. */
module QueueBatches {
  import opened Wrappers
  import opened InputQueue
  import opened QueueOrder

  // ---------------------------------------------------------------------
  // What an operation leaves alone
  // ---------------------------------------------------------------------

  /** Rows keep their identity and place, and a settled row never changes again. */
  ghost predicate Extends(a: seq<Row>, b: seq<Row>) {
    && |a| <= |b|
    && (forall i :: 0 <= i < |a| ==> b[i].session == a[i].session && b[i].id == a[i].id)
    && (forall i :: 0 <= i < |a| && Settled(a[i]) ==> b[i] == a[i])
  }

  predicate RowExtends(a: Row, b: Row) {
    b.session == a.session && b.id == a.id && (Settled(a) ==> b == a)
  }

  lemma UpdateExtends(rows: seq<Row>, f: Row -> Row)
    requires forall r :: RowExtends(r, f(r))
    ensures Extends(rows, Update(rows, f))
  {
    forall i | 0 <= i < |rows| ensures RowExtends(rows[i], Update(rows, f)[i]) {}
  }

  lemma TakeExtends(rows: seq<Row>, session: string, batch: string, limit: nat)
    ensures Extends(rows, Take(rows, session, batch, limit))
  {
    var r := Take(rows, session, batch, limit);
    forall i | 0 <= i < |rows| ensures RowExtends(rows[i], r[i]) {}
  }

  lemma ExtendsAll(a: seq<Row>, b: seq<Row>, c: seq<Row>)
    requires Extends(a, b) && Extends(b, c)
    ensures Extends(a, c)
  {}

  lemma ClaimExtends(rows: seq<Row>, session: string, batch: string, resume: bool)
    ensures Extends(rows, ClaimBatch(rows, session, batch, resume).rows)
  {
    hide Extends, First, Update, Take;
    var open := if resume then Update(rows, Unpause(session)) else rows;
    UpdateExtends(rows, Unpause(session));
    SameExtends(rows);
    var e := First(open, Claimed(session));
    if e < |open| {
      UpdateExtends(open, Resend(session, open[e].batch));
      ExtendsAll(rows, open, Update(open, Resend(session, open[e].batch)));
    } else {
      var f := First(open, Claimable(session));
      if f < |open| {
        var limit := First(open, Notification(session));
        TakeExtends(open, session, open[f].id, f + 1);
        ExtendsAll(rows, open, Take(open, session, open[f].id, f + 1));
        TakeExtends(open, session, batch, limit);
        ExtendsAll(rows, open, Take(open, session, batch, limit));
      }
    }
  }

  lemma SameExtends(rows: seq<Row>)
    ensures Extends(rows, rows)
  {}

  lemma InsertExtends(rows: seq<Row>, session: string, id: string, payload: string)
    ensures Extends(rows, Insert(rows, session, id, payload))
  {}

  lemma StepExtends(rows: seq<Row>, l: Step)
    ensures Extends(rows, Do(rows, l))
  {
    hide Extends, First, Update, Insert, ClaimBatch, Any;
    match l
    case Queue(s, id, payload) =>
      SameExtends(rows);
      InsertExtends(rows, s, id, payload);
    case Edit(s, id, revision, payload, remove) => UpdateExtends(rows, Edited(s, id, revision, payload, remove));
    case ClaimAll(s, batch, resume) => ClaimExtends(rows, s, batch, resume);
    case Finish(s, batch, success) => UpdateExtends(rows, Settle(s, batch, if success then Sent else Paused));
    case ReleaseBatch(s, batch) => UpdateExtends(rows, Release(s, batch));
    case PauseAll(s) => UpdateExtends(rows, Pause(s));
    case RecoverAll => UpdateExtends(rows, Recover());
  }

  // ---------------------------------------------------------------------
  // Operations, single claims among them
  // ---------------------------------------------------------------------

  datatype Op = Plain(step: Step) | ClaimOneOf(session: string, id: string, revision: nat, batch: string)

  function DoOp(rows: seq<Row>, op: Op): seq<Row> {
    match op
    case Plain(step) => Do(rows, step)
    case ClaimOneOf(session, id, revision, batch) => Update(rows, ClaimOne(session, id, revision, batch))
  }

  function RunOps(rows: seq<Row>, ops: seq<Op>): seq<Row>
    decreases |ops|
  {
    if ops == [] then rows else RunOps(DoOp(rows, ops[0]), ops[1..])
  }

  lemma OpExtends(rows: seq<Row>, op: Op)
    ensures Extends(rows, DoOp(rows, op))
  {
    hide Do, Extends, Update;
    match op
    case Plain(step) => StepExtends(rows, step);
    case ClaimOneOf(session, id, revision, batch) => UpdateExtends(rows, ClaimOne(session, id, revision, batch));
  }

  /** Whatever single claims do, rows keep their place and identity and settled rows never change. */
  lemma {:induction false} OpsExtend(rows: seq<Row>, ops: seq<Op>)
    ensures Extends(rows, RunOps(rows, ops))
    decreases |ops|
  {
    hide DoOp, Extends;
    if ops == [] {
      SameExtends(rows);
    } else {
      OpExtends(rows, ops[0]);
      OpsExtend(DoOp(rows, ops[0]), ops[1..]);
      ExtendsAll(rows, DoOp(rows, ops[0]), RunOps(DoOp(rows, ops[0]), ops[1..]));
    }
  }

  /** A queued row belongs to no batch, and a notification's name is used for its own row only. */
  predicate RowNamed(r: Row) {
    (r.state == Queued ==> r.batch == "") && (COMPLETION <= r.batch ==> r.batch == r.id)
  }

  ghost predicate Named(rows: seq<Row>) {
    UniqueIds(rows) && forall i :: 0 <= i < |rows| ==> RowNamed(rows[i])
  }

  /** How callers name batches: a notification is claimed under its own id, anything else under a name
      that is not a notification's, and a single claim under one that its session has not used. */
  predicate OpOk(rows: seq<Row>, op: Op) {
    match op
    case Plain(step) => StepOk(step) && (step.ClaimAll? ==> !(COMPLETION <= step.batch))
    case ClaimOneOf(session, id, _, batch) =>
      if COMPLETION <= id then batch == id
      else batch != "" && !(COMPLETION <= batch) && forall i :: 0 <= i < |rows| && rows[i].session == session ==> rows[i].batch != batch
  }

  ghost predicate OpsOk(rows: seq<Row>, ops: seq<Op>)
    decreases |ops|
  {
    ops != [] ==> OpOk(rows, ops[0]) && OpsOk(DoOp(rows, ops[0]), ops[1..])
  }

  lemma UpdateNamed(rows: seq<Row>, f: Row -> Row)
    requires Named(rows) && forall r :: RowNamed(r) ==> RowNamed(f(r)) && f(r).session == r.session && f(r).id == r.id
    ensures Named(Update(rows, f))
  {
    var r := Update(rows, f);
    forall i, j | 0 <= i < j < |r| ensures r[i].session != r[j].session || r[i].id != r[j].id {
      assert rows[i].session != rows[j].session || rows[i].id != rows[j].id;
    }
  }

  lemma TakeNamed(rows: seq<Row>, session: string, batch: string, limit: nat)
    requires Named(rows)
    requires COMPLETION <= batch ==> forall i :: 0 <= i < |rows| && i < limit && Claimable(session)(rows[i]) ==> rows[i].id == batch
    ensures Named(Take(rows, session, batch, limit))
  {
    var r := Take(rows, session, batch, limit);
    forall i, j | 0 <= i < j < |r| ensures r[i].session != r[j].session || r[i].id != r[j].id {
      assert rows[i].session != rows[j].session || rows[i].id != rows[j].id;
    }
  }

  lemma ClaimNamed(rows: seq<Row>, session: string, batch: string, resume: bool)
    requires Named(rows) && !(COMPLETION <= batch)
    ensures Named(ClaimBatch(rows, session, batch, resume).rows)
  {
    hide First, Update, Take, Named, Notification;
    var open := if resume then Update(rows, Unpause(session)) else rows;
    UnpauseNamed(rows, session);
    var e := First(open, Claimed(session));
    if e < |open| {
      ResendNamed(open, session, open[e].batch);
    } else {
      var f := First(open, Claimable(session));
      TakeNamed(open, session, batch, First(open, Notification(session)));
      if f < |open| {
        TakeNamed(open, session, open[f].id, f + 1);
      }
    }
  }

  lemma UnpauseNamed(rows: seq<Row>, session: string)
    requires Named(rows)
    ensures Named(Update(rows, Unpause(session)))
  {
    UpdateNamed(rows, Unpause(session));
  }

  lemma ResendNamed(rows: seq<Row>, session: string, batch: string)
    requires Named(rows)
    ensures Named(Update(rows, Resend(session, batch)))
  {
    UpdateNamed(rows, Resend(session, batch));
  }

  lemma InsertNamed(rows: seq<Row>, session: string, id: string, payload: string)
    requires Named(rows) && !Any(rows, IsRow(session, id))
    ensures Named(Insert(rows, session, id, payload))
  {
    hide First;
    var r := Insert(rows, session, id, payload);
    forall i, j | 0 <= i < j < |r| ensures r[i].session != r[j].session || r[i].id != r[j].id {
      if j == |rows| {
        assert !IsRow(session, id)(rows[i]);
      }
    }
    assert !(COMPLETION <= "");
  }

  lemma OpNamed(rows: seq<Row>, op: Op)
    requires Named(rows) && OpOk(rows, op)
    ensures Named(DoOp(rows, op))
  {
    hide Named, First, Update, Insert, ClaimBatch;
    assert !(COMPLETION <= "");
    match op
    case Plain(Queue(s, id, payload)) =>
      if !Any(rows, IsRow(s, id)) {
        InsertNamed(rows, s, id, payload);
      }
    case Plain(Edit(s, id, revision, payload, remove)) => UpdateNamed(rows, Edited(s, id, revision, payload, remove));
    case Plain(ClaimAll(s, batch, resume)) => ClaimNamed(rows, s, batch, resume);
    case Plain(Finish(s, batch, success)) => UpdateNamed(rows, Settle(s, batch, if success then Sent else Paused));
    case Plain(ReleaseBatch(s, batch)) => UpdateNamed(rows, Release(s, batch));
    case Plain(PauseAll(s)) => UpdateNamed(rows, Pause(s));
    case Plain(RecoverAll) => UpdateNamed(rows, Recover());
    case ClaimOneOf(s, id, revision, batch) => UpdateNamed(rows, ClaimOne(s, id, revision, batch));
  }

  // ---------------------------------------------------------------------
  // A claimed batch is frozen
  // ---------------------------------------------------------------------

  ghost predicate IsOutstanding(rows: seq<Row>, session: string, batch: string) {
    batch != "" && exists i :: 0 <= i < |rows| && OfBatch(session, batch, rows[i])
  }

  predicate RowFrozen(a: Row, b: Row, session: string, batch: string) {
    && (OfBatch(session, batch, a) <==> OfBatch(session, batch, b))
    && (OfBatch(session, batch, a) ==> b.id == a.id && b.payload == a.payload)
  }

  /** The same rows make up the batch, with the same ids and payloads. */
  ghost predicate Frozen(a: seq<Row>, b: seq<Row>, session: string, batch: string) {
    && |a| <= |b|
    && (forall i :: 0 <= i < |a| ==> RowFrozen(a[i], b[i], session, batch))
    && (forall i :: |a| <= i < |b| ==> !OfBatch(session, batch, b[i]))
  }

  predicate Settles(op: Op, session: string, batch: string) {
    op == Plain(Finish(session, batch, true)) || op == Plain(ReleaseBatch(session, batch))
  }

  lemma UpdateFrozen(rows: seq<Row>, f: Row -> Row, session: string, batch: string)
    requires forall i :: 0 <= i < |rows| ==> RowFrozen(rows[i], f(rows[i]), session, batch)
    ensures Frozen(rows, Update(rows, f), session, batch)
  {
    forall i | 0 <= i < |rows| ensures RowFrozen(rows[i], Update(rows, f)[i], session, batch) {}
  }

  lemma SameFrozen(rows: seq<Row>, session: string, batch: string)
    ensures Frozen(rows, rows, session, batch)
  {}

  lemma FrozenThen(a: seq<Row>, b: seq<Row>, c: seq<Row>, session: string, batch: string)
    requires Frozen(a, b, session, batch) && Frozen(b, c, session, batch)
    ensures Frozen(a, c, session, batch)
  {
    forall i | 0 <= i < |a| ensures RowFrozen(a[i], c[i], session, batch) {
      assert RowFrozen(a[i], b[i], session, batch) && RowFrozen(b[i], c[i], session, batch);
    }
    forall i | |a| <= i < |c| ensures !OfBatch(session, batch, c[i]) {
      if i < |b| {
        assert RowFrozen(b[i], c[i], session, batch);
      }
    }
  }

  /** All outstanding rows of a session carry the one batch, where nothing was claimed out of turn. */
  lemma OneBatch(rows: seq<Row>, session: string, batch: string)
    requires Inv(rows) && IsOutstanding(rows, session, batch)
    ensures forall i :: 0 <= i < |rows| && rows[i].session == session && Outstanding(rows[i]) ==> rows[i].batch == batch
  {
    var k :| 0 <= k < |rows| && OfBatch(session, batch, rows[k]);
    forall i | 0 <= i < |rows| && rows[i].session == session && Outstanding(rows[i]) ensures rows[i].batch == batch {
      if i < k {
        assert Ordered(rows[i], rows[k]);
      } else if k < i {
        assert Ordered(rows[k], rows[i]);
      }
    }
  }

  /** While a batch is outstanding, claiming adds nothing to it and takes nothing from it; in its own
      session only a resume claims, and returns an outstanding batch: this one, where nothing was
      claimed out of turn. */
  lemma ClaimFrozen(rows: seq<Row>, of: string, batch: string, resume: bool, session: string, outstanding: string)
    requires Named(rows) && IsOutstanding(rows, session, outstanding)
    ensures Frozen(rows, ClaimBatch(rows, of, batch, resume).rows, session, outstanding)
    ensures of == session ==>
      var claimed := ClaimBatch(rows, of, batch, resume).batch;
      && (claimed.Some? <==> resume)
      && (resume ==> IsOutstanding(rows, session, claimed.value))
      && (resume && Inv(rows) ==> claimed.value == outstanding)
  {
    hide Frozen, Inv, Named, First, Update, Take, IsOutstanding, Claimed, Claimable, Notification, PausedRow, Unpause, Resend, IsCompletion;
    var open := if resume then Update(rows, Unpause(of)) else rows;
    OutstandingNamed(rows, session, outstanding);
    UnpauseFrozen(rows, of, session, outstanding);
    SameFrozen(rows, session, outstanding);
    var e := First(open, Claimed(of));
    if of == session {
      StillClaimed(rows, open, session, outstanding, resume);
    }
    if e < |open| {
      ResendFrozen(open, of, e, session, outstanding);
      FrozenThen(rows, open, Update(open, Resend(of, open[e].batch)), session, outstanding);
    } else {
      var f := First(open, Claimable(of));
      if f < |open| {
        var limit := First(open, Notification(of));
        TakeFrozen(open, of, open[f].id, f + 1, session, outstanding);
        FrozenThen(rows, open, Take(open, of, open[f].id, f + 1), session, outstanding);
        TakeFrozen(open, of, batch, limit, session, outstanding);
        FrozenThen(rows, open, Take(open, of, batch, limit), session, outstanding);
      }
    }
  }

  lemma OutstandingNamed(rows: seq<Row>, session: string, batch: string)
    requires IsOutstanding(rows, session, batch)
    ensures batch != ""
  {}

  lemma UnpauseFrozen(rows: seq<Row>, of: string, session: string, batch: string)
    requires batch != ""
    ensures Frozen(rows, Update(rows, Unpause(of)), session, batch)
  {
    UpdateFrozen(rows, Unpause(of), session, batch);
  }

  lemma ResendFrozen(rows: seq<Row>, of: string, e: nat, session: string, batch: string)
    requires e < |rows|
    ensures Frozen(rows, Update(rows, Resend(of, rows[e].batch)), session, batch)
  {
    UpdateFrozen(rows, Resend(of, rows[e].batch), session, batch);
  }

  lemma TakeFrozen(rows: seq<Row>, of: string, b: string, limit: nat, session: string, batch: string)
    requires of != session
    ensures Frozen(rows, Take(rows, of, b, limit), session, batch)
  {}

  /** The first claimed row of a session with a batch outstanding is outstanding itself. */
  lemma StillClaimed(rows: seq<Row>, open: seq<Row>, session: string, batch: string, resume: bool)
    requires Named(rows) && IsOutstanding(rows, session, batch)
    requires open == if resume then Update(rows, Unpause(session)) else rows
    ensures var e := First(open, Claimed(session));
      && e < |open| && IsOutstanding(rows, session, open[e].batch)
      && (Inv(rows) ==> open[e].batch == batch)
  {
    hide First, InOrder, UniqueIds, Inv;
    var k :| 0 <= k < |rows| && OfBatch(session, batch, rows[k]);
    assert Claimed(session)(open[k]);
    var e := First(open, Claimed(session));
    assert e <= k;
    assert RowNamed(rows[e]);
    assert OfBatch(session, open[e].batch, rows[e]);
    if Inv(rows) {
      OneBatch(rows, session, batch);
    }
  }

  lemma InsertFrozen(rows: seq<Row>, of: string, id: string, payload: string, session: string, batch: string)
    ensures Frozen(rows, Insert(rows, of, id, payload), session, batch)
  {}

  /** A single claim is never put under the name of an outstanding batch. */
  lemma ClaimOneFrozen(rows: seq<Row>, of: string, id: string, revision: nat, b: string, session: string, batch: string)
    requires Named(rows) && OpOk(rows, ClaimOneOf(of, id, revision, b)) && IsOutstanding(rows, session, batch)
    ensures Frozen(rows, Update(rows, ClaimOne(of, id, revision, b)), session, batch)
  {
    var f := ClaimOne(of, id, revision, b);
    var k :| 0 <= k < |rows| && OfBatch(session, batch, rows[k]);
    assert RowNamed(rows[k]);
    UpdateFrozen(rows, f, session, batch);
  }

  lemma OpFrozen(rows: seq<Row>, op: Op, session: string, batch: string)
    requires Named(rows) && OpOk(rows, op) && IsOutstanding(rows, session, batch) && !Settles(op, session, batch)
    ensures Frozen(rows, DoOp(rows, op), session, batch)
  {
    hide Frozen, UniqueIds, ClaimBatch, Update, First, IsOutstanding, Insert, Any, OpOk;
    OutstandingNamed(rows, session, batch);
    match op
    case Plain(Queue(s, id, payload)) =>
      SameFrozen(rows, session, batch);
      InsertFrozen(rows, s, id, payload, session, batch);
    case Plain(Edit(s, id, revision, payload, remove)) => UpdateFrozen(rows, Edited(s, id, revision, payload, remove), session, batch);
    case Plain(ClaimAll(s, b, resume)) => ClaimFrozen(rows, s, b, resume, session, batch);
    case Plain(Finish(s, b, success)) =>
      UpdateFrozen(rows, Settle(s, b, if success then Sent else Paused), session, batch);
    case Plain(ReleaseBatch(s, b)) => UpdateFrozen(rows, Release(s, b), session, batch);
    case Plain(PauseAll(s)) =>
      QueuedUnnamed(rows);
      UpdateFrozen(rows, Pause(s), session, batch);
    case Plain(RecoverAll) =>
      QueuedUnnamed(rows);
      UpdateFrozen(rows, Recover(), session, batch);
    case ClaimOneOf(s, id, revision, b) => ClaimOneFrozen(rows, s, id, revision, b, session, batch);
  }

  lemma QueuedUnnamed(rows: seq<Row>)
    requires Named(rows)
    ensures forall i :: 0 <= i < |rows| && rows[i].state == Queued ==> rows[i].batch == ""
  {
    forall i | 0 <= i < |rows| && rows[i].state == Queued ensures rows[i].batch == "" {
      assert RowNamed(rows[i]);
    }
  }

  lemma FrozenOutstanding(a: seq<Row>, b: seq<Row>, session: string, batch: string)
    requires Frozen(a, b, session, batch) && IsOutstanding(a, session, batch)
    ensures IsOutstanding(b, session, batch)
  {
    var k :| 0 <= k < |a| && OfBatch(session, batch, a[k]);
    assert RowFrozen(a[k], b[k], session, batch);
  }

  /** A claimed batch keeps its rows, their ids and payloads and its own name, and no other row joins
      it, through failed finishes, recovery, resumes, pauses, edits, new input and single claims, until
      it is sent or released. */
  lemma {:induction false} BatchIsFrozen(rows: seq<Row>, ops: seq<Op>, session: string, batch: string)
    requires Named(rows) && OpsOk(rows, ops) && IsOutstanding(rows, session, batch)
    requires forall k :: 0 <= k < |ops| ==> !Settles(ops[k], session, batch)
    ensures Frozen(rows, RunOps(rows, ops), session, batch) && IsOutstanding(RunOps(rows, ops), session, batch)
    decreases |ops|
  {
    hide Named, DoOp, Frozen, IsOutstanding, OpOk, Settles;
    if ops == [] {
      SameFrozen(rows, session, batch);
    } else {
      var next := DoOp(rows, ops[0]);
      assert forall k :: 0 <= k < |ops[1..]| ==> ops[1..][k] == ops[k + 1];
      OpFrozen(rows, ops[0], session, batch);
      OpNamed(rows, ops[0]);
      FrozenOutstanding(rows, next, session, batch);
      BatchIsFrozen(next, ops[1..], session, batch);
      FrozenThen(rows, next, RunOps(next, ops[1..]), session, batch);
    }
  }

  /** What a claim hands out: rows that were never settled, all of them being sent now, with nothing
      unsettled before them; a notification comes alone and under its own id. */
  lemma ClaimIsFront(rows: seq<Row>, session: string, batch: string, resume: bool)
    requires Inv(rows) && batch != "" && ClaimBatch(rows, session, batch, resume).batch.Some?
    ensures var c := ClaimBatch(rows, session, batch, resume);
      && Sends(rows, c.rows, session, c.batch.value)
      && FrontAlone(c.rows, session, c.batch.value)
  {
    hide ClaimBatch, Inv, IsOutstanding, RowSent;
    var c := ClaimBatch(rows, session, batch, resume);
    ClaimKeeps(rows, session, batch, resume);
    ClaimSends(rows, session, batch, resume);
    InvFrontAlone(c.rows, session, c.batch.value);
  }

  /** Nothing unsettled stands before the batch, and a notification in it is alone and names it. */
  ghost predicate FrontAlone(rows: seq<Row>, session: string, b: string) {
    && (forall i, j :: 0 <= i < j < |rows| && rows[i].session == session && OfBatch(session, b, rows[j]) ==>
      Settled(rows[i]) || OfBatch(session, b, rows[i]))
    && (forall i :: 0 <= i < |rows| && OfBatch(session, b, rows[i]) && IsCompletion(rows[i]) ==>
      b == rows[i].id && forall k :: 0 <= k < |rows| && k != i ==> !OfBatch(session, b, rows[k]))
  }

  lemma InvFrontAlone(rows: seq<Row>, session: string, b: string)
    requires Inv(rows) && b != ""
    ensures FrontAlone(rows, session, b)
  {
    forall i, j | 0 <= i < j < |rows| && rows[i].session == session && OfBatch(session, b, rows[j])
      ensures Settled(rows[i]) || OfBatch(session, b, rows[i])
    {
      assert Ordered(rows[i], rows[j]);
    }
    forall i | 0 <= i < |rows| && OfBatch(session, b, rows[i]) && IsCompletion(rows[i])
      ensures b == rows[i].id && forall k :: 0 <= k < |rows| && k != i ==> !OfBatch(session, b, rows[k])
    {
      assert RowOk(rows[i]);
      forall k | 0 <= k < |rows| && k != i ensures !OfBatch(session, b, rows[k]) {
        if k < i {
          assert Ordered(rows[k], rows[i]);
        } else {
          assert Ordered(rows[i], rows[k]);
        }
      }
    }
  }

  /** The rows of batch `b` are being sent, were not settled, and are otherwise as they were. */
  ghost predicate Sends(rows: seq<Row>, after: seq<Row>, session: string, b: string) {
    && |after| == |rows| && b != ""
    && IsOutstanding(after, session, b)
    && forall i :: 0 <= i < |rows| && OfBatch(session, b, after[i]) ==> RowSent(rows[i], after[i])
  }

  predicate RowSent(a: Row, b: Row) {
    b.state == Sending && !Settled(a) && b.id == a.id && b.payload == a.payload
  }

  lemma ResumeSends(rows: seq<Row>, session: string, e: nat)
    requires RowsOk(rows) && e < |rows| && Claimed(session)(rows[e])
    ensures Sends(rows, Update(rows, Resend(session, rows[e].batch)), session, rows[e].batch)
  {
    var after := Update(rows, Resend(session, rows[e].batch));
    assert RowOk(rows[e]);
    assert Outstanding(after[e]);
  }

  lemma TakeSends(rows: seq<Row>, session: string, batch: string, limit: nat, f: nat)
    requires RowsOk(rows) && batch != "" && f < limit && f < |rows| && Claimable(session)(rows[f])
    requires forall i :: 0 <= i < |rows| ==> !Claimed(session)(rows[i])
    ensures Sends(rows, Take(rows, session, batch, limit), session, batch)
  {
    var after := Take(rows, session, batch, limit);
    assert Outstanding(after[f]);
    forall i | 0 <= i < |rows| && OfBatch(session, batch, after[i]) ensures RowSent(rows[i], after[i]) {
      assert !Claimed(session)(rows[i]);
    }
  }

  lemma UnpauseSame(rows: seq<Row>, after: seq<Row>, session: string, b: string)
    requires RowsOk(rows) && Sends(Update(rows, Unpause(session)), after, session, b)
    ensures Sends(rows, after, session, b)
  {
    var open := Update(rows, Unpause(session));
    forall i | 0 <= i < |rows| && OfBatch(session, b, after[i]) ensures RowSent(rows[i], after[i]) {
      assert RowSent(open[i], after[i]);
    }
  }

  lemma ClaimSends(rows: seq<Row>, session: string, batch: string, resume: bool)
    requires Inv(rows) && batch != "" && ClaimBatch(rows, session, batch, resume).batch.Some?
    ensures var c := ClaimBatch(rows, session, batch, resume);
      Sends(rows, c.rows, session, c.batch.value)
  {
    hide First, InOrder, UniqueIds, IsCompletion, Sends, Update, Take, Unpause, Resend, RowsOk, Keeps, Claimed, Claimable, Notification;
    var c := ClaimBatch(rows, session, batch, resume);
    var open := if resume then Update(rows, Unpause(session)) else rows;
    UnpauseKeeps(session);
    UpdateKeeps(rows, Unpause(session), session);
    var e := First(open, Claimed(session));
    if e < |open| {
      ResumeSends(open, session, e);
    } else {
      var f := First(open, Claimable(session));
      TakenFirst(open, session, f);
      if IsCompletion(open[f]) {
        CompletionNamed(open[f]);
        TakeSends(open, session, open[f].id, f + 1, f);
      } else {
        TakeSends(open, session, batch, First(open, Notification(session)), f);
      }
    }
    if resume {
      UnpauseSame(rows, c.rows, session, c.batch.value);
    }
  }

  lemma TakenFirst(open: seq<Row>, session: string, f: nat)
    requires f < |open| && Claimable(session)(open[f]) && f == First(open, Claimable(session))
    ensures !IsCompletion(open[f]) ==> f < First(open, Notification(session))
  {
    hide First;
    var n := First(open, Notification(session));
    if n < |open| {
      assert Claimable(session)(open[n]);
      assert Notification(session)(open[n]);
    }
  }
}
