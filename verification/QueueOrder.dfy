/** One batch at a time, in order: what every operation on the input queue keeps. */
module QueueOrder {
  import opened Wrappers
  import opened InputQueue

  // ---------------------------------------------------------------------
  // What every operation keeps
  // ---------------------------------------------------------------------

  /** States and batch identities that go together. */
  predicate RowOk(r: Row) {
    && (r.state == Queued || r.state == Cancelled ==> r.batch == "")
    && (r.state == Sending || r.state == Sent ==> r.batch != "")
    && (IsCompletion(r) && r.batch != "" ==> r.batch == r.id)
  }

  ghost predicate RowsOk(rows: seq<Row>) {
    forall i :: 0 <= i < |rows| ==> RowOk(rows[i])
  }

  ghost predicate UniqueIds(rows: seq<Row>) {
    forall i, j :: 0 <= i < j < |rows| ==> rows[i].session != rows[j].session || rows[i].id != rows[j].id
  }

  /** What a row may be when it stands before (or behind) another one of its session. */
  predicate Ordered(a: Row, b: Row) {
    a.session == b.session ==>
      && (b.state == Sent ==> Settled(a))
      && (Outstanding(b) ==> Settled(a) || (Outstanding(a) && a.batch == b.batch && !IsCompletion(a) && !IsCompletion(b)))
  }

  /** One batch at a time, a prefix of what is not settled; notifications by themselves. */
  ghost predicate InOrder(rows: seq<Row>) {
    forall i, j :: 0 <= i < j < |rows| ==> Ordered(rows[i], rows[j])
  }

  ghost predicate Inv(rows: seq<Row>) {
    RowsOk(rows) && UniqueIds(rows) && InOrder(rows)
  }

  /** An update that keeps identities, and turns rows only in ways that cannot break the order. */
  ghost predicate Keeps(f: Row -> Row, session: string) {
    && (forall r :: f(r).session == r.session && f(r).id == r.id)
    && (forall r :: RowOk(r) ==> RowOk(f(r)))
    && (forall a, b :: RowOk(a) && RowOk(b) && Ordered(a, b) ==> Ordered(f(a), f(b)))
  }

  lemma UpdateKeeps(rows: seq<Row>, f: Row -> Row, session: string)
    requires Inv(rows) && Keeps(f, session)
    ensures Inv(Update(rows, f))
  {
    var r := Update(rows, f);
    forall i, j | 0 <= i < j < |r| ensures Ordered(r[i], r[j]) {
      assert Ordered(rows[i], rows[j]);
    }
    forall i, j | 0 <= i < j < |r| ensures r[i].session != r[j].session || r[i].id != r[j].id {
      assert rows[i].session != rows[j].session || rows[i].id != rows[j].id;
    }
  }

  lemma EditedKeeps(session: string, id: string, revision: nat, payload: string, remove: bool)
    ensures Keeps(Edited(session, id, revision, payload, remove), session)
  {}

  lemma SettleKeeps(session: string, batch: string, success: bool)
    requires batch != ""
    ensures Keeps(Settle(session, batch, if success then Sent else Paused), session)
  {}

  lemma ReleaseKeeps(session: string, batch: string)
    requires batch != ""
    ensures Keeps(Release(session, batch), session)
  {}

  lemma PauseKeeps(session: string)
    ensures Keeps(Pause(session), session)
  {}

  lemma RecoverKeeps(session: string)
    ensures Keeps(Recover(), session)
  {}

  lemma UnpauseKeeps(session: string)
    ensures Keeps(Unpause(session), session)
  {}

  lemma ResendKeeps(session: string, batch: string)
    requires batch != ""
    ensures Keeps(Resend(session, batch), session)
  {}

  lemma InsertKeeps(rows: seq<Row>, session: string, id: string, payload: string)
    requires Inv(rows) && !Any(rows, IsRow(session, id))
    ensures Inv(Insert(rows, session, id, payload))
  {
    var r := Insert(rows, session, id, payload);
    forall i, j | 0 <= i < j < |r| ensures r[i].session != r[j].session || r[i].id != r[j].id {
      if j == |rows| {
        assert !IsRow(session, id)(rows[i]);
      }
    }
    forall i, j | 0 <= i < j < |r| ensures Ordered(r[i], r[j]) {
      if j < |rows| {
        assert Ordered(rows[i], rows[j]);
      }
    }
  }

  /** A batch may be taken where none is outstanding: ordinary inputs up to the first notification,
      or one notification that has nothing to be claimed before it. */
  ghost predicate Takeable(rows: seq<Row>, session: string, batch: string, limit: nat) {
    && limit <= |rows|
    && (forall i :: 0 <= i < |rows| ==> !Claimed(session)(rows[i]))
    && (OnlyInputs(rows, session, limit) || (limit > 0 && batch == rows[limit - 1].id && NoneBefore(rows, session, limit - 1)))
  }

  ghost predicate OnlyInputs(rows: seq<Row>, session: string, limit: nat)
    requires limit <= |rows|
  {
    forall i :: 0 <= i < limit && Claimable(session)(rows[i]) ==> !IsCompletion(rows[i])
  }

  ghost predicate NoneBefore(rows: seq<Row>, session: string, limit: nat)
    requires limit <= |rows|
  {
    forall i :: 0 <= i < limit ==> !Claimable(session)(rows[i])
  }

  lemma UnclaimedIsSettled(r: Row, session: string)
    requires RowOk(r) && r.session == session && !Claimed(session)(r) && !Claimable(session)(r)
    ensures Settled(r)
  {}

  lemma TakeKeeps(rows: seq<Row>, session: string, batch: string, limit: nat)
    requires Inv(rows) && batch != "" && Takeable(rows, session, batch, limit)
    ensures Inv(Take(rows, session, batch, limit))
  {
    var r := Take(rows, session, batch, limit);
    forall i, j | 0 <= i < j < |r| ensures r[i].session != r[j].session || r[i].id != r[j].id {
      assert rows[i].session != rows[j].session || rows[i].id != rows[j].id;
    }
    forall i, j | 0 <= i < j < |r| ensures Ordered(r[i], r[j]) {
      assert Ordered(rows[i], rows[j]);
      assert !Claimed(session)(rows[i]) && !Claimed(session)(rows[j]);
      if rows[i].session == session == rows[j].session && !Claimable(session)(rows[i]) {
        UnclaimedIsSettled(rows[i], session);
      }
    }
    forall i | 0 <= i < |r| ensures RowOk(r[i]) {
      assert RowOk(rows[i]);
    }
  }

  lemma NoneClaimed(rows: seq<Row>, session: string)
    requires First(rows, Claimed(session)) == |rows|
    ensures forall i :: 0 <= i < |rows| ==> !Claimed(session)(rows[i])
  {
    hide First;
  }

  lemma CompletionNamed(r: Row)
    requires IsCompletion(r)
    ensures r.id != ""
  {
    assert COMPLETION[0] == 'c';
  }

  lemma NotificationTakeable(rows: seq<Row>, session: string, f: nat)
    requires First(rows, Claimed(session)) == |rows|
    requires f == First(rows, Claimable(session)) && f < |rows| && IsCompletion(rows[f])
    ensures Takeable(rows, session, rows[f].id, f + 1) && rows[f].id != ""
  {
    hide First, IsCompletion, Claimed, Claimable;
    NoneClaimed(rows, session);
    CompletionNamed(rows[f]);
    assert NoneBefore(rows, session, f);
  }

  lemma InputsTakeable(rows: seq<Row>, session: string, batch: string)
    requires First(rows, Claimed(session)) == |rows|
    ensures Takeable(rows, session, batch, First(rows, Notification(session)))
  {
    hide First, IsCompletion;
    NoneClaimed(rows, session);
    var limit := First(rows, Notification(session));
    forall i | 0 <= i < limit && Claimable(session)(rows[i]) ensures !IsCompletion(rows[i]) {
      assert !Notification(session)(rows[i]);
    }
  }

  lemma ClaimedNamed(rows: seq<Row>, session: string)
    ensures var e := First(rows, Claimed(session)); e < |rows| ==> rows[e].batch != ""
  {
    hide First;
  }

  lemma ClaimKeeps(rows: seq<Row>, session: string, batch: string, resume: bool)
    requires Inv(rows) && batch != ""
    ensures Inv(ClaimBatch(rows, session, batch, resume).rows)
  {
    hide Inv, First, Keeps, Update, Take, Unpause, Resend, Claimed, Claimable, Notification, PausedRow, IsCompletion, Takeable;
    var open := if resume then Update(rows, Unpause(session)) else rows;
    UnpauseKeeps(session);
    UpdateKeeps(rows, Unpause(session), session);
    var e := First(open, Claimed(session));
    ClaimedNamed(open, session);
    if e < |open| {
      ResendKeeps(session, open[e].batch);
      UpdateKeeps(open, Resend(session, open[e].batch), session);
    } else {
      var f := First(open, Claimable(session));
      if f < |open| && IsCompletion(open[f]) {
        NotificationTakeable(open, session, f);
        TakeKeeps(open, session, open[f].id, f + 1);
      } else {
        InputsTakeable(open, session, batch);
        TakeKeeps(open, session, batch, First(open, Notification(session)));
      }
    }
  }

  // ---------------------------------------------------------------------
  // Runs
  // ---------------------------------------------------------------------

  /** One operation on the queue; single claims are not among them. */
  datatype Step =
    | Queue(session: string, id: string, payload: string)
    | Edit(session: string, id: string, revision: nat, payload: string, remove: bool)
    | ClaimAll(session: string, batch: string, resume: bool)
    | Finish(session: string, batch: string, success: bool)
    | ReleaseBatch(session: string, batch: string)
    | PauseAll(session: string)
    | RecoverAll

  /** Callers name batches. */
  predicate StepOk(l: Step) {
    l.ClaimAll? || l.Finish? || l.ReleaseBatch? ==> l.batch != ""
  }

  function Do(rows: seq<Row>, l: Step): seq<Row> {
    match l
    case Queue(s, id, payload) => QueueInput(rows, s, id, payload)
    case Edit(s, id, revision, payload, remove) => Update(rows, Edited(s, id, revision, payload, remove))
    case ClaimAll(s, batch, resume) => ClaimBatch(rows, s, batch, resume).rows
    case Finish(s, batch, success) => Update(rows, Settle(s, batch, if success then Sent else Paused))
    case ReleaseBatch(s, batch) => Update(rows, Release(s, batch))
    case PauseAll(s) => Update(rows, Pause(s))
    case RecoverAll => Update(rows, Recover())
  }

  lemma StepInv(rows: seq<Row>, l: Step)
    requires Inv(rows) && StepOk(l)
    ensures Inv(Do(rows, l))
  {
    hide Inv, Keeps, First, Update, Insert, ClaimBatch;
    match l
    case Queue(s, id, payload) =>
      if !Any(rows, IsRow(s, id)) {
        InsertKeeps(rows, s, id, payload);
      }
    case Edit(s, id, revision, payload, remove) =>
      EditedKeeps(s, id, revision, payload, remove);
      UpdateKeeps(rows, Edited(s, id, revision, payload, remove), s);
    case ClaimAll(s, batch, resume) => ClaimKeeps(rows, s, batch, resume);
    case Finish(s, batch, success) =>
      SettleKeeps(s, batch, success);
      UpdateKeeps(rows, Settle(s, batch, if success then Sent else Paused), s);
    case ReleaseBatch(s, batch) =>
      ReleaseKeeps(s, batch);
      UpdateKeeps(rows, Release(s, batch), s);
    case PauseAll(s) =>
      PauseKeeps(s);
      UpdateKeeps(rows, Pause(s), s);
    case RecoverAll =>
      RecoverKeeps("");
      UpdateKeeps(rows, Recover(), "");
  }

  function Run(rows: seq<Row>, steps: seq<Step>): seq<Row> {
    if steps == [] then rows else Do(Run(rows, steps[..|steps| - 1]), steps[|steps| - 1])
  }

  ghost predicate StepsOk(steps: seq<Step>) {
    forall k :: 0 <= k < |steps| ==> StepOk(steps[k])
  }

  lemma {:induction false} RunInv(rows: seq<Row>, steps: seq<Step>)
    requires Inv(rows) && StepsOk(steps)
    ensures Inv(Run(rows, steps))
    decreases |steps|
  {
    hide Inv, Do;
    if steps != [] {
      RunInv(rows, steps[..|steps| - 1]);
      StepInv(Run(rows, steps[..|steps| - 1]), steps[|steps| - 1]);
    }
  }

  /** In every run at most one batch of a session is outstanding, and a row is sent only when every
      earlier row of its session is sent or cancelled. */
  lemma OneBatchInOrder(rows: seq<Row>, steps: seq<Step>, i: nat, j: nat)
    requires Inv(rows) && StepsOk(steps) && i < j < |Run(rows, steps)|
    requires Run(rows, steps)[i].session == Run(rows, steps)[j].session
    ensures var a, b := Run(rows, steps)[i], Run(rows, steps)[j];
      && (Outstanding(a) && Outstanding(b) ==> a.batch == b.batch && !IsCompletion(a) && !IsCompletion(b))
      && (b.state == Sent ==> Settled(a))
      && (Outstanding(b) ==> Settled(a) || Outstanding(a))
  {
    hide Run;
    RunInv(rows, steps);
    assert Ordered(Run(rows, steps)[i], Run(rows, steps)[j]);
  }
}
