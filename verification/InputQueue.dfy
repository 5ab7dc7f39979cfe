/** The queue of inputs for running sessions: core/workspace/input_queue.go.

    The queue table is the sequence of its rows by sequence number; a statement updates every row it
    selects, and a transaction is one step. */
module InputQueue {
  import opened Wrappers

  datatype State = Queued | Paused | Sending | Sent | Cancelled

  datatype Row = Row(session: string, id: string, payload: string, state: State, batch: string, revision: nat)

  const COMPLETION: string := "completion:"

  predicate IsCompletion(r: Row) {
    COMPLETION <= r.id
  }

  /** Claimed and not yet settled: its batch identity is frozen. */
  predicate Outstanding(r: Row) {
    r.batch != "" && (r.state == Paused || r.state == Sending)
  }

  /** Still the client's to edit, and next to be claimed. */
  predicate Editable(r: Row) {
    r.batch == "" && (r.state == Queued || r.state == Paused)
  }

  predicate Settled(r: Row) {
    r.state == Sent || r.state == Cancelled
  }

  /** The row after a statement that updates it. */
  function Touch(r: Row, state: State, batch: string): Row {
    r.(state := state, batch := batch, revision := r.revision + 1)
  }

  /** Runs an update on every row. */
  function Update(rows: seq<Row>, f: Row -> Row): (r: seq<Row>)
    ensures |r| == |rows| && forall i :: 0 <= i < |rows| ==> r[i] == f(rows[i])
  {
    seq(|rows|, i requires 0 <= i < |rows| => f(rows[i]))
  }

  /** The first row that satisfies `p`, or the number of rows. */
  function First(rows: seq<Row>, p: Row -> bool): (i: nat)
    ensures i <= |rows|
    ensures i < |rows| ==> p(rows[i])
    ensures forall k :: 0 <= k < i ==> !p(rows[k])
    decreases |rows|
  {
    if rows == [] then 0
    else if p(rows[|rows| - 1]) then
      var k := First(rows[..|rows| - 1], p);
      k
    else
      var k := First(rows[..|rows| - 1], p);
      if k == |rows| - 1 then |rows| else k
  }

  predicate Any(rows: seq<Row>, p: Row -> bool) {
    First(rows, p) < |rows|
  }

  // ---------------------------------------------------------------------
  // Statements
  // ---------------------------------------------------------------------

  function IsRow(session: string, id: string): Row -> bool {
    (r: Row) => r.session == session && r.id == id
  }

  function Insert(rows: seq<Row>, session: string, id: string, payload: string): seq<Row> {
    rows + [Row(session, id, payload, Queued, "", 1)]
  }

  function QueueInput(rows: seq<Row>, session: string, id: string, payload: string): seq<Row> {
    if Any(rows, IsRow(session, id)) then rows else Insert(rows, session, id, payload)
  }

  predicate Matches(session: string, id: string, revision: nat, r: Row) {
    r.session == session && r.id == id && r.revision == revision && Editable(r)
  }

  function Edited(session: string, id: string, revision: nat, payload: string, remove: bool): Row -> Row {
    (r: Row) =>
      if !Matches(session, id, revision, r) then r
      else if remove then Touch(r, Cancelled, r.batch)
      else Touch(r, r.state, r.batch).(payload := payload)
  }

  /** Takes one row out of turn. */
  function ClaimOne(session: string, id: string, revision: nat, batch: string): Row -> Row {
    (r: Row) => if Matches(session, id, revision, r) then Touch(r, Sending, batch) else r
  }

  predicate OfBatch(session: string, batch: string, r: Row) {
    r.session == session && r.batch == batch && (r.state == Paused || r.state == Sending)
  }

  function Settle(session: string, batch: string, state: State): Row -> Row {
    (r: Row) => if OfBatch(session, batch, r) then Touch(r, state, r.batch) else r
  }

  function Release(session: string, batch: string): Row -> Row {
    (r: Row) => if OfBatch(session, batch, r) then Touch(r, Queued, "") else r
  }

  function Pause(session: string): Row -> Row {
    (r: Row) => if r.session == session && r.state == Queued then Touch(r, Paused, r.batch) else r
  }

  function Recover(): Row -> Row {
    (r: Row) => if r.state == Queued || r.state == Sending then Touch(r, Paused, r.batch) else r
  }

  function Unpause(session: string): Row -> Row {
    (r: Row) => if r.session == session && r.state == Paused && r.batch == "" then Touch(r, Queued, "") else r
  }

  function Resend(session: string, batch: string): Row -> Row {
    (r: Row) => if r.session == session && r.batch == batch && r.state == Paused then Touch(r, Sending, batch) else r
  }

  function Claimed(session: string): Row -> bool {
    (r: Row) => r.session == session && r.batch != "" && !Settled(r)
  }

  function PausedRow(session: string): Row -> bool {
    (r: Row) => r.session == session && r.state == Paused
  }

  function Claimable(session: string): Row -> bool {
    (r: Row) => r.session == session && Editable(r)
  }

  function Notification(session: string): Row -> bool {
    (r: Row) => r.session == session && Editable(r) && IsCompletion(r)
  }

  /** Takes the claimable rows before position `limit` into a batch. */
  function Take(rows: seq<Row>, session: string, batch: string, limit: nat): (r: seq<Row>)
    ensures |r| == |rows|
    ensures forall i :: 0 <= i < |rows| ==>
      r[i] == if i < limit && Claimable(session)(rows[i]) then Touch(rows[i], Sending, batch) else rows[i]
  {
    seq(|rows|, i requires 0 <= i < |rows| =>
      if i < limit && Claimable(session)(rows[i]) then Touch(rows[i], Sending, batch) else rows[i])
  }

  datatype Claim = Claim(rows: seq<Row>, batch: Option<string>)

  /** Claims the next batch of a session, or the outstanding one again when resuming. */
  function ClaimBatch(rows: seq<Row>, session: string, batch: string, resume: bool): Claim {
    var open := if resume then Update(rows, Unpause(session)) else rows;
    var e := First(open, Claimed(session));
    if e < |open| then
      if !resume then Claim(rows, None)
      else Claim(Update(open, Resend(session, open[e].batch)), Some(open[e].batch))
    else if !resume && Any(open, PausedRow(session)) then Claim(rows, None)
    else
      var f := First(open, Claimable(session));
      if f == |open| then Claim(rows, None)
      else if IsCompletion(open[f]) then Claim(Take(open, session, open[f].id, f + 1), Some(open[f].id))
      else Claim(Take(open, session, batch, First(open, Notification(session))), Some(batch))
  }
}
