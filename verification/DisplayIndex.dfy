/** What the derived display index and the read state should hold:
    core/session/display_index.go and core/session/read_state.go.

    The index is a table of byte spans.  `IndexRows` is the table a complete rebuild of
    the first `n` records would write; the store keeps its real table equal to it. */
module DisplayIndex {
  import opened Wrappers
  import opened JsonLines
  import opened DisplayItems
  import opened TailScan

  const ZERO_TIME_NANOS: int := -6795364578871345152

  function Nanos(t: Timestamp): int {
    match t
    case Unset => ZERO_TIME_NANOS
    case At(n) => n
  }

  datatype IndexRow = IndexRow(sequence: nat, offset: nat, length: nat, messageAt: int, kind: ContentKind)

  /** The cursor of the derived table; `observed` is the log size it was complete for, or -1. */
  datatype Marker = Marker(size: nat, mtime: nat, observed: int)

  datatype ReadState = ReadState(version: nat, readVersion: nat, completedSequence: nat)
  {
    predicate Unread() {
      version > readVersion
    }
  }

  // ---------------------------------------------------------------------
  // The log
  // ---------------------------------------------------------------------

  /** Records are numbered 1, 2, 3, ... in file order. */
  ghost predicate Numbered(items: seq<Item>) {
    forall i :: 0 <= i < |items| ==> items[i].sequence == i + 1
  }

  function Content(log: Option<Bytes>): Bytes {
    if log.Some? then log.value else []
  }

  /** The file is its complete records followed by an unterminated rest. */
  ghost predicate LogOk(c: Codec<Item>, log: Option<Bytes>, items: seq<Item>, torn: Bytes) {
    && c.Lawful()
    && Numbered(items)
    && NEWLINE !in torn
    && Content(log) == c.EncodeAll(items) + torn
  }

  lemma {:induction false} EncodeEndsLine(c: Codec<Item>, items: seq<Item>)
    ensures AtLineStart(c.EncodeAll(items))
  {
    if items != [] {
      EncodeEndsLine(c, items[1..]);
    }
  }

  /** The end of the complete lines is the end of the records. */
  lemma CompleteEndIsRecords(c: Codec<Item>, items: seq<Item>, torn: Bytes, end: nat)
    requires NEWLINE !in torn && IsCompleteEnd(c.EncodeAll(items) + torn, end)
    ensures end == |c.EncodeAll(items)|
    ensures (c.EncodeAll(items) + torn)[..end] == c.EncodeAll(items)
  {
    EncodeEndsLine(c, items);
    var whole := c.EncodeAll(items);
    var data := whole + torn;
    assert forall k :: |whole| <= k < |data| ==> data[k] == torn[k - |whole|];
    assert whole != [] ==> data[|whole| - 1] == NEWLINE;
  }

  lemma LastIsCount(items: seq<Item>)
    requires Numbered(items)
    ensures (if items == [] then 0 else Last(items).sequence) == |items|
  {}

  /** The line that starts where record `n` starts is record `n`. */
  lemma LineAt(c: Codec<Item>, items: seq<Item>, torn: Bytes, data: Bytes, n: nat)
    requires c.Lawful() && n < |items| && data == c.EncodeAll(items) + torn
    ensures var start, end := c.Offset(items, n), c.Offset(items, n + 1);
      && start < end <= |data|
      && FirstNewline(data, start) == end - 1
      && data[start..end] == c.encode(items[n]) + [NEWLINE]
  {
    OffsetStep(c, items, n);
    NewlineInside(c.EncodeAll(items), torn, c.Offset(items, n), c.encode(items[n]));
  }

  lemma NewlineInside(whole: Bytes, torn: Bytes, start: nat, line: Bytes)
    requires NEWLINE !in line && start + |line| + 1 <= |whole|
    requires whole[start..start + |line| + 1] == line + [NEWLINE]
    ensures FirstNewline(whole + torn, start) == start + |line|
    ensures (whole + torn)[start..start + |line| + 1] == line + [NEWLINE]
  {
    assert (whole + torn)[start..start + |line| + 1] == whole[start..start + |line| + 1];
    NewlineAfter(whole + torn, start, line);
  }

  /** After the last record there is no further line. */
  lemma NoLineAtEnd(c: Codec<Item>, items: seq<Item>, torn: Bytes, data: Bytes)
    requires NEWLINE !in torn && data == c.EncodeAll(items) + torn
    ensures c.Offset(items, |items|) == |data| - |torn|
    ensures FirstNewline(data, |data| - |torn|) == -1
  {
    assert items[..|items|] == items;
    NoNewlineIn(c.EncodeAll(items), torn);
  }

  lemma NoNewlineIn(head: Bytes, torn: Bytes)
    requires NEWLINE !in torn
    ensures FirstNewline(head + torn, |head|) == -1
  {
    assert forall k :: 0 <= k < |torn| ==> torn[k] != NEWLINE;
  }

  lemma NewlineAfter(data: Bytes, start: nat, line: Bytes)
    requires start + |line| < |data| && NEWLINE !in line
    requires data[start..start + |line| + 1] == line + [NEWLINE]
    ensures FirstNewline(data, start) == start + |line|
  {
    var slice := data[start..start + |line| + 1];
    assert slice[|line|] == NEWLINE;
    assert forall k :: 0 <= k < |line| ==> line[k] != NEWLINE;
    assert forall k :: start <= k < start + |line| ==> data[k] == slice[k - start] == line[k - start];
  }

  // ---------------------------------------------------------------------
  // The table
  // ---------------------------------------------------------------------

  function RowOf(c: Codec<Item>, items: seq<Item>, i: nat): IndexRow
    requires i < |items|
  {
    IndexRow(items[i].sequence, c.Offset(items, i), |c.encode(items[i])| + 1, Nanos(items[i].createdAt), Kind(items[i]))
  }

  /** The table of the first `n` records. */
  function IndexRows(c: Codec<Item>, items: seq<Item>, n: nat): seq<IndexRow>
    requires n <= |items|
  {
    if n == 0 then [] else IndexRows(c, items, n - 1) + [RowOf(c, items, n - 1)]
  }

  lemma {:induction false} IndexRowsLength(c: Codec<Item>, items: seq<Item>, n: nat)
    requires n <= |items|
    ensures |IndexRows(c, items, n)| == n
    ensures forall i :: 0 <= i < n ==> IndexRows(c, items, n)[i] == RowOf(c, items, i)
  {
    if n > 0 {
      IndexRowsLength(c, items, n - 1);
    }
  }

  /** Later records do not move earlier rows. */
  lemma {:induction false} IndexRowsStable(c: Codec<Item>, items: seq<Item>, more: seq<Item>, n: nat)
    requires n <= |items|
    ensures IndexRows(c, items + more, n) == IndexRows(c, items, n)
    ensures c.Offset(items + more, n) == c.Offset(items, n)
  {
    assert (items + more)[..n] == items[..n];
    if n > 0 {
      IndexRowsStable(c, items, more, n - 1);
    }
  }

  /** INSERT OR REPLACE into a table kept in primary-key order. */
  function Upsert(table: seq<IndexRow>, row: IndexRow): seq<IndexRow> {
    if table == [] then [row]
    else
      var last := table[|table| - 1];
      var front := table[..|table| - 1];
      if last.sequence < row.sequence then table + [row]
      else if last.sequence == row.sequence then front + [row]
      else Upsert(front, row) + [last]
  }

  lemma UpsertNext(c: Codec<Item>, items: seq<Item>, n: nat)
    requires Numbered(items) && n < |items|
    ensures Upsert(IndexRows(c, items, n), RowOf(c, items, n)) == IndexRows(c, items, n + 1)
  {
    IndexRowsLength(c, items, n);
  }

  /** The table and marker describe exactly the first `indexed` records, and a marker that
      matches the file's size and stamp means that those are all of them. */
  ghost predicate IndexOk(c: Codec<Item>, log: Option<Bytes>, mtime: nat, items: seq<Item>,
                          rows: seq<IndexRow>, marker: Option<Marker>, indexed: nat)
  {
    marker.Some? ==>
      && indexed <= |items|
      && rows == IndexRows(c, items, indexed)
      && marker.value.size == c.Offset(items, indexed)
      && marker.value.mtime <= mtime
      && (marker.value.mtime == mtime && marker.value.observed == |Content(log)| ==> indexed == |items|)
  }

  // ---------------------------------------------------------------------
  // Read state
  // ---------------------------------------------------------------------

  function TerminalCount(items: seq<Item>): nat {
    if items == [] then 0
    else TerminalCount(items[..|items| - 1]) + if IsTerminalTurn(items[|items| - 1]) then 1 else 0
  }

  /** The sequence of the last terminal record, or 0. */
  function LastTerminal(items: seq<Item>): nat {
    if items == [] then 0
    else if IsTerminalTurn(items[|items| - 1]) then items[|items| - 1].sequence
    else LastTerminal(items[..|items| - 1])
  }

  lemma {:induction false} LastTerminalBound(items: seq<Item>)
    requires Numbered(items)
    ensures LastTerminal(items) <= |items|
    ensures forall i :: 0 <= i < |items| && IsTerminalTurn(items[i]) ==> i + 1 <= LastTerminal(items)
  {
    if items != [] {
      LastTerminalBound(items[..|items| - 1]);
      assert forall i :: 0 <= i < |items| - 1 ==> items[..|items| - 1][i] == items[i];
    }
  }

  function StateOf(row: Option<ReadState>): ReadState {
    if row.Some? then row.value else ReadState(0, 0, 0)
  }

  /** The upsert of the index transaction: a completion counts only past the last counted one. */
  function RecordCompletion(row: Option<ReadState>, sequence: nat): Option<ReadState> {
    match row
    case None => Some(ReadState(1, 0, sequence))
    case Some(s) =>
      if sequence > s.completedSequence then Some(s.(version := s.version + 1, completedSequence := sequence))
      else row
  }

  /** The version counts the terminal records among the first `ever` ones, once each, and
      the manual unread marks. */
  ghost predicate ReadOk(row: Option<ReadState>, items: seq<Item>, ever: nat, marks: nat) {
    && ever <= |items|
    && StateOf(row).version == TerminalCount(items[..ever]) + marks
    && StateOf(row).completedSequence == LastTerminal(items[..ever])
    && StateOf(row).readVersion <= StateOf(row).version
  }

  function Max(a: nat, b: nat): nat {
    if a < b then b else a
  }

  /** Indexing record `n` again changes nothing; indexing it first counts it if it ends a turn. */
  lemma RecordOnce(row: Option<ReadState>, items: seq<Item>, ever: nat, marks: nat, n: nat)
    requires Numbered(items) && n < |items| && n <= ever && ReadOk(row, items, ever, marks)
    ensures
      var row' := if IsTerminalTurn(items[n]) then RecordCompletion(row, items[n].sequence) else row;
      ReadOk(row', items, Max(ever, n + 1), marks)
  {
    LastTerminalBound(items[..ever]);
    if n < ever {
      assert items[..ever][n] == items[n];
    } else {
      assert items[..n + 1][..n] == items[..n];
    }
  }

  lemma ReadOkGrows(row: Option<ReadState>, items: seq<Item>, more: seq<Item>, ever: nat, marks: nat)
    requires ReadOk(row, items, ever, marks)
    ensures ReadOk(row, items + more, ever, marks)
  {
    assert (items + more)[..ever] == items[..ever];
  }

  /** SetSessionReadState: nothing named means mark unread; a version means acknowledge up to it. */
  function MarkOrAcknowledge(row: Option<ReadState>, readVersion: Option<nat>): ReadState {
    var s := StateOf(row);
    match readVersion
    case None => s.(version := s.version + 1)
    case Some(v) =>
      var capped := if v < s.version then v else s.version;
      s.(readVersion := Max(s.readVersion, capped))
  }

  /** Completions and unread marks, in any order and number. */
  datatype ReadEvent = Completed(sequence: nat) | MarkedUnread | Acknowledged(version: nat)

  function ApplyEvent(row: Option<ReadState>, e: ReadEvent): Option<ReadState> {
    match e
    case Completed(n) => RecordCompletion(row, n)
    case MarkedUnread => Some(MarkOrAcknowledge(row, None))
    case Acknowledged(v) => Some(MarkOrAcknowledge(row, Some(v)))
  }

  function ApplyEvents(row: Option<ReadState>, events: seq<ReadEvent>): Option<ReadState>
    decreases |events|
  {
    if events == [] then row else ApplyEvents(ApplyEvent(row, events[0]), events[1..])
  }

  lemma {:induction false} EventsMonotone(row: Option<ReadState>, events: seq<ReadEvent>)
    requires StateOf(row).readVersion <= StateOf(row).version
    ensures StateOf(row).version <= StateOf(ApplyEvents(row, events)).version
    ensures StateOf(row).readVersion <= StateOf(ApplyEvents(row, events)).readVersion
    ensures StateOf(row).completedSequence <= StateOf(ApplyEvents(row, events)).completedSequence
    ensures StateOf(ApplyEvents(row, events)).readVersion <= StateOf(ApplyEvents(row, events)).version
    decreases |events|
  {
    if events != [] {
      EventsMonotone(ApplyEvent(row, events[0]), events[1..]);
    }
  }

  /** A delayed acknowledgement of what a client saw at `seen` clears nothing that came
      afterwards: after a later completion or unread mark the session stays unread,
      whatever else happened in between, unless a client acknowledged the later version. */
  lemma {:induction false} DelayedAckKeepsUnread(seen: Option<ReadState>, events: seq<ReadEvent>, at: nat)
    requires StateOf(seen).readVersion <= StateOf(seen).version
    requires forall i :: 0 <= i < |events| && events[i].Acknowledged? ==> events[i].version <= StateOf(seen).version
    requires at < |events|
    requires events[at].MarkedUnread? ||
      (events[at].Completed? && events[at].sequence > StateOf(ApplyEvents(seen, events[..at])).completedSequence)
    ensures StateOf(ApplyEvents(seen, events)).Unread()
  {
    AcksBelowCap(seen, events, StateOf(seen).version);
    EventsSplit(seen, events, at);
    EventsMonotone(seen, events[..at]);
    var before := ApplyEvents(seen, events[..at]);
    var after := ApplyEvent(before, events[at]);
    EventsMonotone(after, events[at + 1..]);
  }

  lemma {:induction false} AcksBelowCap(row: Option<ReadState>, events: seq<ReadEvent>, cap: nat)
    requires StateOf(row).readVersion <= cap
    requires forall i :: 0 <= i < |events| && events[i].Acknowledged? ==> events[i].version <= cap
    ensures StateOf(ApplyEvents(row, events)).readVersion <= cap
    decreases |events|
  {
    if events != [] {
      AcksBelowCap(ApplyEvent(row, events[0]), events[1..], cap);
    }
  }

  lemma {:induction false} EventsSplit(row: Option<ReadState>, events: seq<ReadEvent>, at: nat)
    requires at < |events|
    ensures ApplyEvents(row, events) == ApplyEvents(ApplyEvent(ApplyEvents(row, events[..at]), events[at]), events[at + 1..])
    decreases |events|
  {
    if at > 0 {
      EventsSplit(ApplyEvent(row, events[0]), events[1..], at - 1);
      assert events[..at][1..] == events[1..][..at - 1];
      assert events[1..][at - 1 + 1..] == events[at + 1..];
    }
  }
}
