/** One session's display log, its derived index and its read state:
    core/session/file_store.go, core/session/display_index.go, core/session/read_state.go.

    Every method leaves `Valid()` true, whatever write fails, wherever it is cut and
    whichever index transaction is lost, so the invariant holds in every reachable state. */
module FileStores {
  import opened Wrappers
  import opened JsonLines
  import opened DisplayItems
  import opened DisplayIndex
  import opened DisplayPaging
  import opened IndexedPaging
  import opened Sorting
  import opened TailScan

  const BATCH_LIMIT: nat := 256

  datatype AppendError = LogCorrupt | LogChanged | WriteFailed

  datatype IndexError = NoLog | BadRecord | TransactionFailed

  datatype PageError = InvalidLimit | IndexPending | BadSpan

  /** How a write ends: complete, or cut after some bytes by an error or a crash. */
  datatype WriteOutcome = Written | Cut(bytes: nat)

  function Decimal(n: nat): string {
    var digit := ["0", "1", "2", "3", "4", "5", "6", "7", "8", "9"][n % 10];
    if n < 10 then digit else Decimal(n / 10) + digit
  }

  /** A record as it is stored: numbered, named if it had no name, dated if it had no date. */
  function Stamp(session: string, item: Item, sequence: nat, now: int): Item {
    item.(sequence := sequence,
          id := if item.id == "" then "item_" + session + "_" + Decimal(sequence) else item.id,
          createdAt := if item.createdAt.Unset? then At(now) else item.createdAt)
  }

  function StampAll(session: string, items: seq<Item>, last: nat, now: int): (stored: seq<Item>)
    ensures |stored| == |items|
  {
    if items == [] then []
    else
      var n := |items| - 1;
      StampAll(session, items[..n], last, now) + [Stamp(session, items[n], last + n + 1, now)]
  }

  lemma {:induction false} StampAllNumbers(session: string, items: seq<Item>, last: nat, now: int)
    ensures forall i :: 0 <= i < |items| ==>
      StampAll(session, items, last, now)[i] == Stamp(session, items[i], last + i + 1, now)
  {
    if items != [] {
      StampAllNumbers(session, items[..|items| - 1], last, now);
    }
  }

  class FileStore {
    const session: string
    const codec: Codec<Item>
    var log: Option<Bytes>
    var mtime: nat
    var rows: seq<IndexRow>
    var marker: Option<Marker>
    var readState: Option<ReadState>

    /** The complete records of the log, and the unterminated bytes after them. */
    ghost var items: seq<Item>
    ghost var torn: Bytes
    /** How many records the marker stands for, and how many were ever indexed. */
    ghost var indexed: nat
    ghost var everIndexed: nat
    ghost var unreadMarks: nat

    ghost predicate Valid()
      reads this
    {
      && LogOk(codec, log, items, torn)
      && IndexOk(codec, log, mtime, items, rows, marker, indexed)
      && ReadOk(readState, items, everIndexed, unreadMarks)
      && (marker.Some? ==> indexed <= everIndexed)
      && (log.None? ==> rows == [])
    }

    constructor (session: string, codec: Codec<Item>)
      requires codec.Lawful()
      ensures Valid() && this.session == session && this.codec == codec
      ensures log == None && items == [] && marker == None && readState == None
      ensures everIndexed == unreadMarks == 0
    {
      this.session, this.codec := session, codec;
      log, mtime, rows, marker, readState := None, 0, [], None, None;
      items, torn, indexed, everIndexed, unreadMarks := [], [], 0, 0, 0;
    }

    // -------------------------------------------------------------------
    // Appending
    // -------------------------------------------------------------------

    /** Reads the tail of the log and drops an unterminated rest, as every append does first. */
    method RepairTail() returns (last: Option<nat>)
      requires Valid()
      modifies `log, `mtime, `torn
      ensures Valid() && torn == []
      ensures last == Some(|items|)
    {
      hide IndexRows, TerminalCount, LastTerminal, ReadOk;
      DecodeEncoded(codec, items, torn);
      LastIsCount(items);
      var tail := LastDisplaySequence(codec, log);
      if tail.None? {
        return None;
      }
      if tail.value.completeEnd >= 0 {
        CompleteEndIsRecords(codec, items, torn, tail.value.completeEnd);
        if |log.value| > tail.value.completeEnd {
          log, mtime := Some(log.value[..tail.value.completeEnd]), mtime + 1;
        }
      }
      torn := [];
      last := Some(tail.value.lastSequence);
    }

    /** Writes `data`, the encoding of `stored`, after the existing records.  A failed
        batch is rolled back if that succeeds; otherwise exactly its records that end before the cut stay. */
    method Write(data: Bytes, ghost stored: seq<Item>, outcome: WriteOutcome, rollback: bool)
      returns (ok: bool, ghost kept: nat)
      requires Valid() && torn == []
      requires data == codec.EncodeAll(stored) && Numbered(items + stored)
      modifies `log, `mtime, `items, `torn
      ensures Valid()
      ensures ok <==> outcome.Written?
      ensures kept <= |stored| && items == old(items) + stored[..kept]
      ensures ok ==> kept == |stored| && torn == []
      ensures !ok && rollback ==> kept == 0 && torn == []
      ensures !ok && !rollback ==> kept == Whole(codec, stored, outcome.bytes)
    {
      hide IndexRows, TerminalCount, LastTerminal, ReadOk, IndexOk, Numbered;
      var original := Content(log);
      ok := outcome.Written?;
      var cut := if ok || outcome.bytes >= |data| then |data| else outcome.bytes;
      if !ok && rollback {
        cut := 0;
      }
      ghost var rest;
      kept, rest := StepAppend(codec, log, mtime, items, stored, cut, rows, marker, indexed, readState, everIndexed, unreadMarks);
      if !ok && !rollback {
        WholeCapped(codec, stored, outcome.bytes);
      }
      log, mtime := Some(original + data[..cut]), mtime + 1;
      items, torn := items + stored[..kept], rest;
    }

    lemma StampsContinue(batch: seq<Item>, now: int)
      requires Valid()
      ensures Numbered(items + StampAll(session, batch, |items|, now))
    {
      StampAllNumbers(session, batch, |items|, now);
    }

    lemma StampContinues(item: Item, now: int)
      requires Valid()
      ensures var stored := Stamp(session, item, |items| + 1, now);
        Numbered(items + [stored]) && codec.EncodeAll([stored]) == codec.encode(stored) + [NEWLINE]
    {}

    lemma LogIsNumbered()
      requires Valid()
      ensures Numbered(items)
    {}

    lemma ReadsBack()
      requires Valid()
      ensures ReadAll(codec, Content(log)) == Some(items)
    {
      DecodeEncoded(codec, items, torn);
    }

    /** Numbers, names and dates the records of a batch and encodes them one line each. */
    method Encode(batch: seq<Item>, last: nat, now: int) returns (stored: seq<Item>, data: Bytes)
      ensures stored == StampAll(session, batch, last, now)
      ensures data == codec.EncodeAll(stored)
    {
      stored, data := [], [];
      for i := 0 to |batch|
        invariant stored == StampAll(session, batch[..i], last, now)
        invariant data == codec.EncodeAll(stored)
      {
        var item := Stamp(session, batch[i], last + i + 1, now);
        assert batch[..i + 1][..i] == batch[..i];
        EncodeAllConcat(codec, stored, [item]);
        stored, data := stored + [item], data + codec.encode(item) + [NEWLINE];
      }
      assert batch[..|batch|] == batch;
    }

    /** A group of records as one append; `expected` makes it conditional on the last sequence. */
    method AppendDisplayItems(batch: seq<Item>, expected: Option<nat>, now: int, outcome: WriteOutcome, rollback: bool,
                              indexCommits: bool) returns (r: Result<seq<Item>, AppendError>)
      requires Valid()
      modifies this
      ensures Valid()
      ensures r.Ok? <==> batch == [] || ((expected.Some? ==> expected.value == |old(items)|) && outcome.Written?)
      ensures r.Ok? ==> r.value == StampAll(session, batch, |old(items)|, now) && items == old(items) + r.value
      ensures r == Err(WriteFailed) ==>
        && outcome.Cut?
        && var stored := StampAll(session, batch, |old(items)|, now);
          items == old(items) + stored[..if rollback then 0 else Whole(codec, stored, outcome.bytes)]
      ensures r.Err? && r.error != WriteFailed ==> items == old(items)
      ensures r == Err(LogChanged) <==> batch != [] && expected.Some? && expected.value != |old(items)|
    {
      hide *;
      if |batch| == 0 {
        StampAllNumbers(session, batch, |items|, now);
        return Ok([]);
      }
      StampsContinue(batch, now);
      var last := RepairTail();
      if last.None? {
        return Err(LogCorrupt);
      }
      if expected.Some? && last.value != expected.value {
        return Err(LogChanged);
      }
      var stored, data := Encode(batch, last.value, now);
      var ok, kept := Write(data, stored, outcome, rollback);
      if !ok {
        return Err(WriteFailed);
      }
      var _ := SyncDisplayIndexBatch(indexCommits);
      return Ok(stored);
    }

    /** One record, appended only if `condition` accepts what a full read returns.  A failed
        write is not rolled back: its bytes stay until the next append repairs the tail. */
    method AppendDisplayItemIf(item: Item, condition: seq<Item> -> bool, now: int, outcome: WriteOutcome, indexCommits: bool)
      returns (r: Result<Option<Item>, AppendError>)
      requires Valid()
      modifies this
      ensures Valid()
      ensures var stored := Stamp(session, item, |old(items)| + 1, now);
        && (r.Ok? && r.value.Some? <==> condition(old(items)) && outcome.Written?)
        && (r.Ok? && r.value.Some? ==> r.value.value == stored && items == old(items) + [stored])
        && (r == Ok(None) <==> !condition(old(items)))
        && (r == Ok(None) ==> items == old(items))
        && (r == Err(WriteFailed) <==> condition(old(items)) && outcome.Cut?)
        && (r.Err? ==> r.error == WriteFailed)
        && (r.Err? ==>
              items == if outcome.bytes >= |codec.encode(stored)| + 1 then old(items) + [stored] else old(items))
    {
      hide *;
      ReadsBack();
      StampContinues(item, now);
      var current := ReadAll(codec, Content(log));
      if current.None? {
        return Err(LogCorrupt);
      }
      if !condition(current.value) {
        return Ok(None);
      }
      var last := RepairTail();
      if last.None? {
        return Err(LogCorrupt);
      }
      var stored := Stamp(session, item, last.value + 1, now);
      var ok, kept := Write(codec.encode(stored) + [NEWLINE], [stored], outcome, false);
      OneWhole(codec, stored, if outcome.Cut? then outcome.bytes else 0);
      if !ok {
        return Err(WriteFailed);
      }
      var _ := SyncDisplayIndexBatch(indexCommits);
      return Ok(Some(stored));
    }

    // -------------------------------------------------------------------
    // The derived index
    // -------------------------------------------------------------------

    /** Readers fail closed unless the marker matches the file's size and stamp. */
    predicate IsReady()
      reads this
    {
      log.None? || Matches(marker, |log.value|, mtime)
    }

    /** A ready marker means the rows are those of the whole log. */
    lemma ReadyMeansComplete()
      requires Valid() && IsReady()
      ensures rows == IndexRows(codec, items, |items|)
      ensures log.Some? ==> indexed == |items|
    {
      if log.None? {
        EncodeNonEmpty(codec, items);
      }
    }

    /** From then on readers are refused, and nothing is lost: the log and its rows stay for the rebuild. */
    method InvalidateDisplayIndex()
      requires Valid()
      modifies `marker
      ensures Valid() && (log.Some? ==> !IsReady())
      ensures forall q: Query, window :: log.Some? && 1 <= q.limit <= 1000 ==> PageAnswer(q, window) == Err(IndexPending)
    {
      marker := None;
    }

    /** Indexes at most 256 lines in one transaction; `commits` says whether it commits. */
    method SyncDisplayIndexBatch(commits: bool) returns (r: Result<bool, IndexError>)
      requires Valid()
      modifies `rows, `marker, `readState, `indexed, `everIndexed
      ensures Valid()
      ensures r == Err(NoLog) <==> log.None?
      ensures r.Err? ==> rows == old(rows) && marker == old(marker) && readState == old(readState)
      ensures r == Ok(true) ==> IsReady() && indexed == |items|
      ensures r == Ok(false) ==> Backlog(marker, |log.value|, mtime) < old(Backlog(marker, |log.value|, mtime))
      ensures log.Some? && commits ==> r.Ok?
    {
      hide LogOk, ReadOk, IndexOk, IndexRows, Backlog;
      if log.None? {
        return Err(NoLog);
      }
      var data := log.value;
      if Matches(marker, |data|, mtime) {
        ReadyMeansComplete();
        return Ok(true);
      }
      var offset := if marker.Some? then marker.value.size else 0;
      var table := rows;
      if offset >= |data| || marker.None? {
        offset, table := 0, [];
      }
      ghost var from := SyncStart(codec, log, mtime, items, rows, marker, indexed, readState, everIndexed, unreadMarks, offset, table);
      var batch, n := IndexLines(codec, data, offset, table, readState, items, torn, from, everIndexed, unreadMarks);
      if batch.None? {
        return Err(BadRecord);
      }
      var Batch(complete, end, table', state') := batch.value;
      var observed := -1;
      if complete || end == |data| {
        observed := |data|;
      }
      if !commits {
        return Err(TransactionFailed);
      }
      SyncCommit(codec, data, mtime, items, marker, offset, end, table', observed, n);
      everIndexed, indexed := Max(everIndexed, n), n;
      rows, readState, marker := table', state', Some(Marker(end, mtime, observed));
      return Ok(complete);
    }

    /** Batches until one is complete.  `commits` tells which transactions commit; a lost one
        ends the rebuild with the index as it was, behind and closed to readers. */
    method RebuildDisplayIndex(commits: nat -> bool) returns (r: Result<(), IndexError>)
      requires Valid()
      modifies `rows, `marker, `readState, `indexed, `everIndexed
      ensures Valid()
      ensures r.Ok? ==> IsReady() && rows == IndexRows(codec, items, |items|)
      ensures log.Some? && (forall i :: commits(i)) ==> r.Ok?
    {
      var round := 0;
      while true
        invariant Valid()
        decreases if log.Some? then Backlog(marker, |log.value|, mtime) else 0
      {
        var batch := SyncDisplayIndexBatch(commits(round));
        match batch {
          case Err(e) => return Err(e);
          case Ok(complete) =>
            if complete {
              ReadyMeansComplete();
              return Ok(());
            }
        }
        round := round + 1;
      }
    }

    // -------------------------------------------------------------------
    // Pages
    // -------------------------------------------------------------------

    /** What reading a page answers. */
    ghost function PageAnswer(q: Query, window: TimeWindow): Result<Page, PageError>
      reads this
    {
      if !(1 <= q.limit <= 1000) then Err(InvalidLimit)
      else if !IsReady() then Err(IndexPending)
      else Ok(IndexedPage(Within(items, window), q))
    }

    /** A page read through the index: only the selected records are decoded.  Without a window and
        with at most one cursor it is the page over what a full read of the log returns. */
    method ReadDisplayPage(q: Query, window: TimeWindow) returns (r: Result<Page, PageError>)
      requires Valid()
      ensures r == PageAnswer(q, window)
      ensures ReadAll(codec, Content(log)) == Some(items)
      ensures r.Ok? && window == ALL_TIME && (q.after.None? || q.before.None?) ==> r == Ok(PageOf(items, q))
    {
      ReadsBack();
      AllTime(items);
      if q.after.None? || q.before.None? {
        OneCursorAgrees(items, q);
      }
      if q.limit < 1 || q.limit > 1000 {
        return Err(InvalidLimit);
      }
      if !IsReady() {
        return Err(IndexPending);
      }
      ReadyMeansComplete();
      r := PageFromRows(codec, Content(log), rows, q, window, items, torn);
    }

    /** Every record a client sees that asks for the newest page and then for the page before each
        `previous` cursor, oldest first. */
    ghost function Followed(q: Query, window: TimeWindow, cursor: Option<nat>): seq<Item>
      requires Valid() && IsReady() && 1 <= q.limit <= 1000
      reads this
      decreases |Remaining(Within(items, window), q, cursor)|
    {
      WindowIncreasing(items, window);
      StepBack(Within(items, window), q, cursor);
      var page := PageAnswer(q.(after := None, before := cursor), window).value;
      if page.previous.None? then page.items else Followed(q, window, page.previous) + page.items
    }

    /** These are the matching records of the window below the cursor, each once and in order. */
    lemma {:induction false} PagesListBelow(q: Query, window: TimeWindow, cursor: Option<nat>)
      requires Valid() && IsReady() && 1 <= q.limit <= 1000
      ensures Followed(q, window, cursor) == Remaining(Within(items, window), q, cursor)
      decreases |Remaining(Within(items, window), q, cursor)|
    {
      hide Valid, PageOf, IndexedPage, Within, Increasing, Remaining;
      LogIsNumbered();
      WindowIncreasing(items, window);
      StepBack(Within(items, window), q, cursor);
      OneCursorAgrees(Within(items, window), q.(after := None, before := cursor));
      var page := PageAnswer(q.(after := None, before := cursor), window).value;
      if page.previous.Some? {
        PagesListBelow(q, window, page.previous);
      }
    }

    /** So the pages of a ready store, followed from the newest one, list every matching record of the
        log exactly once and in order, and come to an end. */
    lemma PagesListEverything(q: Query)
      requires Valid() && IsReady() && 1 <= q.limit <= 1000
      ensures ReadAll(codec, Content(log)) == Some(items)
      ensures Followed(q, ALL_TIME, None) == Matching(items, q.filter)
    {
      ReadsBack();
      AllTime(items);
      PagesListBelow(q, ALL_TIME, None);
    }

    // -------------------------------------------------------------------
    // Read state
    // -------------------------------------------------------------------

    method SessionReadState() returns (s: ReadState)
      requires Valid()
      ensures s == StateOf(readState)
      ensures s.version == TerminalCount(items[..everIndexed]) + unreadMarks && s.readVersion <= s.version
    {
      s := if readState.Some? then readState.value else ReadState(0, 0, 0);
    }

    /** No version means an explicit unread mark; otherwise acknowledge up to that version. */
    method SetSessionReadState(readVersion: Option<int>) returns (r: Option<ReadState>)
      requires Valid()
      modifies `readState, `unreadMarks
      ensures Valid()
      ensures r.None? <==> readVersion.Some? && readVersion.value < 0
      ensures r.None? ==> readState == old(readState)
      ensures r.Some? ==> readState == r
      ensures readVersion.None? ==> unreadMarks == old(unreadMarks) + 1 && r.value.Unread() &&
                                    r.value.version == old(StateOf(readState)).version + 1
      ensures readVersion.Some? && r.Some? ==>
        && unreadMarks == old(unreadMarks)
        && r.value.version == old(StateOf(readState)).version
        && (r.value.Unread() <==> old(StateOf(readState)).Unread() && readVersion.value < r.value.version)
    {
      if readVersion.Some? && readVersion.value < 0 {
        return None;
      }
      var s := if readState.Some? then readState.value else ReadState(0, 0, 0);
      if readVersion.None? {
        s := s.(version := s.version + 1);
        unreadMarks := unreadMarks + 1;
      } else {
        var capped := if readVersion.value < s.version then readVersion.value else s.version;
        if s.readVersion < capped {
          s := s.(readVersion := capped);
        }
      }
      readState := Some(s);
      return readState;
    }
  }

  /** The queries and reads of a page: bounds of the selection, then the rows of the page in
      query order, then their records sorted by sequence. */
  method PageFromRows(c: Codec<Item>, data: Bytes, rows: seq<IndexRow>, q: Query, window: TimeWindow,
                      ghost items: seq<Item>, ghost torn: Bytes) returns (r: Result<Page, PageError>)
    requires c.Lawful() && Numbered(items) && data == c.EncodeAll(items) + torn
    requires rows == IndexRows(c, items, |items|)
    ensures r == Ok(IndexedPage(Within(items, window), q))
  {
    hide *;
    ghost var all := Matching(Within(items, window), q.filter);
    MatchingStands(c, items, q.filter, window);
    var base := Select(rows, RowFilter(q.filter, window));
    StandEnds(c, items, base, all);
    IndexedPageParts(Within(items, window), q);
    if |base| == 0 {
      return Ok(Page([], None, None));
    }
    var first, last := base[0].sequence, base[|base| - 1].sequence;
    var spans := SelectSpans(c, base, q, items, all);
    ghost var picked := IndexChosen(all, q);
    ghost var read := if q.after.Some? then picked else Reversed(picked);
    if |spans| == 0 {
      return Ok(Page([], None, None));
    }
    var found := ReadSpans(c, data, spans, items, torn, read);
    if found.None? {
      return Err(BadSpan);
    }
    PickedIncreasing(items, window, q, picked);
    ReversedParts(picked);
    SortRestores(found.value, picked, BySequence());
    var sorted := StableSort(found.value, BySequence());
    var low, high := sorted[0].sequence, sorted[|sorted| - 1].sequence;
    return Ok(Page(sorted, if low > first then Some(low) else None, if high < last then Some(high) else None));
  }

  /** The page query: rows past the cursors, in query order, up to the limit. */
  method SelectSpans(c: Codec<Item>, rows: seq<IndexRow>, q: Query, ghost items: seq<Item>, ghost all: seq<Item>)
    returns (spans: seq<IndexRow>)
    requires Numbered(items) && Stand(c, items, rows, all)
    ensures var picked := IndexChosen(all, q);
      && Stand(c, items, spans, if q.after.Some? then picked else Reversed(picked))
      && |spans| == |picked|
  {
    hide Select, Stand, Reversed, Numbered;
    var base := rows;
    ghost var chosen := all;
    if q.after.Some? {
      CursorStands(c, items, base, chosen, q.after.value);
      base, chosen := Select(base, RowAbove(q.after.value)), Select(chosen, Above(q.after.value));
    }
    if q.before.Some? {
      CursorStands(c, items, base, chosen, q.before.value);
      base, chosen := Select(base, RowBelow(q.before.value)), Select(chosen, Below(q.before.value));
    }
    PickedStands(c, items, base, chosen, q.limit);
    spans := if q.after.Some? then Take(base, q.limit) else Take(Reversed(base), q.limit);
  }

  lemma IndexedPageParts(items: seq<Item>, q: Query)
    ensures var all := Matching(items, q.filter);
      var picked := IndexChosen(all, q);
      && (all == [] || picked == [] ==> IndexedPage(items, q) == Page([], None, None))
      && (all != [] && picked != [] ==>
            var low, high := picked[0].sequence, picked[|picked| - 1].sequence;
            IndexedPage(items, q) == Page(picked,
              if low > all[0].sequence then Some(low) else None,
              if high < all[|all| - 1].sequence then Some(high) else None))
  {}

  lemma StandEnds(c: Codec<Item>, items: seq<Item>, rs: seq<IndexRow>, xs: seq<Item>)
    requires Stand(c, items, rs, xs) && Numbered(items)
    ensures |rs| == |xs|
    ensures rs != [] ==> rs[0].sequence == xs[0].sequence && rs[|rs| - 1].sequence == xs[|xs| - 1].sequence
  {}

  function BySequence(): Item -> int {
    (x: Item) => x.sequence
  }

  lemma PickedStands(c: Codec<Item>, items: seq<Item>, rs: seq<IndexRow>, xs: seq<Item>, n: nat)
    requires Stand(c, items, rs, xs)
    ensures Stand(c, items, Take(rs, n), Take(xs, n)) && |Take(rs, n)| == |Take(xs, n)|
    ensures |Take(Reversed(rs), n)| == |TakeLast(xs, n)|
    ensures Stand(c, items, Take(Reversed(rs), n), Reversed(TakeLast(xs, n)))
  {
    hide RowOf;
    NewestFirst(rs, n);
    ReversedParts(rs);
    ReverseStands(c, items, TakeLast(rs, n), TakeLast(xs, n));
  }

  /** The records of a page are strictly increasing, so there is one way to sort them. */
  lemma PickedIncreasing(items: seq<Item>, window: TimeWindow, q: Query, picked: seq<Item>)
    requires Numbered(items)
    requires picked == IndexChosen(Matching(Within(items, window), q.filter), q)
    ensures StrictlySorted(picked, BySequence())
  {
    SelectIncreasing(items, window.Accepts());
    SelectIncreasing(Within(items, window), q.filter.Accepts());
    var all := Matching(Within(items, window), q.filter);
    if q.after.Some? {
      SelectIncreasing(all, Above(q.after.value));
      all := Select(all, Above(q.after.value));
    }
    if q.before.Some? {
      SelectIncreasing(all, Below(q.before.value));
    }
  }

  /** Reads and decodes each span; every row of a log in order decodes to its record. */
  method ReadSpans(c: Codec<Item>, data: Bytes, spans: seq<IndexRow>, ghost items: seq<Item>, ghost torn: Bytes, ghost read: seq<Item>)
    returns (found: Option<seq<Item>>)
    requires c.Lawful() && data == c.EncodeAll(items) + torn && Stand(c, items, spans, read)
    ensures found == Some(read)
  {
    var page := [];
    for k := 0 to |spans|
      invariant page == read[..k]
    {
      SpanReadsBack(c, items, torn, data, spans[k], read[k]);
      var end := spans[k].offset + spans[k].length;
      if end > |data| {
        return None;
      }
      var item := c.decode(data[spans[k].offset..end]);
      if item.None? {
        return None;
      }
      page := page + [item.value];
    }
    assert read[..|spans|] == read;
    return Some(page);
  }

  lemma SpanReadsBack(c: Codec<Item>, items: seq<Item>, torn: Bytes, data: Bytes, r: IndexRow, x: Item)
    requires c.Lawful() && data == c.EncodeAll(items) + torn && StandsFor(c, items, r, x)
    ensures r.offset + r.length <= |data| && c.decode(data[r.offset..r.offset + r.length]) == Some(x)
  {
    var n := r.sequence - 1;
    OffsetStep(c, items, n);
    LineAt(c, items, torn, data, n);
  }

  predicate Matches(marker: Option<Marker>, size: nat, mtime: nat) {
    marker.Some? && marker.value.observed == size && marker.value.mtime == mtime
  }

  /** How much the index still has to catch up with. */
  ghost function Backlog(marker: Option<Marker>, size: nat, mtime: nat): nat {
    if Matches(marker, size, mtime) then 0
    else if marker.None? || marker.value.size >= size then size + 2
    else size - marker.value.size + 1
  }

  /** Where a batch starts: at the marker, or at the beginning with an empty table. */
  lemma SyncStart(c: Codec<Item>, log: Option<Bytes>, mtime: nat, items: seq<Item>, rows: seq<IndexRow>, marker: Option<Marker>,
                  indexed: nat, row: Option<ReadState>, ever: nat, marks: nat, offset: nat, table: seq<IndexRow>)
    returns (from: nat)
    requires IndexOk(c, log, mtime, items, rows, marker, indexed) && ReadOk(row, items, ever, marks)
    requires marker.Some? ==> indexed <= ever
    requires (offset == 0 && table == []) || (marker.Some? && offset == marker.value.size && table == rows)
    ensures from <= |items| && offset == c.Offset(items, from) && table == IndexRows(c, items, from)
    ensures ReadOk(row, items, Max(ever, from), marks)
  {
    from := if offset == 0 && table == [] then 0 else indexed;
  }

  /** The marker a batch commits is right, and leaves less to do. */
  lemma SyncCommit(c: Codec<Item>, data: Bytes, mtime: nat, items: seq<Item>, marker: Option<Marker>,
                   offset: nat, end: nat, table: seq<IndexRow>, observed: int, n: nat)
    requires n <= |items| && end == c.Offset(items, n) <= |data| && table == IndexRows(c, items, n)
    requires observed == -1 || (observed == |data| && n == |items|)
    requires !Matches(marker, |data|, mtime)
    requires offset == if marker.None? || marker.value.size >= |data| then 0 else marker.value.size
    ensures IndexOk(c, Some(data), mtime, items, table, Some(Marker(end, mtime, observed)), n)
    ensures end > offset && (end == |data| ==> observed == |data|) ==>
      Backlog(Some(Marker(end, mtime, observed)), |data|, mtime) < Backlog(marker, |data|, mtime)
  {}

  datatype Batch = Batch(complete: bool, end: nat, rows: seq<IndexRow>, state: Option<ReadState>)

  /** What the index loop reads at record `n` of a log. */
  lemma NextLine(c: Codec<Item>, items: seq<Item>, torn: Bytes, data: Bytes, n: nat)
    requires LogOk(c, Some(data), items, torn) && n <= |items|
    ensures c.Offset(items, n) <= |data|
    ensures n == |items| ==> FirstNewline(data, c.Offset(items, n)) == -1
    ensures n < |items| ==>
      var start, end := c.Offset(items, n), c.Offset(items, n + 1);
      && start < end <= |data|
      && end - start == |c.encode(items[n])| + 1
      && FirstNewline(data, start) == end - 1
      && !IsBlank(data[start..end])
      && c.decode(data[start..end]) == Some(items[n])
  {
    if n == |items| {
      NoLineAtEnd(c, items, torn, data);
    } else {
      LineAt(c, items, torn, data, n);
      var line := c.encode(items[n]) + [NEWLINE];
      assert line[0] == '{' && line[0] in line;
      OffsetStep(c, items, n);
    }
  }

  /** The loop of a batch: reads up to 256 lines from `start` on and returns the rows they add. */
  method IndexLines(c: Codec<Item>, data: Bytes, start: nat, rows0: seq<IndexRow>, state0: Option<ReadState>,
                    ghost items: seq<Item>, ghost torn: Bytes, ghost from: nat, ghost ever: nat, ghost marks: nat)
    returns (r: Option<Batch>, ghost n: nat)
    requires LogOk(c, Some(data), items, torn) && from <= |items|
    requires start == c.Offset(items, from) && rows0 == IndexRows(c, items, from)
    requires ReadOk(state0, items, Max(ever, from), marks)
    ensures r.Some? && from <= n <= |items|
    ensures r.value.end == c.Offset(items, n) <= |data|
    ensures r.value.rows == IndexRows(c, items, n)
    ensures ReadOk(r.value.state, items, Max(ever, n), marks)
    ensures r.value.complete || r.value.end == |data| ==> n == |items|
    ensures !r.value.complete ==> r.value.end > start
  {
    assert BATCH_LIMIT > 0;
    hide *;
    var offset, table, state := start, rows0, state0;
    n := from;
    var complete, count := false, 0;
    while count < BATCH_LIMIT
      invariant count <= BATCH_LIMIT && n == from + count <= |items|
      invariant offset == c.Offset(items, n) && table == IndexRows(c, items, n)
      invariant ReadOk(state, items, Max(ever, n), marks)
      decreases BATCH_LIMIT - count
    {
      var line := IndexLine(c, data, offset, table, state, items, torn, n, ever, marks);
      match line {
        case EndOfLog =>
          complete := true;
          break;
        case BadLine =>
          return None, n;
        case Indexed(end, table', state') =>
          offset, table, state := end, table', state';
          count, n := count + 1, n + 1;
      }
    }
    OffsetMonotone(c, items, from, n);
    OffsetLeavesRest(c, items, torn, data, n);
    r := Some(Batch(complete, offset, table, state));
  }

  datatype LineResult = EndOfLog | BadLine | Indexed(end: int, rows: seq<IndexRow>, state: Option<ReadState>)

  /** One line of the loop.  A blank line would be skipped; a written log has none. */
  method IndexLine(c: Codec<Item>, data: Bytes, offset: nat, table: seq<IndexRow>, state: Option<ReadState>,
                   ghost items: seq<Item>, ghost torn: Bytes, ghost n: nat, ghost ever: nat, ghost marks: nat)
    returns (r: LineResult)
    requires LogOk(c, Some(data), items, torn) && n <= |items|
    requires offset == c.Offset(items, n) && table == IndexRows(c, items, n)
    requires ReadOk(state, items, Max(ever, n), marks)
    ensures r.EndOfLog? <==> n == |items|
    ensures r.Indexed? <==> n < |items|
    ensures r.Indexed? ==> r.end == c.Offset(items, n + 1) && r.rows == IndexRows(c, items, n + 1)
    ensures r.Indexed? ==> ReadOk(r.state, items, Max(ever, n + 1), marks)
  {
    hide *;
    NextLine(c, items, torn, data, n);
    var end := FirstNewline(data, offset);
    if end == -1 {
      return EndOfLog;
    }
    var line := data[offset..end + 1];
    if IsBlank(line) {
      return Indexed(offset + |line|, table, state);
    }
    var item := c.decode(line);
    if item.None? {
      return BadLine;
    }
    IndexNext(c, Some(data), items, torn, ever, marks, n, state);
    return Indexed(offset + |line|, Upsert(table, RowAt(item.value, offset, |line|)), Complete(item.value, state));
  }

  lemma OffsetLeavesRest(c: Codec<Item>, items: seq<Item>, torn: Bytes, data: Bytes, n: nat)
    requires LogOk(c, Some(data), items, torn) && n <= |items|
    ensures c.Offset(items, n) + (|items| - n) <= |data|
  {
    OffsetMonotone(c, items, n, |items|);
  }

  function RowAt(item: Item, offset: nat, length: nat): IndexRow {
    IndexRow(item.sequence, offset, length, Nanos(item.createdAt), Kind(item))
  }

  function Complete(item: Item, state: Option<ReadState>): Option<ReadState> {
    if IsTerminalTurn(item) then RecordCompletion(state, item.sequence) else state
  }

  /** Indexing record `n` extends the table by its row and counts it at most once. */
  lemma IndexNext(c: Codec<Item>, log: Option<Bytes>, items: seq<Item>, torn: Bytes, ever: nat, marks: nat, n: nat, state: Option<ReadState>)
    requires LogOk(c, log, items, torn) && n < |items| && ReadOk(state, items, Max(ever, n), marks)
    ensures Upsert(IndexRows(c, items, n), RowAt(items[n], c.Offset(items, n), |c.encode(items[n])| + 1)) == IndexRows(c, items, n + 1)
    ensures ReadOk(Complete(items[n], state), items, Max(ever, n + 1), marks)
  {
    UpsertNext(c, items, n);
    RecordOnce(state, items, Max(ever, n), marks, n);
  }

  predicate IsBlank(line: Bytes) {
    forall b :: b in line ==> IsSpace(b)
  }

  predicate IsSpace(b: char) {
    b == ' ' || b == '\t' || b == '\n' || b == '\r' || b as int == 11 || b as int == 12
  }

  lemma EncodeNonEmpty(c: Codec<Item>, items: seq<Item>)
    ensures c.EncodeAll(items) == [] ==> items == []
  {}

  lemma AllTime(items: seq<Item>)
    ensures Within(items, ALL_TIME) == items
  {
    SelectAll(items, ALL_TIME.Accepts());
  }

  lemma WindowIncreasing(items: seq<Item>, window: TimeWindow)
    requires Numbered(items)
    ensures Increasing(Within(items, window))
  {
    SelectIncreasing(items, window.Accepts());
  }

  /** Bytes past the end of the records add nothing. */
  lemma WholeCapped(c: Codec<Item>, stored: seq<Item>, bytes: nat)
    ensures Whole(c, stored, bytes) == Whole(c, stored, if bytes >= |c.EncodeAll(stored)| then |c.EncodeAll(stored)| else bytes)
  {
    var size := |c.EncodeAll(stored)|;
    if bytes >= size {
      OffsetMonotone(c, stored, |stored|, |stored|);
      WholeByOffset(c, stored, bytes, |stored|);
      WholeByOffset(c, stored, size, |stored|);
    }
  }

  lemma OneWhole(c: Codec<Item>, x: Item, bytes: nat)
    ensures [x][..Whole(c, [x], bytes)] == if bytes >= |c.encode(x)| + 1 then [x] else []
  {
    if bytes >= |c.encode(x)| + 1 {
      assert [x][1..] == [];
      assert Whole(c, [x], bytes) == 1;
    }
  }

  /** What a write cut after `cut` bytes leaves of its records. */
  lemma CutWrite(c: Codec<Item>, stored: seq<Item>, cut: nat) returns (kept: nat, rest: Bytes)
    requires c.Lawful() && cut <= |c.EncodeAll(stored)|
    ensures kept <= |stored| && NEWLINE !in rest
    ensures c.EncodeAll(stored)[..cut] == c.EncodeAll(stored[..kept]) + rest
    ensures cut == 0 ==> kept == 0 && rest == []
    ensures cut == |c.EncodeAll(stored)| ==> kept == |stored| && rest == []
    ensures kept == Whole(c, stored, cut)
  {
    kept, rest := CutAnywhere(c, stored, cut);
    WholeUnique(c, stored, cut, kept);
    if cut == |c.EncodeAll(stored)| {
      OffsetMonotone(c, stored, |stored|, |stored|);
      assert stored[..|stored|] == stored;
    }
    if cut == 0 && |stored| > 0 {
      OffsetStep(c, stored, 0);
      OffsetMonotone(c, stored, 1, |stored|);
    }
  }

  /** Later bytes with a later stamp keep the log, the index and the read state in order. */
  lemma StepAppend(c: Codec<Item>, log: Option<Bytes>, mtime: nat, items: seq<Item>, stored: seq<Item>, cut: nat,
                   rows: seq<IndexRow>, marker: Option<Marker>, indexed: nat, row: Option<ReadState>, ever: nat, marks: nat)
    returns (kept: nat, rest: Bytes)
    requires LogOk(c, log, items, []) && IndexOk(c, log, mtime, items, rows, marker, indexed) && ReadOk(row, items, ever, marks)
    requires Numbered(items + stored) && cut <= |c.EncodeAll(stored)|
    ensures kept <= |stored|
    ensures LogOk(c, Some(Content(log) + c.EncodeAll(stored)[..cut]), items + stored[..kept], rest)
    ensures IndexOk(c, Some(Content(log) + c.EncodeAll(stored)[..cut]), mtime + 1, items + stored[..kept], rows, marker, indexed)
    ensures ReadOk(row, items + stored[..kept], ever, marks)
    ensures cut == 0 ==> kept == 0 && rest == []
    ensures cut == |c.EncodeAll(stored)| ==> kept == |stored| && rest == []
    ensures kept == Whole(c, stored, cut)
  {
    hide LogOk, IndexOk, ReadOk, Whole, Numbered;
    LogIsLawful(c, log, items);
    kept, rest := CutWrite(c, stored, cut);
    ReadOkGrows(row, items, stored[..kept], ever, marks);
    LogGrows(c, log, items, stored, kept, c.EncodeAll(stored)[..cut], rest);
    IndexStays(c, log, mtime, items, stored[..kept], rows, marker, indexed, c.EncodeAll(stored)[..cut]);
  }

  lemma LogIsLawful(c: Codec<Item>, log: Option<Bytes>, items: seq<Item>)
    requires LogOk(c, log, items, [])
    ensures c.Lawful()
  {}

  lemma LogGrows(c: Codec<Item>, log: Option<Bytes>, items: seq<Item>, stored: seq<Item>, kept: nat, written: Bytes, rest: Bytes)
    requires LogOk(c, log, items, []) && Numbered(items + stored) && kept <= |stored|
    requires written == c.EncodeAll(stored[..kept]) + rest && NEWLINE !in rest
    ensures LogOk(c, Some(Content(log) + written), items + stored[..kept], rest)
  {
    EncodeAllConcat(c, items, stored[..kept]);
    assert forall i :: 0 <= i < |items + stored[..kept]| ==> (items + stored[..kept])[i] == (items + stored)[i];
    assert Content(log) + written == c.EncodeAll(items) + c.EncodeAll(stored[..kept]) + rest;
  }

  lemma IndexStays(c: Codec<Item>, log: Option<Bytes>, mtime: nat, items: seq<Item>, more: seq<Item>, rows: seq<IndexRow>,
                   marker: Option<Marker>, indexed: nat, written: Bytes)
    requires IndexOk(c, log, mtime, items, rows, marker, indexed)
    ensures IndexOk(c, Some(Content(log) + written), mtime + 1, items + more, rows, marker, indexed)
  {
    hide IndexRows;
    if marker.Some? {
      IndexRowsStable(c, items, more, indexed);
    }
  }

  /** An append whose bytes all reached the file but whose end was reported as a failure is read back,
      and appending again stores the record a second time. */
  method FailedAppendIsReadBack(session: string, codec: Codec<Item>, item: Item, now: int)
    returns (store: FileStore, failed: Result<Option<Item>, AppendError>)
    requires codec.Lawful()
    ensures fresh(store) && store.Valid() && failed == Err(WriteFailed)
    ensures ReadAll(codec, Content(store.log)) == Some([Stamp(session, item, 1, now), Stamp(session, item, 2, now)])
  {
    hide *;
    store := new FileStore(session, codec);
    var always := (known: seq<Item>) => true;
    var first := Stamp(session, item, 1, now);
    failed := store.AppendDisplayItemIf(item, always, now, Cut(|codec.encode(first)| + 1), true);
    assert store.items == [first];
    var retried := store.AppendDisplayItemIf(item, always, now, Written, true);
    store.ReadsBack();
    assert store.items == [first] + [Stamp(session, item, 2, now)] == [first, Stamp(session, item, 2, now)];
  }
}
