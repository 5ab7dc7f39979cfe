/** The backward scan of the display log: core/session/file_store.go, lines 949-1064.

    An append must know the last sequence number without reading the whole log.
    It looks at 4096-byte blocks from the end; here that scan is shown to find what
    a full read finds. */
module TailScan {
  import opened Wrappers
  import opened JsonLines
  import opened DisplayItems

  const BLOCK_SIZE: nat := 4096

  datatype Tail = Tail(lastSequence: nat, completeEnd: int)

  // ---------------------------------------------------------------------
  // What the scan looks for
  // ---------------------------------------------------------------------

  /** `r` is the last line break before `before`, or -1. */
  ghost predicate IsPreviousNewline(data: Bytes, before: nat, r: int)
    requires before <= |data|
  {
    && -1 <= r < before
    && (r >= 0 ==> data[r] == NEWLINE)
    && forall k :: r < k < before ==> data[k] != NEWLINE
  }

  /** `end` is where the last complete line of the file stops. */
  ghost predicate IsCompleteEnd(data: Bytes, end: nat) {
    && end <= |data|
    && IsPreviousNewline(data, |data|, end - 1)
  }

  predicate IsBreak(b: char) {
    b == NEWLINE || b == RETURN
  }

  /** `data[start..end]` is the last nonempty line at or before `limit`, without its line ending. */
  ghost predicate IsLastLine(data: Bytes, limit: nat, start: nat, end: nat) {
    && start <= end <= limit <= |data|
    && (forall k :: end <= k < limit ==> IsBreak(data[k]))
    && (end > 0 ==> !IsBreak(data[end - 1]) && IsPreviousNewline(data, end, start - 1))
  }

  // ---------------------------------------------------------------------
  // Full reads, cut at line boundaries
  // ---------------------------------------------------------------------

  predicate AtLineStart(data: Bytes) {
    data == [] || data[|data| - 1] == NEWLINE
  }

  lemma ThenAssociative<T>(a: Option<seq<T>>, b: Option<seq<T>>, d: Option<seq<T>>)
    ensures Then(a, Then(b, d)) == Then(Then(a, b), d)
  {
    if a.Some? && b.Some? && d.Some? {
      assert a.value + (b.value + d.value) == (a.value + b.value) + d.value;
    }
  }

  lemma ThenUnit<T>(a: Option<seq<T>>)
    ensures Then(Some([]), a) == a == Then(a, Some([]))
  {
    if a.Some? {
      assert [] + a.value == a.value == a.value + [];
    }
  }

  /** A read that starts at a line boundary is the read of the two halves. */
  lemma {:induction false} ReadConcat<T(!new)>(c: Codec<T>, a: Bytes, b: Bytes)
    requires AtLineStart(a)
    ensures ReadAll(c, a + b) == Then(ReadAll(c, a), ReadAll(c, b))
    decreases |a|
  {
    if a == [] {
      assert a + b == b;
      assert ReadAll(c, a) == Some([]);
      ThenUnit(ReadAll(c, b));
    } else {
      var i := FirstNewline(a, 0);
      assert a[|a| - 1] == NEWLINE;
      var line, rest := a[..i], a[i + 1..];
      assert a == line + [NEWLINE] + rest;
      assert a + b == line + [NEWLINE] + (rest + b);
      ReadConcat(c, rest, b);
      ReadFirst(c, line, rest);
      ReadFirst(c, line, rest + b);
      ThenAssociative(DecodeLine(c, line), ReadAll(c, rest), ReadAll(c, b));
    }
  }

  /** An unterminated tail contributes nothing. */
  lemma ReadIgnoresTail<T(!new)>(c: Codec<T>, data: Bytes, end: nat)
    requires IsCompleteEnd(data, end)
    ensures ReadAll(c, data) == ReadAll(c, data[..end])
  {
    assert data == data[..end] + data[end..];
    ReadConcat(c, data[..end], data[end..]);
    assert FirstNewline(data[end..], 0) == -1 by {
      assert forall k :: 0 <= k < |data| - end ==> data[end..][k] == data[end + k];
    }
    assert ReadAll(c, data[end..]) == Some([]);
    ThenUnit(ReadAll(c, data[..end]));
  }

  lemma {:induction false} DecodeIgnoresReturns<T(!new)>(c: Codec<T>, line: Bytes, returns_: Bytes)
    requires c.Lawful() && forall k :: 0 <= k < |returns_| ==> returns_[k] == RETURN
    ensures c.decode(line + returns_) == c.decode(line)
    decreases |returns_|
  {
    if returns_ == [] {
      assert line + returns_ == line;
    } else {
      var fewer := returns_[..|returns_| - 1];
      assert line + returns_ == (line + fewer) + [RETURN];
      DecodeIgnoresReturns(c, line, fewer);
    }
  }

  /** Carriage returns before the line break do not change what a line decodes to;
      a line of nothing else is not a record. */
  lemma LineWithReturns<T(!new)>(c: Codec<T>, line: Bytes, returns_: Bytes)
    requires c.Lawful() && forall k :: 0 <= k < |returns_| ==> returns_[k] == RETURN
    requires line != [] ==> line[|line| - 1] != RETURN
    ensures line == [] ==> DecodeLine(c, line + returns_).None? || DecodeLine(c, line + returns_) == Some([])
    ensures line != [] ==> DecodeLine(c, line + returns_) == DecodeLine(c, line)
  {
    if returns_ == [] {
      assert line + returns_ == line;
    } else {
      var fewer := returns_[..|returns_| - 1];
      assert TrimReturn(line + returns_) == line + fewer;
      DecodeIgnoresReturns(c, line, fewer);
    }
  }

  lemma SplitAtFirstBreak(line: Bytes, breaks: Bytes) returns (returns_: Bytes, rest: Bytes)
    requires AtLineStart(breaks) && breaks != []
    requires forall k :: 0 <= k < |breaks| ==> IsBreak(breaks[k])
    ensures line + breaks == (line + returns_) + [NEWLINE] + rest && |rest| < |breaks|
    ensures AtLineStart(rest) && forall k :: 0 <= k < |rest| ==> IsBreak(rest[k])
    ensures forall k :: 0 <= k < |returns_| ==> returns_[k] == RETURN
  {
    var i := FirstNewline(breaks, 0);
    assert breaks[|breaks| - 1] == NEWLINE;
    returns_, rest := breaks[..i], breaks[i + 1..];
    assert breaks == returns_ + [NEWLINE] + rest;
    assert forall k :: 0 <= k < |rest| ==> rest[k] == breaks[i + 1 + k];
  }

  /** A line followed only by line endings decodes to that line's record, or the read fails. */
  lemma {:induction false} ReadLineAndBreaks<T(!new)>(c: Codec<T>, line: Bytes, breaks: Bytes)
    requires c.Lawful() && AtLineStart(breaks) && breaks != []
    requires NEWLINE !in line && (line != [] ==> line[|line| - 1] != RETURN)
    requires forall k :: 0 <= k < |breaks| ==> IsBreak(breaks[k])
    ensures ReadAll(c, line + breaks).None? || ReadAll(c, line + breaks) == DecodeLine(c, line)
    decreases |breaks|
  {
    var returns_, rest := SplitAtFirstBreak(line, breaks);
    ReadFirst(c, line + returns_, rest);
    LineWithReturns(c, line, returns_);
    ThenUnit(DecodeLine(c, line + returns_));
    if rest == [] {
      assert ReadAll(c, rest) == Some([]);
    } else {
      assert [] + rest == rest;
      ReadLineAndBreaks(c, [], rest);
    }
  }

  lemma LastOfParts<T(!new)>(c: Codec<T>, head: Bytes, line: Bytes, breaks: Bytes)
    requires c.Lawful() && AtLineStart(head) && AtLineStart(breaks) && breaks != []
    requires line != [] && NEWLINE !in line && line[|line| - 1] != RETURN
    requires forall k :: 0 <= k < |breaks| ==> IsBreak(breaks[k])
    requires ReadAll(c, head + (line + breaks)).Some?
    ensures ReadAll(c, head + (line + breaks)).value != []
    ensures c.decode(line) == Some(Last(ReadAll(c, head + (line + breaks)).value))
  {
    ReadConcat(c, head, line + breaks);
    ReadLineAndBreaks(c, line, breaks);
    assert TrimReturn(line) == line;
  }

  function Last<T>(s: seq<T>): T
    requires s != []
  {
    s[|s| - 1]
  }

  /** The last line the scan isolates holds the last record of the full read. */
  lemma LastLineIsLastRecord<T(!new)>(c: Codec<T>, data: Bytes, completeEnd: nat, start: nat, end: nat)
    requires c.Lawful() && IsCompleteEnd(data, completeEnd) && IsLastLine(data, completeEnd, start, end)
    requires ReadAll(c, data).Some?
    ensures end == 0 ==> ReadAll(c, data).value == []
    ensures end > 0 ==> ReadAll(c, data).value != [] && c.decode(data[start..end]) == Some(Last(ReadAll(c, data).value))
  {
    hide ReadAll, Last;
    ReadIgnoresTail(c, data, completeEnd);
    var complete := data[..completeEnd];
    if end > 0 {
      LastLineParts(data, completeEnd, start, end);
      LastOfParts(c, data[..start], data[start..end], data[end..completeEnd]);
    } else if completeEnd > 0 {
      assert [] + complete == complete;
      ReadLineAndBreaks(c, [], complete);
    } else {
      NothingReads(c, complete);
    }
  }

  /** What stands before the last line, the line, and the line ends behind it. */
  lemma LastLineParts(data: Bytes, completeEnd: nat, start: nat, end: nat)
    requires IsCompleteEnd(data, completeEnd) && IsLastLine(data, completeEnd, start, end) && end > 0
    ensures start < end < completeEnd <= |data|
    ensures data[..completeEnd] == data[..start] + (data[start..end] + data[end..completeEnd])
    ensures AtLineStart(data[..start]) && AtLineStart(data[end..completeEnd])
    ensures NEWLINE !in data[start..end] && data[start..end][end - start - 1] != RETURN
    ensures forall k :: 0 <= k < completeEnd - end ==> IsBreak(data[end..completeEnd][k])
  {
    assert data[start..end][end - start - 1] == data[end - 1];
  }

  // ---------------------------------------------------------------------
  // The scan itself
  // ---------------------------------------------------------------------

  method PreviousNewline(data: Bytes, before: nat) returns (r: int)
    requires before <= |data|
    ensures IsPreviousNewline(data, before, r)
  {
    var offset := before;
    while offset > 0
      invariant 0 <= offset <= before
      invariant forall k :: offset <= k < before ==> data[k] != NEWLINE
    {
      var readSize := if offset < BLOCK_SIZE then offset else BLOCK_SIZE;
      var start := offset - readSize;
      var buf := data[start..offset];
      var idx := |buf| - 1;
      while idx >= 0
        invariant -1 <= idx < |buf|
        invariant forall k :: start + idx < k < before ==> data[k] != NEWLINE
      {
        if buf[idx] == NEWLINE {
          return start + idx;
        }
        idx := idx - 1;
      }
      offset := start;
    }
    return -1;
  }

  lemma NothingReads<T(!new)>(c: Codec<T>, data: Bytes)
    requires data == []
    ensures ReadAll(c, data) == Some([]) && IsCompleteEnd(data, 0)
  {}

  /** The last sequence number and the end of the complete lines; -1 when there is no file.
      Whenever a full read succeeds, this is what it would have said. */
  method LastDisplaySequence(c: Codec<Item>, file: Option<Bytes>) returns (r: Option<Tail>)
    requires c.Lawful()
    ensures file.None? ==> r == Some(Tail(0, -1))
    ensures file.Some? && r.Some? ==> r.value.completeEnd >= 0 && IsCompleteEnd(file.value, r.value.completeEnd)
    ensures file.Some? && ReadAll(c, file.value).Some? ==>
      var items := ReadAll(c, file.value).value;
      r.Some? && r.value.lastSequence == if items == [] then 0 else Last(items).sequence
  {
    hide ReadAll, Last;
    if file.None? {
      return Some(Tail(0, -1));
    }
    var data := file.value;
    var size := |data|;
    if size == 0 {
      NothingReads(c, data);
      return Some(Tail(0, 0));
    }
    var completeEnd := size;
    if data[size - 1] != NEWLINE {
      var newline := PreviousNewline(data, size - 1);
      if newline < 0 {
        assert IsCompleteEnd(data, 0);
        assert IsLastLine(data, 0, 0, 0);
        if ReadAll(c, data).Some? {
          LastLineIsLastRecord(c, data, 0, 0, 0);
        }
        return Some(Tail(0, 0));
      }
      completeEnd := newline + 1;
    }
    assert IsCompleteEnd(data, completeEnd);
    var lineEnd := completeEnd;
    while lineEnd > 0 && IsBreak(data[lineEnd - 1])
      invariant 0 <= lineEnd <= completeEnd
      invariant forall k :: lineEnd <= k < completeEnd ==> IsBreak(data[k])
    {
      lineEnd := lineEnd - 1;
    }
    if lineEnd == 0 {
      assert IsLastLine(data, completeEnd, 0, 0);
      if ReadAll(c, data).Some? {
        LastLineIsLastRecord(c, data, completeEnd, 0, 0);
      }
      return Some(Tail(0, completeEnd));
    }
    var lineStart := PreviousNewline(data, lineEnd);
    lineStart := lineStart + 1;
    assert IsLastLine(data, completeEnd, lineStart, lineEnd);
    if ReadAll(c, data).Some? {
      LastLineIsLastRecord(c, data, completeEnd, lineStart, lineEnd);
    }
    match c.decode(TrimReturn(data[lineStart..lineEnd])) {
      case None => return None;
      case Some(item) => return Some(Tail(item.sequence, completeEnd));
    }
  }
}
