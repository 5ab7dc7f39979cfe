/** The runtime write-ahead log of one session: core/session/runtime_wal.go.

    A checksum is a function of a record's other fields; what it has to do is tell them apart. */
module RuntimeWal {
  import opened Wrappers
  import opened JsonLines

  const LEGACY_VERSION: nat := 1
  const VERSION: nat := 2

  datatype Header = Header(
    version: nat,
    sessionId: string,
    turnId: string,
    walId: string,
    baseVersion: nat,
    baseDigest: string)

  datatype Body<P> = Body(version: nat, walId: string, sequence: nat, payload: P)

  datatype Record<P> = Record(body: Body<P>, checksum: string)

  datatype Wal<P> = Wal(header: Header, records: seq<Record<P>>)

  /** How headers, records and checksums are written; `legacySum` reads a line of the old format. */
  datatype Format<!P(!new)> = Format(
    header: Codec<Header>,
    record: Codec<Record<P>>,
    sum: Body<P> -> string,
    legacySum: Bytes -> string)
  {
    ghost predicate Lawful() {
      && header.Lawful()
      && record.Lawful()
      && (forall b :: sum(b) != "")
      && (forall b1, b2 :: sum(b1) == sum(b2) ==> b1 == b2)
    }
  }

  datatype LoadError = BadHeader | BadRecord(expected: nat) | Mismatch(expected: nat) | BadChecksum(expected: nat)

  // ---------------------------------------------------------------------
  // Loading
  // ---------------------------------------------------------------------

  /** All pieces between line breaks, the one behind the last included. */
  function Pieces(data: Bytes): (r: seq<Bytes>)
    ensures r != []
  {
    var i := FirstNewline(data, 0);
    if i == -1 then [data] else [data[..i]] + Pieces(data[i + 1..])
  }

  predicate Fits<P>(h: Header, r: Record<P>, expected: nat) {
    r.body.version == h.version && r.body.walId == h.walId && r.body.sequence == expected
  }

  function ExpectedSum<P(!new)>(f: Format<P>, h: Header, r: Record<P>, line: Bytes): string {
    if h.version == LEGACY_VERSION then f.legacySum(line) else f.sum(r.body)
  }

  /** The records of lines; the last line may be torn if it is not terminated. */
  function LoadLines<P(!new)>(f: Format<P>, h: Header, lines: seq<Bytes>, unterminated: bool, expected: nat)
    : Result<seq<Record<P>>, LoadError>
    decreases |lines|
  {
    if lines == [] then Ok([])
    else if lines[0] == [] then LoadLines(f, h, lines[1..], unterminated, expected)
    else match f.record.decode(lines[0])
      case None => if |lines| == 1 && unterminated then Ok([]) else Err(BadRecord(expected))
      case Some(r) =>
        if !Fits(h, r, expected) then Err(Mismatch(expected))
        else if r.checksum == "" || r.checksum != ExpectedSum(f, h, r, lines[0]) then Err(BadChecksum(expected))
        else match LoadLines(f, h, lines[1..], unterminated, expected + 1)
          case Err(e) => Err(e)
          case Ok(rest) => Ok([r] + rest)
  }

  predicate Supported(version: nat) {
    version == LEGACY_VERSION || version == VERSION
  }

  function Unterminated(data: Bytes): bool {
    data != [] && data[|data| - 1] != NEWLINE
  }

  function Load<P(!new)>(f: Format<P>, sessionId: string, data: Bytes): Result<Wal<P>, LoadError> {
    var lines := Pieces(data);
    if |lines| < 2 then Err(BadHeader)
    else match f.header.decode(lines[0])
      case None => Err(BadHeader)
      case Some(h) =>
        if !Supported(h.version) || h.sessionId != sessionId || h.walId == "" then Err(BadHeader)
        else WithHeader(h, LoadLines(f, h, lines[1..], Unterminated(data), 1))
  }

  function WithHeader<P>(h: Header, r: Result<seq<Record<P>>, LoadError>): Result<Wal<P>, LoadError> {
    match r
    case Err(e) => Err(e)
    case Ok(records) => Ok(Wal(h, records))
  }

  method LoadRuntimeWAL<P(!new)>(f: Format<P>, sessionId: string, file: Option<Bytes>)
    returns (wal: Result<Option<Wal<P>>, LoadError>)
    ensures file == None ==> wal == Ok(None)
    ensures file.Some? ==>
      wal == match Load(f, sessionId, file.value)
             case Err(e) => Err(e)
             case Ok(w) => Ok(Some(w))
  {
    if file == None {
      return Ok(None);
    }
    var data := file.value;
    var lines := Pieces(data);
    if |lines| < 2 {
      return Err(BadHeader);
    }
    var decoded := f.header.decode(lines[0]);
    if decoded == None {
      return Err(BadHeader);
    }
    var h := decoded.value;
    if !Supported(h.version) || h.sessionId != sessionId || h.walId == "" {
      return Err(BadHeader);
    }
    var records: seq<Record<P>> := [];
    var expected := 1;
    var rest := lines[1..];
    ghost var all := LoadLines(f, h, rest, Unterminated(data), 1);
    PrependNothing(all);
    for index := 0 to |rest|
      invariant all == Prepend(records, LoadLines(f, h, rest[index..], Unterminated(data), expected))
    {
      var line := rest[index];
      assert rest[index..][0] == line && rest[index..][1..] == rest[index + 1..];
      if |line| == 0 {
        continue;
      }
      var record := f.record.decode(line);
      if record == None {
        if index == |rest| - 1 && data[|data| - 1] != NEWLINE {
          assert records + [] == records;
          return Ok(Some(Wal(h, records)));
        }
        return Err(BadRecord(expected));
      }
      if !Fits(h, record.value, expected) {
        return Err(Mismatch(expected));
      }
      if record.value.checksum == "" || record.value.checksum != ExpectedSum(f, h, record.value, line) {
        return Err(BadChecksum(expected));
      }
      PrependMore(records, record.value, LoadLines(f, h, rest[index + 1..], Unterminated(data), expected + 1));
      records := records + [record.value];
      expected := expected + 1;
    }
    assert records + [] == records;
    return Ok(Some(Wal(h, records)));
  }

  function Prepend<P>(a: seq<Record<P>>, r: Result<seq<Record<P>>, LoadError>): Result<seq<Record<P>>, LoadError> {
    match r
    case Err(e) => Err(e)
    case Ok(rest) => Ok(a + rest)
  }

  lemma PrependNothing<P>(r: Result<seq<Record<P>>, LoadError>)
    ensures Prepend([], r) == r
  {
    if r.Ok? {
      assert [] + r.value == r.value;
    }
  }

  lemma PrependMore<P>(a: seq<Record<P>>, x: Record<P>, r: Result<seq<Record<P>>, LoadError>)
    ensures Prepend(a, Prepend([x], r)) == Prepend(a + [x], r)
  {
    if r.Ok? {
      assert a + ([x] + r.value) == (a + [x]) + r.value;
    }
  }

  // ---------------------------------------------------------------------
  // What loading accepts
  // ---------------------------------------------------------------------

  /** Consecutive records of this log with their checksums. */
  ghost predicate Chain<P(!new)>(f: Format<P>, h: Header, records: seq<Record<P>>, from: nat) {
    forall i :: 0 <= i < |records| ==> Fits(h, records[i], from + i) && records[i].checksum == f.sum(records[i].body)
  }

  lemma {:induction false} PiecesOfRecords<P(!new)>(c: Codec<Record<P>>, records: seq<Record<P>>, torn: Bytes)
    requires c.Lawful() && NEWLINE !in torn
    ensures Pieces(c.EncodeAll(records) + torn) == Encodings(c, records) + [torn]
  {
    var data := c.EncodeAll(records) + torn;
    if records == [] {
      assert data == torn;
    } else {
      var line := c.encode(records[0]);
      var rest := c.EncodeAll(records[1..]) + torn;
      assert data == line + [NEWLINE] + rest;
      FirstPiece(line, rest);
      PiecesOfRecords(c, records[1..], torn);
    }
  }

  lemma FirstPiece(line: Bytes, rest: Bytes)
    requires NEWLINE !in line
    ensures Pieces(line + [NEWLINE] + rest) == [line] + Pieces(rest)
  {
    var data := line + [NEWLINE] + rest;
    assert data[|line|] == NEWLINE;
    assert forall k :: 0 <= k < |line| ==> data[k] == line[k];
    assert FirstNewline(data, 0) == |line|;
    assert data[..|line|] == line && data[|line| + 1..] == rest;
  }

  function Encodings<P(!new)>(c: Codec<Record<P>>, records: seq<Record<P>>): seq<Bytes> {
    if records == [] then [] else [c.encode(records[0])] + Encodings(c, records[1..])
  }

  /** Of written records, exactly a chain is accepted: a gap, a swap, a record of another log or an
      altered one is refused. `torn` is an unfinished write behind them. */
  lemma {:induction false} LoadsExactlyChains<P(!new)>(f: Format<P>, h: Header, records: seq<Record<P>>, torn: Bytes,
                                                      from: nat)
    requires f.Lawful() && h.version == VERSION && f.record.decode(torn) == None
    ensures var r := LoadLines(f, h, Encodings(f.record, records) + [torn], torn != [], from);
      if Chain(f, h, records, from) then r == Ok(records) else r.Err?
  {
    var lines := Encodings(f.record, records) + [torn];
    if records == [] {
      assert lines == [torn] && lines[1..] == [];
    } else {
      var x := records[0];
      assert lines[0] == f.record.encode(x) && lines[1..] == Encodings(f.record, records[1..]) + [torn];
      LoadsExactlyChains(f, h, records[1..], torn, from + 1);
      ChainStep(f, h, records, from);
      assert f.record.decode(lines[0]) == Some(x) && lines[0] != [];
      assert f.sum(x.body) != "" && ExpectedSum(f, h, x, lines[0]) == f.sum(x.body);
      assert [x] + records[1..] == records;
    }
  }

  lemma ChainStep<P(!new)>(f: Format<P>, h: Header, records: seq<Record<P>>, from: nat)
    requires records != []
    ensures Chain(f, h, records, from)
      <==> Fits(h, records[0], from) && records[0].checksum == f.sum(records[0].body) && Chain(f, h, records[1..], from + 1)
  {
    if Chain(f, h, records[1..], from + 1) && Fits(h, records[0], from) && records[0].checksum == f.sum(records[0].body) {
      forall i | 0 <= i < |records|
        ensures Fits(h, records[i], from + i) && records[i].checksum == f.sum(records[i].body)
      {
        if i > 0 {
          assert records[i] == records[1..][i - 1];
        }
      }
    }
  }

  // ---------------------------------------------------------------------
  // Cutting the file anywhere
  // ---------------------------------------------------------------------

  /** The file of a log with these records, and `torn` behind them. */
  function FileOf<P(!new)>(f: Format<P>, h: Header, records: seq<Record<P>>, torn: Bytes): Bytes {
    f.header.encode(h) + [NEWLINE] + (f.record.EncodeAll(records) + torn)
  }

  ghost predicate HeaderOk<P(!new)>(f: Format<P>, h: Header, sessionId: string) {
    f.Lawful() && h.version == VERSION && h.sessionId == sessionId && h.walId != ""
  }

  lemma {:induction false} EncodedEnds<P(!new)>(c: Codec<Record<P>>, records: seq<Record<P>>)
    ensures records != [] ==> c.EncodeAll(records) != [] && c.EncodeAll(records)[|c.EncodeAll(records)| - 1] == NEWLINE
  {
    if |records| > 1 {
      EncodedEnds(c, records[1..]);
    }
  }

  lemma FileEnds<P(!new)>(f: Format<P>, h: Header, records: seq<Record<P>>, torn: Bytes)
    requires NEWLINE !in torn
    ensures Unterminated(FileOf(f, h, records, torn)) <==> torn != []
  {
    EncodedEnds(f.record, records);
    var file := FileOf(f, h, records, torn);
    if torn != [] {
      assert file[|file| - 1] == torn[|torn| - 1] && torn[|torn| - 1] in torn;
    } else if records == [] {
      assert f.record.EncodeAll(records) + torn == [];
    } else {
      assert f.record.EncodeAll(records) + torn == f.record.EncodeAll(records);
    }
  }

  /** Loading reads the lines behind the header. */
  lemma LoadOf<P(!new)>(f: Format<P>, h: Header, sessionId: string, records: seq<Record<P>>, torn: Bytes)
    requires HeaderOk(f, h, sessionId) && NEWLINE !in torn
    ensures Load(f, sessionId, FileOf(f, h, records, torn))
      == WithHeader(h, LoadLines(f, h, Encodings(f.record, records) + [torn], torn != [], 1))
  {
    hide LoadLines;
    var line := f.header.encode(h);
    var rest := f.record.EncodeAll(records) + torn;
    FirstPiece(line, rest);
    PiecesOfRecords(f.record, records, torn);
    FileEnds(f, h, records, torn);
    var lines := Pieces(FileOf(f, h, records, torn));
    assert lines == [line] + (Encodings(f.record, records) + [torn]);
    assert lines[1..] == Encodings(f.record, records) + [torn];
    assert f.header.decode(line) == Some(h);
  }

  /** A written file loads exactly when its records are a chain from 1; an unfinished write behind
      them is ignored. */
  lemma WrittenLoads<P(!new)>(f: Format<P>, h: Header, sessionId: string, records: seq<Record<P>>, torn: Bytes)
    requires HeaderOk(f, h, sessionId) && NEWLINE !in torn && f.record.decode(torn) == None
    ensures var r := Load(f, sessionId, FileOf(f, h, records, torn));
      if Chain(f, h, records, 1) then r == Ok(Wal(h, records)) else r.Err?
  {
    hide LoadLines, Load;
    LoadOf(f, h, sessionId, records, torn);
    LoadsExactlyChains(f, h, records, torn, 1);
  }

  lemma {:induction false} LoadsLast<P(!new)>(f: Format<P>, h: Header, records: seq<Record<P>>, last: Record<P>, from: nat)
    requires f.Lawful() && h.version == VERSION && Chain(f, h, records + [last], from)
    ensures LoadLines(f, h, Encodings(f.record, records) + [f.record.encode(last)], true, from) == Ok(records + [last])
    decreases |records|
  {
    var line := f.record.encode(last);
    var lines := Encodings(f.record, records) + [line];
    ChainStep(f, h, records + [last], from);
    if records == [] {
      assert lines == [line] && lines[1..] == [] && line != [] && f.record.decode(line) == Some(last);
      assert f.sum(last.body) != "" && (records + [last])[0] == last;
      assert LoadLines(f, h, lines[1..], true, from + 1) == Ok([]);
      assert [last] + [] == records + [last];
    } else {
      var x := records[0];
      assert (records + [last])[0] == x && (records + [last])[1..] == records[1..] + [last];
      assert lines[0] == f.record.encode(x) && lines[1..] == Encodings(f.record, records[1..]) + [line];
      LoadsLast(f, h, records[1..], last, from + 1);
      assert f.record.decode(lines[0]) == Some(x) && lines[0] != [] && f.sum(x.body) != "";
      assert [x] + (records[1..] + [last]) == records + [last];
    }
  }

  lemma ChainPrefix<P(!new)>(f: Format<P>, h: Header, records: seq<Record<P>>, k: nat, from: nat)
    requires Chain(f, h, records, from) && k <= |records|
    ensures Chain(f, h, records[..k], from)
  {}

  lemma FileIs<P(!new)>(f: Format<P>, h: Header, records: seq<Record<P>>, torn: Bytes, rest: Bytes)
    requires rest == f.record.EncodeAll(records) + torn
    ensures f.header.encode(h) + [NEWLINE] + rest == FileOf(f, h, records, torn)
  {}

  /** Cutting the records of a log at any byte leaves exactly those whose encodings lie before the cut. */
  lemma CutLoads<P(!new)>(f: Format<P>, h: Header, sessionId: string, records: seq<Record<P>>, cut: nat) returns (m: nat)
    requires HeaderOk(f, h, sessionId) && Chain(f, h, records, 1)
    requires cut <= |f.record.EncodeAll(records)|
    ensures m <= |records|
    ensures Load(f, sessionId, f.header.encode(h) + [NEWLINE] + f.record.EncodeAll(records)[..cut]) == Ok(Wal(h, records[..m]))
    ensures forall j :: 1 <= j <= |records| ==> (j <= m <==> f.record.Offset(records, j) <= cut + 1)
  {
    hide LoadLines, Load, Chain, FileOf;
    var c := f.record;
    var whole, torn := CutAnywhere(c, records, cut);
    m := whole;
    FileIs(f, h, records[..whole], torn, c.EncodeAll(records)[..cut]);
    ChainPrefix(f, h, records, whole, 1);
    if whole < |records| {
      TornIsPrefix(c, records, cut, whole, torn);
      var next := c.encode(records[whole]);
      if |torn| == |next| {
        m := whole + 1;
        ChainPrefix(f, h, records, m, 1);
        assert records[..m] == records[..whole] + [records[whole]];
        assert torn == next && next != [];
        LoadOf(f, h, sessionId, records[..whole], torn);
        LoadsLast(f, h, records[..whole], records[whole], 1);
      } else {
        assert c.decode(next[..|torn|]) == None;
        WrittenLoads(f, h, sessionId, records[..whole], torn);
        assert Load(f, sessionId, FileOf(f, h, records[..whole], torn)) == Ok(Wal(h, records[..whole]));
      }
      WholeBefore(c, records, cut, whole, |torn|);
    } else {
      WholeIsAll(c, records, cut, torn);
      WrittenLoads(f, h, sessionId, records[..whole], torn);
    }
  }

  lemma NewlineInside(torn: Bytes, next: Bytes)
    requires |torn| > |next| && torn[..|next| + 1] == next + [NEWLINE]
    ensures NEWLINE in torn
  {
    assert torn[..|next| + 1][|next|] == torn[|next|];
  }

  lemma TornIsPrefix<P(!new)>(c: Codec<Record<P>>, records: seq<Record<P>>, cut: nat, whole: nat, torn: Bytes)
    requires c.Lawful() && whole < |records| && cut <= |c.EncodeAll(records)|
    requires c.EncodeAll(records)[..cut] == c.EncodeAll(records[..whole]) + torn && NEWLINE !in torn
    ensures |torn| <= |c.encode(records[whole])| && torn == c.encode(records[whole])[..|torn|]
    ensures cut == c.Offset(records, whole) + |torn|
  {
    OffsetStep(c, records, whole);
    var at := c.Offset(records, whole);
    var next := c.encode(records[whole]);
    var all := c.EncodeAll(records);
    assert forall i :: 0 <= i < |torn| ==> torn[i] == all[..cut][at + i] == all[at + i];
    assert forall i :: 0 <= i < |next| + 1 ==> (next + [NEWLINE])[i] == all[at + i];
    if |torn| > |next| {
      NewlineInside(torn, next);
    }
  }

  lemma WholeBefore<P(!new)>(c: Codec<Record<P>>, records: seq<Record<P>>, cut: nat, whole: nat, n: nat)
    requires whole < |records| && n <= |c.encode(records[whole])| && cut == c.Offset(records, whole) + n
    ensures forall j :: 1 <= j <= |records| ==>
      (j <= (if n == |c.encode(records[whole])| then whole + 1 else whole) <==> c.Offset(records, j) <= cut + 1)
  {
    OffsetStep(c, records, whole);
    forall j | 1 <= j <= |records|
      ensures j <= (if n == |c.encode(records[whole])| then whole + 1 else whole) <==> c.Offset(records, j) <= cut + 1
    {
      if j <= whole {
        OffsetMonotone(c, records, j, whole);
      } else {
        OffsetMonotone(c, records, whole + 1, j);
      }
    }
  }

  lemma WholeIsAll<P(!new)>(c: Codec<Record<P>>, records: seq<Record<P>>, cut: nat, torn: Bytes)
    requires c.Lawful() && cut <= |c.EncodeAll(records)|
    requires c.EncodeAll(records)[..cut] == c.EncodeAll(records[..|records|]) + torn
    ensures torn == [] && c.decode(torn) == None
    ensures forall j :: 1 <= j <= |records| ==> c.Offset(records, j) <= cut + 1
  {
    assert records[..|records|] == records;
    assert |c.EncodeAll(records)[..cut]| == cut;
    forall j | 1 <= j <= |records| ensures c.Offset(records, j) <= cut + 1 {
      OffsetMonotone(c, records, j, |records|);
    }
  }

  /** A file cut inside its header line is refused. */
  lemma HeaderCutRefused<P(!new)>(f: Format<P>, h: Header, sessionId: string, cut: nat)
    requires f.Lawful() && cut <= |f.header.encode(h)|
    ensures Load(f, sessionId, f.header.encode(h)[..cut]) == Err(BadHeader)
  {
    var data := f.header.encode(h)[..cut];
    assert forall i :: 0 <= i < |data| ==> data[i] == f.header.encode(h)[i];
    assert FirstNewline(data, 0) == -1;
  }
}
