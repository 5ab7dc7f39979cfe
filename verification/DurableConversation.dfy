/** The conversation of a session and the log it is recorded in before memory changes:
    core/agent/conversation_state.go and internal/zotigod/worker_runtime_wal.go, lines 14-97. */
module DurableConversation {
  import opened Wrappers
  import opened JsonLines
  import opened Messages
  import opened RuntimeWal

  /** A change of the conversation; the cursor describes which contextual messages it holds. */
  datatype Mutation = Mutation(replace: bool, messages: seq<Message>, cursor: Option<string>, hasCursor: bool)

  datatype Payload = Recorded(mutation: Mutation) | ToolStarted(callId: string, toolName: string)

  datatype Conv = Conv(history: seq<Message>, cursor: Option<string>)

  function Mutated(c: Conv, m: Mutation): Conv {
    Conv(if m.replace then m.messages else c.history + m.messages,
         if m.hasCursor then m.cursor else c.cursor)
  }

  function Advanced(c: Conv, p: Payload): Conv {
    if p.Recorded? then Mutated(c, p.mutation) else c
  }

  /** The conversation after these log entries. */
  function Replay(base: Conv, payloads: seq<Payload>): Conv {
    if payloads == [] then base else Advanced(Replay(base, payloads[..|payloads| - 1]), payloads[|payloads| - 1])
  }

  lemma ReplayOneMore(base: Conv, payloads: seq<Payload>, p: Payload)
    ensures Replay(base, payloads + [p]) == Advanced(Replay(base, payloads), p)
  {
    assert (payloads + [p])[..|payloads|] == payloads;
  }

  // ---------------------------------------------------------------------
  // Records for payloads
  // ---------------------------------------------------------------------

  function RecordFor(f: Format<Payload>, h: Header, sequence: nat, p: Payload): Record<Payload> {
    var body := Body(VERSION, h.walId, sequence, p);
    Record(body, f.sum(body))
  }

  function RecordsFor(f: Format<Payload>, h: Header, payloads: seq<Payload>): (r: seq<Record<Payload>>)
    ensures |r| == |payloads|
    ensures forall i :: 0 <= i < |payloads| ==> r[i] == RecordFor(f, h, i + 1, payloads[i])
  {
    seq(|payloads|, i requires 0 <= i < |payloads| => RecordFor(f, h, i + 1, payloads[i]))
  }

  lemma RecordsChain(f: Format<Payload>, h: Header, payloads: seq<Payload>)
    requires h.version == VERSION
    ensures Chain(f, h, RecordsFor(f, h, payloads), 1)
  {}

  lemma RecordsOneMore(f: Format<Payload>, h: Header, payloads: seq<Payload>, p: Payload)
    ensures RecordsFor(f, h, payloads + [p]) == RecordsFor(f, h, payloads) + [RecordFor(f, h, |payloads| + 1, p)]
  {}

  /** A write that stopped after `bytes` bytes, or before it was known to have ended. */
  datatype Outcome = Written | Stopped(bytes: nat)

  /** The log of a running turn, with the recorder that numbers its records. A failed append poisons
      it: nothing is written behind a record that may be torn. */
  class WorkerRuntimeWal {
    const format: Format<Payload>
    const sessionId: string
    var file: Option<Bytes>
    var header: Option<Header>
    var seqno: nat
    var appendErr: bool
    /** Payloads whose append was acknowledged, and what a failed append left behind them. */
    ghost var acked: seq<Payload>
    ghost var inFlight: Option<Payload>
    ghost var torn: Bytes

    ghost predicate Valid()
      reads this
    {
      && format.Lawful()
      && (header.Some? ==>
        && HeaderOk(format, header.value, sessionId)
        && seqno == |acked|
        && file == Some(FileOf(format, header.value, RecordsFor(format, header.value, acked), torn))
        && (!appendErr ==> torn == [])
        && (torn != [] ==> inFlight.Some? && torn <= Line(format, header.value, |acked| + 1, inFlight.value)))
    }

    constructor (format: Format<Payload>, sessionId: string)
      requires format.Lawful()
      ensures Valid() && header == None && this.format == format && this.sessionId == sessionId
    {
      this.format, this.sessionId := format, sessionId;
      file, header, seqno, appendErr := None, None, 0, false;
      acked, inFlight, torn := [], None, [];
    }

    /** Starts a log; the header line replaces the file atomically. */
    method Begin(h: Header, written: bool) returns (ok: bool)
      requires Valid()
      modifies this
      ensures Valid()
      ensures ok <==> old(header) == None && written && h.version == VERSION && h.sessionId == sessionId
                      && h.sessionId != "" && h.walId != ""
      ensures ok ==> header == Some(h) && acked == [] && torn == [] && !appendErr
      ensures !ok ==> header == old(header) && acked == old(acked) && file == old(file) && torn == old(torn)
                      && appendErr == old(appendErr) && inFlight == old(inFlight)
    {
      if header.Some? || h.version != VERSION || h.sessionId != sessionId || h.sessionId == "" || h.walId == "" || !written {
        return false;
      }
      file := Some(format.header.encode(h) + [NEWLINE]);
      header, seqno, appendErr := Some(h), 0, false;
      acked, inFlight, torn := [], None, [];
      assert format.header.encode(h) + [NEWLINE] + ([] + []) == format.header.encode(h) + [NEWLINE];
      return true;
    }

    /** Appends one record and syncs it; only then is it acknowledged. */
    method Append(p: Payload, outcome: Outcome) returns (ok: bool)
      requires Valid()
      modifies this
      ensures Valid() && header == old(header)
      ensures ok <==> header.Some? && !old(appendErr) && outcome.Written?
      ensures acked == if ok then old(acked) + [p] else old(acked)
      ensures ok ==> !appendErr && torn == []
      ensures !ok && header.Some? ==> appendErr
      ensures old(header) == None || old(appendErr) ==> file == old(file) && torn == old(torn) && inFlight == old(inFlight)
    {
      hide FileOf, HeaderOk, RecordsFor, Format<Payload>.Lawful;
      if header == None || appendErr {
        return false;
      }
      var record := RecordFor(format, header.value, seqno + 1, p);
      var line := format.record.encode(record) + [NEWLINE];
      inFlight := Some(p);
      if outcome.Written? {
        FileGrows(format, header.value, acked, p);
        file := Some(file.value + line);
        seqno := seqno + 1;
        acked := acked + [p];
        return true;
      }
      var cut := if outcome.bytes < |line| then outcome.bytes else |line|;
      TornGrows(format, header.value, RecordsFor(format, header.value, acked), line[..cut]);
      file := Some(file.value + line[..cut]);
      torn := line[..cut];
      appendErr := true;
      return false;
    }
  }

  function Line(f: Format<Payload>, h: Header, sequence: nat, p: Payload): Bytes {
    f.record.encode(RecordFor(f, h, sequence, p)) + [NEWLINE]
  }

  lemma FileGrows(f: Format<Payload>, h: Header, payloads: seq<Payload>, p: Payload)
    ensures FileOf(f, h, RecordsFor(f, h, payloads + [p]), [])
      == FileOf(f, h, RecordsFor(f, h, payloads), []) + Line(f, h, |payloads| + 1, p)
  {
    var records := RecordsFor(f, h, payloads);
    var last := RecordFor(f, h, |payloads| + 1, p);
    RecordsOneMore(f, h, payloads, p);
    EncodeAllConcat(f.record, records, [last]);
    assert [last][1..] == [];
    assert f.record.EncodeAll([last]) == f.record.encode(last) + [NEWLINE];
    assert f.record.EncodeAll(records + [last]) + [] == (f.record.EncodeAll(records) + []) + Line(f, h, |payloads| + 1, p);
  }

  lemma TornGrows(f: Format<Payload>, h: Header, records: seq<Record<Payload>>, torn: Bytes)
    ensures FileOf(f, h, records, []) + torn == FileOf(f, h, records, torn)
  {
    assert f.record.EncodeAll(records) + [] + torn == f.record.EncodeAll(records) + torn;
  }

  // ---------------------------------------------------------------------
  // The conversation
  // ---------------------------------------------------------------------

  class ConversationState {
    var history: seq<Message>
    var cursor: Option<string>
    const recorder: WorkerRuntimeWal
    /** The conversation the log of the current turn starts from. */
    ghost var base: Conv

    ghost predicate Valid()
      reads this, recorder
    {
      && recorder.Valid()
      && (recorder.header.Some? ==> Value() == Replay(base, recorder.acked))
    }

    function Value(): Conv
      reads this
    {
      Conv(history, cursor)
    }

    constructor (recorder: WorkerRuntimeWal)
      requires recorder.Valid() && recorder.header == None
      ensures Valid() && this.recorder == recorder && history == []
    {
      history, cursor, this.recorder := [], None, recorder;
      base := Conv([], None);
    }

    /** Begins a log over the conversation as it is. */
    method BeginLog(h: Header, written: bool) returns (ok: bool)
      requires Valid()
      modifies this`base, recorder
      ensures Valid() && Value() == old(Value())
      ensures ok ==> base == Value() && recorder.acked == [] && recorder.header == Some(h)
    {
      ok := recorder.Begin(h, written);
      if ok {
        base := Value();
      }
    }

    /** Records the change, and only then makes it. */
    method Apply(m: Mutation, outcome: Outcome) returns (ok: bool)
      requires Valid()
      modifies this`history, this`cursor, recorder
      ensures Valid() && recorder.header == old(recorder.header)
      ensures ok <==> recorder.header.Some? && !old(recorder.appendErr) && outcome.Written?
      ensures Value() == if ok then Mutated(old(Value()), m) else old(Value())
      ensures recorder.acked == old(recorder.acked) + if ok then [Recorded(m)] else []
    {
      ok := recorder.Append(Recorded(m), outcome);
      if !ok {
        return;
      }
      ReplayOneMore(base, old(recorder.acked), Recorded(m));
      if m.replace {
        history := m.messages;
      } else {
        history := history + m.messages;
      }
      if m.hasCursor {
        cursor := m.cursor;
      }
    }

    method Append(messages: seq<Message>, next: Option<string>, hasCursor: bool, outcome: Outcome) returns (ok: bool)
      requires Valid()
      modifies this`history, this`cursor, recorder
      ensures Valid()
      ensures history == if ok then old(history) + messages else old(history)
      ensures cursor == if ok && hasCursor then next else old(cursor)
    {
      ok := Apply(Mutation(false, messages, next, hasCursor), outcome);
    }

    method Replace(messages: seq<Message>, next: Option<string>, outcome: Outcome) returns (ok: bool)
      requires Valid()
      modifies this`history, this`cursor, recorder
      ensures Valid()
      ensures Value() == if ok then Conv(messages, next) else old(Value())
    {
      ok := Apply(Mutation(true, messages, next, true), outcome);
    }

    /** A tool start is recorded in the same log, and changes no message. */
    method RecordToolExecutionStarted(callId: string, toolName: string, outcome: Outcome) returns (ok: bool)
      requires Valid()
      modifies recorder
      ensures Valid() && Value() == old(Value())
      ensures ok ==> ToolStarted(callId, toolName) in recorder.acked
      ensures recorder.acked == old(recorder.acked) + if ok then [ToolStarted(callId, toolName)] else []
    {
      ReplayOneMore(base, recorder.acked, ToolStarted(callId, toolName));
      ok := recorder.Append(ToolStarted(callId, toolName), outcome);
    }
  }

  // ---------------------------------------------------------------------
  // A crash
  // ---------------------------------------------------------------------

  /** Whatever was acknowledged survives: a crash may cut the file anywhere behind the synced part,
      and what loads is every acknowledged payload in order, and at most the one in flight. */
  lemma CrashKeepsAcknowledged(f: Format<Payload>, h: Header, sessionId: string, acked: seq<Payload>,
                               inFlight: Payload, torn: Bytes)
    returns (kept: seq<Payload>)
    requires HeaderOk(f, h, sessionId) && torn <= Line(f, h, |acked| + 1, inFlight)
    ensures kept == acked || kept == acked + [inFlight]
    ensures kept == acked + [inFlight] <==> |torn| >= |Line(f, h, |acked| + 1, inFlight)| - 1
    ensures Load(f, sessionId, FileOf(f, h, RecordsFor(f, h, acked), torn)) == Ok(Wal(h, RecordsFor(f, h, kept)))
  {
    hide Load, Chain, FileOf, RecordsFor, RecordFor;
    var records := RecordsFor(f, h, acked);
    var last := RecordFor(f, h, |acked| + 1, inFlight);
    var all := records + [last];
    RecordsOneMore(f, h, acked, inFlight);
    RecordsChain(f, h, acked + [inFlight]);
    AllEncoded(f, h, acked, inFlight, torn);
    var cut := |f.record.EncodeAll(records)| + |torn|;
    var m := CutLoads(f, h, sessionId, all, cut);
    FileIs(f, h, records, torn, f.record.EncodeAll(all)[..cut]);
    OffsetsAtEnd(f, records, last);
    kept := if m == |all| then acked + [inFlight] else acked;
    if m == |all| {
      assert all[..m] == all;
    } else {
      assert m == |records|;
      assert all[..m] == records;
    }
  }

  lemma AllEncoded(f: Format<Payload>, h: Header, acked: seq<Payload>, inFlight: Payload, torn: Bytes)
    requires torn <= Line(f, h, |acked| + 1, inFlight)
    ensures var records := RecordsFor(f, h, acked);
      var all := records + [RecordFor(f, h, |acked| + 1, inFlight)];
      var cut := |f.record.EncodeAll(records)| + |torn|;
      && cut <= |f.record.EncodeAll(all)|
      && f.record.EncodeAll(all)[..cut] == f.record.EncodeAll(records) + torn
  {
    var records := RecordsFor(f, h, acked);
    var last := RecordFor(f, h, |acked| + 1, inFlight);
    EncodeAllConcat(f.record, records, [last]);
    assert [last][1..] == [];
    assert f.record.EncodeAll([last]) == Line(f, h, |acked| + 1, inFlight);
  }

  lemma OffsetsAtEnd(f: Format<Payload>, records: seq<Record<Payload>>, last: Record<Payload>)
    ensures f.record.Offset(records + [last], |records| + 1) == |f.record.EncodeAll(records)| + |f.record.encode(last)| + 1
    ensures |records| > 0 ==> f.record.Offset(records + [last], |records|) == |f.record.EncodeAll(records)|
  {
    var all := records + [last];
    assert all[..|records|] == records;
    OffsetStep(f.record, all, |records|);
  }

  /** For a running conversation: after a crash the log replays to the conversation in memory, or to
      that with the one change in flight. */
  lemma CrashReplays(s: ConversationState, cut: nat) returns (kept: seq<Payload>)
    requires s.Valid() && s.recorder.header.Some? && cut <= |s.recorder.torn|
    ensures var w := s.recorder;
      Load(w.format, w.sessionId, FileOf(w.format, w.header.value, RecordsFor(w.format, w.header.value, w.acked), w.torn[..cut]))
        == Ok(Wal(w.header.value, RecordsFor(w.format, w.header.value, kept)))
    ensures || Replay(s.base, kept) == s.Value()
            || (s.recorder.inFlight.Some? && Replay(s.base, kept) == Advanced(s.Value(), s.recorder.inFlight.value))
    ensures s.recorder.acked <= kept && |kept| <= |s.recorder.acked| + 1
  {
    hide Load, FileOf, RecordsFor, Replay, Line;
    var w := s.recorder;
    var p := if w.inFlight.Some? then w.inFlight.value else ToolStarted("", "");
    kept := CrashKeepsAcknowledged(w.format, w.header.value, w.sessionId, w.acked, p, w.torn[..cut]);
    ReplayOneMore(s.base, w.acked, p);
  }
}
