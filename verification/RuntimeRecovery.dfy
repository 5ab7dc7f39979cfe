/** Recovering a session from the log its last worker left: internal/zotigod/worker_runtime_wal.go,
    lines 99-209. */
module RuntimeRecovery {
  import opened Wrappers
  import opened JsonLines
  import opened Utf8
  import opened Messages
  import opened Conversation
  import opened RuntimeWal
  import opened DurableConversation
  import opened AgentTurn
  import opened AgentInvariant
  import opened Actions
  import ToolRun

  /** The stored session; the committed log is the last one whose outcome the snapshot holds. */
  datatype Session = Session(
    version: nat,
    conversation: Conv,
    committedWal: string,
    committedSeq: nat)

  datatype Recovery =
    | NothingToDo
    | AlreadyCommitted
    | Restored(session: Session)
    | Refused

  const NOT_EXECUTED: Text := "The previous worker stopped before this tool execution began. The tool was not executed."
  const OUTCOME_UNKNOWN: Text :=
    "The previous worker stopped after this tool started but before a durable result was recorded. The outcome is unknown and the operation may have produced side effects. Do not repeat it automatically; verify current state with a read-only operation or ask the user before retrying."

  /** What depends on encodings: snapshot digests by format version, and markers for unknown outcomes. */
  datatype Codes = Codes(digest: (nat, seq<Message>) -> string, marker: (string, string) -> Text)

  function PayloadsOf(records: seq<Record<Payload>>): (p: seq<Payload>)
    ensures |p| == |records| && forall i :: 0 <= i < |p| ==> p[i] == records[i].body.payload
  {
    seq(|records|, i requires 0 <= i < |records| => records[i].body.payload)
  }

  predicate WasStarted(payloads: seq<Payload>, id: string) {
    exists i :: 0 <= i < |payloads| && payloads[i].ToolStarted? && payloads[i].callId == id
  }

  function CallsOf(content: seq<Part>): seq<ToolCall> {
    if content == [] then []
    else (if content[0].CallPart? then [content[0].call] else []) + CallsOf(content[1..])
  }

  function LastHistoryToolCalls(h: seq<Message>): seq<ToolCall> {
    if h == [] || h[|h| - 1].role != Assistant then [] else CallsOf(h[|h| - 1].content)
  }

  function UnansweredText(codes: Codes, turnId: string, payloads: seq<Payload>, id: string): Text {
    if !WasStarted(payloads, id) then NOT_EXECUTED
    else if turnId != "" then codes.marker(turnId, id) + " " + OUTCOME_UNKNOWN
    else OUTCOME_UNKNOWN
  }

  function UnansweredResult(codes: Codes, turnId: string, payloads: seq<Payload>, call: ToolCall): ToolResult {
    ToolResult(call.id, call.name, ErrorText, UnansweredText(codes, turnId, payloads, call.id), None, [], "", true)
  }

  function UnansweredResults(codes: Codes, turnId: string, payloads: seq<Payload>, calls: seq<ToolCall>): seq<ToolResult> {
    if calls == [] then []
    else UnansweredResults(codes, turnId, payloads, calls[..|calls| - 1])
         + [UnansweredResult(codes, turnId, payloads, calls[|calls| - 1])]
  }

  /** The history with the calls at its end answered by what is known of them. */
  function AnsweredHistory(codes: Codes, turnId: string, payloads: seq<Payload>, h: seq<Message>): seq<Message> {
    var calls := LastHistoryToolCalls(h);
    if calls == [] then h else h + [ToolMessage(UnansweredResults(codes, turnId, payloads, calls))]
  }

  function LastSequence(records: seq<Record<Payload>>): nat {
    if records == [] then 0 else records[|records| - 1].body.sequence
  }

  function RecoverWal(codes: Codes, session: Session, loaded: Result<Option<Wal<Payload>>, LoadError>): Recovery {
    match loaded
    case Err(_) => Refused
    case Ok(None) => NothingToDo
    case Ok(Some(wal)) =>
      var h := wal.header;
      if session.committedWal == h.walId && session.committedSeq >= LastSequence(wal.records) then AlreadyCommitted
      else if h.baseVersion != session.version then Refused
      else if h.baseDigest != codes.digest(h.version, session.conversation.history) then Refused
      else
        var payloads := PayloadsOf(wal.records);
        var replayed := Replay(session.conversation, payloads);
        Restored(Session(session.version + 1,
                         replayed.(history := AnsweredHistory(codes, h.turnId, payloads, replayed.history)),
                         h.walId, LastSequence(wal.records)))
  }

  /** Committing a turn: the snapshot is stored first, then the log is removed. */
  function Committed(session: Session, h: Header, seqno: nat, conversation: Conv): Session {
    Session(session.version + 1, conversation, h.walId, seqno)
  }

  // ---------------------------------------------------------------------
  // The replay loop
  // ---------------------------------------------------------------------

  method RecoverRuntimeWAL(codes: Codes, session: Session, loaded: Result<Option<Wal<Payload>>, LoadError>)
    returns (r: Recovery)
    ensures r == RecoverWal(codes, session, loaded)
  {
    hide WasStarted, UnansweredResults;
    match loaded
    case Err(_) => return Refused;
    case Ok(None) => return NothingToDo;
    case Ok(Some(wal)) =>
      var h := wal.header;
      var lastSeq := if |wal.records| > 0 then wal.records[|wal.records| - 1].body.sequence else 0;
      if session.committedWal == h.walId && session.committedSeq >= lastSeq {
        return AlreadyCommitted;
      }
      if h.baseVersion != session.version || h.baseDigest != codes.digest(h.version, session.conversation.history) {
        return Refused;
      }
      var conv := session.conversation;
      ghost var payloads := PayloadsOf(wal.records);
      for i := 0 to |wal.records|
        invariant conv == Replay(session.conversation, payloads[..i])
      {
        assert payloads[..i + 1] == payloads[..i] + [payloads[i]];
        ReplayOneMore(session.conversation, payloads[..i], payloads[i]);
        var payload := wal.records[i].body.payload;
        if payload.ToolStarted? {
          continue;
        }
        if payload.mutation.replace {
          conv := conv.(history := payload.mutation.messages);
        } else {
          conv := conv.(history := conv.history + payload.mutation.messages);
        }
        if payload.mutation.hasCursor {
          conv := conv.(cursor := payload.mutation.cursor);
        }
      }
      assert payloads[..|wal.records|] == payloads;
      var calls := LastHistoryToolCalls(conv.history);
      if |calls| > 0 {
        var started := StartedCalls(wal.records);
        var results := AnswerCalls(codes, h.turnId, payloads, started, calls);
        conv := conv.(history := conv.history + [ToolMessage(results)]);
      }
      return Restored(Session(session.version + 1, conv, h.walId, lastSeq));
  }

  method AnswerCalls(codes: Codes, turnId: string, ghost payloads: seq<Payload>, started: set<string>, calls: seq<ToolCall>)
    returns (results: seq<ToolResult>)
    requires forall id :: id in started <==> WasStarted(payloads, id)
    ensures results == UnansweredResults(codes, turnId, payloads, calls)
  {
    hide WasStarted;
    results := [];
    for i := 0 to |calls|
      invariant results == UnansweredResults(codes, turnId, payloads, calls[..i])
    {
      var text := NOT_EXECUTED;
      if calls[i].id in started {
        text := OUTCOME_UNKNOWN;
        if turnId != "" {
          text := codes.marker(turnId, calls[i].id) + " " + text;
        }
      }
      assert calls[..i + 1][..i] == calls[..i];
      results := results + [ToolResult(calls[i].id, calls[i].name, ErrorText, text, None, [], "", true)];
    }
    assert calls[..|calls|] == calls;
  }

  method StartedCalls(records: seq<Record<Payload>>) returns (started: set<string>)
    ensures forall id :: id in started <==> WasStarted(PayloadsOf(records), id)
  {
    started := {};
    ghost var payloads := PayloadsOf(records);
    for i := 0 to |records|
      invariant forall id :: id in started <==> exists k :: 0 <= k < i && payloads[k].ToolStarted? && payloads[k].callId == id
    {
      if records[i].body.payload.ToolStarted? {
        started := started + {records[i].body.payload.callId};
      }
    }
  }

  // ---------------------------------------------------------------------
  // What recovery guarantees
  // ---------------------------------------------------------------------

  lemma {:induction false} CallsHaveIds(content: seq<Part>)
    ensures CallIds(content) == CallIdsOf(CallsOf(content))
  {
    if content != [] {
      CallsHaveIds(content[1..]);
      if content[0].CallPart? {
        assert CallsOf(content)[1..] == CallsOf(content[1..]);
      } else {
        assert CallsOf(content) == CallsOf(content[1..]);
      }
    }
  }

  lemma {:induction false} IdsOfSnoc(results: seq<ToolResult>, r: ToolResult)
    ensures IdsOf(results + [r]) == IdsOf(results) + [r.callId]
  {
    if results == [] {
      assert results + [r] == [r] && [r][1..] == [];
    } else {
      assert (results + [r])[1..] == results[1..] + [r];
      IdsOfSnoc(results[1..], r);
    }
  }

  lemma {:induction false} CallIdsOfSnoc(calls: seq<ToolCall>, c: ToolCall)
    ensures CallIdsOf(calls + [c]) == CallIdsOf(calls) + [c.id]
  {
    if calls == [] {
      assert calls + [c] == [c] && [c][1..] == [];
    } else {
      assert (calls + [c])[1..] == calls[1..] + [c];
      CallIdsOfSnoc(calls[1..], c);
    }
  }

  lemma {:induction false} UnansweredIds(codes: Codes, turnId: string, payloads: seq<Payload>, calls: seq<ToolCall>)
    ensures IdsOf(UnansweredResults(codes, turnId, payloads, calls)) == CallIdsOf(calls)
  {
    if calls != [] {
      var n := |calls| - 1;
      UnansweredIds(codes, turnId, payloads, calls[..n]);
      IdsOfSnoc(UnansweredResults(codes, turnId, payloads, calls[..n]), UnansweredResult(codes, turnId, payloads, calls[n]));
      assert calls == calls[..n] + [calls[n]];
      CallIdsOfSnoc(calls[..n], calls[n]);
    }
  }

  /** A history that at most waits for the answers of its last message is recovered into one where
      every call is answered, and the calls of that message exactly once and in call order. */
  lemma RecoveredIsClosed(tidy: bool, codes: Codes, turnId: string, payloads: seq<Payload>, h: seq<Message>)
    requires Nearly(tidy, h)
    ensures Closed(tidy, AnsweredHistory(codes, turnId, payloads, h))
    ensures h <= AnsweredHistory(codes, turnId, payloads, h)
    ensures OpenTail(h) ==>
      var r := AnsweredHistory(codes, turnId, payloads, h);
      |r| == |h| + 1 && ResultIds(r[|h|].content) == CallIds(h[|h| - 1].content)
  {
    hide Closed;
    var calls := LastHistoryToolCalls(h);
    if h != [] && h[|h| - 1].role == Assistant {
      CallsHaveIds(h[|h| - 1].content);
    }
    if calls != [] {
      UnansweredIds(codes, turnId, payloads, calls);
      assert CallIdsOf(calls)[0] == calls[0].id;
      var ids := CallIds(h[|h| - 1].content);
      CoversItself(ids);
      ToolMessageIds(UnansweredResults(codes, turnId, payloads, calls));
      ResultsClose(tidy, h, ids, UnansweredResults(codes, turnId, payloads, calls), InOrder);
    } else {
      NearlyClosed(tidy, h);
    }
  }

  /** A tool reported as not executed was not: its body cannot have been entered, because the start
      record would have been in the log. */
  lemma NotExecutedNeverEntered(run: ToolRun.Run, payloads: seq<Payload>, i: nat)
    requires ToolRun.Inv(run) && i < |run.actions|
    requires forall k :: 0 <= k < |run.log| && run.log[k].StartRecorded? && run.log[k].i < |run.actions| ==>
      WasStarted(payloads, run.actions[run.log[k].i].id)
    requires !WasStarted(payloads, run.actions[i].id)
    ensures ToolRun.BodyStarted(i) !in run.log
  {
    forall k | 0 <= k < |run.log| ensures run.log[k] != ToolRun.BodyStarted(i) {
      if run.log[k].BodyStarted? {
        RecordBefore(run.log, k);
      }
    }
  }

  lemma RecordBefore(log: seq<ToolRun.Event>, k: nat)
    requires ToolRun.RecordsFirst(log) && k < |log| && log[k].BodyStarted?
    ensures exists j :: 0 <= j < |log| && log[j] == ToolRun.StartRecorded(log[k].i)
  {
    var e := ToolRun.StartRecorded(log[k].i);
    assert e in log[..k];
    var j :| 0 <= j < k && log[..k][j] == e;
    assert log[j] == e;
  }

  // ---------------------------------------------------------------------
  // Each log takes effect once
  // ---------------------------------------------------------------------

  /** Between storing the recovered session and removing the log a second recovery changes nothing. */
  lemma RecoveryHappensOnce(codes: Codes, session: Session, wal: Wal<Payload>)
    requires RecoverWal(codes, session, Ok(Some(wal))).Restored?
    ensures RecoverWal(codes, RecoverWal(codes, session, Ok(Some(wal))).session, Ok(Some(wal))) == AlreadyCommitted
  {}

  /** A commit that crashed before the snapshot was stored is replayed from the log, and one that
      crashed after it, with the log still there, is not replayed again. */
  lemma CommitHappensOnce(f: Format<Payload>, codes: Codes, session: Session, h: Header, sessionId: string, acked: seq<Payload>)
    requires HeaderOk(f, h, sessionId) && session.committedWal != h.walId
    requires h.baseVersion == session.version && h.baseDigest == codes.digest(h.version, session.conversation.history)
    ensures var loaded := Load(f, sessionId, FileOf(f, h, RecordsFor(f, h, acked), []));
      var replayed := Replay(session.conversation, acked);
      && loaded.Ok?
      && RecoverWal(codes, session, Ok(Some(loaded.value)))
         == Restored(Committed(session, h, |acked|,
              replayed.(history := AnsweredHistory(codes, h.turnId, acked, replayed.history))))
      && RecoverWal(codes, Committed(session, h, |acked|, replayed), Ok(Some(loaded.value))) == AlreadyCommitted
  {
    hide Load, FileOf, Chain, AnsweredHistory, Replay, Format<Payload>.Lawful;
    RecordsChain(f, h, acked);
    EmptyUndecodable(f, h, sessionId);
    WrittenLoads(f, h, sessionId, RecordsFor(f, h, acked), []);
    assert PayloadsOf(RecordsFor(f, h, acked)) == acked;
  }

  lemma EmptyUndecodable(f: Format<Payload>, h: Header, sessionId: string)
    requires HeaderOk(f, h, sessionId)
    ensures f.record.decode([]) == None && h.version == VERSION
  {}
}
