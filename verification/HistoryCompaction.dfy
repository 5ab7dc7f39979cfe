/** Compacting the agent's history: core/agent/agent.go, lines 2642-2752. */
module HistoryCompaction {
  import opened Wrappers
  import opened Utf8
  import opened Messages
  import opened Conversation
  import opened Projection
  import opened Compaction
  import opened ContextUsage
  import opened Compressors
  import opened InlineMedia

  // ---------------------------------------------------------------------
  // Projection does not touch calls and answers
  // ---------------------------------------------------------------------

  lemma {:induction false} CallIdsConcat(a: seq<Part>, b: seq<Part>)
    ensures CallIds(a + b) == CallIds(a) + CallIds(b)
  {
    if a == [] {
      assert a + b == b;
    } else {
      assert (a + b)[0] == a[0] && (a + b)[1..] == a[1..] + b;
      CallIdsConcat(a[1..], b);
    }
  }

  lemma {:induction false} ResultIdsConcat(a: seq<Part>, b: seq<Part>)
    ensures ResultIds(a + b) == ResultIds(a) + ResultIds(b)
  {
    if a == [] {
      assert a + b == b;
    } else {
      assert (a + b)[0] == a[0] && (a + b)[1..] == a[1..] + b;
      ResultIdsConcat(a[1..], b);
    }
  }

  lemma IdsConcat(a: seq<Part>, b: seq<Part>)
    ensures CallIds(a + b) == CallIds(a) + CallIds(b)
    ensures ResultIds(a + b) == ResultIds(a) + ResultIds(b)
  {
    CallIdsConcat(a, b);
    ResultIdsConcat(a, b);
  }

  lemma {:induction false} ProjectKeepsIds(counter: Counter, limit: int, content: seq<Part>)
    ensures CallIds(ProjectParts(counter, limit, content)) == CallIds(content)
    ensures ResultIds(ProjectParts(counter, limit, content)) == ResultIds(content)
  {
    if content != [] {
      var n := |content| - 1;
      ProjectKeepsIds(counter, limit, content[..n]);
      PartKeepsIds(counter, limit, content[n]);
      assert content == content[..n] + [content[n]];
      IdsConcat(content[..n], [content[n]]);
      IdsConcat(ProjectParts(counter, limit, content[..n]), [ProjectPart(counter, limit, content[n])]);
    }
  }

  lemma PartKeepsIds(counter: Counter, limit: int, p: Part)
    ensures CallIds([ProjectPart(counter, limit, p)]) == CallIds([p])
    ensures ResultIds([ProjectPart(counter, limit, p)]) == ResultIds([p])
  {
    hide BoundText, Normal;
    OneId(p);
    OneId(ProjectPart(counter, limit, p));
  }

  lemma OneId(p: Part)
    ensures CallIds([p]) == if p.CallPart? then [p.call.id] else []
    ensures ResultIds([p]) == if p.ResultPartOf? then [p.result.callId] else []
  {
    assert [p][1..] == [];
  }

  /** Two histories with the same roles and ids are answered and free of orphans alike. */
  ghost predicate SameCalls(a: seq<Message>, b: seq<Message>) {
    && |a| == |b|
    && forall i :: 0 <= i < |a| ==>
      && a[i].role == b[i].role
      && a[i].cover == b[i].cover
      && CallIds(a[i].content) == CallIds(b[i].content)
      && ResultIds(a[i].content) == ResultIds(b[i].content)
  }

  lemma {:induction false} SameCallsBalanced(afterCalls: bool, a: seq<Message>, b: seq<Message>)
    requires SameCalls(a, b)
    ensures AllAnswered(a) == AllAnswered(b)
    ensures NoOrphans(afterCalls, a) == NoOrphans(afterCalls, b)
    decreases |a|
  {
    hide CallIds, ResultIds;
    if a != [] {
      SameCallsBalanced(HasCalls(a[0]), a[1..], b[1..]);
      assert HasCalls(a[0]) == HasCalls(b[0]);
      if |a| > 1 {
        assert Answers(a[0], a[1]) == Answers(b[0], b[1]);
      }
    }
  }

  lemma ProjectBalanced(counter: Counter, limit: int, h: seq<Message>)
    ensures AllAnswered(Project(counter, limit, h)) == AllAnswered(h)
    ensures NoOrphans(false, Project(counter, limit, h)) == NoOrphans(false, h)
  {
    hide Project, CallIds, ResultIds, ProjectParts;
    var r := Project(counter, limit, h);
    forall i | 0 <= i < |h|
      ensures r[i].role == h[i].role && r[i].cover == h[i].cover
      ensures CallIds(r[i].content) == CallIds(h[i].content)
      ensures ResultIds(r[i].content) == ResultIds(h[i].content)
    {
      ProjectAt(counter, limit, h, i);
      ProjectKeepsIds(counter, limit, h[i].content);
    }
    SameCallsBalanced(false, r, h);
  }

  // ---------------------------------------------------------------------
  // Restoring the contextual messages, and committing
  // ---------------------------------------------------------------------

  /** Rebuilds the current context behind the summary. */
  method RebaseUserContext(history: seq<Message>, contexts: seq<Message>) returns (rebased: seq<Message>)
    ensures rebased == Rebased(history, contexts)
  {
    var kept: seq<Message> := [];
    var insertAt := 0;
    var found := false;
    for i := 0 to |history|
      invariant kept == Keep(history[..i], NotContextual()) && insertAt == InsertAt(kept)
      invariant found <==> insertAt > 0
    {
      assert history[..i + 1] == history[..i] + [history[i]];
      KeepOneMore(history[..i], history[i], NotContextual());
      if history[i].IsContextualUser() {
        continue;
      }
      InsertAtOneMore(kept, history[i]);
      kept := kept + [history[i]];
      if !found && history[i].role != System {
        insertAt := |kept|;
        found := true;
      }
    }
    assert history[..|history|] == history;
    rebased := kept[..insertAt] + contexts + kept[insertAt..];
  }

  lemma {:induction false} InsertAtOneMore(h: seq<Message>, m: Message)
    ensures InsertAt(h + [m]) ==
      if InsertAt(h) > 0 then InsertAt(h) else if m.role != System then |h| + 1 else 0
  {
    if h == [] {
      assert h + [m] == [m];
    } else {
      assert (h + [m])[1..] == h[1..] + [m];
      InsertAtOneMore(h[1..], m);
    }
  }

  datatype Outcome = NotNeeded | Failed | NoGain | Committed

  /** What is committed: the compacted projection, rebased, and locally smaller than before. */
  ghost predicate CommitOf(counter: Counter, threshold: int, history: seq<Message>, p: nat, summary: Message,
                           contexts: seq<Message>, next: seq<Message>) {
    var sent := Project(counter, PROMPT_LIMIT, history);
    var projected := Project(counter, threshold, sent);
    && 0 < p < |Talk(projected)|
    && (IsBoundary(Talk(projected), p) || forall j :: !IsBoundary(Talk(projected), j))
    && next == Rebased(Compacted(projected, p, summary), contexts)
    && Local(counter, threshold, Project(counter, PROMPT_LIMIT, next)) < Local(counter, threshold, sent)
  }

  lemma ShrinksCutsSafely(counter: Counter, h: seq<Message>, preserve: int, p: nat, summary: Message, next: seq<Message>)
    requires Shrinks(counter, h, preserve, p, summary, next)
    ensures 0 < p < |Talk(h)| && next == Compacted(h, p, summary)
    ensures IsBoundary(Talk(h), p) || forall j :: !IsBoundary(Talk(h), j)
  {
    var talk := Talk(h);
    var rough: nat :| rough < |talk| && IsRough(counter, talk, preserve, rough) && IsPartition(talk, rough, p);
    PartitionIsBoundary(talk, rough, p);
  }

  /** The conversation that is compacted has a boundary to cut at. */
  ghost predicate CanCutSafely(counter: Counter, threshold: int, history: seq<Message>) {
    var talk := Talk(Project(counter, threshold, Project(counter, PROMPT_LIMIT, history)));
    exists j :: IsBoundary(talk, j)
  }

  /** What a committed compaction keeps: calls stay answered in any case, and no answer loses its
      calls when the conversation has a boundary to cut at. */
  lemma CommitKeepsAnswers(counter: Counter, threshold: int, history: seq<Message>, p: nat,
                           summary: Message, contexts: seq<Message>, next: seq<Message>)
    requires CommitOf(counter, threshold, history, p, summary, contexts, next)
    requires AllAnswered(history) && summary.IsRealUser() && Plain(contexts)
    ensures AllAnswered(next)
    ensures NoOrphans(false, history) && CanCutSafely(counter, threshold, history) ==> NoOrphans(false, next)
  {
    hide Project, AllAnswered, NoOrphans, Talk, Compacted, Rebased, Local;
    var sent := Project(counter, PROMPT_LIMIT, history);
    var projected := Project(counter, threshold, sent);
    ProjectBalanced(counter, PROMPT_LIMIT, history);
    ProjectBalanced(counter, threshold, sent);
    CompactedAnswered(projected, p, summary);
    if NoOrphans(false, projected) {
      CompactedNoOrphans(projected, p, summary);
    }
    RebasedBalanced(projected, p, summary, contexts);
  }

  lemma {:induction false} KeptFrom(h: seq<Message>, p: Message -> bool, m: Message)
    requires m in Keep(h, p)
    ensures m in h
  {
    if h != [] && m !in (if p(h[0]) then [h[0]] else []) {
      KeptFrom(h[1..], p, m);
    }
  }

  lemma RebasedFrom(h: seq<Message>, p: nat, summary: Message, contexts: seq<Message>, m: Message)
    requires p <= |Talk(h)| && m in Rebased(Compacted(h, p, summary), contexts)
    requires m.role == Tool && summary.role == User && Plain(contexts)
    ensures m in h
  {
    hide Keep;
    var kept := Keep(Compacted(h, p, summary), NotContextual());
    assert m !in contexts;
    assert m in kept;
    KeptFrom(Compacted(h, p, summary), NotContextual(), m);
    if m in Systems(h) {
      KeptFrom(h, IsSystem(), m);
    } else {
      assert m in Talk(h)[p..];
      KeptFrom(h, NotSystem(), m);
    }
  }

  /** Every tool message of a committed history was one before, with the same ids and the same mark. */
  lemma CommittedAnswer(counter: Counter, threshold: int, history: seq<Message>, p: nat, summary: Message,
                        contexts: seq<Message>, next: seq<Message>, i: nat) returns (k: nat)
    requires CommitOf(counter, threshold, history, p, summary, contexts, next)
    requires summary.IsRealUser() && Plain(contexts)
    requires i < |next| && next[i].role == Tool
    ensures k < |history| && history[k].role == Tool && history[k].cover == next[i].cover
    ensures ResultIds(history[k].content) == ResultIds(next[i].content)
  {
    hide Project, Rebased, Compacted, Local, ResultIds, IsBoundary, ProjectParts, Talk;
    var sent := Project(counter, PROMPT_LIMIT, history);
    var projected := Project(counter, threshold, sent);
    assert next[i] in next;
    RebasedFrom(projected, p, summary, contexts, next[i]);
    k :| 0 <= k < |projected| && projected[k] == next[i];
    ProjectAt(counter, threshold, sent, k);
    ProjectAt(counter, PROMPT_LIMIT, history, k);
    ProjectKeepsIds(counter, PROMPT_LIMIT, history[k].content);
    ProjectKeepsIds(counter, threshold, sent[k].content);
  }

  method CompressHistory(compressor: Compressor, history: seq<Message>, prompt: ContextInput, force: bool,
                         summarized: Summarized, transcript: Text, contexts: Option<seq<Message>>)
    returns (next: seq<Message>, outcome: Outcome)
    ensures outcome != Committed ==> next == history
    ensures outcome == NotNeeded <==>
      !force && Estimate(compressor.counter, compressor.toolOutputThreshold, history, prompt).0
        <= Scale(compressor.contextWindow, compressor.triggerRatio)
    ensures outcome == Committed ==>
      && summarized.Summary?
      && contexts.Some?
      && exists p: nat :: CommitOf(compressor.counter, compressor.toolOutputThreshold, history, p,
                              SummaryMessage(summarized.text, transcript), contexts.value, next)
  {
    hide Project, Count, Shrinks, Local, Rebased, Compacted, Talk, Scale, Estimate;
    next := history;
    var tokens, _ := compressor.ContextTokens(history, prompt);
    var sent := compressor.TruncateToolResults(history, PROMPT_LIMIT);
    var needed := compressor.NeedsCompressionTokens(tokens);
    if !force && !needed {
      return history, NotNeeded;
    }
    var compressed, result, failed := compressor.ForceCompress(sent, summarized, transcript);
    if failed {
      return history, Failed;
    }
    if !result.compressed {
      return history, NoGain;
    }
    if contexts == None {
      return history, Failed;
    }
    var rebased := RebaseUserContext(compressed, contexts.value);
    var projected := compressor.TruncateToolResults(rebased, PROMPT_LIMIT);
    var after := compressor.CountTokens(projected);
    var before := compressor.CountTokens(sent);
    if after >= before {
      return history, NoGain;
    }
    ghost var h := Project(compressor.counter, compressor.toolOutputThreshold, sent);
    ShrinksCutsSafely(compressor.counter, h, compressor.PreserveTokens(Talk(h)), result.partitionIndex,
                      SummaryMessage(summarized.text, transcript), compressed);
    assert CommitOf(compressor.counter, compressor.toolOutputThreshold, history, result.partitionIndex,
                    SummaryMessage(summarized.text, transcript), contexts.value, rebased);
    return rebased, Committed;
  }

  // ---------------------------------------------------------------------
  // The fallback can cut a chain
  // ---------------------------------------------------------------------

  /** One question, one call and its answer: no boundary to cut at. */
  function OneExchange(question: Text, call: ToolCall, result: ToolResult): seq<Message> {
    [UserMessage(question), Message(Assistant, [CallPart(call)], false, None, InOrder), ToolMessage([result])]
  }

  /** Whenever the answer alone is what compaction wants to preserve, the search falls back to the rough
      index in front of it; and whenever the summary is cheaper than the question and the call, the
      history without them is used, and the answer stands there without its call. */
  lemma FallbackOrphansAnswer(counter: Counter, preserve: int, question: Text, call: ToolCall, result: ToolResult,
                              summary: Text, transcript: Text)
    requires result.callId == call.id
    requires var h := OneExchange(question, call, result);
      && CountMessage(counter, h[2]) >= preserve
      && CountMessage(counter, SummaryMessage(summary, transcript)) < CountMessage(counter, h[0]) + CountMessage(counter, h[1])
    ensures var h := OneExchange(question, call, result);
      var next := [SummaryMessage(summary, transcript), h[2]];
      && Balanced(h)
      && (forall j :: !IsBoundary(Talk(h), j))
      && Shrinks(counter, h, preserve, 2, SummaryMessage(summary, transcript), next)
      && !Balanced(next)
  {
    hide CountMessage, CountParts, Compacted, IsRough, IsPartition, Cuts, Talk;
    var h := OneExchange(question, call, result);
    var m := SummaryMessage(summary, transcript);
    ExchangeIsBalanced(question, call, result);
    ExchangeIsTalk(question, call, result);
    ExchangeCut(counter, preserve, question, call, result);
    CutIs(counter, h, preserve, 2, 2);
    CompactedExchange(question, call, result, m);
    assert [m, h[2]][..1] == [m] && h[..2][..1] == [h[0]];
    assert Count(counter, h) == CountMessage(counter, h[0]) + CountMessage(counter, h[1]) + CountMessage(counter, h[2]) by {
      assert h[..2] == [h[0], h[1]];
      CountTwo(counter, h[0], h[1]);
    }
    CountTwo(counter, m, h[2]);
    OrphanUnbalanced(m, h[2]);
  }

  lemma OrphanUnbalanced(m: Message, t: Message)
    requires !HasCalls(m) && t.role == Tool
    ensures !Balanced([m, t])
  {
    assert [m, t][1..] == [t];
    assert !NoOrphans(false, [t]);
  }

  lemma CountTwo(counter: Counter, a: Message, b: Message)
    ensures Count(counter, [a, b]) == CountMessage(counter, a) + CountMessage(counter, b)
  {
    assert [a, b][..1] == [a] && [a][..0] == [];
    assert Count(counter, [a]) == CountMessage(counter, a);
  }

  lemma ExchangeIsBalanced(question: Text, call: ToolCall, result: ToolResult)
    requires result.callId == call.id
    ensures var h := OneExchange(question, call, result);
      && |h| == 3 && Balanced(h) && h[2].role == Tool
      && forall j :: !IsBoundary(h, j)
  {
    var h := OneExchange(question, call, result);
    assert h[1..] == [h[1], h[2]] && h[1..][1..] == [h[2]] && [h[2]][1..] == [];
    assert [CallPart(call)][1..] == [] && [ResultPartOf(result)][1..] == [] && [result][1..] == [];
    ToolMessageIds([result]);
    assert IdsOf([result]) == [call.id] + [];
    assert CallIds(h[1].content) == [call.id] + [] && ResultIds(h[2].content) == [call.id] + [];
    assert HasCalls(h[1]) && Answers(h[1], h[2]);
    assert AllAnswered([h[2]]) && NoOrphans(true, [h[2]]);
    assert AllAnswered([h[1], h[2]]) && NoOrphans(false, [h[1], h[2]]);
  }

  lemma ExchangeIsTalk(question: Text, call: ToolCall, result: ToolResult)
    ensures var h := OneExchange(question, call, result);
      Talk(h) == h && Systems(h) == []
  {
    var h := OneExchange(question, call, result);
    KeepAll(h, NotSystem());
    assert h[1..] == [h[1], h[2]] && h[1..][1..] == [h[2]] && [h[2]][1..] == [];
    assert Keep([h[2]], IsSystem()) == [] && Keep([h[1], h[2]], IsSystem()) == [];
  }

  lemma ExchangeCut(counter: Counter, preserve: int, question: Text, call: ToolCall, result: ToolResult)
    requires CountMessage(counter, OneExchange(question, call, result)[2]) >= preserve
    requires forall j :: !IsBoundary(OneExchange(question, call, result), j)
    ensures var h := OneExchange(question, call, result);
      IsRough(counter, h, preserve, 2) && IsPartition(h, 2, 2)
  {
    hide CountMessage;
    var h := OneExchange(question, call, result);
    assert h[2..] == [h[2]] && [h[2]][..0] == [];
    assert Count(counter, [h[2]]) == CountMessage(counter, h[2]);
  }

  lemma CompactedExchange(question: Text, call: ToolCall, result: ToolResult, m: Message)
    ensures var h := OneExchange(question, call, result);
      |Talk(h)| == 3 && Compacted(h, 2, m) == [m, h[2]]
  {
    ExchangeIsTalk(question, call, result);
  }

  // ---------------------------------------------------------------------
  // An input on which it does
  // ---------------------------------------------------------------------

  function Length(): Counter {
    (t: Text) => |t|
  }

  /** Plain text is its own normal form. */
  lemma PlainIsNormal(t: Text)
    requires forall i :: 0 <= i < |t| ==> t[i] as int < 0x80 && t[i] != 'd'
    ensures Normal(t) == t
  {
    hide Omitted;
    PlainIsValid(t);
    SanitizeUnchanged(t);
    forall d | 0 <= d < |t| ensures !StartsAt(t, d) {
      if At(t, DATA, d) {
        AtD(t, d);
      }
    }
    NoPayloadCopied(t);
  }

  lemma AtD(t: Text, d: nat)
    requires At(t, DATA, d)
    ensures d < |t| && t[d] == 'd'
  {
    assert t[d..d + |DATA|][0] == t[d];
  }

  lemma {:induction false} PlainIsValid(t: Text)
    requires forall i :: 0 <= i < |t| ==> t[i] as int < 0x80
    ensures Valid(t)
  {
    if t != [] {
      PlainIsValid(t[1..]);
    }
  }

  function Xs(n: nat): Text {
    seq(n, i => 'x')
  }

  /** A question and an answer of a hundred characters each, a counter of characters and the default ratio. */
  lemma LargeAnswerIsOrphaned()
    ensures var call := ToolCall("c", "t", "{}");
      var h := OneExchange(Xs(100), call, ToolResult("c", "t", TextResult, Xs(100), None, [], "", false));
      var next := [SummaryMessage("s", ""), h[2]];
      && Balanced(h)
      && Shrinks(Length(), h, Scale(Count(Length(), Talk(h)), 0.3), 2, SummaryMessage("s", ""), next)
      && !Balanced(next)
  {
    hide *;
    var call := ToolCall("c", "t", "{}");
    var result := ToolResult("c", "t", TextResult, Xs(100), None, [], "", false);
    var h := OneExchange(Xs(100), call, result);
    LargeCosts();
    ExchangeIsTalk(Xs(100), call, result);
    assert Scale(215, 0.3) == 64 by { ScaleTotal(); }
    FallbackOrphansAnswer(Length(), 64, Xs(100), call, result, "s", "");
  }

  lemma ScaleTotal()
    ensures Scale(215, 0.3) == 64
  {}

  lemma LargeCosts()
    ensures var h := OneExchange(Xs(100), ToolCall("c", "t", "{}"), ToolResult("c", "t", TextResult, Xs(100), None, [], "", false));
      && |h| == 3
      && CountMessage(Length(), h[0]) == 104 && CountMessage(Length(), h[1]) == 7 && CountMessage(Length(), h[2]) == 104
      && Count(Length(), h) == 215
    ensures CountMessage(Length(), SummaryMessage("s", "")) == 37
  {
    hide Normal;
    var h := OneExchange(Xs(100), ToolCall("c", "t", "{}"), ToolResult("c", "t", TextResult, Xs(100), None, [], "", false));
    var m := SummaryMessage("s", "");
    PlainIsNormal(Xs(100));
    PlainIsNormal("{}");
    PlainIsNormal(SUMMARY_HEADER + "s" + "");
    OnePartCosts(h[0]);
    OnePartCosts(h[1]);
    OnePartCosts(h[2]);
    OnePartCosts(m);
    assert h[..2] == [h[0], h[1]];
    CountTwo(Length(), h[0], h[1]);
  }

  lemma OnePartCosts(m: Message)
    requires |m.content| == 1
    ensures CountMessage(Length(), m) == 4 + CountPart(Length(), m.content[0])
  {
    hide CountPart;
    assert m.content[..0] == [];
    assert CountParts(Length(), m.content) == CountParts(Length(), m.content[..0]) + CountPart(Length(), m.content[0]);
  }
}
