/** The compressor: core/services/compressor.go and core/services/context_usage.go. */
module Compressors {
  import opened Wrappers
  import opened Utf8
  import opened Spaces
  import opened InlineMedia
  import opened Messages
  import opened Conversation
  import opened Projection
  import opened Compaction
  import opened ContextUsage

  const DEFAULT_CONTEXT_WINDOW: int := 200_000

  /** A conversion of a product to an integer, towards zero. */
  function Scale(tokens: int, ratio: real): int {
    var product := tokens as real * ratio;
    if product >= 0.0 then product.Floor else -(-product).Floor
  }

  /** The outcome of asking for a summary. */
  datatype Summarized = Summary(text: Text) | SummaryFailed

  datatype Compression = Compression(
    originalTokens: int,
    compressedTokens: int,
    messagesBefore: int,
    messagesAfter: int,
    compressed: bool,
    partitionIndex: nat)

  /** The cut compaction makes in a history whose conversation should keep `preserve` tokens. */
  ghost predicate Cuts(counter: Counter, h: seq<Message>, preserve: int, p: nat) {
    && p < |Talk(h)|
    && exists rough: nat :: rough < |Talk(h)| && IsRough(counter, Talk(h), preserve, rough) && IsPartition(Talk(h), rough, p)
  }

  /** `next` is `h` compacted at that cut, and costs less. */
  ghost predicate Shrinks(counter: Counter, h: seq<Message>, preserve: int, p: nat, summary: Message, next: seq<Message>) {
    && p > 0
    && Cuts(counter, h, preserve, p)
    && next == Compacted(h, p, summary)
    && Count(counter, next) < Count(counter, h)
  }

  lemma CutIs(counter: Counter, h: seq<Message>, preserve: int, rough: nat, p: nat)
    requires rough < |Talk(h)| && IsRough(counter, Talk(h), preserve, rough) && IsPartition(Talk(h), rough, p)
    ensures p < |Talk(h)| && Cuts(counter, h, preserve, p)
  {
    hide Talk, IsRough;
  }

  /** Which cut is made, and so what a compaction leaves, is decided by the history and the summary. */
  lemma CompactedOneWay(counter: Counter, h: seq<Message>, preserve: int, summary: Message,
                        p1: nat, next1: seq<Message>, p2: nat, next2: seq<Message>)
    requires Shrinks(counter, h, preserve, p1, summary, next1) && Shrinks(counter, h, preserve, p2, summary, next2)
    ensures p1 == p2 && next1 == next2
  {
    hide Talk, IsRough, IsPartition, Compacted, Count;
    var talk := Talk(h);
    var r1: nat :| r1 < |talk| && IsRough(counter, talk, preserve, r1) && IsPartition(talk, r1, p1);
    var r2: nat :| r2 < |talk| && IsRough(counter, talk, preserve, r2) && IsPartition(talk, r2, p2);
    PartitionUnique(counter, talk, preserve, r1, r2, p1, p2);
  }

  class Compressor {
    const counter: Counter
    var contextWindow: int
    const triggerRatio: real
    const targetRatio: real
    const preserveRatio: real
    const toolOutputThreshold: int

    constructor (counter: Counter, contextWindow: int, triggerRatio: real, targetRatio: real, preserveRatio: real,
                 toolOutputThreshold: int)
      ensures this.counter == counter
      ensures this.contextWindow == if contextWindow <= 0 then DEFAULT_CONTEXT_WINDOW else contextWindow
      ensures this.triggerRatio == if triggerRatio <= 0.0 then 0.8 else triggerRatio
      ensures this.targetRatio == if targetRatio <= 0.0 then 0.5 else targetRatio
      ensures this.preserveRatio == if preserveRatio <= 0.0 then 0.3 else preserveRatio
      ensures this.toolOutputThreshold == if toolOutputThreshold <= 0 then 2000 else toolOutputThreshold
    {
      this.counter := counter;
      this.contextWindow := if contextWindow <= 0 then DEFAULT_CONTEXT_WINDOW else contextWindow;
      this.triggerRatio := if triggerRatio <= 0.0 then 0.8 else triggerRatio;
      this.targetRatio := if targetRatio <= 0.0 then 0.5 else targetRatio;
      this.preserveRatio := if preserveRatio <= 0.0 then 0.3 else preserveRatio;
      this.toolOutputThreshold := if toolOutputThreshold <= 0 then 2000 else toolOutputThreshold;
    }

    method SetContextWindow(size: int)
      modifies this`contextWindow
      ensures contextWindow == if size <= 0 then DEFAULT_CONTEXT_WINDOW else size
    {
      contextWindow := if size <= 0 then DEFAULT_CONTEXT_WINDOW else size;
    }

    // -------------------------------------------------------------------
    // Projection
    // -------------------------------------------------------------------

    /** The longest candidate the binary search finds within the token budget. */
    method LongestCandidate(projected: Text, marker: Text, maxTokens: int, top: int) returns (best: Text)
      requires top <= |projected|
      ensures best == Search(counter, projected, marker, maxTokens, 0, top, marker)
    {
      hide Candidate, Boundary;
      var low, high := 0, top;
      best := marker;
      while low <= high
        invariant 0 <= low && high <= top
        invariant Search(counter, projected, marker, maxTokens, low, high, best)
          == Search(counter, projected, marker, maxTokens, 0, top, marker)
        decreases high - low
      {
        var mid := low + (high - low) / 2;
        var end := CharacterBoundary(projected, mid);
        CandidateAt(projected, marker, mid);
        var candidate := projected[..end] + marker;
        if counter(candidate) <= maxTokens {
          best := candidate;
          low := mid + 1;
        } else {
          high := mid - 1;
        }
      }
    }

    method BoundToolText(text: Text, maxTokens: int) returns (r: Text, bounded: bool)
      ensures (r, bounded) == BoundText(counter, text, maxTokens)
    {
      hide Candidate, Boundary, Omitted, Sanitize;
      var projected := OmitInlineMediaPayloads(text);
      if |projected| > maxTokens * 4 || counter(projected) > maxTokens {
        var marker := TRUNCATED;
        if maxTokens <= 0 {
          return "", true;
        }
        if |marker| > maxTokens * 4 || counter(marker) > maxTokens {
          marker := "";
        }
        assert marker == EndMarker(counter, maxTokens);
        hide Search;
        var best := LongestCandidate(projected, marker, maxTokens, Room(projected, marker, maxTokens));
        return best, true;
      }
      return projected, projected != text;
    }

    /** The projected parts of a tool result's content. */
    method TruncateContent(parts: seq<ResultPart>, maxTokens: int) returns (content: seq<ResultPart>)
      ensures content == ProjectResultParts(counter, maxTokens, parts)
    {
      hide BoundText;
      content := parts;
      for k := 0 to |parts|
        invariant |content| == |parts| && content[k..] == parts[k..]
        invariant content[..k] == ProjectResultParts(counter, maxTokens, parts[..k])
      {
        ghost var before := content;
        assert content[k] == content[k..][0] == parts[k];
        if content[k].ResultText? {
          var text, bounded := BoundToolText(content[k].text, maxTokens);
          UnboundedIsSame(counter, content[k].text, maxTokens);
          if bounded {
            content := content[k := ResultText(text)];
          }
        }
        assert content[k] == ProjectResultPart(counter, maxTokens, parts[k]);
        assert content[..k + 1] == before[..k] + [content[k]];
        assert content[k + 1..] == before[k..][1..];
        assert parts[..k + 1][..k] == parts[..k];
      }
      assert content[..|parts|] == content && parts[..|parts|] == parts;
    }

    method TruncateResult(result: ToolResult, limit: int) returns (r: ToolResult)
      ensures r == ProjectResult(counter, limit, result)
    {
      hide BoundText;
      var max := if result.toolName == "spawn" && limit < SPAWN_TOKENS then SPAWN_TOKENS else limit;
      r := result;
      if r.json.Some? {
        var text, bounded := BoundToolText(r.json.value, max);
        if bounded {
          r := r.(json := None, text := text, kind := if r.kind == ErrorJson then ErrorText else TextResult);
        }
      } else {
        var text, bounded := BoundToolText(r.text, max);
        UnboundedIsSame(counter, r.text, max);
        if bounded {
          r := r.(text := text);
        }
      }
      var content := TruncateContent(result.parts, max);
      r := r.(parts := content);
    }

    method TruncatePart(part: Part, limit: int) returns (p: Part)
      ensures p == ProjectPart(counter, limit, part)
    {
      match part
      case TextPart(text) =>
        var t := OmitInlineMediaPayloads(text);
        p := TextPart(t);
      case ReasoningPart(text) =>
        var t := OmitInlineMediaPayloads(text);
        p := ReasoningPart(t);
      case CallPart(call) =>
        var t := OmitInlineMediaPayloads(call.arguments);
        p := CallPart(call.(arguments := t));
      case ResultPartOf(result) =>
        var r := TruncateResult(result, limit);
        p := ResultPartOf(r);
      case MediaPart(_) =>
        p := part;
      case EmptyPart =>
        p := part;
    }

    method TruncateMessage(m: Message, limit: int) returns (r: Message)
      ensures r == ProjectMessage(counter, limit, m)
    {
      hide ProjectPart;
      var content := m.content;
      for k := 0 to |m.content|
        invariant |content| == |m.content| && content[k..] == m.content[k..]
        invariant content[..k] == ProjectParts(counter, limit, m.content[..k])
      {
        ghost var before := content;
        assert content[k] == content[k..][0] == m.content[k];
        var p := TruncatePart(content[k], limit);
        content := content[k := p];
        assert content[..k + 1] == before[..k] + [p];
        assert content[k + 1..] == before[k..][1..];
        assert m.content[..k + 1][..k] == m.content[..k];
      }
      assert content[..|m.content|] == content && m.content[..|m.content|] == m.content;
      r := m.(content := content);
    }

    method TruncateToolResults(messages: seq<Message>, maxResultTokens: int) returns (result: seq<Message>)
      ensures result == Project(counter, if maxResultTokens <= 0 then toolOutputThreshold else maxResultTokens, messages)
    {
      hide ProjectMessage;
      var limit := if maxResultTokens <= 0 then toolOutputThreshold else maxResultTokens;
      result := messages;
      for i := 0 to |messages|
        invariant |result| == |messages| && result[i..] == messages[i..]
        invariant result[..i] == Project(counter, limit, messages[..i])
      {
        ghost var before := result;
        assert result[i] == result[i..][0] == messages[i];
        var m := TruncateMessage(result[i], limit);
        result := result[i := m];
        assert result[..i + 1] == before[..i] + [m];
        assert result[i + 1..] == before[i..][1..];
        assert messages[..i + 1][..i] == messages[..i];
      }
      assert result[..|messages|] == result && messages[..|messages|] == messages;
    }

    // -------------------------------------------------------------------
    // Counting
    // -------------------------------------------------------------------

    method CountSingleMessage(m: Message) returns (total: int)
      ensures total == CountMessage(counter, m)
    {
      total := 4;
      for k := 0 to |m.content|
        invariant total == 4 + CountParts(counter, m.content[..k])
      {
        var part := CountOnePart(m.content[k]);
        assert m.content[..k + 1][..k] == m.content[..k];
        total := total + part;
      }
      assert m.content[..|m.content|] == m.content;
    }

    method CountOnePart(p: Part) returns (n: int)
      ensures n == CountPart(counter, p)
    {
      match p
      case TextPart(text) =>
        var t := OmitInlineMediaPayloads(text);
        n := counter(t);
      case ReasoningPart(text) =>
        var t := OmitInlineMediaPayloads(text);
        n := counter(t);
      case CallPart(call) =>
        var t := OmitInlineMediaPayloads(call.arguments);
        n := counter(call.name) + counter(t);
      case ResultPartOf(r) =>
        var t := OmitInlineMediaPayloads(if r.json.Some? then r.json.value else r.text);
        n := counter(t);
        for k := 0 to |r.parts|
          invariant n == counter(Normal(if r.json.Some? then r.json.value else r.text)) + CountResultParts(counter, r.parts[..k])
        {
          var one := 0;
          match r.parts[k] {
            case ResultText(text) =>
              t := OmitInlineMediaPayloads(text);
              one := counter(t);
            case ResultImage(present) =>
              one := if present then 256 else 0;
          }
          assert r.parts[..k + 1][..k] == r.parts[..k];
          n := n + one;
        }
        assert r.parts[..|r.parts|] == r.parts;
      case MediaPart(present) =>
        n := if present then 256 else 0;
      case EmptyPart =>
        n := 0;
    }

    method CountTokensOf(messages: seq<Message>) returns (total: int)
      ensures total == Count(counter, messages)
    {
      total := 0;
      for i := 0 to |messages|
        invariant total == Count(counter, messages[..i])
      {
        var n := CountSingleMessage(messages[i]);
        assert messages[..i + 1][..i] == messages[..i];
        total := total + n;
      }
      assert messages[..|messages|] == messages;
    }

    method CountTokens(messages: seq<Message>) returns (total: int)
      ensures total == Local(counter, toolOutputThreshold, messages)
    {
      var projected := TruncateToolResults(messages, toolOutputThreshold);
      total := CountTokensOf(projected);
    }

    // -------------------------------------------------------------------
    // Compaction
    // -------------------------------------------------------------------

    /** Where to cut: the search the source documents as never breaking a tool call chain. */
    method FindSafePartitionPoint(messages: seq<Message>, preserveTokens: int) returns (p: nat)
      ensures messages == [] ==> p == 0
      ensures messages != [] ==> exists rough: nat ::
        rough < |messages| && IsRough(counter, messages, preserveTokens, rough) && IsPartition(messages, rough, p)
    {
      hide Count;
      if messages == [] {
        return 0;
      }
      var cumulative := new int[|messages|];
      var runningTotal := 0;
      var i := |messages|;
      CountNothing(counter, messages[i..]);
      while i > 0
        invariant 0 <= i <= |messages| && runningTotal == Count(counter, messages[i..])
        invariant forall j :: i <= j < |messages| ==> cumulative[j] == Count(counter, messages[j..])
      {
        i := i - 1;
        var n := CountSingleMessage(messages[i]);
        CountSuffix(counter, messages, i);
        runningTotal := runningTotal + n;
        cumulative[i] := runningTotal;
      }

      var roughIdx := 0;
      i := |messages|;
      while i > 0
        invariant 0 <= i <= |messages| && roughIdx == 0
        invariant forall j :: i <= j < |messages| ==> Count(counter, messages[j..]) < preserveTokens
      {
        i := i - 1;
        if cumulative[i] >= preserveTokens {
          roughIdx := i;
          break;
        }
      }
      assert IsRough(counter, messages, preserveTokens, roughIdx);

      var from := if 1 > roughIdx then 1 else roughIdx;
      var idx := from;
      while idx < |messages|
        invariant from <= idx && forall j :: from <= j < idx ==> !IsBoundary(messages, j)
      {
        if messages[idx].role == User && !messages[idx].IsContextualUser() && messages[idx - 1].role != Tool {
          return idx;
        }
        assert !IsBoundary(messages, idx);
        idx := idx + 1;
      }
      assert forall j :: from <= j < |messages| ==> !IsBoundary(messages, j);

      idx := roughIdx;
      while idx > 0
        invariant 0 <= idx <= roughIdx && forall j :: idx < j < |messages| ==> !IsBoundary(messages, j)
      {
        if messages[idx].role == User && !messages[idx].IsContextualUser() && messages[idx - 1].role != Tool {
          return idx;
        }
        assert !IsBoundary(messages, idx);
        idx := idx - 1;
      }
      return roughIdx;
    }

    /** How much of a conversation should stay. */
    function PreserveTokens(talk: seq<Message>): int
      reads this
    {
      var preserve := Scale(Count(counter, talk), preserveRatio);
      var target := Scale(contextWindow, targetRatio);
      if preserve > target then target else preserve
    }

    /** Replaces everything before the cut by a summary, unless that does not save tokens. */
    method CompressLocked(messages: seq<Message>, summarized: Summarized, transcript: Text)
      returns (history: seq<Message>, result: Compression, failed: bool)
      ensures Talk(messages) == [] ==> history == messages && !result.compressed && !failed
      ensures Talk(messages) != [] ==>
        && Cuts(counter, messages, PreserveTokens(Talk(messages)), result.partitionIndex)
        && failed == (result.partitionIndex > 0 && (summarized.SummaryFailed? || Blank(summarized.text)))
        && result.compressed ==
          (&& !failed && result.partitionIndex > 0
           && Count(counter, Compacted(messages, result.partitionIndex, SummaryMessage(summarized.text, transcript)))
              < Count(counter, messages))
        && (result.compressed ==>
          Shrinks(counter, messages, PreserveTokens(Talk(messages)), result.partitionIndex,
                  SummaryMessage(summarized.text, transcript), history))
        && (!result.compressed ==> history == messages)
      ensures result.originalTokens == Count(counter, messages) && result.messagesBefore == |messages|
      ensures !failed ==> result.compressedTokens == Count(counter, history) && result.messagesAfter == |history|
    {
      hide Count, Scale, IsRough, IsPartition;
      var tokens := CountTokensOf(messages);
      result := Compression(tokens, 0, |messages|, 0, false, 0);
      var systems, talk := Separate(messages);
      if |talk| == 0 {
        return messages, result.(compressedTokens := tokens, messagesAfter := |messages|), false;
      }
      var talkTokens := CountTokensOf(talk);
      var preserve := Scale(talkTokens, preserveRatio);
      var target := Scale(contextWindow, targetRatio);
      if preserve > target {
        preserve := target;
      }
      var p := FindSafePartitionPoint(talk, preserve);
      ghost var rough: nat :| rough < |talk| && IsRough(counter, talk, preserve, rough) && IsPartition(talk, rough, p);
      CutIs(counter, messages, preserve, rough, p);
      result := result.(partitionIndex := p);
      if p <= 0 {
        return messages, result.(compressedTokens := tokens, messagesAfter := |messages|), false;
      }
      if summarized.SummaryFailed? || Blank(summarized.text) {
        return messages, result, true;
      }
      var compressed := systems + [SummaryMessage(summarized.text, transcript)] + talk[p..];
      var after := CountTokensOf(compressed);
      result := result.(compressedTokens := after, messagesAfter := |compressed|, compressed := after < tokens);
      if !result.compressed {
        return messages, result.(compressedTokens := tokens, messagesAfter := |messages|), false;
      }
      return compressed, result, false;
    }

    method ForceCompress(messages: seq<Message>, summarized: Summarized, transcript: Text)
      returns (history: seq<Message>, result: Compression, failed: bool)
      ensures !failed && !result.compressed ==> history == Project(counter, toolOutputThreshold, messages)
      ensures result.compressed ==>
        var projected := Project(counter, toolOutputThreshold, messages);
        && !failed
        && summarized.Summary?
        && Shrinks(counter, projected, PreserveTokens(Talk(projected)), result.partitionIndex,
                   SummaryMessage(summarized.text, transcript), history)
    {
      hide Project, Count, Shrinks, Cuts, Blank, Talk, Compacted;
      var projected := TruncateToolResults(messages, toolOutputThreshold);
      history, result, failed := CompressLocked(projected, summarized, transcript);
    }

    // -------------------------------------------------------------------
    // Context accounting
    // -------------------------------------------------------------------

    method ContextTokens(history: seq<Message>, prompt: ContextInput) returns (tokens: int, calibrated: bool)
      ensures (tokens, calibrated) == Estimate(counter, toolOutputThreshold, history, prompt)
    {
      hide Project, Local;
      var h := TruncateToolResults(history, PROMPT_LIMIT);
      var index := |h|;
      while index > 0
        invariant 0 <= index <= |h| && forall j :: index <= j < |h| ==> !HasUsage(h[j])
      {
        index := index - 1;
        var message := h[index];
        if message.role != Assistant || message.metadata == None || message.metadata.value.usage == None {
          continue;
        }
        LatestIs(h, index);
        var usage := message.metadata.value.usage.value;
        var anchor := message.metadata.value.contextInput;
        var digest := DigestOf(h[..index]);
        if anchor == None || anchor.value.promptKey == "" || anchor.value.profileKey == ""
          || anchor.value.profileKey != prompt.profileKey
          || usage.inputTokens < 0 || usage.cacheCreation < 0 || usage.cacheRead < 0
          || usage.TotalInput() <= 0 || anchor.value.historyDigest != digest {
          EstimateUnmeasured(counter, toolOutputThreshold, h, index, prompt);
          break;
        }
        var growth := if prompt.prefixTokens - anchor.value.prefixTokens > 0 then prompt.prefixTokens - anchor.value.prefixTokens else 0;
        var rest := CountTokens(h[index..]);
        EstimateMeasured(counter, toolOutputThreshold, h, index, usage, anchor.value, prompt);
        return usage.TotalInput() + growth + rest, true;
      }
      var all := CountTokens(h);
      return prompt.prefixTokens + all, false;
    }

    method NeedsCompressionTokens(tokens: int) returns (needed: bool)
      ensures needed == (tokens > Scale(contextWindow, triggerRatio))
    {
      needed := tokens > Scale(contextWindow, triggerRatio);
    }
  }

  method Separate(messages: seq<Message>) returns (systems: seq<Message>, talk: seq<Message>)
    ensures systems == Systems(messages) && talk == Talk(messages)
  {
    systems, talk := [], [];
    for i := 0 to |messages|
      invariant systems == Systems(messages[..i]) && talk == Talk(messages[..i])
    {
      assert messages[..i + 1] == messages[..i] + [messages[i]];
      KeepOneMore(messages[..i], messages[i], IsSystem());
      KeepOneMore(messages[..i], messages[i], NotSystem());
      if messages[i].role == System {
        systems := systems + [messages[i]];
      } else {
        talk := talk + [messages[i]];
      }
    }
    assert messages[..|messages|] == messages;
  }

  lemma KeepOneMore(h: seq<Message>, m: Message, p: Message -> bool)
    ensures Keep(h + [m], p) == Keep(h, p) + if p(m) then [m] else []
  {
    KeepConcat(h, [m], p);
    assert Keep([m], p) == (if p(m) then [m] else []) + Keep([], p);
  }

  method DigestOf(h: seq<Message>) returns (digest: Visible)
    ensures digest == ContextDigest(h)
  {
    digest := [];
    for i := 0 to |h|
      invariant digest == ContextDigest(h[..i])
    {
      assert h[..i + 1][..i] == h[..i];
      digest := digest + [(h[i].role, h[i].content)];
    }
    assert h[..|h|] == h;
  }

  lemma CountNothing(counter: Counter, h: seq<Message>)
    requires h == []
    ensures Count(counter, h) == 0
  {}

  lemma CountSuffix(counter: Counter, h: seq<Message>, i: nat)
    requires i < |h|
    ensures Count(counter, h[i..]) == CountMessage(counter, h[i]) + Count(counter, h[i + 1..])
  {
    assert h[i..] == [h[i]] + h[i + 1..];
    CountConcat(counter, [h[i]], h[i + 1..]);
    assert [h[i]][..0] == [];
  }

  lemma UnboundedIsSame(counter: Counter, text: Text, max: int)
    ensures !BoundText(counter, text, max).1 ==> BoundText(counter, text, max).0 == text
  {}

  method CharacterBoundary(t: Text, mid: nat) returns (end: nat)
    requires mid <= |t|
    ensures end == Boundary(t, mid)
  {
    end := mid;
    while end > 0 && end < |t| && !RuneStart(t[end])
      invariant end <= mid && Boundary(t, end) == Boundary(t, mid)
    {
      end := end - 1;
    }
  }

  lemma CandidateAt(t: Text, marker: Text, mid: nat)
    requires mid <= |t|
    ensures Candidate(t, marker, mid) == t[..Boundary(t, mid)] + marker
  {}
}
