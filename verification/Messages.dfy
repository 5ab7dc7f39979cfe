/** Messages of a conversation: core/protocol/message.go. */
module Messages {
  import opened Wrappers
  import opened Utf8

  datatype Role = System | User | Assistant | Tool

  datatype ToolCall = ToolCall(id: string, name: Text, arguments: Text)

  datatype ResultKind = TextResult | ErrorText | JsonResult | ErrorJson | ContentResult | ExecutionDenied

  datatype ResultPart = ResultText(text: Text) | ResultImage(present: bool)

  /** A tool's answer; `json` is its structured form, already encoded. */
  datatype ToolResult = ToolResult(
    callId: string,
    toolName: string,
    kind: ResultKind,
    text: Text,
    json: Option<Text>,
    parts: seq<ResultPart>,
    reason: string,
    isError: bool)

  /** `EmptyPart` is a call or result part whose pointer is nil. */
  datatype Part =
    | TextPart(text: Text)
    | ReasoningPart(text: Text)
    | CallPart(call: ToolCall)
    | ResultPartOf(result: ToolResult)
    | MediaPart(present: bool)
    | EmptyPart

  datatype Usage = Usage(inputTokens: int, cacheCreation: int, cacheRead: int)
  {
    function TotalInput(): int {
      inputTokens + cacheCreation + cacheRead
    }
  }

  /** What a request showed the model: roles and content, nothing else. */
  type Visible = seq<(Role, seq<Part>)>

  datatype ContextInput = ContextInput(promptKey: string, profileKey: string, prefixTokens: int, historyDigest: Visible)

  datatype Metadata = Metadata(usage: Option<Usage>, contextInput: Option<ContextInput>)

  /** How a tool message answers the calls before it: each once and in call order, each once, or each. */
  datatype Cover = InOrder | Once | AtLeastOnce

  /** `cover` is a mark for stating what was recorded on which path; the code has no such field and
      nothing reads it. */
  datatype Message = Message(role: Role, content: seq<Part>, contextual: bool, metadata: Option<Metadata>, cover: Cover)
  {
    predicate IsContextualUser() {
      role == User && contextual
    }

    predicate IsRealUser() {
      role == User && !contextual
    }
  }

  function UserMessage(text: Text): Message {
    Message(User, [TextPart(text)], false, None, InOrder)
  }

  function ToolMessage(results: seq<ToolResult>): Message {
    MarkedToolMessage(results, InOrder)
  }

  function MarkedToolMessage(results: seq<ToolResult>, cover: Cover): Message {
    Message(Tool, ResultParts(results), false, None, cover)
  }

  function ResultParts(results: seq<ToolResult>): seq<Part> {
    if results == [] then [] else [ResultPartOf(results[0])] + ResultParts(results[1..])
  }

  function CallParts(calls: seq<ToolCall>): seq<Part> {
    if calls == [] then [] else [CallPart(calls[0])] + CallParts(calls[1..])
  }

  /** The ids of the tool calls of an assistant message, in order. */
  function CallIds(content: seq<Part>): seq<string> {
    if content == [] then []
    else (if content[0].CallPart? then [content[0].call.id] else []) + CallIds(content[1..])
  }

  /** The ids a tool message answers, in order. */
  function ResultIds(content: seq<Part>): seq<string> {
    if content == [] then []
    else (if content[0].ResultPartOf? then [content[0].result.callId] else []) + ResultIds(content[1..])
  }
}
