/** Display records and their classification: core/session/display_log.go and
    core/session/display_content.go. */
module DisplayItems {
  datatype ItemType =
    | UserMessage | SteeringMessage | AssistantMessage | ToolExecutionStarted
    | TurnCompleted | TurnFailed | TurnInterrupted
    | OtherType(name: string)

  datatype PartType = ToolCallPart | ToolResultPart | ReasoningPart | ThinkingPart | OtherPart(name: string)

  datatype ContentKind = Conversation | Tool | Event

  /** A record of the display log; `body` stands for every field that neither
      numbering, classification nor paging looks at. */
  datatype Item = Item(
    sequence: nat,
    id: string,
    createdAt: Timestamp,
    itemType: ItemType,
    parts: seq<PartType>,
    fromSubagent: bool,
    body: string)

  datatype Timestamp = Unset | At(nanos: int)

  predicate IsTool(part: PartType) {
    part.ToolCallPart? || part.ToolResultPart?
  }

  predicate IsReasoning(part: PartType) {
    part.ReasoningPart? || part.ThinkingPart?
  }

  /** What a record's content is, independently of its outer event type. */
  function Kind(item: Item): ContentKind {
    match item.itemType
    case UserMessage | SteeringMessage => Conversation
    case AssistantMessage =>
      if exists p :: p in item.parts && !IsTool(p) && !IsReasoning(p) then Conversation
      else if exists p :: p in item.parts && IsTool(p) then Tool
      else Event
    case ToolExecutionStarted => Tool
    case _ => Event
  }

  /** The loop that classifies a record stops at the first conversational part. */
  method ClassifyContent(item: Item) returns (kind: ContentKind)
    ensures kind == Kind(item)
  {
    match item.itemType {
      case UserMessage => return Conversation;
      case SteeringMessage => return Conversation;
      case AssistantMessage =>
        var hasTool := false;
        for i := 0 to |item.parts|
          invariant forall j :: 0 <= j < i ==> IsTool(item.parts[j]) || IsReasoning(item.parts[j])
          invariant hasTool <==> exists j :: 0 <= j < i && IsTool(item.parts[j])
        {
          if IsTool(item.parts[i]) {
            hasTool := true;
          } else if !IsReasoning(item.parts[i]) {
            return Conversation;
          }
        }
        if hasTool {
          return Tool;
        }
      case ToolExecutionStarted => return Tool;
      case _ =>
    }
    return Event;
  }

  /** Records after which a turn has ended, whatever the outcome. */
  predicate IsTerminalTurn(item: Item) {
    !item.fromSubagent && (item.itemType.TurnCompleted? || item.itemType.TurnFailed? || item.itemType.TurnInterrupted?)
  }
}
