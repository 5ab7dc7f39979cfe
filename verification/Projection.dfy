/** The bounded prompt projection: core/services/compressor.go, lines 442-557 and 597-652.

    `BoundText` and `Project` say what the projection is, for any token counter; the methods of
    Compressors.Compressor are shown to compute them. */
module Projection {
  import opened Wrappers
  import opened Utf8
  import opened InlineMedia
  import opened Messages

  type Counter = Text -> int

  const TRUNCATED: Text := "\n\n[... truncated ...]"
  const SPAWN_TOKENS: int := 16000

  // ---------------------------------------------------------------------
  // One text
  // ---------------------------------------------------------------------

  /** The text a projection starts from: well-formed, without inline payloads. */
  function Normal(text: Text): Text {
    Omitted(Sanitize(text))
  }

  predicate Fits(counter: Counter, text: Text, max: int) {
    |text| <= max * 4 && counter(text) <= max
  }

  /** The truncation marker, unless it does not fit by itself. */
  function EndMarker(counter: Counter, max: int): Text {
    if Fits(counter, TRUNCATED, max) then TRUNCATED else ""
  }

  /** The last character boundary at or before `mid`. */
  function Boundary(t: Text, mid: nat): (end: nat)
    requires mid <= |t|
    ensures end <= mid && (0 < end < |t| ==> RuneStart(t[end]))
  {
    if 0 < mid < |t| && !RuneStart(t[mid]) then Boundary(t, mid - 1) else mid
  }

  function Candidate(t: Text, marker: Text, mid: nat): Text
    requires mid <= |t|
  {
    t[..Boundary(t, mid)] + marker
  }

  /** Binary search for a long candidate within the token budget. */
  function Search(counter: Counter, t: Text, marker: Text, max: int, low: nat, high: int, best: Text): Text
    requires high <= |t|
    decreases high - low + 1
  {
    if low > high then best
    else
      var mid := low + (high - low) / 2;
      var c := Candidate(t, marker, mid);
      if counter(c) <= max then Search(counter, t, marker, max, mid + 1, high, c)
      else Search(counter, t, marker, max, low, mid - 1, best)
  }

  function Room(t: Text, marker: Text, max: int): int {
    if |t| < max * 4 - |marker| then |t| else max * 4 - |marker|
  }

  function Truncated(counter: Counter, t: Text, max: int): Text {
    if max <= 0 then ""
    else
      var marker := EndMarker(counter, max);
      Search(counter, t, marker, max, 0, Room(t, marker, max), marker)
  }

  /** The projected text and whether it counts as changed. */
  function BoundText(counter: Counter, text: Text, max: int): (Text, bool) {
    var projected := Normal(text);
    if Fits(counter, projected, max) then (projected, projected != text)
    else (Truncated(counter, projected, max), true)
  }

  // ---------------------------------------------------------------------
  // What the search finds
  // ---------------------------------------------------------------------

  /** The result is a candidate within the token budget, and the next larger candidate is not
      (or there is none): no assumption on how the counter behaves in between. */
  lemma {:induction false} SearchFinds(counter: Counter, t: Text, marker: Text, max: int, low: nat, high: int, best: Text, top: nat)
    returns (k: nat)
    requires low <= high + 1 <= top + 1 && top <= |t|
    requires counter(best) <= max
    requires low == 0 ==> best == marker == Candidate(t, marker, 0)
    requires low > 0 ==> best == Candidate(t, marker, low - 1)
    requires high < top ==> counter(Candidate(t, marker, high + 1)) > max
    ensures k <= top && Search(counter, t, marker, max, low, high, best) == Candidate(t, marker, k)
    ensures counter(Candidate(t, marker, k)) <= max
    ensures k < top ==> counter(Candidate(t, marker, k + 1)) > max
    decreases high - low + 1
  {
    hide Candidate, Boundary;
    if low > high {
      k := low - 1;
    } else {
      var mid := low + (high - low) / 2;
      var c := Candidate(t, marker, mid);
      if counter(c) <= max {
        k := SearchFinds(counter, t, marker, max, mid + 1, high, c, top);
      } else {
        k := SearchFinds(counter, t, marker, max, low, mid - 1, best, top);
      }
    }
  }

  /** A truncated text is a prefix at a character boundary plus the marker (if that fits), within
      both budgets, and one step more of prefix breaks the token budget or the byte budget. */
  lemma TruncatedFits(counter: Counter, t: Text, max: int) returns (k: nat)
    requires counter("") == 0 && max > 0
    ensures var marker := EndMarker(counter, max);
      && k <= Room(t, marker, max)
      && Truncated(counter, t, max) == Candidate(t, marker, k)
      && Fits(counter, Truncated(counter, t, max), max)
      && (k < Room(t, marker, max) ==> counter(Candidate(t, marker, k + 1)) > max)
  {
    var marker := EndMarker(counter, max);
    var top := Room(t, marker, max);
    assert Candidate(t, marker, 0) == marker;
    k := SearchFinds(counter, t, marker, max, 0, top, marker, top);
    assert |Candidate(t, marker, k)| <= k + |marker|;
  }

  /** Nothing left to project: well-formed, no payloads, within budget. */
  ghost predicate IsProjected(counter: Counter, text: Text, max: int) {
    Utf8.Valid(text) && Clean(text) && Fits(counter, text, max)
  }

  lemma NormalIs(text: Text)
    ensures Utf8.Valid(Normal(text)) && Clean(Normal(text))
  {
    OmittedWellFormed(text);
  }

  lemma NormalUnchanged(text: Text)
    requires Utf8.Valid(text) && Clean(text)
    ensures Normal(text) == text
  {
    SanitizeUnchanged(text);
    CleanUnchanged(text);
  }

  /** Cutting at a character boundary and appending the marker cannot create a payload or a
      broken character. */
  lemma CandidateIs(counter: Counter, t: Text, max: int, k: nat)
    requires Utf8.Valid(t) && Clean(t) && k <= |t|
    ensures var c := Candidate(t, EndMarker(counter, max), k);
      Utf8.Valid(c) && Clean(c)
  {
    hide Utf8.Valid, Clean, Fits;
    var marker, end := EndMarker(counter, max), Boundary(t, k);
    CleanTruncated(t, end, marker);
    assert end == 0 || end == |t| || RuneStart(t[end]);
    if end == 0 {
      assert t[..end] == "";
      AsciiValid("");
    } else {
      ValidSplit(t, end);
    }
    AsciiValid(marker);
    ValidConcat(t[..end], marker);
  }

  /** Projected text is within both budgets and has nothing left to project. */
  lemma BoundTextProjects(counter: Counter, text: Text, max: int)
    requires counter("") == 0 && max > 0
    ensures IsProjected(counter, BoundText(counter, text, max).0, max)
    ensures !BoundText(counter, text, max).1 ==> BoundText(counter, text, max).0 == text
  {
    hide Utf8.Valid, Clean, Normal, Truncated;
    var t := Normal(text);
    NormalIs(text);
    if !Fits(counter, t, max) {
      var k := TruncatedFits(counter, t, max);
      CandidateIs(counter, t, max, k);
    }
  }

  /** Projecting again, at the same budget or a larger one, changes nothing. */
  lemma BoundTextStable(counter: Counter, text: Text, max: int, larger: int)
    requires IsProjected(counter, text, max) && max <= larger
    ensures BoundText(counter, text, larger) == (text, false)
  {
    NormalUnchanged(text);
  }

  // ---------------------------------------------------------------------
  // Messages
  // ---------------------------------------------------------------------

  function Limit(limit: int, toolName: string): int {
    if toolName == "spawn" && limit < SPAWN_TOKENS then SPAWN_TOKENS else limit
  }

  function ProjectResultPart(counter: Counter, max: int, p: ResultPart): ResultPart {
    if p.ResultText? then ResultText(BoundText(counter, p.text, max).0) else p
  }

  function ProjectResultParts(counter: Counter, max: int, ps: seq<ResultPart>): seq<ResultPart> {
    if ps == [] then []
    else ProjectResultParts(counter, max, ps[..|ps| - 1]) + [ProjectResultPart(counter, max, ps[|ps| - 1])]
  }

  /** A structured answer stays structured while its encoding fits, and becomes text otherwise. */
  function ProjectResult(counter: Counter, limit: int, r: ToolResult): ToolResult {
    var max := Limit(limit, r.toolName);
    var body :=
      if r.json.Some? then
        var (text, bounded) := BoundText(counter, r.json.value, max);
        if bounded then r.(json := None, text := text, kind := if r.kind == ErrorJson then ErrorText else TextResult)
        else r
      else r.(text := BoundText(counter, r.text, max).0);
    body.(parts := ProjectResultParts(counter, max, r.parts))
  }

  function ProjectPart(counter: Counter, limit: int, p: Part): Part {
    match p
    case TextPart(text) => TextPart(Normal(text))
    case ReasoningPart(text) => ReasoningPart(Normal(text))
    case CallPart(call) => CallPart(call.(arguments := Normal(call.arguments)))
    case ResultPartOf(r) => ResultPartOf(ProjectResult(counter, limit, r))
    case _ => p
  }

  function ProjectParts(counter: Counter, limit: int, ps: seq<Part>): seq<Part> {
    if ps == [] then []
    else ProjectParts(counter, limit, ps[..|ps| - 1]) + [ProjectPart(counter, limit, ps[|ps| - 1])]
  }

  function ProjectMessage(counter: Counter, limit: int, m: Message): Message {
    m.(content := ProjectParts(counter, limit, m.content))
  }

  /** The prompt projection of a history. */
  function Project(counter: Counter, limit: int, messages: seq<Message>): (r: seq<Message>)
    ensures |r| == |messages|
  {
    if messages == [] then []
    else Project(counter, limit, messages[..|messages| - 1]) + [ProjectMessage(counter, limit, messages[|messages| - 1])]
  }

  lemma {:induction false} ProjectAt(counter: Counter, limit: int, messages: seq<Message>, i: nat)
    requires i < |messages|
    ensures Project(counter, limit, messages)[i] == ProjectMessage(counter, limit, messages[i])
  {
    if i < |messages| - 1 {
      ProjectAt(counter, limit, messages[..|messages| - 1], i);
    }
  }

  /** Each message is projected on its own: prefixes and suffixes of a projection are projections. */
  lemma {:induction false} ProjectConcat(counter: Counter, limit: int, a: seq<Message>, b: seq<Message>)
    ensures Project(counter, limit, a + b) == Project(counter, limit, a) + Project(counter, limit, b)
  {
    if b == [] {
      assert a + b == a;
    } else {
      assert (a + b)[..|a + b| - 1] == a + b[..|b| - 1];
      ProjectConcat(counter, limit, a, b[..|b| - 1]);
    }
  }

  // ---------------------------------------------------------------------
  // Stability of the whole projection
  // ---------------------------------------------------------------------

  ghost predicate ResultPartsOk(counter: Counter, max: int, ps: seq<ResultPart>) {
    forall i :: 0 <= i < |ps| && ps[i].ResultText? ==> IsProjected(counter, ps[i].text, max)
  }

  /** Every text of a tool result that reaches the prompt is within both budgets. */
  ghost predicate ResultOk(counter: Counter, limit: int, r: ToolResult) {
    var max := Limit(limit, r.toolName);
    && IsProjected(counter, if r.json.Some? then r.json.value else r.text, max)
    && ResultPartsOk(counter, max, r.parts)
  }

  ghost predicate PartOk(counter: Counter, limit: int, p: Part) {
    match p
    case TextPart(text) => Utf8.Valid(text) && Clean(text)
    case ReasoningPart(text) => Utf8.Valid(text) && Clean(text)
    case CallPart(call) => Utf8.Valid(call.arguments) && Clean(call.arguments)
    case ResultPartOf(r) => ResultOk(counter, limit, r)
    case _ => true
  }

  ghost predicate HistoryOk(counter: Counter, limit: int, messages: seq<Message>) {
    forall i, j :: 0 <= i < |messages| && 0 <= j < |messages[i].content| ==> PartOk(counter, limit, messages[i].content[j])
  }

  lemma {:induction false} ResultPartsProject(counter: Counter, max: int, ps: seq<ResultPart>)
    requires counter("") == 0 && max > 0
    ensures ResultPartsOk(counter, max, ProjectResultParts(counter, max, ps))
  {
    hide IsProjected, BoundText;
    if ps != [] {
      ResultPartsProject(counter, max, ps[..|ps| - 1]);
      if ps[|ps| - 1].ResultText? {
        BoundTextProjects(counter, ps[|ps| - 1].text, max);
      }
    }
  }

  lemma {:induction false} ResultPartsStable(counter: Counter, max: int, larger: int, ps: seq<ResultPart>)
    requires ResultPartsOk(counter, max, ps) && max <= larger
    ensures ProjectResultParts(counter, larger, ps) == ps
  {
    hide IsProjected, BoundText;
    if ps != [] {
      ResultPartsStable(counter, max, larger, ps[..|ps| - 1]);
      if ps[|ps| - 1].ResultText? {
        BoundTextStable(counter, ps[|ps| - 1].text, max, larger);
      }
    }
  }

  lemma ResultProjects(counter: Counter, limit: int, r: ToolResult)
    requires counter("") == 0 && limit > 0
    ensures ResultOk(counter, limit, ProjectResult(counter, limit, r))
  {
    hide IsProjected, BoundText, ProjectResultParts, ResultPartsOk;
    var max := Limit(limit, r.toolName);
    BoundTextProjects(counter, if r.json.Some? then r.json.value else r.text, max);
    ResultPartsProject(counter, max, r.parts);
  }

  lemma ResultStable(counter: Counter, limit: int, larger: int, r: ToolResult)
    requires ResultOk(counter, limit, r) && limit <= larger
    ensures ProjectResult(counter, larger, r) == r
  {
    hide IsProjected, BoundText, ProjectResultParts, ResultPartsOk;
    var max, max' := Limit(limit, r.toolName), Limit(larger, r.toolName);
    BoundTextStable(counter, if r.json.Some? then r.json.value else r.text, max, max');
    ResultPartsStable(counter, max, max', r.parts);
  }

  lemma {:induction false} PartsProject(counter: Counter, limit: int, ps: seq<Part>)
    requires counter("") == 0 && limit > 0
    ensures forall j :: 0 <= j < |ProjectParts(counter, limit, ps)| ==> PartOk(counter, limit, ProjectParts(counter, limit, ps)[j])
  {
    hide ResultOk, ProjectResult, Normal, Utf8.Valid, Clean;
    if ps != [] {
      var p := ps[|ps| - 1];
      PartsProject(counter, limit, ps[..|ps| - 1]);
      match p {
        case TextPart(text) => NormalIs(text);
        case ReasoningPart(text) => NormalIs(text);
        case CallPart(call) => NormalIs(call.arguments);
        case ResultPartOf(r) => ResultProjects(counter, limit, r);
        case _ =>
      }
    }
  }

  lemma PartStable(counter: Counter, limit: int, larger: int, p: Part)
    requires limit <= larger && PartOk(counter, limit, p)
    ensures ProjectPart(counter, larger, p) == p
  {
    hide ResultOk, ProjectResult, Normal, Utf8.Valid, Clean;
    match p
    case TextPart(text) => NormalUnchanged(text);
    case ReasoningPart(text) => NormalUnchanged(text);
    case CallPart(call) => NormalUnchanged(call.arguments);
    case ResultPartOf(r) => ResultStable(counter, limit, larger, r);
    case _ =>
  }

  lemma {:induction false} PartsStable(counter: Counter, limit: int, larger: int, ps: seq<Part>)
    requires limit <= larger && forall j :: 0 <= j < |ps| ==> PartOk(counter, limit, ps[j])
    ensures ProjectParts(counter, larger, ps) == ps
  {
    hide PartOk, ProjectPart;
    if ps != [] {
      PartsStable(counter, limit, larger, ps[..|ps| - 1]);
      PartStable(counter, limit, larger, ps[|ps| - 1]);
    }
  }

  /** A projected history meets every budget. */
  lemma ProjectMeetsBudgets(counter: Counter, limit: int, messages: seq<Message>)
    requires counter("") == 0 && limit > 0
    ensures HistoryOk(counter, limit, Project(counter, limit, messages))
  {
    var r := Project(counter, limit, messages);
    forall i, j | 0 <= i < |r| && 0 <= j < |r[i].content| ensures PartOk(counter, limit, r[i].content[j]) {
      ProjectAt(counter, limit, messages, i);
      PartsProject(counter, limit, messages[i].content);
    }
  }

  lemma {:induction false} ProjectStable(counter: Counter, limit: int, larger: int, messages: seq<Message>)
    requires HistoryOk(counter, limit, messages) && limit <= larger
    ensures Project(counter, larger, messages) == messages
  {
    hide PartOk;
    if messages != [] {
      var n := |messages| - 1;
      ProjectStable(counter, limit, larger, messages[..n]);
      PartsStable(counter, limit, larger, messages[n].content);
    }
  }

  /** Projecting a projected history, at the same limit or a larger one, changes nothing. */
  lemma ProjectIdempotent(counter: Counter, limit: int, larger: int, messages: seq<Message>)
    requires counter("") == 0 && 0 < limit <= larger
    ensures Project(counter, larger, Project(counter, limit, messages)) == Project(counter, limit, messages)
  {
    ProjectMeetsBudgets(counter, limit, messages);
    ProjectStable(counter, limit, larger, Project(counter, limit, messages));
  }

  // ---------------------------------------------------------------------
  // Counting
  // ---------------------------------------------------------------------

  function CountResultParts(counter: Counter, ps: seq<ResultPart>): int {
    if ps == [] then 0 else CountResultParts(counter, ps[..|ps| - 1]) + CountResultPart(counter, ps[|ps| - 1])
  }

  function CountResultPart(counter: Counter, p: ResultPart): int {
    match p
    case ResultText(text) => counter(Normal(text))
    case ResultImage(present) => if present then 256 else 0
  }

  function CountPart(counter: Counter, p: Part): int {
    match p
    case TextPart(text) => counter(Normal(text))
    case ReasoningPart(text) => counter(Normal(text))
    case CallPart(call) => counter(call.name) + counter(Normal(call.arguments))
    case ResultPartOf(r) =>
      counter(Normal(if r.json.Some? then r.json.value else r.text)) + CountResultParts(counter, r.parts)
    case MediaPart(present) => if present then 256 else 0
    case EmptyPart => 0
  }

  function CountParts(counter: Counter, ps: seq<Part>): int {
    if ps == [] then 0 else CountParts(counter, ps[..|ps| - 1]) + CountPart(counter, ps[|ps| - 1])
  }

  function CountMessage(counter: Counter, m: Message): int {
    4 + CountParts(counter, m.content)
  }

  function Count(counter: Counter, messages: seq<Message>): int {
    if messages == [] then 0
    else Count(counter, messages[..|messages| - 1]) + CountMessage(counter, messages[|messages| - 1])
  }

  lemma {:induction false} CountConcat(counter: Counter, a: seq<Message>, b: seq<Message>)
    ensures Count(counter, a + b) == Count(counter, a) + Count(counter, b)
  {
    if b == [] {
      assert a + b == a;
    } else {
      assert (a + b)[..|a + b| - 1] == a + b[..|b| - 1];
      CountConcat(counter, a, b[..|b| - 1]);
    }
  }
}
