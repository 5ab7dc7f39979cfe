/** The agent's turn loop as a state machine: core/agent/agent.go, lines 553-582, 630-1237, 1439-1534,
    1615-1643 and 2505-2580, and core/agent/snapshot_recovery.go.

    A state holds the agent's fields and where its current activity stands; every label is one atomic
    step, so a run is any interleaving of callers, steering inputs, tools and the loop. */
module AgentTurn {
  import opened Wrappers
  import opened Utf8
  import opened Messages
  import opened Conversation
  import opened Projection
  import opened Compaction
  import opened ContextUsage
  import opened HistoryCompaction
  import opened Actions
  import opened Submissions
  import opened Steering
  import Sorting
  import ToolRun

  datatype State = Idle | Busy | Paused | DurabilityFailed

  /** What the loop does when it has found no pending input. */
  datatype After = ToRequest | ToNudge(empty: bool) | ToFinish

  /** Where the current activity stands; `Out` when there is none. */
  datatype Pc =
    | Out
    | Top
    | Draining(count: nat, next: After)
    | Building
    | Generating
    | Silent(empty: bool)
    | Nudging(empty: bool)
    | Ending
    | Finishing
    | Interrupting(batch: seq<Action>)
    | Classified(batch: seq<Action>)
    | Executing(run: ToolRun.Run, resolved: bool)
    | Reporting(results: seq<ToolResult>, mayHaveExecuted: bool, resolved: bool)

  datatype Agent = Agent(
    counter: Counter,
    threshold: int,
    state: State,
    history: seq<Message>,
    pendingUser: seq<Message>,
    pending: seq<Action>,
    deferred: seq<Action>,
    pc: Pc,
    emptyAttempts: nat,
    // Where steering inputs went.
    accepted: seq<Message>,
    delivered: seq<Message>,
    lost: seq<Message>)

  datatype Call =
    | RunMessage(input: seq<Message>)
    | Queue(message: Message)
    | ClearPendingInput
    | Approve(bypass: bool, badge: Action -> Action)
    | Deny(decisions: Decisions, ok: bool)
    | Submit(outputs: seq<ToolResult>, ok: bool)
    | Recover(reason: Text)
    | Force(next: seq<Message>)

  datatype Loop =
    | Count
    | Drain(contexts: seq<Message>, ok: bool)
    | Compact(next: seq<Message>)
    | BuildFailed
    | Request
    | Reactive(next: seq<Message>)
    | GenerationFailed
    | Answer(message: Message, batch: seq<Action>, ok: bool)
    | Nudge(message: Message, ok: bool)
    | FinishTurn

  datatype Work =
    | RecordInterrupted(ok: bool)
    | Dispatch
    | ToolStep(step: ToolRun.Step)
    | StartFailed
    | Finish(reminder: Text)
    | Report(ok: bool)

  /** A step of a caller, of the loop, or of its tools. */
  datatype Label = Calls(call: Call) | Loops(loop: Loop) | Works(work: Work)

  // ---------------------------------------------------------------------
  // Steps
  // ---------------------------------------------------------------------

  ghost predicate Compacts(a: Agent, next: seq<Message>) {
    exists p: nat, summary: Message, contexts: seq<Message> ::
      && CommitOf(a.counter, a.threshold, a.history, p, summary, contexts, next)
      && summary.IsRealUser()
      && Plain(contexts)
  }

  /** The actions of a paused batch, in call order. */
  function PausedBatch(a: Agent): seq<Action> {
    Ordered(a.deferred + a.pending)
  }

  /** Bypassing replaces decisions and nothing else. */
  ghost predicate IsBadge(badge: Action -> Action) {
    forall x :: badge(x).id == x.id && badge(x).name == x.name && badge(x).order == x.order
  }

  function Badged(actions: seq<Action>, badge: Action -> Action): (r: seq<Action>)
    ensures |r| == |actions|
  {
    seq(|actions|, i requires 0 <= i < |actions| => badge(actions[i]))
  }

  ghost predicate CallEnabled(a: Agent, l: Call) {
    match l
    case RunMessage(input) => a.pc.Out? && (a.state.Idle? || a.state.Busy?) && Plain(input)
    case Queue(m) => (a.state.Busy? || a.state.Paused?) && Normalized(m).Some?
    case ClearPendingInput => true
    case Approve(_, badge) => a.pc.Out? && a.state.Paused? && a.pending != [] && IsBadge(badge)
    case Deny(decisions, _) =>
      && a.pc.Out? && a.state.Paused? && a.pending != []
      && exists i :: 0 <= i < |a.pending| && IsDenied(decisions, a.pending[i])
    case Submit(_, _) => a.pc.Out? && a.state.Paused?
    case Recover(_) => a.pc.Out? && a.state.Paused?
    case Force(next) => a.pc.Out? && !a.state.Paused? && Compacts(a, next)
  }

  ghost predicate LoopEnabled(a: Agent, l: Loop) {
    match l
    case Count => a.pc.Top? || a.pc.Silent? || a.pc.Ending?
    case Drain(contexts, _) => a.pc.Draining? && Plain(contexts)
    case Compact(next) => a.pc.Building? && Compacts(a, next)
    case BuildFailed => a.pc.Building?
    case Request => a.pc.Building?
    case Reactive(next) => a.pc.Generating? && Compacts(a, next)
    case GenerationFailed => a.pc.Generating?
    case Answer(m, batch, _) =>
      && a.pc.Generating? && m.role == Assistant
      && IsBatch(batch) && CallIds(m.content) == ActionIds(batch)
    case Nudge(m, _) => a.pc.Nudging? && m.role == User
    case FinishTurn => a.pc.Finishing?
  }

  ghost predicate WorkEnabled(a: Agent, l: Work) {
    match l
    case RecordInterrupted(_) => a.pc.Interrupting?
    case Dispatch => a.pc.Classified?
    case ToolStep(step) => a.pc.Executing? && !step.Interrupt? && ToolRun.Enabled(a.pc.run, step)
    case StartFailed => a.pc.Executing? && a.pc.run.end == 0
    case Finish(_) => a.pc.Executing? && ToolRun.Finished(a.pc.run)
    case Report(_) => a.pc.Reporting?
  }

  ghost predicate Enabled(a: Agent, l: Label) {
    match l
    case Calls(c) => CallEnabled(a, c)
    case Loops(c) => LoopEnabled(a, c)
    case Works(c) => WorkEnabled(a, c)
  }

  /** Beginning a tool run: steering that is already pending interrupts every action. */
  function BeginTools(a: Agent, actions: seq<Action>, resolved: bool): Agent {
    if a.pendingUser != [] then a.(pc := Reporting(ResultsOf(actions, Interrupted()), false, resolved))
    else a.(pc := Executing(ToolRun.Begin(actions), resolved))
  }

  /** Outputs of a paused batch are recorded; continuing the loop is a call of its own. */
  function Resumed(a: Agent, outputs: seq<ToolResult>, cover: Cover): Agent {
    a.(history := a.history + [MarkedToolMessage(outputs, cover)], pending := [], deferred := [], state := Busy)
  }

  /** How the results of an approved batch answer its calls: a deferred one gets a second answer. */
  function ApprovedCover(deferred: seq<Action>): Cover {
    if deferred == [] then InOrder else AtLeastOnce
  }

  function AfterDrain(a: Agent, next: After): Agent {
    match next
    case ToRequest => a.(pc := Building)
    case ToNudge(empty) => a.(pc := Nudging(empty))
    case ToFinish => a.(pc := Finishing)
  }

  function Counted(a: Agent, next: After): Agent {
    if a.pendingUser == [] then AfterDrain(a, next) else a.(pc := Draining(|a.pendingUser|, next))
  }

  function Answered(a: Agent, m: Message, batch: seq<Action>): Agent {
    var empty := forall i :: 0 <= i < |m.content| ==> m.content[i].ReasoningPart?;
    var b := a.(history := a.history + [m], emptyAttempts := if empty then a.emptyAttempts else 0);
    if a.pendingUser != [] then b.(pc := if batch != [] then Interrupting(batch) else Top)
    else if batch != [] then b.(pc := Classified(batch))
    else b.(pc := Silent(empty))
  }

  function Dispatched(a: Agent, batch: seq<Action>): Agent {
    if Only(batch, RequireApproval) != [] then
      if a.pendingUser != [] then a.(pc := Interrupting(batch))
      else
        a.(state := Paused, pc := Out,
           pending := a.pending + Only(batch, RequireApproval),
           deferred := a.deferred + Only(batch, AutoExecute) + Only(batch, Block))
    else BeginTools(a, Ordered(Only(batch, AutoExecute) + Only(batch, Block)), false)
  }

  /** A tool message that could not be recorded: fatal once a body may have run. */
  function Lost(a: Agent, mayHaveExecuted: bool): Agent {
    if mayHaveExecuted then a.(state := DurabilityFailed, pending := [], deferred := [], pc := Out)
    else a.(pc := Out)
  }

  function Queued(a: Agent, m: Message): Agent {
    a.(pendingUser := a.pendingUser + [m],
       accepted := a.accepted + [m],
       pc := if a.pc.Executing? then Executing(ToolRun.Do(a.pc.run, ToolRun.Interrupt), a.pc.resolved) else a.pc)
  }

  function DoCall(a: Agent, l: Call): Agent
    requires CallEnabled(a, l)
  {
    match l
    case RunMessage(input) => a.(history := a.history + input, state := Busy, pc := Top, emptyAttempts := 0)
    case Queue(m) => Queued(a, Normalized(m).value)
    case ClearPendingInput => a.(pendingUser := [], lost := a.lost + a.pendingUser)
    case Approve(bypass, badge) =>
      BeginTools(a, if bypass then Badged(PausedBatch(a), badge) else PausedBatch(a), true)
    case Deny(decisions, ok) => if ok then Resumed(a, Rejected(a.deferred, a.pending, decisions), InOrder) else a
    case Submit(outputs, ok) =>
      if ok then Resumed(a, Submitted(a.deferred, outputs, true), SubmitCover(a.deferred, a.pending, outputs)) else a
    case Recover(reason) =>
      a.(history := if PausedBatch(a) == [] then a.history
                    else a.history + [ToolMessage(ResultsOf(PausedBatch(a), Skipped(reason)))],
         state := Idle, pending := [], deferred := [], pendingUser := [], lost := a.lost + a.pendingUser)
    case Force(next) => a.(history := next)
  }

  function DoLoop(a: Agent, l: Loop): Agent
    requires LoopEnabled(a, l)
  {
    match l
    case Count => Counted(a, if a.pc.Top? then ToRequest else if a.pc.Silent? then ToNudge(a.pc.empty) else ToFinish)
    case Drain(contexts, ok) =>
      if !ok then a.(pc := Out)
      else if |a.pendingUser| < a.pc.count then AfterDrain(a, a.pc.next)
      else
        a.(history := a.history + contexts + [JoinedInput(a.pendingUser[..a.pc.count])],
           pendingUser := a.pendingUser[a.pc.count..],
           delivered := a.delivered + a.pendingUser[..a.pc.count],
           pc := if a.pc.next.ToRequest? then Building else Top)
    case Compact(next) => a.(history := next)
    case BuildFailed => a.(pc := Out)
    case Request => a.(pc := Generating)
    case Reactive(next) => a.(history := next, pc := Top)
    case GenerationFailed => a.(pc := Out)
    case Answer(m, batch, ok) => if ok then Answered(a, m, batch) else a.(pc := Out)
    case Nudge(m, ok) =>
      if !a.pc.empty || a.emptyAttempts >= 1 then a.(pc := Ending)
      else if a.pendingUser != [] then a.(pc := Top)
      else if ok then a.(history := a.history + [m], emptyAttempts := a.emptyAttempts + 1, pc := Top)
      else a.(pc := Out)
    // Input that was accepted since the count is dropped here.
    case FinishTurn => a.(pc := Out, state := Idle, pendingUser := [], lost := a.lost + a.pendingUser)
  }

  function DoWork(a: Agent, l: Work): Agent
    requires WorkEnabled(a, l)
  {
    match l
    case RecordInterrupted(ok) =>
      if ok then a.(history := a.history + [ToolMessage(ResultsOf(a.pc.batch, Interrupted()))], pc := Top)
      else a.(pc := Out)
    case Dispatch => Dispatched(a, a.pc.batch)
    case ToolStep(step) => a.(pc := Executing(ToolRun.Do(a.pc.run, step), a.pc.resolved))
    case StartFailed =>
      if a.pc.run.interrupted
      then a.(pc := Reporting(ToolRun.Preserved(a.pc.run.actions, [], a.pc.run.completed), false, a.pc.resolved))
      else a.(pc := Out)
    case Finish(reminder) =>
      a.(pc := Reporting(ToolRun.Outcome(a.pc.run, reminder), ToolRun.MayHaveExecuted(a.pc.run), a.pc.resolved))
    case Report(ok) =>
      if !ok then Lost(a, a.pc.mayHaveExecuted)
      else if a.pc.resolved
      then Resumed(a, Submitted(a.deferred, a.pc.results, true), ApprovedCover(a.deferred)).(pc := Out)
      else a.(history := a.history + [ToolMessage(a.pc.results)], pc := Top)
  }

  function Do(a: Agent, l: Label): Agent
    requires Enabled(a, l)
  {
    match l
    case Calls(c) => DoCall(a, c)
    case Loops(c) => DoLoop(a, c)
    case Works(c) => DoWork(a, c)
  }

  ghost predicate Reaches(a: Agent, run: seq<Label>, b: Agent)
    decreases |run|
  {
    if run == [] then a == b else Enabled(a, run[0]) && Reaches(Do(a, run[0]), run[1..], b)
  }

  /** Makes a persisted paused turn safe to abandon: its calls are answered as skipped. */
  method InterruptPendingSnapshot(snapshot: Agent, reason: Text) returns (s: Agent)
    ensures !snapshot.state.Paused? ==> s == snapshot
    ensures CallEnabled(snapshot, Recover(reason)) ==>
      s == DoCall(snapshot, Recover(reason)).(pendingUser := snapshot.pendingUser, lost := snapshot.lost)
  {
    s := snapshot;
    if !snapshot.state.Paused? {
      return;
    }
    var actions := Ordered(snapshot.deferred + snapshot.pending);
    var results := MapResults(actions, Skipped(reason));
    ResultsAnswer(actions, Skipped(reason));
    if |results| > 0 {
      s := s.(history := s.history + [ToolMessage(results)]);
    }
    s := s.(state := Idle, pending := [], deferred := []);
  }
}
