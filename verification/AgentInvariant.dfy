/** Every tool call is answered whenever the model is asked again: the invariant of the turn loop of
    AgentTurn, and where its callers have to take care. */
module AgentInvariant {
  import opened Wrappers
  import opened Utf8
  import opened Messages
  import opened Conversation
  import opened Projection
  import opened Compaction
  import opened ContextUsage
  import opened HistoryCompaction
  import opened Actions
  import opened Submissions
  import opened Steering
  import opened AgentTurn
  import ToolRun

  // ---------------------------------------------------------------------
  // Histories between steps
  // ---------------------------------------------------------------------

  /** Every call answered and, if `tidy`, no answer without its call. */
  ghost predicate Closed(tidy: bool, h: seq<Message>) {
    AllAnswered(h) && (tidy ==> NoOrphans(false, h))
  }

  /** The last message has calls, these, that wait for their answers. */
  ghost predicate Open(tidy: bool, h: seq<Message>, ids: seq<string>) {
    && h != [] && ids != []
    && h[|h| - 1].role == Assistant && CallIds(h[|h| - 1].content) == ids
    && Closed(tidy, h[..|h| - 1])
  }

  predicate OpenTail(h: seq<Message>) {
    h != [] && HasCalls(h[|h| - 1])
  }

  ghost predicate Nearly(tidy: bool, h: seq<Message>) {
    if OpenTail(h) then Open(tidy, h, CallIds(h[|h| - 1].content)) else Closed(tidy, h)
  }

  lemma {:induction false} NoOrphansSnoc(afterCalls: bool, h: seq<Message>, m: Message)
    requires NoOrphans(afterCalls, h)
    requires m.role == Tool ==> if h == [] then afterCalls else HasCalls(h[|h| - 1])
    ensures NoOrphans(afterCalls, h + [m])
    decreases |h|
  {
    if h == [] {
      assert (h + [m])[1..] == [];
    } else {
      assert (h + [m])[1..] == h[1..] + [m];
      NoOrphansSnoc(HasCalls(h[0]), h[1..], m);
    }
  }

  lemma PlainCloses(tidy: bool, h: seq<Message>, more: seq<Message>)
    requires Closed(tidy, h) && Plain(more)
    ensures Closed(tidy, h + more)
  {
    PlainBalanced(more);
    AllAnsweredConcat(h, more);
    if tidy {
      NoOrphansConcat(false, h, more);
    }
  }

  lemma AnswerOpens(tidy: bool, h: seq<Message>, m: Message)
    requires Closed(tidy, h) && m.role == Assistant
    ensures Nearly(tidy, h + [m])
    ensures CallIds(m.content) == [] ==> Closed(tidy, h + [m])
    ensures CallIds(m.content) != [] ==> Open(tidy, h + [m], CallIds(m.content))
  {
    var next := h + [m];
    assert next[..|next| - 1] == h;
    if CallIds(m.content) == [] {
      AllAnsweredConcat(h, [m]);
      assert [m][1..] == [];
      if tidy {
        NoOrphansSnoc(false, h, m);
      }
    }
  }

  lemma ResultsClose(tidy: bool, h: seq<Message>, ids: seq<string>, results: seq<ToolResult>, cover: Cover)
    requires Open(tidy, h, ids) && Covers(cover, ids, IdsOf(results))
    ensures Closed(tidy, h + [MarkedToolMessage(results, cover)])
  {
    var before, m, t := h[..|h| - 1], h[|h| - 1], MarkedToolMessage(results, cover);
    ToolMessageIds(results);
    assert h + [t] == before + [m, t];
    assert [m, t][1..] == [t] && [t][1..] == [];
    assert AllAnswered([t]);
    assert AllAnswered([m, t]);
    AllAnsweredConcat(before, [m, t]);
    if tidy {
      assert h == before + [m];
      NoOrphansSnoc(false, before, m);
      NoOrphansSnoc(false, h, t);
    }
  }

  lemma OpenIsNearly(tidy: bool, h: seq<Message>, ids: seq<string>)
    requires Open(tidy, h, ids)
    ensures Nearly(tidy, h) && OpenTail(h)
  {}

  /** A closed history never ends in calls. */
  lemma {:induction false} AnsweredEndsClosed(h: seq<Message>)
    requires AllAnswered(h)
    ensures !OpenTail(h)
    decreases |h|
  {
    if h != [] {
      AnsweredEndsClosed(h[1..]);
    }
  }

  lemma ClosedIsNearly(tidy: bool, h: seq<Message>)
    requires Closed(tidy, h)
    ensures Nearly(tidy, h) && !OpenTail(h)
  {
    AnsweredEndsClosed(h);
  }

  // ---------------------------------------------------------------------
  // What holds in every state
  // ---------------------------------------------------------------------

  ghost predicate PausedOk(tidy: bool, a: Agent) {
    && a.pending != []
    && IsPaused(PausedBatch(a), a.deferred, a.pending)
    && Open(tidy, a.history, ActionIds(PausedBatch(a)))
  }

  /** The activity matches the history it works on. */
  ghost predicate PcOk(tidy: bool, h: seq<Message>, pc: Pc) {
    match pc
    case Out => Nearly(tidy, h)
    case Interrupting(batch) => IsBatch(batch) && Open(tidy, h, ActionIds(batch))
    case Classified(batch) => IsBatch(batch) && Open(tidy, h, ActionIds(batch))
    case Executing(run, _) => ToolRun.Inv(run) && Open(tidy, h, ActionIds(run.actions))
    case Reporting(results, _, _) => Open(tidy, h, IdsOf(results))
    case _ => Closed(tidy, h)
  }

  predicate Resolves(pc: Pc) {
    (pc.Executing? || pc.Reporting?) && pc.resolved
  }

  ghost predicate Inv(tidy: bool, a: Agent) {
    match a.state
    case Idle => a.pc.Out? && a.pending == a.deferred == [] && Nearly(tidy, a.history)
    case Busy => !Resolves(a.pc) && a.pending == a.deferred == [] && PcOk(tidy, a.history, a.pc)
    case Paused => (a.pc.Out? || Resolves(a.pc)) && PausedOk(tidy, a) && PcOk(tidy, a.history, a.pc)
    case DurabilityFailed => a.pc.Out?
  }

  /** The conversation has a place where compaction may cut. */
  ghost predicate HasBoundary(a: Agent) {
    CanCutSafely(a.counter, a.threshold, a.history)
  }

  /** What a caller has to see to, and can check before the call. */
  ghost predicate CarefulCall(tidy: bool, a: Agent, l: Call) {
    match l
    // Input is not added behind calls that an error left without answers.
    case RunMessage(_) => !OpenTail(a.history)
    // Denials are stored under the call they deny.
    case Deny(decisions, _) => KeyedByCall(decisions)
    // Submitted outputs cover the calls that wait for approval.
    case Submit(outputs, _) => Covers(AtLeastOnce, ActionIds(a.pending), IdsOf(outputs))
    case Force(_) => a.state.DurabilityFailed? || (!OpenTail(a.history) && (tidy ==> HasBoundary(a)))
    case _ => true
  }

  ghost predicate Careful(tidy: bool, a: Agent, l: Label) {
    match l
    case Calls(c) => CarefulCall(tidy, a, c)
    case Loops(c) => (c.Compact? || c.Reactive?) && tidy ==> HasBoundary(a)
    case Works(_) => true
  }

  // ---------------------------------------------------------------------
  // Every careful step keeps it
  // ---------------------------------------------------------------------

  lemma CompactsCloses(tidy: bool, a: Agent, next: seq<Message>)
    requires Closed(tidy, a.history) && Compacts(a, next) && (tidy ==> HasBoundary(a))
    ensures Closed(tidy, next)
  {
    hide CommitOf, AllAnswered, NoOrphans, CanCutSafely;
    var p: nat, summary: Message, contexts: seq<Message> :|
      && CommitOf(a.counter, a.threshold, a.history, p, summary, contexts, next)
      && summary.IsRealUser()
      && Plain(contexts);
    CommitKeepsAnswers(a.counter, a.threshold, a.history, p, summary, contexts, next);
  }

  lemma NearlyClosed(tidy: bool, h: seq<Message>)
    requires Nearly(tidy, h) && !OpenTail(h)
    ensures Closed(tidy, h)
  {}

  lemma {:induction false} OnlyAll(batch: seq<Action>)
    requires Only(batch, RequireApproval) == []
    ensures multiset(Only(batch, AutoExecute) + Only(batch, Block)) == multiset(batch)
  {
    SplitPermutes(batch);
  }

  lemma BeginActions(actions: seq<Action>)
    ensures ToolRun.Begin(actions).actions == actions
  {}

  lemma BeginToolsOk(tidy: bool, a: Agent, actions: seq<Action>, resolved: bool)
    requires ToolRun.Distinct(actions) && Open(tidy, a.history, ActionIds(actions))
    ensures var b := BeginTools(a, actions, resolved);
      PcOk(tidy, b.history, b.pc) && (b.pc.Executing? || b.pc.Reporting?) && b.pc.resolved == resolved
  {
    hide Open, ToolRun.Inv, ToolRun.Begin, ToolRun.Distinct, ActionIds;
    ToolRun.BeginInv(actions);
    BeginActions(actions);
    ResultsAnswer(actions, Interrupted());
  }

  lemma BatchDistinct(batch: seq<Action>)
    requires IsBatch(batch)
    ensures ToolRun.Distinct(batch)
  {}

  lemma BatchNotEmpty(tidy: bool, h: seq<Message>, batch: seq<Action>)
    requires Open(tidy, h, ActionIds(batch))
    ensures batch != []
  {}

  lemma BadgedIds(batch: seq<Action>, badge: Action -> Action)
    requires IsBatch(batch) && IsBadge(badge)
    ensures ToolRun.Distinct(Badged(batch, badge)) && ActionIds(Badged(batch, badge)) == ActionIds(batch)
  {}

  lemma PausedIsBatch(a: Agent, batch: seq<Action>)
    requires IsPaused(batch, a.deferred, a.pending)
    ensures PausedBatch(a) == batch && IsBatch(batch)
  {
    PausedPermutes(batch, a.deferred, a.pending);
    OrderedRestores(a.deferred + a.pending, batch);
  }

  lemma PausedDispatch(tidy: bool, a: Agent, batch: seq<Action>)
    requires a.pending == a.deferred == [] && IsBatch(batch) && Open(tidy, a.history, ActionIds(batch))
    requires Only(batch, RequireApproval) != []
    requires a.state.Paused? && a.pc.Out?
    ensures Inv(tidy, a.(pending := a.pending + Only(batch, RequireApproval),
                                deferred := a.deferred + Only(batch, AutoExecute) + Only(batch, Block)))
  {
    var b := a.(pending := a.pending + Only(batch, RequireApproval),
                deferred := a.deferred + Only(batch, AutoExecute) + Only(batch, Block));
    assert b.pending == Only(batch, RequireApproval);
    assert b.deferred == Only(batch, AutoExecute) + Only(batch, Block);
    PausedIsBatch(b, batch);
    OpenIsNearly(tidy, b.history, ActionIds(batch));
  }

  lemma DispatchOk(tidy: bool, a: Agent)
    requires Inv(tidy, a) && WorkEnabled(a, Dispatch)
    ensures Inv(tidy, DoWork(a, Dispatch))
  {
    hide Open, IsPaused, IsBatch, Nearly, Only;
    var batch := a.pc.batch;
    if Only(batch, RequireApproval) == [] {
      OnlyAll(batch);
      OrderedRestores(Only(batch, AutoExecute) + Only(batch, Block), batch);
      BatchDistinct(batch);
      BeginToolsOk(tidy, a, batch, false);
    } else if a.pendingUser == [] {
      PausedDispatch(tidy, a.(state := Paused, pc := Out), batch);
    }
  }

  lemma ResumeOk(tidy: bool, a: Agent, outputs: seq<ToolResult>, cover: Cover)
    requires Inv(tidy, a) && a.state.Paused?
    requires Covers(cover, ActionIds(PausedBatch(a)), IdsOf(outputs))
    ensures Inv(tidy, Resumed(a, outputs, cover).(pc := Out))
  {
    hide Open, Closed, IsPaused, Nearly, Covers;
    ResultsClose(tidy, a.history, ActionIds(PausedBatch(a)), outputs, cover);
    ClosedIsNearly(tidy, a.history + [MarkedToolMessage(outputs, cover)]);
  }

  lemma RecoverOk(tidy: bool, a: Agent, reason: Text)
    requires Inv(tidy, a) && CallEnabled(a, Recover(reason))
    ensures Inv(tidy, DoCall(a, Recover(reason)))
    ensures !OpenTail(DoCall(a, Recover(reason)).history)
  {
    hide Open, Closed, IsPaused, Nearly;
    var batch := PausedBatch(a);
    BatchNotEmpty(tidy, a.history, batch);
    ResultsAnswer(batch, Skipped(reason));
    ResultsClose(tidy, a.history, ActionIds(batch), ResultsOf(batch, Skipped(reason)), InOrder);
    ClosedIsNearly(tidy, DoCall(a, Recover(reason)).history);
  }

  lemma ApproveOk(tidy: bool, a: Agent, l: Call)
    requires Inv(tidy, a) && l.Approve? && CallEnabled(a, l) && CarefulCall(tidy, a, l)
    ensures Inv(tidy, DoCall(a, l))
  {
    hide Open, Nearly, Ordered;
    var batch := PausedBatch(a);
    BatchDistinct(batch);
    BadgedIds(batch, l.badge);
    BeginToolsOk(tidy, a, if l.bypass then Badged(batch, l.badge) else batch, true);
  }

  lemma RunMessageOk(tidy: bool, a: Agent, l: Call)
    requires Inv(tidy, a) && l.RunMessage? && CallEnabled(a, l) && CarefulCall(tidy, a, l)
    ensures Inv(tidy, DoCall(a, l))
  {
    hide Closed, Nearly;
    NearlyClosed(tidy, a.history);
    PlainCloses(tidy, a.history, l.input);
  }

  lemma DenyOk(tidy: bool, a: Agent, l: Call)
    requires Inv(tidy, a) && l.Deny? && CallEnabled(a, l) && CarefulCall(tidy, a, l)
    ensures Inv(tidy, DoCall(a, l))
  {
    hide Open, IsPaused, Ordered, Rejected, Covers;
    DeniedAnswersInOrder(PausedBatch(a), a.deferred, a.pending, l.decisions);
    CoversItself(ActionIds(PausedBatch(a)));
    ResumeOk(tidy, a, Rejected(a.deferred, a.pending, l.decisions), InOrder);
    SamePc(a, Rejected(a.deferred, a.pending, l.decisions), InOrder);
  }

  lemma SubmitOk(tidy: bool, a: Agent, l: Call)
    requires Inv(tidy, a) && l.Submit? && CallEnabled(a, l) && CarefulCall(tidy, a, l)
    ensures Inv(tidy, DoCall(a, l))
  {
    hide Open, IsPaused, Ordered, Covers, Submitted, SubmitCover, Resumed, Inv;
    InvPaused(tidy, a);
    var cover := SubmitCover(a.deferred, a.pending, l.outputs);
    SubmitCoverIsExact(PausedBatch(a), a.deferred, a.pending, l.outputs);
    ResumeOk(tidy, a, Submitted(a.deferred, l.outputs, true), cover);
    SamePc(a, Submitted(a.deferred, l.outputs, true), cover);
  }

  lemma SamePc(a: Agent, outputs: seq<ToolResult>, cover: Cover)
    requires a.pc.Out?
    ensures Resumed(a, outputs, cover).(pc := Out) == Resumed(a, outputs, cover)
  {}

  lemma InvPaused(tidy: bool, a: Agent)
    requires Inv(tidy, a)
    ensures a.state.Paused? ==> PausedOk(tidy, a)
  {}

  lemma ForceOk(tidy: bool, a: Agent, l: Call)
    requires Inv(tidy, a) && l.Force? && CallEnabled(a, l) && CarefulCall(tidy, a, l)
    ensures Inv(tidy, DoCall(a, l))
  {
    hide Closed, Nearly, Compacts, HasBoundary;
    if !a.state.DurabilityFailed? {
      NearlyClosed(tidy, a.history);
      CompactsCloses(tidy, a, l.next);
      ClosedIsNearly(tidy, l.next);
    }
  }

  lemma CoversItself(ids: seq<string>)
    ensures Covers(InOrder, ids, ids)
  {}

  lemma AfterDrainOk(tidy: bool, a: Agent, next: After)
    requires a.state.Busy? && a.pending == a.deferred == [] && Closed(tidy, a.history)
    ensures Inv(tidy, AfterDrain(a, next))
  {
    ClosedIsNearly(tidy, a.history);
  }

  lemma CountOk(tidy: bool, a: Agent)
    requires Inv(tidy, a) && LoopEnabled(a, Count)
    ensures Inv(tidy, DoLoop(a, Count))
  {
    hide Closed, AfterDrain;
    AfterDrainOk(tidy, a, if a.pc.Top? then ToRequest else if a.pc.Silent? then ToNudge(a.pc.empty) else ToFinish);
  }

  lemma DrainOk(tidy: bool, a: Agent, l: Loop)
    requires Inv(tidy, a) && l.Drain? && LoopEnabled(a, l)
    ensures Inv(tidy, DoLoop(a, l))
  {
    hide Closed, AfterDrain, Nearly;
    ClosedIsNearly(tidy, a.history);
    AfterDrainOk(tidy, a, a.pc.next);
    PlainCloses(tidy, a.history, l.contexts);
    PlainCloses(tidy, a.history + l.contexts, [JoinedInput(a.pendingUser[..if a.pc.count < |a.pendingUser| then a.pc.count else |a.pendingUser|])]);
  }

  lemma CompactOk(tidy: bool, a: Agent, l: Loop)
    requires Inv(tidy, a) && (l.Compact? || l.Reactive?) && LoopEnabled(a, l) && (tidy ==> HasBoundary(a))
    ensures Inv(tidy, DoLoop(a, l))
  {
    hide Closed, Compacts, HasBoundary;
    CompactsCloses(tidy, a, l.next);
  }

  lemma NudgeOk(tidy: bool, a: Agent, l: Loop)
    requires Inv(tidy, a) && l.Nudge? && LoopEnabled(a, l)
    ensures Inv(tidy, DoLoop(a, l))
  {
    hide Closed, Nearly;
    ClosedIsNearly(tidy, a.history);
    PlainCloses(tidy, a.history, [l.message]);
  }

  lemma GiveUpOk(tidy: bool, a: Agent, l: Loop)
    requires Inv(tidy, a) && (l.BuildFailed? || l.GenerationFailed? || l.Request? || l.FinishTurn?) && LoopEnabled(a, l)
    ensures Inv(tidy, DoLoop(a, l))
  {
    hide Closed, Nearly, Open, PausedOk, ToolRun.Inv, ToolRun.Do, ToolRun.Enabled, ToolRun.Finished, ToolRun.Outcome, ToolRun.MayHaveExecuted, ToolRun.Preserved;
    ClosedIsNearly(tidy, a.history);
  }

  lemma AnswerOk(tidy: bool, a: Agent, l: Loop)
    requires Inv(tidy, a) && l.Answer? && LoopEnabled(a, l)
    ensures Inv(tidy, DoLoop(a, l))
  {
    hide Closed, Nearly, Open, IsBatch, PausedOk, ToolRun.Inv, ToolRun.Do, ToolRun.Enabled, ToolRun.Finished, ToolRun.Outcome, ToolRun.MayHaveExecuted, ToolRun.Preserved;
    ClosedIsNearly(tidy, a.history);
    AnswerOpens(tidy, a.history, l.message);
    EmptyIds(l.batch);
  }

  lemma InterruptedOk(tidy: bool, a: Agent, l: Work)
    requires Inv(tidy, a) && l.RecordInterrupted? && WorkEnabled(a, l)
    ensures Inv(tidy, DoWork(a, l))
  {
    hide Closed, Nearly, Open, IsBatch, Covers, ToolRun.Inv, ToolRun.Do, ToolRun.Enabled, ToolRun.Finished, ToolRun.Outcome, ToolRun.MayHaveExecuted, ToolRun.Preserved;
    var batch := a.pc.batch;
    OpenIsNearly(tidy, a.history, ActionIds(batch));
    ResultsAnswer(batch, Interrupted());
    CoversItself(ActionIds(batch));
    ResultsClose(tidy, a.history, ActionIds(batch), ResultsOf(batch, Interrupted()), InOrder);
  }

  lemma QueueOk(tidy: bool, a: Agent, l: Call)
    requires Inv(tidy, a) && (l.Queue? || l.ClearPendingInput?) && CallEnabled(a, l)
    ensures Inv(tidy, DoCall(a, l))
  {
    hide Closed, Nearly, Open, IsBatch, IsPaused, ToolRun.Inv, ToolRun.Do, ToolRun.Enabled, ToolRun.Finished, ToolRun.Outcome, ToolRun.MayHaveExecuted, ToolRun.Preserved;
    if l.Queue? && a.pc.Executing? {
      ToolRun.StepInv(a.pc.run, ToolRun.Interrupt);
    }
  }

  lemma ToolStepOk(tidy: bool, a: Agent, l: Work)
    requires Inv(tidy, a) && l.ToolStep? && WorkEnabled(a, l)
    ensures Inv(tidy, DoWork(a, l))
  {
    hide Closed, Nearly, Open, IsPaused, ToolRun.Inv, ToolRun.Do, ToolRun.Enabled, ToolRun.Finished, ToolRun.Outcome, ToolRun.MayHaveExecuted, ToolRun.Preserved;
    ToolRun.StepInv(a.pc.run, l.step);
  }

  lemma StartFailedStep(tidy: bool, a: Agent)
    requires Inv(tidy, a) && WorkEnabled(a, StartFailed)
    ensures Inv(tidy, DoWork(a, StartFailed))
  {
    hide Closed, Nearly, Open, IsPaused, ToolRun.Inv, ToolRun.Do, ToolRun.Enabled, ToolRun.Finished, ToolRun.Outcome, ToolRun.MayHaveExecuted, ToolRun.Preserved;
    OpenIsNearly(tidy, a.history, ActionIds(a.pc.run.actions));
    StartFailedOk(a.pc.run);
  }

  lemma FinishOk(tidy: bool, a: Agent, l: Work)
    requires Inv(tidy, a) && l.Finish? && WorkEnabled(a, l)
    ensures Inv(tidy, DoWork(a, l))
  {
    hide Closed, Nearly, Open, IsPaused, ToolRun.Inv, ToolRun.Do, ToolRun.Enabled, ToolRun.Finished, ToolRun.Outcome, ToolRun.MayHaveExecuted, ToolRun.Preserved;
    ToolRun.OutcomeInOrder(a.pc.run, l.reminder);
  }

  lemma EmptyIds(batch: seq<Action>)
    ensures ActionIds(batch) == [] <==> batch == []
  {}

  lemma StartFailedOk(run: ToolRun.Run)
    requires ToolRun.Inv(run) && run.end == 0
    ensures IdsOf(ToolRun.Preserved(run.actions, [], run.completed)) == ActionIds(run.actions)
  {
    var r := ToolRun.Preserved(run.actions, [], run.completed);
    assert forall i :: 0 <= i < |r| ==> r[i] == Interrupted()(run.actions[i]);
    ToolRun.IdsByIndex(ToolRun.Preserved(run.actions, [], run.completed), run.actions);
  }

  lemma ReportOk(tidy: bool, a: Agent, l: Work)
    requires Inv(tidy, a) && l.Report? && WorkEnabled(a, l)
    ensures Inv(tidy, DoWork(a, l))
  {
    hide Open, Closed, Nearly, Covers, Submitted;
    var results := a.pc.results;
    OpenIsNearly(tidy, a.history, IdsOf(results));
    if l.ok && !a.pc.resolved {
      CoversItself(IdsOf(results));
      ResultsClose(tidy, a.history, IdsOf(results), results, InOrder);
    } else if l.ok {
      OpenIds(tidy, a.history, IdsOf(results), ActionIds(PausedBatch(a)));
      ApprovedAnswers(PausedBatch(a), a.deferred, a.pending, results);
      ResumeOk(tidy, a, Submitted(a.deferred, results, true), ApprovedCover(a.deferred));
    }
  }

  lemma OpenIds(tidy: bool, h: seq<Message>, a: seq<string>, b: seq<string>)
    requires Open(tidy, h, a) && Open(tidy, h, b)
    ensures a == b
  {}

  lemma CallInv(tidy: bool, a: Agent, l: Call)
    requires Inv(tidy, a) && CallEnabled(a, l) && CarefulCall(tidy, a, l)
    ensures Inv(tidy, DoCall(a, l))
  {
    hide *;
    match l
    case RunMessage(_) => RunMessageOk(tidy, a, l);
    case Queue(_) => QueueOk(tidy, a, l);
    case ClearPendingInput => QueueOk(tidy, a, l);
    case Approve(_, _) => ApproveOk(tidy, a, l);
    case Deny(_, _) => DenyOk(tidy, a, l);
    case Submit(_, _) => SubmitOk(tidy, a, l);
    case Recover(reason) => RecoverOk(tidy, a, reason);
    case Force(_) => ForceOk(tidy, a, l);
  }

  lemma LoopInv(tidy: bool, a: Agent, l: Loop)
    requires Inv(tidy, a) && LoopEnabled(a, l) && (l.Compact? || l.Reactive? ==> tidy ==> HasBoundary(a))
    ensures Inv(tidy, DoLoop(a, l))
  {
    hide *;
    match l
    case Count => CountOk(tidy, a);
    case Drain(_, _) => DrainOk(tidy, a, l);
    case Compact(_) => CompactOk(tidy, a, l);
    case Reactive(_) => CompactOk(tidy, a, l);
    case Answer(_, _, _) => AnswerOk(tidy, a, l);
    case Nudge(_, _) => NudgeOk(tidy, a, l);
    case _ => GiveUpOk(tidy, a, l);
  }

  lemma WorkInv(tidy: bool, a: Agent, l: Work)
    requires Inv(tidy, a) && WorkEnabled(a, l)
    ensures Inv(tidy, DoWork(a, l))
  {
    hide *;
    match l
    case RecordInterrupted(_) => InterruptedOk(tidy, a, l);
    case Dispatch => DispatchOk(tidy, a);
    case ToolStep(_) => ToolStepOk(tidy, a, l);
    case StartFailed => StartFailedStep(tidy, a);
    case Finish(_) => FinishOk(tidy, a, l);
    case Report(_) => ReportOk(tidy, a, l);
  }

  lemma StepInv(tidy: bool, a: Agent, l: Label)
    requires Inv(tidy, a) && Enabled(a, l) && Careful(tidy, a, l)
    ensures Inv(tidy, Do(a, l))
  {
    hide Inv, CallEnabled, LoopEnabled, WorkEnabled, CarefulCall, HasBoundary, DoCall, DoLoop, DoWork;
    match l
    case Calls(c) => CallInv(tidy, a, c);
    case Loops(c) => LoopInv(tidy, a, c);
    case Works(c) => WorkInv(tidy, a, c);
  }

  ghost predicate CarefulRun(tidy: bool, a: Agent, run: seq<Label>)
    decreases |run|
  {
    run != [] && Enabled(a, run[0]) ==>
      Careful(tidy, a, run[0]) && CarefulRun(tidy, Do(a, run[0]), run[1..])
  }

  lemma {:induction false} RunInv(tidy: bool, a: Agent, run: seq<Label>, b: Agent)
    requires Inv(tidy, a) && Reaches(a, run, b) && CarefulRun(tidy, a, run)
    ensures Inv(tidy, b)
    decreases |run|
  {
    hide Inv, Do, Enabled, Careful;
    if run != [] {
      StepInv(tidy, a, run[0]);
      RunInv(tidy, Do(a, run[0]), run[1..], b);
    }
  }

  // ---------------------------------------------------------------------
  // Which answers are recorded otherwise than once and in call order
  // ---------------------------------------------------------------------

  /** A tool message with these ids stands in the history under this mark. */
  ghost predicate Has(h: seq<Message>, ids: seq<string>, cover: Cover) {
    exists i :: 0 <= i < |h| && IsAnswer(h[i], ids, cover)
  }

  predicate IsAnswer(m: Message, ids: seq<string>, cover: Cover) {
    m.role == Tool && m.cover == cover && ResultIds(m.content) == ids
  }

  /** The step records the results of an approved batch of which something was deferred, or submitted
      outputs that are not in call order; `ids` are the ids it records. */
  ghost predicate Loosens(a: Agent, l: Label, ids: seq<string>, cover: Cover) {
    match l
    case Works(Report(ok)) =>
      && ok && a.pc.Reporting? && a.pc.resolved && a.deferred != []
      && cover == AtLeastOnce && ids == IdsOf(Submitted(a.deferred, a.pc.results, true))
    case Calls(Submit(outputs, ok)) =>
      && ok && cover == SubmitCover(a.deferred, a.pending, outputs) && cover != InOrder
      && ids == IdsOf(Submitted(a.deferred, outputs, true))
    case _ => false
  }

  /** Some step of the run does so. */
  ghost predicate Loosened(a: Agent, run: seq<Label>, ids: seq<string>, cover: Cover)
    decreases |run|
  {
    run != [] && Enabled(a, run[0])
    && (Loosens(a, run[0], ids, cover) || Loosened(Do(a, run[0]), run[1..], ids, cover))
  }

  lemma HasAppended(h: seq<Message>, more: seq<Message>, ids: seq<string>, cover: Cover)
    requires Has(h + more, ids, cover)
    ensures Has(h, ids, cover) || Has(more, ids, cover)
  {
    var i :| 0 <= i < |h + more| && IsAnswer((h + more)[i], ids, cover);
    if i < |h| {
      assert IsAnswer(h[i], ids, cover);
    } else {
      assert IsAnswer(more[i - |h|], ids, cover);
    }
  }

  /** Compaction brings no new answers. */
  lemma CompactsHas(a: Agent, next: seq<Message>, ids: seq<string>, cover: Cover)
    requires Compacts(a, next) && Has(next, ids, cover)
    ensures Has(a.history, ids, cover)
  {
    hide CommitOf, ResultIds;
    var p: nat, summary: Message, contexts: seq<Message> :|
      && CommitOf(a.counter, a.threshold, a.history, p, summary, contexts, next)
      && summary.IsRealUser()
      && Plain(contexts);
    var i :| 0 <= i < |next| && IsAnswer(next[i], ids, cover);
    var k := CommittedAnswer(a.counter, a.threshold, a.history, p, summary, contexts, next, i);
    assert IsAnswer(a.history[k], ids, cover);
  }

  /** Messages that are no answers bring none. */
  lemma OthersHaveNone(h: seq<Message>, ids: seq<string>, cover: Cover)
    requires forall i :: 0 <= i < |h| ==> h[i].role != Tool
    ensures !Has(h, ids, cover)
  {}

  lemma OneAnswer(results: seq<ToolResult>, mark: Cover, ids: seq<string>, cover: Cover)
    requires Has([MarkedToolMessage(results, mark)], ids, cover)
    ensures cover == mark && ids == IdsOf(results)
  {
    ToolMessageIds(results);
  }

  /** The history stays, or gets messages, or is compacted. */
  lemma AppendedNothing(h: seq<Message>, more: seq<Message>, ids: seq<string>, cover: Cover)
    requires forall i :: 0 <= i < |more| ==> more[i].role != Tool
    requires Has(h + more, ids, cover)
    ensures Has(h, ids, cover)
  {
    HasAppended(h, more, ids, cover);
    OthersHaveNone(more, ids, cover);
  }

  lemma AppendedResults(h: seq<Message>, results: seq<ToolResult>, mark: Cover, ids: seq<string>, cover: Cover)
    requires Has(h + [MarkedToolMessage(results, mark)], ids, cover)
    ensures Has(h, ids, cover) || (cover == mark && ids == IdsOf(results))
  {
    HasAppended(h, [MarkedToolMessage(results, mark)], ids, cover);
    if Has([MarkedToolMessage(results, mark)], ids, cover) {
      OneAnswer(results, mark, ids, cover);
    }
  }

  lemma CallLoosens(a: Agent, l: Call, ids: seq<string>, cover: Cover)
    requires CallEnabled(a, l) && cover != InOrder && Has(DoCall(a, l).history, ids, cover)
    ensures Has(a.history, ids, cover) || Loosens(a, Calls(l), ids, cover)
  {
    hide Has, Compacts, Submitted, SubmitCover, Rejected, Ordered, BeginTools, IsBadge, IsDenied, ToolRun.Do;
    match l
    case RunMessage(input) => AppendedNothing(a.history, input, ids, cover);
    case Deny(decisions, ok) =>
      if ok {
        AppendedResults(a.history, Rejected(a.deferred, a.pending, decisions), InOrder, ids, cover);
      }
    case Submit(outputs, ok) =>
      if ok {
        AppendedResults(a.history, Submitted(a.deferred, outputs, true), SubmitCover(a.deferred, a.pending, outputs), ids, cover);
      }
    case Recover(reason) =>
      if PausedBatch(a) != [] {
        AppendedResults(a.history, ResultsOf(PausedBatch(a), Skipped(reason)), InOrder, ids, cover);
      }
    case Approve(bypass, badge) =>
      BeginToolsHistory(a, if bypass then Badged(PausedBatch(a), badge) else PausedBatch(a), true);
    case Force(next) => CompactsHas(a, next, ids, cover);
    case _ =>
  }

  lemma BeginToolsHistory(a: Agent, actions: seq<Action>, resolved: bool)
    ensures BeginTools(a, actions, resolved).history == a.history
  {}

  lemma LoopLoosens(a: Agent, l: Loop, ids: seq<string>, cover: Cover)
    requires LoopEnabled(a, l) && Has(DoLoop(a, l).history, ids, cover)
    ensures Has(a.history, ids, cover)
  {
    hide Has, Compacts, JoinedInput, IsBatch;
    match l
    case Drain(contexts, ok) =>
      if ok && |a.pendingUser| >= a.pc.count {
        var m := JoinedInput(a.pendingUser[..a.pc.count]);
        assert m.role == User by { JoinedIsUser(a.pendingUser[..a.pc.count]); }
        AppendedNothing(a.history + contexts, [m], ids, cover);
        AppendedNothing(a.history, contexts, ids, cover);
      }
    case Compact(next) => CompactsHas(a, next, ids, cover);
    case Reactive(next) => CompactsHas(a, next, ids, cover);
    case Answer(m, _, ok) =>
      if ok {
        AppendedNothing(a.history, [m], ids, cover);
      }
    case Nudge(m, _) =>
      if DoLoop(a, l).history != a.history {
        AppendedNothing(a.history, [m], ids, cover);
      }
    case _ =>
  }

  lemma JoinedIsUser(inputs: seq<Message>)
    ensures JoinedInput(inputs).role == User
  {}

  lemma WorkLoosens(a: Agent, l: Work, ids: seq<string>, cover: Cover)
    requires WorkEnabled(a, l) && cover != InOrder && Has(DoWork(a, l).history, ids, cover)
    ensures Has(a.history, ids, cover) || Loosens(a, Works(l), ids, cover)
  {
    hide Has, Submitted, ToolRun.Do, ToolRun.Enabled, ToolRun.Finished, ToolRun.Outcome, ToolRun.Preserved, Only, Ordered;
    match l
    case RecordInterrupted(ok) =>
      if ok {
        AppendedResults(a.history, ResultsOf(a.pc.batch, Interrupted()), InOrder, ids, cover);
      }
    case Report(ok) =>
      if ok && a.pc.resolved {
        AppendedResults(a.history, Submitted(a.deferred, a.pc.results, true), ApprovedCover(a.deferred), ids, cover);
      } else if ok {
        AppendedResults(a.history, a.pc.results, InOrder, ids, cover);
      }
    case _ =>
  }

  /** An answer under another mark than `InOrder` was there at the start, or the run contains the step
      that recorded it so. */
  lemma {:induction false} MarksAreEarned(a: Agent, run: seq<Label>, b: Agent, ids: seq<string>, cover: Cover)
    requires Reaches(a, run, b) && cover != InOrder && Has(b.history, ids, cover)
    ensures Has(a.history, ids, cover) || Loosened(a, run, ids, cover)
    decreases |run|
  {
    hide Has, Loosens, CallEnabled, LoopEnabled, WorkEnabled, DoCall, DoLoop, DoWork;
    if run != [] {
      MarksAreEarned(Do(a, run[0]), run[1..], b, ids, cover);
      if Has(Do(a, run[0]).history, ids, cover) {
        match run[0]
        case Calls(c) => CallLoosens(a, c, ids, cover);
        case Loops(c) => LoopLoosens(a, c, ids, cover);
        case Works(c) => WorkLoosens(a, c, ids, cover);
      }
    }
  }

  /** Whenever a careful run asks for another generation, every call of the history that is sent is
      answered right behind its message, and with `tidy` compactions no answer stands without its call.
      The answers are the calls once and in call order, whatever happened to other batches, unless this
      very answer was recorded otherwise: by a step of the run that answered an approved batch with
      deferred calls or took submitted outputs out of call order, or before the run began. */
  lemma RequestsAreAnswered(tidy: bool, a: Agent, run: seq<Label>, b: Agent)
    requires Inv(tidy, a) && Reaches(a, run, b) && CarefulRun(tidy, a, run)
    requires LoopEnabled(b, Request)
    ensures AllAnswered(b.history) && (tidy ==> NoOrphans(false, b.history))
    ensures forall i :: 0 <= i < |b.history| && HasCalls(b.history[i]) ==>
      && i + 1 < |b.history| && AnsweredAt(a, run, b.history[i], b.history[i + 1])
  {
    hide Inv, CarefulRun, Reaches, LoopEnabled;
    RunInv(tidy, a, run, b);
    AtRequest(tidy, b);
    AllAnsweredByIndex(b.history);
    forall i | 0 <= i < |b.history| && HasCalls(b.history[i])
      ensures i + 1 < |b.history| && AnsweredAt(a, run, b.history[i], b.history[i + 1])
    {
      var t := b.history[i + 1];
      assert Answers(b.history[i], t);
      CoversAll(t.cover, CallIds(b.history[i].content), ResultIds(t.content));
      if t.cover != InOrder {
        assert IsAnswer(b.history[i + 1], ResultIds(t.content), t.cover);
        MarksAreEarned(a, run, b, ResultIds(t.content), t.cover);
      }
    }
  }

  /** How a call message and its answer belong together after a run. */
  ghost predicate AnsweredAt(a: Agent, run: seq<Label>, calls: Message, answer: Message) {
    var ids := ResultIds(answer.content);
    && answer.role == Tool
    && Covers(AtLeastOnce, CallIds(calls.content), ids)
    && (|| ids == CallIds(calls.content)
        || (&& Covers(answer.cover, CallIds(calls.content), ids) && answer.cover != InOrder
            && (Has(a.history, ids, answer.cover) || Loosened(a, run, ids, answer.cover))))
  }

  lemma AtRequest(tidy: bool, b: Agent)
    requires Inv(tidy, b) && LoopEnabled(b, Request)
    ensures Closed(tidy, b.history)
  {}
}
