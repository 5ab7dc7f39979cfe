/** What follows for runs of AgentTurn: where care is needed, durability failures, approval, and where
    steering inputs go. */
module AgentGuarantees {
  import opened Wrappers
  import opened Utf8
  import opened Messages
  import opened Conversation
  import opened Projection
  import opened Compaction
  import opened ContextUsage
  import opened HistoryCompaction
  import opened Actions
  import opened Submissions
  import opened Steering
  import opened AgentTurn
  import opened AgentInvariant
  import Sorting
  import ToolRun

  // ---------------------------------------------------------------------
  // Where care is needed
  // ---------------------------------------------------------------------

  /** Continuing from any state a careful run reaches, with or without steering input that is left over:
      the next request is answered exactly when the history does not end in calls, that is, when no
      error left a batch without its results. */
  lemma ContinuingNeedsClosedTail(tidy: bool, a: Agent, input: seq<Message>, contexts: seq<Message>)
    requires Inv(tidy, a) && CallEnabled(a, RunMessage(input)) && Plain(contexts)
    ensures LoopEnabled(DoCall(a, RunMessage(input)), Count)
    ensures var b := DoLoop(DoCall(a, RunMessage(input)), Count);
      if a.pendingUser == [] then
        LoopEnabled(b, Request) && (AllAnswered(b.history) <==> !OpenTail(a.history))
      else
        && LoopEnabled(b, Drain(contexts, true))
        && LoopEnabled(DoLoop(b, Drain(contexts, true)), Request)
        && DoLoop(b, Drain(contexts, true)).pendingUser == []
        && (AllAnswered(DoLoop(b, Drain(contexts, true)).history) <==> !OpenTail(a.history))
  {
    hide Inv, Closed, Nearly, JoinedInput, AllAnswered;
    InvOutside(tidy, a);
    TailDecides(tidy, a.history, input);
    var joined := JoinedInput(a.pendingUser);
    assert a.pendingUser[..|a.pendingUser|] == a.pendingUser;
    assert joined.role == User by { JoinedIsUser(a.pendingUser); }
    TailDecides(tidy, a.history, input + contexts + [joined]);
    assert a.history + (input + contexts + [joined]) == a.history + input + contexts + [joined];
  }

  lemma TailDecides(tidy: bool, h: seq<Message>, more: seq<Message>)
    requires Nearly(tidy, h) && Plain(more)
    ensures AllAnswered(h + more) <==> !OpenTail(h)
  {
    hide Closed, Nearly;
    if OpenTail(h) {
      UnansweredTail(h, more);
    } else {
      NearlyClosed(tidy, h);
      PlainCloses(tidy, h, more);
      ClosedIsAnswered(tidy, h + more);
    }
  }

  lemma ClosedIsAnswered(tidy: bool, h: seq<Message>)
    requires Closed(tidy, h)
    ensures AllAnswered(h)
  {}

  lemma InvOutside(tidy: bool, a: Agent)
    requires Inv(tidy, a) && a.pc.Out? && (a.state.Idle? || a.state.Busy?)
    ensures Nearly(tidy, a.history)
  {}

  lemma UnansweredTail(h: seq<Message>, more: seq<Message>)
    requires OpenTail(h) && Plain(more)
    ensures !AllAnswered(h + more)
  {
    var all := h + more;
    var i := |h| - 1;
    AllAnsweredByIndex(all);
    assert all[i] == h[i] && HasCalls(all[i]);
    if more != [] {
      assert all[i + 1] == more[0];
    }
  }

  /** Such a state exists: preparing a batch fails, the run ends, and the calls stay unanswered. */
  lemma FailedStartLeavesOpenTail(tidy: bool, a: Agent)
    requires Inv(tidy, a) && a.pc.Classified? && a.pendingUser == []
    requires Only(a.pc.batch, RequireApproval) == []
    ensures WorkEnabled(a, Dispatch) && WorkEnabled(DoWork(a, Dispatch), StartFailed)
    ensures var b := DoWork(DoWork(a, Dispatch), StartFailed);
      b.pc.Out? && b.state.Busy? && b.history == a.history && OpenTail(b.history)
  {
    hide PausedOk, Closed, IsBatch, Ordered;
  }

  /** Results of an approved batch leave every call answered, and each once in call order if and only if
      nothing had been deferred. */
  lemma ApprovedHistory(tidy: bool, a: Agent)
    requires Inv(tidy, a) && a.state.Paused? && WorkEnabled(a, Report(true))
    ensures AllAnswered(DoWork(a, Report(true)).history)
    ensures var h := DoWork(a, Report(true)).history;
      |h| >= 2 && (ResultIds(h[|h| - 1].content) == CallIds(h[|h| - 2].content) <==> a.deferred == [])
  {
    hide Closed, IsPaused, Ordered, Submitted, Covers;
    var results := a.pc.results;
    var ids := ActionIds(PausedBatch(a));
    ApprovedAnswers(PausedBatch(a), a.deferred, a.pending, results);
    var outputs, cover := Submitted(a.deferred, results, true), ApprovedCover(a.deferred);
    ResultsClose(tidy, a.history, ids, outputs, cover);
    ClosedIsAnswered(tidy, a.history + [MarkedToolMessage(outputs, cover)]);
    ToolMessageIds(outputs);
    InOrderIs(ids, IdsOf(outputs));
  }

  lemma InOrderIs(calls: seq<string>, results: seq<string>)
    ensures Covers(InOrder, calls, results) <==> results == calls
  {}

  /** An approved batch of a call that runs by itself and one that waits, whose tools have both run. */
  function ApprovedPair(counter: Counter, threshold: int, auto: Action, approval: Action): Agent {
    var calls := [ToolCall(auto.id, auto.name, ""), ToolCall(approval.id, approval.name, "")];
    var results := ResultsOf([auto, approval], Interrupted());
    Agent(counter, threshold, Paused, [UserMessage("go"), Message(Assistant, [] + CallParts(calls), false, None, InOrder)],
          [], [approval], [auto], Reporting(results, false, true), 0, [], [], [])
  }

  /** So the deferred call of such a batch is answered twice. */
  lemma ApprovedPairAnswersTwice(tidy: bool, counter: Counter, threshold: int, auto: Action, approval: Action)
    requires auto.order == 0 && approval.order == 1 && auto.id != approval.id
    requires auto.decision == AutoExecute && approval.decision == RequireApproval
    ensures var a := ApprovedPair(counter, threshold, auto, approval);
      && Inv(tidy, a) && WorkEnabled(a, Report(true))
      && var h := DoWork(a, Report(true)).history;
        ResultIds(h[|h| - 1].content) == [auto.id, auto.id, approval.id]
  {
    hide IsPaused, Ordered, Open, Submitted, IsBatch, ActionIds, Only, Interrupted;
    var a := ApprovedPair(counter, threshold, auto, approval);
    var batch := [auto, approval];
    PairIsPaused(auto, approval);
    PausedIsBatch(a, batch);
    PairHistory(tidy, auto, approval);
    var results := ResultsOf(batch, Interrupted());
    PairResults(auto, approval);
    OpenIsNearly(tidy, a.history, ActionIds(batch));
    PairSubmitted(auto, approval, results);
    ToolMessageIds(Submitted([auto], results, true));
  }

  lemma PairIsPaused(auto: Action, approval: Action)
    requires auto.order == 0 && approval.order == 1 && auto.id != approval.id
    requires auto.decision == AutoExecute && approval.decision == RequireApproval
    ensures IsPaused([auto, approval], [auto], [approval])
  {
    forall d ensures Only([auto, approval], d) == Only([auto], d) + Only([approval], d) {
      OnlyConcat([auto], [approval], d);
    }
    OnlyOne(auto);
    OnlyOne(approval);
  }

  lemma PairHistory(tidy: bool, auto: Action, approval: Action)
    ensures var calls := [ToolCall(auto.id, auto.name, ""), ToolCall(approval.id, approval.name, "")];
      Open(tidy, [UserMessage("go"), Message(Assistant, [] + CallParts(calls), false, None, InOrder)],
           ActionIds([auto, approval]))
  {
    var calls := [ToolCall(auto.id, auto.name, ""), ToolCall(approval.id, approval.name, "")];
    var h := [UserMessage("go"), Message(Assistant, [] + CallParts(calls), false, None, InOrder)];
    AssistantIds([], calls);
    assert calls[1..] == [ToolCall(approval.id, approval.name, "")] && calls[1..][1..] == [];
    assert CallIdsOf(calls[1..][1..]) == [] && calls[1..][0].id == approval.id;
    assert CallIdsOf(calls[1..]) == [approval.id] + [];
    assert CallIdsOf(calls) == [auto.id] + [approval.id];
    assert ActionIds([auto, approval]) == [auto.id] + [approval.id];
    assert h[..1] == [UserMessage("go")];
    PlainBalanced(h[..1]);
  }

  lemma PairResults(auto: Action, approval: Action)
    ensures IdsOf(ResultsOf([auto, approval], Interrupted())) == ActionIds([auto, approval])
    ensures ActionIds([auto, approval]) == [auto.id, approval.id] && ActionIds([auto]) == [auto.id]
  {
    ResultsAnswer([auto, approval], Interrupted());
  }

  lemma PairSubmitted(auto: Action, approval: Action, results: seq<ToolResult>)
    requires auto.order == 0 && auto.id != approval.id
    requires IdsOf(results) == [auto.id, approval.id] && ActionIds([auto]) == [auto.id]
    ensures IdsOf(Submitted([auto], results, true)) == [auto.id, auto.id, approval.id]
  {
    hide Merged;
    var key := IdOrder([auto], results);
    MergedIds([auto], results, BATCH_DENIED);
    assert [auto][..0] == [];
    assert key(auto.id) == 0 && key(approval.id) >= 1;
    assert [auto.id] + [auto.id, approval.id] == [auto.id, auto.id] + [approval.id];
    SortRest(auto.id, auto.id, approval.id, key);
  }

  /** At any moment of a careful run the history waits at most for the answers of its last message. */
  lemma HistoryIsNearlyAnswered(tidy: bool, a: Agent, run: seq<Label>, b: Agent)
    requires Inv(tidy, a) && Reaches(a, run, b) && CarefulRun(tidy, a, run)
    requires !b.state.DurabilityFailed?
    ensures Nearly(tidy, b.history)
  {
    RunInv(tidy, a, run, b);
    InvIsNearly(tidy, b);
  }

  lemma InvIsNearly(tidy: bool, b: Agent)
    requires Inv(tidy, b) && !b.state.DurabilityFailed?
    ensures Nearly(tidy, b.history)
  {
    hide ToolRun.Inv, IsBatch, IsPaused;
    if b.pc.Interrupting? || b.pc.Classified? {
      OpenIsNearly(tidy, b.history, ActionIds(b.pc.batch));
    } else if b.pc.Executing? {
      OpenIsNearly(tidy, b.history, ActionIds(b.pc.run.actions));
    } else if b.pc.Reporting? {
      OpenIsNearly(tidy, b.history, IdsOf(b.pc.results));
    } else if !b.pc.Out? {
      ClosedIsNearly(tidy, b.history);
    }
  }

  // ---------------------------------------------------------------------
  // Durability failure
  // ---------------------------------------------------------------------

  /** Losing the results of a finished tool run is fatal exactly when one of its bodies was entered. */
  lemma LostResultsAreFatal(a: Agent, reminder: Text)
    requires WorkEnabled(a, Finish(reminder)) && !a.state.DurabilityFailed?
    ensures var b := DoWork(a, Finish(reminder));
      && WorkEnabled(b, Report(false))
      && DoWork(b, Report(false)).pc.Out?
      && DoWork(b, Report(false)).history == a.history
      && (DoWork(b, Report(false)).state.DurabilityFailed? <==>
          exists k :: 0 <= k < |a.pc.run.log| && a.pc.run.log[k].BodyStarted?)
  {}

  /** From a durability failure on nothing runs: no request, no tool. */
  lemma {:induction false} DurabilityFailedStays(a: Agent, run: seq<Label>, b: Agent)
    requires a.state.DurabilityFailed? && a.pc.Out? && Reaches(a, run, b)
    ensures b.state.DurabilityFailed? && b.pc.Out?
    ensures forall k :: 0 <= k < |run| ==> run[k].Calls? && (run[k].call.ClearPendingInput? || run[k].call.Force?)
    decreases |run|
  {
    if run != [] {
      DurabilityFailedStep(a, run[0]);
      DurabilityFailedStays(Do(a, run[0]), run[1..], b);
      assert forall k :: 1 <= k < |run| ==> run[k] == run[1..][k - 1];
    }
  }

  lemma DurabilityFailedStep(a: Agent, l: Label)
    requires a.state.DurabilityFailed? && a.pc.Out? && Enabled(a, l)
    ensures l.Calls? && (l.call.ClearPendingInput? || l.call.Force?)
    ensures Do(a, l).state.DurabilityFailed? && Do(a, l).pc.Out?
  {
    hide Compacts;
  }

  // ---------------------------------------------------------------------
  // Approval
  // ---------------------------------------------------------------------

  /** Outside a resolved batch, nothing that needs approval is being run. */
  ghost predicate Approved(a: Agent) {
    a.pc.Executing? && !a.pc.resolved ==>
      forall i :: 0 <= i < |a.pc.run.actions| ==> a.pc.run.actions[i].decision != RequireApproval
  }

  lemma ApprovedStep(a: Agent, l: Label)
    requires Approved(a) && Enabled(a, l)
    ensures Approved(Do(a, l))
  {
    hide CallEnabled, DoLoop, LoopEnabled, DoCall, Dispatched;
    match l
    case Calls(c) => ApprovedCall(a, c);
    case Loops(c) => LoopRunsNothing(a, c);
    case Works(c) =>
      if c.Dispatch? {
        ApprovedDispatch(a, a.pc.batch);
      }
  }

  lemma ApprovedCall(a: Agent, l: Call)
    requires Approved(a) && CallEnabled(a, l)
    ensures Approved(DoCall(a, l))
  {
    hide Compacts, PausedBatch, Rejected, Submitted, Badged, Normalized;
  }

  lemma LoopRunsNothing(a: Agent, l: Loop)
    requires LoopEnabled(a, l)
    ensures !DoLoop(a, l).pc.Executing?
  {
    hide Compacts;
  }

  lemma ApprovedDispatch(a: Agent, batch: seq<Action>)
    requires Approved(a) && a.pc.Classified?
    ensures Approved(Dispatched(a, batch))
  {
    hide Only, Sorting.StableSort;
    var parts := Only(batch, AutoExecute) + Only(batch, Block);
    OnlyHas(batch, AutoExecute);
    OnlyHas(batch, Block);
    Sorting.SortMember(parts, OrderKey());
    assert forall x :: x in parts ==> x.decision != RequireApproval;
  }

  /** In every run, careful or not, an action that needs approval runs only in a batch that a caller
      has resolved. */
  lemma {:induction false} NothingUnapprovedRuns(a: Agent, run: seq<Label>, b: Agent)
    requires Approved(a) && Reaches(a, run, b)
    ensures Approved(b)
    decreases |run|
  {
    hide Approved, Do, Enabled;
    if run != [] {
      ApprovedStep(a, run[0]);
      NothingUnapprovedRuns(Do(a, run[0]), run[1..], b);
    }
  }

  // ---------------------------------------------------------------------
  // Steering
  // ---------------------------------------------------------------------

  /** Accepted inputs are delivered once and in order, or still pending, or were given up. */
  ghost predicate Accounted(a: Agent) {
    && multiset(a.accepted) == multiset(a.delivered) + multiset(a.lost) + multiset(a.pendingUser)
    && (a.lost == [] ==> a.accepted == a.delivered + a.pendingUser)
    && a.emptyAttempts <= 1
  }

  ghost predicate Untouched(a: Agent, b: Agent) {
    b.accepted == a.accepted && b.delivered == a.delivered && b.lost == a.lost && b.pendingUser == a.pendingUser
  }

  ghost predicate Accepts(a: Agent, b: Agent) {
    && b.pendingUser != [] && b.accepted == a.accepted + [b.pendingUser[|b.pendingUser| - 1]]
    && b.pendingUser[..|b.pendingUser| - 1] == a.pendingUser && b.delivered == a.delivered && b.lost == a.lost
  }

  ghost predicate GivesUp(a: Agent, b: Agent) {
    b.accepted == a.accepted && b.pendingUser == [] && b.delivered == a.delivered && b.lost == a.lost + a.pendingUser
  }

  ghost predicate Delivers(a: Agent, b: Agent) {
    && b.accepted == a.accepted && b.lost == a.lost
    && |b.pendingUser| <= |a.pendingUser|
    && b.pendingUser == a.pendingUser[|a.pendingUser| - |b.pendingUser|..]
    && b.delivered == a.delivered + a.pendingUser[..|a.pendingUser| - |b.pendingUser|]
  }

  /** What a step may do to the accounts. */
  ghost predicate Moves(a: Agent, b: Agent) {
    Untouched(a, b) || Accepts(a, b) || GivesUp(a, b) || Delivers(a, b)
  }

  lemma AcceptsAccounted(a: Agent, b: Agent)
    requires Accounted(a) && Accepts(a, b) && b.emptyAttempts <= 1
    ensures Accounted(b)
  {
    var m := b.pendingUser[|b.pendingUser| - 1];
    assert b.pendingUser == a.pendingUser + [m];
    assert a.lost == [] ==> b.accepted == a.delivered + (a.pendingUser + [m]);
  }

  lemma DeliversAccounted(a: Agent, b: Agent)
    requires Accounted(a) && Delivers(a, b) && b.emptyAttempts <= 1
    ensures Accounted(b)
  {
    var n := |a.pendingUser| - |b.pendingUser|;
    assert a.pendingUser == a.pendingUser[..n] + a.pendingUser[n..];
    assert a.lost == [] ==> b.accepted == (a.delivered + a.pendingUser[..n]) + a.pendingUser[n..];
  }

  lemma GivesUpAccounted(a: Agent, b: Agent)
    requires Accounted(a) && GivesUp(a, b) && b.emptyAttempts <= 1
    ensures Accounted(b)
  {
    if b.lost == [] {
      assert a.pendingUser == [];
      assert a.delivered + a.pendingUser == a.delivered + b.pendingUser;
    }
  }

  lemma MovesAccounted(a: Agent, b: Agent)
    requires Accounted(a) && Moves(a, b) && b.emptyAttempts <= 1
    ensures Accounted(b)
  {
    hide Accepts, Delivers, GivesUp;
    if Accepts(a, b) {
      AcceptsAccounted(a, b);
    } else if Delivers(a, b) {
      DeliversAccounted(a, b);
    } else if GivesUp(a, b) {
      GivesUpAccounted(a, b);
    }
  }

  /** The steps that give up what is pending. */
  predicate GivingUp(l: Label) {
    match l
    case Calls(c) => c.ClearPendingInput? || c.Recover?
    case Loops(c) => c.FinishTurn?
    case Works(_) => false
  }

  lemma CallMoves(a: Agent, l: Call)
    requires CallEnabled(a, l)
    ensures GivingUp(Calls(l)) ==> GivesUp(a, DoCall(a, l))
    ensures !GivingUp(Calls(l)) ==> DoCall(a, l).lost == a.lost
    ensures Moves(a, DoCall(a, l)) && DoCall(a, l).emptyAttempts <= if a.emptyAttempts > 1 then a.emptyAttempts else 1
  {
    hide Compacts, PausedBatch, Rejected, Submitted, Badged, Normalized;
  }

  lemma LoopMoves(a: Agent, l: Loop)
    requires LoopEnabled(a, l)
    ensures GivingUp(Loops(l)) ==> GivesUp(a, DoLoop(a, l))
    ensures !GivingUp(Loops(l)) ==> DoLoop(a, l).lost == a.lost
    ensures Moves(a, DoLoop(a, l)) && DoLoop(a, l).emptyAttempts <= if a.emptyAttempts > 1 then a.emptyAttempts else 1
  {
    hide Compacts, JoinedInput;
  }

  lemma WorkMoves(a: Agent, l: Work)
    requires WorkEnabled(a, l)
    ensures DoWork(a, l).lost == a.lost
    ensures Moves(a, DoWork(a, l)) && DoWork(a, l).emptyAttempts <= if a.emptyAttempts > 1 then a.emptyAttempts else 1
  {
    hide Only, Ordered, Submitted;
  }

  /** What the steps of a run give up. */
  ghost function Dropped(a: Agent, run: seq<Label>): seq<Message>
    decreases |run|
  {
    if run == [] || !Enabled(a, run[0]) then []
    else (if GivingUp(run[0]) then a.pendingUser else []) + Dropped(Do(a, run[0]), run[1..])
  }

  /** A step loses input if and only if some is pending and the step clears it, finishes the turn, or
      abandons it. */
  lemma LosesExactly(a: Agent, l: Label)
    requires Enabled(a, l)
    ensures Do(a, l).lost == a.lost + if GivingUp(l) then a.pendingUser else []
    ensures Do(a, l).lost != a.lost <==> a.pendingUser != [] && GivingUp(l)
  {
    hide CallEnabled, LoopEnabled, WorkEnabled, DoCall, DoLoop, DoWork, Moves;
    match l
    case Calls(c) => CallMoves(a, c);
    case Loops(c) => LoopMoves(a, c);
    case Works(c) => WorkMoves(a, c);
  }

  /** In every run, each accepted steering input is delivered once and in order, or is still pending, or
      was given up; and what was given up is exactly what was pending when the run cleared the input,
      finished the turn or abandoned it. */
  lemma {:induction false} SteeringAccounted(a: Agent, run: seq<Label>, b: Agent)
    requires Accounted(a) && Reaches(a, run, b)
    ensures Accounted(b)
    ensures b.lost == a.lost + Dropped(a, run)
    decreases |run|
  {
    hide Accounted, GivingUp, CallEnabled, LoopEnabled, WorkEnabled, DoCall, DoLoop, DoWork, Moves;
    if run != [] {
      var next := Do(a, run[0]);
      match run[0] {
        case Calls(c) => CallMoves(a, c);
        case Loops(c) => LoopMoves(a, c);
        case Works(c) => WorkMoves(a, c);
      }
      AttemptsOk(a);
      MovesAccounted(a, next);
      LosesExactly(a, run[0]);
      SteeringAccounted(next, run[1..], b);
    }
  }

  lemma AttemptsOk(a: Agent)
    requires Accounted(a)
    ensures a.emptyAttempts <= 1
  {}

  // ---------------------------------------------------------------------
  // Input that is accepted and never reaches the model
  // ---------------------------------------------------------------------

  /** A question and its answer, up to the last look at pending input. */
  function LateRun(question: Message, answer: Message): seq<Label> {
    [Calls(RunMessage([question])), Loops(Count), Loops(Request), Loops(Answer(answer, [], true)), Loops(Count),
     Loops(Nudge(question, true))]
  }

  lemma FirstStep(a: Agent, l: Label, run: seq<Label>, b: Agent)
    requires Enabled(a, l) && Reaches(Do(a, l), run, b)
    ensures Reaches(a, [l] + run, b)
  {
    hide Enabled, Do;
    assert ([l] + run)[1..] == run;
  }

  /** From the last look at pending input, which finds none, to the end of the turn. */
  lemma LateTail(a: Agent, late: Message) returns (b: Agent)
    requires a.pc.Ending? && a.state.Busy? && a.pendingUser == [] && Normalized(late).Some?
    ensures Reaches(a, [Loops(Count), Calls(Queue(late)), Loops(FinishTurn)], b)
    ensures var input := Normalized(late).value;
      b == a.(pc := Out, state := Idle, accepted := a.accepted + [input], lost := a.lost + [input])
  {
    hide Normalized;
    var input := Normalized(late).value;
    var c := a.(pc := Finishing);
    var d := c.(pendingUser := [input], accepted := a.accepted + [input]);
    b := a.(pc := Out, state := Idle, accepted := a.accepted + [input], lost := a.lost + [input]);
    assert Enabled(a, Loops(Count)) && Do(a, Loops(Count)) == c;
    assert Enabled(c, Calls(Queue(late))) && Do(c, Calls(Queue(late))) == d;
    assert Enabled(d, Loops(FinishTurn)) && Do(d, Loops(FinishTurn)) == b;
    assert Reaches(b, [], b);
    FirstStep(d, Loops(FinishTurn), [], b);
    FirstStep(c, Calls(Queue(late)), [Loops(FinishTurn)], b);
    FirstStep(a, Loops(Count), [Calls(Queue(late)), Loops(FinishTurn)], b);
  }

  lemma AskStep(a: Agent, question: Message)
    requires a.pc.Out? && a.state.Idle? && question.role == User
    ensures Enabled(a, Calls(RunMessage([question])))
    ensures Do(a, Calls(RunMessage([question])))
      == a.(history := a.history + [question], state := Busy, pc := Top, emptyAttempts := 0)
  {}

  lemma RequestSteps(a: Agent)
    requires a.pc.Top? && a.pendingUser == []
    ensures Enabled(a, Loops(Count)) && Do(a, Loops(Count)) == a.(pc := Building)
    ensures Enabled(a.(pc := Building), Loops(Request)) && Do(a.(pc := Building), Loops(Request)) == a.(pc := Generating)
  {}

  lemma AnswerStep(a: Agent, answer: Message)
    requires a.pc.Generating? && a.pendingUser == [] && a.emptyAttempts == 0
    requires answer.role == Assistant && answer.content == [TextPart("done")]
    ensures Enabled(a, Loops(Answer(answer, [], true)))
    ensures Do(a, Loops(Answer(answer, [], true))) == a.(history := a.history + [answer], pc := Silent(false))
  {
    assert answer.content[1..] == [] && CallIds(answer.content) == ActionIds([]);
  }

  lemma SilentSteps(a: Agent, m: Message)
    requires a.pc == Silent(false) && a.pendingUser == [] && m.role == User
    ensures Enabled(a, Loops(Count)) && Do(a, Loops(Count)) == a.(pc := Nudging(false))
    ensures Enabled(a.(pc := Nudging(false)), Loops(Nudge(m, true)))
    ensures Do(a.(pc := Nudging(false)), Loops(Nudge(m, true))) == a.(pc := Ending)
  {}

  /** A question and its answer, up to that last look. */
  lemma LateHead(a: Agent, question: Message, answer: Message, rest: seq<Label>, b: Agent)
    requires a.pc.Out? && a.state.Idle? && a.pendingUser == []
    requires question.role == User && answer.role == Assistant && answer.content == [TextPart("done")]
    requires Reaches(a.(history := a.history + [question, answer], state := Busy, pc := Ending, emptyAttempts := 0), rest, b)
    ensures Reaches(a, LateRun(question, answer) + rest, b)
  {
    hide Enabled, Do, Reaches;
    var a1 := a.(history := a.history + [question], state := Busy, pc := Top, emptyAttempts := 0);
    var a4 := a1.(history := a1.history + [answer], pc := Silent(false));
    assert a1.history + [answer] == a.history + [question, answer];
    AskStep(a, question);
    RequestSteps(a1);
    AnswerStep(a1.(pc := Generating), answer);
    SilentSteps(a4, question);
    LatePath(a, a1, a1.(pc := Building), a1.(pc := Generating), a4, a4.(pc := Nudging(false)), question, answer, rest, b);
  }

  lemma LatePath(a: Agent, a1: Agent, a2: Agent, a3: Agent, a4: Agent, a5: Agent, question: Message, answer: Message,
                 rest: seq<Label>, b: Agent)
    requires Enabled(a, Calls(RunMessage([question]))) && Do(a, Calls(RunMessage([question]))) == a1
    requires Enabled(a1, Loops(Count)) && Do(a1, Loops(Count)) == a2
    requires Enabled(a2, Loops(Request)) && Do(a2, Loops(Request)) == a3
    requires Enabled(a3, Loops(Answer(answer, [], true))) && Do(a3, Loops(Answer(answer, [], true))) == a4
    requires Enabled(a4, Loops(Count)) && Do(a4, Loops(Count)) == a5
    requires Enabled(a5, Loops(Nudge(question, true))) && Reaches(Do(a5, Loops(Nudge(question, true))), rest, b)
    ensures Reaches(a, LateRun(question, answer) + rest, b)
  {
    hide Enabled, Do, Reaches;
    var run := LateRun(question, answer);
    FirstStep(a5, run[5], rest, b);
    FirstStep(a4, run[4], [run[5]] + rest, b);
    FirstStep(a3, run[3], [run[4]] + ([run[5]] + rest), b);
    FirstStep(a2, run[2], [run[3]] + ([run[4]] + ([run[5]] + rest)), b);
    FirstStep(a1, run[1], [run[2]] + ([run[3]] + ([run[4]] + ([run[5]] + rest))), b);
    FirstStep(a, run[0], [run[1]] + ([run[2]] + ([run[3]] + ([run[4]] + ([run[5]] + rest)))), b);
    assert [run[0]] + ([run[1]] + ([run[2]] + ([run[3]] + ([run[4]] + ([run[5]] + rest))))) == run + rest;
  }

  /** It is accepted, and dropped when the turn finishes. */
  lemma LateInputIsLost(a: Agent, question: Message, answer: Message, late: Message) returns (b: Agent)
    requires a.pc.Out? && a.state.Idle? && a.pendingUser == []
    requires question.role == User && answer.role == Assistant && answer.content == [TextPart("done")]
    requires Normalized(late).Some?
    ensures Reaches(a, LateRun(question, answer) + [Loops(Count), Calls(Queue(late)), Loops(FinishTurn)], b)
    ensures b.accepted == a.accepted + [Normalized(late).value] && b.lost == a.lost + [Normalized(late).value]
    ensures b.delivered == a.delivered && b.pendingUser == [] && b.state == Idle
    ensures b.history == a.history + [question, answer]
  {
    hide Reaches, Normalized;
    var c := a.(history := a.history + [question, answer], state := Busy, pc := Ending, emptyAttempts := 0);
    b := LateTail(c, late);
    LateHead(a, question, answer, [Loops(Count), Calls(Queue(late)), Loops(FinishTurn)], b);
  }
}
