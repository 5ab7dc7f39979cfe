/** The agent as an object: its fields and the critical sections that change them, each one the step of
    AgentTurn it is named after: core/agent/agent.go, lines 553-612, 630-671, 748-761, 1124-1195,
    1217-1229, 1295-1328, 1435-1534, 1615-1643 and 2531-2580. */
module AgentObject {
  import opened Wrappers
  import opened Utf8
  import opened Messages
  import opened Conversation
  import opened Projection
  import opened Compaction
  import opened Actions
  import opened Submissions
  import opened Steering
  import opened AgentTurn
  import ToolRun

  class AgentRuntime {
    const counter: Counter
    const threshold: int
    var state: State
    var history: seq<Message>
    var pendingTurnUser: seq<Message>
    var pendingActions: seq<Action>
    var deferredActions: seq<Action>
    /** Where the current activity stands; a running batch of tools is part of it. */
    var pc: Pc
    var emptyAttempts: nat
    ghost var accepted: seq<Message>
    ghost var delivered: seq<Message>
    ghost var lost: seq<Message>

    ghost function Value(): Agent
      reads this
    {
      Agent(counter, threshold, state, history, pendingTurnUser, pendingActions, deferredActions, pc, emptyAttempts,
            accepted, delivered, lost)
    }

    constructor (counter: Counter, threshold: int)
      ensures Value() == Agent(counter, threshold, Idle, [], [], [], [], Out, 0, [], [], [])
    {
      this.counter, this.threshold, state, history, pendingTurnUser := counter, threshold, Idle, [], [];
      pendingActions, deferredActions, pc, emptyAttempts := [], [], Out, 0;
      accepted, delivered, lost := [], [], [];
    }

    /** Accepts input for the active turn, if `admitted`, and interrupts the tools it may be running. */
    method QueueTurnUserMessage(m: Message, admitted: bool) returns (ok: bool)
      modifies this
      ensures ok <==> admitted && CallEnabled(old(Value()), Queue(m))
      ensures Value() == if ok then DoCall(old(Value()), Queue(m)) else old(Value())
    {
      hide Compacts, PausedBatch, ToolRun.Enabled, Normalized;
      var input := NormalizeQueued(m);
      if input == None {
        return false;
      }
      if state != Busy && state != Paused {
        return false;
      }
      if !admitted {
        return false;
      }
      pendingTurnUser := pendingTurnUser + [input.value];
      accepted := accepted + [input.value];
      if pc.Executing? {
        pc := Executing(pc.run.(interrupted := true), pc.resolved);
      }
      return true;
    }

    /** Starts the loop with user input, or continues it without. A paused agent always has actions
        pending (AgentInvariant.PausedOk). */
    method RunMessage(input: seq<Message>, recorded: bool) returns (ok: bool)
      requires Plain(input)
      requires state == Paused ==> pendingActions != []
      modifies this
      ensures ok <==> CallEnabled(old(Value()), AgentTurn.RunMessage(input)) && (recorded || input == [])
      ensures Value() == if ok then DoCall(old(Value()), AgentTurn.RunMessage(input)) else old(Value())
    {
      hide Compacts, PausedBatch, Plain;
      if !pc.Out? {
        return false;
      }
      if state == DurabilityFailed {
        return false;
      }
      if input != [] {
        if state == Paused || !recorded {
          return false;
        }
        history := history + input;
      }
      if state == Paused && |pendingActions| > 0 {
        return false;
      }
      assert input == [] ==> history + input == history;
      state := Busy;
      pc := Top;
      emptyAttempts := 0;
      return true;
    }

    /** Puts the counted inputs, joined to one message, behind the history; `contexts` are the contextual
        messages that go with them. */
    method DrainPendingTurnUserInput(contexts: seq<Message>, recorded: bool)
      requires LoopEnabled(Value(), Drain(contexts, recorded))
      modifies this
      ensures Value() == DoLoop(old(Value()), Drain(contexts, recorded))
    {
      hide Compacts, Plain, JoinedInput;
      var count, next := pc.count, pc.next;
      if recorded && |pendingTurnUser| < count {
        Proceed(next);
        return;
      }
      if !recorded {
        pc := Out;
        return;
      }
      var joined := JoinPending(pendingTurnUser[..count]);
      history := history + contexts + [joined];
      delivered := delivered + pendingTurnUser[..count];
      pendingTurnUser := pendingTurnUser[count..];
      pc := if next.ToRequest? then Building else Top;
    }

    method Proceed(next: After)
      modifies this`pc
      ensures Value() == AfterDrain(old(Value()), next)
    {
      match next
      case ToRequest => pc := Building;
      case ToNudge(empty) => pc := Nudging(empty);
      case ToFinish => pc := Finishing;
    }

    /** Ends the turn, and drops input that came after the last look at it. */
    method FinishTurn()
      requires LoopEnabled(Value(), AgentTurn.FinishTurn)
      modifies this
      ensures Value() == DoLoop(old(Value()), AgentTurn.FinishTurn)
    {
      hide Compacts;
      lost := lost + pendingTurnUser;
      pendingTurnUser := [];
      state := Idle;
      pc := Out;
    }

    /** Begins a tool run, unless steering is already waiting. */
    method BeginToolRun(actions: seq<Action>, resolved: bool)
      modifies this`pc
      ensures Value() == BeginTools(old(Value()), actions, resolved)
    {
      if |pendingTurnUser| > 0 {
        var results := MapResults(actions, Interrupted());
        pc := Reporting(results, false, resolved);
        return;
      }
      pc := Executing(ToolRun.Begin(actions), resolved);
    }

    /** Pauses a classified batch for approval, or starts to execute it. */
    method DispatchBatch()
      requires WorkEnabled(Value(), Dispatch)
      modifies this
      ensures Value() == DoWork(old(Value()), Dispatch)
    {
      hide Only, Ordered, ToolRun.Enabled, ToolRun.Finished;
      var batch := pc.batch;
      var autoCalls, approvalCalls, blockedCalls := Split(batch);
      if |approvalCalls| > 0 {
        if |pendingTurnUser| > 0 {
          pc := Interrupting(batch);
          return;
        }
        state := Paused;
        pendingActions := pendingActions + approvalCalls;
        deferredActions := deferredActions + autoCalls;
        deferredActions := deferredActions + blockedCalls;
        pc := Out;
        return;
      }
      BeginToolRun(Ordered(autoCalls + blockedCalls), false);
    }

    /** Answers the calls of a turn that steering has overtaken. */
    method RecordInterruptedToolCalls(recorded: bool)
      requires WorkEnabled(Value(), RecordInterrupted(recorded))
      modifies this
      ensures Value() == DoWork(old(Value()), RecordInterrupted(recorded))
    {
      hide ToolRun.Enabled, ToolRun.Finished;
      var results := MapResults(pc.batch, Interrupted());
      if !recorded {
        pc := Out;
        return;
      }
      history := history + [ToolMessage(results)];
      pc := Top;
    }

    /** Records outputs for the paused batch; losing them after a tool may have run is fatal. `cover`
        marks how they answer the batch. */
    method SubmitOutputs(outputs: seq<ToolResult>, mergeDeferred: bool, toolsExecuted: bool, cover: Cover, recorded: bool)
      returns (ok: bool)
      modifies this
      ensures ok <==> old(state) == Paused && recorded
      ensures ok ==> Value() == Resumed(old(Value()), Submitted(old(deferredActions), outputs, mergeDeferred), cover)
      ensures !ok ==>
        if old(state) == Paused && toolsExecuted
        then Value() == Lost(old(Value()), true).(pc := old(pc))
        else Value() == old(Value())
    {
      hide Merged;
      if state != Paused {
        return false;
      }
      var all := outputs;
      if mergeDeferred && |deferredActions| > 0 {
        all := MergeDeferredSkippedResults(deferredActions, outputs, BATCH_DENIED);
      }
      if !recorded {
        if toolsExecuted {
          MarkDurabilityFailed();
        }
        return false;
      }
      history := history + [MarkedToolMessage(all, cover)];
      pendingActions := [];
      deferredActions := [];
      state := Busy;
      return true;
    }

    method MarkDurabilityFailed()
      modifies this`pendingActions, this`deferredActions, this`state
      ensures pendingActions == [] && deferredActions == [] && state == DurabilityFailed
    {
      pendingActions := [];
      deferredActions := [];
      state := DurabilityFailed;
    }

    /** A caller submits outputs for the paused batch. */
    method SubmitToolOutputs(outputs: seq<ToolResult>, recorded: bool) returns (ok: bool)
      modifies this
      ensures ok <==> old(state) == Paused && recorded
      ensures !ok ==> Value() == old(Value())
      ensures CallEnabled(old(Value()), Submit(outputs, recorded)) ==> Value() == DoCall(old(Value()), Submit(outputs, recorded))
    {
      hide Merged, Submitted, SubmitCover, Compacts, Ordered;
      ok := SubmitOutputs(outputs, true, false, SubmitCover(deferredActions, pendingActions, outputs), recorded);
    }

    /** Resolves a paused batch: a denial answers all of it, otherwise its actions are to be executed. */
    method ResolvePendingActions(decisions: Decisions, recorded: bool) returns (r: Resolution)
      modifies this
      ensures r == NotPaused <==> old(pendingActions) == []
      ensures r.Answered? <==>
        exists i :: 0 <= i < |old(pendingActions)| && IsDenied(decisions, old(pendingActions)[i])
      ensures r.Answered? ==> (r.ok <==> old(state) == Paused && recorded)
      ensures Value() ==
        if r == Answered(true)
        then Resumed(old(Value()), Rejected(old(deferredActions), old(pendingActions), decisions), InOrder)
        else old(Value())
      ensures r.Execute? ==> r.actions == PausedBatch(old(Value()))
      ensures CallEnabled(old(Value()), Deny(decisions, recorded)) ==>
        r.Answered? && Value() == DoCall(old(Value()), Deny(decisions, recorded))
    {
      hide Merged, Rejected, Ordered, Compacts, IsDenied, Plain;
      if |pendingActions| == 0 {
        return NotPaused;
      }
      var denied := false;
      for i := 0 to |pendingActions|
        invariant denied <==> exists k :: 0 <= k < i && IsDenied(decisions, pendingActions[k])
      {
        if IsDenied(decisions, pendingActions[i]) {
          denied := true;
        }
      }
      if denied {
        var outputs := DeniedOutputs(deferredActions, pendingActions, decisions);
        var ok := SubmitOutputs(outputs, false, false, InOrder, recorded);
        return Answered(ok);
      }
      return Execute(Ordered(deferredActions + pendingActions));
    }
  }

  /** What becomes of a paused batch: there is none, denials answer it, or its actions are executed. */
  datatype Resolution = NotPaused | Answered(ok: bool) | Execute(actions: seq<Action>)
}
