/** Running the actions of a batch: core/agent/agent.go, lines 1275-1328, 1536-1685 and 1788-1870.

    Each action has a slot. A group of actions is open at a time, either one action or several that
    may run side by side, and the steps of its slots interleave with each other and with a steering
    input. */
module ToolRun {
  import opened Wrappers
  import opened Utf8
  import opened Messages
  import opened Conversation
  import opened Actions

  /** `Recorded`: the start record is durable. `Running`: the body has been entered. */
  datatype Slot = Waiting | Recorded | Running | Returned(result: ToolResult) | Done(result: ToolResult)

  datatype Event = StartRecorded(i: nat) | BodyStarted(i: nat)

  /** The open group is `actions[start..end]`; there is none when `start == end`. */
  datatype Run = Run(
    actions: seq<Action>,
    slots: seq<Slot>,
    start: nat,
    end: nat,
    completed: set<string>,
    interrupted: bool,
    log: seq<Event>)

  datatype Step =
    | Interrupt
    | Open
    | Refuse(i: nat, result: ToolResult)
    | Record(i: nat)
    | Enter(i: nat)
    | Return(i: nat, result: ToolResult)
    | Complete(i: nat)
    | Close

  predicate Concurrent(a: Action) {
    && !a.requiresSnapshot
    && ((a.decision == AutoExecute && a.riskSafe) || (a.decision == RequireApproval && a.exploreSpawn))
  }

  function ConcurrentEnd(actions: seq<Action>, end: nat): (e: nat)
    requires end <= |actions|
    ensures end <= e <= |actions|
    ensures forall k :: end <= k < e ==> Concurrent(actions[k])
    ensures e < |actions| ==> !Concurrent(actions[e])
    decreases |actions| - end
  {
    if end < |actions| && Concurrent(actions[end]) then ConcurrentEnd(actions, end + 1) else end
  }

  function GroupEnd(actions: seq<Action>, start: nat): (e: nat)
    requires start < |actions|
    ensures start < e <= |actions|
    ensures e == start + 1 || forall k :: start <= k < e ==> Concurrent(actions[k])
  {
    if Concurrent(actions[start]) then ConcurrentEnd(actions, start + 1) else start + 1
  }

  ghost predicate Distinct(actions: seq<Action>) {
    forall i, j :: 0 <= i < j < |actions| ==> actions[i].id != actions[j].id
  }

  function Begin(actions: seq<Action>): Run {
    Run(actions, seq(|actions|, _ => Waiting), 0, 0, {}, false, [])
  }

  predicate InGroup(s: Run, i: nat) {
    s.start <= i < s.end <= |s.actions| && |s.slots| == |s.actions|
  }

  predicate Answers(a: Action, r: ToolResult) {
    r.callId == a.id && r.toolName == a.name
  }

  predicate Enabled(s: Run, step: Step) {
    match step
    case Interrupt => true
    // A new group is opened only while nobody has interrupted.
    case Open => s.start == s.end < |s.actions| && !s.interrupted
    // Blocked, unknown tool, or the start could not be recorded: an error, and no body.
    case Refuse(i, r) =>
      && InGroup(s, i) && s.slots[i].Waiting? && Answers(s.actions[i], r) && r.isError
      && (s.actions[i].decision == Block ==> r == Denial(s.actions[i].id, s.actions[i].name, s.actions[i].reason))
    case Record(i) => InGroup(s, i) && s.slots[i].Waiting? && s.actions[i].decision != Block
    case Enter(i) => InGroup(s, i) && s.slots[i].Recorded?
    case Return(i, r) => InGroup(s, i) && s.slots[i].Running? && Answers(s.actions[i], r)
    case Complete(i) => InGroup(s, i) && s.slots[i].Returned?
    case Close => s.start < s.end <= |s.slots| && forall i :: s.start <= i < s.end ==> s.slots[i].Done?
  }

  function Do(s: Run, step: Step): Run
    requires Enabled(s, step)
  {
    match step
    case Interrupt => s.(interrupted := true)
    case Open => s.(end := GroupEnd(s.actions, s.start))
    case Refuse(i, r) => s.(slots := s.slots[i := Returned(r)])
    case Record(i) => s.(slots := s.slots[i := Recorded], log := s.log + [StartRecorded(i)])
    case Enter(i) => s.(slots := s.slots[i := Running], log := s.log + [BodyStarted(i)])
    case Return(i, r) => s.(slots := s.slots[i := Returned(r)])
    case Complete(i) =>
      var r := s.slots[i].result;
      s.(slots := s.slots[i := Done(r)],
         completed := if s.interrupted && r.isError then s.completed else s.completed + {s.actions[i].id})
    case Close => s.(start := s.end)
  }

  ghost predicate Reaches(s: Run, steps: seq<Step>, t: Run)
    decreases |steps|
  {
    if steps == [] then s == t else Enabled(s, steps[0]) && Reaches(Do(s, steps[0]), steps[1..], t)
  }

  predicate Finished(s: Run) {
    s.start == s.end && (s.start == |s.actions| || s.interrupted)
  }

  predicate MayHaveExecuted(s: Run) {
    exists k :: 0 <= k < |s.log| && s.log[k].BodyStarted?
  }

  // ---------------------------------------------------------------------
  // What holds in every state
  // ---------------------------------------------------------------------

  ghost predicate SlotsOk(s: Run) {
    && |s.slots| == |s.actions|
    && s.start <= s.end <= |s.actions|
    && (s.start < s.end ==> s.end == GroupEnd(s.actions, s.start))
    && (forall i :: 0 <= i < s.start ==> s.slots[i].Done?)
    && (forall i :: s.end <= i < |s.slots| ==> s.slots[i].Waiting?)
    && (forall i :: 0 <= i < |s.slots| ==>
      (s.slots[i].Returned? || s.slots[i].Done?) ==> Answers(s.actions[i], s.slots[i].result))
  }

  ghost predicate CompletedOk(s: Run)
    requires |s.slots| == |s.actions|
  {
    && (forall i :: 0 <= i < |s.slots| && s.actions[i].id in s.completed ==> s.slots[i].Done?)
    && (forall i :: 0 <= i < |s.slots| && s.slots[i].Done? && (!s.interrupted || !s.slots[i].result.isError) ==>
      s.actions[i].id in s.completed)
  }

  ghost predicate NothingTwice(log: seq<Event>) {
    forall j, k :: 0 <= j < k < |log| ==> log[j] != log[k]
  }

  /** No body before its start record. */
  ghost predicate RecordsFirst(log: seq<Event>) {
    forall k :: 0 <= k < |log| && log[k].BodyStarted? ==> StartRecorded(log[k].i) in log[..k]
  }

  /** What has been logged of an action fits its slot. */
  ghost predicate EventFits(slot: Slot, e: Event) {
    !slot.Waiting? && (e.BodyStarted? ==> !slot.Recorded?)
  }

  ghost predicate EventsFit(slots: seq<Slot>, log: seq<Event>) {
    && (forall k :: 0 <= k < |log| ==> log[k].i < |slots| && EventFits(slots[log[k].i], log[k]))
    && (forall i :: 0 <= i < |slots| && slots[i].Recorded? ==> StartRecorded(i) in log)
  }

  ghost predicate LogOk(s: Run) {
    NothingTwice(s.log) && RecordsFirst(s.log) && EventsFit(s.slots, s.log)
  }

  ghost predicate Inv(s: Run) {
    Distinct(s.actions) && SlotsOk(s) && CompletedOk(s) && LogOk(s)
  }

  lemma BeginInv(actions: seq<Action>)
    requires Distinct(actions)
    ensures Inv(Begin(actions))
  {}

  lemma StepSlots(s: Run, step: Step)
    requires SlotsOk(s) && Enabled(s, step)
    ensures SlotsOk(Do(s, step))
  {}

  lemma StepCompleted(s: Run, step: Step)
    requires Distinct(s.actions) && SlotsOk(s) && CompletedOk(s) && Enabled(s, step)
    ensures |Do(s, step).slots| == |s.actions| && CompletedOk(Do(s, step))
  {}

  lemma EventLogged(slots: seq<Slot>, log: seq<Event>, i: nat, slot: Slot, e: Event)
    requires NothingTwice(log) && RecordsFirst(log) && EventsFit(slots, log) && i < |slots|
    requires
      || (e == StartRecorded(i) && slots[i].Waiting? && slot.Recorded?)
      || (e == BodyStarted(i) && slots[i].Recorded? && slot.Running?)
    ensures NothingTwice(log + [e]) && RecordsFirst(log + [e]) && EventsFit(slots[i := slot], log + [e])
  {
    var next := log + [e];
    forall k | 0 <= k < |log| ensures log[k] != e {
      assert EventFits(slots[log[k].i], log[k]);
    }
    assert next[..|log|] == log;
    assert forall k :: 0 <= k < |log| ==> next[..k] == log[..k] && next[k] == log[k];
    forall k | 0 <= k < |next| ensures next[k].i < |slots| && EventFits(slots[i := slot][next[k].i], next[k]) {
      if k < |log| {
        assert EventFits(slots[log[k].i], log[k]);
      }
    }
  }

  lemma SlotMoved(slots: seq<Slot>, log: seq<Event>, i: nat, slot: Slot)
    requires EventsFit(slots, log) && i < |slots| && !slot.Waiting? && !slot.Recorded?
    ensures EventsFit(slots[i := slot], log)
  {
    forall k | 0 <= k < |log| ensures EventFits(slots[i := slot][log[k].i], log[k]) {
      assert EventFits(slots[log[k].i], log[k]);
    }
  }

  lemma StepLog(s: Run, step: Step)
    requires LogOk(s) && Enabled(s, step)
    ensures LogOk(Do(s, step))
  {
    hide NothingTwice, RecordsFirst, EventsFit;
    match step
    case Record(i) => EventLogged(s.slots, s.log, i, Recorded, StartRecorded(i));
    case Enter(i) => EventLogged(s.slots, s.log, i, Running, BodyStarted(i));
    case Refuse(i, r) => SlotMoved(s.slots, s.log, i, Returned(r));
    case Return(i, r) => SlotMoved(s.slots, s.log, i, Returned(r));
    case Complete(i) => SlotMoved(s.slots, s.log, i, Done(s.slots[i].result));
    case _ =>
  }

  lemma StepInv(s: Run, step: Step)
    requires Inv(s) && Enabled(s, step)
    ensures Inv(Do(s, step)) && Do(s, step).actions == s.actions
  {
    StepSlots(s, step);
    StepCompleted(s, step);
    StepLog(s, step);
  }

  lemma {:induction false} RunInv(s: Run, steps: seq<Step>, t: Run)
    requires Inv(s) && Reaches(s, steps, t)
    ensures Inv(t) && t.actions == s.actions
    decreases |steps|
  {
    hide Inv, Enabled, Do;
    if steps != [] {
      StepInv(s, steps[0]);
      RunInv(Do(s, steps[0]), steps[1..], t);
    }
  }

  /** Bodies of different groups never overlap, and only actions that may run side by side do. */
  lemma OnlyConcurrentOverlap(s: Run, i: nat, j: nat)
    requires Inv(s) && i < j < |s.slots|
    requires s.slots[i].Running? && s.slots[j].Running?
    ensures Concurrent(s.actions[i]) && Concurrent(s.actions[j])
    ensures forall k :: 0 <= k < s.start ==> s.slots[k].Done?
  {}

  // ---------------------------------------------------------------------
  // What an interrupt changes
  // ---------------------------------------------------------------------

  /** From an interrupt on, only the group that is open may still move. */
  lemma {:induction false} NoLaterGroup(s: Run, steps: seq<Step>, t: Run)
    requires Inv(s) && s.interrupted && Reaches(s, steps, t)
    ensures t.interrupted && t.end == s.end && |t.slots| == |s.slots|
    ensures forall i :: 0 <= i < |s.slots| && !(s.start <= i < s.end) ==> t.slots[i] == s.slots[i]
    decreases |steps|
  {
    hide Inv;
    if steps != [] {
      InvHasSlots(s);
      StepInv(s, steps[0]);
      NoLaterGroup(Do(s, steps[0]), steps[1..], t);
    }
  }

  lemma InvHasSlots(s: Run)
    requires Inv(s)
    ensures |s.slots| == |s.actions| && s.start <= s.end <= |s.actions|
  {}

  /** What is done stays done with its result, and what is kept stays kept. */
  lemma {:induction false} DoneStays(s: Run, steps: seq<Step>, t: Run)
    requires Inv(s) && Reaches(s, steps, t)
    ensures |t.slots| == |s.slots| && s.completed <= t.completed && (s.interrupted ==> t.interrupted)
    ensures forall i :: 0 <= i < |s.slots| && s.slots[i].Done? ==> t.slots[i] == s.slots[i]
    decreases |steps|
  {
    hide Inv;
    if steps != [] {
      InvHasSlots(s);
      StepInv(s, steps[0]);
      DoneStays(Do(s, steps[0]), steps[1..], t);
    }
  }

  /** After an interrupt, only successes are added to what is kept. */
  lemma {:induction false} OnlySuccessesKept(s: Run, steps: seq<Step>, t: Run, i: nat)
    requires Inv(s) && s.interrupted && Reaches(s, steps, t)
    requires i < |s.slots| && s.actions[i].id !in s.completed && s.actions[i].id in t.completed
    ensures i < |t.slots| && t.slots[i].Done? && !t.slots[i].result.isError
    decreases |steps|
  {
    if steps != [] {
      var u := Do(s, steps[0]);
      StepInv(s, steps[0]);
      if s.actions[i].id in u.completed {
        DoneStays(u, steps[1..], t);
      } else {
        OnlySuccessesKept(u, steps[1..], t, i);
      }
    }
  }

  // ---------------------------------------------------------------------
  // The results of the batch
  // ---------------------------------------------------------------------

  const NO_RESULT: ToolResult := ToolResult("", "", TextResult, "", None, [], "", false)

  /** The result slice; a reminder goes to the end of the last one. */
  function Slice(s: Run, reminder: Text): (r: seq<ToolResult>)
    ensures |r| == |s.slots|
  {
    seq(|s.slots|, i requires 0 <= i < |s.slots| =>
      var r := if s.slots[i].Done? then s.slots[i].result else NO_RESULT;
      if i == |s.slots| - 1 then Reminded(r, reminder) else r)
  }

  function Reminded(r: ToolResult, reminder: Text): ToolResult {
    r.(text := r.text + reminder)
  }

  function Preserved(actions: seq<Action>, results: seq<ToolResult>, completed: set<string>): (r: seq<ToolResult>)
    ensures |r| == |actions|
  {
    seq(|actions|, i requires 0 <= i < |actions| =>
      if actions[i].id in completed && i < |results| then results[i] else Interrupted()(actions[i]))
  }

  method InterruptedActionResultsPreservingCompleted(actions: seq<Action>, results: seq<ToolResult>, completed: set<string>)
    returns (r: seq<ToolResult>)
    ensures r == Preserved(actions, results, completed)
  {
    r := [];
    for i := 0 to |actions|
      invariant |r| == i && forall k :: 0 <= k < i ==> r[k] == Preserved(actions, results, completed)[k]
    {
      if actions[i].id in completed && i < |results| {
        r := r + [results[i]];
        continue;
      }
      r := r + [Interrupted()(actions[i])];
    }
  }

  function Outcome(s: Run, reminder: Text): seq<ToolResult> {
    if s.interrupted then Preserved(s.actions, Slice(s, reminder), s.completed) else Slice(s, reminder)
  }

  /** The result an action itself produced, as it is reported. */
  function OwnResult(s: Run, reminder: Text, i: nat): ToolResult
    requires i < |s.slots| && s.slots[i].Done?
  {
    if i == |s.slots| - 1 then Reminded(s.slots[i].result, reminder) else s.slots[i].result
  }

  lemma {:induction false} IdsByIndex(results: seq<ToolResult>, actions: seq<Action>)
    requires |results| == |actions| && forall i :: 0 <= i < |results| ==> results[i].callId == actions[i].id
    ensures IdsOf(results) == ActionIds(actions)
  {
    if results != [] {
      IdsByIndex(results[1..], actions[1..]);
      assert ActionIds(actions) == [actions[0].id] + ActionIds(actions[1..]);
    }
  }

  /** A finished run has one result per action, in action order: the action's own result if it is
      kept, and otherwise (only after an interrupt) the interruption. */
  lemma OutcomeInOrder(s: Run, reminder: Text)
    requires Inv(s) && Finished(s)
    ensures |Outcome(s, reminder)| == |s.actions| == |s.slots|
    ensures forall i :: 0 <= i < |s.actions| ==>
      if s.actions[i].id in s.completed
      then s.slots[i].Done? && Outcome(s, reminder)[i] == OwnResult(s, reminder, i)
      else s.interrupted && Outcome(s, reminder)[i] == Interrupted()(s.actions[i])
    ensures IdsOf(Outcome(s, reminder)) == ActionIds(s.actions)
  {
    hide NothingTwice, RecordsFirst, EventsFit;
    forall i | 0 <= i < |s.actions| ensures Outcome(s, reminder)[i].callId == s.actions[i].id {
      OutcomeAt(s, reminder, i);
    }
    IdsByIndex(Outcome(s, reminder), s.actions);
  }

  lemma OutcomeAt(s: Run, reminder: Text, i: nat)
    requires SlotsOk(s) && CompletedOk(s) && Finished(s) && i < |s.actions|
    ensures Outcome(s, reminder)[i].callId == s.actions[i].id
  {
    if s.actions[i].id in s.completed || !s.interrupted {
      assert s.slots[i].Done? && Answers(s.actions[i], s.slots[i].result);
      assert Outcome(s, reminder)[i] == Slice(s, reminder)[i] == OwnResult(s, reminder, i);
    } else {
      assert Outcome(s, reminder)[i] == Interrupted()(s.actions[i]);
    }
  }

  /** Which results survive an interrupt: exactly those done before it, and the successes of the
      group that was open. */
  lemma InterruptKeeps(s: Run, before: seq<Step>, m: Run, after: seq<Step>, t: Run, i: nat)
    requires Inv(s) && !s.interrupted
    requires Reaches(s, before, m) && !m.interrupted
    requires Reaches(Do(m, Interrupt), after, t)
    requires i < |s.actions|
    ensures |m.slots| == |t.slots| == |s.actions| && t.actions == s.actions
    ensures s.actions[i].id in t.completed
      <==> m.slots[i].Done? || (t.slots[i].Done? && !t.slots[i].result.isError)
    ensures m.slots[i].Done? ==> t.slots[i] == m.slots[i]
    ensures !(m.start <= i < m.end) ==> t.slots[i] == m.slots[i]
  {
    RunInv(s, before, m);
    var u := Do(m, Interrupt);
    StepInv(m, Interrupt);
    RunInv(u, after, t);
    DoneStays(u, after, t);
    NoLaterGroup(u, after, t);
    if s.actions[i].id in t.completed && s.actions[i].id !in u.completed {
      OnlySuccessesKept(u, after, t, i);
    }
  }
}
