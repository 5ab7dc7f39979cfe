/** What profile switching keeps in every interleaving: core/agent/runtime_profile.go. */
module ProfileSafety {
  import opened Wrappers
  import opened RuntimeProfile

  // ---------------------------------------------------------------------
  // What holds in every state
  // ---------------------------------------------------------------------

  function One(b: bool): nat {
    if b then 1 else 0
  }

  /** The counters count what is going on. */
  predicate Counted(s: Runtime) {
    && s.runtimeActivity == One(s.run != NoRun) + One(s.approval != NoApproval)
    && s.profileActivity == s.waiting + One(s.holder != Free && !s.holder.boundary) + s.ending
  }

  /** The current idle channel is closed exactly while nothing is going on. */
  predicate IdleOk(s: Runtime) {
    && s.idle < s.channels
    && (forall c :: c in s.closed ==> c < s.channels)
    && (s.idle in s.closed <==> Quiet(s))
  }

  predicate InHand(s: Runtime) {
    s.holder.Applying? || s.holder.Answering?
  }

  /** Requests without an answer: pending, or in the hand of whoever applies profiles. */
  function Unanswered(s: Runtime): set<nat> {
    (if s.pending.Some? then {s.pending.value} else {}) + (if InHand(s) then {s.holder.request} else {})
  }

  ghost predicate IsAnswered(answers: seq<(nat, Answer)>, r: nat) {
    exists k :: 0 <= k < |answers| && answers[k].0 == r
  }

  /** Each of the first `n` requests is answered once, or not answered yet. */
  ghost predicate AccountsOk(answers: seq<(nat, Answer)>, n: nat, unanswered: set<nat>) {
    && (forall j, k :: 0 <= j < k < |answers| ==> answers[j].0 != answers[k].0)
    && (forall k :: 0 <= k < |answers| ==> answers[k].0 < n && answers[k].0 !in unanswered)
    && (forall r :: 0 <= r < n && r !in unanswered ==> IsAnswered(answers, r))
    && (forall r :: r in unanswered ==> r < n)
  }

  ghost predicate AnswersOk(s: Runtime) {
    AccountsOk(s.answers, s.requests, Unanswered(s))
  }

  /** Requests take effect in the order they were queued. */
  predicate OrderOk(s: Runtime) {
    && (s.pending.Some? ==> s.pending.value < s.requests)
    && (InHand(s) ==> s.holder.request < s.requests && (s.pending.Some? ==> s.holder.request < s.pending.value))
    && (forall j, k :: 0 <= j < k < |s.applied| ==> s.applied[j] < s.applied[k])
    && (forall k :: 0 <= k < |s.applied| ==>
      && s.applied[k] < s.requests
      && (s.pending.Some? ==> s.applied[k] < s.pending.value)
      && (s.holder.Applying? ==> s.applied[k] < s.holder.request)
      && (s.holder.Answering? ==> s.applied[k] <= s.holder.request))
  }

  /** Only what was applied is answered so, and what was applied is answered so or about to be. */
  ghost predicate EffectOk(s: Runtime) {
    && (s.active == if s.applied == [] then None else Some(s.applied[|s.applied| - 1]))
    && (forall k :: 0 <= k < |s.answers| ==> (s.answers[k].1 == Applied <==> s.answers[k].0 in s.applied))
    && (s.holder.Answering? ==> (s.holder.ok <==> s.holder.request in s.applied))
  }

  /** A switch is prepared only outside the stretch between two boundaries, and away from approved tools. */
  predicate PhaseOk(s: Runtime) {
    && (s.holder != Free && s.holder.boundary ==> s.run == AtBoundary)
    && (InHand(s) && !s.holder.boundary ==> s.run != Between && !s.paused && s.approval == NoApproval)
    && (s.approval == Executing ==> s.paused && s.run == NoRun)
    && (s.paused ==> s.run == Between || s.run == NoRun)
  }

  ghost predicate Inv(s: Runtime) {
    Counted(s) && IdleOk(s) && AnswersOk(s) && OrderOk(s) && EffectOk(s) && PhaseOk(s)
  }

  /** A new agent is idle and in order; every run from here on is covered. */
  lemma BeginInv()
    ensures Inv(Begin())
  {}

  predicate OfRuns(l: Label) {
    l.Queue? || l.Supersede? || l.StartRun? || l.ReachBoundary? || l.Pause? || l.EndRun?
  }

  predicate OfApprovals(l: Label) {
    l.StartApproved? || l.SubmitApproved? || l.FailApproved? || l.EndApproved? || l.Resume?
  }

  lemma CountedRuns(s: Runtime, l: Label)
    requires Counted(s) && PhaseOk(s) && Enabled(s, l) && OfRuns(l)
    ensures Counted(Do(s, l))
  {}

  lemma CountedApprovals(s: Runtime, l: Label)
    requires Counted(s) && PhaseOk(s) && Enabled(s, l) && OfApprovals(l)
    ensures Counted(Do(s, l))
  {}

  lemma CountedHolders(s: Runtime, l: Label)
    requires Counted(s) && PhaseOk(s) && Enabled(s, l) && !OfRuns(l) && !OfApprovals(l)
    ensures Counted(Do(s, l))
  {}

  lemma IdleRuns(s: Runtime, l: Label)
    requires Counted(s) && IdleOk(s) && PhaseOk(s) && Enabled(s, l) && OfRuns(l)
    ensures IdleOk(Do(s, l))
  {}

  lemma IdleApprovals(s: Runtime, l: Label)
    requires Counted(s) && IdleOk(s) && PhaseOk(s) && Enabled(s, l) && OfApprovals(l)
    ensures IdleOk(Do(s, l))
  {}

  lemma IdleHolders(s: Runtime, l: Label)
    requires Counted(s) && IdleOk(s) && PhaseOk(s) && Enabled(s, l) && !OfRuns(l) && !OfApprovals(l)
    ensures IdleOk(Do(s, l))
  {}

  lemma PhaseRuns(s: Runtime, l: Label)
    requires Counted(s) && PhaseOk(s) && Enabled(s, l) && OfRuns(l)
    ensures PhaseOk(Do(s, l))
  {}

  lemma PhaseApprovals(s: Runtime, l: Label)
    requires Counted(s) && PhaseOk(s) && Enabled(s, l) && OfApprovals(l)
    ensures PhaseOk(Do(s, l))
  {}

  lemma PhaseHolders(s: Runtime, l: Label)
    requires Counted(s) && PhaseOk(s) && Enabled(s, l) && !OfRuns(l) && !OfApprovals(l)
    ensures PhaseOk(Do(s, l))
  {}

  lemma OrderRuns(s: Runtime, l: Label)
    requires OrderOk(s) && Enabled(s, l) && OfRuns(l)
    ensures OrderOk(Do(s, l))
  {}

  lemma OrderApprovals(s: Runtime, l: Label)
    requires OrderOk(s) && Enabled(s, l) && OfApprovals(l)
    ensures OrderOk(Do(s, l))
  {}

  lemma OrderHolders(s: Runtime, l: Label)
    requires OrderOk(s) && Enabled(s, l) && !OfRuns(l) && !OfApprovals(l)
    ensures OrderOk(Do(s, l))
  {}

  /** Steps that touch no request leave the accounts as they are. */
  predicate SameRequests(s: Runtime, t: Runtime) {
    && t.pending == s.pending && t.requests == s.requests && t.answers == s.answers && t.applied == s.applied
    && t.active == s.active
    && (t.holder == s.holder || (!InHand(s) && !InHand(t)))
  }

  predicate TouchesRequests(l: Label) {
    l.Queue? || l.Supersede? || l.Look? || l.Apply? || l.Reply?
  }

  lemma OthersLeaveRequests(s: Runtime, l: Label)
    requires Enabled(s, l) && !TouchesRequests(l)
    ensures SameRequests(s, Do(s, l))
  {}

  lemma SameAccounts(s: Runtime, t: Runtime)
    requires SameRequests(s, t) && AnswersOk(s) && EffectOk(s)
    ensures AnswersOk(t) && EffectOk(t)
  {
    hide AccountsOk;
    assert Unanswered(s) == Unanswered(t);
  }

  lemma OneAnswered(answers: seq<(nat, Answer)>, n: nat, unanswered: set<nat>, r: nat, answer: Answer)
    requires AccountsOk(answers, n, unanswered) && r in unanswered
    ensures AccountsOk(answers + [(r, answer)], n, unanswered - {r})
  {
    var after := answers + [(r, answer)];
    assert after[|answers|] == (r, answer);
    forall x | 0 <= x < n && x !in unanswered - {r} ensures IsAnswered(after, x) {
      if x != r {
        var k :| 0 <= k < |answers| && answers[k].0 == x;
        assert after[k].0 == x;
      }
    }
  }

  lemma OneAsked(answers: seq<(nat, Answer)>, n: nat, unanswered: set<nat>)
    requires AccountsOk(answers, n, unanswered)
    ensures AccountsOk(answers, n + 1, unanswered + {n})
  {}

  lemma DroppedAccounts(s: Runtime)
    requires AnswersOk(s) && OrderOk(s) && EffectOk(s)
    ensures AnswersOk(Dropped(s)) && EffectOk(Dropped(s))
  {
    hide AccountsOk;
    if s.pending.Some? {
      OneAnswered(s.answers, s.requests, Unanswered(s), s.pending.value, Superseded);
      assert Unanswered(Dropped(s)) == Unanswered(s) - {s.pending.value};
      PendingUnapplied(s);
    }
  }

  lemma PendingUnapplied(s: Runtime)
    requires OrderOk(s)
    ensures s.pending.Some? ==> s.pending.value !in s.applied
  {}

  lemma QueueAccounts(s: Runtime)
    requires AnswersOk(s) && OrderOk(s) && EffectOk(s)
    ensures AnswersOk(Do(s, Queue)) && EffectOk(Do(s, Queue))
  {
    hide AccountsOk, OrderOk, EffectOk;
    DroppedAccounts(s);
    var d := Dropped(s);
    var t := d.(pending := Some(s.requests), requests := s.requests + 1);
    OneAsked(d.answers, d.requests, Unanswered(d));
    assert Unanswered(t) == Unanswered(d) + {s.requests};
    QueuedEffect(d, t);
    SameAccounts(t, Do(s, Queue));
  }

  lemma QueuedEffect(d: Runtime, t: Runtime)
    requires EffectOk(d) && t.active == d.active && t.applied == d.applied && t.answers == d.answers && t.holder == d.holder
    ensures EffectOk(t)
  {}

  lemma LookAccounts(s: Runtime)
    requires AnswersOk(s) && OrderOk(s) && EffectOk(s) && Enabled(s, Look)
    ensures AnswersOk(Do(s, Look)) && EffectOk(Do(s, Look))
  {
    hide AccountsOk, OrderOk;
    assert Unanswered(Do(s, Look)) == Unanswered(s);
  }

  lemma ApplyAccounts(s: Runtime, l: Label)
    requires AnswersOk(s) && OrderOk(s) && EffectOk(s) && l.Apply? && Enabled(s, l)
    ensures AnswersOk(Do(s, l)) && EffectOk(Do(s, l))
  {
    hide OrderOk;
    var t := Do(s, l);
    assert Unanswered(t) == Unanswered(s);
    HandUnapplied(s);
    ApplyEffect(s, t, l.ok);
  }

  lemma HandUnapplied(s: Runtime)
    requires OrderOk(s) && s.holder.Applying?
    ensures s.holder.request !in s.applied
  {}

  lemma ApplyEffect(s: Runtime, t: Runtime, ok: bool)
    requires EffectOk(s) && s.holder.Applying? && s.holder.request !in s.applied
    requires forall k :: 0 <= k < |s.answers| ==> s.answers[k].0 != s.holder.request
    requires t.answers == s.answers && t.holder == Answering(s.holder.boundary, s.holder.request, ok)
    requires t.applied == s.applied + if ok then [s.holder.request] else []
    requires t.active == if ok then Some(s.holder.request) else s.active
    ensures EffectOk(t)
  {
    if !ok {
      assert t.applied == s.applied;
    }
  }

  lemma ReplyAccounts(s: Runtime)
    requires AnswersOk(s) && OrderOk(s) && EffectOk(s) && Enabled(s, Reply)
    ensures AnswersOk(Do(s, Reply)) && EffectOk(Do(s, Reply))
  {
    hide AccountsOk;
    var t := Do(s, Reply);
    OneAnswered(s.answers, s.requests, Unanswered(s), s.holder.request, if s.holder.ok then Applied else Failed);
    assert Unanswered(t) == Unanswered(s) - {s.holder.request};
  }

  lemma AccountsStep(s: Runtime, l: Label)
    requires AnswersOk(s) && OrderOk(s) && EffectOk(s) && Enabled(s, l)
    ensures AnswersOk(Do(s, l)) && EffectOk(Do(s, l))
  {
    hide AnswersOk, OrderOk, EffectOk;
    match l
    case Queue => QueueAccounts(s);
    case Supersede => DroppedAccounts(s);
    case Look => LookAccounts(s);
    case Apply(_) => ApplyAccounts(s, l);
    case Reply => ReplyAccounts(s);
    case _ =>
      OthersLeaveRequests(s, l);
      SameAccounts(s, Do(s, l));
  }

  lemma StepInv(s: Runtime, l: Label)
    requires Inv(s) && Enabled(s, l)
    ensures Inv(Do(s, l))
  {
    hide Counted, IdleOk, AnswersOk, OrderOk, EffectOk, PhaseOk, Enabled, Do, OfRuns, OfApprovals;
    AccountsStep(s, l);
    if OfRuns(l) {
      CountedRuns(s, l);
      IdleRuns(s, l);
      PhaseRuns(s, l);
      OrderRuns(s, l);
    } else if OfApprovals(l) {
      CountedApprovals(s, l);
      IdleApprovals(s, l);
      PhaseApprovals(s, l);
      OrderApprovals(s, l);
    } else {
      CountedHolders(s, l);
      IdleHolders(s, l);
      PhaseHolders(s, l);
      OrderHolders(s, l);
    }
  }

  ghost predicate Reaches(s: Runtime, run: seq<Label>, t: Runtime)
    decreases |run|
  {
    if run == [] then s == t else Enabled(s, run[0]) && Reaches(Do(s, run[0]), run[1..], t)
  }

  lemma {:induction false} RunInv(s: Runtime, run: seq<Label>, t: Runtime)
    requires Inv(s) && Reaches(s, run, t)
    ensures Inv(t)
    decreases |run|
  {
    hide Inv, Enabled, Do;
    if run != [] {
      StepInv(s, run[0]);
      RunInv(Do(s, run[0]), run[1..], t);
    }
  }

  // ---------------------------------------------------------------------
  // The promises
  // ---------------------------------------------------------------------

  /** In every interleaving the current idle channel is closed exactly while no activity is counted,
      and an activity is counted exactly while a run, an approval or a switch is going on. */
  lemma IdleMeansIdle(s: Runtime, run: seq<Label>, t: Runtime)
    requires Inv(s) && Reaches(s, run, t)
    ensures t.idle in t.closed <==> t.runtimeActivity == 0 && t.profileActivity == 0
    ensures t.runtimeActivity == 0 <==> t.run == NoRun && t.approval == NoApproval
    ensures t.profileActivity == 0 ==> InHand(t) ==> t.holder.boundary
  {
    RunInv(s, run, t);
  }

  /** A caller that waits for idleness and sees the channel it took closed, unreplaced and nothing
      counted, returns to a quiet agent; and while the agent is quiet the channel does not block. */
  lemma WaitingNeverBlocksOnIdle(s: Runtime, run: seq<Label>, t: Runtime, taken: nat)
    requires Inv(s) && Reaches(s, run, t)
    ensures Quiet(t) && taken == t.idle ==> taken in t.closed
    ensures taken == t.idle && taken in t.closed ==> t.run == NoRun && t.approval == NoApproval
  {
    RunInv(s, run, t);
  }

  /** Every request gets at most one answer, and has it unless it is still pending or in hand; the
      ones that were applied were applied in the order they were queued, and a superseded one never is. */
  lemma RequestsAnsweredOnce(s: Runtime, run: seq<Label>, t: Runtime)
    requires Inv(s) && Reaches(s, run, t)
    ensures forall j, k :: 0 <= j < k < |t.answers| ==> t.answers[j].0 != t.answers[k].0
    ensures forall r :: 0 <= r < t.requests && r !in Unanswered(t) ==> IsAnswered(t.answers, r)
    ensures forall j, k :: 0 <= j < k < |t.applied| ==> t.applied[j] < t.applied[k]
    ensures forall k :: 0 <= k < |t.answers| && t.answers[k].1 != Applied ==> t.answers[k].0 !in t.applied
  {
    RunInv(s, run, t);
    hide Counted, IdleOk, PhaseOk;
  }

  /** No switch takes effect between one generation boundary of a run and its next, nor while approved
      tools are executing. */
  lemma SwitchesOnlyAtBoundaries(s: Runtime, run: seq<Label>, t: Runtime, l: Label)
    requires Inv(s) && Reaches(s, run, t) && Enabled(t, l)
    requires Do(t, l).active != t.active
    ensures t.run != Between && t.approval != Executing
  {
    RunInv(s, run, t);
    OnlyApplySwitches(t, l);
  }

  lemma OnlyApplySwitches(s: Runtime, l: Label)
    requires Enabled(s, l) && Do(s, l).active != s.active
    ensures l.Apply?
  {}
}
