/** Switching the runtime profile while runs come and go: core/agent/runtime_profile.go and
    core/agent/agent.go, lines 630-776 and 1615-1643.

    Every label is one critical section under the agent's lock, or one change of who holds the lock
    that applies profiles. Requests and channels are numbered in the order they are made. */
module RuntimeProfile {
  import opened Wrappers

  datatype Answer = Applied | Failed | Superseded

  /** The one turn loop, from its start over its generation boundaries to its end. */
  datatype RunPhase = NoRun | Fresh | AtBoundary | Between

  /** The goroutine that executes approved actions, and then waits for the run it starts. */
  datatype Approval = NoApproval | Executing | Awaiting

  /** Who holds the apply lock: a run at its boundary, or a goroutine of an idle agent. */
  datatype Holder =
    | Free
    | Looking(boundary: bool)
    | Applying(boundary: bool, request: nat)
    | Answering(boundary: bool, request: nat, ok: bool)

  datatype Runtime = Runtime(
    runtimeActivity: nat,
    profileActivity: nat,
    paused: bool,
    pending: Option<nat>,
    requests: nat,
    idle: nat,
    channels: nat,
    closed: set<nat>,
    run: RunPhase,
    approval: Approval,
    holder: Holder,
    // Goroutines of an idle agent waiting for the apply lock, and done with it.
    waiting: nat,
    ending: nat,
    active: Option<nat>,
    applied: seq<nat>,
    answers: seq<(nat, Answer)>)

  datatype Label =
    | Queue
    | Supersede
    | StartRun
    | ReachBoundary
    | Pause
    | EndRun
    | StartApproved
    | SubmitApproved
    | FailApproved
    | EndApproved
    | Resume
    | AcquireIdle
    | AcquireBoundary
    | Look
    | Apply(ok: bool)
    | Reply
    | EndProfile

  predicate Quiet(s: Runtime) {
    s.runtimeActivity == 0 && s.profileActivity == 0
  }

  predicate CanApply(s: Runtime) {
    s.runtimeActivity == 0 && !s.paused
  }

  function CloseIfQuiet(s: Runtime): Runtime {
    if Quiet(s) then s.(closed := s.closed + {s.idle}) else s
  }

  /** An activity begins: a quiet agent gets a new idle channel. */
  function Reopened(s: Runtime): Runtime {
    if Quiet(s) then s.(closed := s.closed + {s.idle}, idle := s.channels, channels := s.channels + 1) else s
  }

  function BeginRuntime(s: Runtime): Runtime {
    Reopened(s).(runtimeActivity := s.runtimeActivity + 1)
  }

  function BeginProfile(s: Runtime): Runtime {
    Reopened(s).(profileActivity := s.profileActivity + 1, waiting := s.waiting + 1)
  }

  function EndRuntime(s: Runtime): Runtime
    requires s.runtimeActivity > 0
  {
    var t := s.(runtimeActivity := s.runtimeActivity - 1);
    if CanApply(t) then BeginProfile(t) else CloseIfQuiet(t)
  }

  function Answered(s: Runtime, request: nat, answer: Answer): Runtime {
    s.(answers := s.answers + [(request, answer)])
  }

  function Dropped(s: Runtime): Runtime {
    match s.pending
    case None => s
    case Some(r) => Answered(s, r, Superseded).(pending := None)
  }

  /** Giving up the apply lock. */
  function Released(s: Runtime, boundary: bool): Runtime {
    if boundary then s.(holder := Free, run := Between) else s.(holder := Free, ending := s.ending + 1)
  }

  predicate Enabled(s: Runtime, l: Label) {
    match l
    case Queue => true
    case Supersede => true
    case StartRun => s.run == NoRun && !s.paused
    case ReachBoundary => (s.run == Fresh || s.run == Between) && !s.paused
    case Pause => s.run == Between && !s.paused
    case EndRun => s.run == Fresh || s.run == Between
    case StartApproved => s.paused && s.run == NoRun && s.approval == NoApproval
    case SubmitApproved => s.approval == Executing
    case FailApproved => s.approval == Executing
    case EndApproved => s.approval == Awaiting && s.run == NoRun
    case Resume => s.paused && s.run == NoRun && s.approval == NoApproval
    case AcquireIdle => s.holder == Free && s.waiting > 0
    case AcquireBoundary => s.holder == Free && s.run == AtBoundary
    case Look => s.holder.Looking?
    case Apply(_) => s.holder.Applying?
    case Reply => s.holder.Answering?
    case EndProfile => s.ending > 0 && s.profileActivity > 0
  }

  function Do(s: Runtime, l: Label): Runtime
    requires Enabled(s, l)
  {
    match l
    case Queue =>
      var t := Dropped(s).(pending := Some(s.requests), requests := s.requests + 1);
      if CanApply(t) then BeginProfile(t) else t
    case Supersede => Dropped(s)
    case StartRun => BeginRuntime(s).(run := Fresh)
    case ReachBoundary => s.(run := AtBoundary)
    case Pause => s.(paused := true)
    case EndRun => if s.runtimeActivity > 0 then EndRuntime(s).(run := NoRun) else s
    case StartApproved => BeginRuntime(s).(approval := Executing)
    case SubmitApproved => s.(approval := Awaiting, paused := false)
    case FailApproved => if s.runtimeActivity > 0 then EndRuntime(s).(approval := NoApproval) else s
    case EndApproved => if s.runtimeActivity > 0 then EndRuntime(s).(approval := NoApproval) else s
    case Resume => s.(paused := false)
    case AcquireIdle => s.(holder := Looking(false), waiting := s.waiting - 1)
    case AcquireBoundary => s.(holder := Looking(true))
    case Look =>
      var boundary := s.holder.boundary;
      if (!boundary && !CanApply(s)) || s.pending == None then Released(s, boundary)
      else s.(holder := Applying(boundary, s.pending.value), pending := None)
    case Apply(ok) =>
      var h := s.holder;
      if ok then s.(active := Some(h.request), applied := s.applied + [h.request], holder := Answering(h.boundary, h.request, true))
      else s.(holder := Answering(h.boundary, h.request, false))
    case Reply =>
      var h := s.holder;
      var t := Answered(s, h.request, if h.ok then Applied else Failed);
      if h.boundary then t.(holder := Looking(true)) else Released(t, false)
    case EndProfile => CloseIfQuiet(s.(profileActivity := s.profileActivity - 1, ending := s.ending - 1))
  }

  function Begin(): Runtime {
    Runtime(0, 0, false, None, 0, 0, 1, {0}, NoRun, NoApproval, Free, 0, 0, None, [], [])
  }

  // ---------------------------------------------------------------------
  // The critical sections
  // ---------------------------------------------------------------------

  /** The fields the agent's lock guards; what the goroutines are doing is ghost. */
  class Activities {
    var runtimeActivity: nat
    var profileActivity: nat
    var hasPendingActions: bool
    var pendingProfile: Option<nat>
    var runtimeIdle: nat
    var activeProfile: Option<nat>
    /** Requests and channels made so far, channels closed, and the answers sent. */
    var requests: nat
    var channels: nat
    var closed: set<nat>
    var answers: seq<(nat, Answer)>
    ghost var applied: seq<nat>
    ghost var run: RunPhase
    ghost var approval: Approval
    ghost var holder: Holder
    ghost var waiting: nat
    ghost var ending: nat

    ghost function State(): Runtime
      reads this
    {
      Runtime(runtimeActivity, profileActivity, hasPendingActions, pendingProfile, requests, runtimeIdle, channels, closed,
              run, approval, holder, waiting, ending, activeProfile, applied, answers)
    }

    constructor ()
      ensures State() == Begin()
    {
      runtimeActivity, profileActivity, hasPendingActions, pendingProfile := 0, 0, false, None;
      runtimeIdle, activeProfile, requests, channels, closed, answers := 0, None, 0, 1, {0}, [];
      applied, run, approval, holder, waiting, ending := [], NoRun, NoApproval, Free, 0, 0;
    }

    method ReplaceIdleIfQuiet()
      modifies this`closed, this`runtimeIdle, this`channels
      ensures State() == Reopened(old(State()))
    {
      if runtimeActivity == 0 && profileActivity == 0 {
        closed := closed + {runtimeIdle};
        runtimeIdle := channels;
        channels := channels + 1;
      }
    }

    method CloseRuntimeIdleLocked()
      modifies this`closed
      ensures State() == CloseIfQuiet(old(State()))
    {
      if runtimeActivity == 0 && profileActivity == 0 {
        closed := closed + {runtimeIdle};
      }
    }

    method BeginRuntimeActivityLocked()
      modifies this`closed, this`runtimeIdle, this`channels, this`runtimeActivity
      ensures State() == BeginRuntime(old(State()))
    {
      ReplaceIdleIfQuiet();
      runtimeActivity := runtimeActivity + 1;
    }

    method BeginProfileActivityLocked()
      modifies this`closed, this`runtimeIdle, this`channels, this`profileActivity, this`waiting
      ensures State() == BeginProfile(old(State()))
    {
      ReplaceIdleIfQuiet();
      profileActivity := profileActivity + 1;
      waiting := waiting + 1;
    }

    /** Supersedes an older request, and applies at once if nothing is running. */
    method QueueRuntimeProfile() returns (request: nat, applyNow: bool)
      modifies this
      ensures State() == Do(old(State()), Queue) && request == old(requests)
      ensures applyNow <==> CanApply(old(State()))
    {
      if pendingProfile.Some? {
        answers := answers + [(pendingProfile.value, Superseded)];
      }
      request := requests;
      pendingProfile := Some(request);
      requests := requests + 1;
      applyNow := runtimeActivity == 0 && !hasPendingActions;
      if applyNow {
        BeginProfileActivityLocked();
      }
    }

    method SupersedePendingRuntimeProfile()
      modifies this
      ensures State() == Do(old(State()), Supersede)
    {
      if pendingProfile == None {
        return;
      }
      answers := answers + [(pendingProfile.value, Superseded)];
      pendingProfile := None;
    }

    /** The end of the turn loop; an idle agent then applies what is pending. */
    method EndRuntimeActivity() returns (applyNow: bool)
      requires Enabled(State(), EndRun) && runtimeActivity > 0
      modifies this
      ensures State() == Do(old(State()), EndRun)
      ensures applyNow <==> old(runtimeActivity) == 1 && !old(hasPendingActions)
    {
      if runtimeActivity > 0 {
        runtimeActivity := runtimeActivity - 1;
      }
      applyNow := runtimeActivity == 0 && !hasPendingActions;
      if applyNow {
        BeginProfileActivityLocked();
      } else {
        CloseRuntimeIdleLocked();
      }
      run := NoRun;
    }

    method EndProfileActivity()
      requires Enabled(State(), EndProfile)
      modifies this
      ensures State() == Do(old(State()), EndProfile)
    {
      profileActivity := profileActivity - 1;
      ending := ending - 1;
      CloseRuntimeIdleLocked();
    }

    /** One look of the apply loop, under the apply lock: the request to prepare, if any. */
    method TakeRequest(generationBoundary: bool) returns (request: Option<nat>)
      requires Enabled(State(), Look) && holder == Looking(generationBoundary)
      modifies this
      ensures State() == Do(old(State()), Look)
      ensures request == if !generationBoundary && !CanApply(old(State())) then None else old(pendingProfile)
    {
      if !generationBoundary && !(runtimeActivity == 0 && !hasPendingActions) {
        Leave(generationBoundary);
        return None;
      }
      request := pendingProfile;
      pendingProfile := None;
      if request == None {
        Leave(generationBoundary);
        return;
      }
      holder := Applying(generationBoundary, request.value);
    }

    ghost method Leave(boundary: bool)
      modifies this`holder, this`run, this`ending
      ensures State() == Released(old(State()), boundary)
    {
      holder := Free;
      if boundary {
        run := Between;
      } else {
        ending := ending + 1;
      }
    }
  }
}
