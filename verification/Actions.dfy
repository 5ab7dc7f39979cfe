/** Pending actions and the results that answer them: core/agent/agent.go, lines 1243-1290, 1490-1534
    and 1695-1770, and core/agent/snapshot_recovery.go. */
module Actions {
  import opened Wrappers
  import opened Utf8
  import opened Spaces
  import opened Sorting
  import opened Messages
  import opened Conversation

  datatype Decision = AutoExecute | RequireApproval | Block

  /** A classified tool call; `order` is its position among the calls of its message. */
  datatype Action = Action(
    id: string,
    name: string,
    order: int,
    decision: Decision,
    reason: Text,
    riskSafe: bool,
    requiresSnapshot: bool,
    exploreSpawn: bool)

  /** The actions of one assistant message, in call order. */
  ghost predicate IsBatch(batch: seq<Action>) {
    && (forall i :: 0 <= i < |batch| ==> batch[i].order == i)
    && (forall i, j :: 0 <= i < j < |batch| ==> batch[i].id != batch[j].id)
  }

  function ActionIds(actions: seq<Action>): (ids: seq<string>)
    ensures |ids| == |actions| && forall i :: 0 <= i < |ids| ==> ids[i] == actions[i].id
  {
    seq(|actions|, i requires 0 <= i < |actions| => actions[i].id)
  }

  /** One result for each action. */
  function ResultsOf(actions: seq<Action>, f: Action -> ToolResult): seq<ToolResult> {
    if actions == [] then [] else [f(actions[0])] + ResultsOf(actions[1..], f)
  }

  function Only(actions: seq<Action>, d: Decision): seq<Action> {
    if actions == [] then []
    else (if actions[0].decision == d then [actions[0]] else []) + Only(actions[1..], d)
  }

  function OrderKey(): Action -> int {
    (a: Action) => a.order
  }

  function Ordered(actions: seq<Action>): seq<Action> {
    StableSort(actions, OrderKey())
  }

  // ---------------------------------------------------------------------
  // Putting a split batch together again
  // ---------------------------------------------------------------------

  lemma {:induction false} SplitPermutes(batch: seq<Action>)
    ensures multiset(Only(batch, AutoExecute)) + multiset(Only(batch, Block)) + multiset(Only(batch, RequireApproval))
      == multiset(batch)
  {
    if batch != [] {
      SplitPermutes(batch[1..]);
      assert batch == [batch[0]] + batch[1..];
      var d := batch[0].decision;
      OnlyStep(batch, AutoExecute);
      OnlyStep(batch, Block);
      OnlyStep(batch, RequireApproval);
    }
  }

  lemma OnlyStep(batch: seq<Action>, d: Decision)
    requires batch != []
    ensures multiset(Only(batch, d))
      == (if batch[0].decision == d then multiset{batch[0]} else multiset{}) + multiset(Only(batch[1..], d))
  {}

  /** Sorting by order restores the batch from any arrangement of its actions. */
  lemma OrderedRestores(parts: seq<Action>, batch: seq<Action>)
    requires IsBatch(batch) && multiset(parts) == multiset(batch)
    ensures Ordered(parts) == batch
  {
    SortRestores(parts, batch, OrderKey());
  }

  // ---------------------------------------------------------------------
  // Results in action order
  // ---------------------------------------------------------------------

  function Denial(id: string, name: string, reason: Text): ToolResult {
    ToolResult(id, name, ExecutionDenied, "", None, [], reason, true)
  }

  const STEERED: Text := "interrupted_by_steering"
  const BATCH_DENIED: Text := "another tool call in the batch was denied"

  function Interrupted(): Action -> ToolResult {
    (a: Action) => Denial(a.id, a.name, STEERED)
  }

  function Skipped(reason: Text): Action -> ToolResult {
    (a: Action) => Denial(a.id, a.name, "Skipped because " + if reason == "" then BATCH_DENIED else reason)
  }

  lemma {:induction false} ResultsAnswer(actions: seq<Action>, f: Action -> ToolResult)
    requires forall i :: 0 <= i < |actions| ==> f(actions[i]).callId == actions[i].id
    ensures |ResultsOf(actions, f)| == |actions|
    ensures IdsOf(ResultsOf(actions, f)) == ActionIds(actions)
  {
    if actions != [] {
      ResultsAnswer(actions[1..], f);
      assert ActionIds(actions) == [actions[0].id] + ActionIds(actions[1..]);
    }
  }

  lemma {:induction false} ResultsAt(actions: seq<Action>, f: Action -> ToolResult, i: nat)
    requires i < |actions|
    ensures i < |ResultsOf(actions, f)| && ResultsOf(actions, f)[i] == f(actions[i])
  {
    if i > 0 {
      ResultsAt(actions[1..], f, i - 1);
    }
  }

  lemma {:induction false} ResultsConcat(a: seq<Action>, b: seq<Action>, f: Action -> ToolResult)
    ensures ResultsOf(a + b, f) == ResultsOf(a, f) + ResultsOf(b, f)
  {
    if a == [] {
      assert a + b == b;
    } else {
      assert (a + b)[0] == a[0] && (a + b)[1..] == a[1..] + b;
      ResultsConcat(a[1..], b, f);
    }
  }

  lemma {:induction false} InsertResult(a: Action, s: seq<Action>, f: Action -> ToolResult, order: Action -> int,
                                        key: ToolResult -> int)
    requires key(f(a)) == order(a) && forall i :: 0 <= i < |s| ==> key(f(s[i])) == order(s[i])
    ensures Insert(f(a), ResultsOf(s, f), key) == ResultsOf(Insert(a, s, order), f)
  {
    if s != [] {
      assert ResultsOf(s, f)[1..] == ResultsOf(s[1..], f);
      if order(a) > order(s[0]) {
        InsertResult(a, s[1..], f, order, key);
        assert Insert(a, s, order) == [s[0]] + Insert(a, s[1..], order);
        assert Insert(a, s, order)[1..] == Insert(a, s[1..], order);
      } else {
        assert Insert(a, s, order) == [a] + s;
        assert ([a] + s)[1..] == s;
      }
    }
  }

  /** Sorting results by a key of their actions gives the results of the sorted actions. */
  lemma {:induction false} SortResults(s: seq<Action>, f: Action -> ToolResult, order: Action -> int, key: ToolResult -> int)
    requires forall i :: 0 <= i < |s| ==> key(f(s[i])) == order(s[i])
    ensures StableSort(ResultsOf(s, f), key) == ResultsOf(StableSort(s, order), f)
  {
    if s != [] {
      SortResults(s[1..], f, order, key);
      var tail := StableSort(s[1..], order);
      SortSorts(s[1..], order);
      forall i | 0 <= i < |tail| ensures key(f(tail[i])) == order(tail[i]) {
        assert tail[i] in multiset(s[1..]);
        assert tail[i] in s[1..];
      }
      InsertResult(s[0], tail, f, order, key);
    }
  }

  // ---------------------------------------------------------------------
  // Denial
  // ---------------------------------------------------------------------

  type Decisions = map<string, ToolResult>

  predicate IsDenied(decisions: Decisions, a: Action) {
    a.id in decisions && decisions[a.id].kind == ExecutionDenied
  }

  const USER_DENIED: Text := "User denied permission"

  function DeniedResult(decisions: Decisions, a: Action): ToolResult
    requires IsDenied(decisions, a)
  {
    var r := decisions[a.id];
    r.(toolName := if r.toolName == "" then a.name else r.toolName,
       reason := if r.reason == "" then USER_DENIED else r.reason,
       isError := true)
  }

  /** The caller's denials are stored under the call they deny. */
  predicate KeyedByCall(decisions: Decisions) {
    forall id :: id in decisions ==> decisions[id].callId == id
  }

  function DeniedReasons(decisions: Decisions, pending: seq<Action>): seq<Text> {
    if pending == [] then []
    else (if IsDenied(decisions, pending[0]) then [DeniedResult(decisions, pending[0]).reason] else [])
         + DeniedReasons(decisions, pending[1..])
  }

  function CommonReason(reasons: seq<Text>): Text {
    if reasons == [] then BATCH_DENIED
    else if Trim(reasons[0]) != "" then Trim(reasons[0])
    else CommonReason(reasons[1..])
  }

  /** How each call of a partly denied batch is answered: by its own denial, or by the common one. */
  function Verdict(decisions: Decisions, reason: Text): Action -> ToolResult {
    (a: Action) =>
      if a.decision != RequireApproval then Passed(reason)(a)
      else if IsDenied(decisions, a) then DeniedResult(decisions, a)
      else Skipped(reason)(a)
  }

  /** How a call that needed no approval is answered when its batch does not run. */
  function Passed(reason: Text): Action -> ToolResult {
    if reason == STEERED then Interrupted() else Skipped(reason)
  }

  /** The order of the last action with this id; 0 for an unknown one. */
  function OrderOf(actions: seq<Action>, id: string): int {
    if actions == [] then 0
    else if actions[|actions| - 1].id == id then actions[|actions| - 1].order
    else OrderOf(actions[..|actions| - 1], id)
  }

  /** The position of the first result for this call. */
  function FirstOf(outputs: seq<ToolResult>, id: string): nat {
    if outputs == [] || outputs[0].callId == id then 0 else 1 + FirstOf(outputs[1..], id)
  }

  /** Deferred calls sort by their order, others behind them as they come. */
  function MergeOrder(deferred: seq<Action>, outputs: seq<ToolResult>, id: string): int {
    if id in ActionIds(deferred) then OrderOf(deferred, id) else |deferred| + FirstOf(outputs, id)
  }

  function MergeKey(deferred: seq<Action>, outputs: seq<ToolResult>): ToolResult -> int {
    (r: ToolResult) => MergeOrder(deferred, outputs, r.callId)
  }

  /** The outputs with an answer added for each deferred call. */
  function Merged(deferred: seq<Action>, outputs: seq<ToolResult>, reason: Text): seq<ToolResult> {
    StableSort(ResultsOf(deferred, Passed(reason)) + outputs, MergeKey(deferred, outputs))
  }

  function ByOrder(actions: seq<Action>): ToolResult -> int {
    (r: ToolResult) => OrderOf(actions, r.callId)
  }

  function DeniedOnes(decisions: Decisions, pending: seq<Action>): seq<Action> {
    if pending == [] then []
    else (if IsDenied(decisions, pending[0]) then [pending[0]] else []) + DeniedOnes(decisions, pending[1..])
  }

  function ApprovedOnes(decisions: Decisions, pending: seq<Action>): seq<Action> {
    if pending == [] then []
    else (if IsDenied(decisions, pending[0]) then [] else [pending[0]]) + ApprovedOnes(decisions, pending[1..])
  }

  // ---------------------------------------------------------------------
  // Methods
  // ---------------------------------------------------------------------

  /** Sorts the actions of a message by what may happen to them. */
  method Split(batch: seq<Action>) returns (auto: seq<Action>, approval: seq<Action>, blocked: seq<Action>)
    ensures auto == Only(batch, AutoExecute) && approval == Only(batch, RequireApproval) && blocked == Only(batch, Block)
  {
    auto, approval, blocked := [], [], [];
    for i := 0 to |batch|
      invariant auto == Only(batch[..i], AutoExecute)
      invariant approval == Only(batch[..i], RequireApproval)
      invariant blocked == Only(batch[..i], Block)
    {
      assert batch[..i + 1] == batch[..i] + [batch[i]];
      OnlySnoc(batch[..i], batch[i], AutoExecute);
      OnlySnoc(batch[..i], batch[i], RequireApproval);
      OnlySnoc(batch[..i], batch[i], Block);
      match batch[i].decision {
        case AutoExecute => auto := auto + [batch[i]];
        case RequireApproval => approval := approval + [batch[i]];
        case Block => blocked := blocked + [batch[i]];
      }
    }
    assert batch[..|batch|] == batch;
  }

  lemma {:induction false} OnlySnoc(s: seq<Action>, a: Action, d: Decision)
    ensures Only(s + [a], d) == Only(s, d) + if a.decision == d then [a] else []
  {
    if s != [] {
      assert (s + [a])[0] == s[0] && (s + [a])[1..] == s[1..] + [a];
      OnlySnoc(s[1..], a, d);
    }
  }

  method MapResults(actions: seq<Action>, f: Action -> ToolResult) returns (results: seq<ToolResult>)
    ensures results == ResultsOf(actions, f)
  {
    results := [];
    for i := 0 to |actions|
      invariant results == ResultsOf(actions[..i], f)
    {
      assert actions[..i + 1] == actions[..i] + [actions[i]];
      ResultsConcat(actions[..i], [actions[i]], f);
      assert [actions[i]][1..] == [];
      results := results + [f(actions[i])];
    }
    assert actions[..|actions|] == actions;
  }

  method MergeDeferredSkippedResults(deferred: seq<Action>, outputs: seq<ToolResult>, reason: Text)
    returns (results: seq<ToolResult>)
    ensures results == Merged(deferred, outputs, reason)
  {
    hide Passed, ResultsOf, OrderOf, StableSort;
    var passed := MapResults(deferred, Passed(reason));
    results := passed + outputs;
    var orderById := OrderById(deferred);
    for i := 0 to |outputs|
      invariant forall id :: id in ActionIds(deferred) ==> id in orderById && orderById[id] == OrderOf(deferred, id)
      invariant forall id :: id !in ActionIds(deferred) ==>
        (id in orderById <==> FirstOf(outputs, id) < i)
        && (id in orderById ==> orderById[id] == |deferred| + FirstOf(outputs, id))
    {
      FirstIs(outputs, outputs[i].callId, i);
      var id := outputs[i].callId;
      if id !in orderById {
        orderById := orderById[id := |deferred| + i];
      }
      forall other | other != id ensures FirstOf(outputs, other) < i + 1 <==> FirstOf(outputs, other) < i {
        FirstNames(outputs, other);
      }
    }
    var key := (r: ToolResult) => if r.callId in orderById then orderById[r.callId] else 0;
    forall k | 0 <= k < |results| ensures key(results[k]) == MergeKey(deferred, outputs)(results[k]) {
      if k < |passed| {
        PassedId(deferred, reason, k);
      } else {
        FirstIs(outputs, results[k].callId, k - |passed|);
      }
    }
    SortCongruent(results, key, MergeKey(deferred, outputs));
    results := StableSort(results, key);
  }

  lemma PassedId(deferred: seq<Action>, reason: Text, k: nat)
    requires k < |ResultsOf(deferred, Passed(reason))|
    ensures ResultsOf(deferred, Passed(reason))[k].callId in ActionIds(deferred)
  {
    ResultsAnswer(deferred, Passed(reason));
    ResultsAt(deferred, Passed(reason), k);
    assert ResultsOf(deferred, Passed(reason))[k].callId == ActionIds(deferred)[k];
  }

  lemma {:induction false} FirstIs(outputs: seq<ToolResult>, id: string, i: nat)
    requires i < |outputs| && outputs[i].callId == id
    ensures FirstOf(outputs, id) <= i
  {
    if i > 0 && outputs[0].callId != id {
      FirstIs(outputs[1..], id, i - 1);
    }
  }

  lemma {:induction false} FirstNames(outputs: seq<ToolResult>, id: string)
    ensures FirstOf(outputs, id) <= |outputs|
    ensures FirstOf(outputs, id) < |outputs| ==> outputs[FirstOf(outputs, id)].callId == id
  {
    if outputs != [] && outputs[0].callId != id {
      FirstNames(outputs[1..], id);
    }
  }

  /** Fills a map from call to order. */
  method OrderById(actions: seq<Action>) returns (order: map<string, int>)
    ensures forall id :: id in order <==> id in ActionIds(actions)
    ensures forall id :: id in order ==> order[id] == OrderOf(actions, id)
    ensures forall id :: id !in order ==> OrderOf(actions, id) == 0
  {
    order := map[];
    for i := 0 to |actions|
      invariant forall id :: id in order <==> id in ActionIds(actions[..i])
      invariant forall id :: id in order ==> order[id] == OrderOf(actions[..i], id)
      invariant forall id :: id !in order ==> OrderOf(actions[..i], id) == 0
    {
      assert actions[..i + 1][..i] == actions[..i];
      assert ActionIds(actions[..i + 1]) == ActionIds(actions[..i]) + [actions[i].id];
      order := order[actions[i].id := actions[i].order];
    }
    assert actions[..|actions|] == actions;
  }

  method SortToolResultsByActionOrder(results: seq<ToolResult>, actions: seq<Action>) returns (ordered: seq<ToolResult>)
    ensures ordered == StableSort(results, ByOrder(actions))
  {
    var orderById := OrderById(actions);
    var key := (r: ToolResult) => if r.callId in orderById then orderById[r.callId] else 0;
    SortCongruent(results, key, ByOrder(actions));
    ordered := StableSort(results, key);
  }

  method CommonDenialReason(reasons: seq<Text>) returns (reason: Text)
    ensures reason == CommonReason(reasons)
  {
    for i := 0 to |reasons|
      invariant CommonReason(reasons) == CommonReason(reasons[i..])
    {
      reason := Trim(reasons[i]);
      if reason != "" {
        return;
      }
    }
    return BATCH_DENIED;
  }

  method Sift(pending: seq<Action>, decisions: Decisions)
    returns (approved: seq<Action>, denied: seq<ToolResult>, reasons: seq<Text>)
    ensures approved == ApprovedOnes(decisions, pending)
    ensures denied == Denials(decisions, pending)
    ensures reasons == DeniedReasons(decisions, pending)
  {
    hide *;
    approved, denied, reasons := [], [], [];
    for i := 0 to |pending|
      invariant approved + ApprovedOnes(decisions, pending[i..]) == ApprovedOnes(decisions, pending)
      invariant denied + Denials(decisions, pending[i..]) == Denials(decisions, pending)
      invariant reasons + DeniedReasons(decisions, pending[i..]) == DeniedReasons(decisions, pending)
    {
      SiftStep(decisions, pending, i);
      if !IsDenied(decisions, pending[i]) {
        approved := approved + [pending[i]];
        continue;
      }
      var result := DeniedResult(decisions, pending[i]);
      denied := denied + [result];
      reasons := reasons + [result.reason];
    }
    assert pending[|pending|..] == [];
    SiftNothing(decisions);
  }

  lemma SiftStep(decisions: Decisions, pending: seq<Action>, i: nat)
    requires i < |pending|
    ensures var p := pending[i..];
      var q := pending[i + 1..];
      var denied := IsDenied(decisions, pending[i]);
      && ApprovedOnes(decisions, p) == (if denied then [] else [pending[i]]) + ApprovedOnes(decisions, q)
      && Denials(decisions, p) == (if denied then [DeniedResult(decisions, pending[i])] else []) + Denials(decisions, q)
      && DeniedReasons(decisions, p)
         == (if denied then [DeniedResult(decisions, pending[i]).reason] else []) + DeniedReasons(decisions, q)
  {
    hide IsDenied, DeniedResult;
    assert pending[i..][0] == pending[i] && pending[i..][1..] == pending[i + 1..];
  }

  lemma SiftNothing(decisions: Decisions)
    ensures ApprovedOnes(decisions, []) == [] && Denials(decisions, []) == [] && DeniedReasons(decisions, []) == []
  {}

  /** The results that answer a batch of which something was denied. */
  method DeniedOutputs(deferred: seq<Action>, pending: seq<Action>, decisions: Decisions) returns (outputs: seq<ToolResult>)
    ensures outputs == Rejected(deferred, pending, decisions)
  {
    hide *;
    var approved, denied, reasons := Sift(pending, decisions);
    var reason := CommonDenialReason(reasons);
    var skipped := MapResults(approved, Skipped(reason));
    var merged := MergeDeferredSkippedResults(deferred, denied + skipped, reason);
    outputs := SortToolResultsByActionOrder(merged, deferred + pending);
    RejectedIs(deferred, pending, decisions);
  }

  lemma RejectedIs(deferred: seq<Action>, pending: seq<Action>, decisions: Decisions)
    ensures var reason := CommonReason(DeniedReasons(decisions, pending));
      var outputs := Denials(decisions, pending) + ResultsOf(ApprovedOnes(decisions, pending), Skipped(reason));
      Rejected(deferred, pending, decisions) == StableSort(Merged(deferred, outputs, reason), ByOrder(deferred + pending))
  {}

  function Denials(decisions: Decisions, pending: seq<Action>): seq<ToolResult> {
    if pending == [] then []
    else (if IsDenied(decisions, pending[0]) then [DeniedResult(decisions, pending[0])] else [])
         + Denials(decisions, pending[1..])
  }

  function Rejected(deferred: seq<Action>, pending: seq<Action>, decisions: Decisions): seq<ToolResult> {
    var reason := CommonReason(DeniedReasons(decisions, pending));
    var outputs := Denials(decisions, pending) + ResultsOf(ApprovedOnes(decisions, pending), Skipped(reason));
    StableSort(Merged(deferred, outputs, reason), ByOrder(deferred + pending))
  }

  // ---------------------------------------------------------------------
  // A denied batch: every call answered once, in call order
  // ---------------------------------------------------------------------

  /** `deferred` and `pending` are the two halves of a batch waiting for approval. */
  ghost predicate IsPaused(batch: seq<Action>, deferred: seq<Action>, pending: seq<Action>) {
    && IsBatch(batch)
    && deferred == Only(batch, AutoExecute) + Only(batch, Block)
    && pending == Only(batch, RequireApproval)
  }

  lemma PausedPermutes(batch: seq<Action>, deferred: seq<Action>, pending: seq<Action>)
    requires IsPaused(batch, deferred, pending)
    ensures multiset(deferred + pending) == multiset(batch)
  {
    SplitPermutes(batch);
  }

  lemma {:induction false} OnlyHas(batch: seq<Action>, d: Decision)
    ensures forall i :: 0 <= i < |Only(batch, d)| ==> Only(batch, d)[i].decision == d && Only(batch, d)[i] in batch
  {
    if batch != [] {
      OnlyHas(batch[1..], d);
    }
  }

  lemma {:induction false} SiftPermutes(decisions: Decisions, pending: seq<Action>)
    ensures multiset(DeniedOnes(decisions, pending)) + multiset(ApprovedOnes(decisions, pending)) == multiset(pending)
  {
    hide IsDenied;
    if pending != [] {
      SiftPermutes(decisions, pending[1..]);
      assert pending == [pending[0]] + pending[1..];
    }
  }

  lemma VerdictIs(decisions: Decisions, reason: Text, a: Action)
    requires a.decision == RequireApproval
    ensures Verdict(decisions, reason)(a) == if IsDenied(decisions, a) then DeniedResult(decisions, a) else Skipped(reason)(a)
  {}

  /** The denials and skips are the verdicts on the denied and the approved actions. */
  lemma {:induction false} DenialsAreVerdicts(decisions: Decisions, pending: seq<Action>, reason: Text)
    requires forall i :: 0 <= i < |pending| ==> pending[i].decision == RequireApproval
    ensures Denials(decisions, pending) == ResultsOf(DeniedOnes(decisions, pending), Verdict(decisions, reason))
  {
    hide IsDenied, DeniedResult, Passed, Skipped;
    if pending != [] {
      DenialsAreVerdicts(decisions, pending[1..], reason);
      VerdictIs(decisions, reason, pending[0]);
      var rest := DeniedOnes(decisions, pending[1..]);
      assert ([pending[0]] + rest)[1..] == rest;
      if IsDenied(decisions, pending[0]) {
        assert DeniedOnes(decisions, pending) == [pending[0]] + rest;
        assert Denials(decisions, pending) == [DeniedResult(decisions, pending[0])] + Denials(decisions, pending[1..]);
      } else {
        assert DeniedOnes(decisions, pending) == rest;
        assert Denials(decisions, pending) == Denials(decisions, pending[1..]);
      }
    }
  }

  lemma {:induction false} SkipsAreVerdicts(decisions: Decisions, pending: seq<Action>, reason: Text)
    requires forall i :: 0 <= i < |pending| ==> pending[i].decision == RequireApproval
    ensures ResultsOf(ApprovedOnes(decisions, pending), Skipped(reason))
      == ResultsOf(ApprovedOnes(decisions, pending), Verdict(decisions, reason))
  {
    hide IsDenied, DeniedResult, Passed, Skipped;
    if pending != [] {
      SkipsAreVerdicts(decisions, pending[1..], reason);
      VerdictIs(decisions, reason, pending[0]);
      var rest := ApprovedOnes(decisions, pending[1..]);
      assert ([pending[0]] + rest)[1..] == rest;
      if IsDenied(decisions, pending[0]) {
        assert ApprovedOnes(decisions, pending) == rest;
      } else {
        assert ApprovedOnes(decisions, pending) == [pending[0]] + rest;
      }
    }
  }

  lemma {:induction false} PassedAreVerdicts(decisions: Decisions, deferred: seq<Action>, reason: Text)
    requires forall i :: 0 <= i < |deferred| ==> deferred[i].decision != RequireApproval
    ensures ResultsOf(deferred, Passed(reason)) == ResultsOf(deferred, Verdict(decisions, reason))
  {
    if deferred != [] {
      PassedAreVerdicts(decisions, deferred[1..], reason);
    }
  }

  lemma VerdictAnswers(decisions: Decisions, reason: Text, a: Action)
    requires KeyedByCall(decisions)
    ensures Verdict(decisions, reason)(a).callId == a.id
  {
    assert Passed(reason)(a).callId == a.id && Skipped(reason)(a).callId == a.id;
    if IsDenied(decisions, a) {
      assert DeniedResult(decisions, a).callId == decisions[a.id].callId;
    }
  }

  lemma {:induction false} OrderOfMember(actions: seq<Action>, a: Action)
    requires a in actions && forall i, j :: 0 <= i < j < |actions| ==> actions[i].id != actions[j].id
    ensures OrderOf(actions, a.id) == a.order
  {
    var i :| 0 <= i < |actions| && actions[i] == a;
    if i < |actions| - 1 {
      assert actions[i].id != actions[|actions| - 1].id && actions[..|actions| - 1][i] == a;
      OrderOfMember(actions[..|actions| - 1], a);
      assert OrderOf(actions, a.id) == OrderOf(actions[..|actions| - 1], a.id);
    } else {
      assert OrderOf(actions, a.id) == a.order;
    }
  }

  lemma PausedDistinct(batch: seq<Action>, parts: seq<Action>)
    requires IsBatch(batch) && multiset(parts) == multiset(batch)
    ensures forall i, j :: 0 <= i < j < |parts| ==> parts[i].id != parts[j].id
  {
    assert |parts| == |multiset(parts)| == |multiset(batch)| == |batch|;
    forall i, j | 0 <= i < j < |parts| ensures parts[i].id != parts[j].id {
      var x, y := parts[i], parts[j];
      assert x in multiset(batch) && y in multiset(batch);
      var p :| 0 <= p < |batch| && batch[p] == x;
      var q :| 0 <= q < |batch| && batch[q] == y;
      if p == q {
        assert parts == parts[..i] + [x] + parts[i + 1..j] + [y] + parts[j + 1..];
        assert multiset(parts)[x] >= 2;
        OncePerBatch(batch, p);
      }
    }
  }

  lemma OncePerBatch(batch: seq<Action>, p: nat)
    requires IsBatch(batch) && p < |batch|
    ensures multiset(batch)[batch[p]] == 1
  {
    assert batch == batch[..p] + [batch[p]] + batch[p + 1..];
    assert batch[p] !in batch[..p] && batch[p] !in batch[p + 1..];
  }

  /** A batch of which something was denied is answered once per call, in call order: each denied
      call by its own denial and every other call by a skip for the common reason. */
  lemma DeniedAnswersInOrder(batch: seq<Action>, deferred: seq<Action>, pending: seq<Action>, decisions: Decisions)
    requires IsPaused(batch, deferred, pending) && KeyedByCall(decisions)
    ensures var reason := CommonReason(DeniedReasons(decisions, pending));
      Rejected(deferred, pending, decisions) == ResultsOf(batch, Verdict(decisions, reason))
    ensures IdsOf(Rejected(deferred, pending, decisions)) == ActionIds(batch)
  {
    hide *;
    var reason := CommonReason(DeniedReasons(decisions, pending));
    var v := Verdict(decisions, reason);
    var denied, approved := DeniedOnes(decisions, pending), ApprovedOnes(decisions, pending);
    var all := deferred + (denied + approved);
    PausedSides(batch, deferred, pending);
    DenialsAreVerdicts(decisions, pending, reason);
    SkipsAreVerdicts(decisions, pending, reason);
    PassedAreVerdicts(decisions, deferred, reason);
    SiftPermutes(decisions, pending);
    assert multiset(all) == multiset(deferred + pending);
    RejectedIs(deferred, pending, decisions);
    var outputs := ResultsOf(denied, v) + ResultsOf(approved, v);
    ResultsConcat(denied, approved, v);
    ResultsConcat(deferred, denied + approved, v);
    forall a ensures v(a).callId == a.id {
      VerdictAnswers(decisions, reason, a);
    }
    var sorted := MergedIs(deferred, denied + approved, outputs, reason, v);
    RestoreByOrder(batch, deferred + pending, sorted, v);
    ResultsAnswer(batch, v);
  }

  lemma PausedSides(batch: seq<Action>, deferred: seq<Action>, pending: seq<Action>)
    requires IsPaused(batch, deferred, pending)
    ensures IsBatch(batch) && multiset(deferred + pending) == multiset(batch)
    ensures forall i :: 0 <= i < |pending| ==> pending[i].decision == RequireApproval
    ensures forall i :: 0 <= i < |deferred| ==> deferred[i].decision != RequireApproval
  {
    SplitPermutes(batch);
    OnlyHas(batch, AutoExecute);
    OnlyHas(batch, Block);
    OnlyHas(batch, RequireApproval);
  }

  /** Merging rearranges the results of all actions. */
  lemma MergedIs(deferred: seq<Action>, others: seq<Action>, outputs: seq<ToolResult>, reason: Text, f: Action -> ToolResult)
    returns (sorted: seq<Action>)
    requires ResultsOf(deferred, Passed(reason)) == ResultsOf(deferred, f) && outputs == ResultsOf(others, f)
    ensures multiset(sorted) == multiset(deferred + others)
    ensures Merged(deferred, outputs, reason) == ResultsOf(sorted, f)
  {
    var all := deferred + others;
    var key := MergeKey(deferred, outputs);
    var order := (a: Action) => key(f(a));
    ResultsConcat(deferred, others, f);
    SortResults(all, f, order, key);
    SortSorts(all, order);
    sorted := StableSort(all, order);
  }

  /** Sorting the results of any arrangement of a batch by action order restores call order. */
  lemma RestoreByOrder(batch: seq<Action>, actions: seq<Action>, sorted: seq<Action>, f: Action -> ToolResult)
    requires IsBatch(batch) && multiset(actions) == multiset(batch) && multiset(sorted) == multiset(batch)
    requires forall a :: f(a).callId == a.id
    ensures StableSort(ResultsOf(sorted, f), ByOrder(actions)) == ResultsOf(batch, f)
  {
    PausedDistinct(batch, actions);
    forall i | 0 <= i < |sorted| ensures ByOrder(actions)(f(sorted[i])) == OrderKey()(sorted[i]) {
      assert sorted[i] in multiset(actions);
      OrderOfMember(actions, sorted[i]);
    }
    SortResults(sorted, f, OrderKey(), ByOrder(actions));
    OrderedRestores(sorted, batch);
  }

  // ---------------------------------------------------------------------
  // An approved batch: every call answered, deferred ones twice
  // ---------------------------------------------------------------------

  /** What is recorded for submitted outputs. */
  function Submitted(deferred: seq<Action>, outputs: seq<ToolResult>, mergeDeferred: bool): seq<ToolResult> {
    if mergeDeferred && |deferred| > 0 then Merged(deferred, outputs, BATCH_DENIED) else outputs
  }

  lemma {:induction false} IdsHave(results: seq<ToolResult>, id: string)
    ensures |IdsOf(results)| == |results|
    ensures id in IdsOf(results) <==> exists i :: 0 <= i < |results| && results[i].callId == id
  {
    if results != [] {
      IdsHave(results[1..], id);
      assert results == [results[0]] + results[1..];
    }
  }

  lemma MergedHas(deferred: seq<Action>, outputs: seq<ToolResult>, reason: Text, id: string)
    ensures |Merged(deferred, outputs, reason)| == |deferred| + |outputs|
    ensures id in IdsOf(Merged(deferred, outputs, reason)) <==> id in ActionIds(deferred) || id in IdsOf(outputs)
  {
    hide Passed, MergeKey;
    var passed := ResultsOf(deferred, Passed(reason));
    var all := passed + outputs;
    var merged := Merged(deferred, outputs, reason);
    SortSorts(all, MergeKey(deferred, outputs));
    assert |merged| == |multiset(merged)| == |multiset(all)| == |all|;
    PassedAnswers(deferred, reason);
    IdsHave(merged, id);
    IdsHave(passed, id);
    IdsHave(outputs, id);
    assert forall r :: r in multiset(all) <==> r in multiset(merged);
    assert forall r :: r in all <==> r in passed || r in outputs;
    if id in IdsOf(merged) {
      var i :| 0 <= i < |merged| && merged[i].callId == id;
      assert merged[i] in multiset(merged);
      assert merged[i] in all;
    }
    if id in IdsOf(passed) || id in IdsOf(outputs) {
      var r: ToolResult :| r in all && r.callId == id;
      assert r in multiset(merged);
      assert r in merged;
    }
  }

  lemma PassedAnswers(deferred: seq<Action>, reason: Text)
    ensures |ResultsOf(deferred, Passed(reason))| == |deferred|
    ensures IdsOf(ResultsOf(deferred, Passed(reason))) == ActionIds(deferred)
  {
    ResultsAnswer(deferred, Passed(reason));
  }

  lemma BatchIds(batch: seq<Action>, deferred: seq<Action>, pending: seq<Action>, id: string)
    requires IsPaused(batch, deferred, pending)
    ensures id in ActionIds(batch) <==> id in ActionIds(deferred) || id in ActionIds(pending)
    ensures !(id in ActionIds(deferred) && id in ActionIds(pending))
    ensures |batch| == |deferred| + |pending|
  {
    hide IsPaused, IsBatch, ActionIds;
    var parts := deferred + pending;
    PausedSides(batch, deferred, pending);
    assert |parts| == |multiset(parts)| == |multiset(batch)|;
    SameIds(batch, parts, id);
    HalvesDisjoint(batch, deferred, pending, id);
    HalvesIds(deferred, pending);
  }

  lemma HalvesIds(deferred: seq<Action>, pending: seq<Action>)
    ensures ActionIds(deferred + pending) == ActionIds(deferred) + ActionIds(pending)
  {}

  lemma HalvesDisjoint(batch: seq<Action>, deferred: seq<Action>, pending: seq<Action>, id: string)
    requires IsBatch(batch) && multiset(deferred + pending) == multiset(batch)
    ensures !(id in ActionIds(deferred) && id in ActionIds(pending))
  {
    var parts := deferred + pending;
    PausedDistinct(batch, parts);
    forall i, j | 0 <= i < |deferred| && 0 <= j < |pending| ensures deferred[i].id != pending[j].id {
      assert parts[i] == deferred[i] && parts[|deferred| + j] == pending[j];
    }
  }

  lemma SameIds(a: seq<Action>, b: seq<Action>, id: string)
    requires multiset(a) == multiset(b)
    ensures id in ActionIds(a) <==> id in ActionIds(b)
  {
    IdIn(a, id);
    IdIn(b, id);
    if id in ActionIds(a) {
      var x :| x in a && x.id == id;
      assert x in multiset(b);
    }
    if id in ActionIds(b) {
      var x :| x in b && x.id == id;
      assert x in multiset(a);
    }
  }

  lemma IdIn(actions: seq<Action>, id: string)
    ensures id in ActionIds(actions) <==> exists a :: a in actions && a.id == id
  {
    if a :| a in actions && a.id == id {
      var i :| 0 <= i < |actions| && actions[i] == a;
      assert ActionIds(actions)[i] == id;
    }
    if id in ActionIds(actions) {
      var i :| 0 <= i < |actions| && ActionIds(actions)[i] == id;
      assert actions[i] in actions;
    }
  }

  /** Outputs submitted for a paused batch answer every call exactly when they cover the calls that
      wait for approval. */
  lemma SubmittedCovers(batch: seq<Action>, deferred: seq<Action>, pending: seq<Action>, outputs: seq<ToolResult>)
    requires IsPaused(batch, deferred, pending)
    ensures Covers(AtLeastOnce, ActionIds(batch), IdsOf(Submitted(deferred, outputs, true)))
      <==> Covers(AtLeastOnce, ActionIds(pending), IdsOf(outputs))
  {
    hide Merged, IsPaused;
    forall id
      ensures id in ActionIds(batch) <==> id in ActionIds(deferred) || id in ActionIds(pending)
      ensures !(id in ActionIds(deferred) && id in ActionIds(pending))
      ensures id in IdsOf(Submitted(deferred, outputs, true)) <==> id in ActionIds(deferred) || id in IdsOf(outputs)
    {
      BatchIds(batch, deferred, pending, id);
      MergedHas(deferred, outputs, BATCH_DENIED, id);
    }
  }

  /** An approved batch has a result for each of its calls, and the deferred ones are answered a
      second time: every call is answered, and exactly once only if nothing was deferred. */
  lemma ApprovedAnswers(batch: seq<Action>, deferred: seq<Action>, pending: seq<Action>, results: seq<ToolResult>)
    requires IsPaused(batch, deferred, pending) && IdsOf(results) == ActionIds(batch)
    ensures Covers(AtLeastOnce, ActionIds(batch), IdsOf(Submitted(deferred, results, true)))
    ensures Covers(InOrder, ActionIds(batch), IdsOf(Submitted(deferred, results, true))) <==> deferred == []
  {
    hide Merged, IsPaused;
    forall id ensures id in ActionIds(pending) ==> id in ActionIds(batch) {
      BatchIds(batch, deferred, pending, id);
    }
    SubmittedCovers(batch, deferred, pending, results);
    IdsHave(results, "");
    IdsHave(Submitted(deferred, results, true), "");
    MergedHas(deferred, results, BATCH_DENIED, "");
  }
}
