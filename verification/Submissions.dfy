/** Outputs submitted for a paused batch: how often and in which order they answer its calls:
    core/agent/agent.go, lines 1439-1462 and 1695-1721. */
module Submissions {
  import opened Utf8
  import opened Sorting
  import opened Messages
  import opened Conversation
  import opened Actions

  /** Every deferred call was made before every call that waits for approval. */
  predicate DeferredFirst(deferred: seq<Action>, pending: seq<Action>) {
    forall i, j :: 0 <= i < |deferred| && 0 <= j < |pending| ==> deferred[i].order < pending[j].order
  }

  /** How submitted outputs answer the batch, told from what the caller can see. */
  function SubmitCover(deferred: seq<Action>, pending: seq<Action>, outputs: seq<ToolResult>): Cover {
    if IdsOf(outputs) == ActionIds(pending) && DeferredFirst(deferred, pending) then InOrder
    else if multiset(IdsOf(outputs)) == multiset(ActionIds(pending)) then Once
    else AtLeastOnce
  }

  // ---------------------------------------------------------------------
  // Ids
  // ---------------------------------------------------------------------

  lemma {:induction false} IdsAt(results: seq<ToolResult>)
    ensures |IdsOf(results)| == |results| && forall i :: 0 <= i < |results| ==> IdsOf(results)[i] == results[i].callId
  {
    if results != [] {
      IdsAt(results[1..]);
    }
  }

  lemma {:induction false} IdsConcat(a: seq<ToolResult>, b: seq<ToolResult>)
    ensures IdsOf(a + b) == IdsOf(a) + IdsOf(b)
  {
    if a == [] {
      assert a + b == b;
    } else {
      assert (a + b)[0] == a[0] && (a + b)[1..] == a[1..] + b;
      IdsConcat(a[1..], b);
    }
  }

  lemma {:induction false} InsertIds(r: ToolResult, s: seq<ToolResult>, key: ToolResult -> int, order: string -> int)
    requires forall x: ToolResult :: key(x) == order(x.callId)
    ensures IdsOf(Insert(r, s, key)) == Insert(r.callId, IdsOf(s), order)
  {
    if s != [] && key(r) > key(s[0]) {
      InsertIds(r, s[1..], key, order);
    }
  }

  /** Sorting results by what their ids say sorts their ids. */
  lemma {:induction false} SortIds(s: seq<ToolResult>, key: ToolResult -> int, order: string -> int)
    requires forall x: ToolResult :: key(x) == order(x.callId)
    ensures IdsOf(StableSort(s, key)) == StableSort(IdsOf(s), order)
  {
    if s != [] {
      SortIds(s[1..], key, order);
      InsertIds(s[0], StableSort(s[1..], key), key, order);
    }
  }

  function IdOrder(deferred: seq<Action>, outputs: seq<ToolResult>): string -> int {
    (id: string) => MergeOrder(deferred, outputs, id)
  }

  lemma MergedIds(deferred: seq<Action>, outputs: seq<ToolResult>, reason: Text)
    ensures IdsOf(Merged(deferred, outputs, reason))
      == StableSort(ActionIds(deferred) + IdsOf(outputs), IdOrder(deferred, outputs))
  {
    hide MergeOrder, Passed, ActionIds;
    var passed := ResultsOf(deferred, Passed(reason));
    PassedAnswers(deferred, reason);
    IdsConcat(passed, outputs);
    SortIds(passed + outputs, MergeKey(deferred, outputs), IdOrder(deferred, outputs));
  }

  lemma ActionIdsTake(before: seq<Action>, x: Action, after: seq<Action>)
    ensures multiset(ActionIds(before + [x] + after)) == multiset{x.id} + multiset(ActionIds(before + after))
  {
    assert ActionIds(before + [x] + after) == ActionIds(before) + [x.id] + ActionIds(after);
    assert ActionIds(before + after) == ActionIds(before) + ActionIds(after);
  }

  lemma WithoutOne<T>(before: seq<T>, x: T, after: seq<T>)
    ensures multiset(before + [x] + after) - multiset{x} == multiset(before + after)
  {
    assert multiset(before + [x] + after) == multiset(before + after) + multiset{x};
  }

  lemma TakeOut(a: seq<Action>, b: seq<Action>) returns (before: seq<Action>, after: seq<Action>)
    requires multiset(a) == multiset(b) && a != []
    ensures b == before + [a[0]] + after && multiset(a[1..]) == multiset(before + after)
  {
    assert a[0] in multiset(b);
    var j :| 0 <= j < |b| && b[j] == a[0];
    before, after := b[..j], b[j + 1..];
    assert b == before + [a[0]] + after;
    WithoutOne(before, a[0], after);
    WithoutFirst(a);
  }

  lemma WithoutFirst<T>(a: seq<T>)
    requires a != []
    ensures multiset(a) - multiset{a[0]} == multiset(a[1..])
  {
    assert a == [a[0]] + a[1..];
  }

  lemma {:induction false} ActionIdsPermute(a: seq<Action>, b: seq<Action>)
    requires multiset(a) == multiset(b)
    ensures multiset(ActionIds(a)) == multiset(ActionIds(b))
  {
    if a == [] {
      assert |a| == |multiset(a)| == |multiset(b)| == |b|;
    } else {
      var before, after := TakeOut(a, b);
      ActionIdsPermute(a[1..], before + after);
      ActionIdsTake(before, a[0], after);
      ActionIdsTake([], a[0], a[1..]);
      assert [] + [a[0]] + a[1..] == a && [] + a[1..] == a[1..];
    }
  }

  lemma BatchIdsSplit(batch: seq<Action>, deferred: seq<Action>, pending: seq<Action>)
    requires IsPaused(batch, deferred, pending)
    ensures multiset(ActionIds(batch)) == multiset(ActionIds(deferred)) + multiset(ActionIds(pending))
  {
    hide IsPaused;
    PausedPermutes(batch, deferred, pending);
    ActionIdsPermute(batch, deferred + pending);
    HalvesIds(deferred, pending);
  }

  // ---------------------------------------------------------------------
  // Once
  // ---------------------------------------------------------------------

  lemma SubmittedIds(deferred: seq<Action>, outputs: seq<ToolResult>)
    ensures multiset(IdsOf(Submitted(deferred, outputs, true))) == multiset(ActionIds(deferred)) + multiset(IdsOf(outputs))
  {
    hide Merged;
    if |deferred| > 0 {
      MergedIds(deferred, outputs, BATCH_DENIED);
      SortSorts(ActionIds(deferred) + IdsOf(outputs), IdOrder(deferred, outputs));
    } else {
      assert ActionIds(deferred) == [];
    }
  }

  /** Every call of the batch is answered exactly once if and only if the outputs answer every call
      that waits for approval exactly once, and no other. */
  lemma SubmittedOnce(batch: seq<Action>, deferred: seq<Action>, pending: seq<Action>, outputs: seq<ToolResult>)
    requires IsPaused(batch, deferred, pending)
    ensures Covers(Once, ActionIds(batch), IdsOf(Submitted(deferred, outputs, true)))
      <==> Covers(Once, ActionIds(pending), IdsOf(outputs))
  {
    hide IsPaused, Submitted, ActionIds, IdsOf;
    BatchIdsSplit(batch, deferred, pending);
    SubmittedIds(deferred, outputs);
    var d := multiset(ActionIds(deferred));
    assert multiset(IdsOf(outputs)) == d + multiset(IdsOf(outputs)) - d;
    assert multiset(ActionIds(pending)) == d + multiset(ActionIds(pending)) - d;
  }

  // ---------------------------------------------------------------------
  // In call order
  // ---------------------------------------------------------------------

  lemma {:induction false} OnlyConcat(a: seq<Action>, b: seq<Action>, d: Decision)
    ensures Only(a + b, d) == Only(a, d) + Only(b, d)
  {
    if a == [] {
      assert a + b == b;
    } else {
      assert (a + b)[0] == a[0] && (a + b)[1..] == a[1..] + b;
      OnlyConcat(a[1..], b, d);
    }
  }

  lemma {:induction false} OnlyShort(s: seq<Action>, d: Decision)
    ensures |Only(s, d)| <= |s|
  {
    if s != [] {
      OnlyShort(s[1..], d);
    }
  }

  /** How many calls before this one wait for approval. */
  function Before(batch: seq<Action>, j: nat): nat
    requires j <= |batch|
  {
    |Only(batch[..j], RequireApproval)|
  }

  lemma PendingAt(batch: seq<Action>, j: nat)
    requires j < |batch| && batch[j].decision == RequireApproval
    ensures var pending := Only(batch, RequireApproval);
      && Before(batch, j) < |pending| && pending[Before(batch, j)] == batch[j]
      && |pending| - Before(batch, j) <= |batch| - j
    ensures Before(batch, j + 1) == Before(batch, j) + 1
  {
    assert batch == batch[..j] + batch[j..] && batch[j..][0] == batch[j];
    OnlyConcat(batch[..j], batch[j..], RequireApproval);
    OnlyShort(batch[j..], RequireApproval);
    assert batch[..j + 1] == batch[..j] + [batch[j]];
    OnlySnoc(batch[..j], batch[j], RequireApproval);
  }

  /** Between a call that waits and a later deferred one, some waiting call stands right before a deferred one. */
  lemma {:induction false} Inversion(batch: seq<Action>, p: nat, d: nat) returns (j: nat)
    requires p < d < |batch| && batch[p].decision == RequireApproval && batch[d].decision != RequireApproval
    ensures j + 1 < |batch| && batch[j].decision == RequireApproval && batch[j + 1].decision != RequireApproval
  {
    j := p;
    while batch[j + 1].decision == RequireApproval
      invariant p <= j < d && batch[j].decision == RequireApproval
      decreases d - j
    {
      j := j + 1;
    }
  }

  /** A call that waits sorts behind as many as are deferred or answered before it. */
  lemma PendingOrder(batch: seq<Action>, deferred: seq<Action>, pending: seq<Action>, outputs: seq<ToolResult>, j: nat)
    requires IsPaused(batch, deferred, pending) && IdsOf(outputs) == ActionIds(pending)
    requires j < |batch| && batch[j].decision == RequireApproval
    ensures MergeOrder(deferred, outputs, batch[j].id) == |deferred| + Before(batch, j)
  {
    hide IsPaused, Before, OrderOf;
    PendingAt(batch, j);
    PausedPending(batch, deferred, pending);
    BatchIds(batch, deferred, pending, batch[j].id);
    assert ActionIds(pending)[Before(batch, j)] == batch[j].id;
    IdsAt(outputs);
    PausedSides(batch, deferred, pending);
    PausedDistinct(batch, deferred + pending);
    DistinctHalf(deferred, pending);
    FirstAt(outputs, Before(batch, j));
  }

  lemma PausedPending(batch: seq<Action>, deferred: seq<Action>, pending: seq<Action>)
    requires IsPaused(batch, deferred, pending)
    ensures pending == Only(batch, RequireApproval)
  {}

  lemma DistinctHalf(a: seq<Action>, b: seq<Action>)
    requires forall i, j :: 0 <= i < j < |a + b| ==> (a + b)[i].id != (a + b)[j].id
    ensures forall i, j :: 0 <= i < j < |b| ==> b[i].id != b[j].id
    ensures forall i, j :: 0 <= i < j < |a| ==> a[i].id != a[j].id
  {
    assert forall i :: 0 <= i < |b| ==> b[i] == (a + b)[|a| + i];
    assert forall i :: 0 <= i < |a| ==> a[i] == (a + b)[i];
  }

  lemma {:induction false} FirstAt(outputs: seq<ToolResult>, t: nat)
    requires t < |outputs| && forall u :: 0 <= u < t ==> outputs[u].callId != outputs[t].callId
    ensures FirstOf(outputs, outputs[t].callId) == t
  {
    if t > 0 {
      FirstAt(outputs[1..], t - 1);
    }
  }

  /** A deferred call sorts by its place in the batch. */
  lemma DeferredOrder(batch: seq<Action>, deferred: seq<Action>, pending: seq<Action>, outputs: seq<ToolResult>, j: nat)
    requires IsPaused(batch, deferred, pending)
    requires j < |batch| && batch[j].decision != RequireApproval
    ensures batch[j] in deferred && MergeOrder(deferred, outputs, batch[j].id) == j
  {
    hide IsPaused;
    PausedSides(batch, deferred, pending);
    PausedDistinct(batch, deferred + pending);
    DistinctHalf(deferred, pending);
    assert batch[j] in multiset(deferred + pending);
    assert batch[j] in deferred + pending;
    OrderOfMember(deferred, batch[j]);
    IdIn(deferred, batch[j].id);
  }

  /** With the outputs in the order of the waiting calls, the batch is sorted as results are merged
      when every deferred call comes first. */
  lemma BatchSorted(batch: seq<Action>, deferred: seq<Action>, pending: seq<Action>, outputs: seq<ToolResult>)
    requires IsPaused(batch, deferred, pending)
    requires IdsOf(outputs) == ActionIds(pending) && DeferredFirst(deferred, pending)
    ensures StrictlySorted(ActionIds(batch), IdOrder(deferred, outputs))
  {
    hide IsPaused, MergeOrder, Before, DeferredFirst;
    var key := IdOrder(deferred, outputs);
    forall i, j | 0 <= i < j < |batch| ensures key(batch[i].id) < key(batch[j].id) {
      BatchSortedAt(batch, deferred, pending, outputs, i, j);
    }
  }

  lemma BatchSortedAt(batch: seq<Action>, deferred: seq<Action>, pending: seq<Action>, outputs: seq<ToolResult>, i: nat, j: nat)
    requires IsPaused(batch, deferred, pending) && i < j < |batch|
    requires IdsOf(outputs) == ActionIds(pending) && DeferredFirst(deferred, pending)
    ensures MergeOrder(deferred, outputs, batch[i].id) < MergeOrder(deferred, outputs, batch[j].id)
  {
    hide IsPaused, MergeOrder, Before;
    PausedPending(batch, deferred, pending);
    if batch[j].decision == RequireApproval {
      PendingAt(batch, j);
      PendingOrder(batch, deferred, pending, outputs, j);
      BatchIds(batch, deferred, pending, "");
      if batch[i].decision == RequireApproval {
        PendingOrder(batch, deferred, pending, outputs, i);
        BeforeGrows(batch, i, j);
      } else {
        DeferredOrder(batch, deferred, pending, outputs, i);
      }
    } else {
      DeferredOrder(batch, deferred, pending, outputs, j);
      if batch[i].decision == RequireApproval {
        PendingAt(batch, i);
        OrdersAre(batch, deferred, pending);
        assert batch[i] in pending;
      } else {
        DeferredOrder(batch, deferred, pending, outputs, i);
      }
    }
  }

  lemma OrdersAre(batch: seq<Action>, deferred: seq<Action>, pending: seq<Action>)
    requires IsPaused(batch, deferred, pending)
    ensures forall i :: 0 <= i < |batch| ==> batch[i].order == i
  {}

  lemma BeforeGrows(batch: seq<Action>, i: nat, j: nat)
    requires i < j < |batch| && batch[i].decision == RequireApproval
    ensures Before(batch, i) < Before(batch, j)
  {
    PendingAt(batch, i);
    assert batch[..j] == batch[..i + 1] + batch[i + 1..j];
    OnlyConcat(batch[..i + 1], batch[i + 1..j], RequireApproval);
  }

  lemma SubmittedInCallOrder(batch: seq<Action>, deferred: seq<Action>, pending: seq<Action>, outputs: seq<ToolResult>)
    requires IsPaused(batch, deferred, pending) && deferred != []
    requires IdsOf(outputs) == ActionIds(pending) && DeferredFirst(deferred, pending)
    ensures IdsOf(Submitted(deferred, outputs, true)) == ActionIds(batch)
  {
    hide IsPaused, IdOrder, Merged, DeferredFirst, ActionIds;
    BatchSorted(batch, deferred, pending, outputs);
    BatchIdsSplit(batch, deferred, pending);
    MergedIds(deferred, outputs, BATCH_DENIED);
    SortRestores(ActionIds(deferred) + IdsOf(outputs), ActionIds(batch), IdOrder(deferred, outputs));
  }

  // ---------------------------------------------------------------------
  // Only then
  // ---------------------------------------------------------------------

  /** The order of merged results with its ties: deferred calls were put in front of the outputs. */
  function TieOrder(deferred: seq<Action>, outputs: seq<ToolResult>): string -> int {
    (id: string) => 2 * MergeOrder(deferred, outputs, id) + if id in ActionIds(deferred) then 0 else 1
  }

  /** No output answers a deferred call. */
  predicate Apart(deferred: seq<Action>, outputs: seq<ToolResult>) {
    forall i :: 0 <= i < |outputs| ==> outputs[i].callId !in ActionIds(deferred)
  }

  lemma TiesHold(deferred: seq<Action>, outputs: seq<ToolResult>)
    requires Apart(deferred, outputs)
    ensures StableSort(ActionIds(deferred) + IdsOf(outputs), IdOrder(deferred, outputs))
      == StableSort(ActionIds(deferred) + IdsOf(outputs), TieOrder(deferred, outputs))
  {
    hide MergeOrder;
    var ids := ActionIds(deferred) + IdsOf(outputs);
    IdsAt(outputs);
    assert forall i :: |deferred| <= i < |ids| ==> ids[i] == outputs[i - |deferred|].callId;
    assert forall i :: 0 <= i < |ids| ==> (ids[i] in ActionIds(deferred) <==> i < |deferred|);
    SortAgrees(ids, IdOrder(deferred, outputs), TieOrder(deferred, outputs));
  }

  /** What sorting leaves in call order is strictly ordered by this order with its ties. */
  lemma CallOrderIsSorted(batch: seq<Action>, deferred: seq<Action>, outputs: seq<ToolResult>, i: nat, j: nat)
    requires Apart(deferred, outputs) && i < j < |batch|
    requires IdsOf(Merged(deferred, outputs, BATCH_DENIED)) == ActionIds(batch)
    ensures TieOrder(deferred, outputs)(batch[i].id) <= TieOrder(deferred, outputs)(batch[j].id)
  {
    hide Merged, MergeOrder;
    MergedIds(deferred, outputs, BATCH_DENIED);
    TiesHold(deferred, outputs);
    SortSorts(ActionIds(deferred) + IdsOf(outputs), TieOrder(deferred, outputs));
  }

  lemma OnceApart(batch: seq<Action>, deferred: seq<Action>, pending: seq<Action>, outputs: seq<ToolResult>)
    requires IsPaused(batch, deferred, pending) && multiset(IdsOf(outputs)) == multiset(ActionIds(pending))
    ensures Apart(deferred, outputs)
  {
    hide IsPaused, ActionIds;
    IdsAt(outputs);
    forall i | 0 <= i < |outputs| ensures outputs[i].callId !in ActionIds(deferred) {
      var id := outputs[i].callId;
      assert IdsOf(outputs)[i] == id && id in multiset(IdsOf(outputs));
      assert id in ActionIds(pending);
      BatchIds(batch, deferred, pending, id);
    }
  }

  lemma OnceInDistinct<T>(a: seq<T>, p: nat)
    requires p < |a| && forall i, j :: 0 <= i < j < |a| ==> a[i] != a[j]
    ensures multiset(a)[a[p]] == 1
  {
    assert a == a[..p] + [a[p]] + a[p + 1..];
    assert a[p] !in a[..p] && a[p] !in a[p + 1..];
  }

  lemma TwiceInRepeated<T>(b: seq<T>, i: nat, j: nat)
    requires i < j < |b| && b[i] == b[j]
    ensures multiset(b)[b[i]] >= 2
  {
    assert b == b[..i] + [b[i]] + b[i + 1..j] + [b[j]] + b[j + 1..];
  }

  lemma DistinctPermute<T>(a: seq<T>, b: seq<T>)
    requires multiset(a) == multiset(b) && forall i, j :: 0 <= i < j < |a| ==> a[i] != a[j]
    ensures forall i, j :: 0 <= i < j < |b| ==> b[i] != b[j]
  {
    forall i, j | 0 <= i < j < |b| ensures b[i] != b[j] {
      assert b[i] in multiset(a);
      var p: nat :| p < |a| && a[p] == b[i];
      OnceInDistinct(a, p);
      if b[i] == b[j] {
        TwiceInRepeated(b, i, j);
      }
    }
  }

  function FirstKey(outputs: seq<ToolResult>): string -> int {
    (id: string) => FirstOf(outputs, id)
  }

  lemma OutputsAscend(outputs: seq<ToolResult>)
    requires forall i, j :: 0 <= i < j < |IdsOf(outputs)| ==> IdsOf(outputs)[i] != IdsOf(outputs)[j]
    ensures StrictlySorted(IdsOf(outputs), FirstKey(outputs))
  {
    IdsAt(outputs);
    forall i | 0 <= i < |outputs| ensures FirstOf(outputs, IdsOf(outputs)[i]) == i {
      assert IdsOf(outputs)[i] == outputs[i].callId;
      forall u | 0 <= u < i ensures outputs[u].callId != outputs[i].callId {
        assert IdsOf(outputs)[u] != IdsOf(outputs)[i];
      }
      FirstAt(outputs, i);
    }
  }

  lemma {:induction false} OnlyAscends(batch: seq<Action>, d: Decision)
    requires forall i, j :: 0 <= i < j < |batch| ==> batch[i].order < batch[j].order
    ensures forall i, j :: 0 <= i < j < |Only(batch, d)| ==> Only(batch, d)[i].order < Only(batch, d)[j].order
  {
    if batch != [] {
      OnlyAscends(batch[1..], d);
      OnlyHas(batch[1..], d);
    }
  }

  lemma PendingPlaces(batch: seq<Action>, deferred: seq<Action>, pending: seq<Action>)
    requires IsPaused(batch, deferred, pending)
    ensures forall i, j :: 0 <= i < j < |pending| ==> pending[i].order < pending[j].order
    ensures forall i :: 0 <= i < |pending| ==> 0 <= pending[i].order < |batch| && batch[pending[i].order] == pending[i]
    ensures forall i :: 0 <= i < |deferred| ==> 0 <= deferred[i].order < |batch| && batch[deferred[i].order] == deferred[i]
  {
    OnlyAscends(batch, RequireApproval);
    OnlyHas(batch, RequireApproval);
    OnlyHas(batch, AutoExecute);
    OnlyHas(batch, Block);
  }

  /** Outputs that are recorded in call order were given in the order of the waiting calls. */
  lemma GivenInOrder(batch: seq<Action>, deferred: seq<Action>, pending: seq<Action>, outputs: seq<ToolResult>)
    requires IsPaused(batch, deferred, pending)
    requires multiset(IdsOf(outputs)) == multiset(ActionIds(pending))
    requires IdsOf(Merged(deferred, outputs, BATCH_DENIED)) == ActionIds(batch)
    ensures IdsOf(outputs) == ActionIds(pending)
  {
    hide IsPaused, Merged, OrderOf, Apart, IdsOf;
    var key := FirstKey(outputs);
    PendingPlaces(batch, deferred, pending);
    OnceApart(batch, deferred, pending, outputs);
    forall i, j | 0 <= i < j < |pending| ensures key(pending[i].id) <= key(pending[j].id) {
      var p, q := pending[i].order, pending[j].order;
      CallOrderIsSorted(batch, deferred, outputs, p, q);
      assert ActionIds(pending)[i] == pending[i].id && ActionIds(pending)[j] == pending[j].id;
      BatchIds(batch, deferred, pending, pending[i].id);
      BatchIds(batch, deferred, pending, pending[j].id);
    }
    PausedSides(batch, deferred, pending);
    PausedDistinct(batch, deferred + pending);
    DistinctHalf(deferred, pending);
    DistinctPermute(ActionIds(pending), IdsOf(outputs));
    OutputsAscend(outputs);
    SortedUnique(ActionIds(pending), IdsOf(outputs), key);
  }

  /** A waiting call right before a deferred one is overtaken by it. */
  lemma Overtaken(batch: seq<Action>, deferred: seq<Action>, pending: seq<Action>, outputs: seq<ToolResult>, j: nat)
    requires IsPaused(batch, deferred, pending) && IdsOf(outputs) == ActionIds(pending)
    requires j + 1 < |batch| && batch[j].decision == RequireApproval && batch[j + 1].decision != RequireApproval
    ensures TieOrder(deferred, outputs)(batch[j].id) > TieOrder(deferred, outputs)(batch[j + 1].id)
  {
    hide IsPaused, MergeOrder, Only;
    PendingOrder(batch, deferred, pending, outputs, j);
    DeferredOrder(batch, deferred, pending, outputs, j + 1);
    PausedPending(batch, deferred, pending);
    BatchIds(batch, deferred, pending, batch[j].id);
    PendingAt(batch, j);
    assert ActionIds(pending)[Before(batch, j)] == batch[j].id;
    IdIn(deferred, batch[j + 1].id);
    SkipsDeferred(batch, j);
  }

  lemma SkipsDeferred(batch: seq<Action>, j: nat)
    requires j + 1 < |batch| && batch[j].decision == RequireApproval && batch[j + 1].decision != RequireApproval
    ensures |Only(batch, RequireApproval)| <= Before(batch, j) + 1 + |batch| - (j + 2)
  {
    PendingAt(batch, j);
    assert batch[..j + 2] == batch[..j + 1] + [batch[j + 1]];
    OnlySnoc(batch[..j + 1], batch[j + 1], RequireApproval);
    assert batch == batch[..j + 2] + batch[j + 2..];
    OnlyConcat(batch[..j + 2], batch[j + 2..], RequireApproval);
    OnlyShort(batch[j + 2..], RequireApproval);
  }

  lemma RecordedDeferredFirst(batch: seq<Action>, deferred: seq<Action>, pending: seq<Action>, outputs: seq<ToolResult>)
    requires IsPaused(batch, deferred, pending) && IdsOf(outputs) == ActionIds(pending)
    requires IdsOf(Merged(deferred, outputs, BATCH_DENIED)) == ActionIds(batch)
    ensures DeferredFirst(deferred, pending)
  {
    hide IsPaused, Merged, TieOrder, Apart, IdsOf, ActionIds;
    PendingPlaces(batch, deferred, pending);
    PausedSides(batch, deferred, pending);
    OnceApart(batch, deferred, pending, outputs);
    forall x, y | 0 <= x < |deferred| && 0 <= y < |pending| ensures deferred[x].order < pending[y].order {
      if deferred[x].order >= pending[y].order {
        assert deferred[x] != pending[y];
        var j := Inversion(batch, pending[y].order, deferred[x].order);
        CallOrderIsSorted(batch, deferred, outputs, j, j + 1);
        Overtaken(batch, deferred, pending, outputs, j);
      }
    }
  }

  lemma {:induction false} OnlyEverything(batch: seq<Action>, d: Decision)
    requires |Only(batch, d)| == |batch|
    ensures Only(batch, d) == batch
  {
    if batch != [] {
      OnlyShort(batch[1..], d);
      OnlyEverything(batch[1..], d);
    }
  }

  lemma NothingDeferred(batch: seq<Action>, pending: seq<Action>)
    requires IsPaused(batch, [], pending)
    ensures pending == batch
  {
    BatchIds(batch, [], pending, "");
    OnlyEverything(batch, RequireApproval);
  }

  /** Every call is answered once and in call order if and only if the outputs come in the order of the
      waiting calls and every deferred call was made before them: an output sorts behind the deferred
      ones by their number and its own position, whatever its place in the batch. */
  lemma SubmittedInOrder(batch: seq<Action>, deferred: seq<Action>, pending: seq<Action>, outputs: seq<ToolResult>)
    requires IsPaused(batch, deferred, pending)
    ensures IdsOf(Submitted(deferred, outputs, true)) == ActionIds(batch)
      <==> IdsOf(outputs) == ActionIds(pending) && DeferredFirst(deferred, pending)
  {
    hide IsPaused, Merged, IdsOf;
    if deferred == [] {
      NothingDeferred(batch, pending);
    } else if IdsOf(Submitted(deferred, outputs, true)) == ActionIds(batch) {
      SubmittedOnce(batch, deferred, pending, outputs);
      GivenInOrder(batch, deferred, pending, outputs);
      RecordedDeferredFirst(batch, deferred, pending, outputs);
    } else if IdsOf(outputs) == ActionIds(pending) && DeferredFirst(deferred, pending) {
      SubmittedInCallOrder(batch, deferred, pending, outputs);
    }
  }

  /** The mark of a submission is right, and the strictest right one. */
  lemma SubmitCoverIsExact(batch: seq<Action>, deferred: seq<Action>, pending: seq<Action>, outputs: seq<ToolResult>)
    requires IsPaused(batch, deferred, pending) && Covers(AtLeastOnce, ActionIds(pending), IdsOf(outputs))
    ensures var ids := IdsOf(Submitted(deferred, outputs, true));
      && Covers(SubmitCover(deferred, pending, outputs), ActionIds(batch), ids)
      && (Covers(InOrder, ActionIds(batch), ids) <==> SubmitCover(deferred, pending, outputs) == InOrder)
      && (Covers(Once, ActionIds(batch), ids) <==> SubmitCover(deferred, pending, outputs) != AtLeastOnce)
  {
    hide IsPaused, Submitted, DeferredFirst, ActionIds, IdsOf;
    SubmittedInOrder(batch, deferred, pending, outputs);
    SubmittedOnce(batch, deferred, pending, outputs);
    SubmittedCovers(batch, deferred, pending, outputs);
  }

  /** Two calls that run by themselves around one that waits: the output for the second call, given
      alone and with its id, is recorded behind both. */
  lemma OvertakenByDeferred(first: Action, second: Action, third: Action, output: ToolResult)
    requires first.order == 0 && second.order == 1 && third.order == 2
    requires first.id != second.id && second.id != third.id && first.id != third.id
    requires first.decision == third.decision == AutoExecute && second.decision == RequireApproval
    requires output.callId == second.id
    ensures IsPaused([first, second, third], [first, third], [second])
    ensures IdsOf(Submitted([first, third], [output], true)) == [first.id, third.id, second.id]
    ensures SubmitCover([first, third], [second], [output]) == Once
  {
    hide IsPaused, Merged, MergeOrder, ActionIds;
    var deferred, outputs := [first, third], [output];
    AroundOne(first, second, third);
    MergedIds(deferred, outputs, BATCH_DENIED);
    AroundOneKeys(first, second, third, output);
    SortRest(first.id, third.id, second.id, IdOrder(deferred, outputs));
  }

  lemma AroundOne(first: Action, second: Action, third: Action)
    requires first.order == 0 && second.order == 1 && third.order == 2
    requires first.id != second.id && second.id != third.id && first.id != third.id
    requires first.decision == third.decision == AutoExecute && second.decision == RequireApproval
    ensures IsPaused([first, second, third], [first, third], [second])
    ensures !DeferredFirst([first, third], [second])
  {
    var batch := [first, second, third];
    hide Only;
    forall d ensures Only(batch, d) == Only([first], d) + (Only([second], d) + Only([third], d)) {
      assert batch == [first] + ([second] + [third]);
      OnlyConcat([first], [second] + [third], d);
      OnlyConcat([second], [third], d);
    }
    OnlyOne(first);
    OnlyOne(second);
    OnlyOne(third);
    assert [first, third][1].order > [second][0].order;
  }

  lemma OnlyOne(a: Action)
    ensures forall d :: Only([a], d) == if a.decision == d then [a] else []
  {
    assert [a][1..] == [];
  }

  lemma AroundOneKeys(first: Action, second: Action, third: Action, output: ToolResult)
    requires first.order == 0 && second.order == 1 && third.order == 2
    requires first.id != second.id && second.id != third.id && first.id != third.id
    requires output.callId == second.id
    ensures ActionIds([first, third]) == [first.id, third.id] && ActionIds([second]) == [second.id]
    ensures IdsOf([output]) == [second.id]
    ensures var key := IdOrder([first, third], [output]);
      key(first.id) == 0 && key(third.id) == 2 && key(second.id) == 2
  {
    assert [output][1..] == [];
    assert OrderOf([first, third][..1], first.id) == first.order;
    assert ActionIds([first, third])[0] == first.id && ActionIds([first, third])[1] == third.id;
  }

  lemma SortRest(a: string, b: string, c: string, key: string -> int)
    requires key(a) <= key(b) <= key(c)
    ensures StableSort([a, b] + [c], key) == [a, b, c]
  {
    var s := [a, b] + [c];
    assert s[1..] == [b, c] && s[1..][1..] == [c] && [c][1..] == [];
    assert StableSort([c], key) == [c];
    assert StableSort([b, c], key) == [b, c];
  }
}
