/** Where a history is cut and what it becomes: core/services/compressor.go, lines 230-424, and
    core/agent/agent.go, lines 2642-2752.

    `cost` is the token count of one message. */
module Compaction {
  import opened Wrappers
  import opened Utf8
  import opened Messages
  import opened Conversation
  import opened Projection

  // ---------------------------------------------------------------------
  // The partition point
  // ---------------------------------------------------------------------

  /** A cut before `h[i]` starts with what a user wrote and does not separate calls from answers. */
  predicate IsBoundary(h: seq<Message>, i: int) {
    1 <= i < |h| && h[i].IsRealUser() && h[i - 1].role != Tool
  }

  /** The latest suffix that still costs `preserve`, or the whole history. */
  ghost predicate IsRough(counter: Counter, h: seq<Message>, preserve: int, r: nat) {
    && (forall j :: r < j < |h| ==> Count(counter, h[j..]) < preserve)
    && (r == 0 || (r < |h| && Count(counter, h[r..]) >= preserve))
  }

  /** The cut for a rough index: the first boundary at or after it, else the last one before it,
      else the rough index itself. */
  ghost predicate IsPartition(h: seq<Message>, rough: nat, p: nat) {
    var from := if rough < 1 then 1 else rough;
    || (IsBoundary(h, p) && from <= p && forall j :: from <= j < p ==> !IsBoundary(h, j))
    || (IsBoundary(h, p) && p < from && forall j :: p < j < |h| ==> !IsBoundary(h, j))
    || (p == rough && forall j :: 0 <= j < |h| ==> !IsBoundary(h, j))
  }

  /** A boundary is used whenever there is one. */
  lemma PartitionIsBoundary(h: seq<Message>, rough: nat, p: nat)
    requires IsPartition(h, rough, p)
    ensures IsBoundary(h, p) <==> exists j :: IsBoundary(h, j)
    ensures !IsBoundary(h, p) ==> p == rough
  {}

  /** There is only one rough index and one partition. */
  lemma PartitionUnique(counter: Counter, h: seq<Message>, preserve: int, r1: nat, r2: nat, p1: nat, p2: nat)
    requires IsRough(counter, h, preserve, r1) && IsPartition(h, r1, p1)
    requires IsRough(counter, h, preserve, r2) && IsPartition(h, r2, p2)
    ensures r1 == r2 && p1 == p2
  {
    hide Count;
  }

  // ---------------------------------------------------------------------
  // The compacted history
  // ---------------------------------------------------------------------

  const SUMMARY_HEADER: Text := "[Previous conversation summary]\n"
  const TRANSCRIPT_NOTE: Text :=
    "\n\nIf you need specific details from before compaction, read the full transcript at: "

  function IsSystem(): Message -> bool {
    (m: Message) => m.role == System
  }

  function NotSystem(): Message -> bool {
    (m: Message) => m.role != System
  }

  function Systems(h: seq<Message>): seq<Message> {
    Keep(h, IsSystem())
  }

  function Talk(h: seq<Message>): seq<Message> {
    Keep(h, NotSystem())
  }

  function SummaryMessage(summary: Text, transcript: Text): Message {
    UserMessage(SUMMARY_HEADER + summary + if transcript != "" then TRANSCRIPT_NOTE + transcript else "")
  }

  /** System messages, one summary, and the suffix of the conversation from `p`. */
  function Compacted(h: seq<Message>, p: nat, summary: Message): seq<Message>
    requires p <= |Talk(h)|
  {
    Systems(h) + [summary] + Talk(h)[p..]
  }

  /** Compaction keeps every call answered, wherever it cuts. */
  lemma CompactedAnswered(h: seq<Message>, p: nat, summary: Message)
    requires AllAnswered(h) && p <= |Talk(h)| && summary.role == User
    ensures AllAnswered(Compacted(h, p, summary))
  {
    var head := Systems(h) + [summary];
    HeadPlain(h, summary);
    PlainBalanced(head);
    assert KeepsTurns(h, NotSystem());
    KeepAnswered(h, NotSystem());
    AllAnsweredSuffix(Talk(h), p);
    AllAnsweredConcat(head, Talk(h)[p..]);
  }

  /** It separates an answer from its calls exactly when it cuts in front of a tool message. */
  lemma CompactedNoOrphans(h: seq<Message>, p: nat, summary: Message)
    requires NoOrphans(false, h) && p < |Talk(h)| && summary.role == User
    ensures NoOrphans(false, Compacted(h, p, summary)) <==> Talk(h)[p].role != Tool
  {
    HeadPlain(h, summary);
    assert KeepsTurns(h, NotSystem());
    KeepNoOrphans(false, h, NotSystem());
    NoOrphansSuffix(false, Talk(h), p);
    JoinedNoOrphans(Systems(h) + [summary], Talk(h)[p..]);
  }

  /** Behind messages that are neither calls nor answers, only the rest decides. */
  lemma JoinedNoOrphans(head: seq<Message>, tail: seq<Message>)
    requires Plain(head) && head != [] && tail != []
    requires NoOrphans(false, tail) <==> tail[0].role != Tool
    ensures NoOrphans(false, head + tail) <==> tail[0].role != Tool
  {
    PlainBalanced(head);
    if tail[0].role != Tool {
      NoOrphansConcat(false, head, tail);
    } else {
      NoOrphansByIndex(false, head + tail);
      var i := |head|;
      assert (head + tail)[i] == tail[0] && (head + tail)[i - 1] == head[i - 1];
      assert !FollowsCalls(false, head + tail, i);
    }
  }

  ghost predicate Plain(h: seq<Message>) {
    forall i :: 0 <= i < |h| ==> h[i].role == User || h[i].role == System
  }

  lemma {:induction false} KeptSatisfies(h: seq<Message>, p: Message -> bool)
    ensures forall i :: 0 <= i < |Keep(h, p)| ==> p(Keep(h, p)[i])
  {
    if h != [] {
      KeptSatisfies(h[1..], p);
    }
  }

  lemma HeadPlain(h: seq<Message>, summary: Message)
    requires summary.role == User
    ensures Plain(Systems(h) + [summary])
  {
    KeptSatisfies(h, IsSystem());
  }

  /** A balanced history is compacted into a balanced one exactly when the conversation has a
      boundary to cut at, or the rough index is not at a tool message. */
  lemma CompactionIsSafe(h: seq<Message>, rough: nat, p: nat, summary: Message)
    requires Balanced(h) && summary.role == User
    requires rough < |Talk(h)| && IsPartition(Talk(h), rough, p)
    ensures p < |Talk(h)| && AllAnswered(Compacted(h, p, summary))
    ensures Balanced(Compacted(h, p, summary)) <==>
      (exists j :: IsBoundary(Talk(h), j)) || Talk(h)[rough].role != Tool
  {
    PartitionIsBoundary(Talk(h), rough, p);
    CompactedAnswered(h, p, summary);
    CompactedNoOrphans(h, p, summary);
  }

  // ---------------------------------------------------------------------
  // Restoring the contextual messages
  // ---------------------------------------------------------------------

  function NotContextual(): Message -> bool {
    (m: Message) => !m.IsContextualUser()
  }

  /** The position behind the first message that is not a system message, or 0. */
  function InsertAt(h: seq<Message>): (i: nat)
    ensures i <= |h|
  {
    if h == [] then 0
    else if h[0].role != System then 1
    else if InsertAt(h[1..]) == 0 then 0 else InsertAt(h[1..]) + 1
  }

  /** Old contextual messages are dropped and current ones put behind the summary. */
  function Rebased(h: seq<Message>, contexts: seq<Message>): seq<Message> {
    var kept := Keep(h, NotContextual());
    kept[..InsertAt(kept)] + contexts + kept[InsertAt(kept)..]
  }

  /** Messages put anywhere but behind calls separate no call from its answer. */
  lemma InsertedAnswered(h: seq<Message>, contexts: seq<Message>, at: nat)
    requires AllAnswered(h) && Plain(contexts) && at <= |h|
    requires at > 0 ==> !HasCalls(h[at - 1])
    ensures AllAnswered(h[..at] + contexts + h[at..])
  {
    AllAnsweredPrefix(h, at);
    AllAnsweredSuffix(h, at);
    PlainBalanced(contexts);
    AllAnsweredConcat(h[..at], contexts);
    AllAnsweredConcat(h[..at] + contexts, h[at..]);
  }

  lemma InsertedNoOrphans(h: seq<Message>, contexts: seq<Message>, at: nat)
    requires NoOrphans(false, h) && Plain(contexts) && at <= |h|
    requires at > 0 ==> !HasCalls(h[at - 1])
    ensures NoOrphans(false, h[..at] + contexts + h[at..])
  {
    PrefixNoOrphans(false, h, at);
    SuffixNoOrphans(h, at);
    PlainBalanced(contexts);
    NoOrphansConcat(false, h[..at], contexts);
    NoOrphansConcat(false, h[..at] + contexts, h[at..]);
  }

  lemma {:induction false} PrefixNoOrphans(afterCalls: bool, h: seq<Message>, k: nat)
    requires NoOrphans(afterCalls, h) && k <= |h|
    ensures NoOrphans(afterCalls, h[..k])
    decreases |h|
  {
    if k > 0 {
      PrefixNoOrphans(HasCalls(h[0]), h[1..], k - 1);
      assert h[..k][1..] == h[1..][..k - 1];
    }
  }

  lemma SuffixNoOrphans(h: seq<Message>, k: nat)
    requires NoOrphans(false, h) && k <= |h| && (k > 0 ==> !HasCalls(h[k - 1]))
    ensures NoOrphans(false, h[k..])
  {
    if k < |h| {
      NoOrphansSuffix(false, h, k);
      NoOrphansByIndex(false, h);
      assert h[k].role == Tool ==> FollowsCalls(false, h, k);
    }
  }

  lemma {:induction false} InsertAtSplit(systems: seq<Message>, first: Message, rest: seq<Message>)
    requires forall i :: 0 <= i < |systems| ==> systems[i].role == System
    requires first.role != System
    ensures InsertAt(systems + [first] + rest) == |systems| + 1
  {
    var h := systems + [first] + rest;
    if systems != [] {
      assert h[1..] == systems[1..] + [first] + rest;
      InsertAtSplit(systems[1..], first, rest);
    }
  }

  /** Rebasing a compacted history gives: system messages, the summary, the current contextual
      messages, then the preserved suffix without its old contextual messages. */
  lemma RebasedIs(h: seq<Message>, p: nat, summary: Message, contexts: seq<Message>)
    requires p <= |Talk(h)| && summary.IsRealUser()
    ensures Rebased(Compacted(h, p, summary), contexts)
      == Systems(h) + [summary] + contexts + Keep(Talk(h)[p..], NotContextual())
  {
    var systems := Systems(h);
    var rest := Talk(h)[p..];
    var q := NotContextual();
    KeptSatisfies(h, IsSystem());
    KeepAll(systems, q);
    KeepConcat(systems + [summary], rest, q);
    KeepConcat(systems, [summary], q);
    assert Keep([summary], q) == [summary] + Keep([], q);
    var kept := Keep(Compacted(h, p, summary), q);
    assert kept == systems + [summary] + Keep(rest, q);
    InsertAtSplit(systems, summary, Keep(rest, q));
    assert kept[..|systems| + 1] == systems + [summary];
  }

  lemma {:induction false} KeepAll(h: seq<Message>, p: Message -> bool)
    requires forall i :: 0 <= i < |h| ==> p(h[i])
    ensures Keep(h, p) == h
  {
    if h != [] {
      KeepAll(h[1..], p);
    }
  }

  /** Rebasing a compacted history keeps what the provider needs of it. */
  lemma RebasedBalanced(h: seq<Message>, p: nat, summary: Message, contexts: seq<Message>)
    requires p <= |Talk(h)| && summary.IsRealUser() && Plain(contexts)
    requires AllAnswered(Compacted(h, p, summary))
    ensures AllAnswered(Rebased(Compacted(h, p, summary), contexts))
    ensures NoOrphans(false, Compacted(h, p, summary)) ==> NoOrphans(false, Rebased(Compacted(h, p, summary), contexts))
  {
    hide AllAnswered, NoOrphans;
    var systems := Systems(h);
    var q := NotContextual();
    var rest := Keep(Talk(h)[p..], q);
    var compacted := Compacted(h, p, summary);
    RebasedIs(h, p, summary, contexts);
    RebasedIs(h, p, summary, []);
    assert KeepsTurns(compacted, q);
    KeepAnswered(compacted, q);
    var kept := systems + [summary] + rest;
    assert Keep(compacted, q) == kept by {
      var k := Keep(compacted, q);
      assert k[..InsertAt(k)] + [] + k[InsertAt(k)..] == k;
      assert systems + [summary] + [] == systems + [summary];
    }
    var at := |systems| + 1;
    assert kept[at - 1] == summary && !HasCalls(summary);
    InsertedAnswered(kept, contexts, at);
    assert kept[..at] == systems + [summary] && kept[at..] == rest;
    if NoOrphans(false, compacted) {
      KeepNoOrphans(false, compacted, q);
      InsertedNoOrphans(kept, contexts, at);
    }
  }
}
