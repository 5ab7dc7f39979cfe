/** Which histories a provider accepts: every tool call answered in the tool message right
    after it, and no tool message without calls before it. */
module Conversation {
  import opened Messages

  predicate HasCalls(m: Message) {
    m.role == Assistant && CallIds(m.content) != []
  }

  /** `t` answers the tool calls of `a` as its mark says. */
  ghost predicate Answers(a: Message, t: Message) {
    t.role == Tool && Covers(t.cover, CallIds(a.content), ResultIds(t.content))
  }

  ghost predicate Covers(cover: Cover, calls: seq<string>, results: seq<string>) {
    match cover
    case InOrder => results == calls
    case Once => multiset(results) == multiset(calls)
    case AtLeastOnce => forall id :: id in calls ==> id in results
  }

  /** Whatever the mark, every call is answered. */
  lemma CoversAll(cover: Cover, calls: seq<string>, results: seq<string>)
    requires Covers(cover, calls, results)
    ensures Covers(AtLeastOnce, calls, results)
  {
    if cover == Once {
      forall id | id in calls ensures id in results {
        assert id in multiset(calls);
      }
    }
  }

  /** Every call is answered in the next message. */
  ghost predicate AllAnswered(h: seq<Message>)
    decreases |h|
  {
    if h == [] then true
    else (HasCalls(h[0]) ==> |h| > 1 && Answers(h[0], h[1])) && AllAnswered(h[1..])
  }

  /** Every tool message follows a message with calls; `afterCalls` is about what came before `h`. */
  predicate NoOrphans(afterCalls: bool, h: seq<Message>)
    decreases |h|
  {
    if h == [] then true
    else (h[0].role == Tool ==> afterCalls) && NoOrphans(HasCalls(h[0]), h[1..])
  }

  ghost predicate Balanced(h: seq<Message>) {
    AllAnswered(h) && NoOrphans(false, h)
  }

  // ---------------------------------------------------------------------
  // Reading the recursive forms by index
  // ---------------------------------------------------------------------

  lemma {:induction false} AllAnsweredByIndex(h: seq<Message>)
    ensures AllAnswered(h) <==> forall i :: 0 <= i < |h| && HasCalls(h[i]) ==> i + 1 < |h| && Answers(h[i], h[i + 1])
    decreases |h|
  {
    if h != [] {
      AllAnsweredByIndex(h[1..]);
      var tail := h[1..];
      assert forall i :: 1 <= i < |h| ==> h[i] == tail[i - 1];
      if AllAnswered(h) {
        forall i | 0 <= i < |h| && HasCalls(h[i]) ensures i + 1 < |h| && Answers(h[i], h[i + 1]) {
          if i > 0 {
            assert HasCalls(tail[i - 1]);
          }
        }
      }
      if forall i :: 0 <= i < |h| && HasCalls(h[i]) ==> i + 1 < |h| && Answers(h[i], h[i + 1]) {
        forall i | 0 <= i < |tail| && HasCalls(tail[i]) ensures i + 1 < |tail| && Answers(tail[i], tail[i + 1]) {
          assert HasCalls(h[i + 1]);
        }
      }
    }
  }

  predicate FollowsCalls(afterCalls: bool, h: seq<Message>, i: nat)
    requires i < |h|
  {
    if i == 0 then afterCalls else HasCalls(h[i - 1])
  }

  lemma {:induction false} NoOrphansByIndex(afterCalls: bool, h: seq<Message>)
    ensures NoOrphans(afterCalls, h) <==> forall i :: 0 <= i < |h| && h[i].role == Tool ==> FollowsCalls(afterCalls, h, i)
    decreases |h|
  {
    if h != [] {
      var tail := h[1..];
      var after := HasCalls(h[0]);
      NoOrphansByIndex(after, tail);
      assert forall i {:trigger FollowsCalls(afterCalls, h, i)} ::
        1 <= i < |h| ==> h[i] == tail[i - 1] && FollowsCalls(afterCalls, h, i) == FollowsCalls(after, tail, i - 1);
      assert forall i {:trigger FollowsCalls(after, tail, i)} ::
        0 <= i < |tail| ==> tail[i] == h[i + 1] && FollowsCalls(after, tail, i) == FollowsCalls(afterCalls, h, i + 1);
      assert FollowsCalls(afterCalls, h, 0) == afterCalls;
    }
  }

  // ---------------------------------------------------------------------
  // Joining and cutting
  // ---------------------------------------------------------------------

  lemma {:induction false} AllAnsweredConcat(a: seq<Message>, b: seq<Message>)
    requires AllAnswered(a)
    ensures AllAnswered(a + b) == AllAnswered(b)
    decreases |a|
  {
    if a == [] {
      assert a + b == b;
    } else {
      assert (a + b)[1..] == a[1..] + b;
      AllAnsweredConcat(a[1..], b);
    }
  }

  /** A history can only lose calls at its end: every suffix of an answered one is answered. */
  lemma {:induction false} AllAnsweredSuffix(h: seq<Message>, k: nat)
    requires AllAnswered(h) && k <= |h|
    ensures AllAnswered(h[k..])
    decreases |h|
  {
    if k > 0 {
      AllAnsweredSuffix(h[1..], k - 1);
      assert h[1..][k - 1..] == h[k..];
    } else {
      assert h[k..] == h;
    }
  }

  /** A prefix is answered unless it ends right after calls. */
  lemma {:induction false} AllAnsweredPrefix(h: seq<Message>, k: nat)
    requires AllAnswered(h) && k <= |h| && (k > 0 ==> !HasCalls(h[k - 1]))
    ensures AllAnswered(h[..k])
    decreases |h|
  {
    if k > 0 {
      assert h[..k][1..] == h[1..][..k - 1];
      if k > 1 {
        assert h[1..][k - 2] == h[k - 1];
      }
      AllAnsweredPrefix(h[1..], k - 1);
    }
  }

  lemma {:induction false} NoOrphansWeaken(h: seq<Message>)
    requires NoOrphans(false, h)
    ensures NoOrphans(true, h)
  {}

  lemma {:induction false} NoOrphansConcat(afterCalls: bool, a: seq<Message>, b: seq<Message>)
    requires NoOrphans(afterCalls, a) && NoOrphans(false, b)
    ensures NoOrphans(afterCalls, a + b)
    decreases |a|
  {
    if a == [] {
      assert a + b == b;
      NoOrphansWeaken(b);
    } else {
      assert (a + b)[1..] == a[1..] + b;
      NoOrphansConcat(HasCalls(a[0]), a[1..], b);
    }
  }

  /** A suffix has an orphan exactly when it starts with a tool message. */
  lemma {:induction false} NoOrphansSuffix(afterCalls: bool, h: seq<Message>, k: nat)
    requires NoOrphans(afterCalls, h) && k < |h|
    ensures NoOrphans(false, h[k..]) <==> h[k].role != Tool
    decreases |h|
  {
    if k > 0 {
      NoOrphansSuffix(HasCalls(h[0]), h[1..], k - 1);
      assert h[1..][k - 1..] == h[k..];
    } else {
      assert h[k..] == h;
    }
  }

  // ---------------------------------------------------------------------
  // Leaving messages out
  // ---------------------------------------------------------------------

  function Keep(h: seq<Message>, p: Message -> bool): seq<Message> {
    if h == [] then [] else (if p(h[0]) then [h[0]] else []) + Keep(h[1..], p)
  }

  ghost predicate KeepsTurns(h: seq<Message>, p: Message -> bool) {
    forall i :: 0 <= i < |h| && (h[i].role == Assistant || h[i].role == Tool) ==> p(h[i])
  }

  /** Leaving out messages that are neither calls nor answers keeps every answer in place. */
  lemma {:induction false} KeepAnswered(h: seq<Message>, p: Message -> bool)
    requires AllAnswered(h) && KeepsTurns(h, p)
    ensures AllAnswered(Keep(h, p))
    decreases |h|
  {
    if h != [] {
      assert KeepsTurns(h[1..], p);
      KeepAnswered(h[1..], p);
      if p(h[0]) {
        assert Keep(h, p)[1..] == Keep(h[1..], p);
        if HasCalls(h[0]) {
          assert h[1..][0] == h[1] && h[1..][1..] == h[2..];
          assert Keep(h[1..], p) == [h[1]] + Keep(h[2..], p);
        }
      } else {
        assert Keep(h, p) == Keep(h[1..], p);
      }
    }
  }

  lemma {:induction false} KeepNoOrphans(afterCalls: bool, h: seq<Message>, p: Message -> bool)
    requires NoOrphans(afterCalls, h) && KeepsTurns(h, p)
    ensures NoOrphans(afterCalls, Keep(h, p))
    decreases |h|
  {
    if h != [] {
      assert KeepsTurns(h[1..], p);
      KeepNoOrphans(HasCalls(h[0]), h[1..], p);
      if p(h[0]) {
        assert Keep(h, p)[1..] == Keep(h[1..], p);
      } else {
        assert !HasCalls(h[0]) && Keep(h, p) == Keep(h[1..], p);
        if afterCalls {
          NoOrphansWeaken(Keep(h[1..], p));
        }
      }
    }
  }

  lemma {:induction false} KeepConcat(a: seq<Message>, b: seq<Message>, p: Message -> bool)
    ensures Keep(a + b, p) == Keep(a, p) + Keep(b, p)
  {
    if a == [] {
      assert a + b == b;
    } else {
      assert (a + b)[0] == a[0] && (a + b)[1..] == a[1..] + b;
      KeepConcat(a[1..], b, p);
    }
  }

  /** Messages without calls or answers are balanced by themselves. */
  lemma {:induction false} PlainBalanced(h: seq<Message>)
    requires forall i :: 0 <= i < |h| ==> h[i].role == User || h[i].role == System
    ensures Balanced(h)
    decreases |h|
  {
    if h != [] {
      PlainBalanced(h[1..]);
    }
  }

  lemma {:induction false} ToolMessageIds(results: seq<ToolResult>)
    ensures ResultIds(ResultParts(results)) == IdsOf(results)
  {
    if results != [] {
      ToolMessageIds(results[1..]);
      assert ResultParts(results)[1..] == ResultParts(results[1..]);
    }
  }

  function IdsOf(results: seq<ToolResult>): seq<string> {
    if results == [] then [] else [results[0].callId] + IdsOf(results[1..])
  }

  lemma {:induction false} AssistantIds(text: seq<Part>, calls: seq<ToolCall>)
    requires forall i :: 0 <= i < |text| ==> !text[i].CallPart?
    ensures CallIds(text + CallParts(calls)) == CallIdsOf(calls)
    decreases |text| + |calls|
  {
    var content := text + CallParts(calls);
    if text != [] {
      AssistantIds(text[1..], calls);
      assert content[1..] == text[1..] + CallParts(calls);
    } else if calls != [] {
      AssistantIds([], calls[1..]);
      assert content == CallParts(calls) && content[1..] == [] + CallParts(calls[1..]);
    }
  }

  function CallIdsOf(calls: seq<ToolCall>): seq<string> {
    if calls == [] then [] else [calls[0].id] + CallIdsOf(calls[1..])
  }
}
