/** What an input for a running turn is queued as, and how the pending ones become one user message:
    core/agent/agent.go, lines 584-612 and 2539-2575. */
module Steering {
  import opened Wrappers
  import opened Utf8
  import opened Spaces
  import opened Messages

  const SEPARATOR: Text := "\n\n"

  function Joined(texts: seq<Text>): Text {
    if texts == [] then "" else if |texts| == 1 then texts[0] else texts[0] + SEPARATOR + Joined(texts[1..])
  }

  /** The texts of some parts, trimmed and without the blank ones. */
  function Words(parts: seq<Part>): seq<Text> {
    if parts == [] then []
    else (if parts[0].TextPart? && Trim(parts[0].text) != "" then [Trim(parts[0].text)] else []) + Words(parts[1..])
  }

  /** The waiting texts as one part, if there are any. */
  function Flushed(texts: seq<Text>): seq<Part> {
    if texts == [] then [] else [TextPart(Joined(texts))]
  }

  /** How many text parts stand at the front. */
  function Leading(parts: seq<Part>): (n: nat)
    ensures n <= |parts|
    ensures forall i :: 0 <= i < n ==> parts[i].TextPart?
    ensures n < |parts| ==> !parts[n].TextPart?
  {
    if parts == [] || !parts[0].TextPart? then 0 else 1 + Leading(parts[1..])
  }

  /** Each run of texts becomes one text, or none; everything else stays as it is. */
  function MergedParts(parts: seq<Part>): seq<Part>
    decreases |parts|
  {
    var n := Leading(parts);
    Flushed(Words(parts[..n])) + if n == |parts| then [] else [parts[n]] + MergedParts(parts[n + 1..])
  }

  function Contents(inputs: seq<Message>): seq<Part> {
    if inputs == [] then [] else inputs[0].content + Contents(inputs[1..])
  }

  function JoinedInput(inputs: seq<Message>): Message {
    Message(User, MergedParts(Contents(inputs)), false, None, InOrder)
  }

  // ---------------------------------------------------------------------
  // Queueing
  // ---------------------------------------------------------------------

  /** Trimmed texts that are not blank, and images that are there; nothing else. */
  function NormalParts(parts: seq<Part>): seq<Part> {
    if parts == [] then []
    else
      (match parts[0]
       case TextPart(text) => if Trim(text) != "" then [TextPart(Trim(text))] else []
       case MediaPart(present) => if present then [parts[0]] else []
       case _ => [])
      + NormalParts(parts[1..])
  }

  /** What is queued for a message, if it is accepted at all. */
  function Normalized(m: Message): Option<Message> {
    if m.role != User || NormalParts(m.content) == [] then None else Some(m.(content := NormalParts(m.content)))
  }

  lemma {:induction false} NormalConcat(a: seq<Part>, b: seq<Part>)
    ensures NormalParts(a + b) == NormalParts(a) + NormalParts(b)
  {
    hide Trim;
    if a == [] {
      assert a + b == b;
    } else {
      assert (a + b)[0] == a[0] && (a + b)[1..] == a[1..] + b;
      NormalConcat(a[1..], b);
    }
  }

  lemma NormalOne(p: Part)
    ensures NormalParts([p]) ==
      if p.TextPart? then if Trim(p.text) != "" then [TextPart(Trim(p.text))] else []
      else if p.MediaPart? && p.present then [p] else []
  {
    hide Trim;
    assert [p][1..] == [];
  }

  method NormalizeQueued(m: Message) returns (r: Option<Message>)
    ensures r == Normalized(m)
  {
    hide Trim, NormalParts;
    if m.role != User {
      return None;
    }
    var content: seq<Part> := [];
    NoParts();
    for i := 0 to |m.content|
      invariant content == NormalParts(m.content[..i])
    {
      var part := m.content[i];
      assert m.content[..i + 1] == m.content[..i] + [part];
      NormalConcat(m.content[..i], [part]);
      NormalOne(part);
      match part {
        case TextPart(t) =>
          var text := Trim(t);
          if text != "" {
            content := content + [TextPart(text)];
          }
        case MediaPart(present) =>
          if present {
            content := content + [part];
          }
        case _ =>
      }
    }
    assert m.content[..|m.content|] == m.content;
    if |content| == 0 {
      return None;
    }
    return Some(m.(content := content));
  }

  lemma NoParts()
    ensures NormalParts([]) == []
  {}

  /** What was queued would be queued again unchanged. */
  lemma {:induction false} NormalTwice(parts: seq<Part>)
    ensures NormalParts(NormalParts(parts)) == NormalParts(parts)
  {
    hide Trim;
    if parts != [] {
      NormalTwice(parts[1..]);
      var head := NormalParts([parts[0]]);
      assert parts == [parts[0]] + parts[1..];
      NormalConcat([parts[0]], parts[1..]);
      NormalConcat(head, NormalParts(parts[1..]));
      NormalOne(parts[0]);
      NoParts();
      if parts[0].TextPart? {
        TrimTwice(parts[0].text);
        NormalOne(TextPart(Trim(parts[0].text)));
      } else {
        NormalOne(parts[0]);
      }
    }
  }

  /** Trimming texts when they are queued leaves the same words to join. */
  lemma {:induction false} WordsOfNormal(parts: seq<Part>)
    ensures Words(NormalParts(parts)) == Words(parts)
  {
    hide Trim;
    if parts != [] {
      WordsOfNormal(parts[1..]);
      assert parts == [parts[0]] + parts[1..];
      NormalConcat([parts[0]], parts[1..]);
      NormalOne(parts[0]);
      WordsConcat(NormalParts([parts[0]]), NormalParts(parts[1..]));
      if parts[0].TextPart? {
        TrimTwice(parts[0].text);
        WordsOne(TextPart(Trim(parts[0].text)));
      } else {
        WordsOne(parts[0]);
      }
      NoWords();
    }
  }

  lemma WordsOne(p: Part)
    ensures Words([p]) == if p.TextPart? && Trim(p.text) != "" then [Trim(p.text)] else []
  {
    hide Trim;
    assert [p][1..] == [];
  }

  lemma NoWords()
    ensures Words([]) == []
  {}

  lemma {:induction false} WordsConcat(a: seq<Part>, b: seq<Part>)
    ensures Words(a + b) == Words(a) + Words(b)
  {
    hide Trim;
    if a == [] {
      assert a + b == b;
    } else {
      assert (a + b)[0] == a[0] && (a + b)[1..] == a[1..] + b;
      WordsConcat(a[1..], b);
    }
  }

  // ---------------------------------------------------------------------
  // What merging means
  // ---------------------------------------------------------------------

  predicate AllText(parts: seq<Part>) {
    forall i :: 0 <= i < |parts| ==> parts[i].TextPart?
  }

  lemma {:induction false} LeadingIs(parts: seq<Part>, n: nat)
    requires n <= |parts| && AllText(parts[..n]) && (n < |parts| ==> !parts[n].TextPart?)
    ensures Leading(parts) == n
  {
    if n > 0 {
      assert parts[..n][0] == parts[0] && parts[1..][..n - 1] == parts[..n][1..];
      LeadingIs(parts[1..], n - 1);
    }
  }

  /** Texts next to each other become one text of their trimmed words. */
  lemma TextsAreJoined(parts: seq<Part>)
    requires AllText(parts)
    ensures MergedParts(parts) == Flushed(Words(parts))
  {
    assert parts[..|parts|] == parts;
    LeadingIs(parts, |parts|);
  }

  /** Everything else stays in its place, and separates what stands before it from what follows. */
  lemma {:induction false} OthersSeparate(before: seq<Part>, x: Part, after: seq<Part>)
    requires !x.TextPart?
    ensures MergedParts(before + [x] + after) == MergedParts(before) + [x] + MergedParts(after)
    decreases |before|
  {
    hide MergedParts, Flushed, Words;
    var all := before + [x] + after;
    var n := Leading(before);
    assert all[..n] == before[..n];
    LeadingIs(all, n);
    MergedAt(before);
    MergedAt(all);
    if n == |before| {
      assert all[n] == x && all[n + 1..] == after;
    } else {
      assert all[n] == before[n] && all[n + 1..] == before[n + 1..] + [x] + after;
      OthersSeparate(before[n + 1..], x, after);
    }
  }

  lemma MergedAt(parts: seq<Part>)
    ensures var n := Leading(parts);
      MergedParts(parts) == Flushed(Words(parts[..n])) + if n == |parts| then [] else [parts[n]] + MergedParts(parts[n + 1..])
  {}

  // ---------------------------------------------------------------------
  // The loop
  // ---------------------------------------------------------------------

  /** Merging `parts` when these texts wait already. */
  function MergeFrom(texts: seq<Text>, parts: seq<Part>): seq<Part> {
    var n := Leading(parts);
    Flushed(texts + Words(parts[..n])) + if n == |parts| then [] else [parts[n]] + MergedParts(parts[n + 1..])
  }

  lemma MergeFromNothing(parts: seq<Part>)
    ensures MergeFrom([], parts) == MergedParts(parts)
  {
    assert [] + Words(parts[..Leading(parts)]) == Words(parts[..Leading(parts)]);
  }

  lemma MergeText(texts: seq<Text>, parts: seq<Part>)
    requires parts != [] && parts[0].TextPart?
    ensures MergeFrom(texts, parts)
      == MergeFrom(if Trim(parts[0].text) != "" then texts + [Trim(parts[0].text)] else texts, parts[1..])
  {
    hide Trim;
    var rest := parts[1..];
    var n := Leading(rest);
    assert Leading(parts) == n + 1;
    assert parts[..n + 1][0] == parts[0] && parts[..n + 1][1..] == rest[..n];
    if n < |rest| {
      assert parts[n + 1..][1..] == rest[n..][1..];
      assert parts[n + 2..] == rest[n + 1..] && parts[n + 1] == rest[n];
    }
    assert texts + ([Trim(parts[0].text)] + Words(rest[..n])) == (texts + [Trim(parts[0].text)]) + Words(rest[..n]);
    assert texts + ([] + Words(rest[..n])) == texts + Words(rest[..n]);
  }

  lemma MergeOther(texts: seq<Text>, parts: seq<Part>)
    requires parts != [] && !parts[0].TextPart?
    ensures MergeFrom(texts, parts) == Flushed(texts) + [parts[0]] + MergeFrom([], parts[1..])
  {
    MergeFromNothing(parts[1..]);
    assert texts + Words(parts[..0]) == texts;
  }

  /** The user message that stands for all pending inputs. */
  method JoinPending(inputs: seq<Message>) returns (m: Message)
    ensures m == JoinedInput(inputs)
  {
    hide MergeFrom, Trim, MergedParts, Flushed, Leading;
    var content: seq<Part> := [];
    var texts: seq<Text> := [];
    MergeFromNothing(Contents(inputs));
    for i := 0 to |inputs|
      invariant content + MergeFrom(texts, Contents(inputs[i..])) == MergedParts(Contents(inputs))
    {
      var parts := inputs[i].content;
      var rest := Contents(inputs[i + 1..]);
      assert inputs[i..][1..] == inputs[i + 1..];
      assert parts[0..] == parts;
      for j := 0 to |parts|
        invariant content + MergeFrom(texts, parts[j..] + rest) == MergedParts(Contents(inputs))
      {
        var left := parts[j..] + rest;
        assert left[0] == parts[j] && left[1..] == parts[j + 1..] + rest;
        if parts[j].TextPart? {
          MergeText(texts, left);
          var text := Trim(parts[j].text);
          if text != "" {
            texts := texts + [text];
          }
          continue;
        }
        MergeOther(texts, left);
        content := content + Flushed(texts) + [parts[j]];
        texts := [];
      }
      assert parts[|parts|..] + rest == rest;
    }
    assert inputs[|inputs|..] == [];
    MergeNothing(texts);
    content := content + Flushed(texts);
    m := Message(User, content, false, None, InOrder);
  }

  lemma MergeNothing(texts: seq<Text>)
    ensures MergeFrom(texts, Contents([])) == Flushed(texts)
  {
    assert texts + Words([]) == texts;
  }
}
