/** Calibrated context accounting: core/services/context_usage.go. */
module ContextUsage {
  import opened Wrappers
  import opened Utf8
  import opened Messages
  import opened Projection

  const PROMPT_LIMIT: int := 2000

  /** What a request shows of a history; the digest of it stands for itself. */
  function ContextDigest(h: seq<Message>): Visible {
    if h == [] then []
    else ContextDigest(h[..|h| - 1]) + [(h[|h| - 1].role, h[|h| - 1].content)]
  }

  /** An answer whose request was measured by the provider. */
  predicate HasUsage(m: Message) {
    m.role == Assistant && m.metadata.Some? && m.metadata.value.usage.Some?
  }

  predicate Measures(usage: Usage) {
    && usage.inputTokens >= 0 && usage.cacheCreation >= 0 && usage.cacheRead >= 0
    && usage.TotalInput() > 0
  }

  /** The measurement at `i` is of a request for this profile with exactly the history before `i`. */
  predicate Matches(h: seq<Message>, i: nat, prompt: ContextInput)
    requires i < |h| && HasUsage(h[i])
  {
    var metadata := h[i].metadata.value;
    && metadata.contextInput.Some?
    && metadata.contextInput.value.promptKey != ""
    && metadata.contextInput.value.profileKey != ""
    && metadata.contextInput.value.profileKey == prompt.profileKey
    && Measures(metadata.usage.value)
    && metadata.contextInput.value.historyDigest == ContextDigest(h[..i])
  }

  /** The latest measured answer, or -1. */
  function LatestMeasured(h: seq<Message>): (i: int)
    ensures -1 <= i < |h|
    ensures i >= 0 ==> HasUsage(h[i])
    ensures forall j :: i < j < |h| ==> !HasUsage(h[j])
  {
    if h == [] then -1
    else if HasUsage(h[|h| - 1]) then |h| - 1
    else LatestMeasured(h[..|h| - 1])
  }

  /** The local estimate of a history: its bounded projection, counted. */
  function Local(counter: Counter, threshold: int, h: seq<Message>): int {
    Count(counter, Project(counter, threshold, h))
  }

  function Growth(now: int, measured: int): int {
    if now > measured then now - measured else 0
  }

  /** The estimate of the next request, and whether a measurement backs it. */
  function Estimate(counter: Counter, threshold: int, history: seq<Message>, prompt: ContextInput): (int, bool) {
    EstimateProjected(counter, threshold, Project(counter, PROMPT_LIMIT, history), prompt)
  }

  function EstimateProjected(counter: Counter, threshold: int, h: seq<Message>, prompt: ContextInput): (int, bool) {
    var i := LatestMeasured(h);
    if i >= 0 && Matches(h, i, prompt) then
      var metadata := h[i].metadata.value;
      (metadata.usage.value.TotalInput() + Growth(prompt.prefixTokens, metadata.contextInput.value.prefixTokens)
       + Local(counter, threshold, h[i..]), true)
    else (prompt.prefixTokens + Local(counter, threshold, h), false)
  }

  lemma EstimateIs(counter: Counter, threshold: int, history: seq<Message>, prompt: ContextInput)
    ensures PROMPT_LIMIT > 0
    ensures Estimate(counter, threshold, history, prompt)
      == EstimateProjected(counter, threshold, Project(counter, PROMPT_LIMIT, history), prompt)
  {}

  // ---------------------------------------------------------------------
  // A measured request, and history that only grew since
  // ---------------------------------------------------------------------

  /** `answer` carries the provider's measurement of a request for `input` and `history`. */
  ghost predicate Measured(counter: Counter, history: seq<Message>, answer: Message, usage: Usage, input: ContextInput) {
    && answer.role == Assistant
    && answer.metadata.Some?
    && answer.metadata.value.usage == Some(usage)
    && answer.metadata.value.contextInput
       == Some(input.(historyDigest := ContextDigest(Project(counter, PROMPT_LIMIT, history))))
  }

  lemma ProjectKeepsMetadata(counter: Counter, limit: int, h: seq<Message>, i: nat)
    requires i < |h|
    ensures var m := Project(counter, limit, h)[i];
      m.role == h[i].role && m.metadata == h[i].metadata && m.contextual == h[i].contextual
  {
    ProjectAt(counter, limit, h, i);
  }

  lemma LatestIs(h: seq<Message>, i: nat)
    requires i < |h| && HasUsage(h[i]) && forall j :: i < j < |h| ==> !HasUsage(h[j])
    ensures LatestMeasured(h) == i
  {}

  /** With a threshold of at least the prompt limit, what came after is counted as it is sent. */
  lemma LocalOfProjected(counter: Counter, threshold: int, h: seq<Message>)
    requires counter("") == 0 && threshold >= PROMPT_LIMIT
    ensures Local(counter, threshold, Project(counter, PROMPT_LIMIT, h)) == Count(counter, Project(counter, PROMPT_LIMIT, h))
  {
    ProjectIdempotent(counter, PROMPT_LIMIT, threshold, h);
  }

  /** While a history only grows by unmeasured messages under the same profile, the estimate is
      what the provider measured, plus growth of the prefix, plus the local count of the answer and
      all that came after; and these are counted as they are sent if the threshold is at least the
      prompt limit. */
  lemma GrowthUsesMeasurement(counter: Counter, threshold: int, before: seq<Message>, answer: Message,
                              after: seq<Message>, usage: Usage, input: ContextInput, prompt: ContextInput)
    requires Measured(counter, before, answer, usage, input) && Measures(usage)
    requires input.promptKey != "" && input.profileKey != "" && input.profileKey == prompt.profileKey
    requires forall j :: 0 <= j < |after| ==> !HasUsage(after[j])
    ensures Estimate(counter, threshold, before + [answer] + after, prompt)
      == (usage.TotalInput() + Growth(prompt.prefixTokens, input.prefixTokens)
          + Local(counter, threshold, Project(counter, PROMPT_LIMIT, [answer] + after)), true)
    ensures counter("") == 0 && threshold >= PROMPT_LIMIT ==>
      Estimate(counter, threshold, before + [answer] + after, prompt).0
      == usage.TotalInput() + Growth(prompt.prefixTokens, input.prefixTokens)
         + Count(counter, Project(counter, PROMPT_LIMIT, [answer] + after))
  {
    hide *;
    if counter("") == 0 && threshold >= PROMPT_LIMIT {
      LocalOfProjected(counter, threshold, [answer] + after);
    }
    var history := before + [answer] + after;
    var rest := [answer] + after;
    var h := Project(counter, PROMPT_LIMIT, history);
    var i := |before|;
    assert history == before + rest;
    ProjectConcat(counter, PROMPT_LIMIT, before, rest);
    assert h[..i] == Project(counter, PROMPT_LIMIT, before);
    assert h[i..] == Project(counter, PROMPT_LIMIT, rest);
    LatestSurvivesProjection(counter, history, i) by {
      MeasuredIs(counter, before, answer, usage, input);
      assert forall j :: i < j < |history| ==> history[j] == after[j - i - 1];
    }
    MeasuredIs(counter, before, answer, usage, input);
    EstimateIs(counter, threshold, history, prompt);
    EstimateMeasured(counter, threshold, h, i, usage,
                     input.(historyDigest := ContextDigest(Project(counter, PROMPT_LIMIT, before))), prompt);
  }

  lemma MeasuredIs(counter: Counter, history: seq<Message>, answer: Message, usage: Usage, input: ContextInput)
    requires Measured(counter, history, answer, usage, input)
    ensures HasUsage(answer) && answer.metadata.value.usage == Some(usage)
    ensures answer.metadata.value.contextInput
      == Some(input.(historyDigest := ContextDigest(Project(counter, PROMPT_LIMIT, history))))
  {}

  lemma EstimateMeasured(counter: Counter, threshold: int, h: seq<Message>, i: nat, usage: Usage, input: ContextInput, prompt: ContextInput)
    requires LatestMeasured(h) == i && h[i].metadata.value == Metadata(Some(usage), Some(input)) && Measures(usage)
    requires input.promptKey != "" && input.profileKey != "" && input.profileKey == prompt.profileKey
    requires input.historyDigest == ContextDigest(h[..i])
    ensures EstimateProjected(counter, threshold, h, prompt)
      == (usage.TotalInput() + Growth(prompt.prefixTokens, input.prefixTokens) + Local(counter, threshold, h[i..]), true)
  {
    hide Local, LatestMeasured, Project, Count, ContextDigest;
  }

  lemma EstimateUnmeasured(counter: Counter, threshold: int, h: seq<Message>, i: nat, prompt: ContextInput)
    requires i < |h| && LatestMeasured(h) == i && !Matches(h, i, prompt)
    ensures EstimateProjected(counter, threshold, h, prompt) == (prompt.prefixTokens + Local(counter, threshold, h), false)
  {
    hide Local, Matches, LatestMeasured, Project, Count, ContextDigest;
  }

  lemma LatestSurvivesProjection(counter: Counter, history: seq<Message>, i: nat)
    requires i < |history| && HasUsage(history[i])
    requires forall j :: i < j < |history| ==> !HasUsage(history[j])
    ensures var h := Project(counter, PROMPT_LIMIT, history);
      LatestMeasured(h) == i && h[i].metadata == history[i].metadata && HasUsage(h[i])
  {
    hide Project;
    var h := Project(counter, PROMPT_LIMIT, history);
    forall j | i <= j < |h| ensures HasUsage(h[j]) == HasUsage(history[j]) && h[j].metadata == history[j].metadata {
      ProjectKeepsMetadata(counter, PROMPT_LIMIT, history, j);
    }
    LatestIs(h, i);
  }

  /** The estimate of a history is the estimate of its projection. */
  lemma EstimateOfProjected(counter: Counter, threshold: int, history: seq<Message>, prompt: ContextInput)
    requires counter("") == 0
    ensures Estimate(counter, threshold, Project(counter, PROMPT_LIMIT, history), prompt)
      == Estimate(counter, threshold, history, prompt)
  {
    hide *;
    EstimateIs(counter, threshold, history, prompt);
    ProjectIdempotent(counter, PROMPT_LIMIT, PROMPT_LIMIT, history);
    EstimateIs(counter, threshold, Project(counter, PROMPT_LIMIT, history), prompt);
  }

  // ---------------------------------------------------------------------
  // Otherwise: the local estimate, never an older measurement
  // ---------------------------------------------------------------------

  /** A measurement that no longer matches leaves the pure local estimate. */
  lemma StaleMeasurementIgnored(counter: Counter, threshold: int, history: seq<Message>, i: nat, prompt: ContextInput)
    requires i < |history| && HasUsage(history[i])
    requires forall j :: i < j < |history| ==> !HasUsage(history[j])
    requires var input := history[i].metadata.value.contextInput;
      || input == None
      || input.value.profileKey != prompt.profileKey
      || input.value.historyDigest != ContextDigest(Project(counter, PROMPT_LIMIT, history[..i]))
    ensures Estimate(counter, threshold, history, prompt)
      == (prompt.prefixTokens + Local(counter, threshold, Project(counter, PROMPT_LIMIT, history)), false)
  {
    hide *;
    var h := Project(counter, PROMPT_LIMIT, history);
    assert history == history[..i] + history[i..];
    ProjectConcat(counter, PROMPT_LIMIT, history[..i], history[i..]);
    assert h[..i] == Project(counter, PROMPT_LIMIT, history[..i]);
    LatestSurvivesProjection(counter, history, i);
    EstimateIs(counter, threshold, history, prompt);
    StaleDoesNotMatch(h, i, prompt);
    EstimateUnmeasured(counter, threshold, h, i, prompt);
  }

  lemma StaleDoesNotMatch(h: seq<Message>, i: nat, prompt: ContextInput)
    requires i < |h| && HasUsage(h[i])
    requires var input := h[i].metadata.value.contextInput;
      || input == None
      || input.value.profileKey != prompt.profileKey
      || input.value.historyDigest != ContextDigest(h[..i])
    ensures !Matches(h, i, prompt)
  {}

  /** Two histories that show the same and carry the same metadata from `i` on. */
  ghost predicate AgreeFrom(a: seq<Message>, b: seq<Message>, i: nat) {
    && |a| == |b|
    && (forall j :: 0 <= j < |a| ==> a[j].role == b[j].role && a[j].content == b[j].content)
    && (forall j :: i <= j < |a| ==> a[j].metadata == b[j].metadata)
  }

  lemma {:induction false} DigestOfAgreeing(a: seq<Message>, b: seq<Message>, i: nat)
    requires AgreeFrom(a, b, i)
    ensures ContextDigest(a) == ContextDigest(b)
  {
    if a != [] {
      DigestOfAgreeing(a[..|a| - 1], b[..|b| - 1], i);
    }
  }

  lemma {:induction false} CountOfAgreeing(counter: Counter, a: seq<Message>, b: seq<Message>, i: nat)
    requires AgreeFrom(a, b, i)
    ensures Count(counter, a) == Count(counter, b)
  {
    if a != [] {
      CountOfAgreeing(counter, a[..|a| - 1], b[..|b| - 1], i);
    }
  }

  lemma ProjectAgrees(counter: Counter, limit: int, a: seq<Message>, b: seq<Message>, i: nat)
    requires AgreeFrom(a, b, i)
    ensures AgreeFrom(Project(counter, limit, a), Project(counter, limit, b), i)
  {
    hide Project;
    forall j | 0 <= j < |a|
      ensures Project(counter, limit, a)[j] == ProjectMessage(counter, limit, a[j])
      ensures Project(counter, limit, b)[j] == ProjectMessage(counter, limit, b[j])
    {
      ProjectAt(counter, limit, a, j);
      ProjectAt(counter, limit, b, j);
    }
  }

  lemma LocalOfAgreeing(counter: Counter, threshold: int, a: seq<Message>, b: seq<Message>, i: nat)
    requires AgreeFrom(a, b, i)
    ensures Local(counter, threshold, a) == Local(counter, threshold, b)
  {
    ProjectAgrees(counter, threshold, a, b, i);
    CountOfAgreeing(counter, Project(counter, threshold, a), Project(counter, threshold, b), i);
  }

  lemma LatestAgrees(a: seq<Message>, b: seq<Message>, i: nat)
    requires i < |a| && HasUsage(a[i]) && AgreeFrom(a, b, i)
    ensures i <= LatestMeasured(a) == LatestMeasured(b)
  {
    var k := LatestMeasured(a);
    assert k >= i;
    assert forall j :: k < j < |b| ==> HasUsage(b[j]) == HasUsage(a[j]);
    LatestIs(b, k);
  }

  lemma MatchAgrees(a: seq<Message>, b: seq<Message>, i: nat, k: nat, prompt: ContextInput)
    requires i <= k < |a| && AgreeFrom(a, b, i) && HasUsage(a[k])
    ensures HasUsage(b[k]) && a[k].metadata == b[k].metadata && Matches(a, k, prompt) == Matches(b, k, prompt)
  {
    DigestOfAgreeing(a[..k], b[..k], i);
  }

  /** Measurements before the latest measured answer have no influence, whatever they say. */
  lemma OlderMeasurementsIgnored(counter: Counter, threshold: int, a: seq<Message>, b: seq<Message>, i: nat, prompt: ContextInput)
    requires i < |a| && HasUsage(a[i]) && AgreeFrom(a, b, i)
    ensures Estimate(counter, threshold, a, prompt) == Estimate(counter, threshold, b, prompt)
  {
    hide Project, Local, Matches, ContextDigest, LatestMeasured;
    var ha, hb := Project(counter, PROMPT_LIMIT, a), Project(counter, PROMPT_LIMIT, b);
    ProjectAgrees(counter, PROMPT_LIMIT, a, b, i);
    ProjectKeepsMetadata(counter, PROMPT_LIMIT, a, i);
    var k := LatestMeasured(ha);
    LatestAgrees(ha, hb, i);
    MatchAgrees(ha, hb, i, k, prompt);
    assert AgreeFrom(ha[k..], hb[k..], 0);
    LocalOfAgreeing(counter, threshold, ha[k..], hb[k..], 0);
    LocalOfAgreeing(counter, threshold, ha, hb, i);
  }
}
