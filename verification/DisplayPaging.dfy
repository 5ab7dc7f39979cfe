/** Pages over display records: core/session/display_log.go, lines 244-334.

    `PageOf` says what a page is; `PageDisplayItems` is the index arithmetic of the
    source; FollowPrevious says that the pages, taken together, lose nothing. */
module DisplayPaging {
  import opened Wrappers
  import opened DisplayItems

  /** Which kinds of record to show; no kind means all of them. */
  datatype Filter = Filter(kind: Option<ContentKind>, includeTools: bool)
  {
    predicate Wants(k: ContentKind) {
      kind.None? || k == kind.value || (includeTools && k == Tool)
    }

    function Accepts(): Item -> bool {
      (x: Item) => Wants(Kind(x))
    }
  }

  datatype Query = Query(filter: Filter, limit: nat, after: Option<nat>, before: Option<nat>)

  datatype Page = Page(items: seq<Item>, previous: Option<nat>, next: Option<nat>)
  {
    predicate HasMore() {
      previous.Some? || next.Some?
    }
  }

  // ---------------------------------------------------------------------
  // Selections
  // ---------------------------------------------------------------------

  /** The elements that satisfy `p`, in their order. */
  function Select<T>(s: seq<T>, p: T -> bool): seq<T> {
    if s == [] then []
    else Select(s[..|s| - 1], p) + if p(s[|s| - 1]) then [s[|s| - 1]] else []
  }

  lemma {:induction false} SelectMember<T>(s: seq<T>, p: T -> bool, k: nat) returns (i: nat)
    requires k < |Select(s, p)|
    ensures i < |s| && p(s[i]) && Select(s, p)[k] == s[i]
  {
    if k < |Select(s[..|s| - 1], p)| {
      i := SelectMember(s[..|s| - 1], p, k);
    } else {
      i := |s| - 1;
    }
  }

  ghost predicate Increasing(items: seq<Item>) {
    forall i, j :: 0 <= i < j < |items| ==> items[i].sequence < items[j].sequence
  }

  lemma {:induction false} SelectIncreasing(items: seq<Item>, p: Item -> bool)
    requires Increasing(items)
    ensures Increasing(Select(items, p))
  {
    if items == [] {
    } else {
      var front := items[..|items| - 1];
      SelectIncreasing(front, p);
      forall k | 0 <= k < |Select(front, p)|
        ensures Select(front, p)[k].sequence < items[|items| - 1].sequence
      {
        var i := SelectMember(front, p, k);
        assert front[i] == items[i];
      }
    }
  }

  lemma {:induction false} SelectConcat<T>(a: seq<T>, b: seq<T>, p: T -> bool)
    ensures Select(a + b, p) == Select(a, p) + Select(b, p)
  {
    if b == [] {
      assert a + b == a;
    } else {
      assert (a + b)[..|a + b| - 1] == a + b[..|b| - 1];
      SelectConcat(a, b[..|b| - 1], p);
    }
  }

  lemma {:induction false} SelectAll<T>(s: seq<T>, p: T -> bool)
    requires forall i :: 0 <= i < |s| ==> p(s[i])
    ensures Select(s, p) == s
  {
    if s != [] {
      SelectAll(s[..|s| - 1], p);
    }
  }

  lemma {:induction false} SelectNone<T>(s: seq<T>, p: T -> bool)
    requires forall i :: 0 <= i < |s| ==> !p(s[i])
    ensures Select(s, p) == []
  {
    if s != [] {
      SelectNone(s[..|s| - 1], p);
    }
  }

  /** A selection of exactly the elements from `k` on, or before `k`, is that slice. */
  lemma SelectSuffix<T>(s: seq<T>, k: nat, p: T -> bool)
    requires k <= |s| && forall i :: 0 <= i < |s| ==> (p(s[i]) <==> k <= i)
    ensures Select(s, p) == s[k..]
  {
    hide Select;
    assert s == s[..k] + s[k..];
    SelectConcat(s[..k], s[k..], p);
    SelectNone(s[..k], p);
    SelectAll(s[k..], p);
  }

  lemma SelectPrefix<T>(s: seq<T>, k: nat, p: T -> bool)
    requires k <= |s| && forall i :: 0 <= i < |s| ==> (p(s[i]) <==> i < k)
    ensures Select(s, p) == s[..k]
  {
    hide Select;
    assert s == s[..k] + s[k..];
    SelectConcat(s[..k], s[k..], p);
    SelectAll(s[..k], p);
    SelectNone(s[k..], p);
  }

  function Take<T>(s: seq<T>, n: nat): seq<T> {
    if n < |s| then s[..n] else s
  }

  function TakeLast<T>(s: seq<T>, n: nat): seq<T> {
    if n < |s| then s[|s| - n..] else s
  }

  // ---------------------------------------------------------------------
  // What a page is
  // ---------------------------------------------------------------------

  function Matching(items: seq<Item>, f: Filter): seq<Item> {
    Select(items, f.Accepts())
  }

  function Above(cursor: nat): Item -> bool {
    (x: Item) => x.sequence > cursor
  }

  function Below(cursor: nat): Item -> bool {
    (x: Item) => x.sequence < cursor
  }

  /** The page that shows `chosen` out of `all`: a cursor on each side that has more. */
  function WithCursors(all: seq<Item>, chosen: seq<Item>): Page
    requires chosen != [] ==> all != []
  {
    if chosen == [] then Page([], None, None)
    else
      var first, last := chosen[0].sequence, chosen[|chosen| - 1].sequence;
      Page(chosen,
           if first > all[0].sequence then Some(first) else None,
           if last < all[|all| - 1].sequence then Some(last) else None)
  }

  /** The `limit` records right after the `after` cursor, or right before the `before`
      cursor, or the newest ones. */
  function Chosen(all: seq<Item>, q: Query): seq<Item> {
    if q.after.Some? then Take(Select(all, Above(q.after.value)), q.limit)
    else if q.before.Some? then TakeLast(Select(all, Below(q.before.value)), q.limit)
    else TakeLast(all, q.limit)
  }

  function PageOf(items: seq<Item>, q: Query): Page {
    var all := Matching(items, q.filter);
    WithCursors(all, Chosen(all, q))
  }

  /** In an increasing sequence a cursor cuts at one index. */
  lemma AboveIsSuffix(items: seq<Item>, k: nat, cursor: nat)
    requires Increasing(items) && k <= |items|
    requires k > 0 ==> items[k - 1].sequence <= cursor
    requires k < |items| ==> items[k].sequence > cursor
    ensures Select(items, Above(cursor)) == items[k..]
  {
    SelectSuffix(items, k, Above(cursor));
  }

  lemma BelowIsPrefix(items: seq<Item>, k: nat, cursor: nat)
    requires Increasing(items) && k <= |items|
    requires k > 0 ==> items[k - 1].sequence < cursor
    requires k < |items| ==> items[k].sequence >= cursor
    ensures Select(items, Below(cursor)) == items[..k]
  {
    SelectPrefix(items, k, Below(cursor));
  }

  // ---------------------------------------------------------------------
  // The source's index arithmetic
  // ---------------------------------------------------------------------

  method FirstIndexAfter(items: seq<Item>, sequence: nat) returns (r: nat)
    ensures r <= |items|
    ensures r < |items| ==> items[r].sequence > sequence
    ensures forall i :: 0 <= i < r ==> items[i].sequence <= sequence
  {
    for i := 0 to |items|
      invariant forall j :: 0 <= j < i ==> items[j].sequence <= sequence
    {
      if items[i].sequence > sequence {
        return i;
      }
    }
    return |items|;
  }

  method FirstIndexAtOrAfter(items: seq<Item>, sequence: nat) returns (r: nat)
    ensures r <= |items|
    ensures r < |items| ==> items[r].sequence >= sequence
    ensures forall i :: 0 <= i < r ==> items[i].sequence < sequence
  {
    for i := 0 to |items|
      invariant forall j :: 0 <= j < i ==> items[j].sequence < sequence
    {
      if items[i].sequence >= sequence {
        return i;
      }
    }
    return |items|;
  }

  lemma ChosenFromNothing(items: seq<Item>, q: Query)
    requires items == []
    ensures items[0..0] == Chosen(items, q)
  {}

  /** The window of `items` a query shows, as a half-open index range. */
  method DisplayWindow(items: seq<Item>, q: Query) returns (start: nat, end: nat)
    ensures start <= end <= |items|
    ensures Increasing(items) ==> items[start..end] == Chosen(items, q)
  {
    hide Select, Increasing;
    var total := |items|;
    if total == 0 {
      ChosenFromNothing(items, q);
      return 0, 0;
    }
    if q.after.Some? {
      start := FirstIndexAfter(items, q.after.value);
      end := if start + q.limit < total then start + q.limit else total;
      if Increasing(items) {
        AboveIsSuffix(items, start, q.after.value);
      }
    } else if q.before.Some? {
      end := FirstIndexAtOrAfter(items, q.before.value);
      start := if end < q.limit then 0 else end - q.limit;
      if Increasing(items) {
        BelowIsPrefix(items, end, q.before.value);
      }
    } else {
      end := total;
      start := if end < q.limit then 0 else end - q.limit;
    }
  }

  method FilterByKind(items: seq<Item>, f: Filter) returns (all: seq<Item>)
    requires f.kind.Some?
    ensures all == Matching(items, f)
  {
    all := [];
    for i := 0 to |items|
      invariant all == Matching(items[..i], f)
    {
      assert items[..i + 1][..i] == items[..i];
      if Kind(items[i]) == f.kind.value || (f.includeTools && Kind(items[i]) == Tool) {
        all := all + [items[i]];
      }
    }
    assert items[..|items|] == items;
  }

  /** The slow form: filter every record, then cut the window out. */
  method PageDisplayItems(items: seq<Item>, q: Query) returns (page: Page)
    ensures Increasing(items) ==> page == PageOf(items, q)
  {
    var all := items;
    if q.filter.kind.Some? {
      all := FilterByKind(items, q.filter);
    } else {
      SelectAll(items, q.filter.Accepts());
    }
    assert all == Matching(items, q.filter);
    if Increasing(items) {
      SelectIncreasing(items, q.filter.Accepts());
    }
    var start, end := DisplayWindow(all, q);
    page := CursorsAround(all, all[start..end]);
  }

  method CursorsAround(all: seq<Item>, chosen: seq<Item>) returns (page: Page)
    requires chosen != [] ==> all != []
    ensures page == WithCursors(all, chosen)
  {
    if |chosen| == 0 {
      return Page(chosen, None, None);
    }
    var first, last := chosen[0].sequence, chosen[|chosen| - 1].sequence;
    var previous, next := None, None;
    if first > all[0].sequence {
      previous := Some(first);
    }
    if last < all[|all| - 1].sequence {
      next := Some(last);
    }
    return Page(chosen, previous, next);
  }

  // ---------------------------------------------------------------------
  // Walking the pages
  // ---------------------------------------------------------------------

  /** The matching records below a cursor: what is left to list. */
  ghost function Remaining(items: seq<Item>, q: Query, cursor: Option<nat>): seq<Item> {
    var all := Matching(items, q.filter);
    if cursor.Some? then Select(all, Below(cursor.value)) else all
  }

  /** What is left below a cursor is a prefix of the matching records. */
  lemma RemainingIsPrefix(items: seq<Item>, q: Query, cursor: Option<nat>)
    requires Increasing(items)
    ensures Increasing(Matching(items, q.filter))
    ensures |Remaining(items, q, cursor)| <= |Matching(items, q.filter)|
    ensures Remaining(items, q, cursor) == Matching(items, q.filter)[..|Remaining(items, q, cursor)|]
  {
    SelectIncreasing(items, q.filter.Accepts());
    if cursor.Some? {
      var all := Matching(items, q.filter);
      BelowIsPrefix(all, BoundBelow(all, cursor.value), cursor.value);
    }
  }

  /** A page cut from the end of the first `k` records: its cursor is where it was cut. */
  lemma CutPage(all: seq<Item>, k: nat, limit: nat)
    requires Increasing(all) && k <= |all| && limit > 0
    ensures var page := WithCursors(all, TakeLast(all[..k], limit));
      && (page.previous.None? ==> page.items == all[..k])
      && (page.previous.Some? ==>
            var cut := k - |page.items|;
            && 0 < cut < k
            && page.items == all[cut..k]
            && Select(all, Below(page.previous.value)) == all[..cut])
  {
    if k > limit {
      var cut := k - limit;
      assert TakeLast(all[..k], limit) == all[cut..k];
      BelowIsPrefix(all, cut, all[cut].sequence);
    }
  }

  /** The page before a cursor is the newest part of what is left below it. */
  lemma PageBefore(items: seq<Item>, q: Query, cursor: Option<nat>)
    ensures PageOf(items, q.(after := None, before := cursor))
      == WithCursors(Matching(items, q.filter), TakeLast(Remaining(items, q, cursor), q.limit))
  {
    hide Select;
  }

  /** One step back: the page is the newest part of what is left, and its cursor leaves the rest. */
  lemma StepBack(items: seq<Item>, q: Query, cursor: Option<nat>)
    requires Increasing(items) && q.limit > 0
    ensures var page := PageOf(items, q.(after := None, before := cursor));
      var left := Remaining(items, q, cursor);
      && (page.previous.None? ==> page.items == left)
      && (page.previous.Some? ==>
            && left == Remaining(items, q, page.previous) + page.items
            && page.items != [])
  {
    hide Matching, Select, Increasing, PageOf, WithCursors;
    RemainingIsPrefix(items, q, cursor);
    var all, k := Matching(items, q.filter), |Remaining(items, q, cursor)|;
    CutPage(all, k, q.limit);
    var page := WithCursors(all, TakeLast(all[..k], q.limit));
    PageBefore(items, q, cursor);
    assert Remaining(items, q, cursor) == all[..k];
    assert page == PageOf(items, q.(after := None, before := cursor));
    if page.previous.Some? {
      assert Remaining(items, q, page.previous) == Select(all, Below(page.previous.value));
      var cut := k - |page.items|;
      assert all[..k] == all[..cut] + all[cut..k];
    }
  }

  /** How many records lie below a cursor. */
  ghost function BoundBelow(items: seq<Item>, cursor: nat): (k: nat)
    requires Increasing(items)
    ensures k <= |items|
    ensures k > 0 ==> items[k - 1].sequence < cursor
    ensures k < |items| ==> items[k].sequence >= cursor
  {
    if items == [] || items[|items| - 1].sequence < cursor then |items|
    else BoundBelow(items[..|items| - 1], cursor)
  }

  /** Every record seen by following `previous` from a page, oldest first. */
  ghost function FollowPrevious(items: seq<Item>, q: Query, cursor: Option<nat>): seq<Item>
    requires Increasing(items) && q.limit > 0
    decreases |Remaining(items, q, cursor)|
  {
    StepBack(items, q, cursor);
    var page := PageOf(items, q.(after := None, before := cursor));
    if page.previous.None? then page.items
    else FollowPrevious(items, q, page.previous) + page.items
  }

  /** Following the cursors from the newest page lists every matching record exactly once, in order. */
  lemma {:induction false} PagesPartition(items: seq<Item>, q: Query, cursor: Option<nat>)
    requires Increasing(items) && q.limit > 0
    ensures FollowPrevious(items, q, cursor) == Remaining(items, q, cursor)
    decreases |Remaining(items, q, cursor)|
  {
    StepBack(items, q, cursor);
    var page := PageOf(items, q.(after := None, before := cursor));
    if page.previous.Some? {
      PagesPartition(items, q, page.previous);
    }
  }

  lemma NewestPageReachesAll(items: seq<Item>, q: Query)
    requires Increasing(items) && q.limit > 0
    ensures FollowPrevious(items, q, None) == Matching(items, q.filter)
  {
    PagesPartition(items, q, None);
  }
}
