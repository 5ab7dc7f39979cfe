/** Pages answered from the derived index: core/session/display_index.go, lines 200-311.

    The queries select rows; these lemmas carry every selection over to the records the
    rows stand for, and compare the indexed page with the page over the whole log. */
module IndexedPaging {
  import opened Wrappers
  import opened JsonLines
  import opened DisplayItems
  import opened DisplayIndex
  import opened DisplayPaging
  import opened Sorting

  datatype TimeWindow = TimeWindow(since: Option<int>, until: Option<int>)
  {
    predicate Contains(nanos: int) {
      (since.Some? ==> nanos >= since.value) && (until.Some? ==> nanos < until.value)
    }

    function Accepts(): Item -> bool {
      (x: Item) => Contains(Nanos(x.createdAt))
    }
  }

  const ALL_TIME: TimeWindow := TimeWindow(None, None)

  function RowFilter(f: Filter, w: TimeWindow): IndexRow -> bool {
    (r: IndexRow) => w.Contains(r.messageAt) && f.Wants(r.kind)
  }

  function RowAbove(cursor: nat): IndexRow -> bool {
    (r: IndexRow) => r.sequence > cursor
  }

  function RowBelow(cursor: nat): IndexRow -> bool {
    (r: IndexRow) => r.sequence < cursor
  }

  function Within(items: seq<Item>, w: TimeWindow): seq<Item> {
    Select(items, w.Accepts())
  }

  function Reversed<T>(s: seq<T>): seq<T> {
    if s == [] then [] else Reversed(s[1..]) + [s[0]]
  }

  // ---------------------------------------------------------------------
  // Rows and the records they stand for
  // ---------------------------------------------------------------------

  /** `r` is the row of the record `x` of this log. */
  ghost predicate StandsFor(c: Codec<Item>, items: seq<Item>, r: IndexRow, x: Item) {
    && 1 <= r.sequence <= |items|
    && r == RowOf(c, items, r.sequence - 1)
    && x == items[r.sequence - 1]
  }

  /** The rows `rs` are, one for one, the rows of the records `xs`. */
  ghost predicate Stand(c: Codec<Item>, items: seq<Item>, rs: seq<IndexRow>, xs: seq<Item>) {
    && |rs| == |xs|
    && forall k :: 0 <= k < |rs| ==> StandsFor(c, items, rs[k], xs[k])
  }

  lemma StandConcat(c: Codec<Item>, items: seq<Item>, rs: seq<IndexRow>, xs: seq<Item>, rs': seq<IndexRow>, xs': seq<Item>)
    requires Stand(c, items, rs, xs) && Stand(c, items, rs', xs')
    ensures Stand(c, items, rs + rs', xs + xs')
  {
    forall k | 0 <= k < |rs + rs'| ensures StandsFor(c, items, (rs + rs')[k], (xs + xs')[k]) {
      if k >= |rs| {
        assert (rs + rs')[k] == rs'[k - |rs|] && (xs + xs')[k] == xs'[k - |rs|];
      }
    }
  }

  lemma {:induction false} TableStands(c: Codec<Item>, items: seq<Item>, n: nat)
    requires Numbered(items) && n <= |items|
    ensures Stand(c, items, IndexRows(c, items, n), items[..n])
  {
    if n > 0 {
      TableStands(c, items, n - 1);
    }
  }

  lemma {:induction false} SelectStands(c: Codec<Item>, items: seq<Item>, rs: seq<IndexRow>, xs: seq<Item>,
                                        p: IndexRow -> bool, p': Item -> bool)
    requires Stand(c, items, rs, xs)
    requires forall k :: 0 <= k < |rs| ==> p(rs[k]) == p'(xs[k])
    ensures Stand(c, items, Select(rs, p), Select(xs, p'))
  {
    if rs != [] {
      var r, x := rs[|rs| - 1], xs[|xs| - 1];
      SelectStands(c, items, rs[..|rs| - 1], xs[..|xs| - 1], p, p');
      assert StandsFor(c, items, r, x);
      StandConcat(c, items, Select(rs[..|rs| - 1], p), Select(xs[..|xs| - 1], p'),
                  if p(r) then [r] else [], if p'(x) then [x] else []);
    }
  }

  lemma {:induction false} SelectTwice<T>(s: seq<T>, p: T -> bool, p': T -> bool, both: T -> bool)
    requires forall i :: 0 <= i < |s| ==> (both(s[i]) <==> p(s[i]) && p'(s[i]))
    ensures Select(Select(s, p), p') == Select(s, both)
  {
    if s != [] {
      var front, last := s[..|s| - 1], s[|s| - 1];
      SelectTwice(front, p, p', both);
      SelectConcat(Select(front, p), if p(last) then [last] else [], p');
    }
  }

  /** The rows a page query starts from stand for the matching records of the window. */
  lemma MatchingStands(c: Codec<Item>, items: seq<Item>, f: Filter, w: TimeWindow)
    requires Numbered(items)
    ensures Stand(c, items, Select(IndexRows(c, items, |items|), RowFilter(f, w)), Matching(Within(items, w), f))
  {
    var both := (x: Item) => w.Contains(Nanos(x.createdAt)) && f.Wants(Kind(x));
    TableStands(c, items, |items|);
    assert items[..|items|] == items;
    SelectStands(c, items, IndexRows(c, items, |items|), items, RowFilter(f, w), both);
    SelectTwice(items, w.Accepts(), f.Accepts(), both);
  }

  lemma CursorStands(c: Codec<Item>, items: seq<Item>, rs: seq<IndexRow>, xs: seq<Item>, cursor: nat)
    requires Stand(c, items, rs, xs) && Numbered(items)
    ensures Stand(c, items, Select(rs, RowAbove(cursor)), Select(xs, Above(cursor)))
    ensures Stand(c, items, Select(rs, RowBelow(cursor)), Select(xs, Below(cursor)))
  {
    SelectStands(c, items, rs, xs, RowAbove(cursor), Above(cursor));
    SelectStands(c, items, rs, xs, RowBelow(cursor), Below(cursor));
  }

  lemma {:induction false} ReverseStands(c: Codec<Item>, items: seq<Item>, rs: seq<IndexRow>, xs: seq<Item>)
    requires Stand(c, items, rs, xs)
    ensures Stand(c, items, Reversed(rs), Reversed(xs))
  {
    if rs != [] {
      ReverseStands(c, items, rs[1..], xs[1..]);
      assert StandsFor(c, items, rs[0], xs[0]);
      StandConcat(c, items, Reversed(rs[1..]), Reversed(xs[1..]), [rs[0]], [xs[0]]);
    }
  }

  lemma {:induction false} ReversedParts<T>(s: seq<T>)
    ensures |Reversed(s)| == |s| && multiset(Reversed(s)) == multiset(s)
    ensures forall k :: 0 <= k < |s| ==> Reversed(s)[k] == s[|s| - 1 - k]
  {
    if s != [] {
      ReversedParts(s[1..]);
      assert s == [s[0]] + s[1..];
    }
  }

  /** ORDER BY ... DESC LIMIT n: the last `n`, newest first. */
  lemma NewestFirst<T>(s: seq<T>, n: nat)
    ensures Take(Reversed(s), n) == Reversed(TakeLast(s, n))
  {
    ReversedParts(s);
    ReversedParts(TakeLast(s, n));
  }

  // ---------------------------------------------------------------------
  // The indexed page against the page over the whole log
  // ---------------------------------------------------------------------

  /** What the index query selects: it applies both cursors when both are given. */
  function IndexChosen(all: seq<Item>, q: Query): seq<Item> {
    var above := if q.after.Some? then Select(all, Above(q.after.value)) else all;
    var bounded := if q.before.Some? then Select(above, Below(q.before.value)) else above;
    if q.after.Some? then Take(bounded, q.limit) else TakeLast(bounded, q.limit)
  }

  function IndexedPage(items: seq<Item>, q: Query): Page {
    var all := Matching(items, q.filter);
    if all == [] then Page([], None, None) else WithCursors(all, IndexChosen(all, q))
  }

  /** With at most one cursor the two forms agree. */
  lemma OneCursorAgrees(items: seq<Item>, q: Query)
    requires q.after.None? || q.before.None?
    ensures IndexedPage(items, q) == PageOf(items, q)
  {}

  /** Bounding a sequence before taking a page of it changes nothing exactly when the bounded part
      fills the page or the bound leaves nothing out. */
  lemma TakeBounded(items: seq<Item>, bound: nat, n: nat)
    requires Increasing(items)
    ensures Take(Select(items, Below(bound)), n) == Take(items, n) <==>
      |Select(items, Below(bound))| >= n || forall i :: 0 <= i < |items| ==> items[i].sequence < bound
  {
    hide Select, BoundBelow;
    var k := BoundBelow(items, bound);
    BelowIsPrefix(items, k, bound);
    CutBelow(items, k, bound);
    if k >= n {
      assert items[..k][..n] == items[..n];
    } else if k < |items| {
      assert |Take(items, n)| > k;
    }
  }

  lemma CutBelow(items: seq<Item>, k: nat, bound: nat)
    requires Increasing(items) && k <= |items| && (k > 0 ==> items[k - 1].sequence < bound)
    ensures forall i :: 0 <= i < k ==> items[i].sequence < bound
  {}

  /** The record matches and lies after the one cursor and before the other. */
  function Inside(q: Query): Item -> bool
    requires q.after.Some? && q.before.Some?
  {
    (x: Item) => q.filter.Wants(Kind(x)) && x.sequence > q.after.value && x.sequence < q.before.value
  }

  function Beyond(q: Query): Item -> bool
    requires q.after.Some?
  {
    (x: Item) => q.filter.Wants(Kind(x)) && x.sequence > q.after.value
  }

  /** With both cursors the two forms, records and cursors, agree if and only if the records that match
      between the cursors fill a page, or nothing that matches after the one is at or past the other:
      the form over the whole log looks at `after` alone. */
  lemma BothCursorsAgreeWhen(items: seq<Item>, q: Query)
    requires Increasing(items) && q.after.Some? && q.before.Some?
    ensures IndexedPage(items, q) == PageOf(items, q) <==>
      || |Select(items, Inside(q))| >= q.limit
      || forall i :: 0 <= i < |items| && Beyond(q)(items[i]) ==> items[i].sequence < q.before.value
  {
    hide Select;
    var all := Matching(items, q.filter);
    SelectIncreasing(items, q.filter.Accepts());
    SelectIncreasing(all, Above(q.after.value));
    SelectTwice(items, q.filter.Accepts(), Above(q.after.value), Beyond(q));
    SelectTwice(items, Beyond(q), Below(q.before.value), Inside(q));
    var beyond := Select(items, Beyond(q));
    TakeBounded(beyond, q.before.value, q.limit);
    SelectedAll(items, Beyond(q), Below(q.before.value));
    PagesByChosen(items, q);
  }

  /** Pages are equal when they show the same records. */
  lemma PagesByChosen(items: seq<Item>, q: Query)
    ensures IndexedPage(items, q) == PageOf(items, q) <==>
      IndexChosen(Matching(items, q.filter), q) == Chosen(Matching(items, q.filter), q)
  {}

  /** A property of all selected elements is one of all elements that are selected. */
  lemma SelectedAll<T>(s: seq<T>, p: T -> bool, holds: T -> bool)
    ensures (forall k :: 0 <= k < |Select(s, p)| ==> holds(Select(s, p)[k]))
      <==> forall i :: 0 <= i < |s| && p(s[i]) ==> holds(s[i])
  {
    hide Select;
    if forall i :: 0 <= i < |s| && p(s[i]) ==> holds(s[i]) {
      forall k | 0 <= k < |Select(s, p)| ensures holds(Select(s, p)[k]) {
        var i := SelectMember(s, p, k);
      }
    }
    forall i | 0 <= i < |s| && p(s[i]) ensures exists k :: 0 <= k < |Select(s, p)| && Select(s, p)[k] == s[i] {
      var k := SelectedAt(s, p, i);
    }
  }

  lemma {:induction false} SelectedAt<T>(s: seq<T>, p: T -> bool, i: nat) returns (k: nat)
    requires i < |s| && p(s[i])
    ensures k < |Select(s, p)| && Select(s, p)[k] == s[i]
  {
    if i == |s| - 1 {
      k := |Select(s, p)| - 1;
    } else {
      k := SelectedAt(s[..|s| - 1], p, i);
    }
  }

  /** One log on which they differ: three messages, after 0 and before 2. */
  lemma BothCursorsDiffer() returns (items: seq<Item>, q: Query)
    ensures Increasing(items) && IndexedPage(items, q) != PageOf(items, q)
  {
    var m := Item(1, "", At(0), UserMessage, [], false, "");
    items := [m, m.(sequence := 2), m.(sequence := 3)];
    q := Query(Filter(None, false), 10, Some(0), Some(2));
    BothCursorsAgreeWhen(items, q);
    SelectShort(items, Inside(q));
    assert Beyond(q)(items[2]);
  }

  lemma {:induction false} SelectShort<T>(s: seq<T>, p: T -> bool)
    ensures |Select(s, p)| <= |s|
  {
    if s != [] {
      SelectShort(s[..|s| - 1], p);
    }
  }
}
