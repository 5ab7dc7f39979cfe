/** Reordering part of a navigation list: core/workspace/navigation.go, lines 109-192. */
module Navigation {
  import opened Wrappers
  import opened Sorting

  datatype Item = Item(kind: string, id: string)

  datatype Error = Stale | Duplicate

  ghost predicate Distinct(items: seq<Item>) {
    forall i, j :: 0 <= i < j < |items| ==> items[i] != items[j]
  }

  /** Distinct items of the current list. */
  ghost predicate Selects(current: seq<Item>, items: seq<Item>) {
    Distinct(items) && forall i :: 0 <= i < |items| ==> items[i] in current
  }

  /** The items a reorder uses when it imports an old order: those still there, each once. */
  function Importable(current: seq<Item>, items: seq<Item>): (r: seq<Item>)
    ensures forall i :: 0 <= i < |r| ==> r[i] in current && r[i] in items
  {
    if items == [] then []
    else
      var before := Importable(current, items[..|items| - 1]);
      var item := items[|items| - 1];
      if item in current && item !in before then before + [item] else before
  }

  function Count(current: seq<Item>, items: seq<Item>): nat {
    if current == [] then 0 else Count(current[..|current| - 1], items) + if current[|current| - 1] in items then 1 else 0
  }

  /** What goes into the slot behind `before`. */
  function Filler(before: seq<Item>, item: Item, items: seq<Item>): Item {
    if item in items && Count(before, items) < |items| then items[Count(before, items)] else item
  }

  /** The new list: selected slots take the requested items in turn, the others stay. */
  function Placed(current: seq<Item>, items: seq<Item>): (r: seq<Item>)
    ensures |r| == |current|
  {
    if current == [] then []
    else
      var n := |current| - 1;
      Placed(current[..n], items) + [Filler(current[..n], current[n], items)]
  }

  // ---------------------------------------------------------------------
  // The new list is the old one with the selected items rearranged
  // ---------------------------------------------------------------------

  lemma {:induction false} CountIsCardinality(current: seq<Item>, items: seq<Item>)
    requires Distinct(current) && Distinct(items)
    ensures Count(current, items) == |set x | x in items && x in current|
  {
    var here := set x | x in items && x in current;
    if current == [] {
      assert here == {};
    } else {
      var n := |current| - 1;
      var before := set x | x in items && x in current[..n];
      CountIsCardinality(current[..n], items);
      assert current[n] !in current[..n];
      assert current == current[..n] + [current[n]];
      assert here == if current[n] in items then before + {current[n]} else before;
    }
  }

  lemma {:induction false} DistinctCardinality(items: seq<Item>)
    requires Distinct(items)
    ensures |set x | x in items| == |items|
  {
    var all := set x | x in items;
    if items == [] {
      assert all == {};
    } else {
      var n := |items| - 1;
      DistinctCardinality(items[..n]);
      assert items == items[..n] + [items[n]];
      assert items[n] !in items[..n];
      assert all == (set x | x in items[..n]) + {items[n]};
    }
  }

  /** There are as many selected slots as selected items. */
  lemma SlotsMatchItems(current: seq<Item>, items: seq<Item>)
    requires Distinct(current) && Selects(current, items)
    ensures Count(current, items) == |items|
  {
    CountIsCardinality(current, items);
    DistinctCardinality(items);
    assert (set x | x in items && x in current) == set x | x in items;
  }

  function Chosen(list: seq<Item>, items: seq<Item>): seq<Item> {
    if list == [] then []
    else Chosen(list[..|list| - 1], items) + if list[|list| - 1] in items then [list[|list| - 1]] else []
  }

  lemma CountStep(current: seq<Item>, items: seq<Item>)
    requires current != []
    ensures Count(current, items)
      == Count(current[..|current| - 1], items) + if current[|current| - 1] in items then 1 else 0
  {}

  lemma PlacedStep(current: seq<Item>, items: seq<Item>)
    requires current != []
    ensures Placed(current, items)
      == Placed(current[..|current| - 1], items) + [Filler(current[..|current| - 1], current[|current| - 1], items)]
  {}

  lemma ChosenSnoc(list: seq<Item>, x: Item, items: seq<Item>)
    ensures Chosen(list + [x], items) == Chosen(list, items) + if x in items then [x] else []
  {
    assert (list + [x])[..|list|] == list;
  }

  /** Unselected items keep their slots, and selected slots hold selected items. */
  lemma {:induction false} PlacedKeeps(current: seq<Item>, items: seq<Item>, i: nat)
    requires Count(current, items) <= |items| && i < |current|
    ensures current[i] !in items ==> Placed(current, items)[i] == current[i]
    ensures current[i] in items ==> Placed(current, items)[i] in items
    decreases |current|
  {
    hide Placed, Count;
    CountStep(current, items);
    PlacedStep(current, items);
    if i < |current| - 1 {
      PlacedKeeps(current[..|current| - 1], items, i);
    }
  }

  /** The selected items appear in the requested order. */
  lemma {:induction false} PlacedInOrder(current: seq<Item>, items: seq<Item>)
    requires Count(current, items) <= |items|
    ensures Chosen(Placed(current, items), items) == items[..Count(current, items)]
  {
    if current != [] {
      hide Placed, Count, Chosen;
      var n := |current| - 1;
      var k := Count(current[..n], items);
      CountStep(current, items);
      PlacedStep(current, items);
      PlacedInOrder(current[..n], items);
      ChosenSnoc(Placed(current[..n], items), Filler(current[..n], current[n], items), items);
      if current[n] in items {
        assert items[..k] + [items[k]] == items[..k + 1];
      }
    }
  }

  lemma {:induction false} PlacedPermutes(current: seq<Item>, items: seq<Item>)
    requires Count(current, items) <= |items|
    ensures multiset(Placed(current, items)) + multiset(Chosen(current, items))
      == multiset(current) + multiset(items[..Count(current, items)])
    decreases |current|, 1
  {
    if current != [] {
      PlacedPermutesStep(current, items);
    }
  }

  lemma {:induction false} PlacedPermutesStep(current: seq<Item>, items: seq<Item>)
    requires current != [] && Count(current, items) <= |items|
    ensures multiset(Placed(current, items)) + multiset(Chosen(current, items))
      == multiset(current) + multiset(items[..Count(current, items)])
    decreases |current|, 0
  {
    hide Placed, Count, Chosen;
    var n := |current| - 1;
    var k := Count(current[..n], items);
    CountStep(current, items);
    PlacedStep(current, items);
    PlacedPermutes(current[..n], items);
    assert current == current[..n] + [current[n]];
    ChosenSnoc(current[..n], current[n], items);
    var before, chosen := Placed(current[..n], items), Chosen(current[..n], items);
    if current[n] in items {
      assert items[..k + 1] == items[..k] + [items[k]];
      Swap(before, chosen, current[..n], items[..k], items[k], current[n]);
    } else {
      Stay(before, chosen, current[..n], items[..k], current[n]);
    }
  }

  lemma Swap(placed: seq<Item>, chosen: seq<Item>, current: seq<Item>, items: seq<Item>, f: Item, x: Item)
    requires multiset(placed) + multiset(chosen) == multiset(current) + multiset(items)
    ensures multiset(placed + [f]) + multiset(chosen + [x]) == multiset(current + [x]) + multiset(items + [f])
  {
    assert multiset(placed + [f]) + multiset(chosen + [x]) == (multiset(placed) + multiset(chosen)) + multiset{f} + multiset{x};
    assert multiset(current + [x]) + multiset(items + [f]) == (multiset(current) + multiset(items)) + multiset{f} + multiset{x};
  }

  lemma Stay(placed: seq<Item>, chosen: seq<Item>, current: seq<Item>, items: seq<Item>, x: Item)
    requires multiset(placed) + multiset(chosen) == multiset(current) + multiset(items)
    ensures multiset(placed + [x]) + multiset(chosen) == multiset(current + [x]) + multiset(items)
  {
    assert multiset(placed + [x]) + multiset(chosen) == (multiset(placed) + multiset(chosen)) + multiset{x};
    assert multiset(current + [x]) + multiset(items) == (multiset(current) + multiset(items)) + multiset{x};
  }

  lemma Cancel(a: multiset<Item>, b: multiset<Item>, c: multiset<Item>)
    requires a + c == b + c
    ensures a == b
  {
    forall x ensures a[x] == b[x] {
      assert (a + c)[x] == (b + c)[x];
    }
  }

  lemma {:induction false} ChosenHolds(list: seq<Item>, items: seq<Item>)
    requires Distinct(list)
    ensures Distinct(Chosen(list, items))
    ensures forall x :: x in Chosen(list, items) <==> x in list && x in items
  {
    if list != [] {
      var n := |list| - 1;
      ChosenHolds(list[..n], items);
      assert list == list[..n] + [list[n]];
      assert list[n] !in list[..n];
    }
  }

  lemma {:induction false} SameElements(a: seq<Item>, b: seq<Item>)
    requires Distinct(a) && Distinct(b) && forall x :: x in a <==> x in b
    ensures multiset(a) == multiset(b)
  {
    forall x ensures multiset(a)[x] == multiset(b)[x] {
      OnceIn(a, x);
      OnceIn(b, x);
    }
  }

  lemma {:induction false} OnceIn(s: seq<Item>, x: Item)
    requires Distinct(s)
    ensures multiset(s)[x] == if x in s then 1 else 0
  {
    if s != [] {
      var n := |s| - 1;
      OnceIn(s[..n], x);
      assert s == s[..n] + [s[n]];
      assert s[n] !in s[..n];
    }
  }

  /** A reorder of any subset is a permutation of the list: unselected items keep their slots, and the
      selected slots hold the requested items in the requested order. */
  lemma ReorderPermutes(current: seq<Item>, items: seq<Item>)
    requires Distinct(current) && Selects(current, items)
    ensures Count(current, items) == |items|
    ensures multiset(Placed(current, items)) == multiset(current)
    ensures forall i :: 0 <= i < |current| && current[i] !in items ==> Placed(current, items)[i] == current[i]
    ensures Chosen(Placed(current, items), items) == items
  {
    hide Placed, Count, Chosen;
    SlotsMatchItems(current, items);
    PlacedInOrder(current, items);
    PlacedPermutes(current, items);
    assert items[..|items|] == items;
    ChosenHolds(current, items);
    SameElements(Chosen(current, items), items);
    Cancel(multiset(Placed(current, items)), multiset(current), multiset(items));
    forall i | 0 <= i < |current| && current[i] !in items ensures Placed(current, items)[i] == current[i] {
      PlacedKeeps(current, items, i);
    }
  }

  // ---------------------------------------------------------------------
  // Positions
  // ---------------------------------------------------------------------

  type Positions = map<Item, int>

  ghost predicate PositionsOf(list: seq<Item>, positions: Positions) {
    forall i :: 0 <= i < |list| ==> list[i] in positions && positions[list[i]] == (i + 1) * 1000
  }

  /** Items of other lists keep their positions. */
  ghost predicate Untouched(before: Positions, after: Positions, current: seq<Item>) {
    forall x :: x in before && x !in current ==> x in after && after[x] == before[x]
  }

  lemma OnePositionMore(list: seq<Item>, item: Item, before: Positions, positions: Positions, current: seq<Item>)
    requires PositionsOf(list, positions) && Distinct(list + [item])
    requires (forall x :: x in list + [item] ==> x in current) && Untouched(before, positions, current)
    ensures var next := positions[item := (|list| + 1) * 1000];
      PositionsOf(list + [item], next) && Untouched(before, next, current)
  {
    var all := list + [item];
    assert forall i :: 0 <= i < |list| ==> all[i] == list[i] && all[i] != all[|list|];
    assert all[|list|] in all;
  }

  function PositionKey(positions: Positions): Item -> int {
    (x: Item) => if x in positions then positions[x] else 0
  }

  /** Rereading a written list by position gives it back, in whatever order its rows come. */
  lemma RereadingGivesTheList(list: seq<Item>, positions: Positions, rows: seq<Item>)
    requires PositionsOf(list, positions) && multiset(rows) == multiset(list)
    ensures StableSort(rows, PositionKey(positions)) == list
  {
    SortRestores(rows, list, PositionKey(positions));
  }

  lemma {:induction false} ImportableSelects(current: seq<Item>, items: seq<Item>)
    ensures Selects(current, Importable(current, items))
  {
    if items != [] {
      ImportableSelects(current, items[..|items| - 1]);
    }
  }

  /** The position columns of a list; an error rolls the transaction back. */
  class NavigationList {
    var positions: Positions

    method Reorder(current: seq<Item>, requested: seq<Item>, importing: bool) returns (result: Result<seq<Item>, Error>)
      requires Distinct(current)
      modifies this
      ensures var items := if importing then Importable(current, requested) else requested;
        && (result.Ok? <==> Selects(current, items))
        && (importing ==> result.Ok?)
        && (result.Ok? ==>
          && Count(current, items) == |items|
          && result.value == Placed(current, items)
          && PositionsOf(result.value, positions)
          && Untouched(old(positions), positions, current))
      ensures result.Err? ==> positions == old(positions)
    {
      var items := requested;
      if importing {
        items := Filter(current, requested);
        ImportableSelects(current, requested);
      }
      var valid := Validate(current, items);
      if valid.Some? {
        return Err(valid.value);
      }
      SlotsMatchItems(current, items);
      var placed;
      placed, positions := WritePositions(current, items, positions);
      return Ok(placed);
    }
  }

  /** Walks the list; selected slots take the requested items one after the other. */
  method WritePositions(current: seq<Item>, items: seq<Item>, before: Positions) returns (placed: seq<Item>, positions: Positions)
    requires Distinct(current) && Selects(current, items)
    ensures placed == Placed(current, items) && PositionsOf(placed, positions) && Untouched(before, positions, current)
  {
    hide *;
    var next := 0;
    placed, positions := [], before;
    StartOfWalk(current, items, before);
    for index := 0 to |current|
      invariant next == Count(current[..index], items)
      invariant placed == Placed(current[..index], items)
      invariant PositionsOf(placed, positions) && Untouched(before, positions, current)
    {
      var item := current[index];
      PlacedNext(current, items, index);
      SlotsLeft(current, items, index);
      if item in items {
        item := items[next];
        next := next + 1;
      }
      PlacedDistinct(current, items, index + 1, placed + [item]);
      OnePositionMore(placed, item, before, positions, current);
      placed := placed + [item];
      positions := positions[item := (index + 1) * 1000];
    }
    assert current[..|current|] == current;
  }

  lemma StartOfWalk(current: seq<Item>, items: seq<Item>, before: Positions)
    ensures Count(current[..0], items) == 0 && Placed(current[..0], items) == []
    ensures PositionsOf([], before) && Untouched(before, before, current)
  {}

  /** A selected slot always finds an item. */
  lemma SlotsLeft(current: seq<Item>, items: seq<Item>, index: nat)
    requires Distinct(current) && Selects(current, items) && index < |current|
    ensures Count(current[..index + 1], items) <= |items|
    ensures current[index] in items ==> Count(current[..index], items) < |items|
    ensures Filler(current[..index], current[index], items)
      == if current[index] in items then items[Count(current[..index], items)] else current[index]
  {
    SlotsMatchItems(current, items);
    CountMonotone(current, items, index + 1);
    PlacedNext(current, items, index);
  }

  lemma PlacedNext(current: seq<Item>, items: seq<Item>, index: nat)
    requires index < |current|
    ensures Count(current[..index + 1], items) == Count(current[..index], items) + if current[index] in items then 1 else 0
    ensures Placed(current[..index + 1], items)
      == Placed(current[..index], items) + [Filler(current[..index], current[index], items)]
  {
    hide Placed, Count;
    CountStep(current[..index + 1], items);
    PlacedStep(current[..index + 1], items);
    assert current[..index + 1][..index] == current[..index];
  }

  lemma {:induction false} CountMonotone(current: seq<Item>, items: seq<Item>, k: nat)
    requires k <= |current|
    ensures Count(current[..k], items) <= Count(current, items)
    decreases |current|
  {
    if k < |current| {
      var n := |current| - 1;
      assert current[..n][..k] == current[..k];
      CountMonotone(current[..n], items, k);
    } else {
      assert current[..k] == current;
    }
  }

  lemma {:induction false} PlacedPrefix(current: seq<Item>, items: seq<Item>, k: nat)
    requires Count(current, items) <= |items| && k <= |current|
    ensures Count(current[..k], items) <= |items| && Placed(current, items)[..k] == Placed(current[..k], items)
    decreases |current|
  {
    CountMonotone(current, items, k);
    if k < |current| {
      var n := |current| - 1;
      assert current[..n][..k] == current[..k];
      PlacedPrefix(current[..n], items, k);
      assert Placed(current, items)[..k] == Placed(current[..n], items)[..k];
    } else {
      assert current[..k] == current;
    }
  }

  lemma PlacedDistinct(current: seq<Item>, items: seq<Item>, k: nat, placed: seq<Item>)
    requires Distinct(current) && Selects(current, items) && k <= |current| && Count(current[..k], items) <= |items|
    requires placed == Placed(current[..k], items)
    ensures Distinct(placed) && forall x :: x in placed ==> x in current
  {
    hide Placed, Count, Chosen;
    ReorderPermutes(current, items);
    PlacedPrefix(current, items, k);
    var all := Placed(current, items);
    assert placed == all[..k];
    forall i, j | 0 <= i < j < |all| ensures all[i] != all[j] {
      TwiceIn(all, i, j);
      OnceIn(current, all[i]);
    }
    forall x | x in placed ensures x in current {
      assert x in all[..k];
      assert x in multiset(all);
    }
  }

  lemma TwiceIn(s: seq<Item>, i: nat, j: nat)
    requires i < j < |s|
    ensures s[i] == s[j] ==> multiset(s)[s[i]] >= 2
  {
    assert s == s[..i] + [s[i]] + s[i + 1..j] + [s[j]] + s[j + 1..];
  }

  method Filter(current: seq<Item>, items: seq<Item>) returns (filtered: seq<Item>)
    ensures filtered == Importable(current, items)
  {
    filtered := [];
    for i := 0 to |items|
      invariant filtered == Importable(current, items[..i])
    {
      assert items[..i + 1][..i] == items[..i];
      if items[i] in current && items[i] !in filtered {
        filtered := filtered + [items[i]];
      }
    }
    assert items[..|items|] == items;
  }

  /** Refuses an item that left the list, and one that is named twice. */
  method Validate(current: seq<Item>, items: seq<Item>) returns (error: Option<Error>)
    ensures error == None <==> Selects(current, items)
  {
    for i := 0 to |items|
      invariant Selects(current, items[..i])
    {
      assert items[..i + 1][..i] == items[..i];
      if items[i] !in current {
        assert !Selects(current, items);
        return Some(Stale);
      }
      if items[i] in items[..i] {
        var k :| 0 <= k < i && items[k] == items[i];
        assert !Distinct(items);
        return Some(Duplicate);
      }
    }
    assert items[..|items|] == items;
    return None;
  }
}
