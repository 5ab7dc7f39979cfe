/** Stable sorting by an integer key, as Go's sort.SliceStable does it. */
module Sorting {
  /** Puts `x` in front of the elements it does not exceed. */
  function Insert<T>(x: T, s: seq<T>, key: T -> int): seq<T> {
    if s == [] || key(x) <= key(s[0]) then [x] + s else [s[0]] + Insert(x, s[1..], key)
  }

  function StableSort<T>(s: seq<T>, key: T -> int): seq<T> {
    if s == [] then [] else Insert(s[0], StableSort(s[1..], key), key)
  }

  ghost predicate Sorted<T>(s: seq<T>, key: T -> int) {
    forall i, j :: 0 <= i < j < |s| ==> key(s[i]) <= key(s[j])
  }

  ghost predicate StrictlySorted<T>(s: seq<T>, key: T -> int) {
    forall i, j :: 0 <= i < j < |s| ==> key(s[i]) < key(s[j])
  }

  lemma {:induction false} InsertPermutes<T>(x: T, s: seq<T>, key: T -> int)
    ensures multiset(Insert(x, s, key)) == multiset{x} + multiset(s)
  {
    if s == [] || key(x) <= key(s[0]) {
    } else {
      InsertPermutes(x, s[1..], key);
      assert s == [s[0]] + s[1..];
    }
  }

  /** An inserted sequence holds nothing but `x` and the old elements. */
  lemma {:induction false} InsertMember<T>(x: T, s: seq<T>, key: T -> int, k: nat)
    requires k < |Insert(x, s, key)|
    ensures Insert(x, s, key)[k] == x || exists j :: 0 <= j < |s| && Insert(x, s, key)[k] == s[j]
  {
    if s == [] || key(x) <= key(s[0]) {
      assert k > 0 ==> Insert(x, s, key)[k] == s[k - 1];
    } else if k > 0 {
      InsertMember(x, s[1..], key, k - 1);
    }
  }

  lemma {:induction false} InsertSorts<T>(x: T, s: seq<T>, key: T -> int)
    requires Sorted(s, key)
    ensures Sorted(Insert(x, s, key), key)
  {
    if s == [] || key(x) <= key(s[0]) {
    } else {
      InsertSorts(x, s[1..], key);
      var rest := Insert(x, s[1..], key);
      forall k | 0 <= k < |rest| ensures key(s[0]) <= key(rest[k]) {
        InsertMember(x, s[1..], key, k);
      }
    }
  }

  lemma {:induction false} SortSorts<T>(s: seq<T>, key: T -> int)
    ensures Sorted(StableSort(s, key), key)
    ensures multiset(StableSort(s, key)) == multiset(s)
  {
    if s == [] {
    } else {
      SortSorts(s[1..], key);
      InsertSorts(s[0], StableSort(s[1..], key), key);
      InsertPermutes(s[0], StableSort(s[1..], key), key);
      assert s == [s[0]] + s[1..];
    }
  }

  lemma SortMember<T>(s: seq<T>, key: T -> int)
    ensures forall i :: 0 <= i < |StableSort(s, key)| ==> StableSort(s, key)[i] in s
  {
    SortSorts(s, key);
    forall i | 0 <= i < |StableSort(s, key)| ensures StableSort(s, key)[i] in s {
      assert StableSort(s, key)[i] in multiset(s);
    }
  }

  /** Distinct keys leave only one sorted arrangement. */
  lemma {:induction false} SortedUnique<T>(a: seq<T>, b: seq<T>, key: T -> int)
    requires Sorted(a, key) && StrictlySorted(b, key) && multiset(a) == multiset(b)
    ensures a == b
  {
    assert |a| == |multiset(a)| == |multiset(b)| == |b|;
    if a == [] {
    } else {
      assert a[0] in multiset(b) && b[0] in multiset(a);
      var j :| 0 <= j < |b| && b[j] == a[0];
      var i :| 0 <= i < |a| && a[i] == b[0];
      assert a == [a[0]] + a[1..] && b == [b[0]] + b[1..];
      assert multiset(a[1..]) == multiset(a) - multiset{a[0]};
      assert multiset(b[1..]) == multiset(b) - multiset{b[0]};
      SortedUnique(a[1..], b[1..], key);
    }
  }

  /** Sorting any rearrangement of a strictly sorted sequence restores it. */
  lemma SortRestores<T>(rearranged: seq<T>, s: seq<T>, key: T -> int)
    requires StrictlySorted(s, key) && multiset(rearranged) == multiset(s)
    ensures StableSort(rearranged, key) == s
  {
    SortSorts(rearranged, key);
    SortedUnique(StableSort(rearranged, key), s, key);
  }

  /** Only comparing an element with those that stood behind it matters. */
  lemma {:induction false} SortAgrees<T>(s: seq<T>, k1: T -> int, k2: T -> int)
    requires forall i, j :: 0 <= i < j < |s| ==> (k1(s[i]) <= k1(s[j]) <==> k2(s[i]) <= k2(s[j]))
    ensures StableSort(s, k1) == StableSort(s, k2)
  {
    if s != [] {
      SortAgrees(s[1..], k1, k2);
      var tail := StableSort(s[1..], k1);
      SortMember(s[1..], k1);
      forall i | 0 <= i < |tail| ensures k1(s[0]) <= k1(tail[i]) <==> k2(s[0]) <= k2(tail[i]) {
        var j :| 0 <= j < |s[1..]| && s[1..][j] == tail[i];
        assert tail[i] == s[j + 1];
      }
      InsertAgrees(s[0], tail, k1, k2);
    }
  }

  lemma {:induction false} InsertAgrees<T>(x: T, s: seq<T>, k1: T -> int, k2: T -> int)
    requires forall i :: 0 <= i < |s| ==> (k1(x) <= k1(s[i]) <==> k2(x) <= k2(s[i]))
    ensures Insert(x, s, k1) == Insert(x, s, k2)
  {
    if s != [] && k1(x) > k1(s[0]) {
      InsertAgrees(x, s[1..], k1, k2);
    }
  }

  /** Only the keys of the elements matter. */
  lemma SortCongruent<T>(s: seq<T>, k1: T -> int, k2: T -> int)
    requires forall i :: 0 <= i < |s| ==> k1(s[i]) == k2(s[i])
    ensures StableSort(s, k1) == StableSort(s, k2)
  {
    SortAgrees(s, k1, k2);
  }
}
