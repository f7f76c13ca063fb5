/** The stable sort `border.sort(key=lambda x: x[0])` used by the overlap matcher, on lists of
    (index, point) entries. Python's sort is stable; it is modelled by a stable insertion sort,
    and the lemmas below show the result is ordered, a permutation, and keeps the relative
    order of entries with equal keys. */
module Sorting {
  import opened Geo

  /** A boundary point together with its index in its polyline: `(idx, point)`. */
  datatype Entry = Entry(idx: nat, point: Point)

  ghost predicate SortedByIndex(s: seq<Entry>)
  {
    forall i, j :: 0 <= i < j < |s| ==> s[i].idx <= s[j].idx
  }

  /** Inserts e after every entry whose key is at most e's. */
  function Insert(e: Entry, s: seq<Entry>): (r: seq<Entry>)
    ensures |r| == |s| + 1
  {
    if s == [] then [e]
    else if s[|s| - 1].idx <= e.idx then s + [e]
    else Insert(e, s[..|s| - 1]) + [s[|s| - 1]]
  }

  function SortByIndex(s: seq<Entry>): (r: seq<Entry>)
    ensures |r| == |s|
  {
    if s == [] then [] else Insert(s[|s| - 1], SortByIndex(s[..|s| - 1]))
  }

  /** The entries of s with key k, in their order in s. */
  function WithIndex(s: seq<Entry>, k: nat): seq<Entry>
  {
    if s == [] then []
    else WithIndex(s[..|s| - 1], k) + (if s[|s| - 1].idx == k then [s[|s| - 1]] else [])
  }

  lemma {:induction false} WithIndexConcat(a: seq<Entry>, b: seq<Entry>, k: nat)
    ensures WithIndex(a + b, k) == WithIndex(a, k) + WithIndex(b, k)
    decreases |b|
  {
    if b == [] {
      assert a + b == a;
    } else {
      var b' := b[..|b| - 1];
      assert (a + b)[..|a + b| - 1] == a + b';
      WithIndexConcat(a, b', k);
    }
  }

  ghost predicate AllAtMost(s: seq<Entry>, bound: nat)
  {
    forall i :: 0 <= i < |s| ==> s[i].idx <= bound
  }

  lemma {:induction false} InsertAtMost(e: Entry, s: seq<Entry>, bound: nat)
    requires AllAtMost(s, bound) && e.idx <= bound
    ensures AllAtMost(Insert(e, s), bound)
    decreases |s|
  {
    if s != [] && s[|s| - 1].idx > e.idx {
      InsertAtMost(e, s[..|s| - 1], bound);
    }
  }

  lemma SortedAppend(s: seq<Entry>, x: Entry)
    requires SortedByIndex(s) && AllAtMost(s, x.idx)
    ensures SortedByIndex(s + [x])
  {
    forall i, j | 0 <= i < j < |s| + 1 ensures (s + [x])[i].idx <= (s + [x])[j].idx {
      assert (s + [x])[i] == s[i];
    }
  }

  lemma {:induction false} InsertMultiset(e: Entry, s: seq<Entry>)
    ensures multiset(Insert(e, s)) == multiset(s) + multiset{e}
    decreases |s|
  {
    if s != [] && s[|s| - 1].idx > e.idx {
      var init, last := s[..|s| - 1], s[|s| - 1];
      InsertMultiset(e, init);
      assert s == init + [last];
    }
  }

  lemma {:induction false} InsertSorted(e: Entry, s: seq<Entry>)
    requires SortedByIndex(s)
    ensures SortedByIndex(Insert(e, s))
    decreases |s|
  {
    if s == [] {
    } else if s[|s| - 1].idx <= e.idx {
      assert AllAtMost(s, e.idx);
      SortedAppend(s, e);
    } else {
      var init, last := s[..|s| - 1], s[|s| - 1];
      assert SortedByIndex(init);
      InsertSorted(e, init);
      assert AllAtMost(init, last.idx);
      InsertAtMost(e, init, last.idx);
      SortedAppend(Insert(e, init), last);
    }
  }

  lemma InsertProperties(e: Entry, s: seq<Entry>)
    requires SortedByIndex(s)
    ensures SortedByIndex(Insert(e, s))
    ensures multiset(Insert(e, s)) == multiset(s) + multiset{e}
  {
    InsertSorted(e, s);
    InsertMultiset(e, s);
  }

  /** The sorted list is ordered by index and holds exactly the input entries. */
  lemma {:induction false} SortByIndexProperties(s: seq<Entry>)
    ensures SortedByIndex(SortByIndex(s))
    ensures multiset(SortByIndex(s)) == multiset(s)
    decreases |s|
  {
    if s != [] {
      var init := s[..|s| - 1];
      SortByIndexProperties(init);
      InsertProperties(s[|s| - 1], SortByIndex(init));
      assert s == init + [s[|s| - 1]];
    }
  }

  lemma {:induction false} InsertStable(e: Entry, s: seq<Entry>, k: nat)
    requires SortedByIndex(s)
    ensures WithIndex(Insert(e, s), k) == WithIndex(s, k) + WithIndex([e], k)
    decreases |s|
  {
    assert [e][..0] == [];
    if s == [] {
    } else if s[|s| - 1].idx <= e.idx {
      WithIndexConcat(s, [e], k);
    } else {
      var init, last := s[..|s| - 1], s[|s| - 1];
      assert SortedByIndex(init);
      InsertStable(e, init, k);
      var r := Insert(e, init);
      assert (r + [last])[..|r + [last]| - 1] == r;
      assert s == init + [last];
      WithIndexConcat(init, [last], k);
      assert [last][..0] == [];
    }
  }

  /** Stability: sorting keeps the entries with each key in their original order. */
  lemma {:induction false} SortByIndexStable(s: seq<Entry>, k: nat)
    ensures WithIndex(SortByIndex(s), k) == WithIndex(s, k)
    decreases |s|
  {
    if s != [] {
      var init, last := s[..|s| - 1], s[|s| - 1];
      SortByIndexStable(init, k);
      SortByIndexProperties(init);
      InsertStable(last, SortByIndex(init), k);
      assert [last][..0] == [];
    }
  }

  /** A list already in index order is left as it is. */
  lemma {:induction false} SortByIndexOfSorted(s: seq<Entry>)
    requires SortedByIndex(s)
    ensures SortByIndex(s) == s
    decreases |s|
  {
    if s != [] {
      var init := s[..|s| - 1];
      assert SortedByIndex(init);
      SortByIndexOfSorted(init);
      assert s == init + [s[|s| - 1]];
    }
  }
}
