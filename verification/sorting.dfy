/** Selecting and ordering rows: the `WHERE` and `ORDER BY` a query applies
  * to resolutions, trades and queued trades before they reach a view. */
module Sorting {

  /** The elements of `s` that satisfy `keep`, in their original order. */
  function Filter<T(!new)>(s: seq<T>, keep: T -> bool): (r: seq<T>)
    ensures |r| <= |s|
    ensures forall x :: x in r <==> x in s && keep(x)
  {
    if s == [] then []
    else
      var init := s[..|s| - 1];
      assert s == init + [s[|s| - 1]];
      if keep(s[|s| - 1]) then Filter(init, keep) + [s[|s| - 1]] else Filter(init, keep)
  }

  /** Each kept element occurs as often as in `s`; no other element occurs. */
  lemma {:induction false} FilterCounts<T(!new)>(s: seq<T>, keep: T -> bool)
    ensures forall x :: multiset(Filter(s, keep))[x] == if keep(x) then multiset(s)[x] else 0
    decreases |s|
  {
    if s != [] {
      var init := s[..|s| - 1];
      assert s == init + [s[|s| - 1]];
      assert multiset(s) == multiset(init) + multiset{s[|s| - 1]};
      FilterCounts(init, keep);
    }
  }

  /** Filtering commutes with concatenation, so the kept elements stay in
    * the order they had. */
  lemma {:induction false} FilterAppend<T(!new)>(s: seq<T>, t: seq<T>, keep: T -> bool)
    ensures Filter(s + t, keep) == Filter(s, keep) + Filter(t, keep)
    decreases |t|
  {
    if t == [] {
      assert s + t == s;
    } else {
      var init, last := t[..|t| - 1], t[|t| - 1];
      var st := s + t;
      assert st[..|st| - 1] == s + init;
      assert st[|st| - 1] == last;
      var tail := if keep(last) then [last] else [];
      assert Filter(st, keep) == Filter(s + init, keep) + tail;
      assert Filter(t, keep) == Filter(init, keep) + tail;
      FilterAppend(s, init, keep);
    }
  }

  /** A single element is kept exactly when `keep` holds of it; with
    * FilterAppend this makes the result the subsequence of `s` that
    * satisfies `keep`, in its original order. */
  lemma FilterSingleton<T(!new)>(x: T, keep: T -> bool)
    ensures Filter([x], keep) == if keep(x) then [x] else []
  {
    assert [x][..0] == [];
  }

  /** A filter that keeps every element returns the sequence unchanged. */
  lemma {:induction false} FilterKeepsAll<T(!new)>(s: seq<T>, keep: T -> bool)
    requires forall x :: x in s ==> keep(x)
    ensures Filter(s, keep) == s
  {
    if s != [] {
      var init := s[..|s| - 1];
      assert s == init + [s[|s| - 1]];
      FilterKeepsAll(init, keep);
    }
  }

  predicate SortedBy<T>(s: seq<T>, key: T -> int) {
    forall i, j :: 0 <= i < j < |s| ==> key(s[i]) <= key(s[j])
  }

  /** Insertion sort by `key`; rows with equal keys keep their order. */
  function SortBy<T>(s: seq<T>, key: T -> int): (r: seq<T>)
    ensures SortedBy(r, key)
    ensures multiset(r) == multiset(s)
    ensures |r| == |s|
  {
    if s == [] then []
    else
      var init := s[..|s| - 1];
      assert s == init + [s[|s| - 1]];
      InsertLast(s[|s| - 1], SortBy(init, key), key)
  }

  /** Sorting neither adds nor drops an element. */
  lemma SortByMembers<T>(s: seq<T>, key: T -> int)
    ensures forall x :: x in SortBy(s, key) <==> x in s
  {
    var r := SortBy(s, key);
    forall x ensures x in r <==> x in s {
      assert x in r <==> x in multiset(r);
      assert x in s <==> x in multiset(s);
    }
  }

  /** Inserts `x` after every element whose key is at most its own. */
  function InsertLast<T>(x: T, s: seq<T>, key: T -> int): (r: seq<T>)
    requires SortedBy(s, key)
    ensures SortedBy(r, key)
    ensures multiset(r) == multiset(s) + multiset{x}
    ensures |r| == |s| + 1
    ensures forall i :: 0 <= i < |r| ==> r[i] == x || r[i] in s
  {
    if s == [] then [x]
    else if key(s[|s| - 1]) <= key(x) then
      AppendAfterLast(x, s, key);
      s + [x]
    else
      var last := s[|s| - 1];
      var init := s[..|s| - 1];
      SortedInit(s, key);
      var front := InsertLast(x, init, key);
      PutBackLast(x, init, last, front, key);
      front + [last]
  }

  /** An element keyed at least as high as the last one may follow it. */
  lemma AppendAfterLast<T>(x: T, s: seq<T>, key: T -> int)
    requires SortedBy(s, key) && s != [] && key(s[|s| - 1]) <= key(x)
    ensures SortedBy(s + [x], key)
    ensures forall i :: 0 <= i < |s + [x]| ==> (s + [x])[i] == x || (s + [x])[i] in s
  {
    AppendLargest(s, x, key);
  }

  /** Dropping the last element keeps a sequence sorted. */
  lemma SortedInit<T>(s: seq<T>, key: T -> int)
    requires SortedBy(s, key) && s != []
    ensures SortedBy(s[..|s| - 1], key)
    ensures s == s[..|s| - 1] + [s[|s| - 1]]
  {
  }

  /** Putting `last` back after the insertion into `init` gives the
    * insertion into `init + [last]`. */
  lemma PutBackLast<T>(x: T, init: seq<T>, last: T, front: seq<T>, key: T -> int)
    requires SortedBy(init + [last], key) && key(x) < key(last)
    requires SortedBy(front, key)
    requires multiset(front) == multiset(init) + multiset{x}
    requires forall i :: 0 <= i < |front| ==> front[i] == x || front[i] in init
    ensures SortedBy(front + [last], key)
    ensures multiset(front + [last]) == multiset(init + [last]) + multiset{x}
    ensures forall i :: 0 <= i < |front + [last]| ==> (front + [last])[i] == x || (front + [last])[i] in init + [last]
  {
    BelowLast(x, init, last, front, key);
    AppendLargest(front, last, key);
  }

  /** Every element of `front` is `x` or comes from `init`, so none has a
    * key above `last`'s. */
  lemma BelowLast<T>(x: T, init: seq<T>, last: T, front: seq<T>, key: T -> int)
    requires SortedBy(init + [last], key)
    requires key(x) < key(last)
    requires forall i :: 0 <= i < |front| ==> front[i] == x || front[i] in init
    ensures forall i :: 0 <= i < |front| ==> key(front[i]) <= key(last)
  {
    forall i | 0 <= i < |front|
      ensures key(front[i]) <= key(last)
    {
      if front[i] != x {
        var j :| 0 <= j < |init| && init[j] == front[i];
        assert (init + [last])[j] == init[j];
        assert (init + [last])[|init|] == last;
      }
    }
  }

  lemma AppendLargest<T>(front: seq<T>, last: T, key: T -> int)
    requires SortedBy(front, key)
    requires forall i :: 0 <= i < |front| ==> key(front[i]) <= key(last)
    ensures SortedBy(front + [last], key)
  {
  }
}
