/**
 * Querysets as sequences of records: `filter` keeps the records that
 * satisfy a predicate, in their order; `order_by` sorts by one or two
 * integer columns.
 */
module Queries {

  // ---------------------------------------------------------------------
  // Filters over a queryset
  // ---------------------------------------------------------------------

  /** The records of s that satisfy p, in their order. */
  function Filter<T(!new)>(s: seq<T>, p: T -> bool): (r: seq<T>)
    ensures forall x :: x in r <==> x in s && p(x)
    ensures multiset(r) <= multiset(s)
    ensures |r| <= |s|
  {
    if s == [] then []
    else
      assert s == [s[0]] + s[1..];
      if p(s[0]) then [s[0]] + Filter(s[1..], p) else Filter(s[1..], p)
  }

  /** A filter and its complement split a queryset: every record lands in exactly one of them. */
  lemma {:induction false} FilterSplit<T(!new)>(s: seq<T>, p: T -> bool, q: T -> bool)
    requires forall x :: q(x) == !p(x)
    ensures multiset(Filter(s, p)) + multiset(Filter(s, q)) == multiset(s)
  {
    if s != [] {
      assert s == [s[0]] + s[1..];
      FilterSplit(s[1..], p, q);
    }
  }


  /** The complement of a filter condition (`exclude`). */
  function Not<T>(p: T -> bool): T -> bool
  {
    x => !p(x)
  }

  /** Filtering one more record appends it exactly when it passes. */
  lemma {:induction false} FilterAppend<T(!new)>(s: seq<T>, x: T, p: T -> bool)
    ensures Filter(s + [x], p) == Filter(s, p) + (if p(x) then [x] else [])
  {
    if s == [] {
      assert [x][1..] == [];
    } else {
      assert (s + [x])[1..] == s[1..] + [x];
      FilterAppend(s[1..], x, p);
    }
  }

  /** Filtering a concatenation filters each part. */
  lemma {:induction false} FilterConcat<T(!new)>(a: seq<T>, b: seq<T>, p: T -> bool)
    ensures Filter(a + b, p) == Filter(a, p) + Filter(b, p)
  {
    if b == [] {
      assert a + b == a;
    } else {
      var last := b[|b| - 1];
      var front := b[..|b| - 1];
      assert b == front + [last];
      assert a + b == (a + front) + [last];
      FilterConcat(a, front, p);
      FilterAppend(a + front, last, p);
      FilterAppend(front, last, p);
    }
  }

  /** A sequence none of whose elements passes filters to nothing. */
  lemma FilterNone<T(!new)>(s: seq<T>, p: T -> bool)
    requires forall x :: x in s ==> !p(x)
    ensures Filter(s, p) == []
  {
    if Filter(s, p) != [] {
      assert Filter(s, p)[0] in Filter(s, p);
    }
  }

  /** A sequence every element of which passes is its own filter. */
  lemma {:induction false} FilterAll<T(!new)>(s: seq<T>, p: T -> bool)
    requires forall x :: x in s ==> p(x)
    ensures Filter(s, p) == s
  {
    if s != [] {
      assert s == [s[0]] + s[1..];
      FilterAll(s[1..], p);
    }
  }

  /** Lexicographic order on sort keys: first column, then second column. */
  predicate KeyLeq(a: (int, int), b: (int, int))
  {
    a.0 < b.0 || (a.0 == b.0 && a.1 <= b.1)
  }

  /** Every element comes no later, by its key, than every element after it. */
  predicate SortedBy<T>(s: seq<T>, key: T -> (int, int))
  {
    forall i, j :: 0 <= i < j < |s| ==> KeyLeq(key(s[i]), key(s[j]))
  }

  /** The first element of a sorted sequence comes no later than any of its elements. */
  lemma SortedHeadLeast<T>(s: seq<T>, key: T -> (int, int))
    requires SortedBy(s, key) && s != []
    ensures forall x :: x in s ==> KeyLeq(key(s[0]), key(x))
  {
    forall x | x in s ensures KeyLeq(key(s[0]), key(x)) {
      var k :| 0 <= k < |s| && s[k] == x;
      if k == 0 {
        assert x == s[0];
      }
    }
  }

  /** A key no later than x and than every element of s is no later than any element of a permutation of s with x added. */
  lemma InsertBelow<T>(x: T, s: seq<T>, r: seq<T>, low: (int, int), key: T -> (int, int))
    requires multiset(r) == multiset(s) + multiset{x}
    requires KeyLeq(low, key(x)) && forall y :: y in s ==> KeyLeq(low, key(y))
    ensures forall y :: y in r ==> KeyLeq(low, key(y))
  {
    forall y | y in r ensures KeyLeq(low, key(y)) {
      assert y in multiset(r);
      if y != x {
        assert y in multiset(s);
      }
    }
  }

  /** Inserts x before the first element whose key is not smaller. */
  function Insert<T>(x: T, s: seq<T>, key: T -> (int, int)): (r: seq<T>)
    requires SortedBy(s, key)
    ensures SortedBy(r, key)
    ensures multiset(r) == multiset(s) + multiset{x}
  {
    if s == [] then [x]
    else if KeyLeq(key(x), key(s[0])) then [x] + s
    else
      var rest := Insert(x, s[1..], key);
      assert s == [s[0]] + s[1..];
      SortedHeadLeast(s, key);
      InsertBelow(x, s[1..], rest, key(s[0]), key);
      [s[0]] + rest
  }

  /** Insertion sort by key: a sorted permutation of the input, what `order_by` returns. */
  function SortBy<T>(s: seq<T>, key: T -> (int, int)): (r: seq<T>)
    ensures SortedBy(r, key)
    ensures multiset(r) == multiset(s)
    ensures |r| == |s|
  {
    if s == [] then []
    else
      assert s == [s[0]] + s[1..];
      Insert(s[0], SortBy(s[1..], key), key)
  }

  /** Sorting neither adds nor drops elements, stated for all of them at once. */
  lemma SortBySameMembers<T>(s: seq<T>, key: T -> (int, int))
    ensures forall x :: x in SortBy(s, key) <==> x in s
  {
    forall x ensures x in SortBy(s, key) <==> x in s {
      SortByMembership(s, key, x);
    }
  }

  /** Sorting neither adds nor drops elements. */
  lemma SortByMembership<T>(s: seq<T>, key: T -> (int, int), x: T)
    ensures x in SortBy(s, key) <==> x in s
  {
    var r := SortBy(s, key);
    assert x in r <==> x in multiset(r);
    assert x in s <==> x in multiset(s);
  }
}
