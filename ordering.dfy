/**
 * The `Where` and `OrderByDescending(...).ThenByDescending(...)` parts of the
 * listing queries. A sort key is a pair compared lexicographically; a query
 * with one key uses 0 as the second component.
 */
module Ordering {

  /** `a` comes no later than `b` in a descending order. */
  predicate KeyGeq(a: (int, int), b: (int, int))
  {
    a.0 > b.0 || (a.0 == b.0 && a.1 >= b.1)
  }

  predicate SortedDesc<T>(s: seq<T>, key: T -> (int, int))
  {
    forall i, j :: 0 <= i < j < |s| ==> KeyGeq(key(s[i]), key(s[j]))
  }

  /** Inserts `x` before the first element whose key is not larger. */
  function InsertDesc<T>(x: T, s: seq<T>, key: T -> (int, int)): (r: seq<T>)
    requires SortedDesc(s, key)
    ensures |r| == |s| + 1
    ensures multiset(r) == multiset(s) + multiset{x}
    ensures SortedDesc(r, key)
  {
    if s == [] then [x]
    else if KeyGeq(key(x), key(s[0])) then [x] + s
    else
      var rest := InsertDesc(x, s[1..], key);
      assert s == [s[0]] + s[1..];
      HeadBoundsInsert(s[0], s[1..], x, rest, key);
      [s[0]] + rest
  }

  /** A head that bounds every element of `t` and `x` bounds every element of a permutation of `t + [x]`. */
  lemma HeadBoundsInsert<T>(h: T, t: seq<T>, x: T, rest: seq<T>, key: T -> (int, int))
    requires forall j :: 0 <= j < |t| ==> KeyGeq(key(h), key(t[j]))
    requires KeyGeq(key(h), key(x))
    requires multiset(rest) == multiset(t) + multiset{x}
    ensures forall i :: 0 <= i < |rest| ==> KeyGeq(key(h), key(rest[i]))
  {
    forall i | 0 <= i < |rest|
      ensures KeyGeq(key(h), key(rest[i]))
    {
      assert rest[i] in multiset(rest);
      if rest[i] != x {
        assert rest[i] in multiset(t);
        assert rest[i] in t;
      }
    }
  }

  /** The elements of `s` by descending key: a sorted permutation of `s`. */
  function SortDesc<T>(s: seq<T>, key: T -> (int, int)): (r: seq<T>)
    ensures |r| == |s|
    ensures multiset(r) == multiset(s)
    ensures SortedDesc(r, key)
  {
    if s == [] then []
    else
      assert s == [s[0]] + s[1..];
      InsertDesc(s[0], SortDesc(s[1..], key), key)
  }

  /** Sorting keeps exactly the elements it was given. */
  lemma SortDescMembers<T>(s: seq<T>, key: T -> (int, int), x: T)
    ensures x in SortDesc(s, key) <==> x in s
  {
    var r := SortDesc(s, key);
    assert x in r <==> x in multiset(r);
    assert x in s <==> x in multiset(s);
  }

  /** `Where(p)`: the elements that satisfy `p`, in their order. */
  function Filter<T>(s: seq<T>, p: T -> bool): (r: seq<T>)
    ensures |r| <= |s|
    ensures forall i :: 0 <= i < |r| ==> r[i] in s && p(r[i])
    ensures forall i :: 0 <= i < |s| && p(s[i]) ==> s[i] in r
    ensures multiset(r) <= multiset(s)
  {
    if s == [] then []
    else
      assert s == [s[0]] + s[1..];
      (if p(s[0]) then [s[0]] else []) + Filter(s[1..], p)
  }

  /** `Where` keeps every passing element as often as it occurs, and no other. */
  lemma {:induction false} FilterCount<T>(s: seq<T>, p: T -> bool, x: T)
    ensures multiset(Filter(s, p))[x] == if p(x) then multiset(s)[x] else 0
  {
    if s != [] {
      assert s == [s[0]] + s[1..];
      FilterCount(s[1..], p, x);
    }
  }

  /** `Where` over rows appended at the end keeps the earlier result and adds the new row when it passes. */
  lemma {:induction false} FilterAppend<T>(s: seq<T>, x: T, p: T -> bool)
    ensures Filter(s + [x], p) == Filter(s, p) + (if p(x) then [x] else [])
  {
    if s == [] {
      assert [] + [x] == [x];
    } else {
      assert (s + [x])[1..] == s[1..] + [x];
      FilterAppend(s[1..], x, p);
    }
  }

  /** `Where` over rows none of which passes is empty. */
  lemma {:induction false} FilterNone<T>(s: seq<T>, p: T -> bool)
    requires forall j :: 0 <= j < |s| ==> !p(s[j])
    ensures Filter(s, p) == []
  {
    if s != [] {
      FilterNone(s[1..], p);
    }
  }
}
