/**
 * The query operators the service applies to its collections: the first element
 * with a given key, the elements owned by one patient, and a stable sort.
 */
module Sequences {
  import opened Wrappers

  /** The index of the first element of `s` whose key is `k`, or None when no element has it. */
  function FirstIndex<T>(s: seq<T>, key: T -> int, k: int): (r: Option<nat>)
    ensures r.Some? ==> r.value < |s| && key(s[r.value]) == k
    ensures r.Some? ==> forall j :: 0 <= j < r.value ==> key(s[j]) != k
    ensures r.None? <==> forall j :: 0 <= j < |s| ==> key(s[j]) != k
  {
    if s == [] then None
    else if key(s[0]) == k then Some(0)
    else match FirstIndex(s[1..], key, k)
      case None => None
      case Some(i) => Some(i + 1)
  }

  /** `i` is the index of the first element of `s` whose key is `k`. */
  ghost predicate IsFirst<T>(s: seq<T>, key: T -> int, k: int, i: int)
  {
    0 <= i < |s| && key(s[i]) == k && forall j :: 0 <= j < i ==> key(s[j]) != k
  }

  /** No element of `s` has key `k`. */
  ghost predicate NoneHas<T>(s: seq<T>, key: T -> int, k: int)
  {
    forall j :: 0 <= j < |s| ==> key(s[j]) != k
  }

  /** The elements of `s` whose owner is `p`. */
  function FilterBy<T(!new)>(s: seq<T>, owner: T -> int, p: int): (r: seq<T>)
    ensures |r| <= |s|
    ensures forall k :: 0 <= k < |r| ==> owner(r[k]) == p
    ensures forall x :: multiset(r)[x] == if owner(x) == p then multiset(s)[x] else 0
  {
    if s == [] then []
    else
      assert s == [s[0]] + s[1..];
      if owner(s[0]) == p then [s[0]] + FilterBy(s[1..], owner, p)
      else FilterBy(s[1..], owner, p)
  }

  /** `le` is a total preorder: any two elements compare, and comparison chains. */
  ghost predicate TotalPreorder<T(!new)>(le: (T, T) -> bool)
  {
    && (forall a, b :: le(a, b) || le(b, a))
    && (forall a, b, c :: le(a, b) && le(b, c) ==> le(a, c))
  }

  ghost predicate SortedBy<T>(s: seq<T>, le: (T, T) -> bool)
  {
    forall i, j :: 0 <= i < j < |s| ==> le(s[i], s[j])
  }

  /** `x` placed before the first element of sorted `s` that it does not exceed. */
  function InsertBy<T(!new)>(x: T, s: seq<T>, le: (T, T) -> bool): (r: seq<T>)
    requires TotalPreorder(le) && SortedBy(s, le)
    ensures SortedBy(r, le)
    ensures multiset(r) == multiset(s) + multiset{x}
  {
    if s == [] then [x]
    else if le(x, s[0]) then [x] + s
    else
      var t := InsertBy(x, s[1..], le);
      InsertAboveLowerBound(s[0], x, s[1..], t, le);
      assert s == [s[0]] + s[1..];
      [s[0]] + t
  }

  /** A lower bound of `x` and of every element of `s` is a lower bound of every element of `t`. */
  lemma InsertAboveLowerBound<T(!new)>(y: T, x: T, s: seq<T>, t: seq<T>, le: (T, T) -> bool)
    requires TotalPreorder(le)
    requires le(y, x) && forall k :: 0 <= k < |s| ==> le(y, s[k])
    requires multiset(t) == multiset(s) + multiset{x}
    ensures forall k :: 0 <= k < |t| ==> le(y, t[k])
  {
    forall k | 0 <= k < |t| ensures le(y, t[k]) {
      assert t[k] in multiset(t);
      if t[k] != x {
        assert t[k] in multiset(s);
        var j :| 0 <= j < |s| && s[j] == t[k];
      }
    }
  }

  /**
   * Insertion sort by `le`. An element goes in front of the equal elements that
   * came after it in `s`, so the sort is stable, like LINQ's OrderBy.
   */
  function SortBy<T(!new)>(s: seq<T>, le: (T, T) -> bool): (r: seq<T>)
    requires TotalPreorder(le)
    ensures SortedBy(r, le)
    ensures multiset(r) == multiset(s)
    ensures |r| == |s|
  {
    if s == [] then []
    else
      assert s == [s[0]] + s[1..];
      var r := InsertBy(s[0], SortBy(s[1..], le), le);
      assert |r| == |multiset(r)|;
      r
  }

  /** Ordinal (character by character) lexicographic order on strings. */
  predicate LexLe(a: string, b: string)
  {
    |a| == 0 || (|b| > 0 && (a[0] < b[0] || (a[0] == b[0] && LexLe(a[1..], b[1..]))))
  }

  lemma {:induction false} LexLeTotal(a: string, b: string)
    ensures LexLe(a, b) || LexLe(b, a)
  {
    if |a| > 0 && |b| > 0 && a[0] == b[0] {
      LexLeTotal(a[1..], b[1..]);
    }
  }

  lemma {:induction false} LexLeTransitive(a: string, b: string, c: string)
    requires LexLe(a, b) && LexLe(b, c)
    ensures LexLe(a, c)
  {
    if |a| > 0 && a[0] == b[0] && b[0] == c[0] {
      LexLeTransitive(a[1..], b[1..], c[1..]);
    }
  }

  /** Ascending order of elements by a string key. */
  function NameLe<T>(name: T -> string): (T, T) -> bool
  {
    (a: T, b: T) => LexLe(name(a), name(b))
  }

  lemma NameLeIsTotalPreorder<T(!new)>(name: T -> string)
    ensures TotalPreorder(NameLe(name))
  {
    forall a: T, b: T ensures NameLe(name)(a, b) || NameLe(name)(b, a) {
      LexLeTotal(name(a), name(b));
    }
    forall a: T, b: T, c: T | NameLe(name)(a, b) && NameLe(name)(b, c) ensures NameLe(name)(a, c) {
      LexLeTransitive(name(a), name(b), name(c));
    }
  }

  /** A sequence sorted by NameLe(name) has its keys in ascending order. */
  lemma SortedByName<T>(s: seq<T>, name: T -> string)
    requires SortedBy(s, NameLe(name))
    ensures forall i, j :: 0 <= i < j < |s| ==> LexLe(name(s[i]), name(s[j]))
  {
  }

  /** Descending order of elements by a timestamp key: the most recent first. */
  function NewestFirst<T>(date: T -> int): (T, T) -> bool
  {
    (a: T, b: T) => date(a) >= date(b)
  }

  /** A sequence sorted by NewestFirst(date) has its timestamps in non-increasing order. */
  lemma SortedNewestFirst<T>(s: seq<T>, date: T -> int)
    requires SortedBy(s, NewestFirst(date))
    ensures forall i, j :: 0 <= i < j < |s| ==> date(s[i]) >= date(s[j])
  {
  }

  lemma NewestFirstIsTotalPreorder<T(!new)>(date: T -> int)
    ensures TotalPreorder(NewestFirst(date))
  {
  }
}
