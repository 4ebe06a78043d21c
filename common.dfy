/**
 * Shared vocabulary of the Kunsthaus Canvas model: optional values, the
 * browser's key/value storage, order-preserving filters and sorts by a key
 * (the library routines `Array.prototype.filter` and `Array.prototype.sort`
 * that the page scripts rely on).
 */
module Common {

  datatype Option<T> = None | Some(value: T)

  /** JavaScript truthiness of an optional string (null, undefined and "" are falsy). */
  predicate Truthy(s: Option<string>)
  {
    s.Some? && s.value != ""
  }

  /** `a || b` on optional strings. */
  function OrElse(s: Option<string>, fallback: string): (r: string)
    ensures Truthy(s) ==> r == s.value
    ensures !Truthy(s) ==> r == fallback
  {
    if Truthy(s) then s.value else fallback
  }

  /** A map lookup that yields None for an absent key. */
  function Lookup(items: map<string, string>, key: string): (r: Option<string>)
    ensures r.Some? <==> key in items
    ensures r.Some? ==> r.value == items[key]
  {
    if key in items then Some(items[key]) else None
  }

  /** Storage keys shared by all session managers. */
  const AuthTokenKey := "auth_token"
  const UserKey := "kunsthaus_user"

  /** The browser's `localStorage`: one shared mutable map from keys to strings. */
  class LocalStorage {
    var items: map<string, string>

    constructor(initial: map<string, string>)
      ensures items == initial
    {
      items := initial;
    }

    /** `getItem`: the stored string, or null when the key is absent. */
    function GetItem(key: string): Option<string>
      reads this
    {
      Lookup(items, key)
    }

    method SetItem(key: string, value: string)
      modifies this
      ensures items == old(items)[key := value]
    {
      items := items[key := value];
    }

    method RemoveItem(key: string)
      modifies this
      ensures items == old(items) - {key}
    {
      items := items - {key};
    }
  }

  /** `r` can be obtained from `s` by deleting elements: the relative order is kept. */
  ghost predicate SubsequenceOf<T>(r: seq<T>, s: seq<T>)
    decreases |s|
  {
    r == [] ||
    (s != [] && ((r[0] == s[0] && SubsequenceOf(r[1..], s[1..])) || SubsequenceOf(r, s[1..])))
  }

  /** `Array.prototype.filter`: the elements of `s` satisfying `p`, in order. */
  function Filter<T(!new)>(s: seq<T>, p: T -> bool): (r: seq<T>)
    ensures |r| <= |s|
    ensures forall i :: 0 <= i < |r| ==> p(r[i])
    ensures forall x :: x in r <==> x in s && p(x)
  {
    if s == [] then []
    else if p(s[0]) then [s[0]] + Filter(s[1..], p)
    else Filter(s[1..], p)
  }

  /**
   * The filter keeps the relative order and every satisfying element with its
   * multiplicity; these two facts determine the result.
   */
  lemma {:induction false} FilterIsOrderedSelection<T(!new)>(s: seq<T>, p: T -> bool)
    ensures SubsequenceOf(Filter(s, p), s)
    ensures forall x :: multiset(Filter(s, p))[x] == if p(x) then multiset(s)[x] else 0
  {
    if s != [] {
      FilterIsOrderedSelection(s[1..], p);
      assert s == [s[0]] + s[1..];
      var rest := Filter(s[1..], p);
      if p(s[0]) {
        assert Filter(s, p) == [s[0]] + rest;
        assert ([s[0]] + rest)[1..] == rest;
      } else {
        assert Filter(s, p) == rest;
        assert rest == [] || SubsequenceOf(rest, s[1..]);
      }
    }
  }

  /** Filtering twice equals filtering once with the conjunction. */
  lemma {:induction false} FilterTwice<T(!new)>(s: seq<T>, p: T -> bool, q: T -> bool, pq: T -> bool)
    requires forall x :: pq(x) == (p(x) && q(x))
    ensures Filter(Filter(s, p), q) == Filter(s, pq)
  {
    if s != [] {
      FilterTwice(s[1..], p, q, pq);
      if p(s[0]) {
        assert Filter(s, p) == [s[0]] + Filter(s[1..], p);
        assert Filter(s, p)[1..] == Filter(s[1..], p);
      }
    }
  }

  /** A filter whose predicate holds everywhere on `s` keeps `s` intact. */
  lemma {:induction false} FilterKeepsAll<T(!new)>(s: seq<T>, p: T -> bool)
    requires forall i :: 0 <= i < |s| ==> p(s[i])
    ensures Filter(s, p) == s
  {
    if s != [] {
      FilterKeepsAll(s[1..], p);
    }
  }

  /** A filter whose predicate fails everywhere on `s` yields nothing. */
  lemma {:induction false} FilterDropsAll<T(!new)>(s: seq<T>, p: T -> bool)
    requires forall i :: 0 <= i < |s| ==> !p(s[i])
    ensures Filter(s, p) == []
  {
    if s != [] {
      FilterDropsAll(s[1..], p);
    }
  }

  /** The positions `0 .. n-1`, i.e. a fresh copy `[...xs]` of a list of length n, by position. */
  function Positions(n: nat): (r: seq<nat>)
    ensures |r| == n
    ensures forall k :: 0 <= k < n ==> r[k] == k
  {
    seq(n, k requires 0 <= k < n => k as nat)
  }

  predicate InBounds<T>(data: seq<T>, idx: seq<nat>)
  {
    forall k :: 0 <= k < |idx| ==> idx[k] < |data|
  }

  /**
   * The list whose k-th entry is the element of `data` at position `idx[k]`:
   * a list of references into `data`, seen as values.
   */
  function Project<T>(data: seq<T>, idx: seq<nat>): (r: seq<T>)
    requires InBounds(data, idx)
    ensures |r| == |idx|
    ensures forall k :: 0 <= k < |idx| ==> r[k] == data[idx[k]]
  {
    seq(|idx|, k requires 0 <= k < |idx| => data[idx[k]])
  }

  lemma ProjectAll<T>(data: seq<T>)
    ensures InBounds(data, Positions(|data|))
    ensures Project(data, Positions(|data|)) == data
  {
  }

  lemma ProjectCons<T>(data: seq<T>, i: nat, idx: seq<nat>)
    requires i < |data| && InBounds(data, idx)
    ensures InBounds(data, [i] + idx)
    ensures Project(data, [i] + idx) == [data[i]] + Project(data, idx)
  {
  }

  /** Filtering positions by a predicate on the referenced elements filters the elements. */
  lemma {:induction false} ProjectFilter<T(!new)>(data: seq<T>, idx: seq<nat>, q: nat -> bool, p: T -> bool)
    requires InBounds(data, idx)
    requires forall i: nat :: i < |data| ==> q(i) == p(data[i])
    ensures InBounds(data, Filter(idx, q))
    ensures Project(data, Filter(idx, q)) == Filter(Project(data, idx), p)
  {
    if idx != [] {
      var tail := idx[1..];
      ProjectFilter(data, tail, q, p);
      ProjectCons(data, idx[0], tail);
      assert idx == [idx[0]] + tail;
      assert Project(data, idx) == [data[idx[0]]] + Project(data, tail);
      assert Project(data, idx)[1..] == Project(data, tail);
      if q(idx[0]) {
        assert Filter(idx, q) == [idx[0]] + Filter(tail, q);
        ProjectCons(data, idx[0], Filter(tail, q));
      } else {
        assert Filter(idx, q) == Filter(tail, q);
      }
    }
  }

  /** Relative order of two sort keys: ascending, or descending. */
  predicate InOrder(a: real, b: real, descending: bool)
  {
    if descending then a >= b else a <= b
  }

  ghost predicate SortedBy<T>(s: seq<T>, key: T -> real, descending: bool)
  {
    forall i, j :: 0 <= i < j < |s| ==> InOrder(key(s[i]), key(s[j]), descending)
  }

  /** Every element of a sorted `s` other than `x` follows `s[0]`; so does `x` when it may not precede `s[0]`. */
  lemma HeadPrecedes<T>(x: T, s: seq<T>, rest: seq<T>, key: T -> real, descending: bool)
    requires s != [] && SortedBy(s, key, descending)
    requires !InOrder(key(x), key(s[0]), descending)
    requires SortedBy(rest, key, descending)
    requires multiset(rest) == multiset(s[1..]) + multiset{x}
    ensures SortedBy([s[0]] + rest, key, descending)
  {
    forall k | 0 <= k < |rest|
      ensures InOrder(key(s[0]), key(rest[k]), descending)
    {
      assert rest[k] in multiset(rest);
      if rest[k] != x {
        assert rest[k] in multiset(s[1..]);
        var j :| 0 <= j < |s[1..]| && s[1..][j] == rest[k];
        assert s[j + 1] == rest[k];
      }
    }
    var r := [s[0]] + rest;
    forall i, j | 0 <= i < j < |r|
      ensures InOrder(key(r[i]), key(r[j]), descending)
    {
      if i == 0 {
        assert r[j] == rest[j - 1];
      } else {
        assert r[i] == rest[i - 1] && r[j] == rest[j - 1];
      }
    }
  }

  /** Inserts `x` before the first element it may precede; equal keys keep `x` first. */
  function InsertBy<T>(x: T, s: seq<T>, key: T -> real, descending: bool): (r: seq<T>)
    requires SortedBy(s, key, descending)
    ensures SortedBy(r, key, descending)
    ensures multiset(r) == multiset(s) + multiset{x}
  {
    if s == [] then [x]
    else if InOrder(key(x), key(s[0]), descending) then
      [x] + s
    else
      var rest := InsertBy(x, s[1..], key, descending);
      assert s == [s[0]] + s[1..];
      HeadPrecedes(x, s, rest, key, descending);
      [s[0]] + rest
  }

  /**
   * `Array.prototype.sort` with a numeric comparator on a key (`a.k - b.k`,
   * or `b.k - a.k` when descending), as an insertion sort: sorted and a permutation of the input.
   */
  function SortBy<T>(s: seq<T>, key: T -> real, descending: bool): (r: seq<T>)
    ensures SortedBy(r, key, descending)
    ensures multiset(r) == multiset(s)
    ensures |r| == |s|
  {
    if s == [] then []
    else
      assert s == [s[0]] + s[1..];
      InsertBy(s[0], SortBy(s[1..], key, descending), key, descending)
  }

  /** A multiple of a positive `size` strictly between `-size` and `size` is zero. */
  lemma SmallMultipleIsZero(k: int, size: int)
    requires size > 0 && -size < k * size < size
    ensures k == 0
  {
  }

  /** The remainder is determined by any decomposition `n == q * size + m` with `0 <= m < size`. */
  lemma ModUnique(n: int, size: int, q: int, m: int)
    requires size > 0 && 0 <= m < size && n == q * size + m
    ensures n % size == m
  {
    var q2, m2 := n / size, n % size;
    assert (q2 - q) * size == m - m2;
    SmallMultipleIsZero(q2 - q, size);
  }
}
