/**
 * Sequence operations shared by the table-backed modules: filtering (`WHERE` and
 * `Array.prototype.filter`), ordering (`ORDER BY`), `LIMIT` and `reverse`. SQLite
 * leaves the order of rows with equal sort keys unspecified; the model fixes one
 * choice (a stable sort, ties in table order), which is one of the orders the
 * database may produce.
 */
module Sequences {

  /** `s` is ordered by ascending `key`. */
  ghost predicate SortedBy<T>(s: seq<T>, key: T -> int) {
    forall i, j :: 0 <= i < j < |s| ==> key(s[i]) <= key(s[j])
  }

  /** `x` placed in front of the first element of `s` whose key is not smaller. */
  function Insert<T>(x: T, s: seq<T>, key: T -> int): (r: seq<T>)
    requires SortedBy(s, key)
    ensures SortedBy(r, key)
    ensures multiset(r) == multiset(s) + multiset{x}
    ensures |r| == |s| + 1
    ensures r[0] == x || (|s| > 0 && r[0] == s[0])
  {
    if |s| == 0 then [x]
    else if key(x) <= key(s[0]) then [x] + s
    else
      var rest := Insert(x, s[1..], key);
      assert s == [s[0]] + s[1..];
      [s[0]] + rest
  }

  /** `ORDER BY key ASC`: insertion sort, stable. */
  function SortBy<T>(s: seq<T>, key: T -> int): (r: seq<T>)
    ensures SortedBy(r, key)
    ensures multiset(r) == multiset(s)
    ensures |r| == |s|
  {
    if |s| == 0 then []
    else
      assert s == [s[0]] + s[1..];
      Insert(s[0], SortBy(s[1..], key), key)
  }

  /** The first `n` elements; a negative `n` (SQLite's `LIMIT -1`) keeps everything. */
  function Take<T>(s: seq<T>, n: int): (r: seq<T>)
    ensures n < 0 || |s| <= n ==> r == s
    ensures 0 <= n <= |s| ==> r == s[..n]
    ensures |r| == if 0 <= n < |s| then n else |s|
    ensures forall i :: 0 <= i < |r| ==> r[i] == s[i]
  {
    if n < 0 || |s| <= n then s else s[..n]
  }

  /** From an ordered sequence, `Take` keeps the smallest keys: whatever it drops has a key no smaller. */
  lemma TakeKeepsSmallest<T>(s: seq<T>, key: T -> int, n: int, k: int)
    requires SortedBy(s, key) && 0 <= k < |s| && s[k] !in Take(s, n)
    ensures forall y :: y in Take(s, n) ==> key(y) <= key(s[k])
  {
    var r := Take(s, n);
    assert forall i :: 0 <= i < |r| ==> r[i] == s[i] && r[i] in r;
    assert |r| <= k;
    forall y | y in r
      ensures key(y) <= key(s[k])
    {
      var j :| 0 <= j < |r| && r[j] == y;
    }
  }

  /** `Array.prototype.reverse`. */
  function Reverse<T>(s: seq<T>): (r: seq<T>)
    ensures |r| == |s|
    ensures forall i :: 0 <= i < |s| ==> r[i] == s[|s| - 1 - i]
  {
    if |s| == 0 then [] else Reverse(s[1..]) + [s[0]]
  }

  /** Elements of `s` that satisfy `p`, in order (`Array.prototype.filter`). */
  function Filter<T(!new)>(s: seq<T>, p: T -> bool): (r: seq<T>)
    ensures |r| <= |s|
    ensures forall x :: x in r <==> x in s && p(x)
    ensures multiset(r) <= multiset(s)
  {
    if |s| == 0 then []
    else
      assert s == [s[0]] + s[1..];
      (if p(s[0]) then [s[0]] else []) + Filter(s[1..], p)
  }

  /** Elements `x` of `s` with `p(x, a)`, in order: a filter whose test takes one argument `a`. */
  function FilterWith<T(!new), A>(s: seq<T>, p: (T, A) -> bool, a: A): (r: seq<T>)
    ensures |r| <= |s|
    ensures forall x :: x in r <==> x in s && p(x, a)
    ensures multiset(r) <= multiset(s)
  {
    if |s| == 0 then []
    else
      assert s == [s[0]] + s[1..];
      (if p(s[0], a) then [s[0]] else []) + FilterWith(s[1..], p, a)
  }

  /** No two elements of `s` share a `key` (a primary key). */
  ghost predicate UniqueBy<T, K>(s: seq<T>, key: T -> K) {
    forall i, j :: 0 <= i < j < |s| ==> key(s[i]) != key(s[j])
  }

  /** Deleting rows keeps a primary key unique. */
  lemma {:induction false} FilterWithUnique<T(!new), A, K>(s: seq<T>, p: (T, A) -> bool, a: A, key: T -> K)
    requires UniqueBy(s, key)
    ensures UniqueBy(FilterWith(s, p, a), key)
  {
    if |s| > 0 {
      FilterWithUnique(s[1..], p, a, key);
      var rest := FilterWith(s[1..], p, a);
      forall j | 0 <= j < |rest|
        ensures key(s[0]) != key(rest[j])
      {
        assert rest[j] in rest;
        var k :| 0 <= k < |s[1..]| && s[1..][k] == rest[j];
        assert s[k + 1] == rest[j];
      }
    }
  }

  /** Appending a row whose key is new keeps the key unique. */
  lemma AppendUnique<T, K>(s: seq<T>, x: T, key: T -> K)
    requires UniqueBy(s, key)
    requires forall i :: 0 <= i < |s| ==> key(s[i]) != key(x)
    ensures UniqueBy(s + [x], key)
  {
  }

  /** Two tests that agree on every element select the same elements. */
  lemma {:induction false} FilterWithCongruent<T(!new), A, B>(s: seq<T>, p: (T, A) -> bool, a: A, q: (T, B) -> bool, b: B)
    requires forall i :: 0 <= i < |s| ==> (p(s[i], a) <==> q(s[i], b))
    ensures FilterWith(s, p, a) == FilterWith(s, q, b)
  {
    if |s| > 0 {
      FilterWithCongruent(s[1..], p, a, q, b);
    }
  }

  /** A test and its negation split the elements between them. */
  lemma {:induction false} FilterWithPartition<T(!new), A, B>(s: seq<T>, p: (T, A) -> bool, a: A, q: (T, B) -> bool, b: B)
    requires forall i :: 0 <= i < |s| ==> (q(s[i], b) <==> !p(s[i], a))
    ensures |FilterWith(s, p, a)| + |FilterWith(s, q, b)| == |s|
  {
    if |s| > 0 {
      FilterWithPartition(s[1..], p, a, q, b);
    }
  }

  /** A test every element passes selects everything. */
  lemma {:induction false} FilterWithAll<T(!new), A>(s: seq<T>, p: (T, A) -> bool, a: A)
    requires forall i :: 0 <= i < |s| ==> p(s[i], a)
    ensures FilterWith(s, p, a) == s
  {
    if |s| > 0 {
      FilterWithAll(s[1..], p, a);
      assert s == [s[0]] + s[1..];
    }
  }
}
