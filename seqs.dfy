/**
 * Generic sequence operations behind the source's array methods: `filter`, `map`,
 * `slice(0, n)`, a stable `sort` with a numeric comparator, and `reduce` into a sum.
 */
module Seqs {

  /** `s.filter(p)`: the elements of `s` that satisfy `p`, in their original order. */
  function Filter<T(!new)>(s: seq<T>, p: T -> bool): (r: seq<T>)
    ensures |r| <= |s|
  {
    if s == [] then []
    else
      assert s == [s[0]] + s[1..];
      (if p(s[0]) then [s[0]] else []) + Filter(s[1..], p)
  }

  /** An element is kept exactly when it occurs in `s` and satisfies `p`. */
  lemma {:induction false} FilterMembers<T(!new)>(s: seq<T>, p: T -> bool)
    ensures forall x :: x in Filter(s, p) <==> x in s && p(x)
  {
    if s != [] {
      FilterMembers(s[1..], p);
      assert s == [s[0]] + s[1..];
    }
  }

  /** A filter that every element passes keeps the whole sequence. */
  lemma {:induction false} FilterAllPass<T(!new)>(s: seq<T>, p: T -> bool)
    ensures (forall x :: x in s ==> p(x)) ==> Filter(s, p) == s
  {
    if s != [] && forall x :: x in s ==> p(x) {
      assert s == [s[0]] + s[1..];
      FilterAllPass(s[1..], p);
    }
  }

  /** Filtering distributes over concatenation: what is kept stays in order. */
  lemma {:induction false} FilterConcat<T(!new)>(a: seq<T>, b: seq<T>, p: T -> bool)
    ensures Filter(a + b, p) == Filter(a, p) + Filter(b, p)
  {
    if a == [] {
      assert a + b == b;
    } else {
      var head := if p(a[0]) then [a[0]] else [];
      assert (a + b)[0] == a[0];
      assert (a + b)[1..] == a[1..] + b;
      assert Filter(a + b, p) == head + Filter(a[1..] + b, p);
      FilterConcat(a[1..], b, p);
      assert Filter(a, p) == head + Filter(a[1..], p);
    }
  }

  /** Two filters in a row keep what one filter on the conjunction keeps. */
  lemma {:induction false} FilterFilter<T(!new)>(s: seq<T>, p: T -> bool, q: T -> bool, both: T -> bool)
    requires forall x :: both(x) == (p(x) && q(x))
    ensures Filter(Filter(s, p), q) == Filter(s, both)
  {
    if s != [] {
      FilterFilter(s[1..], p, q, both);
      FilterConcat(if p(s[0]) then [s[0]] else [], Filter(s[1..], p), q);
    }
  }

  /** Two filters commute. */
  lemma FilterCommute<T(!new)>(s: seq<T>, p: T -> bool, q: T -> bool)
    ensures Filter(Filter(s, p), q) == Filter(Filter(s, q), p)
  {
    var both := (x: T) => p(x) && q(x);
    FilterFilter(s, p, q, both);
    FilterFilter(s, q, p, both);
  }

  /** A filter keeps every occurrence of an element that passes and none of one that fails. */
  lemma {:induction false} FilterMultiplicity<T(!new)>(s: seq<T>, p: T -> bool)
    ensures forall x :: multiset(Filter(s, p))[x] == if p(x) then multiset(s)[x] else 0
  {
    if s != [] {
      FilterMultiplicity(s[1..], p);
      assert s == [s[0]] + s[1..];
      assert multiset(s) == multiset{s[0]} + multiset(s[1..]);
      var head := if p(s[0]) then [s[0]] else [];
      assert multiset(Filter(s, p)) == multiset(head) + multiset(Filter(s[1..], p));
    }
  }

  /** Two complementary filters split `s`: between them they keep every element exactly once. */
  lemma {:induction false} FilterComplement<T(!new)>(s: seq<T>, p: T -> bool, q: T -> bool)
    requires forall x :: q(x) == !p(x)
    ensures multiset(Filter(s, p)) + multiset(Filter(s, q)) == multiset(s)
  {
    if s != [] {
      FilterComplement(s[1..], p, q);
      var h, g := if p(s[0]) then [s[0]] else [], if q(s[0]) then [s[0]] else [];
      assert Filter(s, p) == h + Filter(s[1..], p);
      assert Filter(s, q) == g + Filter(s[1..], q);
      assert multiset(h) + multiset(g) == multiset{s[0]};
      assert s == [s[0]] + s[1..];
      assert multiset(s) == multiset{s[0]} + multiset(s[1..]);
    }
  }

  /** Sequences with the same multiset have the same elements. */
  lemma SameElements<T>(a: seq<T>, b: seq<T>)
    requires multiset(a) == multiset(b)
    ensures forall x :: x in a <==> x in b
  {
    forall x ensures x in a <==> x in b {
      assert x in a <==> x in multiset(a);
      assert x in b <==> x in multiset(b);
    }
  }

  /** A sub-multiset's sequence has no element the other lacks. */
  lemma SubElements<T>(a: seq<T>, b: seq<T>)
    requires multiset(a) <= multiset(b)
    ensures forall x :: x in a ==> x in b
  {
    forall x | x in a ensures x in b {
      assert x in multiset(a);
    }
  }

  /** Filters with the same multiset of input elements keep the same multiset. */
  lemma FilterPermutation<T(!new)>(a: seq<T>, b: seq<T>, p: T -> bool)
    requires multiset(a) == multiset(b)
    ensures multiset(Filter(a, p)) == multiset(Filter(b, p))
  {
    FilterMultiplicity(a, p);
    FilterMultiplicity(b, p);
    var fa, fb := Filter(a, p), Filter(b, p);
    forall x ensures multiset(fa)[x] == multiset(fb)[x] {
    }
  }

  /** `s.map(f)`. */
  function Map<T, U>(s: seq<T>, f: T -> U): (r: seq<U>)
    ensures |r| == |s|
    ensures forall k :: 0 <= k < |s| ==> r[k] == f(s[k])
  {
    if s == [] then [] else [f(s[0])] + Map(s[1..], f)
  }

  /** `s.slice(0, n)`: the first `n` elements, or all of them when there are fewer. */
  function Take<T>(s: seq<T>, n: nat): (r: seq<T>)
    ensures |r| <= n && |r| <= |s|
    ensures |r| == n || r == s
    ensures r == s[..|r|]
  {
    if |s| <= n then s else s[..n]
  }

  /** Keys never decrease along `s`. */
  predicate Ascending<T>(s: seq<T>, key: T -> int) {
    forall i, j :: 0 <= i < j < |s| ==> key(s[i]) <= key(s[j])
  }

  /** Keys never increase along `s`. */
  predicate Descending<T>(s: seq<T>, key: T -> int) {
    forall i, j :: 0 <= i < j < |s| ==> key(s[i]) >= key(s[j])
  }

  /** Puts `x` before the first element whose key is not smaller. */
  function Insert<T>(x: T, s: seq<T>, key: T -> int): (r: seq<T>)
    ensures |r| == |s| + 1
    ensures multiset(r) == multiset(s) + multiset{x}
  {
    if s == [] || key(x) <= key(s[0]) then
      [x] + s
    else
      assert s == [s[0]] + s[1..];
      [s[0]] + Insert(x, s[1..], key)
  }

  /** A lower bound on the keys of `s` and of `x` is a lower bound on the keys of `Insert(x, s, key)`. */
  lemma InsertLowerBound<T>(x: T, s: seq<T>, key: T -> int, bound: int)
    requires bound <= key(x)
    requires forall k :: 0 <= k < |s| ==> bound <= key(s[k])
    ensures forall j :: 0 <= j < |Insert(x, s, key)| ==> bound <= key(Insert(x, s, key)[j])
  {
    var r := Insert(x, s, key);
    forall j | 0 <= j < |r| ensures bound <= key(r[j]) {
      assert r[j] in multiset(r);
      if r[j] != x {
        assert r[j] in multiset(s);
        var k :| 0 <= k < |s| && s[k] == r[j];
      }
    }
  }

  /** Inserting into an ascending sequence keeps it ascending. */
  lemma {:induction false} InsertAscending<T>(x: T, s: seq<T>, key: T -> int)
    requires Ascending(s, key)
    ensures Ascending(Insert(x, s, key), key)
  {
    if s != [] && key(x) > key(s[0]) {
      var tail := s[1..];
      var rest := Insert(x, tail, key);
      InsertAscending(x, tail, key);
      assert forall k :: 0 <= k < |tail| ==> key(s[0]) <= key(tail[k]) by {
        forall k | 0 <= k < |tail| ensures key(s[0]) <= key(tail[k]) {
          assert tail[k] == s[k + 1];
        }
      }
      InsertLowerBound(x, tail, key, key(s[0]));
      var r := [s[0]] + rest;
      assert Insert(x, s, key) == r;
      forall i, j | 0 <= i < j < |r| ensures key(r[i]) <= key(r[j]) {
        assert r[j] == rest[j - 1];
        if i > 0 {
          assert r[i] == rest[i - 1];
        }
      }
    }
  }

  /**
   * `s.sort((a, b) => key(a) - key(b))`: insertion sort, stable like the
   * ECMAScript 2019 `Array.prototype.sort`.
   */
  function SortBy<T>(s: seq<T>, key: T -> int): (r: seq<T>)
    ensures |r| == |s|
    ensures multiset(r) == multiset(s)
    ensures Ascending(r, key)
  {
    if s == [] then []
    else
      assert s == [s[0]] + s[1..];
      var sorted := SortBy(s[1..], key);
      InsertAscending(s[0], sorted, key);
      Insert(s[0], sorted, key)
  }

  /** The key negated: sorting by it is sorting by `key` from largest to smallest. */
  function Negated<T>(key: T -> int): T -> int {
    x => -key(x)
  }

  /** `s.sort((a, b) => key(b) - key(a))`. */
  function SortByDescending<T>(s: seq<T>, key: T -> int): (r: seq<T>)
    ensures |r| == |s|
    ensures multiset(r) == multiset(s)
    ensures Descending(r, key)
  {
    var r := SortBy(s, Negated(key));
    assert forall i, j :: 0 <= i < j < |r| ==> Negated(key)(r[i]) <= Negated(key)(r[j]);
    r
  }

  /** Cutting an ascending sequence: both parts stay ascending and nothing after the cut is smaller. */
  lemma CutOfAscending<T>(t: seq<T>, m: nat, key: T -> int)
    requires Ascending(t, key) && m <= |t|
    ensures Ascending(t[..m], key)
    ensures forall x, y :: x in t[m..] && y in t[..m] ==> key(y) <= key(x)
  {
    forall x, y | x in t[m..] && y in t[..m] ensures key(y) <= key(x) {
      var k :| 0 <= k < |t| - m && t[m..][k] == x;
      var j :| 0 <= j < m && t[..m][j] == y;
      assert t[j] == y && t[m + k] == x;
    }
  }

  /** Cutting a descending sequence: the first part stays descending and nothing after the cut is larger. */
  lemma CutOfDescending<T>(t: seq<T>, m: nat, key: T -> int)
    requires Descending(t, key) && m <= |t|
    ensures Descending(t[..m], key)
    ensures forall x, y :: x in t[m..] && y in t[..m] ==> key(y) >= key(x)
  {
    forall x, y | x in t[m..] && y in t[..m] ensures key(y) >= key(x) {
      var k :| 0 <= k < |t| - m && t[m..][k] == x;
      var j :| 0 <= j < m && t[..m][j] == y;
      assert t[j] == y && t[m + k] == x;
    }
  }

  /**
   * Cutting an ascending sort of `s` after `n` elements keeps elements of `s`,
   * and nothing it drops has a smaller key than anything it keeps.
   */
  lemma TakeOfSortedIsLeast<T>(s: seq<T>, n: nat, key: T -> int)
    ensures Ascending(Take(SortBy(s, key), n), key)
    ensures multiset(Take(SortBy(s, key), n)) <= multiset(s)
    ensures forall x, y :: x in multiset(s) - multiset(Take(SortBy(s, key), n)) && y in Take(SortBy(s, key), n)
              ==> key(y) <= key(x)
  {
    var t := SortBy(s, key);
    var r := Take(t, n);
    CutOfAscending(t, |r|, key);
    var rest := t[|r|..];
    assert t == r + rest;
    assert multiset(s) == multiset(r) + multiset(rest);
    forall x, y | x in multiset(s) - multiset(r) && y in r ensures key(y) <= key(x) {
      assert x in multiset(rest);
    }
  }

  /** The descending counterpart: nothing a top-`n` cut drops has a larger key than what it keeps. */
  lemma TakeOfSortedDescendingIsGreatest<T>(s: seq<T>, n: nat, key: T -> int)
    ensures Descending(Take(SortByDescending(s, key), n), key)
    ensures multiset(Take(SortByDescending(s, key), n)) <= multiset(s)
    ensures forall x, y ::
              (x in multiset(s) - multiset(Take(SortByDescending(s, key), n)) && y in Take(SortByDescending(s, key), n))
              ==> key(y) >= key(x)
  {
    var t := SortByDescending(s, key);
    var r := Take(t, n);
    CutOfDescending(t, |r|, key);
    var rest := t[|r|..];
    assert t == r + rest;
    assert multiset(s) == multiset(r) + multiset(rest);
    forall x, y | x in multiset(s) - multiset(r) && y in r ensures key(y) >= key(x) {
      assert x in multiset(rest);
    }
  }

  /** `s.reduce((sum, x) => sum + f(x), 0)`: zero for no terms, the term itself for one. */
  function Sum<T>(s: seq<T>, f: T -> int): (r: int)
    ensures s == [] ==> r == 0
    ensures |s| == 1 ==> r == f(s[0])
  {
    if s == [] then 0
    else
      assert |s| == 1 ==> s[1..] == [];
      f(s[0]) + Sum(s[1..], f)
  }

  /** A sum of terms none of which is negative is not negative. */
  lemma {:induction false} SumNonNegative<T>(s: seq<T>, f: T -> int)
    requires forall x :: x in s ==> f(x) >= 0
    ensures Sum(s, f) >= 0
  {
    if s != [] {
      assert forall x :: x in s[1..] ==> x in s;
      SumNonNegative(s[1..], f);
    }
  }

  lemma {:induction false} SumConcat<T>(a: seq<T>, b: seq<T>, f: T -> int)
    ensures Sum(a + b, f) == Sum(a, f) + Sum(b, f)
  {
    if a == [] {
      assert a + b == b;
    } else {
      assert (a + b)[0] == a[0];
      assert (a + b)[1..] == a[1..] + b;
      SumConcat(a[1..], b, f);
    }
  }

  /** Taking one term out of a sum leaves the sum of the others. */
  lemma SumRemove<T>(b: seq<T>, k: nat, f: T -> int)
    requires k < |b|
    ensures Sum(b, f) == f(b[k]) + Sum(b[..k] + b[k + 1..], f)
  {
    var pre, x, post := b[..k], b[k], b[k + 1..];
    assert b == pre + ([x] + post);
    SumConcat(pre, [x] + post, f);
    assert ([x] + post)[0] == x && ([x] + post)[1..] == post;
    SumConcat(pre, post, f);
  }

  /** A sum does not depend on the order of its terms. */
  lemma {:induction false} SumPermutation<T>(a: seq<T>, b: seq<T>, f: T -> int)
    requires multiset(a) == multiset(b)
    ensures Sum(a, f) == Sum(b, f)
    decreases |a|
  {
    if a == [] {
      assert |b| == |multiset(b)| == 0;
    } else {
      var x := a[0];
      assert x in multiset(b);
      var k :| 0 <= k < |b| && b[k] == x;
      var b' := b[..k] + b[k + 1..];
      assert b == b[..k] + ([x] + b[k + 1..]);
      SumRemove(b, k, f);
      assert a == [x] + a[1..];
      assert multiset(a) == multiset{x} + multiset(a[1..]);
      assert multiset([x] + b[k + 1..]) == multiset{x} + multiset(b[k + 1..]);
      assert multiset(b) == multiset(b[..k]) + multiset([x] + b[k + 1..]);
      assert multiset(b') == multiset(b[..k]) + multiset(b[k + 1..]);
      assert multiset(b) == multiset{x} + multiset(b');
      assert multiset(a[1..]) == multiset(a) - multiset{x};
      assert multiset(b') == multiset(b) - multiset{x};
      SumPermutation(a[1..], b', f);
    }
  }

  /** A sum splits into what a filter keeps and what it drops. */
  lemma {:induction false} SumFilterSplit<T(!new)>(s: seq<T>, p: T -> bool, notP: T -> bool, f: T -> int)
    requires forall x :: notP(x) == !p(x)
    ensures Sum(s, f) == Sum(Filter(s, p), f) + Sum(Filter(s, notP), f)
  {
    if s != [] {
      SumFilterSplit(s[1..], p, notP, f);
      SumConcat(if p(s[0]) then [s[0]] else [], Filter(s[1..], p), f);
      SumConcat(if notP(s[0]) then [s[0]] else [], Filter(s[1..], notP), f);
    }
  }

  /** Summing a mapped sequence is summing the composed terms over the original. */
  lemma {:induction false} SumOfMap<T, U>(s: seq<T>, f: T -> U, g: U -> int, h: T -> int)
    requires forall k :: 0 <= k < |s| ==> h(s[k]) == g(f(s[k]))
    ensures Sum(Map(s, f), g) == Sum(s, h)
  {
    if s != [] {
      assert Map(s, f)[1..] == Map(s[1..], f);
      SumOfMap(s[1..], f, g, h);
    }
  }
}
