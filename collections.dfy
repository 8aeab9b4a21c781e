/**
 * The array built-ins the pages use on their in-memory lists: `filter`,
 * `filter(...).length`, `slice` for pagination, and `Math.max(...ids, 0)`
 * for allocating a new id.
 */
module Collections {

  /** `s.filter(p)`: the elements that pass, in their original order. */
  function Filter<T>(s: seq<T>, p: T -> bool): (r: seq<T>)
    ensures |r| <= |s|
    ensures forall i :: 0 <= i < |r| ==> r[i] in s && p(r[i])
    ensures forall i :: 0 <= i < |s| && p(s[i]) ==> s[i] in r
  {
    if s == [] then [] else (if p(s[0]) then [s[0]] else []) + Filter(s[1..], p)
  }

  /** `r` can be obtained from `s` by deleting elements: order is preserved. */
  ghost predicate Sublist<T>(r: seq<T>, s: seq<T>)
    decreases |s|
  {
    if r == [] then true
    else if s == [] then false
    else (r[0] == s[0] && Sublist(r[1..], s[1..])) || Sublist(r, s[1..])
  }

  /** Every list is a sublist of itself. */
  lemma {:induction false} SublistReflexive<T>(s: seq<T>)
    ensures Sublist(s, s)
  {
    if s != [] {
      SublistReflexive(s[1..]);
    }
  }

  /** What `filter` keeps is an order-preserving sublist of its input. */
  lemma {:induction false} FilterIsSublist<T>(s: seq<T>, p: T -> bool)
    ensures Sublist(Filter(s, p), s)
  {
    if s != [] {
      FilterIsSublist(s[1..], p);
      if p(s[0]) {
        assert Filter(s, p) == [s[0]] + Filter(s[1..], p);
        assert Filter(s, p)[1..] == Filter(s[1..], p);
      } else {
        assert Filter(s, p) == Filter(s[1..], p);
      }
    }
  }

  /** Filtering distributes over concatenation. */
  lemma {:induction false} FilterAppend<T>(a: seq<T>, b: seq<T>, p: T -> bool)
    ensures Filter(a + b, p) == Filter(a, p) + Filter(b, p)
  {
    if a == [] {
      assert a + b == b;
    } else {
      assert (a + b)[1..] == a[1..] + b;
      FilterAppend(a[1..], b, p);
    }
  }

  /** A filter that every element passes changes nothing. */
  lemma {:induction false} FilterKeepsAll<T>(s: seq<T>, p: T -> bool)
    requires forall i :: 0 <= i < |s| ==> p(s[i])
    ensures Filter(s, p) == s
  {
    if s != [] {
      FilterKeepsAll(s[1..], p);
    }
  }

  /** Every member of a sublist is a member of the list. */
  lemma {:induction false} SublistMembers<T>(r: seq<T>, s: seq<T>)
    requires Sublist(r, s)
    ensures forall x :: x in r ==> x in s
    decreases |s|
  {
    if r != [] && s != [] {
      if r[0] == s[0] && Sublist(r[1..], s[1..]) {
        SublistMembers(r[1..], s[1..]);
        forall x | x in r ensures x in s {
          if x != r[0] {
            assert x in r[1..];
          }
        }
      } else {
        SublistMembers(r, s[1..]);
      }
    }
  }

  /** No value occurs twice. */
  ghost predicate NoDuplicates<T>(s: seq<T>) {
    forall i, j :: 0 <= i < j < |s| ==> s[i] != s[j]
  }

  /** No two elements share a key. */
  ghost predicate DistinctBy<T, K>(s: seq<T>, key: T -> K) {
    forall i, j :: 0 <= i < j < |s| ==> key(s[i]) != key(s[j])
  }

  /** Deleting elements keeps keys distinct. */
  lemma {:induction false} SublistKeepsDistinct<T, K>(r: seq<T>, s: seq<T>, key: T -> K)
    requires Sublist(r, s) && DistinctBy(s, key)
    ensures DistinctBy(r, key)
    decreases |s|
  {
    if r != [] && s != [] {
      if r[0] == s[0] && Sublist(r[1..], s[1..]) {
        SublistKeepsDistinct(r[1..], s[1..], key);
        SublistMembers(r[1..], s[1..]);
        forall i, j | 0 <= i < j < |r| ensures key(r[i]) != key(r[j]) {
          if i > 0 {
            assert r[i] == r[1..][i - 1] && r[j] == r[1..][j - 1];
          } else {
            assert r[j] == r[1..][j - 1];
            assert r[j] in s[1..];
          }
        }
      } else {
        SublistKeepsDistinct(r, s[1..], key);
      }
    }
  }

  /** Filtering keeps keys distinct. */
  lemma FilterKeepsDistinct<T, K>(s: seq<T>, p: T -> bool, key: T -> K)
    requires DistinctBy(s, key)
    ensures DistinctBy(Filter(s, p), key)
  {
    FilterIsSublist(s, p);
    SublistKeepsDistinct(Filter(s, p), s, key);
  }

  /** Appending an element whose key is new keeps keys distinct. */
  lemma DistinctByAppend<T, K>(s: seq<T>, x: T, key: T -> K)
    requires DistinctBy(s, key)
    requires forall i :: 0 <= i < |s| ==> key(s[i]) != key(x)
    ensures DistinctBy(s + [x], key)
  {
  }

  /**
   * With distinct keys, filtering out one key that is present drops exactly
   * one element.
   */
  lemma {:induction false} FilterOutKey<T, K>(s: seq<T>, p: T -> bool, key: T -> K, k: K)
    requires DistinctBy(s, key)
    requires forall i :: 0 <= i < |s| ==> (p(s[i]) <==> key(s[i]) != k)
    ensures |Filter(s, p)| == |s| - (if exists i :: 0 <= i < |s| && key(s[i]) == k then 1 else 0)
  {
    if s != [] {
      FilterOutKey(s[1..], p, key, k);
      if key(s[0]) == k {
        FilterKeepsAll(s[1..], p);
      } else {
        assert (exists i :: 0 <= i < |s| && key(s[i]) == k) <==> (exists i :: 0 <= i < |s[1..]| && key(s[1..][i]) == k) by {
          if exists i :: 0 <= i < |s| && key(s[i]) == k {
            var i :| 0 <= i < |s| && key(s[i]) == k;
            assert key(s[1..][i - 1]) == k;
          }
        }
      }
    }
  }

  /** `s.filter(p).length` */
  function Count<T>(s: seq<T>, p: T -> bool): nat {
    |Filter(s, p)|
  }

  /** Counting by three predicates that split the elements counts every element once. */
  lemma {:induction false} CountThreeWay<T>(s: seq<T>, p: T -> bool, q: T -> bool, r: T -> bool)
    requires forall i :: 0 <= i < |s| ==> (if p(s[i]) then 1 else 0) + (if q(s[i]) then 1 else 0) + (if r(s[i]) then 1 else 0) == 1
    ensures Count(s, p) + Count(s, q) + Count(s, r) == |s|
  {
    if s != [] {
      CountThreeWay(s[1..], p, q, r);
    }
  }

  /** `s.map(x => p(x) ? f(x) : x)`: the elements that pass are rewritten, the others kept. */
  function MapWhere<T>(s: seq<T>, p: T -> bool, f: T -> T): (r: seq<T>)
    ensures |r| == |s|
    ensures forall k :: 0 <= k < |s| ==> r[k] == if p(s[k]) then f(s[k]) else s[k]
  {
    seq(|s|, k requires 0 <= k < |s| => if p(s[k]) then f(s[k]) else s[k])
  }

  /** When exactly one element passes, the conditional map rewrites that one position only. */
  lemma MapWhereSingle<T>(s: seq<T>, p: T -> bool, f: T -> T, j: int)
    requires 0 <= j < |s| && p(s[j])
    requires forall k :: 0 <= k < |s| && k != j ==> !p(s[k])
    ensures MapWhere(s, p, f) == s[j := f(s[j])]
  {
  }

  function Indicator(b: bool): nat {
    if b then 1 else 0
  }

  /** Replacing one element changes a count by what the old and the new element contribute. */
  lemma {:induction false} CountUpdate<T>(s: seq<T>, j: int, x: T, p: T -> bool)
    requires 0 <= j < |s|
    ensures Count(s[j := x], p) + Indicator(p(s[j])) == Count(s, p) + Indicator(p(x))
  {
    var t := s[j := x];
    if j == 0 {
      assert t[1..] == s[1..];
    } else {
      assert t[1..] == s[1..][j - 1 := x];
      CountUpdate(s[1..], j - 1, x, p);
    }
  }

  /** A filter that at most position `j` fails loses at most one element. */
  lemma {:induction false} FilterAllButOne<T>(s: seq<T>, p: T -> bool, j: int)
    requires 0 <= j < |s|
    requires forall k :: 0 <= k < |s| && k != j ==> p(s[k])
    ensures |Filter(s, p)| >= |s| - 1
  {
    if j == 0 {
      FilterKeepsAll(s[1..], p);
    } else {
      FilterAllButOne(s[1..], p, j - 1);
    }
  }

  // ---------------------------------------------------------------------------
  // Pagination: `Math.ceil(n / perPage)` pages, page `k` is
  // `list.slice((k - 1) * perPage, (k - 1) * perPage + perPage)`.

  function Min(a: int, b: int): int {
    if a < b then a else b
  }

  /** `Math.ceil(n / perPage)` */
  function PageCount(n: nat, perPage: nat): (pages: nat)
    requires perPage > 0
    ensures pages * perPage >= n
    ensures pages > 0 ==> (pages - 1) * perPage < n
  {
    (n + perPage - 1) / perPage
  }

  /** `s.slice(start, end)` for a non-negative start: both bounds are clamped to the length. */
  function Slice<T>(s: seq<T>, start: nat, end: nat): (r: seq<T>)
    ensures |r| == if Min(end, |s|) <= start then 0 else Min(end, |s|) - start
    ensures forall k :: 0 <= k < |r| ==> r[k] == s[start + k]
  {
    var e := Min(end, |s|);
    if e <= start then [] else s[start..e]
  }

  /** The elements shown on page `page` (counting from 1), `perPage` at a time. */
  function Page<T>(s: seq<T>, page: int, perPage: nat): (r: seq<T>)
    requires page >= 1
  {
    var start := (page - 1) * perPage;
    Slice(s, start, start + perPage)
  }

  /** Pages 1 to `k` laid end to end. */
  function PagesUpTo<T>(s: seq<T>, k: nat, perPage: nat): seq<T> {
    if k == 0 then [] else PagesUpTo(s, k - 1, perPage) + Page(s, k, perPage)
  }

  /** The first `k` pages are exactly the first `k * perPage` elements. */
  lemma {:induction false} PagesUpToIsPrefix<T>(s: seq<T>, k: nat, perPage: nat)
    requires perPage > 0
    ensures PagesUpTo(s, k, perPage) == s[..Min(k * perPage, |s|)]
  {
    if k > 0 {
      PagesUpToIsPrefix(s, k - 1, perPage);
      var start := (k - 1) * perPage;
      assert start + perPage == k * perPage;
      var p := Page(s, k, perPage);
      if start < |s| {
        assert p == s[start..Min(k * perPage, |s|)];
        assert s[..start] + s[start..Min(k * perPage, |s|)] == s[..Min(k * perPage, |s|)];
      } else {
        assert p == [];
        assert Min((k - 1) * perPage, |s|) == |s| == Min(k * perPage, |s|);
      }
    }
  }

  /** Walking through every page shows each element exactly once, in order. */
  lemma PagesCoverList<T>(s: seq<T>, perPage: nat)
    requires perPage > 0
    ensures PagesUpTo(s, PageCount(|s|, perPage), perPage) == s
  {
    PagesUpToIsPrefix(s, PageCount(|s|, perPage), perPage);
  }

  /** Every page holds at most `perPage` elements. */
  lemma PageSizeBound<T>(s: seq<T>, page: int, perPage: nat)
    requires page >= 1
    ensures |Page(s, page, perPage)| <= perPage
  {
  }

  // ---------------------------------------------------------------------------
  // Id allocation.

  /** `Math.max(...ids, 0)`: the largest id, or 0 for an empty list. */
  function MaxOrZero(ids: seq<int>): (m: int)
    ensures m >= 0
    ensures forall i :: 0 <= i < |ids| ==> ids[i] <= m
    ensures m == 0 || m in ids
  {
    if ids == [] then 0
    else
      var rest := MaxOrZero(ids[1..]);
      if ids[0] > rest then ids[0] else rest
  }

  /** `Math.max(...ids, 0) + 1` is larger than every id in use, so it is fresh. */
  function NextId(ids: seq<int>): (id: int)
    ensures id >= 1
    ensures forall i :: 0 <= i < |ids| ==> ids[i] < id
  {
    MaxOrZero(ids) + 1
  }

  // ---------------------------------------------------------------------------
  // Rows edited by position.

  /** `Math.max(1, quantity)` */
  function AtLeastOne(quantity: int): int {
    if quantity > 1 then quantity else 1
  }

  /** `s.filter((_, i) => i !== index)`, element by element. */
  function RemoveAt<T>(s: seq<T>, index: int): seq<T> {
    if s == [] then [] else (if index == 0 then [] else [s[0]]) + RemoveAt(s[1..], index - 1)
  }

  /**
   * Filtering by position drops exactly the element at that index when there
   * is one, and nothing otherwise: the others keep their order.
   */
  lemma {:induction false} RemoveAtEffect<T>(s: seq<T>, index: int)
    ensures 0 <= index < |s| ==> RemoveAt(s, index) == s[..index] + s[index + 1..]
    ensures !(0 <= index < |s|) ==> RemoveAt(s, index) == s
  {
    if s != [] {
      RemoveAtEffect(s[1..], index - 1);
      if 0 < index < |s| {
        assert s[1..][..index - 1] == s[1..index];
        assert [s[0]] + s[1..index] == s[..index];
        assert s[1..][index..] == s[index + 1..];
      } else if index != 0 {
        assert [s[0]] + s[1..] == s;
      }
    }
  }

  /** `s.map((v, i) => i === index ? f(v) : v)` */
  function UpdateAt<T>(s: seq<T>, index: int, f: T -> T): seq<T> {
    seq(|s|, i requires 0 <= i < |s| => if i == index then f(s[i]) else s[i])
  }

  /** Mapping by position changes the element at that index, if there is one, and nothing else. */
  lemma UpdateAtEffect<T>(s: seq<T>, index: int, f: T -> T)
    ensures 0 <= index < |s| ==> UpdateAt(s, index, f) == s[index := f(s[index])]
    ensures !(0 <= index < |s|) ==> UpdateAt(s, index, f) == s
  {
  }
}
