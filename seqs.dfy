/** Sequence operations the Rust `Vec` and TypeScript array code relies on:
    `position`/`findIndex` by id, `remove(pos)`, `filter`, and `max` over ids. */
module Seqs {
  import opened Wrappers

  /** `Vec::remove(i)`: the element at `i` is gone, the others keep their order. */
  function RemoveAt<T>(s: seq<T>, i: nat): (r: seq<T>)
    requires i < |s|
    ensures |r| == |s| - 1
    ensures forall k :: 0 <= k < i ==> r[k] == s[k]
    ensures forall k :: i <= k < |r| ==> r[k] == s[k + 1]
  {
    s[..i] + s[i + 1..]
  }

  /** The key of every element, in order (`map(x => x.id)`). */
  function Keys<T, K>(s: seq<T>, key: T -> K): (ks: seq<K>)
    ensures |ks| == |s| && forall k :: 0 <= k < |s| ==> ks[k] == key(s[k])
  {
    seq(|s|, k requires 0 <= k < |s| => key(s[k]))
  }

  /** Index of the first id equal to `id` (`iter().position`, `findIndex`). */
  function IndexOfId<K(==)>(ids: seq<K>, id: K): (r: Option<nat>)
    ensures r.Some? ==> r.value < |ids| && ids[r.value] == id
    ensures r.Some? ==> forall k :: 0 <= k < r.value ==> ids[k] != id
    ensures r.None? <==> id !in ids
  {
    if ids == [] then None
    else if ids[0] == id then Some(0)
    else match IndexOfId(ids[1..], id)
      case None => None
      case Some(i) => Some(i + 1)
  }

  /** `filter`: the elements satisfying `p`, in their original order. */
  function Filter<T>(s: seq<T>, p: T -> bool): (r: seq<T>)
    ensures |r| <= |s|
    ensures forall k :: 0 <= k < |r| ==> r[k] in s && p(r[k])
    ensures forall k :: 0 <= k < |s| && p(s[k]) ==> s[k] in r
  {
    if s == [] then []
    else (if p(s[0]) then [s[0]] else []) + Filter(s[1..], p)
  }

  /** Filtering by a condition every element meets keeps the whole sequence. */
  lemma {:induction false} FilterAll<T>(s: seq<T>, p: T -> bool)
    requires forall k :: 0 <= k < |s| ==> p(s[k])
    ensures Filter(s, p) == s
  {
    if s != [] {
      FilterAll(s[1..], p);
      assert [s[0]] + s[1..] == s;
    }
  }

  /** Filter distributes over concatenation. */
  lemma {:induction false} FilterAppend<T>(a: seq<T>, b: seq<T>, p: T -> bool)
    ensures Filter(a + b, p) == Filter(a, p) + Filter(b, p)
  {
    if a == [] {
      assert a + b == b;
    } else {
      assert (a + b)[1..] == a[1..] + b;
      FilterAppend(a[1..], b, p);
    }
  }

  /** Filtering what one condition kept by a condition it excludes keeps nothing. */
  lemma {:induction false} FilterExclusive<T>(s: seq<T>, p: T -> bool, q: T -> bool)
    requires forall x :: p(x) ==> !q(x)
    ensures Filter(Filter(s, p), q) == []
  {
    if s != [] {
      FilterExclusive(s[1..], p, q);
      var rest := Filter(s[1..], p);
      if p(s[0]) {
        assert Filter(s, p) == [s[0]] + rest;
        assert ([s[0]] + rest)[1..] == rest;
      } else {
        assert Filter(s, p) == rest;
      }
    }
  }

  /** Every id is below `bound`. */
  predicate AllBelow(ids: seq<int>, bound: int) {
    forall k :: 0 <= k < |ids| ==> ids[k] < bound
  }

  /** `iter().max().unwrap_or(0)`. */
  function MaxOr0(ids: seq<int>): int {
    if ids == [] then 0
    else if |ids| == 1 then ids[0]
    else var m := MaxOr0(ids[1..]); if ids[0] >= m then ids[0] else m
  }

  /** The maximum bounds every id and, for a non-empty list, is one of them. */
  lemma {:induction false} MaxOr0IsMax(ids: seq<int>)
    ensures forall k :: 0 <= k < |ids| ==> ids[k] <= MaxOr0(ids)
    ensures ids != [] ==> MaxOr0(ids) in ids
  {
    if |ids| > 1 {
      MaxOr0IsMax(ids[1..]);
      assert forall k :: 1 <= k < |ids| ==> ids[k] == ids[1..][k - 1];
    }
  }

  /** One past the maximum is strictly above every id. */
  lemma MaxPlusOneIsAbove(ids: seq<int>)
    ensures AllBelow(ids, MaxOr0(ids) + 1)
  {
    MaxOr0IsMax(ids);
  }
}
