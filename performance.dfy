/** The frontend's performance utilities that hold state or compute: the
    virtual-scroll window, the per-metric sample window, a memoising wrapper and
    request de-duplication. Pixel values are integers here; durations are exact
    reals standing for the milliseconds `performance.now()` differences give. */
module Performance {
  import opened Wrappers

  /** `{ start, end }`: the half-open index range to render. */
  datatype VisibleRange = VisibleRange(start: int, end: int)

  function Max(a: int, b: int): int { if a >= b then a else b }

  function Min(a: int, b: int): int { if a <= b then a else b }

  /** `Math.ceil(a / b)` for a positive divisor; Dafny's `/` on a positive divisor
      is already `Math.floor`. */
  function CeilDiv(a: int, b: int): (c: int)
    requires b > 0
    ensures (c - 1) * b < a <= c * b
  {
    -((-a) / b)
  }

  lemma FloorDivBounds(a: int, b: int)
    requires b > 0
    ensures (a / b) * b <= a < (a / b + 1) * b
  {
  }

  /** `getVisibleRange`. */
  function GetVisibleRange(scrollTop: int, containerHeight: int, itemHeight: int, totalItems: int, buffer: int)
    : (r: VisibleRange)
    requires itemHeight > 0
    ensures r.start >= 0 && r.end <= totalItems
    ensures r.start == Max(0, scrollTop / itemHeight - buffer)
    ensures r.end == Min(totalItems, r.start + CeilDiv(containerHeight, itemHeight) + 2 * buffer)
  {
    var start := Max(0, scrollTop / itemHeight - buffer);
    var visibleCount := CeilDiv(containerHeight, itemHeight);
    VisibleRange(start, Min(totalItems, start + visibleCount + buffer * 2))
  }

  lemma LessOfProducts(a: int, b: int, h: int)
    requires h > 0 && a * h < b * h
    ensures a < b
  {
  }

  /** With a buffer of at least one row, every existing item that overlaps the
      viewport `[scrollTop, scrollTop + containerHeight)` is inside the range. */
  lemma VisibleItemsAreRendered(scrollTop: int, containerHeight: int, itemHeight: int, totalItems: int,
                                buffer: int, k: int)
    requires itemHeight > 0 && buffer >= 1
    requires 0 <= k < totalItems
    requires k * itemHeight < scrollTop + containerHeight && (k + 1) * itemHeight > scrollTop
    ensures var r := GetVisibleRange(scrollTop, containerHeight, itemHeight, totalItems, buffer);
            r.start <= k < r.end
  {
    var h := itemHeight;
    var f := scrollTop / h;
    var c := CeilDiv(containerHeight, h);
    FloorDivBounds(scrollTop, h);
    LessOfProducts(f, k + 1, h);
    assert k * h < (f + 1 + c) * h by {
      assert (f + 1 + c) * h == (f + 1) * h + c * h;
    }
    LessOfProducts(k, f + 1 + c, h);
  }

  /** The rows `getVisibleRange` adds on either side when the caller gives none. */
  const DefaultBuffer: int := 5

  /** With the default buffer every row that overlaps the viewport is rendered. */
  lemma DefaultBufferRendersVisibleItems(scrollTop: int, containerHeight: int, itemHeight: int, totalItems: int, k: int)
    requires itemHeight > 0 && 0 <= k < totalItems
    requires k * itemHeight < scrollTop + containerHeight && (k + 1) * itemHeight > scrollTop
    ensures var r := GetVisibleRange(scrollTop, containerHeight, itemHeight, totalItems, DefaultBuffer);
            r.start <= k < r.end
  {
    VisibleItemsAreRendered(scrollTop, containerHeight, itemHeight, totalItems, DefaultBuffer, k);
  }

  /** Without a buffer, a partly visible last row can fall outside the range. */
  lemma NoBufferCanMissLastRow()
    ensures GetVisibleRange(5, 10, 10, 10, 0) == VisibleRange(0, 1)
    ensures 1 * 10 < 5 + 10 && (1 + 1) * 10 > 5
  {
  }

  /** The range can be empty with `start` past `end`, for example scrolled down with
      no items. */
  lemma RangeCanBeInverted()
    ensures var r := GetVisibleRange(100, 50, 10, 0, 5); r.start == 5 && r.end == 0
  {
  }

  /** The samples one metric keeps. */
  const WindowSize: nat := 100

  /** The last `n` elements of `s` (all of them when there are fewer). */
  function LastN<T>(s: seq<T>, n: nat): (r: seq<T>)
    ensures |r| == Min(|s|, n)
    ensures r == s[|s| - |r|..]
  {
    if |s| <= n then s else s[|s| - n..]
  }

  /** Appending a sample and dropping the oldest once over the limit keeps the last
      `n` samples of the whole history. */
  lemma LastNAppend<T>(s: seq<T>, x: T, n: nat)
    requires n > 0
    ensures var w := LastN(s, n) + [x];
            LastN(s + [x], n) == (if |w| > n then w[1..] else w)
  {
    var w := LastN(s, n) + [x];
    if |s| + 1 > n {
      assert (s + [x])[|s| + 1 - n..] == s[|s| + 1 - n..] + [x];
      if |s| >= n {
        assert w[1..] == s[|s| - n + 1..] + [x];
      }
    }
  }

  function Sum(s: seq<real>): real {
    if s == [] then 0.0 else Sum(s[..|s| - 1]) + s[|s| - 1]
  }

  datatype MetricSummary = MetricSummary(average: real, count: nat)

  /** `PerformanceMonitor`. `history` is every duration ever recorded per name, which
      the program does not keep; it states what the window holds. */
  class PerformanceMonitor {
    var metrics: map<string, seq<real>>
    ghost var history: map<string, seq<real>>

    /** Each metric holds the last (at most) 100 durations recorded under it. */
    ghost predicate Valid()
      reads this
    {
      && metrics.Keys == history.Keys
      && forall name :: name in metrics ==> metrics[name] == LastN(history[name], WindowSize)
    }

    constructor ()
      ensures Valid() && metrics == map[] && history == map[]
    {
      metrics := map[];
      history := map[];
    }

    /** The callback `startTiming(name)` returns, given the measured duration:
        creates the metric on first use, appends, and drops the oldest sample once
        there are more than 100. */
    method Record(name: string, duration: real)
      requires Valid()
      modifies this
      ensures Valid()
      ensures history == old(history)[name := (if name in old(history) then old(history)[name] else []) + [duration]]
      ensures var times := (if name in old(metrics) then old(metrics)[name] else []) + [duration];
              metrics == old(metrics)[name := if |times| > WindowSize then times[1..] else times]
      ensures |metrics[name]| <= WindowSize
    {
      var before := if name in history then history[name] else [];
      var stored := if name in metrics then metrics[name] else [];
      assert stored == LastN(before, WindowSize);
      LastNAppend(before, duration, WindowSize);
      var times := stored + [duration];
      if |times| > WindowSize {
        times := times[1..];
      }
      metrics := metrics[name := times];
      history := history[name := before + [duration]];
    }

    /** `getAverageTime`: 0 for an unknown or empty metric. */
    function AverageTime(name: string): (avg: real)
      reads this
      ensures name !in metrics || metrics[name] == [] ==> avg == 0.0
      ensures name in metrics && metrics[name] != [] ==> avg * (|metrics[name]| as real) == Sum(metrics[name])
    {
      if name !in metrics || |metrics[name]| == 0 then 0.0
      else Sum(metrics[name]) / (|metrics[name]| as real)
    }

    /** `getMetrics`: one summary per metric, built by a loop over the names. */
    method GetMetrics() returns (result: map<string, MetricSummary>)
      requires Valid()
      ensures result.Keys == metrics.Keys
      ensures forall name :: name in result ==>
        result[name] == MetricSummary(AverageTime(name), |metrics[name]|) && result[name].count <= WindowSize
    {
      result := map[];
      var rest := metrics.Keys;
      while rest != {}
        invariant rest <= metrics.Keys
        invariant result.Keys == metrics.Keys - rest
        invariant forall name :: name in result ==>
          result[name] == MetricSummary(AverageTime(name), |metrics[name]|) && result[name].count <= WindowSize
        decreases rest
      {
        var name :| name in rest;
        result := result[name := MetricSummary(AverageTime(name), |metrics[name]|)];
        rest := rest - {name};
      }
    }
  }

  /** `memoize(func, keyGenerator)`: `keyOf` is the key generator, or `JSON.stringify`
      of the arguments when none is given. `invoked` lists the keys `func` has been
      called for, which the program does not keep. */
  class Memoized<A, V> {
    const func: A -> V
    const keyOf: A -> string
    var cache: map<string, V>
    ghost var invoked: seq<string>

    /** `func` has run once for each cached key and for no other. */
    ghost predicate Valid()
      reads this
    {
      && (forall i, j :: 0 <= i < j < |invoked| ==> invoked[i] != invoked[j])
      && (forall k :: k in cache <==> k in invoked)
    }

    constructor (func: A -> V, keyOf: A -> string)
      ensures Valid() && this.func == func && this.keyOf == keyOf
      ensures cache == map[] && invoked == []
    {
      this.func := func;
      this.keyOf := keyOf;
      cache := map[];
      invoked := [];
    }

    /** The wrapper `memoize` returns: a cached key is answered from the cache
        without calling `func`. */
    method Call(args: A) returns (r: V)
      requires Valid()
      modifies this
      ensures Valid()
      ensures keyOf(args) in old(cache) ==>
        r == old(cache)[keyOf(args)] && cache == old(cache) && invoked == old(invoked)
      ensures keyOf(args) !in old(cache) ==>
        r == func(args) && cache == old(cache)[keyOf(args) := r] && invoked == old(invoked) + [keyOf(args)]
    {
      var key := keyOf(args);
      if key in cache {
        return cache[key];
      }
      r := func(args);
      cache := cache[key := r];
      invoked := invoked + [key];
    }
  }

  /** `dedupeRequest`'s `pendingRequests`: `P` stands for the promise a request
      returns. */
  class Deduper<P> {
    var pending: map<string, P>

    constructor ()
      ensures pending == map[]
    {
      pending := map[];
    }

    /** `dedupeRequest(key, requestFn)`: `issued` is the promise `requestFn()` would
        give; `started` says whether `requestFn` was called. */
    method Request(key: string, issued: P) returns (promise: P, started: bool)
      modifies this
      ensures started <==> key !in old(pending)
      ensures !started ==> promise == old(pending)[key] && pending == old(pending)
      ensures started ==> promise == issued && pending == old(pending)[key := issued]
    {
      if key in pending {
        return pending[key], false;
      }
      pending := pending[key := issued];
      return issued, true;
    }

    /** The `finally` callback: the key is no longer pending. */
    method Settle(key: string)
      modifies this
      ensures pending == old(pending) - {key}
    {
      pending := pending - {key};
    }
  }
}
