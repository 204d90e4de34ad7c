/** The segmenter of `find_petrol_pumps`: the list comprehension that cuts the
    simplified route into windows of `segment_length` consecutive points, one
    window per start index 0, n, 2n, ... of `range(0, len(route), n)`. */
module Segmenter {

  import opened Values

  function Min(a: int, b: int): int { if a <= b then a else b }

  /** Python's `route[i:i + n]` for a start inside the route: the end is clamped. */
  function Slice<T>(route: seq<T>, i: nat, n: nat): seq<T>
    requires i <= |route|
  {
    route[i..Min(i + n, |route|)]
  }

  /** The windows of a positive length `n`, in route order. */
  function Windows<T>(route: seq<T>, n: nat): (r: seq<seq<T>>)
    requires n >= 1
    ensures route == [] <==> r == []
    ensures forall k :: 0 <= k < |r| ==> 1 <= |r[k]| <= n
    ensures forall k :: 0 <= k < |r| - 1 ==> |r[k]| == n
    decreases |route|
  {
    if route == [] then []
    else [Slice(route, 0, n)] + Windows(route[Min(n, |route|)..], n)
  }

  /** The concatenation of a list of windows. */
  function Concat<T>(ws: seq<seq<T>>): seq<T>
  {
    if ws == [] then [] else ws[0] + Concat(ws[1..])
  }

  /** The comprehension with Python's `range` semantics: a step of 0 raises
      ValueError, a negative step gives an empty range and so no windows. */
  function SegmentRoute<T>(route: seq<T>, segmentLength: int): (r: Result<seq<seq<T>>>)
    ensures r.Err? <==> segmentLength == 0
    ensures r.Err? ==> r.error == ValueError
    ensures segmentLength < 0 ==> r == Ok([])
    ensures segmentLength > 0 ==> r == Ok(Windows(route, segmentLength))
  {
    if segmentLength == 0 then Err(ValueError)
    else if segmentLength < 0 then Ok([])
    else Ok(Windows(route, segmentLength))
  }

  /** How many queries the comprehension submits. */
  function SegmentCount<T>(route: seq<T>, segmentLength: int): nat
  {
    if segmentLength > 0 then |Windows(route, segmentLength)| else 0
  }

  /** Concatenating the windows in order reproduces the route: no point is lost,
      duplicated or reordered. */
  lemma {:induction false} ConcatWindows<T>(route: seq<T>, n: nat)
    requires n >= 1
    ensures Concat(Windows(route, n)) == route
    decreases |route|
  {
    if route != [] {
      var m := Min(n, |route|);
      ConcatWindows(route[m..], n);
      var ws := Windows(route, n);
      assert ws[1..] == Windows(route[m..], n);
      assert route == route[..m] + route[m..];
    }
  }

  /** The k-th window is exactly the slice `route[k*n : k*n + n]` that the
      comprehension builds for the k-th start index. */
  lemma {:induction false} WindowAt<T>(route: seq<T>, n: nat, k: nat)
    requires n >= 1
    requires k < |Windows(route, n)|
    ensures k * n < |route|
    ensures Windows(route, n)[k] == Slice(route, k * n, n)
    decreases k
  {
    if k == 0 {
      assert k * n == 0;
    } else {
      var rest := route[n..];
      var a := (k - 1) * n;
      assert k * n == a + n by { MulStep(k - 1, n); }
      WindowsTail(route, n, k);
      WindowAt(rest, n, k - 1);
      SliceShift(route, n, a);
    }
  }

  lemma WindowsTail<T>(route: seq<T>, n: nat, k: nat)
    requires n >= 1
    requires 0 < k < |Windows(route, n)|
    ensures n < |route|
    ensures k - 1 < |Windows(route[n..], n)|
    ensures Windows(route, n)[k] == Windows(route[n..], n)[k - 1]
  {
  }

  lemma SliceShift<T>(route: seq<T>, n: nat, a: nat)
    requires n + a <= |route|
    ensures Slice(route[n..], a, n) == Slice(route, n + a, n)
  {
  }

  lemma MulStep(k: nat, n: nat)
    ensures (k + 1) * n == k * n + n
  {
  }

  /** The number of windows is ceil(|route| / n): all windows but the last are
      full and the last is not empty. */
  lemma {:induction false} WindowCount<T>(route: seq<T>, n: nat)
    requires n >= 1
    ensures (|Windows(route, n)| - 1) * n < |route| <= |Windows(route, n)| * n
    ensures |Windows(route, n)| == (|route| + n - 1) / n
    decreases |route|
  {
    var c := |Windows(route, n)|;
    if route == [] {
    } else if |route| <= n {
      assert Windows(route[|route|..], n) == [];
    } else {
      var rest := route[n..];
      WindowCount(rest, n);
      var c' := |Windows(rest, n)|;
      assert c == c' + 1;
      MulStep(c', n);
      MulStep(c' - 1, n);
    }
    CeilingDivision(|route|, n, c);
  }

  /** The only count c with (c - 1) * n < len <= c * n is the ceiling of len / n. */
  lemma CeilingDivision(len: nat, n: nat, c: nat)
    requires n >= 1
    requires (c - 1) * n < len <= c * n
    ensures c == (len + n - 1) / n
  {
    var x := len + n - 1;
    var q := x / n;
    var rem := x % n;
    assert x == q * n + rem && 0 <= rem < n;
    if c > q {
      MonotoneMul(q + 1, c, n);
      MulStep(q, n);
      assert false;
    } else if c < q {
      MonotoneMul(c + 1, q, n);
      MulStep(c, n);
      assert false;
    }
  }

  lemma MonotoneMul(a: int, b: int, n: nat)
    requires a <= b
    ensures a * n <= b * n
  {
  }
}
