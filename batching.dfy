/** Splitting a list into consecutive slices of a fixed size, as the loops
    `for i in range(0, len(xs), n): xs[i:i+n]` do. */
module Batching {

  /** The slices `xs[0:n], xs[n:2n], ...` of a non-empty remainder. */
  function Chunks<T>(xs: seq<T>, n: nat): (r: seq<seq<T>>)
    requires n > 0
    ensures forall k :: 0 <= k < |r| ==> 0 < |r[k]| <= n
    decreases |xs|
  {
    if xs == [] then []
    else if |xs| <= n then [xs]
    else [xs[..n]] + Chunks(xs[n..], n)
  }

  lemma MulBound(k: int, n: nat)
    ensures k >= 1 ==> k * n >= n
    ensures k <= -1 ==> k * n + n <= 0
  {
    if k >= 1 {
      assert (k - 1) * n >= 0;
      assert k * n == (k - 1) * n + n;
    } else if k <= -1 {
      assert (-k - 1) * n >= 0;
      assert k * n + n == -((-k - 1) * n);
    }
  }

  lemma DivBetween(a: int, n: nat, q: int)
    requires n > 0 && q * n <= a < q * n + n
    ensures a / n == q
  {
    var d := a / n;
    assert a == d * n + a % n;
    assert (d - q) * n == d * n - q * n;
    MulBound(d - q, n);
  }

  /** There are ceil(len(xs) / n) slices. */
  lemma {:induction false} ChunkCount<T>(xs: seq<T>, n: nat)
    requires n > 0
    ensures |Chunks(xs, n)| == (|xs| + n - 1) / n
    decreases |xs|
  {
    if xs == [] {
      DivBetween(n - 1, n, 0);
    } else if |xs| <= n {
      DivBetween(|xs| + n - 1, n, 1);
    } else {
      var ys := xs[n..];
      ChunkCount(ys, n);
      var c := (|ys| + n - 1) / n;
      DivBounds(|ys| + n - 1, n);
      assert (c + 1) * n == c * n + n;
      DivBetween(|xs| + n - 1, n, c + 1);
    }
  }

  lemma DivBounds(a: int, n: nat)
    requires n > 0
    ensures (a / n) * n <= a < (a / n) * n + n
  {
  }

  /** Concatenation of a list of lists, in order. */
  function Flatten<T>(xss: seq<seq<T>>): seq<T> {
    if xss == [] then [] else xss[0] + Flatten(xss[1..])
  }

  lemma {:induction false} FlattenAppend<T>(a: seq<seq<T>>, b: seq<seq<T>>)
    ensures Flatten(a + b) == Flatten(a) + Flatten(b)
  {
    if a != [] {
      assert (a + b)[1..] == a[1..] + b;
      FlattenAppend(a[1..], b);
    } else {
      assert a + b == b;
    }
  }

  /** The slices cover the input exactly, in order. */
  lemma {:induction false} FlattenChunks<T>(xs: seq<T>, n: nat)
    requires n > 0
    ensures Flatten(Chunks(xs, n)) == xs
    decreases |xs|
  {
    if |xs| > n {
      FlattenChunks(xs[n..], n);
      assert ([xs[..n]] + Chunks(xs[n..], n))[1..] == Chunks(xs[n..], n);
      assert xs[..n] + xs[n..] == xs;
    }
  }

  /** Slice `k` is `xs[k*n : min((k+1)*n, len(xs))]`. */
  lemma {:induction false} ChunkAt<T>(xs: seq<T>, n: nat, k: nat)
    requires n > 0 && k < |Chunks(xs, n)|
    ensures k * n < |xs|
    ensures Chunks(xs, n)[k] == xs[k * n .. if (k + 1) * n <= |xs| then (k + 1) * n else |xs|]
    decreases |xs|
  {
    if |xs| > n && k > 0 {
      var ys := xs[n..];
      var m := k - 1;
      assert Chunks(xs, n)[k] == Chunks(ys, n)[m];
      ChunkAt(ys, n, m);
      var lo, hi := m * n, (m + 1) * n;
      assert hi == lo + n;
      assert k * n == lo + n && (k + 1) * n == hi + n;
      var end := if hi <= |ys| then hi else |ys|;
      assert ys[lo..end] == xs[lo + n..end + n];
    }
  }

  /** The loop `for i in range(0, len(xs), n)` makes exactly one pass per slice: pass `k`
      (at `i == k * n`) exists iff slice `k` does. */
  lemma {:induction false} ChunkIndex<T>(xs: seq<T>, n: nat, k: nat)
    requires n > 0
    ensures k < |Chunks(xs, n)| <==> k * n < |xs|
    decreases k
  {
    if xs == [] {
    } else if |xs| <= n {
      MulBound(k, n);
    } else if k > 0 {
      ChunkIndex(xs[n..], n, k - 1);
      assert (k - 1) * n + n == k * n;
    }
  }
}
