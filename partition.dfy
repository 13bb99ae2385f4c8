/**
  Work partitioning: the plan computed by calculate_threads_usage and the
  chunks cut by create_thread_chunks, as specification functions.
 */
module Partition {

  /** The dictionary returned by calculate_threads_usage. */
  datatype ThreadPlan = ThreadPlan(
    paths: nat,      // the padded path count
    padding: nat,    // padded count minus the real count
    threads: nat,
    chunkSize: nat,  // paths per worker
    remainder: nat)  // paths % threads when the loop stopped

  /** The least multiple of t that is at least n. */
  function PaddedCount(n: nat, t: nat): (r: nat)
    requires t >= 1
    ensures r % t == 0
    ensures n <= r < n + t
  {
    if n % t == 0 then n else
      DivModUnique(n + (t - n % t), t, n / t + 1, 0);
      n + (t - n % t)
  }

  /** Quotient and remainder are determined by a == q * t + r with 0 <= r < t. */
  lemma DivModUnique(a: int, t: int, q: int, r: int)
    requires t >= 1 && 0 <= r < t
    requires a == q * t + r
    ensures a / t == q && a % t == r
  {
    var d := a / t - q;
    assert d * t == r - a % t by {
      assert a == (a / t) * t + a % t;
      assert (a / t) * t - q * t == d * t;
    }
    MulBound(d, t);
  }

  lemma MulBound(d: int, t: int)
    requires t >= 1
    ensures d >= 1 ==> d * t >= t
    ensures d <= -1 ==> d * t <= -t
  {
    if d >= 1 {
      MulMono(1, d, t);
    } else if d <= -1 {
      MulMono(d, -1, t);
    }
  }

  lemma MulMono(x: int, y: int, t: int)
    requires x <= y && t >= 0
    ensures x * t <= y * t
  {
  }

  /** No multiple of t lies between n and PaddedCount(n, t). */
  lemma PaddedCountLeast(n: nat, t: nat, k: nat)
    requires t >= 1
    requires n <= k < PaddedCount(n, t)
    ensures k % t != 0
  {
    var q, m := n / t, n % t;
    assert n == q * t + m;
    DivModUnique(k, t, q, m + (k - n));
  }

  /** The plan calculate_threads_usage returns for n paths and t threads. */
  function PlanFor(n: nat, t: nat): (plan: ThreadPlan)
    requires t >= 1
    ensures plan.paths % t == 0 && n <= plan.paths
    ensures plan.padding == plan.paths - n && plan.padding < t
    ensures plan.threads == t && plan.remainder == 0
    ensures plan.chunkSize * t == plan.paths
  {
    var padded := PaddedCount(n, t);
    assert padded == (padded / t) * t + padded % t;
    ThreadPlan(padded, padded - n, t, padded / t, 0)
  }

  /** Python's s[lo:hi] for non-negative bounds: bounds past the end are clipped. */
  function Slice<T>(s: seq<T>, lo: nat, hi: nat): (r: seq<T>)
    ensures lo <= hi <= |s| ==> r == s[lo..hi]
    ensures lo <= |s| <= hi ==> r == s[lo..]
    ensures |s| <= lo || hi <= lo ==> r == []
  {
    var a := if lo <= |s| then lo else |s|;
    var b := if hi <= |s| then hi else |s|;
    if a <= b then s[a..b] else []
  }

  /** Adjacent slices concatenate to the slice over their union. */
  lemma SliceAdjacent<T>(s: seq<T>, a: nat, b: nat, e: nat)
    requires a <= b <= e
    ensures Slice(s, a, b) + Slice(s, b, e) == Slice(s, a, e)
  {
    if e <= |s| {
      assert s[a..e] == s[a..b] + s[b..e];
    } else if b <= |s| {
      assert s[a..] == s[a..b] + s[b..];
    }
  }

  /** The first n chunks of width c of s, each clipped as Python slices are. */
  function Chunks<T>(s: seq<T>, c: nat, n: nat): (r: seq<seq<T>>)
    ensures |r| == n
  {
    if n == 0 then [] else Chunks(s, c, n - 1) + [Slice(s, (n - 1) * c, n * c)]
  }

  /** Chunk i is the clipped slice from i * c to (i + 1) * c. */
  lemma {:induction false} ChunkAt<T>(s: seq<T>, c: nat, n: nat, i: nat)
    requires i < n
    ensures Chunks(s, c, n)[i] == Slice(s, i * c, (i + 1) * c)
  {
    if i < n - 1 {
      ChunkAt(s, c, n - 1, i);
    }
  }

  /** The concatenation of a sequence of sequences, in order. */
  function Flatten<T>(xs: seq<seq<T>>): (r: seq<T>)
  {
    if xs == [] then [] else Flatten(xs[..|xs| - 1]) + xs[|xs| - 1]
  }

  /** n chunks of width c cover exactly the clipped prefix of length n * c. */
  lemma {:induction false} FlattenChunks<T>(s: seq<T>, c: nat, n: nat)
    ensures Flatten(Chunks(s, c, n)) == Slice(s, 0, n * c)
  {
    if n > 0 {
      var prev := Chunks(s, c, n - 1);
      var m := (n - 1) * c;
      MulSucc(n - 1, c);
      var last := Slice(s, m, n * c);
      assert Chunks(s, c, n) == prev + [last];
      assert (prev + [last])[..n - 1] == prev;
      assert Flatten(prev + [last]) == Flatten(prev) + last;
      FlattenChunks(s, c, n - 1);
      SliceAdjacent(s, 0, m, n * c);
    }
  }

  lemma MulSucc(k: nat, c: nat)
    ensures k * c + c == (k + 1) * c
  {
  }

  /**
    With the plan for |s| paths, concatenating the chunks in order gives back
    s: no path is dropped or repeated, however much padding the plan holds.
   */
  lemma ChunksCoverPaths<T>(s: seq<T>, t: nat)
    requires t >= 1
    ensures var plan := PlanFor(|s|, t);
      Flatten(Chunks(s, plan.chunkSize, plan.threads)) == s
  {
    var plan := PlanFor(|s|, t);
    FlattenChunks(s, plan.chunkSize, plan.threads);
    assert s[0..] == s;
  }

  /** The worked example: seven paths over three threads. */
  lemma SevenPathsThreeThreads()
    ensures PlanFor(7, 3) == ThreadPlan(9, 2, 3, 3, 0)
  {
    assert 7 % 3 == 1;
  }

  /** No paths: nothing is padded and every chunk is empty. */
  lemma NoPaths<T>(s: seq<T>, t: nat)
    requires s == [] && t >= 1
    ensures PlanFor(|s|, t) == ThreadPlan(0, 0, t, 0, 0)
    ensures forall i :: 0 <= i < t ==> Chunks(s, 0, t)[i] == []
  {
  }
}
