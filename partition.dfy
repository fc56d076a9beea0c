/**
 Static block partitioning of the lineitem relation: with
 `chunk_size = (n + num_threads - 1) / num_threads` (ceiling division),
 worker i gets `[i * chunk_size, min(i * chunk_size + chunk_size, n))` and is
 started only when that range is non-empty. The last non-empty range is the
 short one; workers past the end of the data get nothing.
 */
module Partition {

  function Min(a: nat, b: nat): nat
  {
    if a < b then a else b
  }

  /** `chunk_size`. */
  function ChunkSize(n: nat, threads: int): nat
    requires threads >= 1
  {
    (n + threads - 1) / threads
  }

  /** `start` of worker i. */
  function ChunkStart(i: nat, cs: nat): nat
  {
    i * cs
  }

  /** `end` of worker i. */
  function ChunkEnd(i: nat, cs: nat, n: nat): nat
  {
    Min(i * cs + cs, n)
  }

  /** Index j falls in worker i's range. */
  predicate InChunk(i: nat, cs: nat, n: nat, j: nat)
  {
    ChunkStart(i, cs) <= j < ChunkEnd(i, cs, n)
  }

  /** The slice of the data worker i covers, `[start, end)` when non-empty and
      an empty slice at the end of the data otherwise. */
  function ChunkLo(i: nat, cs: nat, n: nat): nat
  {
    Min(i * cs, n)
  }

  lemma MulMonotonic(a: nat, b: nat, c: nat)
    requires a <= b
    ensures a * c <= b * c
  {
  }

  /** `chunk_size` is the ceiling of n / num_threads: the smallest size whose
      num_threads ranges reach n. */
  lemma ChunkSizeIsCeiling(n: nat, threads: int)
    requires threads >= 1
    ensures threads * ChunkSize(n, threads) >= n
    ensures threads * ChunkSize(n, threads) < n + threads
  {
    var q := ChunkSize(n, threads);
    var r := (n + threads - 1) % threads;
    assert n + threads - 1 == q * threads + r;
  }

  /** Every index of the data lies in the range of some worker. */
  lemma ChunksCover(n: nat, threads: int, j: nat)
    requires threads >= 1 && j < n
    ensures exists i :: 0 <= i < threads && InChunk(i, ChunkSize(n, threads), n, j)
  {
    var cs := ChunkSize(n, threads);
    assert cs > 0 by {
      ChunkSizeIsCeiling(n, threads);
    }
    var i := j / cs;
    assert i * cs <= j < i * cs + cs by {
      assert j == i * cs + j % cs;
    }
    assert i < threads by {
      ChunkSizeIsCeiling(n, threads);
      if i >= threads {
        MulMonotonic(threads, i, cs);
      }
    }
    assert InChunk(i, cs, n, j);
  }

  /** No index lies in the ranges of two workers. */
  lemma ChunksDisjoint(cs: nat, n: nat, i1: nat, i2: nat, j: nat)
    requires InChunk(i1, cs, n, j) && InChunk(i2, cs, n, j)
    ensures i1 == i2
  {
    if i1 < i2 {
      assert (i1 + 1) * cs == i1 * cs + cs;
      MulMonotonic(i1 + 1, i2, cs);
    } else if i2 < i1 {
      assert (i2 + 1) * cs == i2 * cs + cs;
      MulMonotonic(i2 + 1, i1, cs);
    }
  }

  /** The non-empty ranges, in worker order, tile [0, n): each slice starts
      where the previous one ends, and the last ends at n. */
  lemma ChunksTile(n: nat, threads: int, i: nat)
    requires threads >= 1 && i < threads
    ensures var cs := ChunkSize(n, threads);
            && ChunkLo(0, cs, n) == 0
            && ChunkEnd(i, cs, n) == ChunkLo(i + 1, cs, n)
            && ChunkLo(threads as nat, cs, n) == n
            && ChunkLo(i, cs, n) <= ChunkEnd(i, cs, n)
            && (ChunkStart(i, cs) < ChunkEnd(i, cs, n) ==> ChunkLo(i, cs, n) == ChunkStart(i, cs))
  {
    var cs := ChunkSize(n, threads);
    ChunkSizeIsCeiling(n, threads);
    assert (i + 1) * cs == i * cs + cs;
  }

  /** Every range holds at most `chunk_size` indices, and exactly that many
      unless it reaches the end of the data. */
  lemma ChunkLengths(cs: nat, n: nat, i: nat)
    requires ChunkStart(i, cs) < ChunkEnd(i, cs, n)
    ensures ChunkEnd(i, cs, n) - ChunkStart(i, cs) <= cs
    ensures ChunkEnd(i, cs, n) < n ==> ChunkEnd(i, cs, n) - ChunkStart(i, cs) == cs
  {
  }
}
