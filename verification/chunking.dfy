/**
 * The chunk arithmetic of `uploadFile` in CreateCourse.js: a file of `size`
 * bytes is cut into 1 MiB pieces; piece k covers [k*C, min(size, k*C + C)).
 */
module Chunking {

  /** `1024 * 1024` bytes. */
  const ChunkSize: nat := 1048576

  /** `Math.ceil(size / chunkSize)`, computed on integers. */
  function TotalChunks(size: nat): (n: nat)
    ensures n * ChunkSize >= size
    ensures n > 0 ==> (n - 1) * ChunkSize < size
    ensures n == 0 <==> size == 0
  {
    (size + ChunkSize - 1) / ChunkSize
  }

  /** First byte of chunk k (`chunkNumber * chunkSize`). */
  function ChunkStart(k: nat): nat {
    k * ChunkSize
  }

  /** One past the last byte of chunk k (`Math.min(file.size, start + chunkSize)`). */
  function ChunkEnd(size: nat, k: nat): nat {
    if size < ChunkStart(k) + ChunkSize then size else ChunkStart(k) + ChunkSize
  }

  /** TotalChunks is the least chunk count whose capacity covers the file, i.e. the ceiling. */
  lemma TotalChunksIsLeast(size: nat, m: nat)
    requires m * ChunkSize >= size
    ensures TotalChunks(size) <= m
  {
    var n := TotalChunks(size);
    if n > 0 {
      assert (n - 1) * ChunkSize < m * ChunkSize;
    }
  }

  /** Every chunk the loop visits is non-empty and at most one chunk size long. */
  lemma ChunkNonEmpty(size: nat, k: nat)
    requires k < TotalChunks(size)
    ensures ChunkStart(k) < ChunkEnd(size, k) <= size
    ensures ChunkEnd(size, k) - ChunkStart(k) <= ChunkSize
    ensures k + 1 < TotalChunks(size) ==> ChunkEnd(size, k) - ChunkStart(k) == ChunkSize
  {
    var n := TotalChunks(size);
    assert k <= n - 1;
    assert k * ChunkSize <= (n - 1) * ChunkSize;
    if k + 1 < n {
      assert (k + 1) * ChunkSize <= (n - 1) * ChunkSize;
    }
  }

  /** Consecutive chunks meet exactly: no gap and no overlap. */
  lemma ChunksAdjacent(size: nat, k: nat)
    requires k + 1 < TotalChunks(size)
    ensures ChunkEnd(size, k) == ChunkStart(k + 1)
  {
    ChunkNonEmpty(size, k);
  }

  /** The first chunk starts at byte 0 and the last one ends at the end of the file. */
  lemma ChunksSpanFile(size: nat)
    requires size > 0
    ensures ChunkStart(0) == 0
    ensures ChunkEnd(size, TotalChunks(size) - 1) == size
  {
  }

  /** Every byte of the file lies in exactly one chunk, the one numbered `offset / ChunkSize`. */
  lemma ChunkOfOffset(size: nat, offset: nat, k: nat)
    requires offset < size
    ensures offset / ChunkSize < TotalChunks(size)
    ensures ChunkStart(offset / ChunkSize) <= offset < ChunkEnd(size, offset / ChunkSize)
    ensures k < TotalChunks(size) && ChunkStart(k) <= offset < ChunkEnd(size, k) ==> k == offset / ChunkSize
  {
    var q := offset / ChunkSize;
    assert q * ChunkSize <= offset < q * ChunkSize + ChunkSize;
    assert q * ChunkSize < TotalChunks(size) * ChunkSize;
    if k < TotalChunks(size) && ChunkStart(k) <= offset < ChunkEnd(size, k) {
      assert k * ChunkSize < (q + 1) * ChunkSize;
      assert q * ChunkSize < (k + 1) * ChunkSize;
    }
  }

  /** The slices `bytes[start..end]` of chunks 0..n-1, joined in order. */
  function Joined<T>(bytes: seq<T>, n: nat): seq<T>
    requires n <= TotalChunks(|bytes|)
  {
    if n == 0 then []
    else
      ChunkNonEmpty(|bytes|, n - 1);
      Joined(bytes, n - 1) + bytes[ChunkStart(n - 1)..ChunkEnd(|bytes|, n - 1)]
  }

  /** The first n slices join up to the file's prefix ending where chunk n-1 ends. */
  lemma {:induction false} JoinedPrefix<T>(bytes: seq<T>, n: nat)
    requires 0 < n <= TotalChunks(|bytes|)
    ensures Joined(bytes, n) == bytes[..ChunkEnd(|bytes|, n - 1)]
  {
    ChunkNonEmpty(|bytes|, n - 1);
    if n == 1 {
      assert Joined(bytes, 0) == [];
    } else {
      JoinedPrefix(bytes, n - 1);
      ChunksAdjacent(|bytes|, n - 2);
      var mid := ChunkEnd(|bytes|, n - 2);
      assert bytes[..mid] + bytes[mid..ChunkEnd(|bytes|, n - 1)] == bytes[..ChunkEnd(|bytes|, n - 1)];
    }
  }

  /** Sending every chunk in order transmits the whole file and nothing else. */
  lemma ChunksRebuildFile<T>(bytes: seq<T>)
    ensures Joined(bytes, TotalChunks(|bytes|)) == bytes
  {
    if |bytes| > 0 {
      JoinedPrefix(bytes, TotalChunks(|bytes|));
      ChunksSpanFile(|bytes|);
    }
  }
}
