/** The chunk plan of a download and the arithmetic behind it. */
module Chunks {
  import opened Common

  /** int64 of the Go source. */
  newtype int64 = x: int | -0x8000_0000_0000_0000 <= x < 0x8000_0000_0000_0000

  const MAX_INT64: int := 0x7FFF_FFFF_FFFF_FFFF

  /** `first` and `last` are inclusive, as in a Range header. */
  datatype Chunk = Chunk(index: nat, first: int, last: int, completed: bool)

  function TotalSize(chunks: seq<Chunk>): int {
    if |chunks| == 0 then 0 else chunks[|chunks| - 1].last + 1
  }

  /** The i-th chunk is not empty and starts where its predecessor ended. */
  predicate Adjoins(chunks: seq<Chunk>, i: nat)
    requires i < |chunks|
  {
    && chunks[i].index == i
    && chunks[i].first == (if i == 0 then 0 else chunks[i - 1].last + 1)
    && chunks[i].first <= chunks[i].last
  }

  /** A gap-free, disjoint, ordered cover of [0, size) by non-empty chunks. */
  predicate IsPlan(chunks: seq<Chunk>, size: nat) {
    TotalSize(chunks) == size && forall i | 0 <= i < |chunks| :: Adjoins(chunks, i)
  }

  /** The i-th chunk for a given size and chunk size. */
  function NthChunk(size: nat, chunkSize: nat, i: nat): Chunk {
    var last := i * chunkSize + chunkSize - 1;
    Chunk(i, i * chunkSize, if last >= size then size - 1 else last, false)
  }

  function ChunkCount(size: nat, chunkSize: nat): nat
    requires chunkSize > 0
  {
    (size + chunkSize - 1) / chunkSize
  }

  function Plan(size: nat, chunkSize: nat): seq<Chunk>
    requires chunkSize > 0
  {
    seq(ChunkCount(size, chunkSize), i requires 0 <= i => NthChunk(size, chunkSize, i))
  }

  /** The number of chunks is the least that covers `size`. */
  lemma ChunkCountIsLeast(size: nat, chunkSize: nat)
    requires chunkSize > 0
    ensures var n := ChunkCount(size, chunkSize);
            size <= n * chunkSize && (n > 0 ==> (n - 1) * chunkSize < size) && (n == 0 <==> size == 0)
  {
    var n := ChunkCount(size, chunkSize);
    var r := (size + chunkSize - 1) % chunkSize;
    assert size + chunkSize - 1 == n * chunkSize + r;
    if n > 0 {
      assert (n - 1) * chunkSize == n * chunkSize - chunkSize;
      MulMonotone(1, n, chunkSize);
    }
  }

  lemma MulMonotone(a: nat, b: nat, c: nat)
    requires a <= b
    ensures a * c <= b * c
  {}

  lemma NthChunkBounds(size: nat, chunkSize: nat, i: nat)
    requires chunkSize > 0 && i < ChunkCount(size, chunkSize)
    ensures var c := NthChunk(size, chunkSize, i);
            && 0 <= c.first <= c.last < size
            && (i + 1 < ChunkCount(size, chunkSize) ==> c.last + 1 == (i + 1) * chunkSize)
            && (i + 1 == ChunkCount(size, chunkSize) ==> c.last + 1 == size)
  {
    var n := ChunkCount(size, chunkSize);
    ChunkCountIsLeast(size, chunkSize);
    MulMonotone(i, n - 1, chunkSize);
    assert (i + 1) * chunkSize == i * chunkSize + chunkSize;
    if i + 1 < n {
      MulMonotone(i + 1, n - 1, chunkSize);
    }
  }

  /** Every size, 0 included, and every positive chunk size give a plan. */
  lemma PlanIsPlan(size: nat, chunkSize: nat)
    requires chunkSize > 0
    ensures IsPlan(Plan(size, chunkSize), size)
    ensures forall i | 0 <= i < |Plan(size, chunkSize)| :: !Plan(size, chunkSize)[i].completed
  {
    var chunks := Plan(size, chunkSize);
    ChunkCountIsLeast(size, chunkSize);
    forall i | 0 <= i < |chunks|
      ensures chunks[i] == NthChunk(size, chunkSize, i)
      ensures Adjoins(chunks, i)
      ensures i == |chunks| - 1 ==> chunks[i].last + 1 == size
    {
      NthChunkBounds(size, chunkSize, i);
      if i > 0 {
        NthChunkBounds(size, chunkSize, i - 1);
      }
    }
  }

  /** Every chunk but the last has exactly the chunk size, the last one at most, and there are no more than needed. */
  lemma PlanSizes(size: nat, chunkSize: nat, i: nat)
    requires chunkSize > 0 && i < |Plan(size, chunkSize)|
    ensures var chunks := Plan(size, chunkSize);
            var length := chunks[i].last + 1 - chunks[i].first;
            && 0 < length <= chunkSize && (i < |chunks| - 1 ==> length == chunkSize)
            && (|chunks| - 1) * chunkSize < size <= |chunks| * chunkSize
  {
    ChunkCountIsLeast(size, chunkSize);
    NthChunkBounds(size, chunkSize, i);
    assert (i + 1) * chunkSize == i * chunkSize + chunkSize;
  }

  /** Distinct chunks of a plan are disjoint and ordered, and lie inside the file. */
  lemma {:induction false} PlanIsOrdered(chunks: seq<Chunk>, size: nat, i: nat, j: nat)
    requires IsPlan(chunks, size) && i < j < |chunks|
    ensures 0 <= chunks[i].first <= chunks[i].last < chunks[j].first <= chunks[j].last < size
    decreases j - i, |chunks| - j
  {
    PlanIsInside(chunks, size, i);
    PlanIsInside(chunks, size, j);
    assert Adjoins(chunks, j);
    if i + 1 < j {
      PlanIsOrdered(chunks, size, i, j - 1);
    }
  }

  lemma {:induction false} PlanStartsNonNegative(chunks: seq<Chunk>, size: nat, i: nat)
    requires IsPlan(chunks, size) && i < |chunks|
    ensures 0 <= chunks[i].first
  {
    assert Adjoins(chunks, i);
    if i > 0 {
      PlanStartsNonNegative(chunks, size, i - 1);
      assert Adjoins(chunks, i - 1);
    }
  }

  lemma {:induction false} PlanIsInside(chunks: seq<Chunk>, size: nat, i: nat)
    requires IsPlan(chunks, size) && i < |chunks|
    ensures 0 <= chunks[i].first <= chunks[i].last < size
    decreases |chunks| - i
  {
    PlanStartsNonNegative(chunks, size, i);
    assert Adjoins(chunks, i);
    if i + 1 < |chunks| {
      PlanIsInside(chunks, size, i + 1);
      assert Adjoins(chunks, i + 1);
    }
  }

  /** Every byte of the file is in exactly one chunk; this finds it among the first `n`. */
  lemma {:induction false} PlanCovers(chunks: seq<Chunk>, size: nat, n: nat, pos: nat) returns (i: nat)
    requires IsPlan(chunks, size) && n <= |chunks| && pos < TotalSize(chunks[..n])
    ensures i < n && chunks[i].first <= pos <= chunks[i].last
  {
    assert Adjoins(chunks, n - 1);
    if chunks[n - 1].first <= pos {
      i := n - 1;
    } else {
      assert chunks[..n - 1][n - 2] == chunks[n - 2];
      i := PlanCovers(chunks, size, n - 1, pos);
    }
  }

  /** Go's division, which rounds towards zero. */
  function TruncatedQuotient(a: int, b: int): int
    requires b > 0
  {
    if a >= 0 then a / b else -(-a / b)
  }

  /** Rounding `size` up to whole chunks stays within int64. */
  predicate FitsInt64(size: int, chunkSize: int) {
    size + chunkSize - 1 <= MAX_INT64
  }

  /**
   The loop that builds the plan, in 64-bit arithmetic; None is a panic. The result is a plan
   exactly when rounding up does not overflow. Beyond that the chunk count wraps around: mostly
   to a negative number, which panics, and for enormous chunks to zero, which plans nothing.
   */
  method InitChunks(expectedSize: int64, chunkSize: int64) returns (r: Option<seq<Chunk>>)
    requires 0 <= expectedSize && 0 < chunkSize
    ensures FitsInt64(expectedSize as int, chunkSize as int) ==> r == Some(Plan(expectedSize as nat, chunkSize as nat))
    ensures r.Some? && IsPlan(r.value, expectedSize as nat) <==> FitsInt64(expectedSize as int, chunkSize as int)
    ensures !FitsInt64(expectedSize as int, chunkSize as int) ==>
              r == if expectedSize as int + 2 * (chunkSize as int) > TWO_64 + 1 then Some([]) else None
  {
    var size, step: nat := expectedSize as nat, chunkSize as nat;
    var chunkCount := TruncatedQuotient(Wrap(size + step - 1), step);
    CountWraps(size, step);
    if chunkCount < 0 {
      return None;
    }
    var chunks := [];
    for i := 0 to chunkCount
      invariant |chunks| == i
      invariant forall k | 0 <= k < |chunks| :: chunks[k] == NthChunk(size, step, k)
    {
      NthChunkFits(size, step, i);
      var start: int64 := i as int64 * chunkSize;
      var end: int64 := start + (chunkSize - 1);
      if end >= expectedSize {
        end := expectedSize - 1;
      }
      chunks := chunks + [Chunk(i, start as int, end as int, false)];
    }
    PlanIsPlan(size, step);
    assert chunkCount > 0 || FitsInt64(size, step) ==> chunks == Plan(size, step);
    r := Some(chunks);
  }

  lemma CountWraps(size: nat, chunkSize: nat)
    requires size <= MAX_INT64 && 0 < chunkSize <= MAX_INT64
    ensures var count := TruncatedQuotient(Wrap(size + chunkSize - 1), chunkSize);
            if FitsInt64(size, chunkSize) then count == ChunkCount(size, chunkSize) <= MAX_INT64
            else count <= 0 && (count == 0 <==> size + 2 * chunkSize > TWO_64 + 1)
  {
    var sum := size + chunkSize - 1;
    if FitsInt64(size, chunkSize) {
      assert Wrap(sum) == sum;
      CountFits(size, chunkSize);
    } else {
      assert Wrap(sum) == sum - TWO_64;
      QuotientIsZeroIff(TWO_64 - sum, chunkSize);
    }
  }

  lemma QuotientIsZeroIff(a: nat, b: nat)
    requires b > 0
    ensures a / b == 0 <==> a < b
  {
    var q: nat := a / b;
    assert a == q * b + a % b;
    if q > 0 {
      MulMonotone(1, q, b);
    } else {
      assert q * b == 0;
    }
  }

  lemma CountFits(size: nat, chunkSize: nat)
    requires chunkSize > 0
    ensures ChunkCount(size, chunkSize) <= size + chunkSize - 1
  {
    var n := ChunkCount(size, chunkSize);
    var r := (size + chunkSize - 1) % chunkSize;
    assert size + chunkSize - 1 == n * chunkSize + r;
    MulMonotone(1, chunkSize, n);
  }

  lemma NthChunkFits(size: nat, chunkSize: nat, i: nat)
    requires chunkSize > 0 && i < ChunkCount(size, chunkSize)
    ensures i <= i * chunkSize < size
    ensures i * chunkSize + chunkSize <= size + chunkSize - 1
  {
    NthChunkBounds(size, chunkSize, i);
    MulMonotone(1, chunkSize, i);
  }

  /** The chunks still to be fetched, in order. */
  function Pending(chunks: seq<Chunk>): seq<nat> {
    PendingFrom(chunks, 0)
  }

  function PendingFrom(chunks: seq<Chunk>, i: nat): seq<nat>
    requires i <= |chunks|
    decreases |chunks| - i
  {
    if i == |chunks| then []
    else (if chunks[i].completed then [] else [i]) + PendingFrom(chunks, i + 1)
  }

  lemma {:induction false} PendingIsExact(chunks: seq<Chunk>, i: nat)
    requires i <= |chunks|
    ensures forall k: nat :: k in PendingFrom(chunks, i) <==> i <= k < |chunks| && !chunks[k].completed
    ensures forall a, b | 0 <= a < b < |PendingFrom(chunks, i)| :: PendingFrom(chunks, i)[a] < PendingFrom(chunks, i)[b]
    decreases |chunks| - i
  {
    if i < |chunks| {
      PendingIsExact(chunks, i + 1);
      var rest := PendingFrom(chunks, i + 1);
      forall b | 0 <= b < |rest|
        ensures rest[b] > i
      {
        assert rest[b] in rest;
      }
    }
  }

  /** The indices of the chunks still to be fetched, in order. */
  method PendingChunks(chunks: seq<Chunk>) returns (pending: seq<nat>)
    ensures pending == Pending(chunks)
    ensures forall k: nat :: k in pending <==> k < |chunks| && !chunks[k].completed
    ensures forall a, b | 0 <= a < b < |pending| :: pending[a] < pending[b]
  {
    pending := [];
    for i := 0 to |chunks|
      invariant pending + PendingFrom(chunks, i) == Pending(chunks)
    {
      if !chunks[i].completed {
        assert pending + ([i] + PendingFrom(chunks, i + 1)) == pending + [i] + PendingFrom(chunks, i + 1);
        pending := pending + [i];
      }
    }
    PendingIsExact(chunks, 0);
  }
}
