/**
 The loops of one goroutine of a download, on the shared file itself: reading a response body
 into place, retrying, and marking the chunk in the state file.
 */
module ChunkFetch {
  import opened Common
  import opened Chunks
  import opened RangeServer
  import opened Downloader

  const BUFFER := 1048576

  datatype FetchError = Cancelled | Request | BadStatus | BadLength | ShortBody | BodyBroken | WriteFailed

  datatype FetchResult = Fetched | Failed(error: FetchError)

  /** Any range inside the file is answered with exactly its bytes. */
  lemma RangeIsServed(content: Bytes, first: nat, last: nat)
    requires first <= last < |content| && |content| <= MAX_INT64
    ensures Serve(content, RangeHeader(first, last))
         == Partial(first, last, |content|, last - first + 1, content[first..last + 1])
  {
    RangeRoundTrip(first, last);
  }

  /** Bytes outside [first, last] are untouched; those inside are old or the source's. */
  twostate predicate WrittenWithin(file: array<Byte>, content: Bytes, first: nat, last: nat)
    requires |content| == file.Length
    reads file
  {
    forall k | 0 <= k < file.Length ::
      file[k] == old(file[k]) || (first <= k <= last && file[k] == content[k])
  }

  /** One read of a response body and the write of what it brought; a failing write stores a part. */
  datatype Read = Read(count: nat, writable: bool, stored: nat, ended: bool, broken: bool)

  /** What one attempt meets; `budget` is how many reads the deadline leaves time for. */
  datatype Net = Net(reachable: bool, overloaded: bool, budget: nat, body: nat -> Read)

  /** Nothing fails, and every read brings something, in time. */
  predicate IsCalm(net: Net, length: nat) {
    && net.reachable && !net.overloaded && net.budget >= length
    && forall i: nat | i < length :: var r := net.body(i); r.count > 0 && r.writable && !r.ended && !r.broken
  }

  /** The loop over the body of the response. */
  method ReceiveBody(content: Bytes, file: array<Byte>, first: nat, last: nat, body: Bytes, net: Net) returns (r: FetchResult)
    requires first <= last < |content| == file.Length && body == content[first..last + 1]
    modifies file
    ensures WrittenWithin(file, content, first, last)
    ensures r.Fetched? ==> file[first..last + 1] == content[first..last + 1]
    ensures IsCalm(net, last + 1 - first) ==> r.Fetched?
  {
    var offset, remaining := first, last - first + 1;
    var i := 0;
    while remaining > 0
      invariant first <= offset <= last + 1 && remaining == last + 1 - offset
      invariant WrittenWithin(file, content, first, last)
      invariant forall k | first <= k < offset :: file[k] == content[k]
      invariant 0 <= i <= net.budget
      invariant IsCalm(net, last + 1 - first) ==> i <= offset - first
      decreases net.budget - i
    {
      if i == net.budget {
        return Failed(Cancelled);
      }
      var read := net.body(i);
      i := i + 1;
      var toRead := if BUFFER > remaining then remaining else BUFFER;
      var n := if read.count < toRead then read.count else toRead;
      var stored := if read.writable || read.stored > n then n else read.stored;
      forall k | 0 <= k < stored {
        file[offset + k] := body[offset - first + k];
      }
      if !read.writable {
        return Failed(WriteFailed);
      }
      offset := offset + n;
      remaining := remaining - n;
      if read.ended && remaining > 0 {
        return Failed(ShortBody);
      }
      if read.broken {
        return Failed(BodyBroken);
      }
    }
    r := Fetched;
  }

  /**
   One attempt. However the body is cut into reads and wherever it breaks off, only source
   bytes of this range are written; success means all of them were, and a calm net is enough.
   */
  method DownloadChunk(content: Bytes, file: array<Byte>, first: nat, last: nat, net: Net) returns (r: FetchResult)
    requires first <= last < |content| == file.Length && |content| <= MAX_INT64
    modifies file
    ensures WrittenWithin(file, content, first, last)
    ensures r.Fetched? ==> file[first..last + 1] == content[first..last + 1]
    ensures IsCalm(net, last + 1 - first) ==> r.Fetched?
  {
    if !net.reachable {
      return Failed(Request);
    }
    RangeIsServed(content, first, last);
    var served := Serve(content, RangeHeader(first, last));
    if net.overloaded || !served.Partial? {
      return Failed(BadStatus);
    }
    var expectedBytes := last - first + 1;
    if served.length != expectedBytes {
      return Failed(BadLength);
    }
    r := ReceiveBody(content, file, first, last, served.body, net);
  }

  /**
   Each attempt starts the range again. It stops early only because it succeeded, the context
   was cancelled (`stopped`) or an error was not worth a retry; so a failure that was means
   MaxRetries + 1 attempts, and one calm attempt in that number is enough.
   */
  method DownloadChunkWithRetry(content: Bytes, file: array<Byte>, first: nat, last: nat, maxRetries: nat,
                                nets: nat -> Net, retryable: nat -> bool, cancelled: nat -> bool)
    returns (r: FetchResult, attempts: nat, stopped: bool)
    requires first <= last < |content| == file.Length && |content| <= MAX_INT64
    modifies file
    ensures WrittenWithin(file, content, first, last)
    ensures r.Fetched? ==> file[first..last + 1] == content[first..last + 1]
    ensures attempts <= maxRetries + 1
    ensures stopped ==> r == Failed(Cancelled) && attempts <= maxRetries && cancelled(attempts)
    ensures r.Failed? && !stopped ==> attempts > 0 && (attempts == maxRetries + 1 || !retryable(attempts - 1))
    ensures forall n: nat | n < attempts :: !cancelled(n)
    ensures forall n: nat | n + 1 < attempts :: retryable(n) && !IsCalm(nets(n), last + 1 - first)
    ensures attempts > 0 && IsCalm(nets(attempts - 1), last + 1 - first) ==> r.Fetched? || stopped
    ensures forall n: nat | n <= maxRetries && IsCalm(nets(n), last + 1 - first)
                            && (forall m: nat | m < n :: retryable(m)) && (forall m: nat | m <= n :: !cancelled(m)) :: r.Fetched?
  {
    attempts, stopped := 0, false;
    r := Failed(Cancelled);
    while attempts <= maxRetries
      invariant attempts <= maxRetries + 1 && r.Failed? && !stopped
      invariant WrittenWithin(file, content, first, last)
      invariant forall n: nat | n < attempts :: !cancelled(n) && retryable(n) && !IsCalm(nets(n), last + 1 - first)
    {
      if cancelled(attempts) {
        return Failed(Cancelled), attempts, true;
      }
      r := DownloadChunk(content, file, first, last, nets(attempts));
      attempts := attempts + 1;
      if r.Fetched? || !retryable(attempts - 1) {
        return;
      }
    }
  }

  datatype LoadResult = Loaded(chunks: seq<Chunk>) | SaveFailed | LoadPanics

  datatype MarkResult = Marked | NotMarked | MarkPanics

  /** The persisted progress of one download. */
  class StateFile {
    var state: Option<seq<Chunk>>

    constructor (state: Option<seq<Chunk>>)
      ensures this.state == state
    {
      this.state := state;
    }

    /**
     A state that cannot be read, or is for another size, is replaced by a fresh plan; building
     that may panic (see `InitChunks`) and saving it may fail.
     */
    method LoadOrInit(expectedSize: int64, chunkSize: int64, readable: bool, saved: bool) returns (r: LoadResult)
      requires 0 <= expectedSize && 0 < chunkSize
      modifies this
      ensures readable && old(state).Some? && TotalSize(old(state).value) == expectedSize as int ==>
                r == Loaded(old(state).value)
      ensures saved && FitsInt64(expectedSize as int, chunkSize as int) ==> r.Loaded?
      ensures r.Loaded? ==> state == Some(r.chunks)
      ensures !r.Loaded? ==> state == old(state)
      ensures r.LoadPanics? ==> !FitsInt64(expectedSize as int, chunkSize as int)
      ensures r.Loaded? && FitsInt64(expectedSize as int, chunkSize as int) ==>
                || (state == old(state) && TotalSize(r.chunks) == expectedSize as int)
                || r.chunks == Plan(expectedSize as nat, chunkSize as nat)
      ensures r.Loaded? && (old(state).None? || TotalSize(old(state).value) != expectedSize as int) ==>
                (IsPlan(r.chunks, expectedSize as nat) <==> FitsInt64(expectedSize as int, chunkSize as int))
    {
      if readable && state.Some? && TotalSize(state.value) == expectedSize as int {
        return Loaded(state.value);
      }
      var plan := InitChunks(expectedSize, chunkSize);
      if plan.None? {
        return LoadPanics;
      }
      if !saved {
        return SaveFailed;
      }
      state := plan;
      r := Loaded(plan.value);
    }

    /**
     Read, set one flag, write a temporary file, rename it: all or nothing. A missing file is
     read as no state, and the access to its chunks panics.
     */
    method MarkChunkComplete(k: int, readable: bool, saved: bool) returns (r: MarkResult)
      modifies this
      ensures r.Marked? <==> readable && saved && old(state).Some? && 0 <= k < |old(state).value|
      ensures r.Marked? ==> old(state).Some? && 0 <= k < |old(state).value| && state == Some(Complete(old(state).value, k))
      ensures !r.Marked? ==> state == old(state)
      ensures r.MarkPanics? ==> old(state).None?
      ensures old(state).Some? ==> state.Some? && |state.value| == |old(state).value|
      ensures old(state).Some? ==>
                forall i | 0 <= i < |state.value| :: old(state).value[i].completed ==> state.value[i].completed
    {
      if !readable {
        return NotMarked;
      }
      if state.None? {
        return MarkPanics;
      }
      if k < 0 || k >= |state.value| || !saved {
        return NotMarked;
      }
      state := Some(state.value[k := state.value[k].(completed := true)]);
      r := Marked;
    }
  }
}
