/**
 The resumable parallel download as a state machine: the main thread of Download, its
 goroutines on the shared part file, the state file behind its mutex, and process crashes at
 any point followed by a fresh start with any parameters.

 As in the protocol, labels carry the environment's decisions and `Step` is total.
 */
module Downloader {
  import opened Common
  import opened Chunks

  /** dest.state.json, dest.part and dest. An unreadable state file is treated as absent. */
  datatype Disk = Disk(state: Option<seq<Chunk>>, part: Option<Bytes>, dest: Option<Bytes>)

  datatype Goroutine =
    | Taking                                             // at the head of the range loop
    | Fetching(chunk: nat, attempt: nat, offset: int)    // reading the body of a range response
    | Locking(chunk: nat)                                // waiting for stateMu
    | Reading(chunk: nat)                                // holds stateMu, reads the state file
    | Replacing(chunk: nat, snapshot: seq<Chunk>)        // holds stateMu, renames the new state file
    | Exited(failed: bool)                               // a failed one has sent on errChan

  datatype Phase =
    | Stopped(result: Option<bool>)   // None: no run yet, or the process died
    | Loading
    | Initialising
    | Opening(chunks: seq<Chunk>)
    | Truncating(chunks: seq<Chunk>)
    | Running(plan: seq<Chunk>, queue: seq<nat>, workers: seq<Goroutine>, mutex: Option<nat>, errors: set<nat>)
    | Hashing
    | DroppingState | DroppingPart    // digest mismatch
    | RemovingState | Renaming        // success

  datatype Params = Params(chunkSize: nat, concurrency: nat, maxRetries: nat)

  /** `leaked` is history: a removal of the state file failed once. */
  datatype Session = Session(
    source: Bytes, sha: Hash, expected: string,
    disk: Disk, phase: Phase, params: Params, leaked: bool)

  datatype Failure = NoFailure | Retryable | Permanent

  /** What the environment decides in one goroutine step. */
  datatype Choice = Choice(cancelled: bool, count: nat, failure: Failure, ok: bool)

  datatype Label =
    | Start(params: Params)
    | Main(ok: bool)
    | Go(worker: nat, choice: Choice)
    | Die

  // ---------------------------------------------------------------------------------------
  // Files
  // ---------------------------------------------------------------------------------------

  function Zeros(n: nat): Bytes {
    seq(n, _ => 0)
  }

  function Resize(content: Bytes, n: nat): Bytes {
    if n <= |content| then content[..n] else content + Zeros(n - |content|)
  }

  /** Overwrite the bytes of `content` at `offset` with those of `source` at the same place. */
  function CopyAt(content: Bytes, source: Bytes, offset: nat, n: nat): Bytes
    requires |content| == |source| && offset + n <= |source|
  {
    content[..offset] + source[offset..offset + n] + content[offset + n..]
  }

  predicate SameOn(a: Bytes, b: Bytes, first: int, end: int) {
    |a| == |b| && forall k | first <= k < end && 0 <= k < |a| :: a[k] == b[k]
  }

  function Complete(chunks: seq<Chunk>, k: nat): seq<Chunk>
    requires k < |chunks|
  {
    chunks[k := chunks[k].(completed := true)]
  }

  // ---------------------------------------------------------------------------------------
  // Goroutines
  // ---------------------------------------------------------------------------------------

  /** Send on errChan, whose capacity is the number of goroutines, and return. */
  function Fail(s: Session, i: nat): Session
    requires s.phase.Running? && i < |s.phase.workers|
  {
    var ph := s.phase;
    if |ph.errors| >= |ph.workers| then s  // blocked
    else
      s.(phase := ph.(workers := ph.workers[i := Exited(true)], errors := ph.errors + {i},
                      mutex := if ph.mutex == Some(i) then None else ph.mutex))
  }

  function Move(s: Session, i: nat, g: Goroutine): Session
    requires s.phase.Running? && i < |s.phase.workers|
  {
    s.(phase := s.phase.(workers := s.phase.workers[i := g]))
  }

  /** The part file has the expected size and the request lies inside it. */
  predicate CanFetch(s: Session, g: Goroutine)
    requires s.phase.Running? && g.Fetching?
  {
    && s.disk.part.Some? && |s.disk.part.value| == |s.source|
    && g.chunk < |s.phase.plan| && 0 <= g.offset && s.phase.plan[g.chunk].last < |s.source|
  }

  /** The session after `n` bytes of the body of goroutine `g`'s response were written. */
  function Written(s: Session, g: Goroutine, n: nat): Session
    requires s.phase.Running? && g.Fetching? && CanFetch(s, g) && g.offset + n <= |s.source|
  {
    s.(disk := s.disk.(part := Some(CopyAt(s.disk.part.value, s.source, g.offset, n))))
  }

  /** One read of the response body and the write of what it delivered. */
  function FetchStep(s: Session, i: nat, c: Choice): Session
    requires s.phase.Running? && i < |s.phase.workers| && s.phase.workers[i].Fetching?
  {
    var g := s.phase.workers[i];
    if c.cancelled || !CanFetch(s, g) then Fail(s, i)
    else
      var chunk := s.phase.plan[g.chunk];
      if g.offset > chunk.last then Move(s, i, Locking(g.chunk))
      else
        var left := chunk.last + 1 - g.offset;
        var n := if c.count < left then c.count else left;
        var written := Written(s, g, n);
        match c.failure
        case NoFailure => Move(written, i, Fetching(g.chunk, g.attempt, g.offset + n))
        case Retryable =>
          if g.attempt < s.params.maxRetries
          then Move(written, i, Fetching(g.chunk, g.attempt + 1, chunk.first))
          else Fail(written, i)
        case Permanent => Fail(written, i)
  }

  function GoStep(s: Session, i: nat, c: Choice): Session
    requires s.phase.Running? && i < |s.phase.workers|
  {
    var ph := s.phase;
    match ph.workers[i]
    case Taking =>
      if ph.queue == [] then Move(s, i, Exited(false))
      else
        var k := ph.queue[0];
        var taken := s.(phase := ph.(queue := ph.queue[1..]));
        if c.cancelled || k >= |ph.plan| then Fail(taken, i)
        else Move(taken, i, Fetching(k, 0, ph.plan[k].first))
    case Fetching(_, _, _) => FetchStep(s, i, c)
    case Locking(k) =>
      if ph.mutex.Some? then s  // blocked
      else s.(phase := ph.(workers := ph.workers[i := Reading(k)], mutex := Some(i)))
    case Reading(k) =>
      if s.disk.state.None? then s.(phase := Stopped(None))  // nil dereference: the process dies
      else if !c.ok || k >= |s.disk.state.value| then Fail(s, i)
      else Move(s, i, Replacing(k, s.disk.state.value))
    case Replacing(k, snapshot) =>
      if !c.ok || k >= |snapshot| then Fail(s, i)
      else
        s.(disk := s.disk.(state := Some(Complete(snapshot, k))),
           phase := ph.(workers := ph.workers[i := Taking], mutex := None))
    case Exited(_) => s
  }

  // ---------------------------------------------------------------------------------------
  // The main thread
  // ---------------------------------------------------------------------------------------

  function Stop(s: Session, ok: bool): Session {
    s.(phase := Stopped(Some(ok)))
  }

  predicate AllExited(workers: seq<Goroutine>) {
    forall i | 0 <= i < |workers| :: workers[i].Exited?
  }

  function MainStep(s: Session, ok: bool): Session {
    var d := s.disk;
    match s.phase
    case Stopped(_) => s
    case Loading =>
      // a state file that cannot be read, or that is for another size, is replaced
      if ok && d.state.Some? && TotalSize(d.state.value) == |s.source|
      then s.(phase := Opening(d.state.value)) else s.(phase := Initialising)
    case Initialising =>
      if !ok || s.params.chunkSize == 0 then Stop(s, false)
      else
        var plan := Plan(|s.source|, s.params.chunkSize);
        s.(disk := d.(state := Some(plan)), phase := Opening(plan))
    case Opening(chunks) =>
      if !ok then Stop(s, false)
      else s.(disk := d.(part := if d.part.None? then Some([]) else d.part), phase := Truncating(chunks))
    case Truncating(chunks) =>
      if !ok || d.part.None? then Stop(s, false)
      else
        s.(disk := d.(part := Some(Resize(d.part.value, |s.source|))),
           phase := Running(chunks, Pending(chunks), seq(s.params.concurrency, _ => Taking), None, {}))
    case Running(_, _, workers, _, errors) =>
      if !AllExited(workers) then s  // wg.Wait
      else if errors != {} then Stop(s, false) else s.(phase := Hashing)
    case Hashing =>
      if !ok || d.part.None? then Stop(s, false)
      else if s.expected != "" && s.sha(d.part.value) != s.expected then s.(phase := DroppingState)
      else s.(phase := RemovingState)
    case DroppingState =>
      s.(disk := if ok then d.(state := None) else d, leaked := s.leaked || !ok, phase := DroppingPart)
    case DroppingPart => Stop(s.(disk := if ok then d.(part := None) else d), false)
    case RemovingState =>
      s.(disk := if ok then d.(state := None) else d, leaked := s.leaked || !ok, phase := Renaming)
    case Renaming =>
      if !ok || d.part.None? then Stop(s, false)
      else Stop(s.(disk := d.(dest := d.part, part := None)), true)
  }

  function Step(s: Session, l: Label): Session {
    match l
    case Start(params) =>
      // NewDownloader replaces values that are not positive by defaults
      if s.phase.Stopped? && params.chunkSize > 0 && params.concurrency > 0
      then s.(phase := Loading, params := params) else s
    case Main(ok) => MainStep(s, ok)
    case Go(i, c) => if s.phase.Running? && i < |s.phase.workers| then GoStep(s, i, c) else s
    case Die => s.(phase := Stopped(None))
  }

  function Run(s: Session, ls: seq<Label>): Session
    decreases |ls|
  {
    if ls == [] then s else Run(Step(s, ls[0]), ls[1..])
  }
}
