/**
 What a download guarantees over every interleaving of its goroutines, every failure and
 retry, and every history of crashes and resumes.
 */
module DownloaderTheorems {
  import opened Common
  import opened Chunks
  import opened Downloader

  // ---------------------------------------------------------------------------------------
  // Invariant
  // ---------------------------------------------------------------------------------------

  /** The chunk's bytes in `part` are the source's. */
  predicate Fetched(part: Option<Bytes>, source: Bytes, c: Chunk) {
    part.Some? && SameOn(part.value, source, c.first, c.last + 1)
  }

  /**
   The crash/resume invariant: a persisted state for this size is a plan, and every chunk it
   marks completed holds the source bytes in the part file.
   */
  predicate DiskOk(d: Disk, source: Bytes) {
    d.state.Some? && TotalSize(d.state.value) == |source| ==>
      && IsPlan(d.state.value, |source|)
      && forall k | 0 <= k < |d.state.value| ::
           d.state.value[k].completed ==> Fetched(d.part, source, d.state.value[k])
  }

  predicate SameRanges(a: seq<Chunk>, b: seq<Chunk>) {
    |a| == |b| && forall k | 0 <= k < |a| :: a[k].first == b[k].first && a[k].last == b[k].last
  }

  /** The chunk a goroutine is responsible for. */
  function Held(g: Goroutine): Option<nat> {
    match g
    case Fetching(k, _, _) => Some(k)
    case Locking(k) => Some(k)
    case Reading(k) => Some(k)
    case Replacing(k, _) => Some(k)
    case _ => None
  }

  predicate HoldsMutex(g: Goroutine) {
    g.Reading? || g.Replacing?
  }

  /** What a goroutine knows at its position. */
  predicate GoroutineOk(plan: seq<Chunk>, state: seq<Chunk>, part: Bytes, source: Bytes, maxRetries: nat, g: Goroutine) {
    && (Held(g).Some? ==> Held(g).value < |plan|)
    && match g
       case Fetching(k, attempt, offset) =>
         plan[k].first <= offset <= plan[k].last + 1 && attempt <= maxRetries
         && SameOn(part, source, plan[k].first, offset)
       case Locking(k) => SameOn(part, source, plan[k].first, plan[k].last + 1)
       case Reading(k) => SameOn(part, source, plan[k].first, plan[k].last + 1)
       case Replacing(k, snapshot) =>
         SameOn(part, source, plan[k].first, plan[k].last + 1) && snapshot == state
       case _ => true
  }

  predicate Distinct(queue: seq<nat>) {
    forall a, b | 0 <= a < b < |queue| :: queue[a] != queue[b]
  }

  /** No chunk is held twice, or held while still queued. */
  predicate Exclusive(queue: seq<nat>, workers: seq<Goroutine>) {
    && Distinct(queue)
    && (forall i, j | 0 <= i < j < |workers| ::
          Held(workers[i]).Some? ==> Held(workers[i]) != Held(workers[j]))
    && (forall i, q | 0 <= i < |workers| && 0 <= q < |queue| :: Held(workers[i]) != Some(queue[q]))
  }

  /** Chunk `k` is done, waiting, or in somebody's hands. */
  predicate Accounted(state: seq<Chunk>, queue: seq<nat>, workers: seq<Goroutine>, k: nat)
    requires k < |state|
  {
    state[k].completed || k in queue || exists i :: 0 <= i < |workers| && Held(workers[i]) == Some(k)
  }

  predicate MutexOk(workers: seq<Goroutine>, mutex: Option<nat>) {
    && (mutex.Some? ==> mutex.value < |workers|)
    && forall i | 0 <= i < |workers| :: HoldsMutex(workers[i]) <==> mutex == Some(i)
  }

  /** errChan holds exactly one error per failed goroutine. */
  predicate ErrorsOk(workers: seq<Goroutine>, errors: set<nat>) {
    && (forall i | i in errors :: i < |workers|)
    && (forall i | 0 <= i < |workers| :: i in errors <==> workers[i] == Exited(true))
  }

  predicate PoolOk(s: Session)
    requires s.phase.Running?
  {
    var Running(plan, queue, workers, mutex, errors) := s.phase;
    && |workers| > 0
    && IsPlan(plan, |s.source|)
    && s.disk.state.Some? && SameRanges(s.disk.state.value, plan)
    && TotalSize(s.disk.state.value) == |s.source|
    && s.disk.part.Some? && |s.disk.part.value| == |s.source|
    && (forall q | 0 <= q < |queue| :: queue[q] < |plan|)
    && (forall i | 0 <= i < |workers| ::
          GoroutineOk(plan, s.disk.state.value, s.disk.part.value, s.source, s.params.maxRetries, workers[i]))
    && Exclusive(queue, workers)
    && MutexOk(workers, mutex)
    && ErrorsOk(workers, errors)
    && (forall i | 0 <= i < |workers| :: workers[i] == Exited(false) ==> queue == [])
  }

  /** Without an error, every chunk is accounted for. */
  predicate AllAccounted(s: Session)
    requires s.phase.Running? && s.disk.state.Some?
  {
    s.phase.errors == {} ==>
      forall k | 0 <= k < |s.disk.state.value| ::
        Accounted(s.disk.state.value, s.phase.queue, s.phase.workers, k)
  }

  predicate RunningOk(s: Session)
    requires s.phase.Running?
  {
    PoolOk(s) && AllAccounted(s)
  }

  predicate PhaseOk(s: Session) {
    match s.phase
    case Stopped(result) => result == Some(true) ==> s.disk.dest == Some(s.source)
    case Loading => s.params.chunkSize > 0 && s.params.concurrency > 0
    case Initialising => s.params.chunkSize > 0 && s.params.concurrency > 0
    case Opening(chunks) => s.params.concurrency > 0 && s.disk.state == Some(chunks) && IsPlan(chunks, |s.source|)
    case Truncating(chunks) =>
      s.params.concurrency > 0 && s.disk.state == Some(chunks) && IsPlan(chunks, |s.source|) && s.disk.part.Some?
    case Running(_, _, _, _, _) => RunningOk(s)
    case Hashing => s.disk.part == Some(s.source)
    case DroppingState => s.disk.part == Some(s.source) && s.sha(s.source) != s.expected && s.expected != ""
    case DroppingPart => s.sha(s.source) != s.expected && s.expected != "" && s.disk.state.None?
    case RemovingState => s.disk.part == Some(s.source)
    case Renaming => s.disk.part == Some(s.source) && s.disk.state.None?
  }

  /** As long as every removal of the state file has succeeded. */
  predicate Inv(s: Session) {
    s.leaked || (DiskOk(s.disk, s.source) && PhaseOk(s))
  }

  // ---------------------------------------------------------------------------------------
  // Facts about contents
  // ---------------------------------------------------------------------------------------

  lemma CopyExtendsAgreement(content: Bytes, source: Bytes, first: nat, offset: nat, n: nat)
    requires |content| == |source| && first <= offset && offset + n <= |source|
    requires SameOn(content, source, first, offset)
    ensures SameOn(CopyAt(content, source, offset, n), source, first, offset + n)
  {}

  /** When every chunk of a plan agrees, the whole file does. */
  lemma AllChunksMakeTheFile(plan: seq<Chunk>, content: Bytes, source: Bytes)
    requires IsPlan(plan, |source|) && |content| == |source|
    requires forall k | 0 <= k < |plan| :: SameOn(content, source, plan[k].first, plan[k].last + 1)
    ensures content == source
  {
    forall pos | 0 <= pos < |source|
      ensures content[pos] == source[pos]
    {
      assert plan[..|plan|] == plan;
      var i := PlanCovers(plan, |source|, |plan|, pos);
    }
  }

  // ---------------------------------------------------------------------------------------
  // Goroutine steps
  // ---------------------------------------------------------------------------------------

  function UpTo(n: nat): set<nat> {
    if n == 0 then {} else UpTo(n - 1) + {n - 1}
  }

  lemma {:induction false} UpToSize(n: nat)
    ensures forall k: nat :: k in UpTo(n) <==> k < n
    ensures |UpTo(n)| == n
  {
    if n > 0 {
      UpToSize(n - 1);
    }
  }

  lemma {:induction false} SubsetSize(a: set<nat>, b: set<nat>)
    requires a <= b
    ensures |a| <= |b|
  {
    if a != {} {
      var x :| x in a;
      SubsetSize(a - {x}, b - {x});
    }
  }

  /** A goroutine that has not failed never blocks on errChan: there is room for every sender. */
  lemma ErrorsNeverBlock(workers: seq<Goroutine>, errors: set<nat>, i: nat)
    requires ErrorsOk(workers, errors) && i < |workers| && workers[i] != Exited(true)
    ensures |errors| < |workers|
  {
    UpToSize(|workers|);
    SubsetSize(errors, UpTo(|workers|) - {i});
  }

  lemma FailKeepsSharing(queue: seq<nat>, workers: seq<Goroutine>, mutex: Option<nat>, errors: set<nat>, i: nat)
    requires i < |workers| && Exclusive(queue, workers) && MutexOk(workers, mutex) && ErrorsOk(workers, errors)
    ensures var after := workers[i := Exited(true)];
            && Exclusive(queue, after)
            && MutexOk(after, if mutex == Some(i) then None else mutex)
            && ErrorsOk(after, errors + {i})
  {}

  lemma FailKeepsPool(s: Session, i: nat)
    requires s.phase.Running? && i < |s.phase.workers| && PoolOk(s) && !s.phase.workers[i].Exited?
    ensures Fail(s, i).phase.Running? && RunningOk(Fail(s, i))
    ensures Fail(s, i).disk == s.disk
  {
    ErrorsNeverBlock(s.phase.workers, s.phase.errors, i);
    FailKeepsSharing(s.phase.queue, s.phase.workers, s.phase.mutex, s.phase.errors, i);
    assert i in Fail(s, i).phase.errors;
  }

  /** A move that keeps the goroutine's chunk. */
  lemma MoveKeepsPool(s: Session, i: nat, g: Goroutine)
    requires s.phase.Running? && i < |s.phase.workers| && RunningOk(s) && !s.phase.workers[i].Exited?
    requires Held(g) == Held(s.phase.workers[i]) && HoldsMutex(g) == HoldsMutex(s.phase.workers[i])
    requires g.Exited? ==> g == Exited(false) && s.phase.queue == []
    requires GoroutineOk(s.phase.plan, s.disk.state.value, s.disk.part.value, s.source, s.params.maxRetries, g)
    ensures RunningOk(Move(s, i, g))
  {
    var before, after := s.phase.workers, Move(s, i, g).phase.workers;
    forall k | 0 <= k < |s.disk.state.value| && s.phase.errors == {}
      ensures Accounted(s.disk.state.value, s.phase.queue, after, k)
    {
      assert Accounted(s.disk.state.value, s.phase.queue, before, k);
      if j :| 0 <= j < |before| && Held(before[j]) == Some(k) {
        assert Held(after[j]) == Some(k);
      }
    }
  }

  /** A read of the body writes source bytes where they belong. */
  lemma WriteKeepsPool(s: Session, g: Goroutine, n: nat)
    requires s.phase.Running? && RunningOk(s) && g.Fetching? && CanFetch(s, g) && g.offset + n <= |s.source|
    ensures RunningOk(Written(s, g, n))
  {
    var t := Written(s, g, n);
    forall i | 0 <= i < |s.phase.workers|
      ensures GoroutineOk(t.phase.plan, t.disk.state.value, t.disk.part.value, t.source, t.params.maxRetries, t.phase.workers[i])
    {
      assert GoroutineOk(s.phase.plan, s.disk.state.value, s.disk.part.value, s.source, s.params.maxRetries, s.phase.workers[i]);
    }
    forall k | 0 <= k < |s.disk.state.value| && s.phase.errors == {}
      ensures Accounted(t.disk.state.value, t.phase.queue, t.phase.workers, k)
    {
      assert Accounted(s.disk.state.value, s.phase.queue, s.phase.workers, k);
    }
  }

  lemma WriteKeepsDisk(d: Disk, source: Bytes, offset: nat, n: nat)
    requires d.part.Some? && |d.part.value| == |source| && offset + n <= |source|
    requires DiskOk(d, source)
    ensures DiskOk(d.(part := Some(CopyAt(d.part.value, source, offset, n))), source)
  {}

  /** Receiving a chunk index removes it from the channel: one goroutine gets it. */
  lemma TakeKeepsPool(s: Session, i: nat)
    requires s.phase.Running? && i < |s.phase.workers| && RunningOk(s)
    requires s.phase.workers[i].Taking? && s.phase.queue != []
    ensures PoolOk(s.(phase := s.phase.(queue := s.phase.queue[1..])))
    ensures var k := s.phase.queue[0];
            k < |s.phase.plan|
            && RunningOk(Move(s.(phase := s.phase.(queue := s.phase.queue[1..])), i, Fetching(k, 0, s.phase.plan[k].first)))
  {
    var queue, before := s.phase.queue, s.phase.workers;
    var after := before[i := Fetching(queue[0], 0, s.phase.plan[queue[0]].first)];
    PlanIsInside(s.phase.plan, |s.source|, queue[0]);
    forall k | 0 <= k < |s.disk.state.value| && s.phase.errors == {}
      ensures Accounted(s.disk.state.value, queue[1..], after, k)
    {
      assert Accounted(s.disk.state.value, queue, before, k);
      if k == queue[0] {
        assert Held(after[i]) == Some(k);
      } else if j :| 0 <= j < |before| && Held(before[j]) == Some(k) {
        assert Held(after[j]) == Some(k);
      }
    }
  }

  lemma LockKeepsPool(s: Session, i: nat)
    requires s.phase.Running? && i < |s.phase.workers| && RunningOk(s)
    requires s.phase.workers[i].Locking? && s.phase.mutex.None?
    ensures RunningOk(GoStep(s, i, Choice(false, 0, NoFailure, true)))
  {
    var before := s.phase.workers;
    var after := before[i := Reading(before[i].chunk)];
    forall k | 0 <= k < |s.disk.state.value| && s.phase.errors == {}
      ensures Accounted(s.disk.state.value, s.phase.queue, after, k)
    {
      assert Accounted(s.disk.state.value, s.phase.queue, before, k);
      if j :| 0 <= j < |before| && Held(before[j]) == Some(k) {
        assert Held(after[j]) == Some(k);
      }
    }
  }

  lemma CompleteKeepsPlan(state: seq<Chunk>, size: nat, k: nat)
    requires IsPlan(state, size) && k < |state|
    ensures IsPlan(Complete(state, k), size) && SameRanges(Complete(state, k), state)
    ensures TotalSize(Complete(state, k)) == size
  {
    var after := Complete(state, k);
    forall i | 0 <= i < |after|
      ensures Adjoins(after, i)
    {
      assert Adjoins(state, i);
    }
  }

  /** The session after goroutine `i` has renamed the new state file and released the mutex. */
  function Replaced(s: Session, i: nat, k: nat): Session
    requires s.phase.Running? && i < |s.phase.workers| && s.disk.state.Some? && k < |s.disk.state.value|
  {
    s.(disk := s.disk.(state := Some(Complete(s.disk.state.value, k))),
       phase := s.phase.(workers := s.phase.workers[i := Taking], mutex := None))
  }

  lemma ReplaceKeepsPool(s: Session, i: nat)
    requires s.phase.Running? && i < |s.phase.workers| && RunningOk(s) && DiskOk(s.disk, s.source)
    requires s.phase.workers[i].Replacing?
    ensures s.phase.workers[i].chunk < |s.disk.state.value|
    ensures RunningOk(Replaced(s, i, s.phase.workers[i].chunk))
  {
    var c, before, state := s.phase.workers[i].chunk, s.phase.workers, s.disk.state.value;
    assert GoroutineOk(s.phase.plan, state, s.disk.part.value, s.source, s.params.maxRetries, before[i]);
    CompleteKeepsPlan(state, |s.source|, c);
    var t := Replaced(s, i, c);
    forall j | 0 <= j < |before|
      ensures GoroutineOk(t.phase.plan, t.disk.state.value, t.disk.part.value, t.source, t.params.maxRetries, t.phase.workers[j])
    {
      assert HoldsMutex(before[j]) ==> j == i;
    }
    forall k | 0 <= k < |state| && s.phase.errors == {}
      ensures Accounted(t.disk.state.value, t.phase.queue, t.phase.workers, k)
    {
      assert Accounted(state, s.phase.queue, before, k);
      if j :| 0 <= j < |before| && Held(before[j]) == Some(k) {
        assert k == c || Held(t.phase.workers[j]) == Some(k);
      }
    }
  }

  lemma ReplaceKeepsDisk(s: Session, i: nat)
    requires s.phase.Running? && i < |s.phase.workers| && RunningOk(s) && DiskOk(s.disk, s.source)
    requires s.phase.workers[i].Replacing? && s.phase.workers[i].chunk < |s.disk.state.value|
    ensures DiskOk(Replaced(s, i, s.phase.workers[i].chunk).disk, s.source)
  {
    var c, state := s.phase.workers[i].chunk, s.disk.state.value;
    assert GoroutineOk(s.phase.plan, state, s.disk.part.value, s.source, s.params.maxRetries, s.phase.workers[i]);
    CompleteKeepsPlan(state, |s.source|, c);
  }

  /** A goroutine about to store `n` more bytes of its chunk. */
  predicate Storing(s: Session, i: nat, n: nat) {
    && s.phase.Running? && i < |s.phase.workers| && RunningOk(s)
    && s.phase.workers[i].Fetching? && CanFetch(s, s.phase.workers[i])
    && s.phase.workers[i].offset + n <= s.phase.plan[s.phase.workers[i].chunk].last + 1
  }

  /** Bytes arrive: the pool stays sound with them in place. */
  lemma StoreKeepsPool(s: Session, i: nat, n: nat)
    requires Storing(s, i, n)
    ensures var g, w := s.phase.workers[i], Written(s, s.phase.workers[i], n);
            && RunningOk(w)
            && s.phase.plan[g.chunk].first <= g.offset
            && SameOn(w.disk.part.value, s.source, s.phase.plan[g.chunk].first, g.offset + n)
  {
    var g := s.phase.workers[i];
    assert GoroutineOk(s.phase.plan, s.disk.state.value, s.disk.part.value, s.source, s.params.maxRetries, g);
    PlanIsInside(s.phase.plan, |s.source|, g.chunk);
    WriteKeepsPool(s, g, n);
    CopyExtendsAgreement(s.disk.part.value, s.source, s.phase.plan[g.chunk].first, g.offset, n);
  }

  lemma GoOnKeepsPool(s: Session, i: nat, n: nat)
    requires Storing(s, i, n)
    ensures var g := s.phase.workers[i];
            RunningOk(Move(Written(s, g, n), i, Fetching(g.chunk, g.attempt, g.offset + n)))
  {
    var g := s.phase.workers[i];
    StoreKeepsPool(s, i, n);
    assert GoroutineOk(s.phase.plan, s.disk.state.value, s.disk.part.value, s.source, s.params.maxRetries, g);
    MoveKeepsPool(Written(s, g, n), i, Fetching(g.chunk, g.attempt, g.offset + n));
  }

  lemma RetryKeepsPool(s: Session, i: nat, n: nat)
    requires Storing(s, i, n) && s.phase.workers[i].attempt < s.params.maxRetries
    ensures var g := s.phase.workers[i];
            RunningOk(Move(Written(s, g, n), i, Fetching(g.chunk, g.attempt + 1, s.phase.plan[g.chunk].first)))
  {
    var g := s.phase.workers[i];
    StoreKeepsPool(s, i, n);
    assert Adjoins(s.phase.plan, g.chunk);
    MoveKeepsPool(Written(s, g, n), i, Fetching(g.chunk, g.attempt + 1, s.phase.plan[g.chunk].first));
  }

  lemma GiveUpKeepsPool(s: Session, i: nat, n: nat)
    requires Storing(s, i, n)
    ensures var w := Written(s, s.phase.workers[i], n);
            Fail(w, i).phase.Running? && RunningOk(Fail(w, i)) && Fail(w, i).disk == w.disk
  {
    StoreKeepsPool(s, i, n);
    FailKeepsPool(Written(s, s.phase.workers[i], n), i);
  }

  /** The three kinds of outcome of a fetch step. */
  lemma FetchStepCases(s: Session, i: nat, c: Choice) returns (n: nat)
    requires s.phase.Running? && i < |s.phase.workers| && s.phase.workers[i].Fetching?
    requires CanFetch(s, s.phase.workers[i])
    ensures var g, t := s.phase.workers[i], FetchStep(s, i, c);
            var chunk := s.phase.plan[g.chunk];
            || (c.cancelled && t == Fail(s, i))
            || (g.offset > chunk.last && t == Move(s, i, Locking(g.chunk)))
            || (g.offset + n <= chunk.last + 1 &&
                var w := Written(s, g, n);
                || t == Move(w, i, Fetching(g.chunk, g.attempt, g.offset + n))
                || (g.attempt < s.params.maxRetries && t == Move(w, i, Fetching(g.chunk, g.attempt + 1, chunk.first)))
                || t == Fail(w, i))
  {
    var g := s.phase.workers[i];
    var left := s.phase.plan[g.chunk].last + 1 - g.offset;
    n := if left <= 0 then 0 else if c.count < left then c.count else left;
  }

  lemma FetchKeepsInv(s: Session, i: nat, c: Choice)
    requires s.phase.Running? && i < |s.phase.workers| && RunningOk(s) && DiskOk(s.disk, s.source)
    requires s.phase.workers[i].Fetching?
    ensures var t := FetchStep(s, i, c); t.phase.Running? && RunningOk(t) && DiskOk(t.disk, t.source)
  {
    var g := s.phase.workers[i];
    assert GoroutineOk(s.phase.plan, s.disk.state.value, s.disk.part.value, s.source, s.params.maxRetries, g);
    PlanIsInside(s.phase.plan, |s.source|, g.chunk);
    var n := FetchStepCases(s, i, c);
    if c.cancelled {
      FailKeepsPool(s, i);
    } else if g.offset > s.phase.plan[g.chunk].last {
      MoveKeepsPool(s, i, Locking(g.chunk));
    } else {
      GoOnKeepsPool(s, i, n);
      if g.attempt < s.params.maxRetries {
        RetryKeepsPool(s, i, n);
      }
      GiveUpKeepsPool(s, i, n);
      WriteKeepsDisk(s.disk, s.source, g.offset, n);
    }
  }

  lemma TakeStepKeepsInv(s: Session, i: nat, c: Choice)
    requires s.phase.Running? && i < |s.phase.workers| && RunningOk(s) && DiskOk(s.disk, s.source)
    requires s.phase.workers[i].Taking?
    ensures var t := GoStep(s, i, c); t.phase.Running? && RunningOk(t) && DiskOk(t.disk, t.source)
  {
    if s.phase.queue == [] {
      MoveKeepsPool(s, i, Exited(false));
    } else {
      TakeKeepsPool(s, i);
      if c.cancelled {
        FailKeepsPool(s.(phase := s.phase.(queue := s.phase.queue[1..])), i);
      }
    }
  }

  lemma GoKeepsInv(s: Session, i: nat, c: Choice)
    requires s.phase.Running? && i < |s.phase.workers| && RunningOk(s) && DiskOk(s.disk, s.source)
    ensures var t := GoStep(s, i, c);
            t.phase.Running? && RunningOk(t) && DiskOk(t.disk, t.source)
  {
    var g := s.phase.workers[i];
    assert GoroutineOk(s.phase.plan, s.disk.state.value, s.disk.part.value, s.source, s.params.maxRetries, g);
    match g
    case Taking => TakeStepKeepsInv(s, i, c);
    case Fetching(_, _, _) => FetchKeepsInv(s, i, c);
    case Locking(_) =>
      if s.phase.mutex.None? {
        LockKeepsPool(s, i);
      }
    case Reading(k) =>
      if c.ok {
        MoveKeepsPool(s, i, Replacing(k, s.disk.state.value));
      } else {
        FailKeepsPool(s, i);
      }
    case Replacing(k, snapshot) =>
      if c.ok {
        ReplaceKeepsPool(s, i);
        ReplaceKeepsDisk(s, i);
      } else {
        FailKeepsPool(s, i);
      }
    case Exited(_) =>
  }

  // ---------------------------------------------------------------------------------------
  // The main thread
  // ---------------------------------------------------------------------------------------

  /** The goroutines start with every pending chunk queued and nobody holding any. */
  lemma PoolStarts(s: Session, chunks: seq<Chunk>)
    requires s.phase == Truncating(chunks) && PhaseOk(s) && DiskOk(s.disk, s.source)
    ensures var t := MainStep(s, true); t.phase.Running? && RunningOk(t) && DiskOk(t.disk, t.source)
  {
    PendingIsExact(chunks, 0);
    var t := MainStep(s, true);
    var part := s.disk.part.value;
    assert |part| == |s.source| ==> Resize(part, |s.source|) == part;
    forall q | 0 <= q < |t.phase.queue|
      ensures t.phase.queue[q] < |chunks|
    {
      assert t.phase.queue[q] in Pending(chunks);
    }
    forall i | 0 <= i < |t.phase.workers|
      ensures GoroutineOk(chunks, chunks, t.disk.part.value, s.source, s.params.maxRetries, t.phase.workers[i])
    {}
    forall k | 0 <= k < |chunks|
      ensures Accounted(t.disk.state.value, t.phase.queue, t.phase.workers, k)
    {}
  }

  /** All goroutines gone without an error: every chunk is marked, and the file is the source. */
  lemma PoolFinishes(s: Session)
    requires s.phase.Running? && RunningOk(s) && DiskOk(s.disk, s.source)
    requires AllExited(s.phase.workers) && s.phase.errors == {}
    ensures forall k | 0 <= k < |s.phase.plan| :: s.disk.state.value[k].completed
    ensures s.disk.part == Some(s.source)
  {
    assert s.phase.workers[0] == Exited(false);
    forall k | 0 <= k < |s.phase.plan|
      ensures s.disk.state.value[k].completed
    {
      assert Accounted(s.disk.state.value, s.phase.queue, s.phase.workers, k);
    }
    AllChunksMakeTheFile(s.disk.state.value, s.disk.part.value, s.source);
  }

  lemma MainKeepsInv(s: Session, ok: bool)
    requires DiskOk(s.disk, s.source) && PhaseOk(s) && !s.leaked
    ensures Inv(MainStep(s, ok))
  {
    match s.phase
    case Initialising =>
      if ok {
        PlanIsPlan(|s.source|, s.params.chunkSize);
      }
    case Truncating(chunks) =>
      if ok {
        PoolStarts(s, chunks);
      }
    case Running(_, _, workers, _, errors) =>
      if AllExited(workers) && errors == {} {
        PoolFinishes(s);
      }
    case _ =>
  }

  lemma FetchKeepsConstants(s: Session, i: nat, c: Choice)
    requires s.phase.Running? && i < |s.phase.workers| && s.phase.workers[i].Fetching?
    ensures var t := FetchStep(s, i, c); SameSetup(s, t) && t.leaked == s.leaked && t.disk.dest == s.disk.dest
  {}

  ghost predicate SameSetup(s: Session, t: Session) {
    t.source == s.source && t.sha == s.sha && t.expected == s.expected
  }

  lemma StepKeepsConstants(s: Session, l: Label)
    ensures SameSetup(s, Step(s, l)) && (s.leaked ==> Step(s, l).leaked)
  {
    if l.Go? && s.phase.Running? && l.worker < |s.phase.workers| && s.phase.workers[l.worker].Fetching? {
      FetchKeepsConstants(s, l.worker, l.choice);
    }
  }

  lemma StepKeepsInv(s: Session, l: Label)
    requires Inv(s)
    ensures Inv(Step(s, l))
  {
    StepKeepsConstants(s, l);
    if !s.leaked {
      match l
      case Main(ok) => MainKeepsInv(s, ok);
      case Go(i, c) =>
        if s.phase.Running? && i < |s.phase.workers| {
          GoKeepsInv(s, i, c);
        }
      case _ =>
    }
  }

  lemma {:induction false} RunKeepsInv(s: Session, ls: seq<Label>)
    requires Inv(s)
    ensures Inv(Run(s, ls)) && SameSetup(s, Run(s, ls)) && (s.leaked ==> Run(s, ls).leaked)
    decreases |ls|
  {
    if ls != [] {
      StepKeepsInv(s, ls[0]);
      StepKeepsConstants(s, ls[0]);
      RunKeepsInv(Step(s, ls[0]), ls[1..]);
    }
  }

  // ---------------------------------------------------------------------------------------
  // Theorems
  // ---------------------------------------------------------------------------------------

  /** Where a history of downloads to one destination begins: any disk that satisfies `DiskOk`. */
  predicate Initial(s: Session) {
    s.phase == Stopped(None) && !s.leaked && DiskOk(s.disk, s.source)
  }

  /**
   Whenever Download returns nil, the destination holds exactly the served bytes: for any
   number of goroutines, any interleaving, any failed or partial attempt, and any number of
   earlier crashes and resumes, with the same parameters or others.
   */
  lemma DownloadIsCorrect(s: Session, ls: seq<Label>)
    requires Initial(s) && !Run(s, ls).leaked && Run(s, ls).phase == Stopped(Some(true))
    ensures Run(s, ls).disk.dest == Some(s.source)
  {
    RunKeepsInv(s, ls);
  }

  /** At every point of every history a crash leaves a disk from which a resume is sound. */
  lemma EveryCrashPointIsResumable(s: Session, ls: seq<Label>)
    requires Initial(s) && !Run(s, ls).leaked
    ensures DiskOk(Step(Run(s, ls), Die).disk, s.source) && Initial(Step(Run(s, ls), Die))
  {
    RunKeepsInv(s, ls);
  }

  lemma StepLeavesDestination(s: Session, l: Label)
    requires Inv(s) && !Step(s, l).leaked
    ensures Step(s, l).disk.dest == s.disk.dest || Step(s, l).disk.dest == Some(s.source)
  {
    if l.Go? && s.phase.Running? && l.worker < |s.phase.workers| && s.phase.workers[l.worker].Fetching? {
      FetchKeepsConstants(s, l.worker, l.choice);
    }
  }

  /** The destination never holds anything but what was there before or the whole file. */
  lemma {:induction false} DestinationIsNeverPartial(s: Session, ls: seq<Label>)
    requires Inv(s) && !Run(s, ls).leaked
    ensures Run(s, ls).disk.dest == s.disk.dest || Run(s, ls).disk.dest == Some(s.source)
    decreases |ls|
  {
    if ls != [] {
      StepKeepsInv(s, ls[0]);
      StepKeepsConstants(s, ls[0]);
      RunKeepsInv(Step(s, ls[0]), ls[1..]);
      StepLeavesDestination(s, ls[0]);
      DestinationIsNeverPartial(Step(s, ls[0]), ls[1..]);
    }
  }

  /** Against the digest of the served file, verification never rejects a download. */
  lemma HonestDigestNeverRejected(s: Session, ls: seq<Label>)
    requires Initial(s) && !Run(s, ls).leaked && s.expected == s.sha(s.source)
    ensures !Run(s, ls).phase.DroppingState? && !Run(s, ls).phase.DroppingPart?
  {
    RunKeepsInv(s, ls);
  }

  /** In every run, goroutines that hold chunks hold different ones, and none that is still queued. */
  lemma ChunksAreHeldOnce(s: Session, ls: seq<Label>, i: nat, j: nat)
    requires Initial(s) && !Run(s, ls).leaked && Run(s, ls).phase.Running?
    requires i < |Run(s, ls).phase.workers| && j < |Run(s, ls).phase.workers|
    requires Held(Run(s, ls).phase.workers[i]).Some?
    ensures Held(Run(s, ls).phase.workers[i]).value !in Run(s, ls).phase.queue
    ensures i != j ==> Held(Run(s, ls).phase.workers[i]) != Held(Run(s, ls).phase.workers[j])
    ensures HoldsMutex(Run(s, ls).phase.workers[i]) && HoldsMutex(Run(s, ls).phase.workers[j]) ==> i == j
  {
    RunKeepsInv(s, ls);
    var t := Run(s, ls);
    assert Exclusive(t.phase.queue, t.phase.workers);
    if i > j {
      assert Held(t.phase.workers[j]).Some? ==> Held(t.phase.workers[j]) != Held(t.phase.workers[i]);
    }
  }

  /** The chunk index that the step receives from the channel. */
  function Received(s: Session, l: Label): Option<nat> {
    if l.Go? && s.phase.Running? && l.worker < |s.phase.workers| && s.phase.workers[l.worker].Taking? && s.phase.queue != []
    then Some(s.phase.queue[0]) else None
  }

  /** How often chunk `k` is received in the course of the schedule. */
  function Takes(s: Session, ls: seq<Label>, k: nat): nat
    decreases |ls|
  {
    if ls == [] then 0
    else (if Received(s, ls[0]) == Some(k) then 1 else 0) + Takes(Step(s, ls[0]), ls[1..], k)
  }

  function Queued(s: Session, k: nat): nat
    requires s.phase.Running?
  {
    if k in s.phase.queue then 1 else 0
  }

  lemma FetchLeavesQueue(s: Session, i: nat, c: Choice)
    requires s.phase.Running? && i < |s.phase.workers| && s.phase.workers[i].Fetching?
    ensures var t := FetchStep(s, i, c); t.phase.Running? && t.phase.queue == s.phase.queue
  {}

  lemma StepConservesQueue(s: Session, i: nat, c: Choice, k: nat)
    requires s.phase.Running? && RunningOk(s)
    ensures var t := Step(s, Go(i, c));
            t.phase.Running?
            && (if Received(s, Go(i, c)) == Some(k) then 1 else 0) + Queued(t, k) == Queued(s, k)
  {
    if i < |s.phase.workers| {
      if s.phase.workers[i].Fetching? {
        FetchLeavesQueue(s, i, c);
      } else if Received(s, Go(i, c)).Some? {
        assert Exclusive(s.phase.queue, s.phase.workers);
        assert s.phase.queue == [s.phase.queue[0]] + s.phase.queue[1..];
      }
    }
  }

  /**
   Over any schedule of the goroutines each queued chunk is received once or still waiting, and
   no other chunk is received at all: one that was completed or failed never comes back.
   */
  lemma {:induction false} ChunksAreTakenOnce(s: Session, ls: seq<Label>, k: nat)
    requires Inv(s) && !s.leaked && s.phase.Running? && forall l | l in ls :: l.Go?
    ensures Run(s, ls).phase.Running?
    ensures Takes(s, ls, k) + Queued(Run(s, ls), k) == Queued(s, k) <= 1
    decreases |ls|
  {
    if ls != [] {
      var i, c := ls[0].worker, ls[0].choice;
      StepConservesQueue(s, i, c, k);
      StepKeepsInv(s, ls[0]);
      if i < |s.phase.workers| {
        GoKeepsLeaked(s, i, c);
      }
      ChunksAreTakenOnce(Step(s, ls[0]), ls[1..], k);
    }
  }

  // ---------------------------------------------------------------------------------------
  // Retries
  // ---------------------------------------------------------------------------------------

  /** The goroutine is still missing bytes, and the connection breaks. */
  predicate BreaksOff(plan: seq<Chunk>, g: Goroutine, c: Choice) {
    g.Fetching? && g.chunk < |plan| && g.offset <= plan[g.chunk].last && c.failure.Retryable?
  }

  /** The chunk whose fetch breaks off in this step with an error worth a retry. */
  function Retried(s: Session, l: Label): Option<nat> {
    if l.Go? && s.phase.Running? && l.worker < |s.phase.workers| && BreaksOff(s.phase.plan, s.phase.workers[l.worker], l.choice)
    then Some(s.phase.workers[l.worker].chunk) else None
  }

  /** How often fetches of chunk `k` break off in the course of the schedule. */
  function Retries(s: Session, ls: seq<Label>, k: nat): nat
    decreases |ls|
  {
    if ls == [] then 0
    else (if Retried(s, ls[0]) == Some(k) then 1 else 0) + Retries(Step(s, ls[0]), ls[1..], k)
  }

  /** While attempts are left, such an error never fails the goroutine: it starts the chunk again. */
  lemma RetryHappens(s: Session, i: nat, c: Choice)
    requires s.phase.Running? && i < |s.phase.workers| && RunningOk(s) && s.phase.workers[i].Fetching?
    requires !c.cancelled && c.failure.Retryable? && s.phase.workers[i].attempt < s.params.maxRetries
    ensures var g, t := s.phase.workers[i], Step(s, Go(i, c));
            t.phase.Running? && t.phase.errors == s.phase.errors
            && (BreaksOff(s.phase.plan, g, c) ==>
                  t.phase.workers == s.phase.workers[i := Fetching(g.chunk, g.attempt + 1, s.phase.plan[g.chunk].first)])
  {
    var g := s.phase.workers[i];
    assert GoroutineOk(s.phase.plan, s.disk.state.value, s.disk.part.value, s.source, s.params.maxRetries, g);
    PlanIsInside(s.phase.plan, |s.source|, g.chunk);
  }

  /** What makes a goroutine give up: cancellation, a permanent error, the last retry, the state file. */
  predicate GivesUp(s: Session, g: Goroutine, c: Choice)
    requires s.phase.Running?
  {
    match g
    case Taking => s.phase.queue != [] && c.cancelled
    case Fetching(k, attempt, offset) =>
      c.cancelled || (k < |s.phase.plan| && offset <= s.phase.plan[k].last
                      && (c.failure.Permanent? || (c.failure.Retryable? && attempt >= s.params.maxRetries)))
    case Locking(_) => false
    case Reading(_) => !c.ok
    case Replacing(_, _) => !c.ok
    case Exited(failed) => failed
  }

  lemma FetchGivesUpIff(s: Session, i: nat, c: Choice)
    requires s.phase.Running? && i < |s.phase.workers| && RunningOk(s) && s.phase.workers[i].Fetching?
    ensures var t := FetchStep(s, i, c);
            t.phase.Running? && (i in t.phase.errors <==> GivesUp(s, s.phase.workers[i], c))
  {
    var g := s.phase.workers[i];
    assert GoroutineOk(s.phase.plan, s.disk.state.value, s.disk.part.value, s.source, s.params.maxRetries, g);
    PlanIsInside(s.phase.plan, |s.source|, g.chunk);
    ErrorsNeverBlock(s.phase.workers, s.phase.errors, i);
  }

  /** A goroutine ends among the errors exactly for these reasons. */
  lemma FailsIff(s: Session, i: nat, c: Choice)
    requires s.phase.Running? && i < |s.phase.workers| && RunningOk(s)
    ensures var t := Step(s, Go(i, c));
            t.phase.Running? && (i in t.phase.errors <==> GivesUp(s, s.phase.workers[i], c))
  {
    var g := s.phase.workers[i];
    assert GoroutineOk(s.phase.plan, s.disk.state.value, s.disk.part.value, s.source, s.params.maxRetries, g);
    if g.Fetching? {
      FetchGivesUpIff(s, i, c);
    } else if g != Exited(true) {
      ErrorsNeverBlock(s.phase.workers, s.phase.errors, i);
    }
  }

  /** No cancellation, no error beyond retry, no failing access to the state file. */
  predicate IsBenign(l: Label) {
    l.Go? && !l.choice.cancelled && !l.choice.failure.Permanent? && l.choice.ok
  }

  /** Under benign steps only a fetch out of attempts puts its goroutine into the errors. */
  lemma BenignFailure(s: Session, i: nat, c: Choice)
    requires s.phase.Running? && i < |s.phase.workers| && RunningOk(s) && s.phase.errors == {}
    requires IsBenign(Go(i, c)) && GoStep(s, i, c).phase.Running? && GoStep(s, i, c).phase.errors != {}
    ensures BreaksOff(s.phase.plan, s.phase.workers[i], c) && s.phase.workers[i].attempt == s.params.maxRetries
  {
    var g := s.phase.workers[i];
    assert GoroutineOk(s.phase.plan, s.disk.state.value, s.disk.part.value, s.source, s.params.maxRetries, g);
    if g.Fetching? {
      PlanIsInside(s.phase.plan, |s.source|, g.chunk);
    }
  }

  /** Chunk `k` has broken off `n` times so far: it is still queued, or its goroutine counts `n`. */
  predicate HasBroken(s: Session, k: nat, n: nat)
    requires s.phase.Running?
  {
    (n == 0 && k in s.phase.queue)
    || exists i :: 0 <= i < |s.phase.workers| && s.phase.workers[i].Fetching?
                   && s.phase.workers[i].chunk == k && s.phase.workers[i].attempt == n
  }

  /** A step counts at most what it broke. */
  lemma BreaksAreCounted(s: Session, i: nat, c: Choice, k: nat, n: nat) returns (m: nat)
    requires s.phase.Running? && i < |s.phase.workers| && RunningOk(s)
    requires var t := GoStep(s, i, c); t.phase.Running? && t.phase.errors == {} && HasBroken(t, k, n)
    ensures HasBroken(s, k, m) && m + (if Retried(s, Go(i, c)) == Some(k) then 1 else 0) >= n
  {
    var t := GoStep(s, i, c);
    var g := s.phase.workers[i];
    assert GoroutineOk(s.phase.plan, s.disk.state.value, s.disk.part.value, s.source, s.params.maxRetries, g);
    if g.Fetching? {
      FetchLeavesQueue(s, i, c);
    }
    if n == 0 && k in t.phase.queue {
      m := 0;
    } else {
      var j :| 0 <= j < |t.phase.workers| && t.phase.workers[j].Fetching?
               && t.phase.workers[j].chunk == k && t.phase.workers[j].attempt == n;
      OnlyOneMoves(s, i, c, j);
      if j != i {
        m := n;
      } else {
        m := BrokenBefore(s, i, c);
      }
    }
  }

  lemma OnlyOneMoves(s: Session, i: nat, c: Choice, j: nat)
    requires s.phase.Running? && i < |s.phase.workers| && GoStep(s, i, c).phase.Running?
    ensures |GoStep(s, i, c).phase.workers| == |s.phase.workers|
    ensures j < |s.phase.workers| && j != i ==> GoStep(s, i, c).phase.workers[j] == s.phase.workers[j]
  {}

  lemma BrokenBefore(s: Session, i: nat, c: Choice) returns (m: nat)
    requires s.phase.Running? && i < |s.phase.workers| && RunningOk(s)
    requires var t := GoStep(s, i, c); t.phase.Running? && i < |t.phase.workers| && t.phase.workers[i].Fetching?
    ensures var g := GoStep(s, i, c).phase.workers[i];
            HasBroken(s, g.chunk, m) && m + (if Retried(s, Go(i, c)) == Some(g.chunk) then 1 else 0) >= g.attempt
  {
    var g := s.phase.workers[i];
    if g.Fetching? {
      FetchCounts(s, i, c);
      m := g.attempt;
      assert HasBroken(s, g.chunk, m);
    } else {
      TakesFromQueue(s, i, c);
      m := 0;
    }
  }

  lemma FetchCounts(s: Session, i: nat, c: Choice)
    requires s.phase.Running? && i < |s.phase.workers| && s.phase.workers[i].Fetching?
    ensures var t := FetchStep(s, i, c);
            t.phase.Running? && |t.phase.workers| == |s.phase.workers|
            && (t.phase.workers[i].Fetching? ==>
                  && t.phase.workers[i].chunk == s.phase.workers[i].chunk
                  && t.phase.workers[i].attempt <= s.phase.workers[i].attempt + if BreaksOff(s.phase.plan, s.phase.workers[i], c) then 1 else 0)
  {}

  lemma TakesFromQueue(s: Session, i: nat, c: Choice)
    requires s.phase.Running? && i < |s.phase.workers| && !s.phase.workers[i].Fetching?
    requires var t := GoStep(s, i, c); t.phase.Running? && i < |t.phase.workers| && t.phase.workers[i].Fetching?
    ensures var g := GoStep(s, i, c).phase.workers[i]; g.chunk in s.phase.queue && g.attempt == 0
  {}

  lemma {:induction false} FailureHasBroken(s: Session, ls: seq<Label>) returns (k: nat, n: nat)
    requires Inv(s) && !s.leaked && s.phase.Running? && s.phase.errors == {}
    requires forall l | l in ls :: IsBenign(l)
    requires Run(s, ls).phase.Running? && Run(s, ls).phase.errors != {}
    ensures HasBroken(s, k, n) && n + Retries(s, ls, k) >= s.params.maxRetries + 1
    decreases |ls|
  {
    assert IsBenign(ls[0]);
    var i, c := ls[0].worker, ls[0].choice;
    if i < |s.phase.workers| {
      var t := Step(s, ls[0]);
      GoKeepsInv(s, i, c);
      GoKeepsLeaked(s, i, c);
      GoKeepsParams(s, i, c);
      if t.phase.errors != {} {
        BenignFailure(s, i, c);
        k, n := s.phase.workers[i].chunk, s.phase.workers[i].attempt;
      } else {
        var later: nat;
        k, later := FailureHasBroken(t, ls[1..]);
        n := BreaksAreCounted(s, i, c, k, later);
      }
    } else {
      k, n := FailureHasBroken(s, ls[1..]);
    }
  }

  lemma GoKeepsParams(s: Session, i: nat, c: Choice)
    requires s.phase.Running? && i < |s.phase.workers|
    ensures GoStep(s, i, c).params == s.params
  {}

  /**
   From the start of the goroutines on, however they interleave: without cancellation, errors
   beyond retry and failing state files, a goroutine fails only when the fetches of some chunk
   have broken off maxRetries + 1 times.
   */
  lemma FailureNeedsAllRetries(s: Session, ls: seq<Label>) returns (k: nat)
    requires Inv(s) && !s.leaked && s.phase.Running?
    requires forall i | 0 <= i < |s.phase.workers| :: s.phase.workers[i].Taking?
    requires forall l | l in ls :: IsBenign(l)
    requires Run(s, ls).phase.Running? && Run(s, ls).phase.errors != {}
    ensures k in s.phase.queue && Retries(s, ls, k) >= s.params.maxRetries + 1
  {
    NoErrorsYet(s.phase.workers, s.phase.errors);
    var n: nat;
    k, n := FailureHasBroken(s, ls);
  }

  lemma NoErrorsYet(workers: seq<Goroutine>, errors: set<nat>)
    requires ErrorsOk(workers, errors) && forall i | 0 <= i < |workers| :: workers[i].Taking?
    ensures errors == {}
  {
    assert forall i | i in errors :: i < |workers| && workers[i] == Exited(true);
  }

  lemma RunOne(s: Session, l: Label, ls: seq<Label>)
    ensures Run(s, [l] + ls) == Run(Step(s, l), ls)
  {
    assert ([l] + ls)[1..] == ls;
  }

  lemma {:induction false} RunAppend(s: Session, xs: seq<Label>, ys: seq<Label>)
    ensures Run(s, xs + ys) == Run(Run(s, xs), ys)
    decreases |xs|
  {
    if xs == [] {
      assert xs + ys == ys;
    } else {
      assert (xs + ys)[1..] == xs[1..] + ys;
      RunAppend(Step(s, xs[0]), xs[1..], ys);
    }
  }

  // ---------------------------------------------------------------------------------------
  // Completion
  // ---------------------------------------------------------------------------------------

  /** Everything arrives at once and nothing fails. */
  function Smooth(s: Session): Choice {
    Choice(false, |s.source|, NoFailure, true)
  }

  /** What a goroutine has to do before its next chunk. */
  function Weight(plan: seq<Chunk>, g: Goroutine): nat {
    match g
    case Taking => 1
    case Fetching(k, _, offset) => if k < |plan| && offset <= plan[k].last then 6 else 5
    case Locking(_) => 4
    case Reading(_) => 3
    case Replacing(_, _) => 2
    case Exited(_) => 0
  }

  function TotalWeight(plan: seq<Chunk>, workers: seq<Goroutine>): nat {
    if workers == [] then 0 else TotalWeight(plan, workers[..|workers| - 1]) + Weight(plan, workers[|workers| - 1])
  }

  lemma {:induction false} WeightMoves(plan: seq<Chunk>, workers: seq<Goroutine>, i: nat, g: Goroutine)
    requires i < |workers|
    ensures TotalWeight(plan, workers[i := g]) == TotalWeight(plan, workers) - Weight(plan, workers[i]) + Weight(plan, g)
    decreases |workers|
  {
    var last := |workers| - 1;
    if i < last {
      WeightMoves(plan, workers[..last], i, g);
      assert workers[i := g][..last] == workers[..last][i := g];
    } else {
      assert workers[i := g][..last] == workers[..last];
    }
  }

  function LeftToDo(s: Session): nat
    requires s.phase.Running?
  {
    7 * |s.phase.queue| + TotalWeight(s.phase.plan, s.phase.workers)
  }

  /** Somebody can always move: the holder of the mutex, or anybody if nobody holds it. */
  predicate CanMove(s: Session, i: nat)
    requires s.phase.Running?
  {
    i < |s.phase.workers| && !s.phase.workers[i].Exited? && (s.phase.mutex.None? || s.phase.mutex == Some(i))
  }

  lemma SomebodyCanMove(s: Session) returns (i: nat)
    requires s.phase.Running? && RunningOk(s) && !AllExited(s.phase.workers)
    ensures CanMove(s, i)
  {
    if s.phase.mutex.Some? {
      i := s.phase.mutex.value;
      assert HoldsMutex(s.phase.workers[i]);
    } else {
      i :| 0 <= i < |s.phase.workers| && !s.phase.workers[i].Exited?;
    }
  }

  lemma SmoothFetch(s: Session, i: nat)
    requires s.phase.Running? && i < |s.phase.workers| && RunningOk(s) && s.phase.workers[i].Fetching?
    ensures var t, g := FetchStep(s, i, Smooth(s)), s.phase.workers[i];
            && t.phase.Running? && t.phase.queue == s.phase.queue && t.phase.errors == s.phase.errors && t.phase.plan == s.phase.plan
            && g.chunk < |s.phase.plan|
            && t.phase.workers == s.phase.workers[i := if g.offset <= s.phase.plan[g.chunk].last
                                                       then Fetching(g.chunk, g.attempt, s.phase.plan[g.chunk].last + 1)
                                                       else Locking(g.chunk)]
  {
    var g := s.phase.workers[i];
    assert GoroutineOk(s.phase.plan, s.disk.state.value, s.disk.part.value, s.source, s.params.maxRetries, g);
    PlanIsInside(s.phase.plan, |s.source|, g.chunk);
  }

  /** What one smooth step of a goroutine that can move does to the pool. */
  lemma SmoothStep(s: Session, i: nat) returns (g: Goroutine)
    requires s.phase.Running? && RunningOk(s) && CanMove(s, i)
    ensures var t := GoStep(s, i, Smooth(s));
            && t.phase.Running? && t.phase.errors == s.phase.errors && t.phase.plan == s.phase.plan
            && t.phase.workers == s.phase.workers[i := g]
            && (t.phase.queue == s.phase.queue || (s.phase.queue != [] && t.phase.queue == s.phase.queue[1..] && g.Fetching?))
            && (t.phase.queue == s.phase.queue ==> Weight(s.phase.plan, g) < Weight(s.phase.plan, s.phase.workers[i]))
  {
    var h := s.phase.workers[i];
    assert GoroutineOk(s.phase.plan, s.disk.state.value, s.disk.part.value, s.source, s.params.maxRetries, h);
    g := GoStep(s, i, Smooth(s)).phase.workers[i];
    if h.Fetching? {
      SmoothFetch(s, i);
    } else if h.Locking? {
      assert !HoldsMutex(h);
    }
  }

  lemma SmoothStepDoesWork(s: Session, i: nat)
    requires s.phase.Running? && RunningOk(s) && CanMove(s, i)
    ensures var t := GoStep(s, i, Smooth(s));
            t.phase.Running? && t.phase.errors == s.phase.errors && LeftToDo(t) < LeftToDo(s)
  {
    var g := SmoothStep(s, i);
    WeightMoves(s.phase.plan, s.phase.workers, i, g);
  }

  /** The goroutines can always be brought to their end without an error, from wherever they are. */
  lemma {:induction false} PoolCanFinish(s: Session) returns (ls: seq<Label>)
    requires Inv(s) && !s.leaked && s.phase.Running?
    ensures var t := Run(s, ls);
            Inv(t) && !t.leaked && SameSetup(s, t) && t.phase.Running? && AllExited(t.phase.workers) && t.phase.errors == s.phase.errors
    decreases LeftToDo(s)
  {
    if AllExited(s.phase.workers) {
      ls := [];
    } else {
      var i := SomebodyCanMove(s);
      var l := Go(i, Smooth(s));
      SmoothStepDoesWork(s, i);
      GoKeepsInv(s, i, Smooth(s));
      GoKeepsLeaked(s, i, Smooth(s));
      StepKeepsConstants(s, l);
      var rest := PoolCanFinish(Step(s, l));
      ls := [l] + rest;
      RunOne(s, l, rest);
    }
  }

  /** The main thread takes the verified file to its place. */
  lemma MainCanFinish(s: Session) returns (ls: seq<Label>)
    requires Inv(s) && !s.leaked && s.phase.Running? && AllExited(s.phase.workers) && s.phase.errors == {}
    requires s.expected == "" || s.sha(s.source) == s.expected
    ensures Run(s, ls).phase == Stopped(Some(true)) && Run(s, ls).disk.dest == Some(s.source)
  {
    PoolFinishes(s);
    var m := Main(true);
    var s1, s2, s3 := s.(phase := Hashing), s.(phase := RemovingState), s.(disk := s.disk.(state := None), phase := Renaming);
    var s4 := Step(s3, m);
    ls := [m] + ([m] + ([m] + ([m] + [])));
    RunOne(s, m, [m] + ([m] + ([m] + [])));
    RunOne(s1, m, [m] + ([m] + []));
    RunOne(s2, m, [m] + []);
    RunOne(s3, m, []);
    assert Run(s4, []) == s4;
  }

  /** A download that starts comes to its goroutines, none of which has done anything yet. */
  lemma PoolCanStart(s: Session, params: Params) returns (ls: seq<Label>)
    requires Initial(s) && params.chunkSize > 0 && params.concurrency > 0
    ensures var t := Run(s, ls);
            Inv(t) && !t.leaked && SameSetup(s, t) && t.phase.Running? && t.phase.errors == {}
            && |t.phase.workers| == params.concurrency && t.params == params
            && (forall i | 0 <= i < |t.phase.workers| :: t.phase.workers[i].Taking?)
  {
    var m := Main(true);
    var s1 := Step(s, Start(params));
    var s2 := Step(s1, m);
    StepKeepsInv(s, Start(params));
    StepKeepsInv(s1, m);
    var rest := [m] + ([m] + []);
    var s3 := if s2.phase.Initialising? then Step(s2, m) else s2;
    StepKeepsInv(s2, m);
    StepKeepsInv(s3, m);
    StepKeepsInv(Step(s3, m), m);
    RunOne(Step(s3, m), m, []);
    RunOne(s3, m, [m] + []);
    if s2.phase.Initialising? {
      RunOne(s2, m, rest);
      rest := [m] + rest;
    }
    ls := [Start(params)] + ([m] + rest);
    RunOne(s1, m, rest);
    RunOne(s, Start(params), [m] + rest);
  }

  /**
   From any disk that crashes and earlier downloads may have left, with any parameters, there is
   a run in which Download returns nil and the destination is the served file.
   */
  lemma DownloadCanSucceed(s: Session, params: Params) returns (ls: seq<Label>)
    requires Initial(s) && params.chunkSize > 0 && params.concurrency > 0
    requires s.expected == "" || s.sha(s.source) == s.expected
    ensures Run(s, ls).phase == Stopped(Some(true)) && Run(s, ls).disk.dest == Some(s.source)
  {
    var starting := PoolCanStart(s, params);
    var started := Run(s, starting);
    var fetching := PoolCanFinish(started);
    var fetched := Run(started, fetching);
    var finishing := MainCanFinish(fetched);
    ls := starting + (fetching + finishing);
    RunAppend(s, starting, fetching + finishing);
    RunAppend(started, fetching, finishing);
  }

  /** A resume keeps the progress it finds: exactly the chunks not marked are queued, and no byte of them is lost. */
  lemma ResumeQueuesOnlyPending(s: Session, params: Params)
    requires s.phase.Stopped? && params.chunkSize > 0 && params.concurrency > 0
    requires s.disk.state.Some? && TotalSize(s.disk.state.value) == |s.source|
    ensures var t := Step(Step(Step(Step(s, Start(params)), Main(true)), Main(true)), Main(true));
            && t.phase.Running? && t.disk.state == s.disk.state && t.phase.plan == s.disk.state.value
            && (forall k: nat :: k in t.phase.queue <==> k < |t.phase.plan| && !t.phase.plan[k].completed)
            && t.disk.part.Some? && |t.disk.part.value| == |s.source|
            && (s.disk.part.Some? ==>
                  forall k | 0 <= k < |s.source| && k < |s.disk.part.value| :: t.disk.part.value[k] == s.disk.part.value[k])
  {
    PendingIsExact(s.disk.state.value, 0);
  }

  /** After a digest mismatch nothing is left to resume from, and the destination is as it was. */
  lemma MismatchStartsOver(s: Session)
    requires s.phase.Hashing? && s.disk.part.Some? && s.expected != "" && s.sha(s.disk.part.value) != s.expected
    ensures var t := Step(Step(Step(s, Main(true)), Main(true)), Main(true));
            t.phase == Stopped(Some(false)) && t.disk == Disk(None, None, s.disk.dest)
  {}

  /** No goroutine of any run is ever stuck sending its error. */
  lemma NoSenderBlocks(s: Session, ls: seq<Label>, i: nat)
    requires Initial(s) && !Run(s, ls).leaked && Run(s, ls).phase.Running?
    requires i < |Run(s, ls).phase.workers| && !Run(s, ls).phase.workers[i].Exited?
    ensures |Run(s, ls).phase.errors| < |Run(s, ls).phase.workers|
    ensures Fail(Run(s, ls), i).phase.workers[i] == Exited(true)
  {
    RunKeepsInv(s, ls);
    ErrorsNeverBlock(Run(s, ls).phase.workers, Run(s, ls).phase.errors, i);
  }

  lemma GoKeepsFlag(s: Session, i: nat, c: Choice, k: nat)
    requires s.phase.Running? && i < |s.phase.workers| && RunningOk(s)
    requires k < |s.disk.state.value| && s.disk.state.value[k].completed
    ensures var t := GoStep(s, i, c);
            t.disk.state.Some? && k < |t.disk.state.value| && t.disk.state.value[k].completed
  {
    var g := s.phase.workers[i];
    assert GoroutineOk(s.phase.plan, s.disk.state.value, s.disk.part.value, s.source, s.params.maxRetries, g);
    if g.Fetching? {
      FetchKeepsState(s, i, c);
    }
  }

  /** However the goroutines interleave their read-modify-writes of the state file, no flag is lost. */
  lemma {:induction false} FlagsAreNeverLost(s: Session, ls: seq<Label>, k: nat)
    requires Inv(s) && !s.leaked && s.phase.Running? && forall l | l in ls :: l.Go?
    requires k < |s.disk.state.value| && s.disk.state.value[k].completed
    ensures var t := Run(s, ls);
            t.disk.state.Some? && k < |t.disk.state.value| && t.disk.state.value[k].completed
    decreases |ls|
  {
    if ls != [] {
      var i, c := ls[0].worker, ls[0].choice;
      StepKeepsInv(s, ls[0]);
      if i < |s.phase.workers| {
        GoKeepsFlag(s, i, c, k);
        GoKeepsInv(s, i, c);
        GoKeepsLeaked(s, i, c);
      }
      FlagsAreNeverLost(Step(s, ls[0]), ls[1..], k);
    }
  }

  lemma GoKeepsLeaked(s: Session, i: nat, c: Choice)
    requires s.phase.Running? && i < |s.phase.workers|
    ensures GoStep(s, i, c).leaked == s.leaked
  {
    if s.phase.workers[i].Fetching? {
      FetchKeepsConstants(s, i, c);
    }
  }

  lemma FetchKeepsState(s: Session, i: nat, c: Choice)
    requires s.phase.Running? && i < |s.phase.workers| && s.phase.workers[i].Fetching?
    ensures FetchStep(s, i, c).disk.state == s.disk.state
  {}

  // ---------------------------------------------------------------------------------------
  // The digest, and why the state file must go first
  // ---------------------------------------------------------------------------------------

  predicate Verified(s: Session, content: Option<Bytes>) {
    content.Some? && (s.expected == "" || s.sha(content.value) == s.expected)
  }

  predicate DigestOk(s: Session) {
    && (s.phase == Stopped(Some(true)) ==> Verified(s, s.disk.dest))
    && (s.phase.RemovingState? || s.phase.Renaming? ==> Verified(s, s.disk.part))
  }

  lemma StepKeepsDigest(s: Session, l: Label)
    requires DigestOk(s)
    ensures DigestOk(Step(s, l))
  {
    if l.Go? && s.phase.Running? && l.worker < |s.phase.workers| {
      GoNeverFinishes(s, l.worker, l.choice);
    }
  }

  lemma GoNeverFinishes(s: Session, i: nat, c: Choice)
    requires s.phase.Running? && i < |s.phase.workers|
    ensures var t := GoStep(s, i, c); t.phase.Running? || t.phase == Stopped(None)
  {}

  /** Even when removals fail, a successful download has the expected digest. */
  lemma {:induction false} SuccessIsVerified(s: Session, ls: seq<Label>)
    requires DigestOk(s)
    ensures Run(s, ls).phase == Stopped(Some(true)) ==> Verified(Run(s, ls), Run(s, ls).disk.dest)
    decreases |ls|
  {
    if ls != [] {
      StepKeepsDigest(s, ls[0]);
      SuccessIsVerified(Step(s, ls[0]), ls[1..]);
    }
  }

  /**
   Finalisation keeps the crash/resume invariant exactly when the state file is really
   removed before the part file is renamed away, or there is nothing to download.
   */
  lemma FinalisationIff(s: Session, removed: bool)
    requires s.phase.RemovingState? && s.disk.part == Some(s.source)
    requires s.disk.state.Some? && IsPlan(s.disk.state.value, |s.source|)
    requires forall k | 0 <= k < |s.disk.state.value| :: s.disk.state.value[k].completed
    ensures var t := Step(Step(s, Main(removed)), Main(true));
            && t.phase == Stopped(Some(true)) && t.disk.dest == Some(s.source)
            && (DiskOk(t.disk, s.source) <==> removed || s.source == [])
  {
    var t := Step(Step(s, Main(removed)), Main(true));
    if |s.disk.state.value| > 0 {
      PlanIsInside(s.disk.state.value, |s.source|, 0);
    }
    if s.source != [] && !removed {
      assert t.disk.state.value[0].completed && t.disk.part.None?;
      assert !Fetched(t.disk.part, s.source, t.disk.state.value[0]);
    }
  }

  /** One goroutine and no failure: what a resume does when every chunk is marked completed. */
  const RESUME: seq<Label> := [
    Start(Params(1, 1, 0)), Main(true), Main(true), Main(true), Go(0, Choice(false, 0, NoFailure, true)),
    Main(true), Main(true), Main(true), Main(true)]

  lemma {:induction false} NothingPending(chunks: seq<Chunk>, i: nat)
    requires i <= |chunks| && forall k | 0 <= k < |chunks| :: chunks[k].completed
    ensures PendingFrom(chunks, i) == []
    decreases |chunks| - i
  {
    if i < |chunks| {
      NothingPending(chunks, i + 1);
    }
  }

  /** What the part file becomes when it is opened and truncated to the expected size. */
  function Preallocated(s: Session): Bytes {
    Resize(if s.disk.part.Some? then s.disk.part.value else [], |s.source|)
  }

  /** Nothing is pending: the download will deliver `content` whatever its goroutines do. */
  predicate Delivers(s: Session, content: Bytes) {
    match s.phase
    case Opening(chunks) => Pending(chunks) == [] && Preallocated(s) == content
    case Truncating(chunks) => Pending(chunks) == [] && s.disk.part.Some? && Preallocated(s) == content
    case Running(_, queue, workers, _, errors) =>
      && queue == [] && errors == {} && s.disk.part == Some(content)
      && forall i | 0 <= i < |workers| :: workers[i].Taking? || workers[i] == Exited(false)
    case Hashing => s.disk.part == Some(content)
    case RemovingState => s.disk.part == Some(content)
    case Renaming => s.disk.part == Some(content)
    case DroppingState => true
    case DroppingPart => true
    case Stopped(result) => result == Some(true) ==> s.disk.dest == Some(content)
    case _ => false
  }

  lemma StepKeepsDelivers(s: Session, l: Label, content: Bytes)
    requires Delivers(s, content) && (l.Main? || l.Go?)
    ensures Delivers(Step(s, l), content)
  {}

  lemma {:induction false} RunKeepsDelivers(s: Session, ls: seq<Label>, content: Bytes)
    requires Delivers(s, content) && forall l | l in ls :: l.Main? || l.Go?
    ensures Delivers(Run(s, ls), content)
    decreases |ls|
  {
    if ls != [] {
      StepKeepsDelivers(s, ls[0], content);
      RunKeepsDelivers(Step(s, ls[0]), ls[1..], content);
    }
  }

  /**
   A download that starts from a state file with every chunk marked, such as one that survived
   its removal: whenever it returns nil the destination is the part file as it was found,
   padded with zeros or cut, so it is right exactly when that file already was.
   */
  lemma LeftoverIsRightIff(s: Session, ls: seq<Label>)
    requires s.phase.Opening? && forall k | 0 <= k < |s.phase.chunks| :: s.phase.chunks[k].completed
    requires (forall l | l in ls :: l.Main? || l.Go?) && Run(s, ls).phase == Stopped(Some(true))
    ensures Run(s, ls).disk.dest == Some(Preallocated(s))
    ensures Run(s, ls).disk.dest == Some(s.source) <==> Preallocated(s) == s.source
    ensures s.disk.part.None? ==> Preallocated(s) == Zeros(|s.source|)
  {
    NothingPending(s.phase.chunks, 0);
    RunKeepsDelivers(s, ls, Preallocated(s));
  }

  /**
   It does return nil when there is no digest to check against: the state file that survived
   its removal poisons the next download to the same place.
   */
  lemma LeftoverStateYieldsZeros(s: Session)
    requires s.phase.Stopped? && s.expected == ""
    requires s.disk.state.Some? && TotalSize(s.disk.state.value) == |s.source|
    requires forall k | 0 <= k < |s.disk.state.value| :: s.disk.state.value[k].completed
    ensures Run(s, RESUME).phase == Stopped(Some(true))
    ensures Run(s, RESUME).disk.dest == Some(Preallocated(s))
    ensures s.disk.part.None? ==> Preallocated(s) == Zeros(|s.source|)
  {
    var chunks := s.disk.state.value;
    NothingPending(chunks, 0);
    RunFirst(s, chunks);
    var part := if s.disk.part.Some? then s.disk.part else Some([]);
    RunMiddle(s.(disk := s.disk.(part := part), phase := Truncating(chunks), params := Params(1, 1, 0)), chunks);
  }

  lemma RunFirst(s: Session, chunks: seq<Chunk>)
    requires s.phase.Stopped? && s.disk.state == Some(chunks) && TotalSize(chunks) == |s.source|
    ensures var part := if s.disk.part.Some? then s.disk.part else Some([]);
            Run(s, RESUME) == Run(s.(disk := s.disk.(part := part), phase := Truncating(chunks), params := Params(1, 1, 0)),
                                  RESUME[3..])
  {
    var s1 := s.(phase := Loading, params := Params(1, 1, 0));
    assert RESUME == [RESUME[0]] + RESUME[1..];
    RunOne(s, RESUME[0], RESUME[1..]);
    RunOne(s1, RESUME[1], RESUME[2..]);
    RunOne(s1.(phase := Opening(chunks)), RESUME[2], RESUME[3..]);
  }

  lemma RunMiddle(s3: Session, chunks: seq<Chunk>)
    requires s3.phase == Truncating(chunks) && s3.expected == "" && s3.params == Params(1, 1, 0)
    requires s3.disk.part.Some? && Pending(chunks) == []
    ensures Run(s3, RESUME[3..]).phase == Stopped(Some(true))
    ensures Run(s3, RESUME[3..]).disk.dest == Some(Preallocated(s3))
  {
    var s, content := s3, Preallocated(s3);
    RunOne(s3, RESUME[3], RESUME[4..]);
    assert seq(1, _ => Taking) == [Taking];
    var s4 := s3.(disk := s.disk.(part := Some(content)), phase := Running(chunks, [], [Taking], None, {}));
    assert Step(s3, RESUME[3]) == s4;
    RunOne(s4, RESUME[4], RESUME[5..]);
    var s5 := s4.(phase := Running(chunks, [], [Exited(false)], None, {}));
    assert Step(s4, RESUME[4]) == s5;
    RunLast(s5, content);
  }

  lemma RunLast(s: Session, content: Bytes)
    requires s.phase.Running? && s.phase.workers == [Exited(false)] && s.phase.errors == {}
    requires s.disk.part == Some(content) && s.expected == ""
    ensures Run(s, RESUME[5..]).phase == Stopped(Some(true)) && Run(s, RESUME[5..]).disk.dest == Some(content)
  {
    RunOne(s, RESUME[5], RESUME[6..]);
    var s1 := s.(phase := Hashing);
    assert Step(s, RESUME[5]) == s1;
    RunOne(s1, RESUME[6], RESUME[7..]);
    var s2 := s1.(phase := RemovingState);
    assert Step(s1, RESUME[6]) == s2;
    RunOne(s2, RESUME[7], RESUME[8..]);
    var s3 := Step(s2, RESUME[7]);
    assert RESUME[8..] == [RESUME[8]] + [];
    RunOne(s3, RESUME[8], []);
    assert Run(Step(s3, RESUME[8]), []) == Step(s3, RESUME[8]);
  }

  // ---------------------------------------------------------------------------------------
  // The poisoned session occurs
  // ---------------------------------------------------------------------------------------

  const FINE := Choice(false, 0, NoFailure, true)

  /** From nothing to one goroutine that has taken the only chunk. */
  function Prepare(size: nat): seq<Label> {
    [Start(Params(size, 1, 0)), Main(true), Main(true), Main(true), Main(true), Go(0, FINE)]
  }

  /** It fetches the chunk at once, marks it, and finds nothing else to do. */
  function FetchAll(size: nat): seq<Label> {
    [Go(0, FINE.(count := size)), Go(0, FINE), Go(0, FINE), Go(0, FINE), Go(0, FINE), Go(0, FINE)]
  }

  /** The end of the download; the state file cannot be removed. */
  const FINISH_LEAKING: seq<Label> := [Main(true), Main(true), Main(false), Main(true)]

  /** No file yet, nothing running, no digest to check. */
  predicate IsFresh(s: Session) {
    s.source != [] && s.expected == "" && s.disk == Disk(None, None, None) && s.phase == Stopped(None) && !s.leaked
  }

  lemma WholePlan(size: nat)
    requires size > 0
    ensures Plan(size, size) == [Chunk(0, 0, size - 1, false)]
  {
    ChunkCountIsLeast(size, size);
    var n := ChunkCount(size, size);
    if n > 1 {
      MulMonotone(1, n - 1, size);
    }
  }

  lemma Run6(s: Session, a: Label, b: Label, c: Label, d: Label, e: Label, f: Label)
    ensures Run(s, [a, b, c, d, e, f]) == Step(Step(Step(Step(Step(Step(s, a), b), c), d), e), f)
  {
    assert [a, b, c, d, e, f] == [a] + ([b] + ([c] + ([d] + ([e] + ([f] + [])))));
    RunOne(s, a, [b] + ([c] + ([d] + ([e] + ([f] + [])))));
    RunOne(Step(s, a), b, [c] + ([d] + ([e] + ([f] + []))));
    RunOne(Step(Step(s, a), b), c, [d] + ([e] + ([f] + [])));
    RunOne(Step(Step(Step(s, a), b), c), d, [e] + ([f] + []));
    RunOne(Step(Step(Step(Step(s, a), b), c), d), e, [f] + []);
    RunOne(Step(Step(Step(Step(Step(s, a), b), c), d), e), f, []);
  }

  lemma Prepared(s: Session)
    requires IsFresh(s)
    ensures var n, plan := |s.source|, [Chunk(0, 0, |s.source| - 1, false)];
            Run(s, Prepare(n)) == s.(disk := Disk(Some(plan), Some(Zeros(n)), None), params := Params(n, 1, 0),
                                     phase := Running(plan, [], [Fetching(0, 0, 0)], None, {}))
  {
    var n, plan := |s.source|, [Chunk(0, 0, |s.source| - 1, false)];
    WholePlan(n);
    Run6(s, Start(Params(n, 1, 0)), Main(true), Main(true), Main(true), Main(true), Go(0, FINE));
    var s1 := s.(phase := Initialising, params := Params(n, 1, 0));
    assert Step(Step(s, Start(Params(n, 1, 0))), Main(true)) == s1;
    var s2 := s1.(disk := Disk(Some(plan), Some([]), None), phase := Truncating(plan));
    assert Step(Step(s1, Main(true)), Main(true)) == s2;
    assert Pending(plan) == [0] by {
      assert PendingFrom(plan, 1) == [];
    }
    assert Resize([], n) == Zeros(n) && seq(1, _ => Taking) == [Taking];
    var s3 := s2.(disk := Disk(Some(plan), Some(Zeros(n)), None), phase := Running(plan, [0], [Taking], None, {}));
    assert Step(s2, Main(true)) == s3;
    assert [0][1..] == [] && [Taking][0 := Fetching(0, 0, 0)] == [Fetching(0, 0, 0)];
  }

  lemma Alone(g: Goroutine, next: Goroutine)
    ensures [g][0 := next] == [next]
  {}

  /** The response body arrives whole. */
  lemma Arrives(s: Session, plan: seq<Chunk>)
    requires s.source != [] && plan == [Chunk(0, 0, |s.source| - 1, false)] && s.disk.part == Some(Zeros(|s.source|))
    requires s.phase == Running(plan, [], [Fetching(0, 0, 0)], None, {})
    ensures Step(Step(s, Go(0, FINE.(count := |s.source|))), Go(0, FINE))
         == s.(disk := s.disk.(part := Some(s.source)), phase := Running(plan, [], [Locking(0)], None, {}))
  {
    var n := |s.source|;
    assert CopyAt(Zeros(n), s.source, 0, n) == s.source;
    Alone(Fetching(0, 0, 0), Fetching(0, 0, n));
    Alone(Fetching(0, 0, n), Locking(0));
    var s1 := s.(disk := s.disk.(part := Some(s.source)), phase := Running(plan, [], [Fetching(0, 0, n)], None, {}));
    assert Step(s, Go(0, FINE.(count := n))) == s1;
  }

  /** The chunk is marked under the mutex. */
  lemma GetsMarked(s: Session, plan: seq<Chunk>)
    requires |plan| == 1 && s.disk.state == Some(plan) && s.phase == Running(plan, [], [Locking(0)], None, {})
    ensures Step(Step(Step(Step(s, Go(0, FINE)), Go(0, FINE)), Go(0, FINE)), Go(0, FINE))
         == s.(disk := s.disk.(state := Some([plan[0].(completed := true)])),
               phase := Running(plan, [], [Exited(false)], None, {}))
  {
    Alone(Locking(0), Reading(0));
    Alone(Reading(0), Replacing(0, plan));
    Alone(Replacing(0, plan), Taking);
    Alone(Taking, Exited(false));
    var s1 := s.(phase := Running(plan, [], [Reading(0)], Some(0), {}));
    assert Step(s, Go(0, FINE)) == s1;
    var s2 := s.(phase := Running(plan, [], [Replacing(0, plan)], Some(0), {}));
    assert Step(s1, Go(0, FINE)) == s2;
    assert Complete(plan, 0) == [plan[0].(completed := true)];
    var s3 := s.(disk := s.disk.(state := Some([plan[0].(completed := true)])),
                 phase := Running(plan, [], [Taking], None, {}));
    assert Step(s2, Go(0, FINE)) == s3;
  }

  lemma FetchedAll(s: Session, plan: seq<Chunk>)
    requires s.source != [] && plan == [Chunk(0, 0, |s.source| - 1, false)]
    requires s.disk == Disk(Some(plan), Some(Zeros(|s.source|)), None)
    requires s.phase == Running(plan, [], [Fetching(0, 0, 0)], None, {})
    ensures Run(s, FetchAll(|s.source|))
         == s.(disk := Disk(Some([plan[0].(completed := true)]), Some(s.source), None),
               phase := Running(plan, [], [Exited(false)], None, {}))
  {
    Run6(s, Go(0, FINE.(count := |s.source|)), Go(0, FINE), Go(0, FINE), Go(0, FINE), Go(0, FINE), Go(0, FINE));
    Arrives(s, plan);
    GetsMarked(Step(Step(s, Go(0, FINE.(count := |s.source|))), Go(0, FINE)), plan);
  }

  lemma FinishedLeaking(s: Session, plan: seq<Chunk>)
    requires s.phase == Running(plan, [], [Exited(false)], None, {}) && s.disk.part == Some(s.source) && s.expected == ""
    ensures Run(s, FINISH_LEAKING)
         == s.(disk := s.disk.(dest := Some(s.source), part := None), phase := Stopped(Some(true)), leaked := true)
  {
    assert FINISH_LEAKING == [Main(true)] + ([Main(true)] + ([Main(false)] + ([Main(true)] + [])));
    var s1 := s.(phase := Hashing);
    RunOne(s, Main(true), [Main(true)] + ([Main(false)] + ([Main(true)] + [])));
    assert Step(s, Main(true)) == s1;
    RunOne(s1, Main(true), [Main(false)] + ([Main(true)] + []));
    RunOne(s1.(phase := RemovingState), Main(false), [Main(true)] + []);
    RunOne(s1.(phase := Renaming, leaked := true), Main(true), []);
  }

  /** The first download: right, but its state file is still there. */
  lemma FirstDownload(s: Session) returns (first: Session)
    requires IsFresh(s)
    ensures first == Run(s, Prepare(|s.source|) + FetchAll(|s.source|) + FINISH_LEAKING)
    ensures first.phase == Stopped(Some(true)) && first.source == s.source && first.expected == ""
    ensures first.disk == Disk(Some([Chunk(0, 0, |s.source| - 1, true)]), None, Some(s.source))
  {
    var n := |s.source|;
    var plan := [Chunk(0, 0, n - 1, false)];
    RunAppend(s, Prepare(n) + FetchAll(n), FINISH_LEAKING);
    RunAppend(s, Prepare(n), FetchAll(n));
    Prepared(s);
    var prepared := Run(s, Prepare(n));
    FetchedAll(prepared, plan);
    FinishedLeaking(Run(prepared, FetchAll(n)), plan);
    first := Run(Run(prepared, FetchAll(n)), FINISH_LEAKING);
  }

  /**
   It happens, from an empty directory and for every non-empty file: a first download delivers
   the file but fails to remove its state, and the next one, checked against no digest, reports
   success and replaces the file by zeros. It does no harm exactly to files of zeros.
   */
  lemma FailedRemovalPoisons(s: Session)
    requires IsFresh(s)
    ensures var n := |s.source|;
            var first := Run(s, Prepare(n) + FetchAll(n) + FINISH_LEAKING);
            var second := Run(first, RESUME);
            && first.phase == Stopped(Some(true)) && first.disk.dest == Some(s.source) && first.disk.state.Some?
            && second.phase == Stopped(Some(true)) && second.disk.dest == Some(Zeros(n))
            && (second.disk.dest == Some(s.source) <==> forall k | 0 <= k < n :: s.source[k] == 0)
  {
    var n := |s.source|;
    var first := FirstDownload(s);
    LeftoverStateYieldsZeros(first);
    if forall k | 0 <= k < n :: s.source[k] == 0 {
      assert Zeros(n) == s.source;
    }
  }
}
