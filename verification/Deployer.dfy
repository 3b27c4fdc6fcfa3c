/**
 Backup, Apply and Rollback of a config file: copy to a temporary file, sync, rename. The
 disk remembers every state it passes through, so a statement about all new snapshots is a
 statement about a crash between any two file operations.
 */
module Deployer {
  import opened Common

  /** `synced` says that a power loss cannot damage the bytes any more. */
  datatype File = File(bytes: Bytes, synced: bool)

  type Files = map<string, File>

  const BLOCK := 1024 * 1024

  /** The two file systems agree everywhere but at `paths`. */
  ghost predicate SameExcept(a: Files, b: Files, paths: set<string>) {
    forall p | p !in paths :: (p in a <==> p in b) && (p in a ==> a[p] == b[p])
  }

  /** At `path`, `now` has what `was` had. */
  ghost predicate Unchanged(was: Files, now: Files, path: string) {
    (path in now <==> path in was) && (path in was ==> now[path] == was[path])
  }

  /** At `path` there is a complete, synced copy of `content`. */
  ghost predicate Complete(now: Files, path: string, content: Bytes) {
    path in now && now[path] == File(content, true)
  }

  /** Every snapshot taken since `since` satisfies the crash condition for replacing `path` by `content`. */
  ghost predicate AtomicallyReplaces(was: Files, history: seq<Files>, since: nat, path: string, temp: string, content: Bytes) {
    forall k | since <= k < |history| ::
      && SameExcept(was, history[k], {path, temp})
      && (Unchanged(was, history[k], path) || Complete(history[k], path, content))
  }

  datatype StatResult = Exists | NotExist | StatError

  /** The disk counts its operations and knows in advance which of them fail. */
  class Disk {
    const fails: nat -> bool
    var files: Files
    var clock: nat
    ghost var history: seq<Files>

    constructor (files: Files, fails: nat -> bool)
      ensures this.files == files && this.fails == fails && clock == 0 && history == []
    {
      this.files := files;
      this.fails := fails;
      this.clock := 0;
      this.history := [];
    }

    /** None of the operations since `since` failed. */
    predicate IsCalm(since: nat)
      reads this
    {
      forall t | since <= t < clock :: !fails(t)
    }

    /** An operation that does not change a file: making a directory, opening, closing. */
    method Try() returns (ok: bool)
      modifies `clock
      ensures ok == !fails(old(clock)) && clock == old(clock) + 1
    {
      ok := !fails(clock);
      clock := clock + 1;
    }

    /** os.Stat: may fail for reasons other than absence; creating the directories first may fail alike. */
    method Stat(path: string) returns (r: StatResult)
      modifies `clock
      ensures clock == old(clock) + 1
      ensures r == if fails(old(clock)) then StatError else if path in files then Exists else NotExist
    {
      var ok := Try();
      r := if !ok then StatError else if path in files then Exists else NotExist;
    }

    /** Open for writing with O_CREATE and O_TRUNC. */
    method Create(path: string) returns (ok: bool)
      modifies this
      ensures ok == !fails(old(clock)) && clock == old(clock) + 1
      ensures history == old(history) + [files]
      ensures files == if ok then old(files)[path := File([], false)] else old(files)
    {
      ok := Try();
      if ok {
        files := files[path := File([], false)];
      }
      history := history + [files];
    }

    /** Write one block; a failing write may leave part of it. */
    method Append(path: string, block: Bytes) returns (ok: bool)
      requires path in files
      modifies this
      ensures ok == !fails(old(clock)) && clock == old(clock) + 1
      ensures history == old(history) + [files]
      ensures path in files && files == old(files)[path := files[path]]
      ensures ok ==> files[path] == File(old(files)[path].bytes + block, false)
    {
      ok := Try();
      var left: int := *;
      var written := if ok || left < 0 || left > |block| then block else block[..left];
      files := files[path := File(files[path].bytes + written, false)];
      history := history + [files];
    }

    method Sync(path: string) returns (ok: bool)
      modifies this
      ensures ok <==> !fails(old(clock)) && path in old(files)
      ensures clock == old(clock) + 1 && history == old(history) + [files]
      ensures ok ==> files == old(files)[path := old(files)[path].(synced := true)]
      ensures !ok ==> files == old(files)
    {
      ok := Try();
      ok := ok && path in files;
      if ok {
        files := files[path := files[path].(synced := true)];
      }
      history := history + [files];
    }

    /** Replaces `to` atomically. */
    method Rename(from: string, to: string) returns (ok: bool)
      modifies this
      ensures ok <==> !fails(old(clock)) && from in old(files)
      ensures clock == old(clock) + 1 && history == old(history) + [files]
      ensures files == if ok then (old(files) - {from})[to := old(files)[from]] else old(files)
    {
      ok := Try();
      ok := ok && from in files;
      if ok {
        files := (files - {from})[to := files[from]];
      }
      history := history + [files];
    }
  }

  /** Only `path` was touched, at every moment. */
  ghost predicate TouchesOnly(was: Files, history: seq<Files>, since: nat, path: string) {
    forall k | since <= k < |history| :: SameExcept(was, history[k], {path})
  }

  /** The loop of copyFile. A file that is its own copy was emptied before, so nothing is left to do. */
  method CopyBlocks(disk: Disk, source: string, destination: string) returns (ok: bool)
    requires source in disk.files && destination in disk.files && disk.files[destination].bytes == []
    modifies disk
    ensures old(disk.history) <= disk.history
    ensures TouchesOnly(old(disk.files), disk.history, |old(disk.history)|, destination)
    ensures SameExcept(old(disk.files), disk.files, {destination})
    ensures old(disk.clock) <= disk.clock && (ok <==> disk.IsCalm(old(disk.clock)))
    ensures destination in disk.files
    ensures ok && source != destination ==> disk.files[destination].bytes == old(disk.files)[source].bytes
  {
    ok := true;
    var offset := 0;
    while offset < |disk.files[source].bytes|
      invariant old(disk.history) <= disk.history
      invariant TouchesOnly(old(disk.files), disk.history, |old(disk.history)|, destination)
      invariant SameExcept(old(disk.files), disk.files, {destination})
      invariant source in disk.files && destination in disk.files
      invariant source == destination ==> offset == |disk.files[source].bytes|
      invariant 0 <= offset <= |disk.files[source].bytes|
      invariant ok && old(disk.clock) <= disk.clock && disk.IsCalm(old(disk.clock))
      invariant source != destination ==> disk.files[destination].bytes == disk.files[source].bytes[..offset]
      decreases |disk.files[source].bytes| - offset
    {
      var n := if |disk.files[source].bytes| - offset < BLOCK then |disk.files[source].bytes| - offset else BLOCK;
      var block := disk.files[source].bytes[offset..offset + n];
      assert disk.files[source].bytes[..offset] + block == disk.files[source].bytes[..offset + n];
      ok := disk.Append(destination, block);
      if !ok {
        return;
      }
      offset := offset + n;
    }
  }

  /**
   copyFile: block by block into a truncated file, then sync and close. It succeeds exactly when
   there is a source and no operation fails. Copying a file onto itself empties it first, so the
   guarantee about the content is for two different files.
   */
  method CopyFile(disk: Disk, source: string, destination: string) returns (ok: bool)
    modifies disk
    ensures old(disk.history) <= disk.history
    ensures TouchesOnly(old(disk.files), disk.history, |old(disk.history)|, destination)
    ensures SameExcept(old(disk.files), disk.files, {destination})
    ensures ok <==> source in old(disk.files) && disk.IsCalm(old(disk.clock))
    ensures ok ==> destination in disk.files
    ensures old(disk.clock) < disk.clock
    ensures ok && source != destination ==> Complete(disk.files, destination, old(disk.files)[source].bytes)
  {
    var readable := disk.Try();
    if !readable || source !in disk.files {
      return false;
    }
    ok := disk.Create(destination);
    if !ok {
      return;
    }
    ok := CopyBlocks(disk, source, destination);
    if !ok {
      return;
    }
    ok := disk.Sync(destination);
    if !ok {
      return;
    }
    ok := disk.Try();  // close
  }

  /**
   Install a copy of `source` at `destination` by way of `temp`: at every moment the
   destination is what it was or the complete synced copy, and only on success the latter.
   */
  method Install(disk: Disk, source: string, temp: string, destination: string) returns (ok: bool)
    requires temp != destination
    modifies disk
    ensures old(disk.history) <= disk.history
    ensures source in old(disk.files) && source != temp ==>
              AtomicallyReplaces(old(disk.files), disk.history, |old(disk.history)|, destination, temp,
                                 old(disk.files)[source].bytes)
    ensures SameExcept(old(disk.files), disk.files, {destination, temp})
    ensures !ok ==> Unchanged(old(disk.files), disk.files, destination)
    ensures ok <==> source in old(disk.files) && disk.IsCalm(old(disk.clock))
    ensures old(disk.clock) < disk.clock
    ensures ok ==> |old(disk.history)| < |disk.history| && disk.history[|disk.history| - 1] == disk.files
    ensures ok && source != temp ==> Complete(disk.files, destination, old(disk.files)[source].bytes)
  {
    ok := CopyFile(disk, source, temp);
    if !ok {
      return;
    }
    ok := disk.Sync(temp);
    if !ok {
      return;
    }
    ok := disk.Rename(temp, destination);
  }

  method Backup(disk: Disk, target: string, backup: string) returns (created: bool, ok: bool)
    modifies disk
    ensures old(disk.history) <= disk.history
    ensures ok <==> disk.IsCalm(old(disk.clock))
    ensures created <==> ok && target in old(disk.files)
    ensures old(disk.clock) < disk.clock
    ensures ok && !created ==> disk.files == old(disk.files)
    ensures !created ==> Unchanged(old(disk.files), disk.files, backup)
    ensures SameExcept(old(disk.files), disk.files, {backup, backup + ".tmp"})
    ensures target in old(disk.files) && target != backup + ".tmp" ==>
              AtomicallyReplaces(old(disk.files), disk.history, |old(disk.history)|, backup, backup + ".tmp",
                                 old(disk.files)[target].bytes)
    ensures created && target != backup + ".tmp" ==> Complete(disk.files, backup, old(disk.files)[target].bytes)
  {
    var stat := disk.Stat(target);
    if stat.NotExist? {
      return false, true;
    }
    if stat.StatError? {
      return false, false;
    }
    ok := Install(disk, target, backup + ".tmp", backup);
    created := ok;
  }

  method Apply(disk: Disk, staged: string, target: string) returns (ok: bool)
    modifies disk
    ensures old(disk.history) <= disk.history
    ensures SameExcept(old(disk.files), disk.files, {target, target + ".new"})
    ensures !ok ==> Unchanged(old(disk.files), disk.files, target)
    ensures staged in old(disk.files) && staged != target + ".new" ==>
              AtomicallyReplaces(old(disk.files), disk.history, |old(disk.history)|, target, target + ".new",
                                 old(disk.files)[staged].bytes)
    ensures ok <==> staged in old(disk.files) && disk.IsCalm(old(disk.clock))
    ensures old(disk.clock) < disk.clock
    ensures ok ==> |old(disk.history)| < |disk.history| && disk.history[|disk.history| - 1] == disk.files
    ensures ok && staged != target + ".new" ==> Complete(disk.files, target, old(disk.files)[staged].bytes)
  {
    var stat := disk.Stat(staged);
    if !stat.Exists? {
      return false;
    }
    ok := Install(disk, staged, target + ".new", target);
  }

  method Rollback(disk: Disk, backup: string, target: string) returns (ok: bool)
    modifies disk
    ensures old(disk.history) <= disk.history
    ensures SameExcept(old(disk.files), disk.files, {target, target + ".rollback"})
    ensures !ok ==> Unchanged(old(disk.files), disk.files, target)
    ensures backup in old(disk.files) && backup != target + ".rollback" ==>
              AtomicallyReplaces(old(disk.files), disk.history, |old(disk.history)|, target, target + ".rollback",
                                 old(disk.files)[backup].bytes)
    ensures ok <==> backup in old(disk.files) && disk.IsCalm(old(disk.clock))
    ensures old(disk.clock) < disk.clock
    ensures ok && backup != target + ".rollback" ==> Complete(disk.files, target, old(disk.files)[backup].bytes)
  {
    var stat := disk.Stat(backup);
    if !stat.Exists? {
      return false;
    }
    ok := Install(disk, backup, target + ".rollback", target);
  }

  // ---------------------------------------------------------------------------------------
  // An update and its rollback
  // ---------------------------------------------------------------------------------------

  /** The worker's path scheme: staging, backups and service configs live in different directories. */
  predicate ApartFrom(target: string, staged: string, backup: string) {
    var used := {target, target + ".new", target + ".rollback"};
    && staged !in used && backup !in used
    && staged != backup && staged != backup + ".tmp" && backup + ".tmp" !in used
  }

  /** At every moment the target holds the bytes it had or the staged bytes, whole. */
  ghost predicate TargetIsWhole(was: Files, history: seq<Files>, since: nat, target: string, staged: string)
    requires target in was && staged in was
  {
    forall k | since <= k < |history| ::
      target in history[k]
      && (history[k][target].bytes == was[target].bytes || history[k][target].bytes == was[staged].bytes)
  }

  /**
   Backup, Apply, Rollback is the identity on the target, whichever of them stops half way:
   the target keeps one of the two contents at every moment, and has the old one whenever the
   rollback reports success.
   */
  method UpdateThenRollback(disk: Disk, target: string, staged: string, backup: string) returns (restored: bool)
    requires target in disk.files && staged in disk.files && ApartFrom(target, staged, backup)
    modifies disk
    ensures old(disk.history) <= disk.history
    ensures TargetIsWhole(old(disk.files), disk.history, |old(disk.history)|, target, staged)
    ensures restored ==> target in disk.files && disk.files[target].bytes == old(disk.files)[target].bytes
    ensures disk.IsCalm(old(disk.clock)) ==>
              restored && exists k :: |old(disk.history)| <= k < |disk.history|
                                      && Complete(disk.history[k], target, old(disk.files)[staged].bytes)
    ensures SameExcept(old(disk.files), disk.files,
                       {target, target + ".new", target + ".rollback", backup, backup + ".tmp"})
  {
    ghost var was, start := disk.files, |disk.history|;
    var created, ok := Backup(disk, target, backup);
    ReplacementKeepsOthers(was, disk.history, start, backup, backup + ".tmp", was[target].bytes, target, staged);
    if !created {
      return false;
    }
    ghost var saved, afterBackup := disk.files, |disk.history|;
    var _ := Apply(disk, staged, target);
    ReplacementIsWhole(saved, disk.history, afterBackup, target, target + ".new", staged);
    ghost var applied, afterApply := disk.files, |disk.history|;
    assert disk.IsCalm(old(disk.clock)) ==> Complete(disk.history[afterApply - 1], target, was[staged].bytes);
    restored := Rollback(disk, backup, target);
    ReplacementIsWhole(applied, disk.history, afterApply, target, target + ".rollback", backup);
  }

  lemma ReplacementKeepsOthers(was: Files, history: seq<Files>, since: nat, path: string, temp: string,
                               content: Bytes, target: string, staged: string)
    requires target in was && staged in was && target !in {path, temp} && staged !in {path, temp}
    requires AtomicallyReplaces(was, history, since, path, temp, content)
    ensures TargetIsWhole(was, history, since, target, staged)
  {}

  lemma ReplacementIsWhole(was: Files, history: seq<Files>, since: nat, target: string, temp: string, source: string)
    requires target in was && source in was
    requires AtomicallyReplaces(was, history, since, target, temp, was[source].bytes)
    ensures TargetIsWhole(was, history, since, target, source)
  {}

  // ---------------------------------------------------------------------------------------
  // Power loss
  // ---------------------------------------------------------------------------------------

  /** At `path`, `after` has the entry that `files` had; a file that was not synced may hold anything. */
  ghost predicate KeepsEntry(files: Files, after: Files, path: string) {
    (path in files <==> path in after) && (path in files && files[path].synced ==> after[path] == files[path])
  }

  /**
   What a power loss at snapshot `k` may leave. Directories are never synced, so any entry,
   each on its own, may be back at what it was at any earlier moment: a rename may be lost.
   */
  ghost predicate AfterPowerLoss(was: Files, history: seq<Files>, since: nat, k: nat, after: Files)
    requires k < |history|
  {
    forall p: string ::
      KeepsEntry(was, after, p) || exists j :: since <= j <= k && KeepsEntry(history[j], after, p)
  }

  /**
   Because the copy is synced before it is renamed, even a power loss that undoes renames
   leaves old or new bytes at the target.
   */
  lemma SurvivesPowerLoss(was: Files, history: seq<Files>, since: nat, path: string, temp: string, content: Bytes,
                          k: nat, after: Files)
    requires path in was && was[path].synced
    requires AtomicallyReplaces(was, history, since, path, temp, content)
    requires since <= k < |history| && AfterPowerLoss(was, history, since, k, after)
    ensures path in after && (after[path].bytes == was[path].bytes || after[path].bytes == content)
  {
    if !KeepsEntry(was, after, path) {
      var j :| since <= j <= k && KeepsEntry(history[j], after, path);
      assert Unchanged(was, history[j], path) || Complete(history[j], path, content);
    }
  }
}
