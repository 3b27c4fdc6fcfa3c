/**
 Where the parts meet: the protocol's database write is the guarded UPDATE, its file steps are
 those of the deployer on a disk, crashes included, and with the downloader behind its download
 step a reported success means the uploaded bytes themselves.
 */
module Composition {
  import opened Common
  import opened Operations
  import opened Protocol
  import opened ProtocolInvariant
  import opened ProtocolTheorems
  import Deployer
  import Downloader
  import DownloaderTheorems

  // ---------------------------------------------------------------------------------------
  // The database
  // ---------------------------------------------------------------------------------------

  /** Without a database error the protocol's write is the UPDATE on the row, with the same report. */
  lemma WriteIsTheUpdate(rows: map<string, Row>, id: string, next: Status, now: int, c: Choice)
    requires id in rows && !c.dbError && (c.moved <==> now != rows[id].updatedAt)
    ensures var written, after := Write(rows[id].status, next, c), AdvanceRows(rows, id, next, now);
            && after[id].status == written.status
            && (written.reported <==> after != rows)
  {
    var after := AdvanceRows(rows, id, next, now);
    assert after[id] == rows[id] ==> after == rows;
  }

  /** The table holds the statuses of the protocol's operations. */
  predicate TableMirrors(rows: map<string, Row>, ops: map<OpId, Operation>) {
    rows.Keys == ops.Keys && forall id | id in rows :: rows[id].status == ops[id].status
  }

  /** The environment's part of a database call that does not fail. */
  function Answer(rows: map<string, Row>, id: string, now: int): Choice {
    Choice(false, false, id in rows && now != rows[id].updatedAt, true, true, [], "")
  }

  lemma DeliveryWrites(s: State, id: OpId, result: Status, c: Choice)
    requires id in s.ops && result in s.ops[id].results
    ensures Step(s, DeliverResult(id, result, c)).ops
         == s.ops[id := s.ops[id].(status := Write(s.ops[id].status, result, c).status)]
  {}

  lemma DeliveryMirrors(rows: map<string, Row>, s: State, id: OpId, result: Status, now: int)
    requires TableMirrors(rows, s.ops) && id in s.ops && result in s.ops[id].results
    ensures var c, after := Answer(rows, id, now), AdvanceRows(rows, id, result, now);
            && TableMirrors(after, Step(s, DeliverResult(id, result, c)).ops)
            && (Write(s.ops[id].status, result, c).reported <==> after != rows)
            && (result.Unknown? ==> after == rows)
  {
    var c := Answer(rows, id, now);
    WriteIsTheUpdate(rows, id, result, now, c);
    DeliveryWrites(s, id, result, c);
  }

  /** handleResult: the guarded UPDATE is the protocol's delivery, on the row and everywhere else. */
  method DeliverStep(table: OperationTable, s: State, id: OpId, result: Status, now: int) returns (r: WriteResult)
    requires TableMirrors(table.rows, s.ops) && id in s.ops && result in s.ops[id].results
    modifies table
    ensures table.rows == AdvanceRows(old(table.rows), id, result, now)
    ensures TableMirrors(table.rows, Step(s, DeliverResult(id, result, Answer(old(table.rows), id, now))).ops)
    ensures r.Rows? && r.affected <==> Write(s.ops[id].status, result, Answer(old(table.rows), id, now)).reported
  {
    DeliveryMirrors(table.rows, s, id, result, now);
    r := table.AdvanceStatus(id, result, now);
  }

  /** A status write of the handler is the guarded UPDATE, and returns what it reports. */
  method WriteStep(table: OperationTable, s: State, w: WorkerId, now: int) returns (r: WriteResult)
    requires TableMirrors(table.rows, s.ops) && w in s.workers && s.workers[w].command.op in s.ops
    requires ActionAt(s.workers[w].pc).Advance? && s.workers[w].command.service in s.catalog
    modifies table
    ensures TableMirrors(table.rows, Step(s, Work(w, Answer(old(table.rows), s.workers[w].command.op, now))).ops)
    ensures r.Rows? && (r.affected <==> Perform(s, s.ops[s.workers[w].command.op], s.workers[w], w,
                                                Answer(old(table.rows), s.workers[w].command.op, now)).ok)
  {
    var id, next := s.workers[w].command.op, ActionAt(s.workers[w].pc).next;
    WriteIsTheUpdate(table.rows, id, next, now, Answer(table.rows, id, now));
    ActWrites(s, s.ops[id], s.workers[w], w, Answer(table.rows, id, now));
    r := table.AdvanceStatus(id, next, now);
  }

  lemma ActWrites(s: State, op: Operation, wk: Worker, w: WorkerId, c: Choice)
    requires ActionAt(wk.pc).Advance? && wk.command.service in s.catalog
    ensures var r := Write(op.status, ActionAt(wk.pc).next, c);
            Act(s, op, wk, w, c).0.status == r.status && Perform(s, op, wk, w, c).ok == r.reported
    ensures !ActionAt(wk.pc).next.Unknown?
  {}

  /** A claim of the handler is the table's compare-and-set. */
  method ClaimStep(table: OperationTable, s: State, w: WorkerId, now: int) returns (claimed: bool)
    requires TableMirrors(table.rows, s.ops) && w in s.workers && s.workers[w].command.op in s.ops
    requires s.workers[w].pc.Claiming?
    modifies table
    ensures var id, c := s.workers[w].command.op, Answer(old(table.rows), s.workers[w].command.op, now);
            && TableMirrors(table.rows, Step(s, Work(w, c)).ops)
            && (claimed <==> s.ops[id].status == Dispatched)
            && (claimed <==> Runs(Step(s, Work(w, c)), w, id) && Step(s, Work(w, c)).ops[id].owner == Some(w)
                             && Step(s, Work(w, c)).ops[id] != s.ops[id])
  {
    var found: Option<Row>;
    claimed, found := table.ClaimForExecution(s.workers[w].command.op, now);
  }

  /** The monitor's UPDATE strikes the rows that are older than the cutoff, and is the protocol's strike on them. */
  method MonitorStep(table: OperationTable, s: State, now: int, timeout: int)
    requires TableMirrors(table.rows, s.ops)
    modifies table
    ensures var expired := set id | id in old(table.rows) && old(table.rows)[id].updatedAt < now - timeout;
            TableMirrors(table.rows, Step(s, Monitor(expired)).ops)
  {
    table.ReapTimedOut(now, timeout);
  }

  // ---------------------------------------------------------------------------------------
  // The files
  // ---------------------------------------------------------------------------------------

  /** The disk has at `path` what the map has for `k`. */
  predicate Mirrors(files: Deployer.Files, path: string, m: map<string, Bytes>, k: string) {
    (path in files <==> k in m) && (path in files ==> files[path].bytes == m[k])
  }

  method BackupStep(disk: Deployer.Disk, wk: Worker, target: string, backup: string, c: Choice) returns (created: bool, ok: bool)
    requires wk.pc.BackingUp? && Mirrors(disk.files, target, wk.host.configs, wk.command.service)
    requires target !in {backup, backup + ".tmp"}
    requires Mirrors(disk.files, backup, wk.host.backups, "backups/" + wk.command.service + "/" + c.stamp)
    modifies disk
    ensures ok <==> disk.IsCalm(old(disk.clock))
    ensures created <==> ok && wk.command.service in wk.host.configs
    ensures var after := HostEffect(wk, c, ok);
            && Mirrors(disk.files, target, after.configs, wk.command.service)
            && Mirrors(disk.files, backup, after.backups, "backups/" + wk.command.service + "/" + c.stamp)
            && (created ==> after.backupPath == "backups/" + wk.command.service + "/" + c.stamp)
            && (!created ==> after.backupPath == wk.host.backupPath)
  {
    created, ok := Deployer.Backup(disk, target, backup);
  }

  /** A crash after any file operation leaves what `CrashedFiles` says, with or without the effect. */
  ghost predicate CrashesLike(history: seq<Deployer.Files>, since: nat, target: string, wk: Worker) {
    forall k | since <= k < |history| ::
      || Mirrors(history[k], target, CrashedFiles(wk, false).configs, wk.command.service)
      || Mirrors(history[k], target, CrashedFiles(wk, true).configs, wk.command.service)
  }

  lemma SnapshotsMirror(was: Deployer.Files, history: seq<Deployer.Files>, since: nat, path: string, temp: string,
                        content: Bytes, m: map<string, Bytes>, k: string)
    requires Mirrors(was, path, m, k) && Deployer.AtomicallyReplaces(was, history, since, path, temp, content)
    ensures forall j | since <= j < |history| :: Mirrors(history[j], path, m, k) || Mirrors(history[j], path, m[k := content], k)
  {}

  method ApplyStep(disk: Deployer.Disk, wk: Worker, staged: string, target: string, c: Choice) returns (ok: bool)
    requires wk.pc.ApplyingFile? && Mirrors(disk.files, target, wk.host.configs, wk.command.service)
    requires staged in disk.files && disk.files[staged].bytes == wk.host.staged && staged != target + ".new"
    modifies disk
    ensures ok <==> disk.IsCalm(old(disk.clock))
    ensures Mirrors(disk.files, target, HostEffect(wk, c, ok).configs, wk.command.service)
    ensures CrashesLike(disk.history, |old(disk.history)|, target, wk)
  {
    ok := Deployer.Apply(disk, staged, target);
    SnapshotsMirror(old(disk.files), disk.history, |old(disk.history)|, target, target + ".new",
                    wk.host.staged, wk.host.configs, wk.command.service);
  }

  method RestoreStep(disk: Deployer.Disk, wk: Worker, backup: string, target: string, c: Choice) returns (ok: bool)
    requires wk.pc.Restoring? && Mirrors(disk.files, target, wk.host.configs, wk.command.service)
    requires wk.host.backupPath in wk.host.backups && Mirrors(disk.files, backup, wk.host.backups, wk.host.backupPath)
    requires backup != target + ".rollback"
    modifies disk
    ensures ok <==> disk.IsCalm(old(disk.clock))
    ensures Mirrors(disk.files, target, HostEffect(wk, c, ok).configs, wk.command.service)
    ensures CrashesLike(disk.history, |old(disk.history)|, target, wk)
  {
    ok := Deployer.Rollback(disk, backup, target);
    SnapshotsMirror(old(disk.files), disk.history, |old(disk.history)|, target, target + ".rollback",
                    wk.host.backups[wk.host.backupPath], wk.host.configs, wk.command.service);
  }

  // ---------------------------------------------------------------------------------------
  // The download, end to end
  // ---------------------------------------------------------------------------------------

  /** `bytes` is what some history of downloads of `content`, ending in success, leaves at the destination. */
  ghost predicate Fetches(content: Bytes, bytes: Bytes) {
    exists d: Downloader.Session, ls: seq<Downloader.Label> ::
      && DownloaderTheorems.Initial(d) && d.source == content && !Downloader.Run(d, ls).leaked
      && Downloader.Run(d, ls).phase == Downloader.Stopped(Some(true))
      && Downloader.Run(d, ls).disk.dest == Some(bytes)
  }

  lemma FetchedIsServed(content: Bytes, bytes: Bytes)
    requires Fetches(content, bytes)
    ensures bytes == content
  {
    var d, ls :| DownloaderTheorems.Initial(d) && d.source == content && !Downloader.Run(d, ls).leaked
                 && Downloader.Run(d, ls).phase == Downloader.Stopped(Some(true))
                 && Downloader.Run(d, ls).disk.dest == Some(bytes);
    DownloaderTheorems.DownloadIsCorrect(d, ls);
  }

  /** A successful download step of the protocol is one of the downloader, from the stored upload. */
  ghost predicate IsBacked(s: State, l: Label) {
    l.Work? && l.worker in s.workers && s.workers[l.worker].pc.Downloading? ==>
      var wk := s.workers[l.worker];
      wk.command.op in s.ops && s.ops[wk.command.op].upload.Some? && HostOk(s, wk, l.choice) ==>
        Fetches(s.ops[wk.command.op].upload.value.content, l.choice.bytes)
  }

  ghost predicate AllBacked(s: State, ls: seq<Label>)
    decreases |ls|
  {
    ls != [] ==> IsBacked(s, ls[0]) && AllBacked(Step(s, ls[0]), ls[1..])
  }

  predicate PastDownload(pc: Pc) {
    AfterApply(pc) || (BeforeApply(pc) && !pc.ReportingRunning? && !pc.Downloading?)
  }

  /** The staged file of an update in progress is the upload. */
  predicate StagedIsUpload(s: State, w: WorkerId)
    requires w in s.workers
  {
    var wk := s.workers[w];
    PastDownload(wk.pc) ==>
      && wk.command.op in s.ops && s.ops[wk.command.op].upload.Some?
      && wk.host.staged == s.ops[wk.command.op].upload.value.content
  }

  lemma ActKeepsUpload(s: State, op: Operation, wk: Worker, w: WorkerId, c: Choice)
    ensures Act(s, op, wk, w, c).0.upload == op.upload
  {}

  lemma UploadIsKept(s: State, l: Label, id: OpId)
    requires id in s.ops && s.ops[id].upload.Some?
    ensures id in Step(s, l).ops && Step(s, l).ops[id].upload == s.ops[id].upload
  {
    if l.Work? && l.worker in s.workers && s.workers[l.worker].command.op == id {
      ActKeepsUpload(s, s.ops[id], s.workers[l.worker], l.worker, l.choice);
    }
  }

  /** Only the download stages a file. */
  lemma ActStages(s: State, op: Operation, wk: Worker, w: WorkerId, c: Choice)
    requires PastDownload(Act(s, op, wk, w, c).1.pc)
    ensures Act(s, op, wk, w, c).1.command == wk.command
    ensures if wk.pc.Downloading? then HostOk(s, wk, c) && Act(s, op, wk, w, c).1.host.staged == c.bytes
            else PastDownload(wk.pc) && Act(s, op, wk, w, c).1.host.staged == wk.host.staged
  {}

  lemma OwnStepKeepsStaged(s: State, w: WorkerId, c: Choice)
    requires Inv(s) && w in s.workers && StagedIsUpload(s, w) && IsBacked(s, Work(w, c))
    ensures StagedIsUpload(Step(s, Work(w, c)), w)
  {
    var wk, id := s.workers[w], s.workers[w].command.op;
    if !wk.pc.Idle? && id in s.ops && PastDownload(Act(s, s.ops[id], wk, w, c).1.pc) {
      ActStages(s, s.ops[id], wk, w, c);
      RunningRow(s, w, id);
      UploadIsKept(s, Work(w, c), id);
      if wk.pc.Downloading? {
        FetchedIsServed(s.ops[id].upload.value.content, c.bytes);
      }
    }
  }

  lemma StaysPastDownload(s: State, l: Label, w: WorkerId)
    requires w in s.workers && !(l.Work? && l.worker == w) && PastDownload(Step(s, l).workers[w].pc)
    ensures Step(s, l).workers[w] == s.workers[w]
  {
    if !s.workers[w].pc.Idle? && !IsStepOf(l, w) {
      OthersLeaveWorker(s, l, w);
    }
  }

  lemma StepKeepsStaged(s: State, l: Label, w: WorkerId)
    requires Inv(s) && w in s.workers && StagedIsUpload(s, w) && IsBacked(s, l)
    ensures w in Step(s, l).workers && StagedIsUpload(Step(s, l), w)
  {
    StepKeepsKeys(s, l);
    if l.Work? && l.worker == w {
      OwnStepKeepsStaged(s, w, l.choice);
    } else if PastDownload(Step(s, l).workers[w].pc) {
      StaysPastDownload(s, l, w);
      UploadIsKept(s, l, s.workers[w].command.op);
    }
  }

  lemma {:induction false} RunKeepsStaged(s: State, ls: seq<Label>)
    requires Inv(s) && AllBacked(s, ls) && forall w | w in s.workers :: StagedIsUpload(s, w)
    ensures Inv(Run(s, ls)) && forall w | w in Run(s, ls).workers :: StagedIsUpload(Run(s, ls), w)
    decreases |ls|
  {
    if ls != [] {
      var t := Step(s, ls[0]);
      StepKeepsInv(s, ls[0]);
      StepKeepsKeys(s, ls[0]);
      forall w | w in t.workers
        ensures StagedIsUpload(t, w)
      {
        StepKeepsStaged(s, ls[0], w);
      }
      RunKeepsStaged(t, ls[1..]);
    }
  }

  /**
   The whole way: in a run whose downloads are the downloader's, the step that publishes
   SUCCEEDED finds exactly the uploaded bytes in the config file, and the container restarted
   on them and healthy, with no assumption about the digest.
   */
  lemma UploadedBytesAreDeployed(start: State, ls: seq<Label>, l: Label, id: OpId)
    requires Initial(start) && AllBacked(start, ls)
    requires id in Run(start, ls).ops && Succeeded !in Run(start, ls).ops[id].results
    requires Succeeded in Step(Run(start, ls), l).ops[id].results
    ensures var s := Run(start, ls);
            && l.Work? && Runs(s, l.worker, id) && s.ops[id].upload.Some?
            && var h, service, content := s.workers[l.worker].host, s.ops[id].service, s.ops[id].upload.value.content;
            && Holds(h.configs, service, content) && Holds(h.restarted, service, content) && Holds(h.probed, service, content)
            && h.configs == h.before[service := content]
  {
    var s := Run(start, ls);
    InitialInv(start);
    RunKeepsStaged(start, ls);
    assert Reachable(s);
    SuccessIsEndToEnd(s, l, id);
    SucceededIsReportedThere(s, l, id);
    assert StagedIsUpload(s, l.worker);
  }

  lemma SucceededIsReportedThere(s: State, l: Label, id: OpId)
    requires Inv(s) && id in s.ops && Succeeded !in s.ops[id].results && Succeeded in Step(s, l).ops[id].results
    ensures l.Work? && Runs(s, l.worker, id) && s.workers[l.worker].pc.ReportingSucceeded?
  {
    ReportsComeFromOwner(s, l, id);
  }
}
