/**
 The inductive invariant of the update protocol. While a worker executes an operation, a
 table indexed by the handler's position bounds the status, the results published and the
 files; once nobody executes it, `Ended` bounds what late messages can still do.
 */
module ProtocolInvariant {
  import opened Common
  import opened Operations
  import opened Protocol

  /** Statuses the row can hold while the handler stands at `pc`, whatever entry and monitor do. */
  predicate MayHold(pc: Pc, s: Status) {
    match pc
    case Idle | Claiming => false
    case ReportingRunning | Downloading | ReportingTransferred => s.Running? || s.Failed?
    case EnteringBackup => s.Running? || s.Transferred? || s.Failed?
    case BackingUp | EnteringApply => s.BackupCreated?
    case ApplyingFile | Restarting | EnteringHealth => s.Applying?
    case CheckingHealth | ReportingSucceeded => s.HealthChecking? || s.Failed?
    case Failing =>
      s.Running? || s.Transferred? || s.BackupCreated? || s.Applying? || s.HealthChecking? || s.Failed?
    case ReportingFailed => s.Failed?
    case RollbackMarkFailed | RollbackReportFailed | RollbackStart =>
      s.BackupCreated? || s.Applying? || s.HealthChecking? || s.Failed?
    case RollbackReportStart | Restoring | RollbackRestarting | RollbackEnterHealth => s.RollingBack?
    case RollbackReportHealth | RollbackCheckingHealth | RollbackFinish | RollbackFailing =>
      s.RollingBack? || s.RollbackHealthChecking?
    case RollbackReportFinished => s.RolledBack?
    case RollbackReportFailing => s.RollbackFailed?
  }

  /** Results the handler can have published before its action at `pc`. */
  predicate MayHaveReported(pc: Pc, r: Status) {
    match pc
    case Idle | Claiming | ReportingRunning => false
    case Downloading | ReportingTransferred => r.Running?
    case RollbackStart | RollbackReportStart => r.Running? || r.Transferred? || r.Failed?
    case Restoring | RollbackRestarting | RollbackEnterHealth | RollbackReportHealth =>
      r.Running? || r.Transferred? || r.Failed? || r.RollingBack?
    case RollbackCheckingHealth | RollbackFinish | RollbackReportFinished
       | RollbackFailing | RollbackReportFailing =>
      r.Running? || r.Transferred? || r.Failed? || r.RollingBack? || r.RollbackHealthChecking?
    case _ => r.Running? || r.Transferred?
  }

  /** How often Backup and Apply have been started. */
  predicate AttemptsAt(pc: Pc, backups: nat, applies: nat) {
    match pc
    case ReportingRunning | Downloading | ReportingTransferred | EnteringBackup | BackingUp =>
      backups == 0 && applies == 0
    case EnteringApply | ApplyingFile => backups == 1 && applies == 0
    case Restarting | EnteringHealth | CheckingHealth | ReportingSucceeded =>
      backups == 1 && applies == 1
    case Failing | ReportingFailed => applies <= backups <= 1
    case _ => applies <= backups == 1
  }

  predicate BeforeApply(pc: Pc) {
    || pc.ReportingRunning? || pc.Downloading? || pc.ReportingTransferred?
    || pc.EnteringBackup? || pc.BackingUp? || pc.EnteringApply? || pc.ApplyingFile?
  }

  predicate AfterApply(pc: Pc) {
    pc.Restarting? || pc.EnteringHealth? || pc.CheckingHealth? || pc.ReportingSucceeded?
  }

  predicate RollingBackAt(pc: Pc) {
    || pc.RollbackMarkFailed? || pc.RollbackReportFailed? || pc.RollbackStart?
    || pc.RollbackReportStart? || pc.Restoring?
  }

  predicate AfterRestore(pc: Pc) {
    || pc.RollbackRestarting? || pc.RollbackEnterHealth? || pc.RollbackReportHealth?
    || pc.RollbackCheckingHealth? || pc.RollbackFinish? || pc.RollbackReportFinished?
  }

  predicate PastLookup(pc: Pc) {
    || pc.BackingUp? || pc.EnteringApply? || pc.ApplyingFile? || AfterApply(pc)
    || RollingBackAt(pc) || AfterRestore(pc) || pc.RollbackFailing?
  }

  /** `m` holds `content` for `k`. */
  predicate Holds(m: map<string, Bytes>, k: string, content: Bytes) {
    k in m && m[k] == content
  }

  /** The backup this execution made is intact. */
  predicate BackupIntact(h: Host, service: string) {
    h.backupPath != "" ==> service in h.before && Holds(h.backups, h.backupPath, h.before[service])
  }

  /** The configs are the ones found at receipt, or, once applied, those with the staged file in place. */
  predicate WholeConfig(h: Host, service: string) {
    h.configs == if h.applied then h.before[service := h.staged] else h.before
  }

  /** The contents of the config file, the backup and the container at `pc`. */
  predicate FilesAt(s: State, wk: Worker) {
    var service, pc, h := wk.command.service, wk.pc, wk.host;
    && BackupIntact(h, service)
    && WholeConfig(h, service)
    && (BeforeApply(pc) ==> !h.applied)
    && (BeforeApply(pc) && !pc.EnteringApply? && !pc.ApplyingFile? ==> h.backupPath == "")
    && (PastLookup(pc) ==> service in s.catalog)
    && ((BeforeApply(pc) && !pc.ReportingRunning? && !pc.Downloading?) || AfterApply(pc)
        ==> s.sha(h.staged) == wk.command.sha)
    && (AfterApply(pc) ==> h.applied)
    && (pc.EnteringApply? || pc.ApplyingFile? || AfterApply(pc) ==> h.backupPath == "" ==> service !in h.before)
    && ((pc.Failing? || pc.ReportingFailed?) && service in h.before ==> !h.applied)
    && (AfterApply(pc) && !pc.Restarting? ==> Holds(h.restarted, service, h.staged))
    && (pc.ReportingSucceeded? ==> Holds(h.probed, service, h.staged))
    && (RollingBackAt(pc) || AfterRestore(pc) ==> h.backupPath != "")
    && (AfterRestore(pc) ==> !h.applied)
    && (AfterRestore(pc) && !pc.RollbackRestarting? ==> Holds(h.restarted, service, h.before[service]))
    && (pc.RollbackFinish? || pc.RollbackReportFinished? ==> Holds(h.probed, service, h.before[service]))
    && (pc.ReportingSucceeded? || pc.RollbackFinish? || pc.RollbackReportFinished? ==> HasHealthUrl(s, service))
  }

  /** The row's part of the table. */
  predicate RowAt(op: Operation, pc: Pc) {
    && MayHold(pc, op.status)
    && (forall r | r in op.results :: MayHaveReported(pc, r))
    && op.past.claims == 1 && !op.past.faulted
    && AttemptsAt(pc, op.past.backups, op.past.applies)
  }

  /** `wk` is executing `op`. */
  predicate Active(s: State, op: Operation, wk: Worker) {
    && Executing(wk.pc)
    && op.upload.Some? && wk.command.sha == op.upload.value.sha && wk.command.service == op.service
    && RowAt(op, wk.pc)
    && FilesAt(s, wk)
  }

  /** The results a handler publishes. */
  predicate IsReport(r: Status) {
    r.Running? || r.Transferred? || r.Succeeded? || r.Failed? || SqlRank(r) > OUTCOME_RANK
  }

  /** Nothing but the worker's own later writes can move these on. */
  predicate IsStranding(s: Status) {
    s.BackupCreated? || s.Applying? || s.RollingBack? || s.RollbackHealthChecking?
  }

  /** `op` was claimed and no worker executes it any more. */
  predicate Ended(op: Operation) {
    && op.past.claims == 1 && op.past.applies <= op.past.backups <= 1
    && SqlRank(op.status) >= 2
    && (forall r | r in op.results :: IsReport(r))
    && (Succeeded in op.results ==>
          && (forall r | r in op.results :: SqlRank(r) <= OUTCOME_RANK && !r.Failed?)
          && (op.status.HealthChecking? || op.status.Succeeded? || op.status.Failed?))
    && (op.status == Succeeded ==> Succeeded in op.results)
    && (RolledBack in op.results ==> op.status == RolledBack)
    && (RollbackFailed in op.results ==> op.status == RollbackFailed)
    && (RollingBack in op.results || RollbackHealthChecking in op.results ==> SqlRank(op.status) >= 8)
    && (!op.past.faulted ==> !IsStranding(op.status))
  }

  /** `op` was never claimed. */
  predicate Unclaimed(op: Operation) {
    && op.results == {} && !op.past.faulted && op.past.claims == 0 && op.past.backups == 0 && op.past.applies == 0
    && (if op.past.dispatches == 0 then op.status.Pending? else op.status.Dispatched? || op.status.Failed?)
  }

  /** The entry side: metadata is stored once, the command is published once and describes it. */
  predicate EntryOk(id: OpId, op: Operation) {
    && (op.entry.AwaitingUpload? <==> op.upload.None?)
    && op.past.dispatches <= 1
    && (!op.entry.DispatchEnded? ==> op.commands == {} && op.owner.None?)
    && (op.entry.AwaitingUpload? || op.entry.ReadingNode? || op.entry.Dispatching? ==> op.past.dispatches == 0)
    && (op.entry.PublishingCommand? || op.commands != {} || op.owner.Some? ==> op.past.dispatches == 1)
    && (forall c | c in op.commands ::
          op.upload.Some? && c.nodeInstance != "" && c == CommandFor(id, op, c.nodeInstance))
    && (forall c, d | c in op.commands && d in op.commands :: c == d)
  }

  /** The owner is executing `id`. */
  predicate Runs(s: State, w: WorkerId, id: OpId) {
    w in s.workers && Executing(s.workers[w].pc) && s.workers[w].command.op == id
  }

  ghost predicate ClaimOk(s: State, id: OpId, op: Operation) {
    match op.owner
    case None => Unclaimed(op)
    case Some(w) => w in s.workers && if Runs(s, w, id) then Active(s, op, s.workers[w]) else Ended(op)
  }

  ghost predicate OperationOk(s: State, id: OpId)
    requires id in s.ops
  {
    EntryOk(id, s.ops[id]) && ClaimOk(s, id, s.ops[id])
  }

  /** A busy worker holds a command addressed to it, and executes only what it claimed. */
  predicate WorkerOk(s: State, w: WorkerId)
    requires w in s.workers
  {
    var wk := s.workers[w];
    !wk.pc.Idle? ==>
      && wk.command.op in s.ops
      && wk.command in s.ops[wk.command.op].commands
      && wk.nodeId == s.ops[wk.command.op].nodeId
      && wk.command.nodeInstance == wk.instance
      && (wk.pc.Claiming? ==> wk.host.backupPath == "" && wk.host.before == wk.host.configs && !wk.host.applied)
      && (Executing(wk.pc) ==> s.ops[wk.command.op].owner == Some(w))
  }

  ghost predicate Inv(s: State) {
    && (forall id | id in s.ops :: OperationOk(s, id))
    && (forall w | w in s.workers :: WorkerOk(s, w))
  }

  lemma InitialInv(s: State)
    requires Initial(s)
    ensures Inv(s)
  {}

  // ---------------------------------------------------------------------------------------
  // Other actors leave an execution's bounds alone
  // ---------------------------------------------------------------------------------------

  lemma DeliveryKeepsActive(s: State, op: Operation, wk: Worker, r: Status, c: Choice)
    requires Active(s, op, wk) && r in op.results
    ensures Active(s, op.(status := Write(op.status, r, c).status), wk)
  {}

  lemma DeliveryKeepsEnded(op: Operation, r: Status, c: Choice)
    requires Ended(op) && r in op.results
    ensures Ended(op.(status := Write(op.status, r, c).status))
  {}

  lemma ReapKeepsActive(s: State, op: Operation, wk: Worker)
    requires Active(s, op, wk)
    ensures Active(s, op.(status := Reap(op.status)), wk)
  {}

  lemma ReapKeepsEnded(op: Operation)
    ensures Ended(op) ==> Ended(op.(status := Reap(op.status)))
    ensures Unclaimed(op) ==> Unclaimed(op.(status := Reap(op.status)))
  {}

  // ---------------------------------------------------------------------------------------
  // The handler's own actions
  // ---------------------------------------------------------------------------------------

  /** A status write: its result stays within the table, and within `Ended` when the handler stops. */
  lemma WriteKeepsStatus(pc: Pc, status: Status, c: Choice, backedUp: bool)
    requires MayHold(pc, status) && ActionAt(pc).Advance?
    ensures var r := Write(status, ActionAt(pc).next, c);
            var pc' := Goto(pc, r.reported, backedUp);
            && !pc'.Claiming?
            && (Executing(pc') ==> MayHold(pc', r.status))
            && (pc'.Idle? ==> ActionAt(pc).givesUp && SqlRank(r.status) >= 2 && r.status != Succeeded
                              && (IsStranding(r.status) ==> c.dbError))
            && (ActionAt(pc).givesUp && c.dbError ==> pc'.Idle?)
  {}

  /** The set of possible reports only grows along the handler's path. */
  lemma ReportsGrow(pc: Pc, ok: bool, backedUp: bool, r: Status)
    requires Executing(pc) && Executing(Goto(pc, ok, backedUp))
    requires MayHaveReported(pc, r) || (ActionAt(pc) == Report(r) && !pc.ReportingSucceeded?)
    ensures MayHaveReported(Goto(pc, ok, backedUp), r)
  {}

  ghost predicate KeepsRow(op: Operation, pc: Pc) {
    if Executing(pc) then RowAt(op, pc) else pc.Idle? && Ended(op)
  }

  lemma AdvanceKeepsRow(s: State, op: Operation, wk: Worker, w: WorkerId, c: Choice)
    requires Executing(wk.pc) && RowAt(op, wk.pc) && ActionAt(wk.pc).Advance?
    ensures var (op', wk') := Act(s, op, wk, w, c); KeepsRow(op', wk'.pc)
  {
    var pc := wk.pc;
    var (op', wk') := Act(s, op, wk, w, c);
    WriteKeepsStatus(pc, op.status, c, wk.host.backupPath != "");
    assert op'.results == op.results;
    forall r | r in op.results && Executing(wk'.pc)
      ensures MayHaveReported(wk'.pc, r)
    {
      ReportsGrow(pc, Perform(s, op, wk, w, c).ok, wk.host.backupPath != "", r);
    }
  }

  lemma ReportKeepsRow(s: State, op: Operation, wk: Worker, w: WorkerId, c: Choice)
    requires Executing(wk.pc) && RowAt(op, wk.pc) && ActionAt(wk.pc).Report?
    ensures var (op', wk') := Act(s, op, wk, w, c); KeepsRow(op', wk'.pc)
  {
    var pc := wk.pc;
    var (op', wk') := Act(s, op, wk, w, c);
    forall r | r in op'.results && Executing(wk'.pc)
      ensures MayHaveReported(wk'.pc, r)
    {
      ReportsGrow(pc, c.ok, wk.host.backupPath != "", r);
    }
  }

  lemma HostKeepsRow(s: State, op: Operation, wk: Worker, w: WorkerId, c: Choice)
    requires Executing(wk.pc) && RowAt(op, wk.pc) && ActionAt(wk.pc).OnHost?
    ensures var (op', wk') := Act(s, op, wk, w, c); KeepsRow(op', wk'.pc)
  {
    var pc := wk.pc;
    var (op', wk') := Act(s, op, wk, w, c);
    assert Executing(wk'.pc);
    forall r | r in op.results
      ensures MayHaveReported(wk'.pc, r)
    {
      ReportsGrow(pc, HostOk(s, wk, c), wk'.host.backupPath != "", r);
    }
  }

  /** Writes and reports touch no file, and the next position asks for no more than this one gave. */
  lemma QuietKeepsFiles(s: State, op: Operation, wk: Worker, w: WorkerId, c: Choice)
    requires Executing(wk.pc) && FilesAt(s, wk) && !ActionAt(wk.pc).OnHost?
    ensures var (_, wk') := Act(s, op, wk, w, c); Executing(wk'.pc) ==> FilesAt(s, wk')
  {
    var e := Perform(s, op, wk, w, c);
    assert e.host == wk.host;
    assert wk.pc.EnteringBackup? && e.ok ==> wk.command.service in s.catalog;
    FilesFollowMove(s, wk, e.ok);
  }

  lemma FilesFollowMove(s: State, wk: Worker, ok: bool)
    requires Executing(wk.pc) && FilesAt(s, wk) && !ActionAt(wk.pc).OnHost?
    requires wk.pc.EnteringBackup? && ok ==> wk.command.service in s.catalog
    ensures var pc' := Goto(wk.pc, ok, wk.host.backupPath != "");
            Executing(pc') ==> FilesAt(s, wk.(pc := pc'))
  {}

  lemma DownloadKeepsFiles(s: State, wk: Worker, c: Choice)
    requires FilesAt(s, wk) && wk.pc.Downloading?
    ensures FilesAfterHost(s, wk, c)
  {}

  lemma BackupKeepsFiles(s: State, wk: Worker, c: Choice)
    requires FilesAt(s, wk) && wk.pc.BackingUp?
    ensures FilesAfterHost(s, wk, c)
  {}

  lemma ApplyKeepsFiles(s: State, wk: Worker, c: Choice)
    requires FilesAt(s, wk) && wk.pc.ApplyingFile?
    ensures FilesAfterHost(s, wk, c)
  {}

  lemma RestoreKeepsFiles(s: State, wk: Worker, c: Choice)
    requires FilesAt(s, wk) && wk.pc.Restoring?
    ensures FilesAfterHost(s, wk, c)
  {
    var service := wk.command.service;
    assert wk.host.configs[service := wk.host.before[service]] == wk.host.before;
  }

  lemma RestartKeepsFiles(s: State, wk: Worker, c: Choice)
    requires FilesAt(s, wk) && wk.pc.Restarting?
    ensures FilesAfterHost(s, wk, c)
  {}

  lemma RollbackRestartKeepsFiles(s: State, wk: Worker, c: Choice)
    requires FilesAt(s, wk) && wk.pc.RollbackRestarting?
    ensures FilesAfterHost(s, wk, c)
  {}

  lemma ProbeKeepsFiles(s: State, wk: Worker, c: Choice)
    requires FilesAt(s, wk) && wk.pc.CheckingHealth?
    ensures FilesAfterHost(s, wk, c)
  {}

  lemma RollbackProbeKeepsFiles(s: State, wk: Worker, c: Choice)
    requires FilesAt(s, wk) && wk.pc.RollbackCheckingHealth?
    ensures FilesAfterHost(s, wk, c)
  {}

  /** The worker after its host action. */
  ghost predicate FilesAfterHost(s: State, wk: Worker, c: Choice) {
    var ok := HostOk(s, wk, c);
    var host := HostEffect(wk, c, ok);
    FilesAt(s, wk.(pc := Goto(wk.pc, ok, host.backupPath != ""), host := host))
  }

  /** What an action cannot touch. */
  predicate SameIdentity(op: Operation, op': Operation, wk: Worker, wk': Worker) {
    && op'.(status := op.status, results := op.results, past := op.past) == op
    && op'.past.dispatches == op.past.dispatches
    && wk'.nodeId == wk.nodeId && wk'.instance == wk.instance && wk'.command == wk.command
  }

  lemma ActKeepsFiles(s: State, op: Operation, wk: Worker, w: WorkerId, c: Choice)
    requires Executing(wk.pc) && FilesAt(s, wk)
    ensures var (_, wk') := Act(s, op, wk, w, c); Executing(wk'.pc) ==> FilesAt(s, wk')
  {
    match wk.pc
    case Downloading => DownloadKeepsFiles(s, wk, c);
    case BackingUp => BackupKeepsFiles(s, wk, c);
    case ApplyingFile => ApplyKeepsFiles(s, wk, c);
    case Restoring => RestoreKeepsFiles(s, wk, c);
    case Restarting => RestartKeepsFiles(s, wk, c);
    case RollbackRestarting => RollbackRestartKeepsFiles(s, wk, c);
    case CheckingHealth => ProbeKeepsFiles(s, wk, c);
    case RollbackCheckingHealth => RollbackProbeKeepsFiles(s, wk, c);
    case _ => QuietKeepsFiles(s, op, wk, w, c);
  }

  lemma ActKeepsRow(s: State, op: Operation, wk: Worker, w: WorkerId, c: Choice)
    requires Executing(wk.pc) && RowAt(op, wk.pc)
    ensures var (op', wk') := Act(s, op, wk, w, c); KeepsRow(op', wk'.pc)
  {
    match ActionAt(wk.pc)
    case Advance(_, _) => AdvanceKeepsRow(s, op, wk, w, c);
    case Report(_) => ReportKeepsRow(s, op, wk, w, c);
    case _ => HostKeepsRow(s, op, wk, w, c);
  }

  lemma ActKeepsIdentity(s: State, op: Operation, wk: Worker, w: WorkerId, c: Choice)
    requires !wk.pc.Claiming?
    ensures var (op', wk') := Act(s, op, wk, w, c); SameIdentity(op, op', wk, wk')
  {}

  /** One action of the executing worker leads to the next row of the table, or ends it. */
  lemma ActKeepsActive(s: State, op: Operation, wk: Worker, w: WorkerId, c: Choice)
    requires Active(s, op, wk)
    ensures var (op', wk') := Act(s, op, wk, w, c);
            && SameIdentity(op, op', wk, wk')
            && if Executing(wk'.pc) then Active(s, op', wk') else wk'.pc.Idle? && Ended(op')
  {
    ActKeepsRow(s, op, wk, w, c);
    ActKeepsFiles(s, op, wk, w, c);
    ActKeepsIdentity(s, op, wk, w, c);
  }

  // ---------------------------------------------------------------------------------------
  // Every label keeps the invariant
  // ---------------------------------------------------------------------------------------

  /** A claim that lands makes the claiming worker the first and only owner. */
  lemma ClaimKeeps(s: State, w: WorkerId, c: Choice)
    requires Inv(s) && w in s.workers && s.workers[w].pc.Claiming?
    ensures var id := s.workers[w].command.op;
            var op := s.ops[id];
            var (op', wk') := Act(s, op, s.workers[w], w, c);
            && EntryOk(id, op')
            && (op' != op ==> op.owner.None? && op'.owner == Some(w))
            && wk' == s.workers[w].(pc := wk'.pc)
            && (wk'.pc.Idle? || (wk'.pc.ReportingRunning? && Active(s, op', wk') && op' != op))
            && (wk'.pc.Idle? && op' != op ==> Ended(op'))
  {
    var id := s.workers[w].command.op;
    assert WorkerOk(s, w) && OperationOk(s, id);
    assert s.workers[w].command in s.ops[id].commands;
  }

  /** The operation a busy worker holds, after the worker's action. */
  lemma WorkKeepsHeld(s: State, w: WorkerId, c: Choice)
    requires Inv(s) && w in s.workers && !s.workers[w].pc.Idle?
    ensures var id := s.workers[w].command.op;
            id in s.ops
            && var (op', wk') := Act(s, s.ops[id], s.workers[w], w, c);
               HeldChange(s, w, id, op', wk')
  {
    assert WorkerOk(s, w);
    var wk, id := s.workers[w], s.workers[w].command.op;
    assert OperationOk(s, id);
    if wk.pc.Claiming? {
      ClaimKeeps(s, w, c);
    } else {
      ActKeepsActive(s, s.ops[id], wk, w, c);
    }
  }

  lemma WorkKeepsInv(s: State, w: WorkerId, c: Choice)
    requires Inv(s) && w in s.workers && !s.workers[w].pc.Idle?
    ensures Inv(Step(s, Work(w, c)))
  {
    WorkKeepsHeld(s, w, c);
    var id := s.workers[w].command.op;
    var (op', wk') := Act(s, s.ops[id], s.workers[w], w, c);
    HeldStepKeepsInv(s, w, id, op', wk');
  }

  /** What a step of `w` may do to the operation it holds and to itself. */
  predicate HeldChange(s: State, w: WorkerId, id: OpId, op': Operation, wk': Worker) {
    && w in s.workers && !s.workers[w].pc.Idle? && s.workers[w].command.op == id
    && id in s.ops && EntryOk(id, op')
    && wk'.command == s.workers[w].command && wk'.nodeId == s.workers[w].nodeId && !wk'.pc.Claiming?
    && op'.commands == s.ops[id].commands && op'.nodeId == s.ops[id].nodeId
    && (op'.owner != s.ops[id].owner ==> s.ops[id].owner.None? && op'.owner == Some(w))
    && if Executing(wk'.pc)
       then wk'.instance == s.workers[w].instance && op'.owner == Some(w) && Active(s, op', wk')
       else || (op' == s.ops[id] && !Executing(s.workers[w].pc))
            || (op'.owner == Some(w) && Ended(op'))
  }

  lemma HeldOperationsOk(s: State, w: WorkerId, id: OpId, op': Operation, wk': Worker, i: OpId)
    requires HeldChange(s, w, id, op', wk') && i in s.ops && OperationOk(s, i)
    ensures OperationOk(s.(ops := s.ops[id := op'], workers := s.workers[w := wk']), i)
  {
    var s' := s.(ops := s.ops[id := op'], workers := s.workers[w := wk']);
    if i == id && Executing(wk'.pc) {
      assert Active(s', op', wk');
    }
  }

  lemma HeldWorkersOk(s: State, w: WorkerId, id: OpId, op': Operation, wk': Worker, v: WorkerId)
    requires HeldChange(s, w, id, op', wk') && v in s.workers && WorkerOk(s, v) && WorkerOk(s, w)
    ensures WorkerOk(s.(ops := s.ops[id := op'], workers := s.workers[w := wk']), v)
  {}

  lemma HeldStepKeepsInv(s: State, w: WorkerId, id: OpId, op': Operation, wk': Worker)
    requires Inv(s) && HeldChange(s, w, id, op', wk')
    ensures Inv(s.(ops := s.ops[id := op'], workers := s.workers[w := wk']))
  {
    var s' := s.(ops := s.ops[id := op'], workers := s.workers[w := wk']);
    forall i | i in s'.ops
      ensures OperationOk(s', i)
    {
      assert OperationOk(s, i);
      HeldOperationsOk(s, w, id, op', wk', i);
    }
    assert WorkerOk(s, w);
    forall v | v in s'.workers
      ensures WorkerOk(s', v)
    {
      assert WorkerOk(s, v);
      HeldWorkersOk(s, w, id, op', wk', v);
    }
  }

  lemma CrashKeepsInv(s: State, w: WorkerId, newInstance: string, afterEffect: bool)
    requires Inv(s) && w in s.workers
    ensures Inv(Step(s, Crash(w, newInstance, afterEffect)))
  {
    assert WorkerOk(s, w);
    var wk, id := s.workers[w], s.workers[w].command.op;
    var wk' := wk.(pc := Idle, instance := newInstance, host := CrashedFiles(wk, afterEffect));
    if wk.pc.Idle? {
      IdleWorkerKeepsInv(s, w, wk');
    } else {
      assert OperationOk(s, id);
      var op := s.ops[id];
      if Executing(wk.pc) {
        ActiveEnds(s, op, wk);
        HeldStepKeepsInv(s, w, id, op.(past := op.past.(faulted := true)), wk');
      } else {
        HeldStepKeepsInv(s, w, id, op, wk');
        assert s.ops[id := op] == s.ops;
      }
    }
  }

  /** An idle worker may change into any worker that executes nothing. */
  lemma IdleWorkerKeepsInv(s: State, w: WorkerId, wk': Worker)
    requires Inv(s) && w in s.workers && s.workers[w].pc.Idle?
    requires wk'.pc.Idle? || (wk'.pc.Claiming? && WorkerOk(s.(workers := s.workers[w := wk']), w))
    ensures Inv(s.(workers := s.workers[w := wk']))
  {
    var s' := s.(workers := s.workers[w := wk']);
    forall i | i in s'.ops
      ensures OperationOk(s', i)
    {
      assert OperationOk(s, i);
    }
    forall v | v in s'.workers
      ensures WorkerOk(s', v)
    {
      assert WorkerOk(s, v);
    }
  }

  /** An execution may be cut off anywhere: what is left satisfies `Ended`, marked as faulted. */
  lemma ActiveEnds(s: State, op: Operation, wk: Worker)
    requires Active(s, op, wk)
    ensures Ended(op.(past := op.past.(faulted := true)))
  {}

  /** Changes to rows alone: each row still satisfies the invariant against the same workers. */
  lemma RowsKeepInv(s: State, ops: map<OpId, Operation>)
    requires Inv(s) && s.ops.Keys <= ops.Keys
    requires forall id | id in s.ops ::
               ops[id].owner == s.ops[id].owner && s.ops[id].commands <= ops[id].commands
               && ops[id].nodeId == s.ops[id].nodeId
    requires forall id | id in ops :: EntryOk(id, ops[id]) && ClaimOk(s, id, ops[id])
    ensures Inv(s.(ops := ops))
  {
    var s' := s.(ops := ops);
    forall id | id in s'.ops
      ensures OperationOk(s', id)
    {
      assert ClaimOk(s, id, ops[id]);
    }
    forall v | v in s'.workers
      ensures WorkerOk(s', v)
    {
      assert WorkerOk(s, v);
    }
  }

  lemma EntryKeepsRow(s: State, l: Label)
    requires Inv(s)
    requires l.FinishUpload? || l.ReadNode? || l.WriteDispatched? || l.PublishCommand? || l.DeliverResult?
    requires l.id in s.ops
    ensures var op, op' := s.ops[l.id], EntryStep(s, s.ops[l.id], l);
            && op'.owner == op.owner && op.commands <= op'.commands && op'.nodeId == op.nodeId
            && EntryOk(l.id, op') && ClaimOk(s, l.id, op')
  {
    assert OperationOk(s, l.id);
    var op := s.ops[l.id];
    if l.DeliverResult? && l.status in op.results {
      if Runs(s, op.owner.value, l.id) {
        DeliveryKeepsActive(s, op, s.workers[op.owner.value], l.status, l.choice);
      } else {
        DeliveryKeepsEnded(op, l.status, l.choice);
      }
    } else if EntryStep(s, op, l) != op {
      assert op.owner.None?;
    }
  }

  lemma EntryKeepsInv(s: State, l: Label)
    requires Inv(s)
    requires l.FinishUpload? || l.ReadNode? || l.WriteDispatched? || l.PublishCommand? || l.DeliverResult?
    ensures Inv(Step(s, l))
  {
    if l.id in s.ops {
      EntryKeepsRow(s, l);
      forall id | id in s.ops
        ensures EntryOk(id, s.ops[id]) && ClaimOk(s, id, s.ops[id])
      {
        assert OperationOk(s, id);
      }
      RowsKeepInv(s, s.ops[l.id := EntryStep(s, s.ops[l.id], l)]);
    }
  }

  lemma MonitorKeepsInv(s: State, expired: set<OpId>)
    requires Inv(s)
    ensures Inv(Step(s, Monitor(expired)))
  {
    var s' := Step(s, Monitor(expired));
    forall id | id in s.ops
      ensures EntryOk(id, s'.ops[id]) && ClaimOk(s, id, s'.ops[id])
    {
      assert OperationOk(s, id);
      var op := s.ops[id];
      if op.owner.Some? && Runs(s, op.owner.value, id) {
        ReapKeepsActive(s, op, s.workers[op.owner.value]);
      } else {
        ReapKeepsEnded(op);
      }
    }
    RowsKeepInv(s, s'.ops);
  }

  lemma ReceiveKeepsInv(s: State, w: WorkerId, id: OpId, command: Command)
    requires Inv(s)
    ensures Inv(Step(s, Receive(w, id, command)))
  {
    var s' := Step(s, Receive(w, id, command));
    if w in s.workers && id in s.ops && Accepts(s.ops[id], s.workers[w], command) {
      assert OperationOk(s, id);
      IdleWorkerKeepsInv(s, w, s'.workers[w]);
    }
  }

  lemma CreateKeepsInv(s: State, id: OpId, service: string, nodeId: string)
    requires Inv(s)
    ensures Inv(Step(s, CreateOperation(id, service, nodeId)))
  {
    if id !in s.ops {
      var ops := s.ops[id := NewOperation(service, nodeId)];
      forall i | i in ops
        ensures EntryOk(i, ops[i]) && ClaimOk(s, i, ops[i])
      {
        assert i in s.ops ==> OperationOk(s, i);
      }
      RowsKeepInv(s, ops);
    }
  }

  lemma StepKeepsInv(s: State, l: Label)
    requires Inv(s)
    ensures Inv(Step(s, l))
  {
    match l
    case CreateOperation(id, service, nodeId) => CreateKeepsInv(s, id, service, nodeId);
    case Monitor(expired) => MonitorKeepsInv(s, expired);
    case Receive(w, id, command) => ReceiveKeepsInv(s, w, id, command);
    case Work(w, c) =>
      if w in s.workers && !s.workers[w].pc.Idle? {
        WorkKeepsInv(s, w, c);
      }
    case Crash(w, newInstance, afterEffect) =>
      if w in s.workers {
        CrashKeepsInv(s, w, newInstance, afterEffect);
      }
    case _ => EntryKeepsInv(s, l);
  }

  /** The invariant holds after every schedule. */
  lemma {:induction false} RunKeepsInv(s: State, ls: seq<Label>)
    requires Inv(s)
    ensures Inv(Run(s, ls))
    decreases |ls|
  {
    if ls != [] {
      StepKeepsInv(s, ls[0]);
      RunKeepsInv(Step(s, ls[0]), ls[1..]);
    }
  }
}
