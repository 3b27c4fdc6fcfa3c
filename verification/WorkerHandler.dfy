/**
 The worker's command handler as it is written: nested methods with early returns, each
 talking to a shared system in which every other actor may move between any two calls.
 The methods are proved to follow the protocol's state machine, so everything proved about
 its runs holds of them.
 */
module WorkerHandler {
  import opened Common
  import opened Operations
  import opened Protocol
  import opened ProtocolInvariant
  import opened ProtocolTheorems

  class Server {
    const id: WorkerId
    var system: State
    ghost const start: State       // where this server came up
    ghost var schedule: seq<Label>  // everything that happened since `start`

    /** The system is where the schedule leads, and this worker is part of it. */
    ghost predicate Valid()
      reads this
    {
      && Reachable(start)
      && system == Run(start, schedule)
      && id in system.workers
    }

    /** This worker stands at `pc`. */
    predicate At(pc: Pc)
      reads this
    {
      id in system.workers && system.workers[id].pc == pc
    }

    constructor (id: WorkerId, system: State)
      requires Reachable(system) && id in system.workers
      ensures Valid() && this.id == id && this.system == system
    {
      this.id := id;
      this.system := system;
      this.start := system;
      this.schedule := [];
    }

    // -------------------------------------------------------------------------------------
    // One call, with the rest of the system moving before it
    // -------------------------------------------------------------------------------------

    method Happen(l: Label)
      requires Valid()
      modifies this
      ensures Valid() && system == Step(old(system), l)
      ensures schedule == old(schedule) + [l]
    {
      system := Step(system, l);
      ghost var before := schedule;
      schedule := schedule + [l];
      RunAppend(start, before, [l]);
      assert Run(Step(Run(start, before), l), []) == Step(Run(start, before), l) && [l][1..] == [];
    }

    /** The worker holds `command`, whose operation exists. */
    predicate Has(command: Command)
      reads this
    {
      id in system.workers && system.workers[id].command == command && command.op in system.ops
    }

    /** What `command`'s operation has reported so far. */
    function Reports(command: Command): set<Status>
      requires Has(command)
      reads this
    {
      system.ops[command.op].results
    }

    /** The files and the row are as the invariant has them at `at`. */
    ghost predicate Stands(command: Command, at: Pc)
      requires Has(command)
      reads this
    {
      && MayHold(at, system.ops[command.op].status)
      && FilesAt(system, system.workers[id].(pc := at))
    }

    /**
     Since `was`, at most the results `extra` were published, and every outcome among them is
     true: success of a deployed and healthy config, a finished rollback of the restored one
     and a failed rollback of a row that says so.
     */
    ghost predicate ReportsTruly(command: Command, was: set<Status>, extra: set<Status>)
      requires Has(command)
      reads this
    {
      && was <= Reports(command)
      && forall r | r in Reports(command) :: r in was || (r in extra && IsTrue(system, id, command, r))
    }

    /** Any number of steps of entry, monitor, network and the other workers. */
    method OthersMove(command: Command)
      requires Valid() && Has(command) && !At(Idle)
      modifies this
      ensures Valid() && Has(command) && system.workers[id] == old(system.workers[id])
      ensures system.catalog == old(system.catalog)
      ensures Executing(system.workers[id].pc) ==> Reports(command) == old(Reports(command))
    {
      var steps: nat := *;
      while steps > 0
        invariant Valid() && Has(command) && system.workers[id] == old(system.workers[id])
        invariant system.catalog == old(system.catalog)
        invariant Executing(system.workers[id].pc) ==> Reports(command) == old(Reports(command))
      {
        var l: Label := *;
        if !IsStepOf(l, id) {
          OthersLeaveWorker(system, l, id);
          ReachableRun(start, schedule);
          OthersLeaveReports(system, l, id, command.op);
          Happen(l);
        }
        steps := steps - 1;
      }
    }

    /** The call the handler makes at `at`; `ok` is what the call returned. */
    method Call(command: Command, at: Pc) returns (ok: bool)
      requires Valid() && Has(command) && At(at) && at != Idle
      modifies this
      ensures Valid() && Has(command) && system.catalog == old(system.catalog)
      ensures At(Goto(at, ok, system.workers[id].host.backupPath != ""))
      ensures system.workers[id].host.backupPath == old(system.workers[id].host.backupPath) || at == BackingUp
      ensures at == EnteringBackup && ok ==> command.service in system.catalog
      ensures Executing(at) ==> Published(ActionAt(at), old(Reports(command)), Reports(command), ok)
      ensures ActionAt(at).Report? ==> Stands(command, at)
      ensures ActionAt(at).Advance? && ok ==> system.ops[command.op].status == ActionAt(at).next
    {
      OthersMove(command);
      var choice: Choice := *;
      ok := Perform(system, system.ops[command.op], system.workers[id], id, choice).ok;
      ReachableRun(start, schedule);
      CallFacts(system, id, choice);
      Happen(Work(id, choice));
    }

    /** advanceStatus: write, read back, report whether both were confirmed. */
    method AdvanceStatus(command: Command, at: Pc, next: Status) returns (reported: bool)
      requires Valid() && Has(command) && At(at)
      requires ActionAt(at).Advance? && ActionAt(at).next == next
      modifies this
      ensures Valid() && Has(command) && system.catalog == old(system.catalog)
      ensures At(Goto(at, reported, system.workers[id].host.backupPath != ""))
      ensures system.workers[id].host.backupPath == old(system.workers[id].host.backupPath)
      ensures at == EnteringBackup && reported ==> command.service in system.catalog
      ensures Reports(command) == old(Reports(command))
      ensures reported ==> system.ops[command.op].status == next
    {
      reported := Call(command, at);
    }

    /** publishResult: when it returns an error the message may have left all the same. */
    method PublishResult(command: Command, at: Pc, result: Status) returns (ok: bool)
      requires Valid() && Has(command) && At(at) && ActionAt(at) == Report(result)
      modifies this
      ensures Valid() && Has(command) && system.catalog == old(system.catalog)
      ensures At(Goto(at, ok, system.workers[id].host.backupPath != ""))
      ensures system.workers[id].host.backupPath == old(system.workers[id].host.backupPath)
      ensures ReportsTruly(command, old(Reports(command)), {result}) && MayHold(at, system.ops[command.op].status)
      ensures ok ==> result in Reports(command)
    {
      ok := Call(command, at);
      StandsIsTrue(system, id, command, at);
    }

    // -------------------------------------------------------------------------------------
    // The handler
    // -------------------------------------------------------------------------------------

    /**
     Whatever happens around it, a delivered command leaves the worker idle, and the operation,
     if this worker ever owned it, in a state from which only its own late reports can move it.
     A command for another instance or an unknown operation changes nothing.
     */
    method HandleCommand(command: Command)
      requires Valid() && At(Idle)
      requires command.op in system.ops ==>
                 && command in system.ops[command.op].commands
                 && system.ops[command.op].nodeId == system.workers[id].nodeId
      modifies this
      ensures Valid() && At(Idle)
      ensures command.nodeInstance != "" && command.nodeInstance != old(system.workers[id].instance) ==>
                system == old(system)
      ensures command.op !in old(system.ops) ==> system == old(system)
      ensures command.op in old(system.ops) ==> command.op in system.ops
      ensures command.op in system.ops && system.ops[command.op].owner == Some(id) ==>
                var op := system.ops[command.op]; Ended(op) && (!op.past.faulted ==> !IsStranding(op.status))
    {
      if command.nodeInstance == "" || command.nodeInstance == system.workers[id].instance {
        if command.op in system.ops {  // otherwise ClaimForExecution finds no row
          Happen(Receive(id, command.op, command));
          Execute(command);
        }
      }
      ReachableRun(start, schedule);
      if command.op in system.ops {
        IdleOwnerHasEnded(system, id, command.op);
      }
    }

    method Execute(command: Command)
      requires Valid() && Has(command) && At(Claiming) && system.workers[id].host.backupPath == ""
      modifies this
      ensures Valid() && Has(command) && At(Idle)
    {
      var ok := Call(command, Claiming);  // ClaimForExecution
      if !ok {
        return;
      }
      ok := PublishResult(command, ReportingRunning, Running);
      if !ok {
        return;
      }
      TransferAndUpdate(command);
    }

    /** The rest of handleCommand, once RUNNING is published. */
    method TransferAndUpdate(command: Command)
      requires Valid() && Has(command) && At(Downloading) && system.workers[id].host.backupPath == ""
      modifies this
      ensures Valid() && Has(command) && At(Idle)
      ensures ReportsTruly(command, old(Reports(command)), {Transferred, Succeeded, Failed} + ROLLBACK_REPORTS)
    {
      var ok := Call(command, Downloading);
      if !ok {
        FailOperation(command);
        return;
      }
      ok := PublishResult(command, ReportingTransferred, Transferred);
      if !ok {
        return;
      }
      UpdateOrRecover(command);
    }

    /** The update itself, its report, and the two ways of dealing with its failure. */
    method UpdateOrRecover(command: Command)
      requires Valid() && Has(command) && At(EnteringBackup) && system.workers[id].host.backupPath == ""
      modifies this
      ensures Valid() && Has(command) && At(Idle)
      ensures ReportsTruly(command, old(Reports(command)), {Succeeded, Failed} + ROLLBACK_REPORTS)
    {
      var backupPath, updated := ExecuteUpdate(command);
      if !updated {
        Recover(command, backupPath);
        return;
      }
      var _ := PublishResult(command, ReportingSucceeded, Succeeded);
    }

    method Recover(command: Command, backupPath: string)
      requires Valid() && Has(command) && At(OnError(backupPath != ""))
      modifies this
      ensures Valid() && Has(command) && At(Idle)
      ensures ReportsTruly(command, old(Reports(command)), {Failed} + ROLLBACK_REPORTS)
    {
      if backupPath != "" {
        RollbackOperation(command);
        return;
      }
      FailOperation(command);
    }

    /**
     True means that the staged file, with the digest of the command, is in place, restarted on
     and healthy, after one backup and one apply. False with a backup path means that the path
     holds the old config, false without one that the old config is in place if there was one.
     */
    method ExecuteUpdate(command: Command) returns (backupPath: string, updated: bool)
      requires Valid() && Has(command) && At(EnteringBackup) && system.workers[id].host.backupPath == ""
      modifies this
      ensures Valid() && Has(command) && Reports(command) == old(Reports(command))
      ensures At(if updated then ReportingSucceeded else OnError(backupPath != ""))
      ensures updated ==> Deployed(system, system.workers[id].host, command)
      ensures updated ==> system.ops[command.op].past.backups == system.ops[command.op].past.applies == 1
      ensures var h, service := system.workers[id].host, command.service;
              !updated ==> if backupPath != "" then service in h.before && Holds(h.backups, h.backupPath, h.before[service])
                           else service in h.before ==> h.configs == h.before
    {
      backupPath, updated := BackupAndApply(command);
      Recall(command);
    }

    /** The steps of executeUpdate. */
    method BackupAndApply(command: Command) returns (backupPath: string, updated: bool)
      requires Valid() && Has(command) && At(EnteringBackup) && system.workers[id].host.backupPath == ""
      modifies this
      ensures Valid() && Has(command) && Reports(command) == old(Reports(command))
      ensures At(if updated then ReportingSucceeded else OnError(backupPath != ""))
    {
      if command.service !in system.catalog {
        var _ := Call(command, EnteringBackup);  // no such service: nothing is written
        return "", false;
      }
      var ok := AdvanceStatus(command, EnteringBackup, BackupCreated);
      if !ok {
        return "", false;
      }
      ok := Call(command, BackingUp);
      if !ok {
        return "", false;
      }
      backupPath := system.workers[id].host.backupPath;  // empty when there was nothing to back up
      updated := ApplyUpdate(command);
    }

    /** The second half of executeUpdate: the file, then the container. */
    method ApplyUpdate(command: Command) returns (updated: bool)
      requires Valid() && Has(command) && At(EnteringApply)
      modifies this
      ensures Valid() && Has(command) && Reports(command) == old(Reports(command))
      ensures system.workers[id].host.backupPath == old(system.workers[id].host.backupPath)
      ensures At(if updated then ReportingSucceeded else OnError(system.workers[id].host.backupPath != ""))
    {
      var ok := AdvanceStatus(command, EnteringApply, Applying);
      if !ok {
        return false;
      }
      ok := Call(command, ApplyingFile);
      if !ok {
        return false;
      }
      updated := RestartAndProbe(command);
    }

    method RestartAndProbe(command: Command) returns (healthy: bool)
      requires Valid() && Has(command) && At(Restarting)
      modifies this
      ensures Valid() && Has(command) && Reports(command) == old(Reports(command))
      ensures system.workers[id].host.backupPath == old(system.workers[id].host.backupPath)
      ensures At(if healthy then ReportingSucceeded else OnError(system.workers[id].host.backupPath != ""))
    {
      var ok := Call(command, Restarting);
      if !ok {
        return false;
      }
      ok := AdvanceStatus(command, EnteringHealth, HealthChecking);
      if !ok {
        return false;
      }
      healthy := Call(command, CheckingHealth);  // a service without health URL fails
    }

    /**
     FAILED is published first and whatever became of its write; ROLLED_BACK only once the row
     says so and the old config is back, restarted on and healthy.
     */
    method RollbackOperation(command: Command)
      requires Valid() && Has(command) && At(RollbackMarkFailed)
      modifies this
      ensures Valid() && Has(command) && At(Idle)
      ensures ReportsTruly(command, old(Reports(command)), {Failed} + ROLLBACK_REPORTS)
    {
      var _ := AdvanceStatus(command, RollbackMarkFailed, Failed);
      var _ := PublishResult(command, RollbackReportFailed, Failed);
      StartRollback(command);
    }

    method StartRollback(command: Command)
      requires Valid() && Has(command) && At(RollbackStart)
      modifies this
      ensures Valid() && Has(command) && At(Idle)
      ensures ReportsTruly(command, old(Reports(command)), ROLLBACK_REPORTS)
    {
      var ok := AdvanceStatus(command, RollbackStart, RollingBack);
      if !ok {
        return;
      }
      RestoreAndReport(command);
    }

    method RestoreAndReport(command: Command)
      requires Valid() && Has(command) && At(RollbackReportStart)
      modifies this
      ensures Valid() && Has(command) && At(Idle)
      ensures ReportsTruly(command, old(Reports(command)), ROLLBACK_REPORTS)
    {
      var _ := PublishResult(command, RollbackReportStart, RollingBack);
      Restore(command);
    }

    /** The second half of rollbackOperation: the file, then the container. */
    method Restore(command: Command)
      requires Valid() && Has(command) && At(Restoring)
      modifies this
      ensures Valid() && Has(command) && At(Idle)
      ensures ReportsTruly(command, old(Reports(command)), RESTORE_REPORTS)
    {
      var ok := Call(command, Restoring);
      if !ok {
        MarkRollbackFailed(command);
        return;
      }
      ok := Call(command, RollbackRestarting);
      if !ok {
        MarkRollbackFailed(command);
        return;
      }
      ProbeAfterRestore(command);
    }

    method ProbeAfterRestore(command: Command)
      requires Valid() && Has(command) && At(RollbackEnterHealth)
      modifies this
      ensures Valid() && Has(command) && At(Idle)
      ensures ReportsTruly(command, old(Reports(command)), RESTORE_REPORTS)
    {
      ReportRollbackHealth(command);
      ProbeAndFinish(command);
    }

    method ProbeAndFinish(command: Command)
      requires Valid() && Has(command) && At(RollbackCheckingHealth)
      modifies this
      ensures Valid() && Has(command) && At(Idle)
      ensures ReportsTruly(command, old(Reports(command)), {RolledBack, RollbackFailed})
    {
      var ok := Call(command, RollbackCheckingHealth);
      if !ok {
        MarkRollbackFailed(command);
        return;
      }
      FinishRollback(command);
    }

    /** Neither the write nor the report needs to succeed. */
    method ReportRollbackHealth(command: Command)
      requires Valid() && Has(command) && At(RollbackEnterHealth)
      modifies this
      ensures Valid() && Has(command) && At(RollbackCheckingHealth)
      ensures ReportsTruly(command, old(Reports(command)), {RollbackHealthChecking})
    {
      var _ := AdvanceStatus(command, RollbackEnterHealth, RollbackHealthChecking);
      var _ := PublishResult(command, RollbackReportHealth, RollbackHealthChecking);
    }

    method FinishRollback(command: Command)
      requires Valid() && Has(command) && At(RollbackFinish)
      modifies this
      ensures Valid() && Has(command) && At(Idle)
      ensures ReportsTruly(command, old(Reports(command)), {RolledBack})
    {
      var ok := AdvanceStatus(command, RollbackFinish, RolledBack);
      if !ok {
        return;
      }
      var _ := PublishResult(command, RollbackReportFinished, RolledBack);
    }

    /** ROLLBACK_FAILED is published only once the row holds it. */
    method MarkRollbackFailed(command: Command)
      requires Valid() && Has(command) && At(RollbackFailing)
      modifies this
      ensures Valid() && Has(command) && At(Idle)
      ensures ReportsTruly(command, old(Reports(command)), {RollbackFailed})
    {
      var ok := AdvanceStatus(command, RollbackFailing, RollbackFailed);
      if !ok {
        return;
      }
      var _ := PublishResult(command, RollbackReportFailing, RollbackFailed);
    }

    /**
     failOperation and handleExecutionFailure, which differ in their deadline only: FAILED is
     published only once the row holds it.
     */
    method FailOperation(command: Command)
      requires Valid() && Has(command) && At(Failing)
      modifies this
      ensures Valid() && Has(command) && At(Idle)
      ensures ReportsTruly(command, old(Reports(command)), {Failed})
      ensures Reports(command) != old(Reports(command)) ==> system.ops[command.op].status == Failed
    {
      var ok := AdvanceStatus(command, Failing, Failed);
      if !ok {
        return;
      }
      var _ := PublishResult(command, ReportingFailed, Failed);
    }

    /** What the invariant says of a handler that stands where the update ended. */
    lemma Recall(command: Command)
      requires Valid() && Has(command) && Executing(system.workers[id].pc)
      ensures Stands(command, system.workers[id].pc)
      ensures AttemptsAt(system.workers[id].pc, system.ops[command.op].past.backups, system.ops[command.op].past.applies)
    {
      ReachableRun(start, schedule);
      ReachableInv(system);
      RunningRow(system, id, command.op);
      assert system.workers[id].(pc := system.workers[id].pc) == system.workers[id];
    }
  }

  /** What a rollback can publish after FAILED. */
  const ROLLBACK_REPORTS := {RollingBack, RollbackHealthChecking, RolledBack, RollbackFailed}

  const RESTORE_REPORTS := {RollbackHealthChecking, RolledBack, RollbackFailed}

  /** The staged file has the command's digest and is in place, restarted on and healthy; other configs are untouched. */
  predicate Deployed(s: State, h: Host, command: Command) {
    && s.sha(h.staged) == command.sha
    && h.configs == h.before[command.service := h.staged]
    && Holds(h.restarted, command.service, h.staged)
    && Holds(h.probed, command.service, h.staged)
  }

  /** What a published result says of row and host. */
  predicate IsTrue(s: State, w: WorkerId, command: Command, r: Status)
    requires w in s.workers && command.op in s.ops
  {
    match r
    case Succeeded => Deployed(s, s.workers[w].host, command)
    case RolledBack => s.ops[command.op].status == RolledBack && Restored(s.workers[w].host, command.service)
    case RollbackFailed => s.ops[command.op].status == RollbackFailed
    case _ => true
  }

  /** All configs are as at receipt, and the container was restarted on them and probed. */
  predicate Restored(h: Host, service: string) {
    && service in h.before && h.configs == h.before
    && Holds(h.restarted, service, h.before[service])
    && Holds(h.probed, service, h.before[service])
  }

  /** Only a report adds to the results, and only itself; a confirmed one does. */
  predicate Published(action: Action, was: set<Status>, now: set<Status>, ok: bool) {
    if action.Report? then now == was + {action.result} || (!ok && now == was) else now == was
  }

  /** Only its owner publishes results of an operation. */
  lemma OthersLeaveReports(s: State, l: Label, w: WorkerId, id: OpId)
    requires Reachable(s) && id in s.ops && w in s.workers && s.workers[w].command.op == id && !IsStepOf(l, w)
    ensures id in Step(s, l).ops
    ensures Executing(s.workers[w].pc) ==> Step(s, l).ops[id].results == s.ops[id].results
  {
    ReachableInv(s);
    StepKeepsKeys(s, l);
    if Executing(s.workers[w].pc) && Step(s, l).ops[id].results != s.ops[id].results {
      ReportsComeFromOwner(s, l, id);
      RunningRow(s, w, id);
    }
  }

  lemma OnlyBackupSetsPath(wk: Worker, c: Choice, ok: bool)
    ensures HostEffect(wk, c, ok).backupPath == wk.host.backupPath || wk.pc.BackingUp?
  {
    match wk.pc
    case ApplyingFile =>
    case Restoring =>
    case Restarting | RollbackRestarting =>
    case CheckingHealth | RollbackCheckingHealth =>
    case _ =>
  }

  lemma PerformsOnHost(s: State, op: Operation, wk: Worker, w: WorkerId, c: Choice)
    ensures var h := Perform(s, op, wk, w, c).host; h == wk.host || h == HostEffect(wk, c, HostOk(s, wk, c))
  {}

  lemma CallKeepsIdentity(s: State, op: Operation, wk: Worker, w: WorkerId, c: Choice)
    ensures var (_, wk') := Act(s, op, wk, w, c);
            wk'.command == wk.command && (wk'.host.backupPath == wk.host.backupPath || wk.pc.BackingUp?)
  {
    PerformsOnHost(s, op, wk, w, c);
    OnlyBackupSetsPath(wk, c, HostOk(s, wk, c));
  }

  lemma BackupNeedsService(s: State, op: Operation, wk: Worker, w: WorkerId, c: Choice)
    ensures wk.pc.EnteringBackup? && Perform(s, op, wk, w, c).ok ==> wk.command.service in s.catalog
  {}

  lemma CallPublishes(s: State, op: Operation, wk: Worker, w: WorkerId, c: Choice)
    ensures Published(ActionAt(wk.pc), op.results, Act(s, op, wk, w, c).0.results, Perform(s, op, wk, w, c).ok)
  {}

  lemma ConfirmedWriteLands(s: State, op: Operation, wk: Worker, w: WorkerId, c: Choice)
    requires ActionAt(wk.pc).Advance? && Perform(s, op, wk, w, c).ok
    ensures Act(s, op, wk, w, c).0.status == ActionAt(wk.pc).next
  {}

  lemma ReportChangesNothingElse(s: State, op: Operation, wk: Worker, w: WorkerId, c: Choice)
    requires ActionAt(wk.pc).Report?
    ensures var (op', wk') := Act(s, op, wk, w, c);
            op' == op.(results := op'.results) && wk'.(pc := wk.pc) == wk
  {}

  lemma FilesIgnoreOps(s: State, t: State, wk: Worker)
    requires FilesAt(s, wk) && s.catalog == t.catalog && (forall x :: s.sha(x) == t.sha(x))
    ensures FilesAt(t, wk)
  {}

  /** What a call changes, apart from what it is made for. */
  lemma CallFacts(s: State, w: WorkerId, c: Choice)
    requires Reachable(s) && w in s.workers && s.workers[w].command.op in s.ops && !s.workers[w].pc.Idle?
    ensures var wk, id, t := s.workers[w], s.workers[w].command.op, Step(s, Work(w, c));
            var ok, wk' := Perform(s, s.ops[id], wk, w, c).ok, t.workers[w];
            && wk'.command == wk.command && id in t.ops && t.catalog == s.catalog
            && wk'.pc == Goto(wk.pc, ok, wk'.host.backupPath != "")
            && (wk'.host.backupPath == wk.host.backupPath || wk.pc.BackingUp?)
            && (wk.pc.EnteringBackup? && ok ==> wk.command.service in s.catalog)
            && Published(ActionAt(wk.pc), s.ops[id].results, t.ops[id].results, ok)
            && (ActionAt(wk.pc).Advance? && ok ==> t.ops[id].status == ActionAt(wk.pc).next)
            && (ActionAt(wk.pc).Report? ==> MayHold(wk.pc, t.ops[id].status) && FilesAt(t, wk'.(pc := wk.pc)))
  {
    var wk, id := s.workers[w], s.workers[w].command.op;
    CallKeepsIdentity(s, s.ops[id], wk, w, c);
    BackupNeedsService(s, s.ops[id], wk, w, c);
    CallPublishes(s, s.ops[id], wk, w, c);
    if ActionAt(wk.pc).Advance? && Perform(s, s.ops[id], wk, w, c).ok {
      ConfirmedWriteLands(s, s.ops[id], wk, w, c);
    }
    if ActionAt(wk.pc).Report? {
      ReachableInv(s);
      RunningRow(s, w, id);
      ReportChangesNothingElse(s, s.ops[id], wk, w, c);
      FilesIgnoreOps(s, Step(s, Work(w, c)), wk);
    }
  }

  /** The position of a report implies what the report says. */
  lemma StandsIsTrue(s: State, w: WorkerId, command: Command, at: Pc)
    requires w in s.workers && s.workers[w].command == command && command.op in s.ops
    requires ActionAt(at).Report? && MayHold(at, s.ops[command.op].status) && FilesAt(s, s.workers[w].(pc := at))
    ensures IsTrue(s, w, command, ActionAt(at).result)
  {}

  lemma IdleOwnerHasEnded(s: State, w: WorkerId, id: OpId)
    requires Reachable(s) && w in s.workers && s.workers[w].pc.Idle? && id in s.ops
    ensures s.ops[id].owner == Some(w) ==> Ended(s.ops[id])
  {
    ReachableInv(s);
    assert OperationOk(s, id);
  }
}
