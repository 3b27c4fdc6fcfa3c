/**
 What the protocol guarantees in every run: for every schedule of entry, workers, monitor and
 network, with every combination of faults.
 */
module ProtocolTheorems {
  import opened Common
  import opened Operations
  import opened Protocol
  import opened ProtocolInvariant

  /** `s` occurs in some run. */
  ghost predicate Reachable(s: State) {
    exists start, ls :: Initial(start) && s == Run(start, ls)
  }

  lemma ReachableInv(s: State)
    requires Reachable(s)
    ensures Inv(s)
  {
    var start, ls :| Initial(start) && s == Run(start, ls);
    InitialInv(start);
    RunKeepsInv(start, ls);
  }

  lemma ReachableRun(s: State, ls: seq<Label>)
    requires Reachable(s)
    ensures Reachable(Run(s, ls))
  {
    var start, before :| Initial(start) && s == Run(start, before);
    RunAppend(start, before, ls);
  }

  lemma ReachableStep(s: State, l: Label)
    requires Reachable(s)
    ensures Reachable(Step(s, l))
  {
    ReachableRun(s, [l]);
    assert Run(Step(s, l), []) == Step(s, l) && [l][1..] == [];
  }

  /** Rows and workers are never deleted. */
  lemma StepKeepsKeys(s: State, l: Label)
    ensures s.ops.Keys <= Step(s, l).ops.Keys
    ensures s.workers.Keys == Step(s, l).workers.Keys
  {}

  // ---------------------------------------------------------------------------------------
  // Global rank monotonicity
  // ---------------------------------------------------------------------------------------

  lemma EntryGrowsRank(s: State, op: Operation, l: Label)
    ensures RankGrows(op.status, EntryStep(s, op, l).status)
  {}

  lemma ActGrowsRank(s: State, op: Operation, wk: Worker, w: WorkerId, c: Choice)
    ensures RankGrows(op.status, Act(s, op, wk, w, c).0.status)
  {}

  /** No label of any actor, from any state, lowers a rank or swaps two statuses of equal rank. */
  lemma StepGrowsRank(s: State, l: Label, id: OpId)
    requires id in s.ops
    ensures id in Step(s, l).ops && RankGrows(s.ops[id].status, Step(s, l).ops[id].status)
  {
    match l
    case Work(w, c) =>
      if w in s.workers && s.workers[w].command.op == id {
        ActGrowsRank(s, s.ops[id], s.workers[w], w, c);
      }
    case CreateOperation(_, _, _) =>
    case Monitor(_) =>
    case Receive(_, _, _) =>
    case Crash(_, _, _) =>
    case _ => EntryGrowsRank(s, s.ops[id], l);
  }

  /** How many labels of the schedule change the status of `id`. */
  ghost function StatusChanges(s: State, ls: seq<Label>, id: OpId): nat
    decreases |ls|
  {
    if ls == [] then 0
    else
      var t := Step(s, ls[0]);
      StatusChanges(t, ls[1..], id)
      + if id in s.ops && id in t.ops && t.ops[id].status != s.ops[id].status then 1 else 0
  }

  /** 11 minus the rank is a termination measure: an operation changes status at most that often. */
  lemma {:induction false} StatusTraceIsIncreasing(s: State, ls: seq<Label>, id: OpId)
    requires id in s.ops
    ensures id in Run(s, ls).ops
    ensures RankGrows(s.ops[id].status, Run(s, ls).ops[id].status)
    ensures StatusChanges(s, ls, id) <= SqlRank(Run(s, ls).ops[id].status) - SqlRank(s.ops[id].status) <= 11 - SqlRank(s.ops[id].status)
    decreases |ls|
  {
    if ls == [] {
      RanksAgree(s.ops[id].status);
    } else {
      StepGrowsRank(s, ls[0], id);
      StatusTraceIsIncreasing(Step(s, ls[0]), ls[1..], id);
    }
  }

  // ---------------------------------------------------------------------------------------
  // Provenance: what can change a status
  // ---------------------------------------------------------------------------------------

  /** Worker `w` is at a status write on `id`. */
  predicate Writes(s: State, w: WorkerId, id: OpId) {
    Runs(s, w, id) && ActionAt(s.workers[w].pc).Advance?
  }

  lemma ActChangesStatus(s: State, op: Operation, wk: Worker, w: WorkerId, c: Choice)
    ensures var after := Act(s, op, wk, w, c).0.status;
            after != op.status ==>
              || (wk.pc.Claiming? && op.status == Dispatched && after == Running)
              || (ActionAt(wk.pc).Advance? && after == ActionAt(wk.pc).next && CanAdvance(op.status, after)
                  && (!c.dbError || c.effect))
  {}

  /** The entry service or the monitor moved `id` to `after`. */
  predicate EntryCause(s: State, l: Label, id: OpId, after: Status)
    requires id in s.ops
  {
    var before := s.ops[id].status;
    || (l.WriteDispatched? && l.id == id && s.ops[id].entry.Dispatching? && after == Dispatched)
    || (l.DeliverResult? && l.id == id && l.status in s.ops[id].results && after == l.status)
    || (l.Monitor? && id in l.expired && IsReaped(before) && after == Failed)
  }

  /** A worker moved `id` to `after`: its claim, or a guarded write of the execution it owns. */
  predicate WorkCause(s: State, l: Label, id: OpId, after: Status)
    requires id in s.ops
  {
    && l.Work? && l.worker in s.workers && s.workers[l.worker].command.op == id
    && var pc := s.workers[l.worker].pc;
    || (pc.Claiming? && s.ops[id].status == Dispatched && after == Running)
    || (Writes(s, l.worker, id) && s.ops[id].owner == Some(l.worker) && after == ActionAt(pc).next
        && CanAdvance(s.ops[id].status, after) && (!l.choice.dbError || l.choice.effect))
  }

  lemma WorkChangeCauses(s: State, l: Label, id: OpId)
    requires l.Work? && l.worker in s.workers && WorkerOk(s, l.worker)
    requires id in s.ops && Step(s, l).ops[id].status != s.ops[id].status
    ensures WorkCause(s, l, id, Step(s, l).ops[id].status)
  {
    ActChangesStatus(s, s.ops[id], s.workers[l.worker], l.worker, l.choice);
  }

  /** Every status change in a run has one of five causes. */
  lemma StatusChangeCauses(s: State, l: Label, id: OpId)
    requires Inv(s) && id in s.ops && Step(s, l).ops[id].status != s.ops[id].status
    ensures var after := Step(s, l).ops[id].status;
            EntryCause(s, l, id, after) || WorkCause(s, l, id, after)
  {
    if l.Work? {
      assert WorkerOk(s, l.worker);
      WorkChangeCauses(s, l, id);
    }
  }

  // ---------------------------------------------------------------------------------------
  // Final outcomes
  // ---------------------------------------------------------------------------------------

  predicate IsFinal(s: Status) {
    s.Succeeded? || s.RolledBack? || s.RollbackFailed?
  }

  lemma StepKeepsFinal(s: State, l: Label, id: OpId)
    requires Inv(s) && id in s.ops && IsFinal(s.ops[id].status)
    ensures id in Step(s, l).ops && Step(s, l).ops[id].status == s.ops[id].status
  {
    assert OperationOk(s, id);
    StepGrowsRank(s, l, id);
    if Step(s, l).ops[id].status != s.ops[id].status {
      StatusChangeCauses(s, l, id);
    }
  }

  /**
   SUCCEEDED, ROLLED_BACK and ROLLBACK_FAILED are absorbing in every run, although the rank
   guard alone would let SUCCEEDED and ROLLED_BACK be overtaken.
   */
  lemma {:induction false} FinalOutcomesStay(s: State, ls: seq<Label>, id: OpId)
    requires Reachable(s) && id in s.ops && IsFinal(s.ops[id].status)
    ensures id in Run(s, ls).ops && Run(s, ls).ops[id].status == s.ops[id].status
    decreases |ls|
  {
    if ls != [] {
      ReachableInv(s);
      StepKeepsFinal(s, ls[0], id);
      ReachableStep(s, ls[0]);
      FinalOutcomesStay(Step(s, ls[0]), ls[1..], id);
    }
  }

  lemma RollbackStartLeavesFailed(s: State, op: Operation, wk: Worker, w: WorkerId, c: Choice)
    requires op.status == Failed && wk.pc.RollbackStart? && (!c.dbError || c.effect)
    ensures Act(s, op, wk, w, c).0.status == RollingBack
  {}

  lemma FailedRowHasNoRollbackReport(s: State, id: OpId)
    requires Inv(s) && id in s.ops && s.ops[id].status == Failed
    ensures forall r | r in s.ops[id].results :: SqlRank(r) <= OUTCOME_RANK
  {
    assert OperationOk(s, id);
  }

  lemma FailedChangeIsRollbackStart(s: State, l: Label, id: OpId)
    requires Inv(s) && id in s.ops && s.ops[id].status == Failed && Step(s, l).ops[id].status != Failed
    ensures WorkCause(s, l, id, Step(s, l).ops[id].status)
    ensures Runs(s, l.worker, id) && s.workers[l.worker].pc.RollbackStart? && (!l.choice.dbError || l.choice.effect)
  {
    StatusChangeCauses(s, l, id);
    StepGrowsRank(s, l, id);
    FailedRowHasNoRollbackReport(s, id);
    assert OperationOk(s, id);
  }

  /** FAILED is terminal by name only: it is left exactly when the owner starts its rollback. */
  lemma FailedIsLeftOnlyByRollback(s: State, l: Label, id: OpId)
    requires Inv(s) && id in s.ops && s.ops[id].status == Failed
    ensures id in Step(s, l).ops
    ensures Step(s, l).ops[id].status != Failed
       <==> l.Work? && Runs(s, l.worker, id) && s.workers[l.worker].pc.RollbackStart?
            && (!l.choice.dbError || l.choice.effect)
    ensures Step(s, l).ops[id].status == Failed || Step(s, l).ops[id].status == RollingBack
  {
    StepKeepsKeys(s, l);
    if Step(s, l).ops[id].status != Failed {
      FailedChangeIsRollbackStart(s, l, id);
    } else if l.Work? && Runs(s, l.worker, id) && s.workers[l.worker].pc.RollbackStart?
              && (!l.choice.dbError || l.choice.effect) {
      RollbackStartLeavesFailed(s, s.ops[id], s.workers[l.worker], l.worker, l.choice);
    }
  }

  /** One handler run reports either success or failure and rollback, never both. */
  lemma ReportsAreExclusive(s: State, id: OpId)
    requires Reachable(s) && id in s.ops && Succeeded in s.ops[id].results
    ensures Failed !in s.ops[id].results && RollingBack !in s.ops[id].results
    ensures RollbackHealthChecking !in s.ops[id].results
    ensures RolledBack !in s.ops[id].results && RollbackFailed !in s.ops[id].results
    ensures s.ops[id].status in {HealthChecking, Succeeded, Failed}
  {
    ReachableInv(s);
    assert OperationOk(s, id);
  }

  /** No permutation or duplication of the results of an operation changes where they lead. */
  lemma DeliveryOrderIsIrrelevant(s: State, id: OpId, xs: seq<Status>, ys: seq<Status>)
    requires Reachable(s) && id in s.ops
    requires Elements(xs) == Elements(ys) <= s.ops[id].results
    ensures ApplyAll(s.ops[id].status, xs) == ApplyAll(s.ops[id].status, ys)
  {
    if Succeeded in s.ops[id].results {
      ReportsAreExclusive(s, id);
    }
    OrderIndependent(s.ops[id].status, xs, ys);
  }

  // ---------------------------------------------------------------------------------------
  // At most once
  // ---------------------------------------------------------------------------------------

  /** However often commands are repeated, and however many workers receive them. */
  lemma AtMostOnce(s: State, id: OpId)
    requires Reachable(s) && id in s.ops
    ensures var h := s.ops[id].past;
            h.dispatches <= 1 && h.claims <= 1 && h.applies <= h.backups <= h.claims <= h.dispatches
    ensures |s.ops[id].commands| <= 1
    ensures forall v, w :: Runs(s, v, id) && Runs(s, w, id) ==> v == w
    ensures forall w :: Runs(s, w, id) ==>
              && s.ops[id].owner == Some(w)
              && s.workers[w].command in s.ops[id].commands
              && s.workers[w].command.nodeInstance == s.workers[w].instance != ""
              && s.workers[w].nodeId == s.ops[id].nodeId
  {
    ReachableInv(s);
    assert OperationOk(s, id);
    var commands := s.ops[id].commands;
    if commands != {} {
      var c :| c in commands;
      assert commands == {c};
    }
    forall w | Runs(s, w, id)
      ensures s.ops[id].owner == Some(w) && s.workers[w].command in s.ops[id].commands
              && s.workers[w].command.nodeInstance == s.workers[w].instance != ""
              && s.workers[w].nodeId == s.ops[id].nodeId
    {
      assert WorkerOk(s, w);
    }
  }

  // ---------------------------------------------------------------------------------------
  // The sole-writer window
  // ---------------------------------------------------------------------------------------

  /** From the confirmed write of BACKUP_CREATED until the write of HEALTH_CHECKING. */
  predicate InWindow(pc: Pc) {
    || pc.BackingUp? || pc.EnteringApply? || pc.ApplyingFile? || pc.Restarting? || pc.EnteringHealth?
  }

  predicate IsStepOf(l: Label, w: WorkerId) {
    (l.Work? || l.Crash?) && l.worker == w
  }

  lemma OthersLeaveWorker(s: State, l: Label, w: WorkerId)
    requires w in s.workers && !IsStepOf(l, w) && !s.workers[w].pc.Idle?
    ensures Step(s, l).workers[w] == s.workers[w] && s.ops.Keys <= Step(s, l).ops.Keys
    ensures Step(s, l).catalog == s.catalog
  {}

  lemma OthersCannotWriteInWindow(s: State, l: Label, w: WorkerId, id: OpId)
    requires Inv(s) && Runs(s, w, id) && InWindow(s.workers[w].pc) && !IsStepOf(l, w)
    ensures id in Step(s, l).ops && Step(s, l).ops[id].status == s.ops[id].status
    ensures Step(s, l).workers[w] == s.workers[w]
  {
    assert WorkerOk(s, w) && OperationOk(s, id);
    StepKeepsKeys(s, l);
    if Step(s, l).ops[id].status != s.ops[id].status {
      StatusChangeCauses(s, l, id);
      StepGrowsRank(s, l, id);
    }
  }

  /**
   However long the window stays open, no step of entry, monitor or another worker changes
   the status, so the guards of the two writes that end its phases cannot refuse.
   */
  lemma {:induction false} SoleWriterWindow(s: State, ls: seq<Label>, w: WorkerId, id: OpId)
    requires Reachable(s) && id in s.ops && Runs(s, w, id) && InWindow(s.workers[w].pc)
    requires forall l | l in ls :: !IsStepOf(l, w)
    ensures var t := Run(s, ls);
            && id in t.ops && w in t.workers && t.workers[w] == s.workers[w]
            && t.ops[id].status == s.ops[id].status
            && (t.workers[w].pc.EnteringApply? || t.workers[w].pc.EnteringHealth? ==>
                  CanAdvance(t.ops[id].status, ActionAt(t.workers[w].pc).next))
    decreases |ls|
  {
    ReachableInv(s);
    if ls == [] {
      assert WorkerOk(s, w) && OperationOk(s, id);
    } else {
      OthersCannotWriteInWindow(s, ls[0], w, id);
      ReachableStep(s, ls[0]);
      SoleWriterWindow(Step(s, ls[0]), ls[1..], w, id);
    }
  }

  lemma RefusedIff(pc: Pc, status: Status)
    requires ActionAt(pc).Advance? && MayHold(pc, status)
    ensures !CanAdvance(status, ActionAt(pc).next) <==> pc.EnteringBackup? && status == Failed
  {}

  lemma RunningRow(s: State, w: WorkerId, id: OpId)
    requires Inv(s) && id in s.ops && Runs(s, w, id)
    ensures s.ops[id].owner == Some(w) && Active(s, s.ops[id], s.workers[w])
  {
    assert WorkerOk(s, w) && OperationOk(s, id);
  }

  /**
   The only write of a handler that the rank guard can refuse is the one to BACKUP_CREATED,
   exactly when the operation was timed out; a rollback that started is never refused.
   */
  lemma GuardRefusesOnlyTimedOut(s: State, w: WorkerId, id: OpId)
    requires Reachable(s) && id in s.ops && Writes(s, w, id)
    ensures !CanAdvance(s.ops[id].status, ActionAt(s.workers[w].pc).next)
       <==> s.workers[w].pc.EnteringBackup? && s.ops[id].status == Failed
  {
    ReachableInv(s);
    RunningRow(s, w, id);
    RefusedIff(s.workers[w].pc, s.ops[id].status);
  }

  // ---------------------------------------------------------------------------------------
  // Operations that fail early leave the host alone
  // ---------------------------------------------------------------------------------------

  /** The operation was given up before its backup began. */
  predicate FailedEarly(op: Operation) {
    SqlRank(op.status) >= OUTCOME_RANK && op.past.backups == 0
  }

  lemma ActKeepsFailedEarly(s: State, op: Operation, wk: Worker, w: WorkerId, c: Choice)
    requires Active(s, op, wk) && FailedEarly(op)
    ensures var (op', wk') := Act(s, op, wk, w, c);
            op'.past.backups == 0 && wk'.host.configs == wk.host.configs
  {}

  /** Only the worker executing an operation counts its attempts. */
  lemma BackupsCountedByOwner(s: State, l: Label, id: OpId)
    requires Inv(s) && id in s.ops && Step(s, l).ops[id].past.backups != s.ops[id].past.backups
    ensures l.Work? && Runs(s, l.worker, id) && s.ops[id].owner == Some(l.worker)
  {
    if l.Work? {
      assert WorkerOk(s, l.worker);
    }
  }

  lemma StepKeepsFailedEarly(s: State, l: Label, id: OpId)
    requires Inv(s) && id in s.ops && FailedEarly(s.ops[id])
    ensures id in Step(s, l).ops && FailedEarly(Step(s, l).ops[id])
  {
    StepGrowsRank(s, l, id);
    if Step(s, l).ops[id].past.backups != 0 {
      BackupsCountedByOwner(s, l, id);
      assert OperationOk(s, id);
      ActKeepsFailedEarly(s, s.ops[id], s.workers[l.worker], l.worker, l.choice);
    }
  }

  lemma FailedEarlyStepLeavesConfigs(s: State, l: Label, w: WorkerId, id: OpId)
    requires Inv(s) && Runs(s, w, id) && id in s.ops && FailedEarly(s.ops[id])
    ensures Step(s, l).workers[w].host.configs == s.workers[w].host.configs
  {
    assert WorkerOk(s, w) && OperationOk(s, id);
    if l.Work? && l.worker == w {
      ActKeepsFailedEarly(s, s.ops[id], s.workers[w], w, l.choice);
    }
  }

  /**
   An operation that was timed out, or failed, before BACKUP_CREATED is never backed up or
   applied later, and no step taken while executing it changes any config file.
   */
  lemma {:induction false} FailedEarlyTouchesNothing(s: State, ls: seq<Label>, id: OpId)
    requires Reachable(s) && id in s.ops && FailedEarly(s.ops[id])
    ensures id in Run(s, ls).ops
    ensures Run(s, ls).ops[id].past.backups == 0 && Run(s, ls).ops[id].past.applies == 0
    ensures forall w, l | Runs(Run(s, ls), w, id) ::
              Step(Run(s, ls), l).workers[w].host.configs == Run(s, ls).workers[w].host.configs
    decreases |ls|
  {
    ReachableInv(s);
    if ls == [] {
      assert OperationOk(s, id);
      forall w, l | Runs(s, w, id)
        ensures Step(s, l).workers[w].host.configs == s.workers[w].host.configs
      {
        FailedEarlyStepLeavesConfigs(s, l, w, id);
      }
    } else {
      StepKeepsFailedEarly(s, ls[0], id);
      ReachableStep(s, ls[0]);
      FailedEarlyTouchesNothing(Step(s, ls[0]), ls[1..], id);
    }
  }

  // ---------------------------------------------------------------------------------------
  // Success is end to end, rollback restores
  // ---------------------------------------------------------------------------------------

  lemma SuccessAct(s: State, op: Operation, wk: Worker, w: WorkerId, c: Choice)
    requires Active(s, op, wk) && Succeeded !in op.results && Succeeded in Act(s, op, wk, w, c).0.results
    ensures var h := wk.host;
            && op.upload.value.sha == s.sha(h.staged)
            && Holds(h.configs, op.service, h.staged)
            && Holds(h.restarted, op.service, h.staged)
            && Holds(h.probed, op.service, h.staged)
            && h.configs == h.before[op.service := h.staged]
            && HasHealthUrl(s, op.service)
  {}

  lemma RolledBackAct(s: State, op: Operation, wk: Worker, w: WorkerId, c: Choice)
    requires Active(s, op, wk) && ActionAt(wk.pc) == Action.Advance(RolledBack, true)
    ensures var h := wk.host;
            && op.service in h.before
            && h.configs == h.before
            && Holds(h.restarted, op.service, h.before[op.service])
            && Holds(h.probed, op.service, h.before[op.service])
            && HasHealthUrl(s, op.service)
  {}

  lemma RolledBackReportMeansRolledBack(s: State, id: OpId)
    requires Inv(s) && id in s.ops && RolledBack in s.ops[id].results
    ensures s.ops[id].status == RolledBack
  {
    assert OperationOk(s, id);
  }

  lemma ReportsComeFromOwner(s: State, l: Label, id: OpId)
    requires Inv(s) && id in s.ops && Step(s, l).ops[id].results != s.ops[id].results
    ensures l.Work? && Runs(s, l.worker, id) && s.ops[id].owner == Some(l.worker)
  {
    if l.Work? {
      assert WorkerOk(s, l.worker);
    }
  }

  /**
   The step that publishes SUCCEEDED: the config file holds contents with the digest stored at
   upload, the container was restarted on them, a later probe passed, and the other config
   files of the host are as they were found.
   */
  lemma SuccessIsEndToEnd(s: State, l: Label, id: OpId)
    requires Reachable(s) && id in s.ops
    requires Succeeded !in s.ops[id].results && Succeeded in Step(s, l).ops[id].results
    ensures l.Work? && Runs(s, l.worker, id) && s.ops[id].owner == Some(l.worker)
    ensures var op, h := s.ops[id], s.workers[l.worker].host;
            && op.upload.Some? && op.upload.value.sha == s.sha(h.staged)
            && Holds(h.configs, op.service, h.staged)
            && Holds(h.restarted, op.service, h.staged)
            && Holds(h.probed, op.service, h.staged)
            && h.configs == h.before[op.service := h.staged]
            && HasHealthUrl(s, op.service)
  {
    ReachableInv(s);
    ReportsComeFromOwner(s, l, id);
    assert OperationOk(s, id);
    SuccessAct(s, s.ops[id], s.workers[l.worker], l.worker, l.choice);
  }

  /** The step by which an operation becomes ROLLED_BACK. */
  lemma RollbackRestores(s: State, l: Label, id: OpId)
    requires Reachable(s) && id in s.ops
    requires s.ops[id].status != RolledBack && Step(s, l).ops[id].status == RolledBack
    ensures l.Work? && Runs(s, l.worker, id) && s.ops[id].owner == Some(l.worker)
    ensures var service, h := s.ops[id].service, s.workers[l.worker].host;
            && service in h.before
            && h.configs == h.before
            && Holds(h.restarted, service, h.before[service])
            && Holds(h.probed, service, h.before[service])
            && HasHealthUrl(s, service)
  {
    ReachableInv(s);
    StatusChangeCauses(s, l, id);
    assert OperationOk(s, id);
    if RolledBack in s.ops[id].results {
      RolledBackReportMeansRolledBack(s, id);
    }
    RolledBackAct(s, s.ops[id], s.workers[l.worker], l.worker, l.choice);
  }

  /** At every moment of an execution the host has all the old configs or the new one in place. */
  lemma NeverHalfDone(s: State, w: WorkerId, id: OpId)
    requires Reachable(s) && Runs(s, w, id)
    ensures id in s.ops
    ensures var h := s.workers[w].host;
            h.configs == h.before || h.configs == h.before[s.ops[id].service := h.staged]
  {
    ReachableInv(s);
    assert WorkerOk(s, w) && OperationOk(s, id);
  }

  // ---------------------------------------------------------------------------------------
  // What an operation that ends FAILED leaves behind
  // ---------------------------------------------------------------------------------------

  /** The step by which worker `w` stops executing `id`, in a status that is FAILED or can still become so. */
  predicate EndsUnfinished(s: State, l: Label, w: WorkerId, id: OpId) {
    && id in s.ops && Runs(s, w, id) && w in Step(s, l).workers && !Runs(Step(s, l), w, id)
    && id in Step(s, l).ops && !IsFinal(Step(s, l).ops[id].status)
  }

  /** Writing the old bytes again, or none for the first time, is no change. */
  lemma SameConfigIff(h: Host, service: string)
    requires WholeConfig(h, service)
    ensures h.configs == h.before <==> !h.applied || Holds(h.before, service, h.staged)
  {
    if h.applied {
      assert h.configs[service] == h.staged;
    }
  }

  lemma StoppingActKeepsHost(s: State, op: Operation, wk: Worker, w: WorkerId, c: Choice)
    requires Active(s, op, wk) && !Executing(Act(s, op, wk, w, c).1.pc)
    ensures Act(s, op, wk, w, c).1.host == wk.host
  {}

  /** A return of the handler: the new config is in place exactly after the report of success. */
  lemma ReturnLeaves(s: State, op: Operation, wk: Worker, w: WorkerId, c: Choice)
    requires Active(s, op, wk)
    requires var (op', wk') := Act(s, op, wk, w, c);
             !Executing(wk'.pc) && !IsFinal(op'.status) && !op'.past.faulted
    requires wk.command.service in wk.host.before
    ensures wk.host.applied <==> wk.pc.ReportingSucceeded?
  {
    if ActionAt(wk.pc).Advance? {
      WriteKeepsStatus(wk.pc, op.status, c, wk.host.backupPath != "");
    }
  }

  lemma EndingIsOwnStep(s: State, l: Label, w: WorkerId, id: OpId)
    requires Inv(s) && EndsUnfinished(s, l, w, id)
    ensures (l.Work? || l.Crash?) && l.worker == w && Active(s, s.ops[id], s.workers[w])
  {
    RunningRow(s, w, id);
    assert WorkerOk(s, w);
  }

  /** A crash cuts off between the old file and the new one, never inside. */
  lemma CrashKeepsWhole(s: State, wk: Worker, afterEffect: bool)
    requires FilesAt(s, wk)
    ensures var h := CrashedFiles(wk, afterEffect);
            && WholeConfig(h, wk.command.service) && h.before == wk.host.before && h.staged == wk.host.staged
            && h.applied == if afterEffect && wk.pc.ApplyingFile? then true
                            else if afterEffect && wk.pc.Restoring? then false else wk.host.applied
  {
    var service := wk.command.service;
    assert wk.pc.Restoring? ==> wk.host.configs[service := wk.host.before[service]] == wk.host.before;
  }

  lemma EndingKeepsWhole(s: State, l: Label, w: WorkerId, id: OpId)
    requires Inv(s) && EndsUnfinished(s, l, w, id)
    ensures var h, h' := s.workers[w].host, Step(s, l).workers[w].host;
            && h'.before == h.before && h'.staged == h.staged && WholeConfig(h', s.ops[id].service)
            && h'.applied == if l.Crash? && l.afterEffect && s.workers[w].pc.ApplyingFile? then true
                             else if l.Crash? && l.afterEffect && s.workers[w].pc.Restoring? then false
                             else h.applied
  {
    EndingIsOwnStep(s, l, w, id);
    var wk := s.workers[w];
    if l.Work? {
      StoppingActKeepsHost(s, s.ops[id], wk, w, l.choice);
    } else {
      CrashKeepsWhole(s, wk, l.afterEffect);
    }
  }

  /**
   FAILED does not say whether the old config is back. Whatever ended the execution, a return, a
   database error or a crash, the configs are the ones found at receipt exactly when the staged
   file is not in place or holds the old bytes.
   */
  lemma OldConfigIff(s: State, l: Label, w: WorkerId, id: OpId)
    requires Reachable(s) && EndsUnfinished(s, l, w, id)
    ensures var h := Step(s, l).workers[w].host;
            && h.before == s.workers[w].host.before
            && (h.configs == h.before <==> !h.applied || Holds(h.before, s.ops[id].service, h.staged))
  {
    ReachableInv(s);
    EndingKeepsWhole(s, l, w, id);
    SameConfigIff(Step(s, l).workers[w].host, s.ops[id].service);
  }

  /**
   Without a fault, an operation that had a config to go back to and ends FAILED, or in a
   status the monitor fails later, has left it in place exactly when the handler did not end
   by reporting success, or the staged file held the bytes that were there.
   */
  lemma FailedLeavesOldConfigIff(s: State, l: Label, w: WorkerId, id: OpId)
    requires Reachable(s) && EndsUnfinished(s, l, w, id) && !Step(s, l).ops[id].past.faulted
    requires s.ops[id].service in s.workers[w].host.before
    ensures Step(s, l).workers[w].host.configs == s.workers[w].host.before
       <==> !s.workers[w].pc.ReportingSucceeded?
            || s.workers[w].host.staged == s.workers[w].host.before[s.ops[id].service]
  {
    ReachableInv(s);
    EndingIsOwnStep(s, l, w, id);
    OldConfigIff(s, l, w, id);
    EndingKeepsWhole(s, l, w, id);
    if l.Work? {
      ReturnLeaves(s, s.ops[id], s.workers[w], w, l.choice);
    }
  }

  /**
   On a first deployment there is nothing to go back to: no rollback is ever tried, and
   whatever the ending, the new config stays exactly when Apply had put it there.
   */
  lemma FirstDeploymentIsNotUndone(s: State, l: Label, w: WorkerId, id: OpId)
    requires Reachable(s) && EndsUnfinished(s, l, w, id)
    requires s.ops[id].service !in s.workers[w].host.before
    ensures var wk, h, service := s.workers[w], Step(s, l).workers[w].host, s.ops[id].service;
            && wk.host.backupPath == "" && !RollingBackAt(wk.pc) && !AfterRestore(wk.pc)
            && (service in h.configs <==> h.applied)
            && (h.applied ==> Holds(h.configs, service, h.staged) && h.configs == h.before[service := h.staged])
            && (!h.applied ==> h.configs == h.before)
            && (h.applied <==> wk.host.applied || (l.Crash? && l.afterEffect && wk.pc.ApplyingFile?))
  {
    ReachableInv(s);
    EndingIsOwnStep(s, l, w, id);
    EndingKeepsWhole(s, l, w, id);
  }

  /**
   Endings by a crash or a database error, with a config to go back to: decided by the position,
   except on the way into a rollback or out of a failed one, where it depends on whether Apply
   or Rollback had replaced the file.
   */
  lemma FaultLeavesOldConfigIff(s: State, l: Label, w: WorkerId, id: OpId)
    requires Reachable(s) && EndsUnfinished(s, l, w, id) && Step(s, l).ops[id].past.faulted
    requires s.ops[id].service in s.workers[w].host.before
    ensures var wk, h := s.workers[w], Step(s, l).workers[w].host;
            var pc := wk.pc;
            && (h.configs == wk.host.before
                <==> !h.applied || wk.host.staged == wk.host.before[s.ops[id].service])
            && (AfterApply(pc) ==> h.applied)
            && (BeforeApply(pc) && !pc.ApplyingFile? ==> !h.applied)
            && (pc.Failing? || pc.ReportingFailed? || AfterRestore(pc) ==> !h.applied)
            && (pc.ApplyingFile? ==> (h.applied <==> l.Crash? && l.afterEffect))
            && (pc.Restoring? ==> (h.applied <==> wk.host.applied && !(l.Crash? && l.afterEffect)))
            && ((RollingBackAt(pc) && !pc.Restoring?) || pc.RollbackFailing? ==> h.applied == wk.host.applied)
  {
    ReachableInv(s);
    EndingIsOwnStep(s, l, w, id);
    OldConfigIff(s, l, w, id);
    EndingKeepsWhole(s, l, w, id);
  }

  // ---------------------------------------------------------------------------------------
  // Stranded operations
  // ---------------------------------------------------------------------------------------

  /** No worker executes `id`. */
  predicate Abandoned(s: State, id: OpId) {
    forall w | w in s.workers :: !Runs(s, w, id)
  }

  /**
   With no crash and no database error in the writes that give up, an operation nobody
   executes is pending, terminal, or in a status the monitor reaps, whatever messages were
   lost and wherever the monitor struck.
   */
  lemma NoStrandedOperation(s: State, id: OpId)
    requires Reachable(s) && id in s.ops && Abandoned(s, id) && !s.ops[id].past.faulted
    ensures s.ops[id].status == Pending || IsTerminal(s.ops[id].status) || IsReaped(s.ops[id].status)
    ensures Step(s, Monitor({id})).ops[id].status == Pending || IsTerminal(Step(s, Monitor({id})).ops[id].status)
  {
    ReachableInv(s);
    assert OperationOk(s, id);
  }

  /** An abandoned operation in a status nobody reaps. */
  predicate Stranded(s: State, id: OpId) {
    id in s.ops && Abandoned(s, id) && IsStranding(s.ops[id].status)
  }

  lemma StepKeepsUnfaulted(s: State, l: Label)
    requires forall id | id in s.ops :: !s.ops[id].past.faulted
    requires !l.Crash? && (l.Work? ==> !l.choice.dbError)
    ensures forall id | id in Step(s, l).ops :: !Step(s, l).ops[id].past.faulted
  {}

  /**
   The same without history: in a run with no crash and no database error in a worker's
   writes, nothing is ever stranded.
   */
  lemma {:induction false} FaultFreeRunsStrandNothing(s: State, ls: seq<Label>, id: OpId)
    requires Reachable(s) && forall i | i in s.ops :: !s.ops[i].past.faulted
    requires forall l | l in ls :: !l.Crash? && (l.Work? ==> !l.choice.dbError)
    ensures !Stranded(Run(s, ls), id)
    decreases |ls|
  {
    if ls == [] {
      if id in s.ops && Abandoned(s, id) {
        NoStrandedOperation(s, id);
      }
    } else {
      assert ls[0] in ls;
      StepKeepsUnfaulted(s, ls[0]);
      ReachableStep(s, ls[0]);
      FaultFreeRunsStrandNothing(Step(s, ls[0]), ls[1..], id);
    }
  }

  /** Claimed, and nobody executes it any more. */
  predicate Over(s: State, id: OpId) {
    id in s.ops && s.ops[id].owner.Some? && Abandoned(s, id)
  }

  /** A row that somebody claimed cannot be claimed again. */
  lemma NobodyTakesOver(s: State, l: Label, w: WorkerId, id: OpId)
    requires Inv(s) && Over(s, id) && w in s.workers
    ensures w in Step(s, l).workers && !Runs(Step(s, l), w, id)
  {
    StepKeepsKeys(s, l);
    assert !Runs(s, w, id);
    if l.Work? && l.worker == w {
      assert WorkerOk(s, w) && OperationOk(s, id);
    }
  }

  lemma StepKeepsOver(s: State, l: Label, id: OpId)
    requires Inv(s) && Over(s, id)
    ensures Over(Step(s, l), id)
  {
    StepKeepsKeys(s, l);
    forall w | w in Step(s, l).workers
      ensures !Runs(Step(s, l), w, id)
    {
      NobodyTakesOver(s, l, w, id);
    }
    OwnerIsKept(s, l, id);
  }

  lemma ActKeepsOwner(s: State, op: Operation, wk: Worker, w: WorkerId, c: Choice)
    requires op.status != Dispatched
    ensures Act(s, op, wk, w, c).0.owner == op.owner
  {}

  lemma OwnerIsKept(s: State, l: Label, id: OpId)
    requires Inv(s) && id in s.ops && s.ops[id].owner.Some?
    ensures id in Step(s, l).ops && Step(s, l).ops[id].owner == s.ops[id].owner
  {
    StepKeepsKeys(s, l);
    assert OperationOk(s, id);
    if l.Work? && l.worker in s.workers && s.workers[l.worker].command.op == id {
      ActKeepsOwner(s, s.ops[id], s.workers[l.worker], l.worker, l.choice);
    }
  }

  /** An execution that ended, or was cut off by a crash, is never taken up again by anybody. */
  lemma {:induction false} ExecutionIsNeverResumed(s: State, ls: seq<Label>, id: OpId)
    requires Reachable(s) && Over(s, id)
    ensures Over(Run(s, ls), id)
    decreases |ls|
  {
    if ls != [] {
      ReachableInv(s);
      StepKeepsOver(s, ls[0], id);
      ReachableStep(s, ls[0]);
      ExecutionIsNeverResumed(Step(s, ls[0]), ls[1..], id);
    }
  }

  /** How a handler's last action can strand its operation. */
  predicate StrandsAt(pc: Pc, status: Status, c: Choice) {
    && c.dbError
    && match pc
       case Failing => !c.effect && (status.BackupCreated? || status.Applying?)
       case RollbackStart => c.effect || status.BackupCreated? || status.Applying?
       case RollbackFinish | RollbackFailing => !c.effect
       case _ => false
  }

  lemma ActStrandsIff(s: State, op: Operation, wk: Worker, w: WorkerId, c: Choice)
    requires Active(s, op, wk)
    ensures var (op', wk') := Act(s, op, wk, w, c);
            !Executing(wk'.pc) && IsStranding(op'.status) <==> StrandsAt(wk.pc, op.status, c)
  {
    if ActionAt(wk.pc).Advance? {
      WriteKeepsStatus(wk.pc, op.status, c, wk.host.backupPath != "");
    }
  }

  /** The label cuts the execution of `id` off where nobody picks it up again. */
  predicate StrandingLabel(s: State, l: Label, id: OpId)
    requires id in s.ops
  {
    || (l.Work? && Runs(s, l.worker, id) && StrandsAt(s.workers[l.worker].pc, s.ops[id].status, l.choice))
    || (l.Crash? && Runs(s, l.worker, id) && IsStranding(s.ops[id].status))
  }

  lemma AbandonedAfterOwnStep(s: State, l: Label, id: OpId)
    requires Inv(s) && id in s.ops && (l.Work? || l.Crash?) && Runs(s, l.worker, id)
    ensures Abandoned(Step(s, l), id) <==> !Executing(Step(s, l).workers[l.worker].pc)
  {
    var w, s' := l.worker, Step(s, l);
    assert WorkerOk(s, w);
    assert s'.workers[w].command.op == id;
    if !Executing(s'.workers[w].pc) {
      forall v | v in s'.workers
        ensures !Runs(s', v, id)
      {
        assert WorkerOk(s, v);
      }
    } else {
      assert Runs(s', w, id);
    }
  }

  lemma OwnStepStrandsIff(s: State, l: Label, id: OpId)
    requires Inv(s) && id in s.ops && (l.Work? || l.Crash?) && Runs(s, l.worker, id)
    ensures Stranded(Step(s, l), id) <==> StrandingLabel(s, l, id)
  {
    AbandonedAfterOwnStep(s, l, id);
    if l.Work? {
      assert OperationOk(s, id) && WorkerOk(s, l.worker);
      ActStrandsIff(s, s.ops[id], s.workers[l.worker], l.worker, l.choice);
    }
  }

  lemma OthersLeaveExecution(s: State, l: Label, w: WorkerId, id: OpId)
    requires Inv(s) && Runs(s, w, id) && !((l.Work? || l.Crash?) && Runs(s, l.worker, id))
    ensures Runs(Step(s, l), w, id)
  {
    assert WorkerOk(s, w);
  }

  lemma AbandonedRowNeverStrands(s: State, l: Label, id: OpId)
    requires Inv(s) && id in s.ops && Abandoned(s, id) && !IsStranding(s.ops[id].status)
    ensures !IsStranding(Step(s, l).ops[id].status)
  {
    if Step(s, l).ops[id].status != s.ops[id].status {
      StatusChangeCauses(s, l, id);
      assert OperationOk(s, id);
    }
  }

  lemma OtherStepNeverStrands(s: State, l: Label, id: OpId)
    requires Inv(s) && id in s.ops && !Stranded(s, id)
    requires !((l.Work? || l.Crash?) && Runs(s, l.worker, id))
    ensures !Stranded(Step(s, l), id)
  {
    if Abandoned(s, id) {
      AbandonedRowNeverStrands(s, l, id);
    } else {
      var w :| w in s.workers && Runs(s, w, id);
      OthersLeaveExecution(s, l, w, id);
    }
  }

  /**
   A step strands an operation exactly when it is a crash in one of the four unreaped
   statuses, or a database error in the last write of a handler that is giving up.
   */
  lemma StrandedIff(s: State, l: Label, id: OpId)
    requires Reachable(s) && id in s.ops && !Stranded(s, id)
    ensures Stranded(Step(s, l), id) <==> StrandingLabel(s, l, id)
  {
    ReachableInv(s);
    if (l.Work? || l.Crash?) && Runs(s, l.worker, id) {
      OwnStepStrandsIff(s, l, id);
    } else {
      OtherStepNeverStrands(s, l, id);
    }
  }

  /** No FAILED report is under way that could still release the operation. */
  predicate Stuck(s: State, id: OpId) {
    Stranded(s, id) && (Failed in s.ops[id].results ==> SqlRank(s.ops[id].status) > OUTCOME_RANK)
  }

  lemma StepKeepsStuck(s: State, l: Label, id: OpId)
    requires Inv(s) && Stuck(s, id)
    ensures Stuck(Step(s, l), id)
  {
    assert OperationOk(s, id);
    StepGrowsRank(s, l, id);
    if Step(s, l).ops[id].status != s.ops[id].status {
      StatusChangeCauses(s, l, id);
    }
  }

  lemma {:induction false} RunKeepsStuck(s: State, ls: seq<Label>, id: OpId)
    requires Inv(s) && Stuck(s, id)
    ensures Stuck(Run(s, ls), id)
    decreases |ls|
  {
    if ls != [] {
      StepKeepsStuck(s, ls[0], id);
      StepKeepsInv(s, ls[0]);
      RunKeepsStuck(Step(s, ls[0]), ls[1..], id);
    }
  }

  lemma FailedReportReleases(s: State, id: OpId) returns (ls: seq<Label>)
    requires Inv(s) && Stranded(s, id) && !Stuck(s, id)
    ensures !Stranded(Run(s, ls), id)
  {
    assert OperationOk(s, id);
    var deliver := DeliverResult(id, Failed, Choice(false, false, true, true, true, [], ""));
    ls := [deliver];
    var t := Step(s, deliver);
    assert Run(t, []) == t && ls[1..] == [];
    assert t.ops[id].status == Failed;
  }

  /**
   Which stranded operations stay so under every schedule, the monitor's ticks included:
   exactly those no FAILED report can release.
   */
  lemma StuckForeverIff(s: State, id: OpId)
    requires Reachable(s) && Stranded(s, id)
    ensures (forall ls :: Stranded(Run(s, ls), id)) <==> Stuck(s, id)
  {
    ReachableInv(s);
    if Stuck(s, id) {
      forall ls
        ensures Stranded(Run(s, ls), id)
      {
        RunKeepsStuck(s, ls, id);
      }
    } else {
      var ls := FailedReportReleases(s, id);
      assert !Stranded(Run(s, ls), id);
    }
  }

  // ---------------------------------------------------------------------------------------
  // FAILED
  // ---------------------------------------------------------------------------------------

  predicate FailedForGood(s: State, id: OpId) {
    id in s.ops && s.ops[id].status == Failed && Abandoned(s, id)
  }

  lemma StepKeepsFailedForGood(s: State, l: Label, id: OpId)
    requires Inv(s) && FailedForGood(s, id)
    ensures FailedForGood(Step(s, l), id)
  {
    FailedIsLeftOnlyByRollback(s, l, id);
    var s' := Step(s, l);
    forall w | w in s'.workers
      ensures !Runs(s', w, id)
    {
      assert WorkerOk(s, w);
    }
  }

  /** Once nobody executes a FAILED operation the documentation is right: FAILED is terminal. */
  lemma {:induction false} AbandonedFailureIsFinal(s: State, ls: seq<Label>, id: OpId)
    requires Reachable(s) && FailedForGood(s, id)
    ensures FailedForGood(Run(s, ls), id)
    decreases |ls|
  {
    if ls != [] {
      ReachableInv(s);
      StepKeepsFailedForGood(s, ls[0], id);
      ReachableStep(s, ls[0]);
      AbandonedFailureIsFinal(Step(s, ls[0]), ls[1..], id);
    }
  }

  /** The handler can still reach the start of a rollback. */
  predicate OnTheWayToRollback(wk: Worker) {
    || wk.pc.RollbackMarkFailed? || wk.pc.RollbackReportFailed? || wk.pc.RollbackStart?
    || (wk.pc.CheckingHealth? && wk.host.backupPath != "")
  }

  predicate RollbackAhead(s: State, id: OpId) {
    exists w :: w in s.workers && Runs(s, w, id) && OnTheWayToRollback(s.workers[w])
  }

  lemma ActAwayFromRollback(s: State, op: Operation, wk: Worker, w: WorkerId, c: Choice)
    requires Active(s, op, wk) && op.status == Failed && !OnTheWayToRollback(wk)
    ensures !OnTheWayToRollback(Act(s, op, wk, w, c).1)
  {}

  lemma StepKeepsRollbackAway(s: State, l: Label, id: OpId, w: WorkerId)
    requires Inv(s) && id in s.ops && s.ops[id].status == Failed && !RollbackAhead(s, id)
    requires w in s.workers && Runs(Step(s, l), w, id)
    ensures !OnTheWayToRollback(Step(s, l).workers[w])
  {
    if l.Work? && l.worker == w {
      assert WorkerOk(s, w);
      if Runs(s, w, id) {
        RunningRow(s, w, id);
        ActAwayFromRollback(s, s.ops[id], s.workers[w], w, l.choice);
      }
    }
  }

  lemma StepKeepsFailed(s: State, l: Label, id: OpId)
    requires Inv(s) && id in s.ops && s.ops[id].status == Failed && !RollbackAhead(s, id)
    ensures id in Step(s, l).ops && Step(s, l).ops[id].status == Failed && !RollbackAhead(Step(s, l), id)
  {
    FailedIsLeftOnlyByRollback(s, l, id);
    StepKeepsKeys(s, l);
    var t := Step(s, l);
    forall w | w in t.workers && Runs(t, w, id)
      ensures !OnTheWayToRollback(t.workers[w])
    {
      StepKeepsRollbackAway(s, l, id, w);
    }
  }

  lemma {:induction false} RunKeepsFailed(s: State, ls: seq<Label>, id: OpId)
    requires Inv(s) && id in s.ops && s.ops[id].status == Failed && !RollbackAhead(s, id)
    ensures id in Run(s, ls).ops && Run(s, ls).ops[id].status == Failed
    decreases |ls|
  {
    if ls != [] {
      StepKeepsFailed(s, ls[0], id);
      StepKeepsInv(s, ls[0]);
      RunKeepsFailed(Step(s, ls[0]), ls[1..], id);
    }
  }

  function StepsToRollback(pc: Pc): nat {
    match pc
    case CheckingHealth => 3
    case RollbackMarkFailed => 2
    case RollbackReportFailed => 1
    case _ => 0
  }

  /** Writes land, calls fail. */
  const REFUSED := Choice(false, false, true, false, false, [], "")

  lemma ActTowardsRollback(s: State, op: Operation, wk: Worker, w: WorkerId)
    requires Active(s, op, wk) && op.status == Failed && OnTheWayToRollback(wk)
    ensures var (op', wk') := Act(s, op, wk, w, REFUSED);
            && wk'.command == wk.command
            && if wk.pc.RollbackStart? then op'.status == RollingBack
               else op'.status == Failed && Executing(wk'.pc) && OnTheWayToRollback(wk')
                    && StepsToRollback(wk'.pc) < StepsToRollback(wk.pc)
  {}

  lemma {:induction false} RollbackCanHappen(s: State, w: WorkerId, id: OpId) returns (ls: seq<Label>)
    requires Inv(s) && id in s.ops && s.ops[id].status == Failed
    requires Runs(s, w, id) && OnTheWayToRollback(s.workers[w])
    ensures id in Run(s, ls).ops && Run(s, ls).ops[id].status != Failed
    decreases StepsToRollback(s.workers[w].pc)
  {
    RunningRow(s, w, id);
    ActTowardsRollback(s, s.ops[id], s.workers[w], w);
    var l := Work(w, REFUSED);
    var t := Step(s, l);
    if s.workers[w].pc.RollbackStart? {
      ls := [l];
      assert ls[1..] == [] && Run(t, []) == t;
    } else {
      StepKeepsInv(s, l);
      var rest := RollbackCanHappen(t, w, id);
      ls := [l] + rest;
      assert ls[1..] == rest;
    }
  }

  /**
   When FAILED really is terminal: it stays under every schedule if and only if no worker is
   on its way from a failed or still running health check into a rollback.
   */
  lemma FailedIsFinalIff(s: State, id: OpId)
    requires Reachable(s) && id in s.ops && s.ops[id].status == Failed
    ensures (forall ls :: id in Run(s, ls).ops && Run(s, ls).ops[id].status == Failed) <==> !RollbackAhead(s, id)
  {
    ReachableInv(s);
    if RollbackAhead(s, id) {
      var w :| w in s.workers && Runs(s, w, id) && OnTheWayToRollback(s.workers[w]);
      var ls := RollbackCanHappen(s, w, id);
      assert Run(s, ls).ops[id].status != Failed;
    } else {
      forall ls
        ensures id in Run(s, ls).ops && Run(s, ls).ops[id].status == Failed
      {
        RunKeepsFailed(s, ls, id);
      }
    }
  }
}
