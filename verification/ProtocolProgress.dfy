/**
 What the protocol does when it can: a delivered result counts, an online node gets the
 command, and an execution that nobody times out ends as the outcomes of its calls say.
 */
module ProtocolProgress {
  import opened Common
  import opened Operations
  import opened Protocol
  import opened ProtocolInvariant
  import opened ProtocolTheorems
  import NodeRegistry

  // ---------------------------------------------------------------------------------------
  // Results
  // ---------------------------------------------------------------------------------------

  /** A result that reaches the table is not thrown away: the row ends at its rank or above. */
  lemma DeliveryLands(s: State, id: OpId, r: Status, c: Choice)
    requires id in s.ops && r in s.ops[id].results && !c.dbError && !r.Unknown?
    ensures var before, after := s.ops[id].status, Step(s, DeliverResult(id, r, c)).ops[id].status;
            && SqlRank(after) >= SqlRank(r)
            && (SqlRank(before) < SqlRank(r) ==> after == r)
            && (SqlRank(before) >= SqlRank(r) ==> after == before)
  {
    RanksAgree(r);
  }

  /** Only results that the handler names are ever published. */
  lemma ResultsAreKnown(s: State, id: OpId)
    requires Inv(s) && id in s.ops
    ensures forall r | r in s.ops[id].results :: !r.Unknown?
  {
    assert OperationOk(s, id);
  }

  /** The schedule only delivers results of `id`, and the database answers. */
  predicate Delivers(s: State, ls: seq<Label>, id: OpId)
    requires id in s.ops
  {
    forall l | l in ls :: l.DeliverResult? && l.id == id && l.status in s.ops[id].results && !l.choice.dbError
  }

  function Delivered(ls: seq<Label>): seq<Status>
    requires forall l | l in ls :: l.DeliverResult?
    decreases |ls|
  {
    if ls == [] then [] else [ls[0].status] + Delivered(ls[1..])
  }

  lemma {:induction false} DeliveriesFold(s: State, ls: seq<Label>, id: OpId)
    requires Reachable(s) && id in s.ops && Delivers(s, ls, id)
    ensures id in Run(s, ls).ops && Run(s, ls).ops[id].status == ApplyAll(s.ops[id].status, Delivered(ls))
    decreases |ls|
  {
    if ls != [] {
      var l := ls[0];
      ReachableInv(s);
      ResultsAreKnown(s, id);
      DeliveryLands(s, id, l.status, l.choice);
      ReachableStep(s, l);
      var t := Step(s, l);
      assert t.ops[id].results == s.ops[id].results;
      assert t.ops[id].status == Operations.Advance(s.ops[id].status, l.status);
      DeliveriesFold(t, ls[1..], id);
      assert Delivered(ls)[1..] == Delivered(ls[1..]);
    }
  }

  lemma {:induction false} DeliveredExactly(ls: seq<Label>)
    requires forall l | l in ls :: l.DeliverResult?
    ensures Elements(Delivered(ls)) == set l | l in ls :: l.status
    decreases |ls|
  {
    if ls != [] {
      DeliveredExactly(ls[1..]);
      assert ls == [ls[0]] + ls[1..];
      forall r
        ensures r in Delivered(ls) <==> r in (set l | l in ls :: l.status)
      {
        assert r in Delivered(ls) <==> r == ls[0].status || r in Elements(Delivered(ls[1..]));
      }
    }
  }

  /** However often and in whatever order results are delivered, the row ends at the highest of them or above. */
  lemma DeliveriesEndHighest(s: State, ls: seq<Label>, id: OpId)
    requires Reachable(s) && id in s.ops && Delivers(s, ls, id)
    ensures id in Run(s, ls).ops
    ensures var after := Run(s, ls).ops[id].status;
            && (forall l | l in ls :: SqlRank(after) >= SqlRank(l.status))
            && (after == s.ops[id].status || exists l :: l in ls && l.status == after)
  {
    DeliveriesFold(s, ls, id);
    DeliveredExactly(ls);
    var after, rs := Run(s, ls).ops[id].status, Delivered(ls);
    ApplyAllIsMaximal(s.ops[id].status, rs);
    assert after in rs ==> after in Elements(rs);
    forall l | l in ls
      ensures SqlRank(after) >= SqlRank(l.status)
    {
      assert l.status in (set m | m in ls :: m.status);
      assert l.status in Elements(rs);
    }
  }

  /** Two schedules that deliver the same results of a real run lead to the same status. */
  lemma DeliverySchedulesAgree(s: State, xs: seq<Label>, ys: seq<Label>, id: OpId)
    requires Reachable(s) && id in s.ops && Delivers(s, xs, id) && Delivers(s, ys, id)
    requires (set l | l in xs :: l.status) == (set l | l in ys :: l.status)
    ensures id in Run(s, xs).ops && id in Run(s, ys).ops && Run(s, xs).ops[id].status == Run(s, ys).ops[id].status
  {
    DeliveriesFold(s, xs, id);
    DeliveriesFold(s, ys, id);
    DeliveredExactly(xs);
    DeliveredExactly(ys);
    DeliveryOrderIsIrrelevant(s, id, Delivered(xs), Delivered(ys));
  }

  // ---------------------------------------------------------------------------------------
  // Dispatch
  // ---------------------------------------------------------------------------------------

  /** The label reads an ONLINE row of the registry for `id`. */
  predicate ReadsOnline(l: Label, id: OpId) {
    l.ReadNode? && l.id == id && l.node.Some? && l.node.value.status == NodeRegistry.Online
  }

  lemma ActLeavesEntry(s: State, op: Operation, wk: Worker, w: WorkerId, c: Choice)
    ensures var op' := Act(s, op, wk, w, c).0;
            op'.entry == op.entry && op'.commands == op.commands && op'.past.dispatches == op.past.dispatches
  {}

  /** The hook goes on to dispatch exactly when it has found the node ONLINE, and keeps that row's instance. */
  lemma DispatchingIff(s: State, l: Label, id: OpId)
    requires id in s.ops && !s.ops[id].entry.Dispatching?
    ensures id in Step(s, l).ops
    ensures var after := Step(s, l).ops[id].entry;
            && (after.Dispatching? <==> s.ops[id].entry.ReadingNode? && ReadsOnline(l, id))
            && (after.Dispatching? ==> after.instance == l.node.value.instance)
            && (l.ReadNode? && l.id == id && s.ops[id].entry.ReadingNode? && !ReadsOnline(l, id) ==> after.DispatchEnded?)
  {
    StepKeepsKeys(s, l);
    if l.Work? && l.worker in s.workers && s.workers[l.worker].command.op == id {
      ActLeavesEntry(s, s.ops[id], s.workers[l.worker], l.worker, l.choice);
    }
  }

  /** Some label of the schedule found the node ONLINE with this instance. */
  predicate FoundOnline(ls: seq<Label>, id: OpId, instance: string) {
    exists k :: 0 <= k < |ls| && ReadsOnline(ls[k], id) && ls[k].node.value.instance == instance
  }

  /** What the hook holds of the node, and what it published, comes from such a row. */
  ghost predicate FromRegistry(op: Operation, ls: seq<Label>, id: OpId) {
    && (op.entry.Dispatching? || op.entry.PublishingCommand? ==> FoundOnline(ls, id, op.entry.instance))
    && (forall c | c in op.commands :: FoundOnline(ls, id, c.nodeInstance))
    && (op.past.dispatches > 0 ==> exists instance :: FoundOnline(ls, id, instance))
  }

  lemma FoundOnlineGrows(ls: seq<Label>, l: Label, id: OpId, instance: string)
    requires FoundOnline(ls, id, instance)
    ensures FoundOnline(ls + [l], id, instance)
  {
    var k :| 0 <= k < |ls| && ReadsOnline(ls[k], id) && ls[k].node.value.instance == instance;
    assert (ls + [l])[k] == ls[k];
  }

  lemma FromRegistryGrows(op: Operation, ls: seq<Label>, l: Label, id: OpId)
    requires FromRegistry(op, ls, id)
    ensures FromRegistry(op, ls + [l], id)
  {
    forall instance | FoundOnline(ls, id, instance)
      ensures FoundOnline(ls + [l], id, instance)
    {
      FoundOnlineGrows(ls, l, id, instance);
    }
  }

  lemma EntryStepFromRegistry(s: State, op: Operation, ls: seq<Label>, l: Label, id: OpId)
    requires FromRegistry(op, ls + [l], id) && (l.ReadNode? ==> l.id == id)
    ensures FromRegistry(EntryStep(s, op, l), ls + [l], id)
  {
    if ReadsOnline(l, id) {
      assert (ls + [l])[|ls|] == l;
      assert FoundOnline(ls + [l], id, l.node.value.instance);
    }
  }

  lemma StepFromRegistry(s: State, ls: seq<Label>, l: Label, id: OpId)
    requires id in s.ops && FromRegistry(s.ops[id], ls, id)
    ensures id in Step(s, l).ops && FromRegistry(Step(s, l).ops[id], ls + [l], id)
  {
    StepKeepsKeys(s, l);
    FromRegistryGrows(s.ops[id], ls, l, id);
    match l
    case Work(w, c) =>
      if w in s.workers && s.workers[w].command.op == id {
        ActLeavesEntry(s, s.ops[id], s.workers[w], w, c);
      }
    case CreateOperation(_, _, _) =>
    case Monitor(_) =>
    case Receive(_, _, _) =>
    case Crash(_, _, _) =>
    case _ =>
      if l.id == id {
        EntryStepFromRegistry(s, s.ops[id], ls, l, id);
      }
  }

  /**
   In every run, a command names the instance of a row that was ONLINE when the hook read it,
   and no operation is dispatched whose node was never found ONLINE.
   */
  lemma {:induction false} CommandsGoToOnlineNodes(start: State, ls: seq<Label>, id: OpId)
    requires Initial(start) && id in Run(start, ls).ops
    ensures FromRegistry(Run(start, ls).ops[id], ls, id)
    decreases |ls|
  {
    if ls != [] {
      var n := |ls| - 1;
      var s := Run(start, ls[..n]);
      assert ls == ls[..n] + [ls[n]];
      RunAppend(start, ls[..n], [ls[n]]);
      assert Run(Step(s, ls[n]), []) == Step(s, ls[n]) && [ls[n]][1..] == [];
      if id in s.ops {
        CommandsGoToOnlineNodes(start, ls[..n], id);
        StepFromRegistry(s, ls[..n], ls[n], id);
      }
    }
  }

  // ---------------------------------------------------------------------------------------
  // Executions end
  // ---------------------------------------------------------------------------------------

  /** A bound on the handler's remaining actions. */
  function StepsLeft(pc: Pc): nat {
    match pc
    case Idle => 0
    case Claiming => 22
    case ReportingRunning => 21
    case Downloading => 20
    case ReportingTransferred => 19
    case EnteringBackup => 18
    case BackingUp => 17
    case EnteringApply => 16
    case ApplyingFile => 15
    case Restarting => 14
    case EnteringHealth => 13
    case CheckingHealth => 12
    case ReportingSucceeded => 1
    case Failing => 2
    case ReportingFailed => 1
    case RollbackMarkFailed => 11
    case RollbackReportFailed => 10
    case RollbackStart => 9
    case RollbackReportStart => 8
    case Restoring => 7
    case RollbackRestarting => 6
    case RollbackEnterHealth => 5
    case RollbackReportHealth => 4
    case RollbackCheckingHealth => 3
    case RollbackFinish => 2
    case RollbackReportFinished => 1
    case RollbackFailing => 2
    case RollbackReportFailing => 1
  }

  lemma MovesForward(pc: Pc, ok: bool, backedUp: bool)
    requires !pc.Idle?
    ensures StepsLeft(Goto(pc, ok, backedUp)) < StepsLeft(pc)
  {}

  /** How many actions of worker `w` the schedule holds. */
  function OwnSteps(ls: seq<Label>, w: WorkerId): nat
    decreases |ls|
  {
    if ls == [] then 0 else (if ls[0].Work? && ls[0].worker == w then 1 else 0) + OwnSteps(ls[1..], w)
  }

  lemma OwnStepMovesForward(s: State, w: WorkerId, c: Choice, id: OpId)
    requires Inv(s) && Runs(s, w, id)
    ensures w in Step(s, Work(w, c)).workers
    ensures StepsLeft(Step(s, Work(w, c)).workers[w].pc) < StepsLeft(s.workers[w].pc)
  {
    assert WorkerOk(s, w);
    MovesForward(s.workers[w].pc, Perform(s, s.ops[id], s.workers[w], w, c).ok,
                 Perform(s, s.ops[id], s.workers[w], w, c).host.backupPath != "");
  }

  /** Other labels leave an executing worker as it is, except a crash, after which it runs nothing. */
  lemma OtherStepKeepsWorker(s: State, l: Label, w: WorkerId, id: OpId)
    requires Runs(s, w, id) && !(l.Work? && l.worker == w)
    ensures w in Step(s, l).workers
    ensures if l.Crash? && l.worker == w then !Runs(Step(s, l), w, id) else Step(s, l).workers[w] == s.workers[w]
  {
    if !(l.Crash? && l.worker == w) {
      OthersLeaveWorker(s, l, w);
    }
  }

  lemma EndedIsOver(s: State, l: Label, w: WorkerId, id: OpId)
    requires Inv(s) && Runs(s, w, id) && !Runs(Step(s, l), w, id)
    ensures Over(Step(s, l), id)
  {
    assert WorkerOk(s, w);
    RunningRow(s, w, id);
    StepKeepsInv(s, l);
    StepKeepsKeys(s, l);
    OwnerIsKept(s, l, id);
    forall v | v in Step(s, l).workers
      ensures !Runs(Step(s, l), v, id)
    {
      assert WorkerOk(Step(s, l), v);
    }
  }

  /** One step of anybody: the execution goes on, nearer to its end if it was its own step, or is over. */
  lemma StepTowardsEnd(s: State, l: Label, w: WorkerId, id: OpId)
    requires Inv(s) && Runs(s, w, id)
    ensures var t := Step(s, l);
            if Runs(t, w, id) then StepsLeft(t.workers[w].pc) + OwnSteps([l], w) <= StepsLeft(s.workers[w].pc)
            else Over(t, id)
  {
    assert OwnSteps([l][1..], w) == 0;
    if !Runs(Step(s, l), w, id) {
      EndedIsOver(s, l, w, id);
    } else if l.Work? && l.worker == w {
      OwnStepMovesForward(s, w, l.choice, id);
    } else {
      OtherStepKeepsWorker(s, l, w, id);
    }
  }

  lemma {:induction false} ExecutionEndsWithin(s: State, ls: seq<Label>, w: WorkerId, id: OpId)
    requires Reachable(s) && Runs(s, w, id) && OwnSteps(ls, w) >= StepsLeft(s.workers[w].pc)
    ensures Over(Run(s, ls), id)
    decreases |ls|
  {
    if ls != [] {
      ReachableInv(s);
      StepTowardsEnd(s, ls[0], w, id);
      ReachableStep(s, ls[0]);
      assert OwnSteps([ls[0]][1..], w) == 0;
      if Runs(Step(s, ls[0]), w, id) {
        ExecutionEndsWithin(Step(s, ls[0]), ls[1..], w, id);
      } else {
        ExecutionIsNeverResumed(Step(s, ls[0]), ls[1..], id);
      }
    }
  }

  /** No execution takes more than 21 actions of its worker, whatever happens in between. */
  lemma ExecutionEnds(s: State, ls: seq<Label>, w: WorkerId, id: OpId)
    requires Reachable(s) && Runs(s, w, id) && OwnSteps(ls, w) >= 21
    ensures Over(Run(s, ls), id)
  {
    ExecutionEndsWithin(s, ls, w, id);
  }

  /** Progress that cannot be published ends the execution at once, with row and host as they were. */
  lemma ProgressMustBePublished(s: State, w: WorkerId, id: OpId, c: Choice)
    requires Reachable(s) && id in s.ops && Runs(s, w, id)
    requires s.workers[w].pc.ReportingRunning? || s.workers[w].pc.ReportingTransferred?
    ensures var t := Step(s, Work(w, c));
            && (Runs(t, w, id) <==> c.ok)
            && t.workers[w].host == s.workers[w].host && t.ops[id].status == s.ops[id].status
            && (!c.ok ==> Over(t, id))
  {
    ReachableInv(s);
    RunningRow(s, w, id);
    if !c.ok {
      EndedIsOver(s, Work(w, c), w, id);
    }
  }

  // ---------------------------------------------------------------------------------------
  // How executions end
  // ---------------------------------------------------------------------------------------

  /** What the calls of an execution return: the environment's part of its outcome. */
  datatype Outcomes = Outcomes(
    download: bool, backup: bool, apply: bool, restart: bool, probe: bool,
    rollback: bool, rollbackRestart: bool, rollbackProbe: bool,
    report: bool)  // the final report leaves

  /**
   How an update ends: `managed` says that the service is known, `url` that it has a health URL
   and `had` that there was a config before.
   */
  function Outcome(o: Outcomes, managed: bool, url: bool, had: bool): Status {
    if !o.download || !managed || !o.backup then Failed
    else if o.apply && o.restart && o.probe && url then Succeeded
    else if !had then Failed
    else if o.rollback && o.rollbackRestart && o.rollbackProbe && url then RolledBack
    else RollbackFailed
  }

  // The same from a position on, the earlier calls having returned as the position implies

  function OpenReprobe(o: Outcomes, url: bool): Status {
    if o.rollbackProbe && url then RolledBack else RollbackFailed
  }

  function OpenRestore(o: Outcomes, url: bool): Status {
    if o.rollback && o.rollbackRestart then OpenReprobe(o, url) else RollbackFailed
  }

  function OpenFailure(o: Outcomes, url: bool, had: bool): Status {
    if had then OpenRestore(o, url) else Failed
  }

  function OpenProbe(o: Outcomes, url: bool, had: bool): Status {
    if o.probe && url then Succeeded else OpenFailure(o, url, had)
  }

  function OpenRestart(o: Outcomes, url: bool, had: bool): Status {
    if o.restart then OpenProbe(o, url, had) else OpenFailure(o, url, had)
  }

  function OpenApply(o: Outcomes, url: bool, had: bool): Status {
    if o.apply then OpenRestart(o, url, had) else OpenFailure(o, url, had)
  }

  function OpenBackup(o: Outcomes, url: bool, had: bool): Status {
    if o.backup then OpenApply(o, url, had) else Failed
  }

  function OutcomeAt(pc: Pc, o: Outcomes, managed: bool, url: bool, had: bool): Status {
    match pc
    case ReportingTransferred | EnteringBackup => if managed then OpenBackup(o, url, had) else Failed
    case BackingUp => OpenBackup(o, url, had)
    case EnteringApply | ApplyingFile => OpenApply(o, url, had)
    case Restarting => OpenRestart(o, url, had)
    case EnteringHealth | CheckingHealth => OpenProbe(o, url, had)
    case ReportingSucceeded => Succeeded
    case Failing | ReportingFailed => Failed
    case RollbackMarkFailed | RollbackReportFailed | RollbackStart | RollbackReportStart | Restoring => OpenRestore(o, url)
    case RollbackRestarting => if o.rollbackRestart then OpenReprobe(o, url) else RollbackFailed
    case RollbackEnterHealth | RollbackReportHealth | RollbackCheckingHealth => OpenReprobe(o, url)
    case RollbackFinish | RollbackReportFinished => RolledBack
    case RollbackFailing | RollbackReportFailing => RollbackFailed
    case _ => if o.download && managed then OpenBackup(o, url, had) else Failed
  }

  /** What the call at a position returns, apart from what the service and the files decide. */
  predicate CallOk(pc: Pc, o: Outcomes) {
    match pc
    case Downloading => o.download
    case BackingUp => o.backup
    case ApplyingFile => o.apply
    case Restarting => o.restart
    case CheckingHealth => o.probe
    case Restoring => o.rollback
    case RollbackRestarting => o.rollbackRestart
    case RollbackCheckingHealth => o.rollbackProbe
    case ReportingSucceeded | ReportingFailed | RollbackReportFinished | RollbackReportFailing => o.report
    case _ => true
  }

  /** The handler goes on whatever the call returns: notes on the way into and through a rollback. */
  predicate IsIgnored(pc: Pc) {
    || pc.RollbackMarkFailed? || pc.RollbackReportFailed? || pc.RollbackReportStart?
    || pc.RollbackEnterHealth? || pc.RollbackReportHealth?
  }

  /** An action as `o` says; the database answers, progress is published, a download brings what the command names. */
  predicate Agrees(s: State, wk: Worker, c: Choice, o: Outcomes) {
    && (IsIgnored(wk.pc) || (!c.dbError && c.ok == CallOk(wk.pc, o)))
    && (wk.pc.Downloading? && o.download ==> |c.bytes| == wk.command.size && s.sha(c.bytes) == wk.command.sha)
  }

  /** The monitor strikes a row that it still can hurt: not one whose rollback has begun. */
  predicate TimesOut(s: State, l: Label, w: WorkerId, id: OpId)
    requires w in s.workers && id in s.ops
  {
    l.Monitor? && id in l.expired && IsReaped(s.ops[id].status) && !(Runs(s, w, id) && RollingBackAt(s.workers[w].pc))
  }

  /** The step disturbs the execution of `id` by `w` in no way that `o` does not say. */
  predicate Orderly(s: State, l: Label, w: WorkerId, id: OpId, o: Outcomes)
    requires w in s.workers && id in s.ops
  {
    && !TimesOut(s, l, w, id)
    && (Runs(s, w, id) && l.Crash? ==> l.worker != w)
    && (Runs(s, w, id) && l.Work? && l.worker == w ==> Agrees(s, s.workers[w], l.choice, o))
  }

  predicate OrderlyRun(s: State, ls: seq<Label>, w: WorkerId, id: OpId, o: Outcomes)
    decreases |ls|
  {
    w in s.workers && id in s.ops && (ls != [] ==> Orderly(s, ls[0], w, id, o) && OrderlyRun(Step(s, ls[0]), ls[1..], w, id, o))
  }

  /** Nobody has timed the row out before the handler could fail it itself. */
  predicate OnTime(pc: Pc, status: Status) {
    status.Failed? ==>
      pc.ReportingFailed? || pc.RollbackMarkFailed? || pc.RollbackReportFailed? || pc.RollbackStart?
  }

  function OpenAt(s: State, wk: Worker, o: Outcomes): Status {
    var service := wk.command.service;
    OutcomeAt(wk.pc, o, service in s.catalog, HasHealthUrl(s, service), service in wk.host.before)
  }

  /** The row holds `v`, or will when SUCCEEDED is delivered; `published` says that `v` was reported. */
  predicate Settled(op: Operation, v: Status, published: bool) {
    && (published ==> v in op.results)
    && (op.status == v || (v.Succeeded? && op.status.HealthChecking?
                           && forall r | r in op.results :: !r.Failed? && SqlRank(r) <= OUTCOME_RANK))
  }

  /** What the action at `pc` returns when all goes as `o` says. */
  predicate Returns(pc: Pc, o: Outcomes, managed: bool, url: bool, ok: bool) {
    match pc
    case EnteringBackup => ok == managed
    case RollbackMarkFailed | RollbackReportFailed | RollbackReportStart | RollbackEnterHealth | RollbackReportHealth => true
    case CheckingHealth => ok == (o.probe && url)
    case RollbackCheckingHealth => ok == (o.rollbackProbe && url)
    case _ => ok == CallOk(pc, o)
  }

  /** Positions from which the handler asks whether it has a backup. */
  predicate MayNeedBackup(pc: Pc) {
    pc.EnteringApply? || pc.ApplyingFile? || AfterApply(pc)
  }

  lemma DownloadKeepsOutcome(ok: bool, backedUp: bool, o: Outcomes, managed: bool, url: bool, had: bool)
    requires Returns(Downloading, o, managed, url, ok)
    ensures OutcomeAt(Goto(Downloading, ok, backedUp), o, managed, url, had) == OutcomeAt(Downloading, o, managed, url, had)
  {}

  lemma BackupKeepsOutcome(ok: bool, backedUp: bool, o: Outcomes, managed: bool, url: bool, had: bool)
    requires Returns(BackingUp, o, managed, url, ok)
    ensures OutcomeAt(Goto(BackingUp, ok, backedUp), o, managed, url, had) == OutcomeAt(BackingUp, o, managed, url, had)
  {}

  lemma ApplyKeepsOutcome(ok: bool, o: Outcomes, managed: bool, url: bool, had: bool)
    requires Returns(ApplyingFile, o, managed, url, ok)
    ensures OutcomeAt(Goto(ApplyingFile, ok, had), o, managed, url, had) == OutcomeAt(ApplyingFile, o, managed, url, had)
  {}

  lemma RestartKeepsOutcome(ok: bool, o: Outcomes, managed: bool, url: bool, had: bool)
    requires Returns(Restarting, o, managed, url, ok)
    ensures OutcomeAt(Goto(Restarting, ok, had), o, managed, url, had) == OutcomeAt(Restarting, o, managed, url, had)
  {}

  lemma ProbeKeepsOutcome(ok: bool, o: Outcomes, managed: bool, url: bool, had: bool)
    requires Returns(CheckingHealth, o, managed, url, ok)
    ensures OutcomeAt(Goto(CheckingHealth, ok, had), o, managed, url, had) == OutcomeAt(CheckingHealth, o, managed, url, had)
  {}

  lemma RestoreKeepsOutcome(ok: bool, backedUp: bool, o: Outcomes, managed: bool, url: bool, had: bool)
    requires Returns(Restoring, o, managed, url, ok)
    ensures OutcomeAt(Goto(Restoring, ok, backedUp), o, managed, url, had) == OutcomeAt(Restoring, o, managed, url, had)
  {}

  lemma RollbackRestartKeepsOutcome(ok: bool, backedUp: bool, o: Outcomes, managed: bool, url: bool, had: bool)
    requires Returns(RollbackRestarting, o, managed, url, ok)
    ensures OutcomeAt(Goto(RollbackRestarting, ok, backedUp), o, managed, url, had) == OutcomeAt(RollbackRestarting, o, managed, url, had)
  {}

  lemma RollbackProbeKeepsOutcome(ok: bool, backedUp: bool, o: Outcomes, managed: bool, url: bool, had: bool)
    requires Returns(RollbackCheckingHealth, o, managed, url, ok)
    ensures OutcomeAt(Goto(RollbackCheckingHealth, ok, backedUp), o, managed, url, had) == OutcomeAt(RollbackCheckingHealth, o, managed, url, had)
  {}

  /** Every call on the host leads to a position with the same outcome still open. */
  lemma HostKeepsOutcome(pc: Pc, ok: bool, backedUp: bool, o: Outcomes, managed: bool, url: bool, had: bool)
    requires Executing(pc) && ActionAt(pc).OnHost? && Returns(pc, o, managed, url, ok)
    requires MayNeedBackup(pc) ==> backedUp == had
    ensures OutcomeAt(Goto(pc, ok, backedUp), o, managed, url, had) == OutcomeAt(pc, o, managed, url, had)
  {
    match pc
    case Downloading => DownloadKeepsOutcome(ok, backedUp, o, managed, url, had);
    case BackingUp => BackupKeepsOutcome(ok, backedUp, o, managed, url, had);
    case ApplyingFile => ApplyKeepsOutcome(ok, o, managed, url, had);
    case Restarting => RestartKeepsOutcome(ok, o, managed, url, had);
    case CheckingHealth => ProbeKeepsOutcome(ok, o, managed, url, had);
    case Restoring => RestoreKeepsOutcome(ok, backedUp, o, managed, url, had);
    case RollbackRestarting => RollbackRestartKeepsOutcome(ok, backedUp, o, managed, url, had);
    case RollbackCheckingHealth => RollbackProbeKeepsOutcome(ok, backedUp, o, managed, url, had);
  }

  lemma LookupKeepsOutcome(ok: bool, backedUp: bool, o: Outcomes, url: bool, had: bool)
    ensures OutcomeAt(Goto(EnteringBackup, ok, backedUp), o, ok, url, had) == OutcomeAt(EnteringBackup, o, ok, url, had)
  {}

  lemma WriteKeepsOutcome(pc: Pc, ok: bool, backedUp: bool, o: Outcomes, managed: bool, url: bool, had: bool)
    requires ActionAt(pc).Advance? && Returns(pc, o, managed, url, ok)
    ensures OutcomeAt(Goto(pc, ok, backedUp), o, managed, url, had) == OutcomeAt(pc, o, managed, url, had)
  {
    if pc.EnteringBackup? {
      LookupKeepsOutcome(ok, backedUp, o, url, had);
    } else {
      QuietWriteKeepsOutcome(pc, ok, backedUp, o, managed, url, had);
    }
  }

  /** Both positions leave the same outcome open. */
  predicate SameOutcome(pc: Pc, next: Pc, o: Outcomes, managed: bool, url: bool, had: bool) {
    OutcomeAt(next, o, managed, url, had) == OutcomeAt(pc, o, managed, url, had)
  }

  lemma UpdateWritesKeepOutcome(o: Outcomes, managed: bool, url: bool, had: bool)
    ensures SameOutcome(EnteringApply, ApplyingFile, o, managed, url, had)
    ensures SameOutcome(EnteringHealth, CheckingHealth, o, managed, url, had)
    ensures SameOutcome(Failing, ReportingFailed, o, managed, url, had)
  {}

  lemma RollbackWritesKeepOutcome(o: Outcomes, managed: bool, url: bool, had: bool)
    ensures SameOutcome(RollbackMarkFailed, RollbackReportFailed, o, managed, url, had)
    ensures SameOutcome(RollbackStart, RollbackReportStart, o, managed, url, had)
    ensures SameOutcome(RollbackEnterHealth, RollbackReportHealth, o, managed, url, had)
  {}

  lemma RollbackEndsKeepOutcome(o: Outcomes, managed: bool, url: bool, had: bool)
    ensures SameOutcome(RollbackFinish, RollbackReportFinished, o, managed, url, had)
    ensures SameOutcome(RollbackFailing, RollbackReportFailing, o, managed, url, had)
  {}

  /** Where the handler goes after a write that is confirmed, or ignored. */
  function AfterWrite(pc: Pc): Pc {
    match pc
    case EnteringApply => ApplyingFile
    case EnteringHealth => CheckingHealth
    case Failing => ReportingFailed
    case RollbackMarkFailed => RollbackReportFailed
    case RollbackStart => RollbackReportStart
    case RollbackEnterHealth => RollbackReportHealth
    case RollbackFinish => RollbackReportFinished
    case RollbackFailing => RollbackReportFailing
    case _ => pc
  }

  lemma WriteLeadsOn(pc: Pc, ok: bool, backedUp: bool)
    requires ActionAt(pc).Advance? && !pc.EnteringBackup? && (ok || IsIgnored(pc))
    ensures Goto(pc, ok, backedUp) == AfterWrite(pc)
  {}

  lemma AfterWriteKeepsOutcome(pc: Pc, o: Outcomes, managed: bool, url: bool, had: bool)
    ensures SameOutcome(pc, AfterWrite(pc), o, managed, url, had)
  {
    UpdateWritesKeepOutcome(o, managed, url, had);
    RollbackWritesKeepOutcome(o, managed, url, had);
    RollbackEndsKeepOutcome(o, managed, url, had);
    match pc
    case EnteringApply | EnteringHealth | Failing =>
    case RollbackMarkFailed | RollbackStart | RollbackEnterHealth | RollbackFinish | RollbackFailing =>
    case _ => assert AfterWrite(pc) == pc;
  }

  lemma QuietWriteKeepsOutcome(pc: Pc, ok: bool, backedUp: bool, o: Outcomes, managed: bool, url: bool, had: bool)
    requires ActionAt(pc).Advance? && !pc.EnteringBackup? && (ok || IsIgnored(pc))
    ensures OutcomeAt(Goto(pc, ok, backedUp), o, managed, url, had) == OutcomeAt(pc, o, managed, url, had)
  {
    WriteLeadsOn(pc, ok, backedUp);
    AfterWriteKeepsOutcome(pc, o, managed, url, had);
  }

  lemma WriteIsConfirmed(pc: Pc, status: Status, c: Choice, backedUp: bool)
    requires MayHold(pc, status) && OnTime(pc, status) && ActionAt(pc).Advance? && (!c.dbError || IsIgnored(pc))
    ensures var r := Write(status, ActionAt(pc).next, c);
            && (r.reported || IsIgnored(pc))
            && Executing(Goto(pc, r.reported, backedUp)) && OnTime(Goto(pc, r.reported, backedUp), r.status)
  {}

  lemma RefusedLookup(status: Status, backedUp: bool)
    requires MayHold(EnteringBackup, status) && OnTime(EnteringBackup, status)
    ensures Goto(EnteringBackup, false, backedUp) == Failing && OnTime(Failing, status)
  {}

  lemma HostCallReturns(s: State, op: Operation, wk: Worker, c: Choice, o: Outcomes)
    requires Active(s, op, wk) && Agrees(s, wk, c, o) && ActionAt(wk.pc).OnHost?
    ensures Returns(wk.pc, o, wk.command.service in s.catalog, HasHealthUrl(s, wk.command.service), HostOk(s, wk, c))
  {}

  lemma BackupTellsConfig(s: State, wk: Worker)
    requires FilesAt(s, wk)
    ensures MayNeedBackup(wk.pc) ==> (wk.host.backupPath != "" <==> wk.command.service in wk.host.before)
  {}

  lemma HostKeepsBackup(wk: Worker, c: Choice, ok: bool)
    requires MayNeedBackup(wk.pc)
    ensures HostEffect(wk, c, ok).backupPath == wk.host.backupPath
  {}

  lemma HostKeepsBefore(wk: Worker, c: Choice, ok: bool)
    ensures HostEffect(wk, c, ok).before == wk.host.before
  {
    match wk.pc
    case ApplyingFile =>
    case Restoring =>
    case Restarting | RollbackRestarting =>
    case CheckingHealth | RollbackCheckingHealth =>
    case _ =>
  }

  // The actions, kind by kind

  lemma WriteReturns(s: State, op: Operation, wk: Worker, w: WorkerId, c: Choice, o: Outcomes)
    requires Active(s, op, wk) && OnTime(wk.pc, op.status) && Agrees(s, wk, c, o) && ActionAt(wk.pc).Advance?
    ensures var e, next := Perform(s, op, wk, w, c), Goto(wk.pc, Perform(s, op, wk, w, c).ok, wk.host.backupPath != "");
            && Returns(wk.pc, o, wk.command.service in s.catalog, HasHealthUrl(s, wk.command.service), e.ok)
            && e.host == wk.host && Executing(next) && OnTime(next, e.op.status)
  {
    WriteIsConfirmed(wk.pc, op.status, c, wk.host.backupPath != "");
    if wk.pc.EnteringBackup? && wk.command.service !in s.catalog {
      RefusedLookup(op.status, wk.host.backupPath != "");
    }
  }

  lemma WriteAgrees(s: State, op: Operation, wk: Worker, w: WorkerId, c: Choice, o: Outcomes)
    requires Active(s, op, wk) && OnTime(wk.pc, op.status) && Agrees(s, wk, c, o) && ActionAt(wk.pc).Advance?
    ensures var (op', wk') := Act(s, op, wk, w, c);
            Executing(wk'.pc) && OpenAt(s, wk', o) == OpenAt(s, wk, o) && OnTime(wk'.pc, op'.status)
  {
    var service := wk.command.service;
    var e := Perform(s, op, wk, w, c);
    WriteReturns(s, op, wk, w, c, o);
    WriteKeepsOutcome(wk.pc, e.ok, wk.host.backupPath != "", o, service in s.catalog, HasHealthUrl(s, service),
                      service in wk.host.before);
  }

  predicate IsLastReport(pc: Pc) {
    pc.ReportingSucceeded? || pc.ReportingFailed? || pc.RollbackReportFinished? || pc.RollbackReportFailing?
  }

  lemma LastReportAgrees(s: State, op: Operation, wk: Worker, w: WorkerId, c: Choice, o: Outcomes)
    requires Active(s, op, wk) && OnTime(wk.pc, op.status) && Agrees(s, wk, c, o) && IsLastReport(wk.pc)
    ensures var (op', wk') := Act(s, op, wk, w, c);
            !Executing(wk'.pc) && Settled(op', OpenAt(s, wk, o), o.report)
  {
    LastReportSettles(wk.pc, op, o.report);
    LastReportIsOpen(wk.pc, o, wk.command.service in s.catalog, HasHealthUrl(s, wk.command.service),
                     wk.command.service in wk.host.before);
    LastReportActs(s, op, wk, w, c);
  }

  lemma LastReportActs(s: State, op: Operation, wk: Worker, w: WorkerId, c: Choice)
    requires IsLastReport(wk.pc)
    ensures var (op', wk') := Act(s, op, wk, w, c);
            && wk'.pc.Idle? && ActionAt(wk.pc).Report?
            && (op' == op || op' == op.(results := op.results + {ActionAt(wk.pc).result}))
            && (c.ok ==> op' == op.(results := op.results + {ActionAt(wk.pc).result}))
  {}

  lemma LastReportIsOpen(pc: Pc, o: Outcomes, managed: bool, url: bool, had: bool)
    requires IsLastReport(pc)
    ensures ActionAt(pc) == Report(OutcomeAt(pc, o, managed, url, had))
  {}

  lemma LastReportSettles(pc: Pc, op: Operation, published: bool)
    requires IsLastReport(pc) && RowAt(op, pc) && OnTime(pc, op.status)
    ensures var v := ActionAt(pc).result;
            Settled(op, v, false) && Settled(op.(results := op.results + {v}), v, published)
  {}

  lemma ProgressReportAgrees(s: State, op: Operation, wk: Worker, w: WorkerId, c: Choice, o: Outcomes)
    requires Active(s, op, wk) && OnTime(wk.pc, op.status) && Agrees(s, wk, c, o)
    requires ActionAt(wk.pc).Report? && !IsLastReport(wk.pc)
    ensures var (op', wk') := Act(s, op, wk, w, c);
            Executing(wk'.pc) && OpenAt(s, wk', o) == OpenAt(s, wk, o) && OnTime(wk'.pc, op'.status)
  {}

  lemma ReportAgrees(s: State, op: Operation, wk: Worker, w: WorkerId, c: Choice, o: Outcomes)
    requires Active(s, op, wk) && OnTime(wk.pc, op.status) && Agrees(s, wk, c, o) && ActionAt(wk.pc).Report?
    ensures var (op', wk') := Act(s, op, wk, w, c);
            if Executing(wk'.pc) then OpenAt(s, wk', o) == OpenAt(s, wk, o) && OnTime(wk'.pc, op'.status)
            else Settled(op', OpenAt(s, wk, o), o.report)
  {
    if IsLastReport(wk.pc) {
      LastReportAgrees(s, op, wk, w, c, o);
    } else {
      ProgressReportAgrees(s, op, wk, w, c, o);
    }
  }

  lemma HostAgrees(s: State, op: Operation, wk: Worker, w: WorkerId, c: Choice, o: Outcomes)
    requires Active(s, op, wk) && OnTime(wk.pc, op.status) && Agrees(s, wk, c, o) && ActionAt(wk.pc).OnHost?
    ensures var (op', wk') := Act(s, op, wk, w, c);
            Executing(wk'.pc) && OpenAt(s, wk', o) == OpenAt(s, wk, o) && OnTime(wk'.pc, op'.status)
  {
    var service, ok := wk.command.service, HostOk(s, wk, c);
    var backedUp := HostEffect(wk, c, ok).backupPath != "";
    BackupTellsConfig(s, wk);
    HostCallReturns(s, op, wk, c, o);
    HostKeepsBefore(wk, c, ok);
    if MayNeedBackup(wk.pc) {
      HostKeepsBackup(wk, c, ok);
    }
    HostGoesOn(wk.pc, op.status, ok, backedUp);
    HostKeepsOutcome(wk.pc, ok, backedUp, o, service in s.catalog, HasHealthUrl(s, service), service in wk.host.before);
  }

  lemma HostGoesOn(pc: Pc, status: Status, ok: bool, backedUp: bool)
    requires Executing(pc) && ActionAt(pc).OnHost? && MayHold(pc, status) && OnTime(pc, status)
    ensures Executing(Goto(pc, ok, backedUp)) && OnTime(Goto(pc, ok, backedUp), status)
  {}

  lemma ActAgrees(s: State, op: Operation, wk: Worker, w: WorkerId, c: Choice, o: Outcomes)
    requires Active(s, op, wk) && OnTime(wk.pc, op.status) && Agrees(s, wk, c, o)
    ensures var (op', wk') := Act(s, op, wk, w, c);
            if Executing(wk'.pc) then OpenAt(s, wk', o) == OpenAt(s, wk, o) && OnTime(wk'.pc, op'.status)
            else Settled(op', OpenAt(s, wk, o), o.report)
  {
    match ActionAt(wk.pc)
    case Advance(_, _) => WriteAgrees(s, op, wk, w, c, o);
    case Report(_) => ReportAgrees(s, op, wk, w, c, o);
    case _ => HostAgrees(s, op, wk, w, c, o);
  }

  // The steps of the others

  /** Others make the row FAILED only by a strike of the monitor or by delivering that report. */
  lemma OthersFail(s: State, l: Label, w: WorkerId, id: OpId)
    requires Inv(s) && id in s.ops && Runs(s, w, id) && !IsStepOf(l, w)
    requires s.ops[id].status != Failed && Step(s, l).ops[id].status == Failed
    ensures Failed in s.ops[id].results || (l.Monitor? && id in l.expired && IsReaped(s.ops[id].status))
  {
    StatusChangeCauses(s, l, id);
    RunningRow(s, w, id);
  }

  lemma OthersKeepOnTime(s: State, l: Label, w: WorkerId, id: OpId)
    requires Inv(s) && id in s.ops && Runs(s, w, id) && OnTime(s.workers[w].pc, s.ops[id].status)
    requires !TimesOut(s, l, w, id) && !IsStepOf(l, w)
    ensures id in Step(s, l).ops && OnTime(s.workers[w].pc, Step(s, l).ops[id].status)
  {
    StepKeepsKeys(s, l);
    if s.ops[id].status != Failed && Step(s, l).ops[id].status == Failed {
      OthersFail(s, l, w, id);
      RunningRow(s, w, id);
      OtherStepKeepsWorker(s, l, w, id);
      StepKeepsInv(s, l);
      RunningRow(Step(s, l), w, id);
      StruckOnTime(s.workers[w].pc, s.ops[id].results);
    }
  }

  lemma StruckOnTime(pc: Pc, results: set<Status>)
    requires MayHold(pc, Failed) && forall r | r in results :: MayHaveReported(pc, r)
    ensures Failed in results || RollingBackAt(pc) ==> OnTime(pc, Failed)
  {}

  /** The execution is where `v` is what it will come to. */
  predicate HeadsFor(s: State, w: WorkerId, id: OpId, o: Outcomes, v: Status) {
    && id in s.ops && Runs(s, w, id)
    && OnTime(s.workers[w].pc, s.ops[id].status) && OpenAt(s, s.workers[w], o) == v
  }

  lemma OpenAtIgnoresRows(s: State, t: State, wk: Worker, o: Outcomes)
    requires s.catalog == t.catalog
    ensures OpenAt(s, wk, o) == OpenAt(t, wk, o)
  {}

  lemma CatalogIsFixed(s: State, l: Label)
    ensures Step(s, l).catalog == s.catalog && (forall x :: Step(s, l).sha(x) == s.sha(x))
  {}

  lemma OrderlyStep(s: State, l: Label, w: WorkerId, id: OpId, o: Outcomes, v: Status)
    requires Inv(s) && HeadsFor(s, w, id, o, v) && Orderly(s, l, w, id, o)
    ensures var t := Step(s, l);
            if Runs(t, w, id) then HeadsFor(t, w, id, o, v) else id in t.ops && Over(t, id) && Settled(t.ops[id], v, o.report)
  {
    StepKeepsKeys(s, l);
    CatalogIsFixed(s, l);
    if !Runs(Step(s, l), w, id) {
      EndedIsOver(s, l, w, id);
    }
    if l.Work? && l.worker == w {
      RunningRow(s, w, id);
      ActAgrees(s, s.ops[id], s.workers[w], w, l.choice, o);
      OpenAtIgnoresRows(s, Step(s, l), Step(s, l).workers[w], o);
    } else {
      OtherStepKeepsWorker(s, l, w, id);
      OthersKeepOnTime(s, l, w, id);
      OpenAtIgnoresRows(s, Step(s, l), s.workers[w], o);
    }
  }

  predicate IsOutcome(v: Status) {
    v.Succeeded? || v.Failed? || v.RolledBack? || v.RollbackFailed?
  }

  lemma OverKeepsResults(s: State, l: Label, id: OpId)
    requires Inv(s) && Over(s, id)
    ensures id in Step(s, l).ops && Step(s, l).ops[id].results == s.ops[id].results
  {
    StepKeepsKeys(s, l);
    if Step(s, l).ops[id].results != s.ops[id].results {
      ReportsComeFromOwner(s, l, id);
    }
  }

  /** A settled outcome stays, unless the monitor strikes before SUCCEEDED is delivered. */
  lemma StepKeepsSettled(s: State, l: Label, w: WorkerId, id: OpId, v: Status, published: bool)
    requires Inv(s) && id in s.ops && w in s.workers && Over(s, id) && Settled(s.ops[id], v, published)
    requires IsOutcome(v) && !TimesOut(s, l, w, id)
    ensures id in Step(s, l).ops && Settled(Step(s, l).ops[id], v, published)
  {
    OverKeepsResults(s, l, id);
    if Step(s, l).ops[id].status != s.ops[id].status {
      assert OperationOk(s, id);
      if IsFinal(s.ops[id].status) {
        StepKeepsFinal(s, l, id);
      }
      StatusChangeCauses(s, l, id);
      StepGrowsRank(s, l, id);
    }
  }

  lemma OpenIsOutcome(s: State, wk: Worker, o: Outcomes)
    ensures IsOutcome(OpenAt(s, wk, o))
  {}

  lemma {:induction false} RunKeepsSettled(s: State, ls: seq<Label>, w: WorkerId, id: OpId, o: Outcomes, v: Status)
    requires Reachable(s) && OrderlyRun(s, ls, w, id, o) && Over(s, id) && Settled(s.ops[id], v, o.report)
    requires IsOutcome(v)
    ensures id in Run(s, ls).ops && Settled(Run(s, ls).ops[id], v, o.report)
    decreases |ls|
  {
    if ls != [] {
      ReachableInv(s);
      StepKeepsSettled(s, ls[0], w, id, v, o.report);
      StepKeepsOver(s, ls[0], id);
      ReachableStep(s, ls[0]);
      RunKeepsSettled(Step(s, ls[0]), ls[1..], w, id, o, v);
    }
  }

  lemma {:induction false} OrderlyRunSettles(s: State, ls: seq<Label>, w: WorkerId, id: OpId, o: Outcomes, v: Status)
    requires Reachable(s) && OrderlyRun(s, ls, w, id, o) && HeadsFor(s, w, id, o, v)
    ensures id in Run(s, ls).ops && (Runs(Run(s, ls), w, id) || Settled(Run(s, ls).ops[id], v, o.report))
    decreases |ls|
  {
    if ls != [] {
      ReachableInv(s);
      OrderlyStep(s, ls[0], w, id, o, v);
      ReachableStep(s, ls[0]);
      OpenIsOutcome(s, s.workers[w], o);
      if Runs(Step(s, ls[0]), w, id) {
        OrderlyRunSettles(Step(s, ls[0]), ls[1..], w, id, o, v);
      } else {
        RunKeepsSettled(Step(s, ls[0]), ls[1..], w, id, o, v);
      }
    }
  }

  /**
   How an update ends, whoever moves in between: once RUNNING is to be reported, 21 actions of
   the worker later the row has the outcome of its calls, or is about to get it with the
   delivery of SUCCEEDED, and the outcome is published if its report leaves. The monitor must
   not strike in time, progress must be published, the process must live and the database
   must answer, except for the notes that a rollback ignores.
   */
  lemma UpdateEndsAsCallsSay(s: State, ls: seq<Label>, w: WorkerId, id: OpId, o: Outcomes)
    requires Reachable(s) && id in s.ops && Runs(s, w, id)
    requires s.workers[w].pc.ReportingRunning? && s.ops[id].status == Running
    requires OrderlyRun(s, ls, w, id, o) && OwnSteps(ls, w) >= 21
    ensures var service := s.ops[id].service;
            id in Run(s, ls).ops
            && Settled(Run(s, ls).ops[id],
                       Outcome(o, service in s.catalog, HasHealthUrl(s, service), service in s.workers[w].host.before),
                       o.report)
  {
    ReachableInv(s);
    RunningRow(s, w, id);
    OrderlyRunSettles(s, ls, w, id, o, OpenAt(s, s.workers[w], o));
    ExecutionEnds(s, ls, w, id);
  }

  /**
   A rollback that has reached the write of ROLLING_BACK ends ROLLED_BACK, published, exactly
   when Rollback, Restart and the second probe succeed and there is a health URL, and
   ROLLBACK_FAILED otherwise. The monitor cannot disturb it any more.
   */
  lemma RollbackEndsAsCallsSay(s: State, ls: seq<Label>, w: WorkerId, id: OpId, o: Outcomes)
    requires Reachable(s) && id in s.ops && Runs(s, w, id) && s.workers[w].pc.RollbackStart?
    requires OrderlyRun(s, ls, w, id, o) && OwnSteps(ls, w) >= 9
    ensures var url := HasHealthUrl(s, s.ops[id].service);
            id in Run(s, ls).ops
            && Settled(Run(s, ls).ops[id],
                       if o.rollback && o.rollbackRestart && o.rollbackProbe && url then RolledBack else RollbackFailed,
                       o.report)
  {
    ReachableInv(s);
    RunningRow(s, w, id);
    OrderlyRunSettles(s, ls, w, id, o, OpenAt(s, s.workers[w], o));
    ExecutionEndsWithin(s, ls, w, id);
  }

  // ---------------------------------------------------------------------------------------
  // Why a rollback fails
  // ---------------------------------------------------------------------------------------

  /** The label is the failure of Rollback, of the Restart after it, or of the probe after that. */
  predicate RestoreFailsAt(s: State, l: Label, id: OpId) {
    && l.Work? && Runs(s, l.worker, id)
    && var wk := s.workers[l.worker];
    && (wk.pc.Restoring? || wk.pc.RollbackRestarting? || wk.pc.RollbackCheckingHealth?)
    && (!l.choice.ok || (wk.pc.RollbackCheckingHealth? && !HasHealthUrl(s, wk.command.service)))
  }

  ghost predicate RestoreFailed(start: State, ls: seq<Label>, id: OpId) {
    exists k :: 0 <= k < |ls| && RestoreFailsAt(Run(start, ls[..k]), ls[k], id)
  }

  predicate GivesUpRollback(pc: Pc) {
    pc.RollbackFailing? || pc.RollbackReportFailing?
  }

  /** The rollback of `id` has failed, or is being given up. */
  predicate RollbackIsLost(s: State, id: OpId) {
    && id in s.ops
    && (s.ops[id].status == RollbackFailed || exists w :: w in s.workers && Runs(s, w, id) && GivesUpRollback(s.workers[w].pc))
  }

  lemma ActGivesUp(s: State, op: Operation, wk: Worker, w: WorkerId, c: Choice)
    requires Active(s, op, wk) && GivesUpRollback(Act(s, op, wk, w, c).1.pc) && !GivesUpRollback(wk.pc)
    ensures wk.pc.Restoring? || wk.pc.RollbackRestarting? || wk.pc.RollbackCheckingHealth?
    ensures !c.ok || (wk.pc.RollbackCheckingHealth? && !HasHealthUrl(s, wk.command.service))
  {}

  lemma WorkerGivesUp(s: State, l: Label, w: WorkerId, id: OpId)
    requires Inv(s) && id in s.ops && w in Step(s, l).workers && Runs(Step(s, l), w, id) && GivesUpRollback(Step(s, l).workers[w].pc)
    ensures RollbackIsLost(s, id) || RestoreFailsAt(s, l, id)
  {
    StepKeepsKeys(s, l);
    if l.Work? && l.worker == w {
      assert WorkerOk(s, w);
      if Runs(s, w, id) && !GivesUpRollback(s.workers[w].pc) {
        RunningRow(s, w, id);
        ActGivesUp(s, s.ops[id], s.workers[w], w, l.choice);
      }
    } else if Executing(s.workers[w].pc) && !IsStepOf(l, w) {
      OthersLeaveWorker(s, l, w);
      assert Runs(s, w, id);
    }
  }

  lemma RollbackIsLostAtStep(s: State, l: Label, id: OpId)
    requires Inv(s) && id in s.ops && RollbackIsLost(Step(s, l), id)
    ensures RollbackIsLost(s, id) || RestoreFailsAt(s, l, id)
  {
    var t := Step(s, l);
    if t.ops[id].status == RollbackFailed && s.ops[id].status != RollbackFailed {
      assert OperationOk(s, id);
      StatusChangeCauses(s, l, id);
    } else if t.ops[id].status != RollbackFailed {
      var w :| w in t.workers && Runs(t, w, id) && GivesUpRollback(t.workers[w].pc);
      WorkerGivesUp(s, l, w, id);
    }
  }

  /**
   In every run with every fault: an operation is ROLLBACK_FAILED only after Rollback, the
   Restart after it or the probe after that failed, or the service had no health URL to probe.
   */
  lemma {:induction false} RollbackFailsForAReason(start: State, ls: seq<Label>, id: OpId)
    requires Initial(start) && RollbackIsLost(Run(start, ls), id)
    ensures RestoreFailed(start, ls, id)
    decreases |ls|
  {
    if ls != [] {
      var n := |ls| - 1;
      var s := Run(start, ls[..n]);
      LastStep(start, ls);
      InitialInv(start);
      RunKeepsInv(start, ls[..n]);
      if id in s.ops {
        RollbackIsLostAtStep(s, ls[n], id);
        if !RestoreFailsAt(s, ls[n], id) {
          RollbackFailsForAReason(start, ls[..n], id);
          var k :| 0 <= k < n && RestoreFailsAt(Run(start, ls[..n][..k]), ls[..n][k], id);
          assert ls[..n][..k] == ls[..k] && ls[..n][k] == ls[k];
        }
      } else {
        NewRowIsNotLost(s, ls[n], id);
      }
    }
  }

  lemma LastStep(start: State, ls: seq<Label>)
    requires ls != []
    ensures Run(start, ls) == Step(Run(start, ls[..|ls| - 1]), ls[|ls| - 1])
  {
    var n := |ls| - 1;
    assert ls == ls[..n] + [ls[n]];
    RunAppend(start, ls[..n], [ls[n]]);
    assert Run(Step(Run(start, ls[..n]), ls[n]), []) == Step(Run(start, ls[..n]), ls[n]) && [ls[n]][1..] == [];
  }

  lemma NewRowIsNotLost(s: State, l: Label, id: OpId)
    requires Inv(s) && id !in s.ops
    ensures !RollbackIsLost(Step(s, l), id)
  {
    StepKeepsInv(s, l);
    var t := Step(s, l);
    if id in t.ops {
      assert OperationOk(t, id) && t.ops[id].owner.None?;
      forall w | w in t.workers
        ensures !Runs(t, w, id)
      {
        assert WorkerOk(t, w);
      }
    }
  }

  // ---------------------------------------------------------------------------------------
  // Every outcome can be reached
  // ---------------------------------------------------------------------------------------

  const FINE := Choice(false, false, true, true, true, [], "stamp")

  /** What the next action of `w` meets when its calls return as `o` says. */
  function NextChoice(s: State, w: WorkerId, o: Outcomes, content: Bytes): Choice {
    FINE.(ok := w in s.workers && CallOk(s.workers[w].pc, o), bytes := content)
  }

  /** `n` actions of `w` in a row. */
  function OwnRun(s: State, w: WorkerId, o: Outcomes, content: Bytes, n: nat): seq<Label>
    decreases n
  {
    if n == 0 then []
    else
      var l := Work(w, NextChoice(s, w, o, content));
      [l] + OwnRun(Step(s, l), w, o, content, n - 1)
  }

  lemma ActKeepsCommand(s: State, op: Operation, wk: Worker, w: WorkerId, c: Choice)
    ensures Act(s, op, wk, w, c).1.command == wk.command
  {}

  /** `content` is what the worker's command names. */
  predicate Fits(s: State, w: WorkerId, id: OpId, content: Bytes) {
    && id in s.ops && w in s.workers && s.workers[w].command.op == id
    && |content| == s.workers[w].command.size && s.sha(content) == s.workers[w].command.sha
  }

  lemma OwnStepFits(s: State, w: WorkerId, id: OpId, c: Choice, content: Bytes)
    requires Fits(s, w, id, content)
    ensures Fits(Step(s, Work(w, c)), w, id, content)
  {
    ActKeepsCommand(s, s.ops[id], s.workers[w], w, c);
  }

  lemma NextChoiceAgrees(s: State, w: WorkerId, id: OpId, o: Outcomes, content: Bytes)
    requires Fits(s, w, id, content)
    ensures Orderly(s, Work(w, NextChoice(s, w, o, content)), w, id, o)
  {}

  lemma OrderlyOneMore(s: State, l: Label, rest: seq<Label>, w: WorkerId, id: OpId, o: Outcomes)
    requires w in s.workers && id in s.ops && Orderly(s, l, w, id, o) && OrderlyRun(Step(s, l), rest, w, id, o)
    requires l.Work? && l.worker == w
    ensures OrderlyRun(s, [l] + rest, w, id, o) && OwnSteps([l] + rest, w) == OwnSteps(rest, w) + 1
  {
    assert ([l] + rest)[1..] == rest;
  }

  lemma {:induction false} OwnRunIsOrderly(s: State, w: WorkerId, id: OpId, o: Outcomes, content: Bytes, n: nat)
    requires Fits(s, w, id, content)
    ensures OrderlyRun(s, OwnRun(s, w, o, content, n), w, id, o)
    ensures OwnSteps(OwnRun(s, w, o, content, n), w) == n
    decreases n
  {
    if n > 0 {
      var c := NextChoice(s, w, o, content);
      OwnStepFits(s, w, id, c, content);
      NextChoiceAgrees(s, w, id, o, content);
      OwnRunIsOrderly(Step(s, Work(w, c)), w, id, o, content, n - 1);
      OrderlyOneMore(s, Work(w, c), OwnRun(Step(s, Work(w, c)), w, o, content, n - 1), w, id, o);
    }
  }

  /** An operation nobody has touched, and an idle worker on its node. */
  predicate IsFresh(s: State, w: WorkerId, id: OpId) {
    && id in s.ops && s.ops[id].status == Pending && s.ops[id].upload.None?
    && w in s.workers && s.workers[w].pc.Idle? && s.workers[w].nodeId == s.ops[id].nodeId && s.workers[w].instance != ""
  }

  /** The upload finishes, the node is found ONLINE, the command leaves. */
  function Dispatching(id: OpId, content: Bytes, instance: InstanceId): seq<Label> {
    [FinishUpload(id, content), ReadNode(id, Some(NodeRegistry.Node(instance, NodeRegistry.Online, 0, 0, 0, 0))),
     WriteDispatched(id, FINE), PublishCommand(id, true)]
  }

  lemma RunOne(s: State, l: Label, ls: seq<Label>)
    ensures Run(s, [l] + ls) == Run(Step(s, l), ls)
  {
    assert ([l] + ls)[1..] == ls;
  }

  lemma Run4(s: State, a: Label, b: Label, c: Label, d: Label)
    ensures Run(s, [a, b, c, d]) == Step(Step(Step(Step(s, a), b), c), d)
  {
    RunOne(s, a, [b, c, d]);
    RunOne(Step(s, a), b, [c, d]);
    RunOne(Step(Step(s, a), b), c, [d]);
    RunOne(Step(Step(Step(s, a), b), c), d, []);
    assert [a] + [b, c, d] == [a, b, c, d] && [b] + [c, d] == [b, c, d] && [c] + [d] == [c, d] && [d] + [] == [d];
  }

  lemma DispatchSteps(s: State, id: OpId, op: Operation, content: Bytes, instance: InstanceId)
    requires op.status == Pending && op.entry.AwaitingUpload? && op.upload.None? && op.commands == {}
    ensures var ls := Dispatching(id, content, instance);
            var op' := EntryStep(s, EntryStep(s, EntryStep(s, EntryStep(s, op, ls[0]), ls[1]), ls[2]), ls[3]);
            && op'.status == Dispatched && op'.upload == Some(Upload(content, s.sha(content)))
            && op'.commands == {Command(id, op.service, instance, |content|, s.sha(content))}
            && op'.service == op.service && op'.nodeId == op.nodeId
  {}

  lemma EntryStepsOn(s: State, id: OpId, a: Label, b: Label, c: Label, d: Label)
    requires id in s.ops && a.FinishUpload? && b.ReadNode? && c.WriteDispatched? && d.PublishCommand?
    requires a.id == b.id == c.id == d.id == id
    ensures var op' := EntryStep(s, EntryStep(s, EntryStep(s, EntryStep(s, s.ops[id], a), b), c), d);
            var t := Step(Step(Step(Step(s, a), b), c), d);
            id in t.ops && t.ops[id] == op' && t.workers == s.workers && t.catalog == s.catalog && (forall x :: t.sha(x) == s.sha(x))
  {
    EntryIgnoresOps(s, Step(s, a), EntryStep(s, s.ops[id], a), b);
    var t1 := Step(s, a);
    EntryIgnoresOps(s, Step(t1, b), EntryStep(s, EntryStep(s, s.ops[id], a), b), c);
    var t2 := Step(t1, b);
    EntryIgnoresOps(s, Step(t2, c), EntryStep(s, EntryStep(s, EntryStep(s, s.ops[id], a), b), c), d);
  }

  lemma EntryIgnoresOps(s: State, t: State, op: Operation, l: Label)
    requires !l.FinishUpload?
    ensures EntryStep(s, op, l) == EntryStep(t, op, l)
  {}

  /** A pending operation whose node is ONLINE is dispatched, and its command describes the upload. */
  lemma DispatchCanHappen(s: State, w: WorkerId, id: OpId, content: Bytes)
    requires Reachable(s) && IsFresh(s, w, id)
    ensures var t, wk := Run(s, Dispatching(id, content, s.workers[w].instance)), s.workers[w];
            && Reachable(t) && t.workers == s.workers && t.catalog == s.catalog && (forall x :: t.sha(x) == s.sha(x))
            && id in t.ops && t.ops[id].status == Dispatched && t.ops[id].nodeId == s.ops[id].nodeId
            && t.ops[id].commands == {Command(id, s.ops[id].service, wk.instance, |content|, s.sha(content))}
  {
    ReachableInv(s);
    assert OperationOk(s, id);
    var ls := Dispatching(id, content, s.workers[w].instance);
    ReachableRun(s, ls);
    Run4(s, ls[0], ls[1], ls[2], ls[3]);
    EntryStepsOn(s, id, ls[0], ls[1], ls[2], ls[3]);
    DispatchSteps(s, id, s.ops[id], content, s.workers[w].instance);
  }

  /** The worker receives the command and claims the operation. */
  lemma ClaimCanHappen(s: State, w: WorkerId, id: OpId, command: Command)
    requires Reachable(s) && id in s.ops && s.ops[id].status == Dispatched && command in s.ops[id].commands
    requires w in s.workers && s.workers[w].pc.Idle? && s.workers[w].nodeId == s.ops[id].nodeId
    requires command.op == id && command.nodeInstance == s.workers[w].instance
    ensures var t := Step(Step(s, Receive(w, id, command)), Work(w, FINE));
            && Reachable(t) && id in t.ops && t.ops[id].status == Running && Runs(t, w, id)
            && t.workers[w].pc.ReportingRunning? && t.workers[w].command == command
            && t.workers[w].host.before == s.workers[w].host.configs
            && t.catalog == s.catalog && (forall x :: t.sha(x) == s.sha(x))
  {
    ReachableStep(s, Receive(w, id, command));
    ReachableStep(Step(s, Receive(w, id, command)), Work(w, FINE));
  }

  /** The worker carries the update through. */
  lemma ExecutionCanSettle(s: State, w: WorkerId, id: OpId, o: Outcomes, content: Bytes) returns (t: State)
    requires Reachable(s) && Runs(s, w, id) && Fits(s, w, id, content)
    requires s.ops[id].status == Running && s.workers[w].pc.ReportingRunning?
    ensures Reachable(t) && id in t.ops
    ensures var service := s.ops[id].service;
            Settled(t.ops[id], Outcome(o, service in s.catalog, HasHealthUrl(s, service), service in s.workers[w].host.before),
                    o.report)
  {
    var ls := OwnRun(s, w, o, content, 21);
    OwnRunIsOrderly(s, w, id, o, content, 21);
    UpdateEndsAsCallsSay(s, ls, w, id, o);
    ReachableRun(s, ls);
    t := Run(s, ls);
  }

  lemma SettledCanBeDelivered(s: State, id: OpId, v: Status) returns (t: State)
    requires Reachable(s) && id in s.ops && Settled(s.ops[id], v, true) && !v.Unknown?
    ensures Reachable(t) && id in t.ops && t.ops[id].status == v
  {
    t := Step(s, DeliverResult(id, v, FINE));
    DeliveryLands(s, id, v, FINE);
    ReachableStep(s, DeliverResult(id, v, FINE));
  }

  /**
   From every fresh operation, in every reachable state, there is a run to the outcome of its
   calls, whatever they return; with all of them fine and a health URL that is SUCCEEDED.
   */
  lemma EveryOutcomeCanHappen(s: State, w: WorkerId, id: OpId, o: Outcomes, content: Bytes) returns (t: State)
    requires Reachable(s) && IsFresh(s, w, id)
    ensures Reachable(t) && id in t.ops
    ensures var service := s.ops[id].service;
            t.ops[id].status == Outcome(o, service in s.catalog, HasHealthUrl(s, service), service in s.workers[w].host.configs)
  {
    DispatchCanHappen(s, w, id, content);
    var dispatched := Run(s, Dispatching(id, content, s.workers[w].instance));
    var command := Command(id, s.ops[id].service, s.workers[w].instance, |content|, s.sha(content));
    ClaimCanHappen(dispatched, w, id, command);
    var claimed := Step(Step(dispatched, Receive(w, id, command)), Work(w, FINE));
    ReachableInv(claimed);
    RunningRow(claimed, w, id);
    var settled := ExecutionCanSettle(claimed, w, id, o.(report := true), content);
    var service := claimed.ops[id].service;
    t := SettledCanBeDelivered(settled, id, Outcome(o, service in s.catalog, HasHealthUrl(s, service),
                                                    service in s.workers[w].host.configs));
  }
}
