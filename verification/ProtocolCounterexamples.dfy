/**
 Two runs that contradict what one might read into the documentation: the reaper does not
 fail every non-terminal operation, and FAILED does not mean that the old config is back.
 `StuckForeverIff` and `FailedLeavesOldConfigIff` say exactly when that happens.
 */
module ProtocolCounterexamples {
  import opened Common
  import opened Operations
  import opened Protocol
  import opened ProtocolInvariant
  import opened ProtocolTheorems
  import opened ProtocolProgress
  import NodeRegistry

  const OP: OpId := "op"
  const SERVICE := "service"
  const NODE := "node"
  const INSTANCE: InstanceId := "instance"

  const OLD: Bytes := [1]
  const NEW: Bytes := [2]

  /** Every call succeeds. */
  const WELL := ProtocolProgress.FINE.(bytes := NEW)

  function Digest(content: Bytes): string { "" }

  const ROW := NodeRegistry.Node(INSTANCE, NodeRegistry.Online, 0, 1, 0, 0)

  const COMMAND := Command(OP, SERVICE, INSTANCE, 1, "")

  const START_HOST := Host([], "", map[SERVICE := OLD], map[], map[], map[], map[], false)

  const START := State(map[SERVICE := true], Digest, map[],
                       map[0 := Worker(NODE, INSTANCE, Idle, COMMAND, START_HOST)])

  /** A world with one operation and one worker. */
  function World(op: Operation, pc: Pc, host: Host): State {
    START.(ops := map[OP := op], workers := map[0 := Worker(NODE, INSTANCE, pc, COMMAND, host)])
  }

  ghost predicate Occurs(op: Operation, pc: Pc, host: Host) {
    Reachable(World(op, pc, host))
  }

  lemma EntryMoves(op: Operation, l: Label, op': Operation)
    requires Occurs(op, Idle, START_HOST)
    requires l.FinishUpload? || l.ReadNode? || l.WriteDispatched? || l.PublishCommand?
    requires l.id == OP && op' == EntryStep(World(op, Idle, START_HOST), op, l)
    ensures Occurs(op', Idle, START_HOST)
  {
    var s := World(op, Idle, START_HOST);
    ReachableStep(s, l);
    assert s.ops[OP := op'] == map[OP := op'];
  }

  lemma WorkerMoves(op: Operation, pc: Pc, host: Host, c: Choice)
    requires Occurs(op, pc, host) && !pc.Idle?
    ensures var wk := Worker(NODE, INSTANCE, pc, COMMAND, host);
            var (op', wk') := Act(World(op, pc, host), op, wk, 0, c);
            Occurs(op', wk'.pc, wk'.host)
  {
    var s, wk := World(op, pc, host), Worker(NODE, INSTANCE, pc, COMMAND, host);
    ReachableStep(s, Work(0, c));
    var (op', wk') := Act(s, op, wk, 0, c);
    ActKeepsCommand(s, op, wk, c);
    assert s.ops[OP := op'] == map[OP := op'] && s.workers[0 := wk'] == map[0 := wk'];
  }

  lemma ActKeepsCommand(s: State, op: Operation, wk: Worker, c: Choice)
    ensures var wk' := Act(s, op, wk, 0, c).1;
            wk'.command == wk.command && wk'.nodeId == wk.nodeId && wk'.instance == wk.instance
  {}

  /** A database write: the new status, and the position the handler goes to. */
  lemma Writing(op: Operation, pc: Pc, host: Host, c: Choice, op': Operation, pc': Pc)
    requires Occurs(op, pc, host) && ActionAt(pc).Advance?
    requires var r := Write(op.status, ActionAt(pc).next, c);
             && op' == op.(status := r.status, past := op.past.(faulted := op.past.faulted || (ActionAt(pc).givesUp && c.dbError)))
             && pc' == Goto(pc, r.reported, host.backupPath != "")
    ensures Occurs(op', pc', host)
  {
    WorkerMoves(op, pc, host, c);
  }

  lemma Reporting(op: Operation, pc: Pc, host: Host, op': Operation, pc': Pc)
    requires Occurs(op, pc, host) && ActionAt(pc).Report?
    requires op' == op.(results := op.results + {ActionAt(pc).result}) && pc' == Goto(pc, true, host.backupPath != "")
    ensures Occurs(op', pc', host)
  {
    WorkerMoves(op, pc, host, WELL);
  }

  lemma HostMoves(op: Operation, pc: Pc, host: Host, c: Choice, op': Operation, host': Host)
    requires Occurs(op, pc, host) && ActionAt(pc).OnHost? && !pc.Idle?
    requires var wk := Worker(NODE, INSTANCE, pc, COMMAND, host);
             && c.ok && HostOk(START, wk, c) && host' == HostEffect(wk, c, true)
             && op' == op.(past := op.past.(backups := op.past.backups + if pc.BackingUp? then 1 else 0,
                                            applies := op.past.applies + if pc.ApplyingFile? then 1 else 0))
    ensures Occurs(op', Goto(pc, true, host'.backupPath != ""), host')
  {
    WorkerMoves(op, pc, host, c);
  }

  // ---------------------------------------------------------------------------------------
  // The common beginning
  // ---------------------------------------------------------------------------------------

  const UPLOADED := NewOperation(SERVICE, NODE).(upload := Some(Upload(NEW, "")), entry := ReadingNode)

  const WRITTEN := UPLOADED.(status := Dispatched, entry := PublishingCommand(INSTANCE),
                             past := History(1, 0, 0, 0, false))

  const CLAIMABLE := WRITTEN.(entry := DispatchEnded, commands := {COMMAND})

  const CLAIMED := CLAIMABLE.(status := Running, owner := Some(0), past := History(1, 1, 0, 0, false))

  const RECEIVED := START_HOST.(before := map[SERVICE := OLD])

  lemma Created()
    ensures Occurs(NewOperation(SERVICE, NODE), Idle, START_HOST)
  {
    assert Initial(START) && Run(START, []) == START;
    ReachableStep(START, CreateOperation(OP, SERVICE, NODE));
    assert START.ops[OP := NewOperation(SERVICE, NODE)] == map[OP := NewOperation(SERVICE, NODE)];
  }

  lemma DispatchedRow()
    ensures Occurs(WRITTEN, Idle, START_HOST)
  {
    Created();
    EntryMoves(NewOperation(SERVICE, NODE), FinishUpload(OP, NEW), UPLOADED);
    EntryMoves(UPLOADED, ReadNode(OP, Some(ROW)), UPLOADED.(entry := Dispatching(INSTANCE)));
    EntryMoves(UPLOADED.(entry := Dispatching(INSTANCE)), WriteDispatched(OP, WELL), WRITTEN);
  }

  lemma ClaimableRow()
    ensures Occurs(CLAIMABLE, Idle, START_HOST)
  {
    DispatchedRow();
    assert {} + {COMMAND} == {COMMAND};
    EntryMoves(WRITTEN, PublishCommand(OP, true), CLAIMABLE);
  }

  lemma ClaimedRow()
    ensures Occurs(CLAIMED, ReportingRunning, RECEIVED)
  {
    ClaimableRow();
    var s := World(CLAIMABLE, Idle, START_HOST);
    ReachableStep(s, Receive(0, OP, COMMAND));
    assert s.workers[0 := Worker(NODE, INSTANCE, Claiming, COMMAND, RECEIVED)]
        == map[0 := Worker(NODE, INSTANCE, Claiming, COMMAND, RECEIVED)];
    WorkerMoves(CLAIMABLE, Claiming, RECEIVED, WELL);
  }

  const REPORTED := CLAIMED.(results := {Running, Transferred})

  const STAGED := RECEIVED.(staged := NEW)

  /** BACKUP_CREATED is written, the backup not yet made. */
  lemma BackupEntered()
    ensures Occurs(REPORTED.(status := BackupCreated), BackingUp, STAGED)
  {
    ClaimedRow();
    var running := CLAIMED.(results := {} + {Running});
    Reporting(CLAIMED, ReportingRunning, RECEIVED, running, Downloading);
    HostMoves(running, Downloading, RECEIVED, WELL, running, STAGED);
    assert {} + {Running} + {Transferred} == {Running, Transferred};
    Reporting(running, ReportingTransferred, STAGED, REPORTED, EnteringBackup);
    Writing(REPORTED, EnteringBackup, STAGED, WELL, REPORTED.(status := BackupCreated), BackingUp);
  }

  // ---------------------------------------------------------------------------------------
  // The two runs
  // ---------------------------------------------------------------------------------------

  /** A worker that dies in BACKUP_CREATED leaves a row that never becomes terminal, reaper or not. */
  lemma ReaperNeverFailsIt() returns (s: State)
    ensures Reachable(s) && OP in s.ops
    ensures forall ls :: OP in Run(s, ls).ops && !IsTerminal(Run(s, ls).ops[OP].status)
  {
    BackupEntered();
    var t := World(REPORTED.(status := BackupCreated), BackingUp, STAGED);
    var crash := Crash(0, INSTANCE, false);
    ReachableStep(t, crash);
    s := Step(t, crash);
    assert Stuck(s, OP);
    ReachableInv(s);
    forall ls
      ensures OP in Run(s, ls).ops && !IsTerminal(Run(s, ls).ops[OP].status)
    {
      RunKeepsStuck(s, ls, OP);
    }
  }

  const BACKED_UP := STAGED.(backups := map["backups/service/stamp" := OLD], backupPath := "backups/service/stamp")

  const APPLIED := BACKED_UP.(configs := map[SERVICE := NEW], applied := true)

  const APPLYING := REPORTED.(status := Applying, past := History(1, 1, 1, 1, false))

  const SAVED := REPORTED.(status := BackupCreated, past := History(1, 1, 1, 0, false))

  lemma BackupMade()
    ensures Occurs(SAVED, EnteringApply, BACKED_UP)
  {
    BackupEntered();
    assert "backups/" + SERVICE + "/" + WELL.stamp == "backups/service/stamp";
    HostMoves(REPORTED.(status := BackupCreated), BackingUp, STAGED, WELL, SAVED, BACKED_UP);
  }

  lemma NewConfigInPlace()
    ensures Occurs(APPLYING, Restarting, APPLIED)
  {
    BackupMade();
    Writing(SAVED, EnteringApply, BACKED_UP, WELL, SAVED.(status := Applying), ApplyingFile);
    assert BACKED_UP.restarted - {SERVICE} == map[] && BACKED_UP.probed - {SERVICE} == map[];
    assert BACKED_UP.configs[SERVICE := NEW] == map[SERVICE := NEW];
    HostMoves(SAVED.(status := Applying), ApplyingFile, BACKED_UP, WELL, APPLYING, APPLIED);
  }

  const RESTARTED := APPLIED.(restarted := map[SERVICE := NEW])

  const PROBED := RESTARTED.(probed := map[SERVICE := NEW])

  const TIMED_OUT := APPLYING.(status := Failed)

  lemma Probing()
    ensures Occurs(APPLYING.(status := HealthChecking), CheckingHealth, RESTARTED)
  {
    NewConfigInPlace();
    assert APPLIED.probed - {SERVICE} == map[];
    HostMoves(APPLYING, Restarting, APPLIED, WELL, APPLYING, RESTARTED);
    Writing(APPLYING, EnteringHealth, RESTARTED, WELL, APPLYING.(status := HealthChecking), CheckingHealth);
  }

  lemma TimedOutWhileProbing()
    ensures Occurs(TIMED_OUT, CheckingHealth, RESTARTED)
  {
    Probing();
    var s := World(APPLYING.(status := HealthChecking), CheckingHealth, RESTARTED);
    ReachableStep(s, Monitor({OP}));
    assert Step(s, Monitor({OP})).ops == map[OP := TIMED_OUT];
  }

  /** The operation is FAILED for good, yet its new config is in place, restarted and healthy. */
  lemma FailedButDeployed()
    ensures Occurs(TIMED_OUT.(results := {Running, Transferred, Succeeded}), Idle, PROBED)
    ensures forall ls :: FailedForGood(Run(World(TIMED_OUT.(results := {Running, Transferred, Succeeded}), Idle, PROBED), ls), OP)
    ensures PROBED.configs[SERVICE] == PROBED.probed[SERVICE] == NEW != OLD == PROBED.before[SERVICE]
  {
    TimedOutWhileProbing();
    HostMoves(TIMED_OUT, CheckingHealth, RESTARTED, WELL, TIMED_OUT, PROBED);
    assert {Running, Transferred} + {Succeeded} == {Running, Transferred, Succeeded};
    Reporting(TIMED_OUT, ReportingSucceeded, PROBED, TIMED_OUT.(results := {Running, Transferred, Succeeded}), Idle);
    var s := World(TIMED_OUT.(results := {Running, Transferred, Succeeded}), Idle, PROBED);
    forall ls
      ensures FailedForGood(Run(s, ls), OP)
    {
      AbandonedFailureIsFinal(s, ls, OP);
    }
  }

  // ---------------------------------------------------------------------------------------
  // A run to each outcome
  // ---------------------------------------------------------------------------------------

  /** SUCCEEDED, FAILED, ROLLED_BACK and ROLLBACK_FAILED all occur. */
  lemma OutcomesOccur(v: Status) returns (t: State)
    requires IsOutcome(v)
    ensures Reachable(t) && OP in t.ops && t.ops[OP].status == v
  {
    Created();
    var s := World(NewOperation(SERVICE, NODE), Idle, START_HOST);
    var o := Outcomes(!v.Failed?, true, true, true, v.Succeeded?, v.RolledBack?, true, true, true);
    t := EveryOutcomeCanHappen(s, 0, OP, o, NEW);
  }
}
