/**
 The update protocol as a state machine: the entry service, any number of workers, the
 timeout monitor and the message network, all sharing the operations table.

 A label names the actor that moves and carries everything the environment decides (faults,
 timing, contents), so a schedule is a sequence of labels and `Step` is a total function:
 a label that is not enabled changes nothing. Messages are never removed from the network,
 which covers loss (never delivered), duplication and reordering.
 */
module Protocol {
  import opened Common
  import opened Operations
  import NodeRegistry

  type OpId = string
  type WorkerId = nat

  datatype Command = Command(op: OpId, service: string, nodeInstance: string, size: nat, sha: string)

  /** What the entry service stored when the upload finished. */
  datatype Upload = Upload(content: Bytes, sha: string)

  /** The upload-finished hook of one operation: store metadata, read the node, write, publish. */
  datatype EntryPc =
    | AwaitingUpload
    | ReadingNode
    | Dispatching(instance: InstanceId)
    | PublishingCommand(instance: InstanceId)
    | DispatchEnded

  /**
   What happened to an operation: how often it was dispatched, claimed, backed up and applied,
   and whether its worker died or lost the database while giving up. It influences nothing.
   */
  datatype History = History(dispatches: nat, claims: nat, backups: nat, applies: nat, faulted: bool)

  /** One row of the table together with the messages that mention it, and who claimed it. */
  datatype Operation = Operation(
    status: Status, service: string, nodeId: string,
    upload: Option<Upload>, entry: EntryPc,
    commands: set<Command>, results: set<Status>,
    owner: Option<WorkerId>, past: History)

  /** The points of handleCommand between which other actors may move. */
  datatype Pc =
    | Idle | Claiming | ReportingRunning | Downloading | ReportingTransferred
    | EnteringBackup | BackingUp | EnteringApply | ApplyingFile | Restarting
    | EnteringHealth | CheckingHealth | ReportingSucceeded
    | Failing | ReportingFailed
    | RollbackMarkFailed | RollbackReportFailed | RollbackStart | RollbackReportStart
    | Restoring | RollbackRestarting | RollbackEnterHealth | RollbackReportHealth
    | RollbackCheckingHealth | RollbackFinish | RollbackReportFinished
    | RollbackFailing | RollbackReportFailing

  /**
   The files of a worker's host and the handler's own variables. `restarted` and `probed` are
   evidence: the bytes the container was restarted with since the config was last written, and
   the bytes it was running when a health check last passed. `before` is the config at receipt
   of the command, `applied` says that the staged file has replaced it and was not rolled back.
   */
  datatype Host = Host(
    staged: Bytes, backupPath: string, configs: map<string, Bytes>, backups: map<string, Bytes>,
    restarted: map<string, Bytes>, probed: map<string, Bytes>, before: map<string, Bytes>, applied: bool)

  datatype Worker = Worker(nodeId: string, instance: string, pc: Pc, command: Command, host: Host)

  /** `catalog` maps a managed service to whether it has a health URL. */
  datatype State = State(
    catalog: map<string, bool>, sha: Hash,
    ops: map<OpId, Operation>, workers: map<WorkerId, Worker>)

  /** What the environment decides in one action; each action reads the parts it needs. */
  datatype Choice = Choice(
    dbError: bool,   // the database call reports an error ...
    effect: bool,    // ... although the UPDATE took effect (the later read failed)
    moved: bool,     // the clock moved since the row was last written
    ok: bool,        // the external call succeeded
    sent: bool,      // the message left although publishing reported an error
    bytes: Bytes,    // what was downloaded
    stamp: string)   // the formatted time in a backup name

  datatype Label =
    | CreateOperation(id: OpId, service: string, nodeId: string)
    | FinishUpload(id: OpId, content: Bytes)
    | ReadNode(id: OpId, node: Option<NodeRegistry.Node>)  // the registry's row at that moment
    | WriteDispatched(id: OpId, choice: Choice)
    | PublishCommand(id: OpId, sent: bool)
    | DeliverResult(id: OpId, status: Status, choice: Choice)
    | Monitor(expired: set<OpId>)
    | Receive(worker: WorkerId, id: OpId, command: Command)
    | Work(worker: WorkerId, choice: Choice)
    | Crash(worker: WorkerId, newInstance: string, afterEffect: bool)

  // ---------------------------------------------------------------------------------------
  // Database writes
  // ---------------------------------------------------------------------------------------

  datatype Written = Written(status: Status, reported: bool)

  /** AdvanceStatus followed by the read-back: it may report false after taking effect. */
  function Write(current: Status, next: Status, c: Choice): Written {
    var lands := CanAdvance(current, next) && (!c.dbError || c.effect);
    Written(if lands then next else current,
            lands && !c.dbError && (current != next || c.moved))
  }

  // ---------------------------------------------------------------------------------------
  // The worker
  // ---------------------------------------------------------------------------------------

  predicate Executing(pc: Pc) {
    !pc.Idle? && !pc.Claiming?
  }

  /** What the handler does at a position: the four kinds of effect it has. */
  datatype Action =
    | Claim
    | Advance(next: Status, givesUp: bool)  // `givesUp`: the handler returns when this write is not confirmed
    | Report(result: Status)
    | OnHost                                // files, container, health probe, download

  function ActionAt(pc: Pc): Action {
    match pc
    case Claiming => Claim
    case ReportingRunning => Report(Running)
    case ReportingTransferred => Report(Transferred)
    case EnteringBackup => Advance(BackupCreated, false)
    case EnteringApply => Advance(Applying, false)
    case EnteringHealth => Advance(HealthChecking, false)
    case ReportingSucceeded => Report(Succeeded)
    case Failing => Advance(Failed, true)
    case ReportingFailed => Report(Failed)
    case RollbackMarkFailed => Advance(Failed, false)
    case RollbackReportFailed => Report(Failed)
    case RollbackStart => Advance(RollingBack, true)
    case RollbackReportStart => Report(RollingBack)
    case RollbackEnterHealth => Advance(RollbackHealthChecking, false)
    case RollbackReportHealth => Report(RollbackHealthChecking)
    case RollbackFinish => Advance(RolledBack, true)
    case RollbackReportFinished => Report(RolledBack)
    case RollbackFailing => Advance(RollbackFailed, true)
    case RollbackReportFailing => Report(RollbackFailed)
    case _ => OnHost
  }

  function WriteConfig(h: Host, service: string, content: Bytes, applied: bool): Host {
    h.(configs := h.configs[service := content], applied := applied,
       restarted := h.restarted - {service}, probed := h.probed - {service})
  }

  function RestartContainer(h: Host, service: string, ok: bool): Host {
    h.(restarted := if ok && service in h.configs then h.restarted[service := h.configs[service]]
                    else h.restarted - {service},
       probed := h.probed - {service})
  }

  function ProbeHealth(h: Host, service: string, ok: bool): Host {
    if ok && service in h.restarted then h.(probed := h.probed[service := h.restarted[service]]) else h
  }

  /** The service is managed and has a health URL. */
  predicate HasHealthUrl(s: State, service: string) {
    service in s.catalog && s.catalog[service]
  }

  /** Whether the Go call at an OnHost position returns without error. */
  function HostOk(s: State, wk: Worker, c: Choice): bool {
    var service := wk.command.service;
    match wk.pc
    case Downloading => c.ok && |c.bytes| == wk.command.size && s.sha(c.bytes) == wk.command.sha
    case CheckingHealth | RollbackCheckingHealth => c.ok && HasHealthUrl(s, service)
    case Restoring => c.ok && service in s.catalog && wk.host.backupPath in wk.host.backups
    case _ => c.ok
  }

  /** What the call does to the worker's host. */
  function HostEffect(wk: Worker, c: Choice, ok: bool): Host {
    var h, service := wk.host, wk.command.service;
    match wk.pc
    case Downloading => if ok then h.(staged := c.bytes) else h
    case BackingUp =>
      var path := "backups/" + service + "/" + c.stamp;
      if ok && service in h.configs
      then h.(backups := h.backups[path := h.configs[service]], backupPath := path) else h
    case ApplyingFile => if ok then WriteConfig(h, service, h.staged, true) else h
    case Restarting | RollbackRestarting => RestartContainer(h, service, ok)
    case CheckingHealth | RollbackCheckingHealth => ProbeHealth(h, service, ok)
    case Restoring =>
      if ok && h.backupPath in h.backups then WriteConfig(h, service, h.backups[h.backupPath], false) else h
    case _ => h
  }

  /** The effect of the action at wk.pc; `ok` is what the Go call returned. */
  datatype Effect = Effect(op: Operation, host: Host, ok: bool)

  function Perform(s: State, op: Operation, wk: Worker, w: WorkerId, c: Choice): Effect {
    match ActionAt(wk.pc)
    case Claim =>
      var lands := op.status == Dispatched && (!c.dbError || c.effect);
      Effect(if lands then op.(status := Running, owner := Some(w), past := op.past.(claims := op.past.claims + 1))
             else op,
             wk.host, lands && !c.dbError)
    case Advance(next, givesUp) =>
      if wk.pc.EnteringBackup? && wk.command.service !in s.catalog then Effect(op, wk.host, false)
      else
        var r := Write(op.status, next, c);
        Effect(op.(status := r.status, past := op.past.(faulted := op.past.faulted || (givesUp && c.dbError))),
               wk.host, r.reported)
    case Report(result) =>
      Effect(if c.ok || c.sent then op.(results := op.results + {result}) else op, wk.host, c.ok)
    case OnHost =>
      var ok := HostOk(s, wk, c);
      Effect(op.(past := op.past.(backups := op.past.backups + if wk.pc.BackingUp? then 1 else 0,
                                  applies := op.past.applies + if wk.pc.ApplyingFile? then 1 else 0)),
             HostEffect(wk, c, ok), ok)
  }

  /** handleCommand's choice once executeUpdate has failed. */
  function OnError(backedUp: bool): Pc {
    if backedUp then RollbackMarkFailed else Failing
  }

  /** The control flow of the handler: where it goes after the action at `pc` returned `ok`. */
  function Goto(pc: Pc, ok: bool, backedUp: bool): Pc {
    match pc
    case Idle => Idle
    case Claiming => if ok then ReportingRunning else Idle
    case ReportingRunning => if ok then Downloading else Idle
    case Downloading => if ok then ReportingTransferred else Failing
    case ReportingTransferred => if ok then EnteringBackup else Idle
    case EnteringBackup => if ok then BackingUp else Failing
    case BackingUp => if ok then EnteringApply else Failing
    case EnteringApply => if ok then ApplyingFile else OnError(backedUp)
    case ApplyingFile => if ok then Restarting else OnError(backedUp)
    case Restarting => if ok then EnteringHealth else OnError(backedUp)
    case EnteringHealth => if ok then CheckingHealth else OnError(backedUp)
    case CheckingHealth => if ok then ReportingSucceeded else OnError(backedUp)
    case ReportingSucceeded => Idle
    case Failing => if ok then ReportingFailed else Idle
    case ReportingFailed => Idle
    case RollbackMarkFailed => RollbackReportFailed
    case RollbackReportFailed => RollbackStart
    case RollbackStart => if ok then RollbackReportStart else Idle
    case RollbackReportStart => Restoring
    case Restoring => if ok then RollbackRestarting else RollbackFailing
    case RollbackRestarting => if ok then RollbackEnterHealth else RollbackFailing
    case RollbackEnterHealth => RollbackReportHealth
    case RollbackReportHealth => RollbackCheckingHealth
    case RollbackCheckingHealth => if ok then RollbackFinish else RollbackFailing
    case RollbackFinish => if ok then RollbackReportFinished else Idle
    case RollbackReportFinished => Idle
    case RollbackFailing => if ok then RollbackReportFailing else Idle
    case RollbackReportFailing => Idle
  }

  /** One action of worker `w` on its operation, then its move. */
  function Act(s: State, op: Operation, wk: Worker, w: WorkerId, c: Choice): (Operation, Worker) {
    var e := Perform(s, op, wk, w, c);
    (e.op, wk.(pc := Goto(wk.pc, e.ok, e.host.backupPath != ""), host := e.host))
  }

  /** A process that dies while replacing the config leaves the old or the new file. */
  function CrashedFiles(wk: Worker, afterEffect: bool): Host {
    var h, service := wk.host, wk.command.service;
    if afterEffect && wk.pc.ApplyingFile? then WriteConfig(h, service, h.staged, true)
    else if afterEffect && wk.pc.Restoring? && h.backupPath in h.backups
    then WriteConfig(h, service, h.backups[h.backupPath], false)
    else h
  }

  // ---------------------------------------------------------------------------------------
  // The whole system
  // ---------------------------------------------------------------------------------------

  function NewOperation(service: string, nodeId: string): Operation {
    Operation(Pending, service, nodeId, None, AwaitingUpload, {}, {}, None, History(0, 0, 0, 0, false))
  }

  function CommandFor(id: OpId, op: Operation, instance: string): Command
    requires op.upload.Some?
  {
    Command(id, op.service, instance, |op.upload.value.content|, op.upload.value.sha)
  }

  /** The steps of the upload-finished hook on its own operation. */
  function EntryStep(s: State, op: Operation, l: Label): Operation {
    match l
    case FinishUpload(_, content) =>
      // a second metadata row for the operation violates the primary key
      if op.upload.None? then op.(upload := Some(Upload(content, s.sha(content))), entry := ReadingNode) else op
    case ReadNode(_, node) =>
      if !op.entry.ReadingNode? then op
      else op.(entry := if node.Some? && node.value.status.Online? then Dispatching(node.value.instance) else DispatchEnded)
    case WriteDispatched(_, c) =>
      if !op.entry.Dispatching? then op
      else
        var r := Write(op.status, Dispatched, c);
        op.(status := r.status,
            past := op.past.(dispatches := op.past.dispatches + if r.status != op.status then 1 else 0),
            entry := if r.reported then PublishingCommand(op.entry.instance) else DispatchEnded)
    case PublishCommand(id, sent) =>
      if !op.entry.PublishingCommand? || op.upload.None? then op
      else op.(commands := if sent then op.commands + {CommandFor(id, op, op.entry.instance)} else op.commands,
               entry := DispatchEnded)
    case DeliverResult(_, result, c) =>
      if result in op.results then op.(status := Write(op.status, result, c).status) else op
    case _ => op
  }

  predicate Accepts(op: Operation, wk: Worker, command: Command) {
    && wk.pc.Idle?
    && command in op.commands
    && op.nodeId == wk.nodeId
    && (command.nodeInstance == "" || command.nodeInstance == wk.instance)
  }

  function Step(s: State, l: Label): State {
    match l
    case CreateOperation(id, service, nodeId) =>
      if id in s.ops then s else s.(ops := s.ops[id := NewOperation(service, nodeId)])
    case Monitor(expired) =>
      s.(ops := map id | id in s.ops ::
           if id in expired then s.ops[id].(status := Reap(s.ops[id].status)) else s.ops[id])
    case Receive(w, id, command) =>
      if w in s.workers && id in s.ops && Accepts(s.ops[id], s.workers[w], command) then
        var wk := s.workers[w];
        var host := wk.host.(staged := [], backupPath := "", before := wk.host.configs, applied := false);
        s.(workers := s.workers[w := wk.(pc := Claiming, command := command, host := host)])
      else s
    case Work(w, c) =>
      if w in s.workers && s.workers[w].command.op in s.ops && !s.workers[w].pc.Idle? then
        var id := s.workers[w].command.op;
        var (op, wk) := Act(s, s.ops[id], s.workers[w], w, c);
        s.(ops := s.ops[id := op], workers := s.workers[w := wk])
      else s
    case Crash(w, newInstance, afterEffect) =>
      if w !in s.workers then s
      else
        var wk := s.workers[w];
        var dead := wk.(pc := Idle, instance := newInstance, host := CrashedFiles(wk, afterEffect));
        var id := wk.command.op;
        var ops := if Executing(wk.pc) && id in s.ops
                   then s.ops[id := s.ops[id].(past := s.ops[id].past.(faulted := true))] else s.ops;
        s.(ops := ops, workers := s.workers[w := dead])
    case _ =>
      if l.id in s.ops then s.(ops := s.ops[l.id := EntryStep(s, s.ops[l.id], l)]) else s
  }

  /** The state after a schedule. */
  function Run(s: State, ls: seq<Label>): State
    decreases |ls|
  {
    if ls == [] then s else Run(Step(s, ls[0]), ls[1..])
  }

  /** No operations yet and no worker busy; files are whatever they are. */
  predicate Initial(s: State) {
    s.ops == map[] && forall w | w in s.workers :: s.workers[w].pc.Idle?
  }

  lemma {:induction false} RunAppend(s: State, xs: seq<Label>, ys: seq<Label>)
    ensures Run(s, xs + ys) == Run(Run(s, xs), ys)
    decreases |xs|
  {
    if xs == [] {
      assert xs + ys == ys;
    } else {
      assert (xs + ys)[1..] == xs[1..] + ys;
      RunAppend(Step(s, xs[0]), xs[1..], ys);
    }
  }
}
