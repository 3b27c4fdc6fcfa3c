/**
 The entry service's side of an operation: the upload-finished hook with its dispatch, and the
 handler of worker results, each interleaved with everything else in the system.
 */
module EntryServer {
  import opened Common
  import opened Operations
  import opened Protocol
  import opened ProtocolInvariant
  import opened ProtocolTheorems
  import opened ProtocolProgress
  import NodeRegistry

  /** A step of the upload-finished hook of `id`, after the one that stores the metadata. */
  predicate IsHookOf(l: Label, id: OpId) {
    (l.ReadNode? || l.WriteDispatched? || l.PublishCommand?) && l.id == id
  }

  /** The answers of the upload-created hook. */
  datatype Gate = Accepted | BadRequest | Conflict | LookupFailed

  class Server {
    var system: State

    constructor (system: State)
      requires Reachable(system)
      ensures Reachable(this.system) && this.system == system
    {
      this.system := system;
    }

    /**
     The gate before an upload. Only a pending operation passes, and passing means that nothing
     was dispatched, claimed or reported yet. The repository passes the driver's "no rows" on
     as it is, so an unknown operation is a failed lookup, not a "not found".
     */
    method OnUploadCreate(id: OpId, dbError: bool) returns (r: Gate)
      requires Reachable(system)
      ensures r.Accepted? <==> id != "" && !dbError && id in system.ops && system.ops[id].status == Pending
      ensures r.BadRequest? <==> id == ""
      ensures r.Accepted? ==> system.ops[id].past == History(0, 0, 0, 0, false) && system.ops[id].results == {}
      ensures r.Conflict? <==> id != "" && !dbError && id in system.ops && system.ops[id].status != Pending
    {
      if id == "" {
        return BadRequest;
      }
      if dbError || id !in system.ops {
        return LookupFailed;
      }
      if system.ops[id].status != Pending {
        return Conflict;
      }
      PendingIsUntouched(system, id);
      r := Accepted;
    }

    /** Everything but the hook of `id`; the hook runs once, since metadata is stored once. */
    method OthersMove(id: OpId)
      requires Reachable(system) && id in system.ops && system.ops[id].upload.Some?
      modifies this
      ensures Reachable(system) && id in system.ops && system.sha == old(system.sha)
      ensures var was, op := old(system.ops[id]), system.ops[id];
              op.upload == was.upload && op.entry == was.entry && op.commands == was.commands
              && op.past.dispatches == was.past.dispatches
    {
      var steps: nat := *;
      while steps > 0
        invariant Reachable(system) && id in system.ops && system.sha == old(system.sha)
        invariant var was, op := old(system.ops[id]), system.ops[id];
                  op.upload == was.upload && op.entry == was.entry && op.commands == was.commands
                  && op.past.dispatches == was.past.dispatches
      {
        var l: Label := *;
        if !IsHookOf(l, id) {
          OthersLeaveHook(system, l, id);
          ReachableStep(system, l);
          system := Step(system, l);
        }
        steps := steps - 1;
      }
    }

    /**
     Hash, store the metadata, read the node, write DISPATCHED, publish the command. A second
     upload for the same operation changes nothing, and neither does one that cannot be hashed
     or stored. Success means that the node was found ONLINE and that the operation was
     dispatched exactly once, with one command for that row's instance describing exactly the
     uploaded bytes.
     */
    method OnUploadFinish(id: OpId, content: Bytes, hashed: bool, stored: bool, answers: Answers) returns (ok: bool)
      requires Reachable(system)
      modifies this
      ensures Reachable(system)
      ensures var begins := id in old(system.ops) && old(system.ops[id].upload.None?) && hashed && stored;
              && (!begins ==> !ok && system == old(system))
              && (begins ==> ok == answers.Dispatches() && id in system.ops && IsDispatched(id, answers)
                             && system.ops[id].upload == Some(Upload(content, system.sha(content))))
    {
      if !hashed {
        return false;
      }
      if !stored || id !in system.ops || system.ops[id].upload.Some? {
        return false;  // or the foreign key, or the primary key, of the metadata table
      }
      ReachableStep(system, FinishUpload(id, content));
      HookStarts(system, id, content);
      system := Step(system, FinishUpload(id, content));
      ok := Dispatch(id, answers);
    }

    /** What the hook has done to `id`, given the answers it got. */
    predicate IsDispatched(id: OpId, answers: Answers)
      requires id in system.ops
      reads this
    {
      var op := system.ops[id];
      && op.past.dispatches == (if answers.IsOnline() && (!answers.write.dbError || answers.write.effect) then 1 else 0)
      && op.upload.Some?
      && op.commands == (if answers.IsOnline() && !answers.write.dbError && (answers.flushed || answers.sent)
                         then {Command(id, op.service, answers.node.value.instance,
                                       |op.upload.value.content|, op.upload.value.sha)}
                         else {})
    }

    /**
     A node that is not ONLINE, or has no row, gets no command and the operation is not
     dispatched; an ONLINE one gets the command exactly when the write was confirmed and the
     message left.
     */
    method Dispatch(id: OpId, answers: Answers) returns (ok: bool)
      requires Reachable(system) && id in system.ops && system.ops[id].entry.ReadingNode?
      modifies this
      ensures Reachable(system) && id in system.ops && system.sha == old(system.sha)
      ensures system.ops[id].upload == old(system.ops[id].upload)
      ensures ok <==> answers.node.Some? && answers.node.value.status == NodeRegistry.Online
                      && !answers.write.dbError && answers.flushed
      ensures IsDispatched(id, answers)
    {
      HookIsFresh(system, id);
      OthersMove(id);
      ReachableStep(system, ReadNode(id, answers.node));
      DispatchingIff(system, ReadNode(id, answers.node), id);
      system := Step(system, ReadNode(id, answers.node));
      if !system.ops[id].entry.Dispatching? {
        return false;  // the node is not ONLINE
      }
      ok := WriteAndPublish(id, answers);
    }

    method WriteAndPublish(id: OpId, answers: Answers) returns (ok: bool)
      requires Reachable(system) && id in system.ops && system.ops[id].upload.Some?
      requires answers.IsOnline() && system.ops[id].entry == Dispatching(answers.node.value.instance)
      modifies this
      ensures Reachable(system) && id in system.ops && system.sha == old(system.sha)
      ensures system.ops[id].upload == old(system.ops[id].upload)
      ensures ok <==> !answers.write.dbError && answers.flushed
      ensures IsDispatched(id, answers)
    {
      OthersMove(id);
      HookIsFresh(system, id);
      var written := Write(system.ops[id].status, Dispatched, answers.write);
      ReachableStep(system, WriteDispatched(id, answers.write));
      system := Step(system, WriteDispatched(id, answers.write));
      if !written.reported {
        return false;
      }
      ok := PublishOnce(id, answers);
    }

    /** Publish, then flush: a failed flush may follow a command that left. */
    method PublishOnce(id: OpId, answers: Answers) returns (ok: bool)
      requires Reachable(system) && id in system.ops && system.ops[id].upload.Some?
      requires answers.IsOnline() && system.ops[id].entry == PublishingCommand(answers.node.value.instance)
      modifies this
      ensures Reachable(system) && id in system.ops && system.sha == old(system.sha)
      ensures system.ops[id].upload == old(system.ops[id].upload)
      ensures ok == answers.flushed
      ensures !answers.write.dbError ==> IsDispatched(id, answers)
    {
      OthersMove(id);
      var sent := answers.flushed || answers.sent;
      ReachableStep(system, PublishCommand(id, sent));
      HookPublishes(system, id, sent);
      system := Step(system, PublishCommand(id, sent));
      ok := answers.flushed;
    }

    /**
     A result counts: unless the database fails, the row ends at its rank or above, and at the
     result itself when it was below. A late, repeated or lower-ranked one changes nothing, and
     none moves a final outcome.
     */
    method HandleResult(id: OpId, result: Status, choice: Choice) returns (updated: bool)
      requires Reachable(system) && (id in system.ops ==> result in system.ops[id].results)
      modifies this
      ensures Reachable(system)
      ensures id !in old(system.ops) ==> !updated && system == old(system)
      ensures id in old(system.ops) ==>
                && id in system.ops
                && var before, after := old(system.ops[id]).status, system.ops[id].status;
                && (!choice.dbError ==> SqlRank(after) >= SqlRank(result))
                && (!choice.dbError && SqlRank(before) < SqlRank(result) ==> updated && after == result)
                && (SqlRank(before) >= SqlRank(result) || IsFinal(before) ==> after == before)
                && (choice.dbError ==> !updated)
                && system.ops[id] == old(system.ops[id]).(status := after)
    {
      if id !in system.ops {
        return false;  // the UPDATE matches no row
      }
      updated := Write(system.ops[id].status, result, choice).reported;
      var l := DeliverResult(id, result, choice);
      ReachableInv(system);
      ResultsAreKnown(system, id);
      if IsFinal(system.ops[id].status) {
        StepKeepsFinal(system, l, id);
      }
      DeliveryMeans(system, id, result, choice);
      ReachableStep(system, l);
      system := Step(system, l);
    }
  }

  /** What the registry, the database and the network answer to the hook. */
  datatype Answers = Answers(node: Option<NodeRegistry.Node>, write: Choice, flushed: bool, sent: bool) {
    predicate IsOnline() {
      node.Some? && node.value.status == NodeRegistry.Online
    }

    predicate Dispatches() {
      IsOnline() && !write.dbError && flushed
    }
  }

  lemma DeliveryMeans(s: State, id: OpId, r: Status, c: Choice)
    requires id in s.ops && r in s.ops[id].results && !r.Unknown?
    ensures var before, w, t := s.ops[id].status, Write(s.ops[id].status, r, c), Step(s, DeliverResult(id, r, c));
            && id in t.ops && t.ops[id] == s.ops[id].(status := t.ops[id].status)
            && (!c.dbError ==> SqlRank(t.ops[id].status) >= SqlRank(r))
            && (!c.dbError && SqlRank(before) < SqlRank(r) ==> w.reported && t.ops[id].status == r)
            && (SqlRank(before) >= SqlRank(r) ==> t.ops[id].status == before)
            && (c.dbError ==> !w.reported)
  {
    RanksAgree(r);
  }

  lemma HookStarts(s: State, id: OpId, content: Bytes)
    requires id in s.ops && s.ops[id].upload.None?
    ensures var t := Step(s, FinishUpload(id, content));
            id in t.ops && t.ops[id].entry.ReadingNode? && t.ops[id].upload == Some(Upload(content, s.sha(content)))
            && t.sha == s.sha
  {}

  /** Until it has written DISPATCHED, the hook has dispatched and published nothing. */
  lemma HookIsFresh(s: State, id: OpId)
    requires Reachable(s) && id in s.ops && (s.ops[id].entry.ReadingNode? || s.ops[id].entry.Dispatching?)
    ensures s.ops[id].upload.Some? && s.ops[id].commands == {} && s.ops[id].past.dispatches == 0
    ensures s.ops[id].status == Pending
  {
    ReachableInv(s);
    assert OperationOk(s, id);
  }

  lemma PendingIsUntouched(s: State, id: OpId)
    requires Reachable(s) && id in s.ops && s.ops[id].status == Pending
    ensures s.ops[id].past == History(0, 0, 0, 0, false) && s.ops[id].results == {}
  {
    ReachableInv(s);
    assert OperationOk(s, id);
  }

  lemma ActLeavesHook(s: State, op: Operation, wk: Worker, w: WorkerId, c: Choice)
    ensures var op' := Act(s, op, wk, w, c).0;
            op'.upload == op.upload && op'.entry == op.entry && op'.commands == op.commands
            && op'.past.dispatches == op.past.dispatches
  {}

  lemma OthersLeaveHook(s: State, l: Label, id: OpId)
    requires id in s.ops && s.ops[id].upload.Some? && !IsHookOf(l, id)
    ensures var s' := Step(s, l);
            && id in s'.ops && s'.sha == s.sha
            && var op, op' := s.ops[id], s'.ops[id];
            && op'.upload == op.upload && op'.entry == op.entry && op'.commands == op.commands
            && op'.past.dispatches == op.past.dispatches
  {
    if l.Work? && l.worker in s.workers && s.workers[l.worker].command.op == id {
      ActLeavesHook(s, s.ops[id], s.workers[l.worker], l.worker, l.choice);
    }
  }

  lemma HookPublishes(s: State, id: OpId, sent: bool)
    requires Reachable(s) && id in s.ops && s.ops[id].entry.PublishingCommand?
    ensures s.ops[id].upload.Some? && s.ops[id].past.dispatches == 1 && s.ops[id].commands == {}
    ensures var command := CommandFor(id, s.ops[id], s.ops[id].entry.instance);
            Step(s, PublishCommand(id, sent)).ops[id].commands == if sent then {command} else {}
  {
    ReachableInv(s);
    assert OperationOk(s, id);
    assert {} + {CommandFor(id, s.ops[id], s.ops[id].entry.instance)} == {CommandFor(id, s.ops[id], s.ops[id].entry.instance)};
  }
}
