/**
 The operation status, the rank guard of the `operations` table, and the effect of
 delivering results to it in any order and any number of times.
 */
module Operations {
  import opened Common

  datatype Status =
    | Pending | Dispatched | Running | Transferred | BackupCreated | Applying | HealthChecking
    | Succeeded | Failed | RollingBack | RollbackHealthChecking | RolledBack | RollbackFailed
    | Unknown(text: string)  // any other text: a result message carries an arbitrary string

  const OUTCOME_RANK := 7

  /** The Go switch; None is its "unknown status" result. */
  function StatusRank(s: Status): Option<nat> {
    match s
    case Pending => Some(0)
    case Dispatched => Some(1)
    case Running => Some(2)
    case Transferred => Some(3)
    case BackupCreated => Some(4)
    case Applying => Some(5)
    case HealthChecking => Some(6)
    case Succeeded => Some(7)
    case Failed => Some(7)
    case RollingBack => Some(8)
    case RollbackHealthChecking => Some(9)
    case RolledBack => Some(10)
    case RollbackFailed => Some(11)
    case Unknown(_) => None
  }

  /** The first SQL CASE of the guard. */
  function SqlRank(s: Status): int {
    match s
    case Pending => 0
    case Dispatched => 1
    case Running => 2
    case Transferred => 3
    case BackupCreated => 4
    case Applying => 5
    case HealthChecking => 6
    case Succeeded => 7
    case Failed => 7
    case RollingBack => 8
    case RollbackHealthChecking => 9
    case RolledBack => 10
    case RollbackFailed => 11
    case Unknown(_) => -1
  }

  /** The second SQL CASE, which lets an outcome refresh itself. */
  function SqlOutcomeRank(s: Status): int {
    match s
    case Succeeded => 7
    case Failed => 7
    case _ => -1
  }

  predicate IsTerminal(s: Status) {
    s.Succeeded? || s.Failed? || s.RolledBack? || s.RollbackFailed?
  }

  /** The four statuses named in the timeout monitor's UPDATE. */
  predicate IsReaped(s: Status) {
    s.Dispatched? || s.Running? || s.Transferred? || s.HealthChecking?
  }

  /** The WHERE clause of the guarded UPDATE, with the values bound as AdvanceStatus binds them. */
  predicate GuardAllows(current: Status, next: Status, rank: int) {
    SqlRank(current) < rank || (SqlOutcomeRank(current) == OUTCOME_RANK && current == next)
  }

  predicate CanAdvance(current: Status, next: Status) {
    StatusRank(next).Some? && GuardAllows(current, next, StatusRank(next).value)
  }

  /** The status a row holds after AdvanceStatus(next). */
  function Advance(current: Status, next: Status): Status {
    if CanAdvance(current, next) then next else current
  }

  function Reap(current: Status): Status {
    if IsReaped(current) then Failed else current
  }

  /** Both encodings of the rank agree, and the SQL one places unknown text below everything. */
  lemma RanksAgree(s: Status)
    ensures StatusRank(s) == if SqlRank(s) < 0 then None else Some(SqlRank(s))
    ensures SqlRank(s) <= 11
    ensures SqlOutcomeRank(s) == OUTCOME_RANK <==> SqlRank(s) == OUTCOME_RANK
  {}

  // ---------------------------------------------------------------------------------------
  // The table
  // ---------------------------------------------------------------------------------------

  /** Times are microseconds, the resolution of DATETIME(6). */
  datatype Row = Row(status: Status, service: string, nodeId: string, createdAt: int, updatedAt: int)

  datatype WriteResult = InvalidStatus | Rows(affected: bool)

  /** The rows after one guarded UPDATE of `id`. */
  function AdvanceRows(rows: map<string, Row>, id: string, next: Status, now: int): map<string, Row> {
    if id in rows && CanAdvance(rows[id].status, next)
    then rows[id := rows[id].(status := next, updatedAt := now)]
    else rows
  }

  class OperationTable {
    var rows: map<string, Row>

    constructor ()
      ensures rows == map[]
    {
      rows := map[];
    }

    /** INSERT: the primary key rejects a second row with the same id. */
    method Create(id: string, row: Row) returns (ok: bool)
      modifies this
      ensures ok <==> id !in old(rows)
      ensures rows == if ok then old(rows)[id := row] else old(rows)
    {
      ok := id !in rows;
      if ok {
        rows := rows[id := row];
      }
    }

    /**
     The driver reports rows that CHANGED, so a refresh of an outcome within the same
     microsecond matches the guard and still reports nothing affected.
     */
    method AdvanceStatus(id: string, next: Status, now: int) returns (r: WriteResult)
      modifies this
      ensures rows == AdvanceRows(old(rows), id, next, now)
      ensures rows.Keys == old(rows).Keys
      ensures forall k | k in rows && k != id :: rows[k] == old(rows)[k]
      ensures id in rows ==>
                var was := old(rows)[id];
                rows[id] == if SqlRank(was.status) < SqlRank(next) || (was.status == next && SqlRank(next) == OUTCOME_RANK)
                            then was.(status := next, updatedAt := now) else was
      ensures r.InvalidStatus? <==> next.Unknown?
      ensures r.Rows? ==> (r.affected <==> rows != old(rows))
      ensures r.Rows? && r.affected ==> id in rows && rows[id].status == next
    {
      var rank := StatusRank(next);
      if rank.None? {
        return InvalidStatus;
      }
      var affected := false;
      if id in rows && GuardAllows(rows[id].status, next, rank.value) {
        var row := rows[id].(status := next, updatedAt := now);
        affected := row != rows[id];
        rows := rows[id := row];
      }
      r := Rows(affected);
    }

    /** Compare-and-set DISPATCHED -> RUNNING, then read the row back. */
    method ClaimForExecution(id: string, now: int) returns (claimed: bool, found: Option<Row>)
      modifies this
      ensures claimed <==> id in old(rows) && old(rows)[id].status == Dispatched
      ensures rows == if claimed then old(rows)[id := old(rows)[id].(status := Running, updatedAt := now)]
                      else old(rows)
      ensures found == if id in rows then Some(rows[id]) else None
    {
      claimed := false;
      if id in rows && rows[id].status == Dispatched {
        rows := rows[id := rows[id].(status := Running, updatedAt := now)];
        claimed := true;
      }
      found := if id in rows then Some(rows[id]) else None;
    }

    /** The monitor's bulk UPDATE: unguarded by rank, restricted to four statuses and to old rows. */
    method ReapTimedOut(now: int, timeout: int)
      modifies this
      ensures rows.Keys == old(rows).Keys
      ensures forall id | id in rows ::
                var was := old(rows)[id];
                rows[id] == if IsReaped(was.status) && was.updatedAt < now - timeout
                            then was.(status := Failed, updatedAt := now) else was
    {
      var cutoff := now - timeout;
      rows := map id | id in rows ::
        if IsReaped(rows[id].status) && rows[id].updatedAt < cutoff
        then rows[id].(status := Failed, updatedAt := now)
        else rows[id];
    }
  }

  /** Every writer moves a status strictly up in rank, or leaves it as it is. */
  predicate RankGrows(before: Status, after: Status) {
    after == before || SqlRank(before) < SqlRank(after)
  }

  lemma WritersGrowRank(s: Status, next: Status)
    ensures RankGrows(s, Advance(s, next))
    ensures RankGrows(s, Reap(s))
    ensures RankGrows(Dispatched, Running)
    ensures Advance(Advance(s, next), next) == Advance(s, next)
  {}

  // ---------------------------------------------------------------------------------------
  // Message order
  // ---------------------------------------------------------------------------------------

  /** The status after the results `ms` have been applied in that order. */
  function ApplyAll(s: Status, ms: seq<Status>): Status
    decreases |ms|
  {
    if ms == [] then s else ApplyAll(Advance(s, ms[0]), ms[1..])
  }

  function Elements(ms: seq<Status>): set<Status> {
    set m | m in ms
  }

  /** The only thing that can depend on order: both outcomes are applied, and nothing outranks them. */
  predicate OutcomeTie(s: Status, ms: set<Status>) {
    && SqlRank(s) < OUTCOME_RANK
    && Succeeded in ms && Failed in ms
    && forall m | m in ms :: SqlRank(m) <= OUTCOME_RANK
  }

  /** The result is the starting status or a message, and nothing applied outranks it. */
  lemma {:induction false} ApplyAllIsMaximal(s: Status, ms: seq<Status>)
    ensures ApplyAll(s, ms) == s || ApplyAll(s, ms) in ms
    ensures SqlRank(s) <= SqlRank(ApplyAll(s, ms))
    ensures SqlRank(s) == SqlRank(ApplyAll(s, ms)) ==> ApplyAll(s, ms) == s
    ensures forall m | m in ms :: SqlRank(m) <= SqlRank(ApplyAll(s, ms))
    decreases |ms|
  {
    if ms != [] {
      ApplyAllIsMaximal(Advance(s, ms[0]), ms[1..]);
    }
  }

  /** Of two tied outcomes the first one applied stays. */
  lemma FirstOutcomeWins(s: Status, outcome: Status, ms: seq<Status>)
    requires SqlRank(s) < OUTCOME_RANK
    requires outcome == Succeeded || outcome == Failed
    requires forall m | m in ms :: SqlRank(m) <= OUTCOME_RANK
    ensures ApplyAll(s, [outcome] + ms) == outcome
  {
    assert ([outcome] + ms)[1..] == ms;
    ApplyAllIsMaximal(outcome, ms);
  }

  lemma OrderIndependent(s: Status, xs: seq<Status>, ys: seq<Status>)
    requires Elements(xs) == Elements(ys)
    requires !OutcomeTie(s, Elements(xs))
    ensures ApplyAll(s, xs) == ApplyAll(s, ys)
  {
    var x, y := ApplyAll(s, xs), ApplyAll(s, ys);
    ApplyAllIsMaximal(s, xs);
    ApplyAllIsMaximal(s, ys);
    assert x == s || x in Elements(xs);
    assert y == s || y in Elements(ys);
    assert forall m | m in Elements(xs) :: m in xs && m in ys;
    assert forall m | m in Elements(ys) :: m in xs && m in ys;
  }

  /**
   Results may be permuted and duplicated freely exactly when SUCCEEDED and FAILED do not
   tie at the top. The left side ranges over every delivery sequence of the same messages.
   */
  lemma OrderIndependentIff(s: Status, ms: seq<Status>)
    ensures (forall xs, ys | Elements(xs) == Elements(ms) && Elements(ys) == Elements(ms) ::
               ApplyAll(s, xs) == ApplyAll(s, ys))
       <==> !OutcomeTie(s, Elements(ms))
  {
    if OutcomeTie(s, Elements(ms)) {
      var xs, ys := [Succeeded] + ms, [Failed] + ms;
      assert forall m | m in ms :: m in Elements(ms);
      FirstOutcomeWins(s, Succeeded, ms);
      FirstOutcomeWins(s, Failed, ms);
      assert Elements(xs) == Elements(ms) && Elements(ys) == Elements(ms);
    } else {
      forall xs, ys | Elements(xs) == Elements(ms) && Elements(ys) == Elements(ms)
        ensures ApplyAll(s, xs) == ApplyAll(s, ys)
      {
        OrderIndependent(s, xs, ys);
      }
    }
  }
}
