/**
 The registry of worker nodes: leases, instance fencing and draining. The table's methods are
 proved against functions on one row; the theorems are about every history of one node, in
 the order in which the database serialised it.
 */
module NodeRegistry {
  import opened Common

  datatype NodeStatus = Online | Draining | Offline

  /**
   Times are microseconds, the resolution of DATETIME(6). No statement ever stores an empty
   instance, which the type of the field makes every one of them prove.
   */
  datatype Node = Node(instance: InstanceId, status: NodeStatus, lastSeenAt: int, leaseExpiresAt: int,
                       createdAt: int, updatedAt: int)

  datatype Event =
    | Register(instance: InstanceId, now: int)
    | Heartbeat(instance: InstanceId, now: int)
    | Goodbye(instance: InstanceId, now: int)
    | Tick(now: int)                              // RunNodeMonitor calls MarkExpired
    | SetDraining(draining: bool, now: int)

  // ---------------------------------------------------------------------------------------
  // The statements on one row
  // ---------------------------------------------------------------------------------------

  /** INSERT ... ON DUPLICATE KEY UPDATE: a draining node stays draining across restarts. */
  function Registered(n: Option<Node>, instance: InstanceId, now: int, lease: int): Node {
    match n
    case None => Node(instance, Online, now, now + lease, now, now)
    case Some(row) =>
      row.(instance := instance, status := if row.status.Draining? then Draining else Online,
           lastSeenAt := now, leaseExpiresAt := now + lease, updatedAt := now)
  }

  function Beaten(row: Node, now: int, leaseExpiresAt: int): Node {
    row.(status := if row.status.Draining? then Draining else Online,
         lastSeenAt := now, leaseExpiresAt := leaseExpiresAt, updatedAt := now)
  }

  function Departed(row: Node, now: int): Node {
    row.(status := if row.status.Draining? then Draining else Offline, leaseExpiresAt := now, updatedAt := now)
  }

  function Expired(row: Node, now: int): Node {
    if (row.status.Online? || row.status.Draining?) && row.leaseExpiresAt <= now
    then row.(status := if row.status.Draining? then Draining else Offline, updatedAt := now)
    else row
  }

  function Drained(row: Node, draining: bool, now: int): Node {
    if row.status.Offline? then row
    else row.(status := if draining then Draining else Online, updatedAt := now)
  }

  function Apply(n: Option<Node>, e: Event, lease: int): Option<Node> {
    match e
    case Register(instance, now) => Some(Registered(n, instance, now, lease))
    case Heartbeat(instance, now) =>
      if n.Some? && n.value.instance == instance then Some(Beaten(n.value, now, now + lease)) else n
    case Goodbye(instance, now) =>
      if n.Some? && n.value.instance == instance then Some(Departed(n.value, now)) else n
    case Tick(now) => if n.Some? then Some(Expired(n.value, now)) else n
    case SetDraining(draining, now) => if n.Some? then Some(Drained(n.value, draining, now)) else n
  }

  // ---------------------------------------------------------------------------------------
  // The table
  // ---------------------------------------------------------------------------------------

  datatype Outcome = Ok | NotFound | NodeOffline | StaleInstance | InvalidMessage

  const DEFAULT_LEASE := 15_000_000

  function EffectiveLease(lease: int): int {
    if lease <= 0 then DEFAULT_LEASE else lease
  }

  function RowOf(nodes: map<string, Node>, id: string): Option<Node> {
    if id in nodes then Some(nodes[id]) else None
  }

  function WithRow(nodes: map<string, Node>, id: string, n: Option<Node>): map<string, Node> {
    if n.Some? then nodes[id := n.value] else nodes
  }

  /** The tables agree on every node but `id`. */
  ghost predicate SameElsewhere(was: map<string, Node>, now: map<string, Node>, id: string) {
    now.Keys + {id} == was.Keys + {id} && forall k | k in now && k != id :: k in was && now[k] == was[k]
  }

  class NodeTable {
    var nodes: map<string, Node>

    constructor ()
      ensures nodes == map[]
    {
      nodes := map[];
    }

    /** processNodeRegister and Register. */
    method Register(id: string, instance: string, now: int, lease: int) returns (r: Outcome)
      modifies this
      ensures r == if id == "" || instance == "" then InvalidMessage else Ok
      ensures SameElsewhere(old(nodes), nodes, id)
      ensures r.Ok? ==>
                && id in nodes && nodes[id].instance == instance
                && nodes[id].status == (if id in old(nodes) && old(nodes)[id].status.Draining? then Draining else Online)
                && nodes[id].lastSeenAt == nodes[id].updatedAt == now
                && nodes[id].leaseExpiresAt == now + EffectiveLease(lease)
                && nodes[id].createdAt == (if id in old(nodes) then old(nodes)[id].createdAt else now)
      ensures nodes == if r.InvalidMessage? then old(nodes)
                       else WithRow(old(nodes), id, Apply(RowOf(old(nodes), id), Event.Register(instance, now), EffectiveLease(lease)))
    {
      if id == "" || instance == "" {
        return InvalidMessage;
      }
      var expires := now + EffectiveLease(lease);
      if id in nodes {
        var row := nodes[id];
        var status := if row.status.Draining? then Draining else Online;
        nodes := nodes[id := row.(instance := instance, status := status, lastSeenAt := now,
                                  leaseExpiresAt := expires, updatedAt := now)];
      } else {
        nodes := nodes[id := Node(instance, Online, now, expires, now, now)];
      }
      r := Ok;
    }

    /** processNodeHeartbeat and Heartbeat: a row that would not change counts as stale. */
    method Heartbeat(id: string, instance: string, now: int, lease: int) returns (r: Outcome)
      modifies this
      ensures r.InvalidMessage? <==> id == "" || instance == ""
      ensures nodes == if r.InvalidMessage? then old(nodes)
                       else WithRow(old(nodes), id, Apply(RowOf(old(nodes), id), Event.Heartbeat(instance, now), EffectiveLease(lease)))
      ensures !r.InvalidMessage? ==> (r.StaleInstance? <==> nodes == old(nodes)) && (r.Ok? || r.StaleInstance?)
      ensures SameElsewhere(old(nodes), nodes, id) && nodes.Keys == old(nodes).Keys
      ensures id in nodes && !r.InvalidMessage? ==>
                var was := old(nodes)[id];
                nodes[id] == if was.instance != instance then was
                             else was.(status := if was.status.Draining? then Draining else Online, lastSeenAt := now,
                                       leaseExpiresAt := now + EffectiveLease(lease), updatedAt := now)
    {
      if id == "" || instance == "" {
        return InvalidMessage;
      }
      r := StaleInstance;
      if id in nodes && nodes[id].instance == instance {
        var row := nodes[id];
        var status := if row.status.Draining? then Draining else Online;
        var beaten := row.(status := status, lastSeenAt := now,
                           leaseExpiresAt := now + EffectiveLease(lease), updatedAt := now);
        if beaten != row {
          r := Ok;
        }
        nodes := nodes[id := beaten];
      }
    }

    /** processNodeGoodbye and Goodbye. */
    method Goodbye(id: string, instance: string, now: int) returns (r: Outcome)
      modifies this
      ensures r.InvalidMessage? <==> id == "" || instance == ""
      ensures nodes == if r.InvalidMessage? then old(nodes)
                       else WithRow(old(nodes), id, Apply(RowOf(old(nodes), id), Event.Goodbye(instance, now), 0))
      ensures !r.InvalidMessage? ==> (r.StaleInstance? <==> nodes == old(nodes)) && (r.Ok? || r.StaleInstance?)
      ensures SameElsewhere(old(nodes), nodes, id) && nodes.Keys == old(nodes).Keys
      ensures id in nodes && !r.InvalidMessage? ==>
                var was := old(nodes)[id];
                nodes[id] == if was.instance != instance then was
                             else was.(status := if was.status.Draining? then Draining else Offline,
                                       leaseExpiresAt := now, updatedAt := now)
    {
      if id == "" || instance == "" {
        return InvalidMessage;
      }
      r := StaleInstance;
      if id in nodes && nodes[id].instance == instance {
        var row := nodes[id];
        var status := if row.status.Draining? then Draining else Offline;
        var gone := row.(status := status, leaseExpiresAt := now, updatedAt := now);
        if gone != row {
          r := Ok;
        }
        nodes := nodes[id := gone];
      }
    }

    /** One UPDATE over the whole table. */
    method MarkExpired(now: int)
      modifies this
      ensures nodes.Keys == old(nodes).Keys
      ensures forall id | id in nodes :: Some(nodes[id]) == Apply(Some(old(nodes)[id]), Tick(now), 0)
      ensures forall id | id in nodes ::
                var was := old(nodes)[id];
                nodes[id] == if was.status.Offline? || now < was.leaseExpiresAt then was
                             else was.(status := if was.status.Draining? then Draining else Offline, updatedAt := now)
    {
      nodes := map id | id in nodes ::
        if (nodes[id].status.Online? || nodes[id].status.Draining?) && nodes[id].leaseExpiresAt <= now
        then nodes[id].(status := if nodes[id].status.Draining? then Draining else Offline, updatedAt := now)
        else nodes[id];
    }

    /** When nothing was affected the row is read to find out why. */
    method SetDraining(id: string, draining: bool, now: int) returns (r: Outcome)
      modifies this
      ensures nodes == WithRow(old(nodes), id, Apply(RowOf(old(nodes), id), Event.SetDraining(draining, now), 0))
      ensures SameElsewhere(old(nodes), nodes, id) && nodes.Keys == old(nodes).Keys
      ensures r.Ok? ==>
                id in nodes && nodes[id] == old(nodes)[id].(status := if draining then Draining else Online, updatedAt := now)
      ensures !r.Ok? ==> nodes == old(nodes)
      ensures r == if id !in old(nodes) then NotFound
                   else if old(nodes)[id].status.Offline? then NodeOffline else Ok
    {
      var affected := false;
      if id in nodes && !nodes[id].status.Offline? {
        var row := nodes[id].(status := if draining then Draining else Online, updatedAt := now);
        affected := row != nodes[id];
        nodes := nodes[id := row];
      }
      if affected {
        return Ok;
      }
      if id !in nodes {
        return NotFound;
      }
      r := if nodes[id].status.Offline? then NodeOffline else Ok;
    }
  }

  // ---------------------------------------------------------------------------------------
  // Histories of one node
  // ---------------------------------------------------------------------------------------

  /** The row after a history that began with no row. */
  function After(es: seq<Event>, lease: int): Option<Node>
    decreases |es|
  {
    if es == [] then None else Apply(After(es[..|es| - 1], lease), es[|es| - 1], lease)
  }

  /** The instance that registered last. */
  function Current(es: seq<Event>): Option<string>
    decreases |es|
  {
    if es == [] then None
    else
      var e := es[|es| - 1];
      if e.Register? then Some(e.instance) else Current(es[..|es| - 1])
  }

  /** Position `k` is a registration, or a heartbeat of the instance current at that point. */
  predicate IsRenewal(es: seq<Event>, k: nat)
    requires k < |es|
  {
    es[k].Register? || (es[k].Heartbeat? && Current(es[..k]) == Some(es[k].instance))
  }

  /** When the node was last renewed. */
  function RenewedAt(es: seq<Event>): Option<int>
    decreases |es|
  {
    if es == [] then None
    else if IsRenewal(es, |es| - 1) then Some(es[|es| - 1].now)
    else RenewedAt(es[..|es| - 1])
  }

  lemma {:induction false} CurrentIsRecorded(es: seq<Event>, lease: int)
    ensures After(es, lease).Some? <==> Current(es).Some?
    ensures After(es, lease).Some? ==> After(es, lease).value.instance == Current(es).value
    decreases |es|
  {
    if es != [] {
      CurrentIsRecorded(es[..|es| - 1], lease);
    }
  }

  lemma PrefixOfPrefix(es: seq<Event>, n: nat, k: nat)
    requires k <= n <= |es|
    ensures es[..n][..k] == es[..k]
  {}

  /** Every monitor tick comes less than a lease after the last renewal, and nobody current leaves. */
  predicate Attended(es: seq<Event>, lease: int) {
    forall k | 0 <= k < |es| ::
      && (es[k].Tick? && RenewedAt(es[..k]).Some? ==> es[k].now < RenewedAt(es[..k]).value + lease)
      && (es[k].Goodbye? ==> Current(es[..k]) != Some(es[k].instance))
  }

  lemma {:induction false} AttendedLease(es: seq<Event>, lease: int)
    requires Attended(es, lease)
    ensures After(es, lease).Some? <==> RenewedAt(es).Some?
    ensures After(es, lease).Some? ==>
              && !After(es, lease).value.status.Offline?
              && After(es, lease).value.leaseExpiresAt == RenewedAt(es).value + lease
    decreases |es|
  {
    if es != [] {
      var last := |es| - 1;
      var init := es[..last];
      forall k | 0 <= k < last
        ensures es[..k] == init[..k] && es[k] == init[k]
      {
        PrefixOfPrefix(es, last, k);
      }
      assert Attended(init, lease);
      AttendedLease(init, lease);
      CurrentIsRecorded(init, lease);
      assert es[last].Tick? ==> RenewedAt(init).None? || es[last].now < RenewedAt(init).value + lease;
      assert es[last].Goodbye? ==> Current(init) != Some(es[last].instance);
    }
  }

  /** A node renewed less than one lease apart is never taken OFFLINE, whatever else happens. */
  lemma RenewedNodeStaysUp(es: seq<Event>, lease: int, k: nat)
    requires Attended(es, lease) && k <= |es| && Current(es[..k]).Some?
    ensures After(es[..k], lease).Some? && !After(es[..k], lease).value.status.Offline?
  {
    forall i | 0 <= i < k
      ensures es[..k][i] == es[i] && es[..k][..i] == es[..i]
    {
      PrefixOfPrefix(es, k, i);
    }
    assert Attended(es[..k], lease);
    AttendedLease(es[..k], lease);
    CurrentIsRecorded(es[..k], lease);
  }

  /** The node, from a given row on. */
  function Continue(n: Option<Node>, es: seq<Event>, lease: int): Option<Node>
    decreases |es|
  {
    if es == [] then n else Continue(Apply(n, es[0], lease), es[1..], lease)
  }

  /** The event neither renews a node of this instance nor undrains it. */
  predicate IsSilent(e: Event, instance: string) {
    !e.Register? && !(e.Heartbeat? && e.instance == instance) && !(e.SetDraining? && !e.draining)
  }

  lemma {:induction false} SilenceKeepsDown(n: Node, es: seq<Event>, lease: int)
    requires !n.status.Online? && forall e | e in es :: IsSilent(e, n.instance)
    ensures Continue(Some(n), es, lease).Some? && !Continue(Some(n), es, lease).value.status.Online?
    decreases |es|
  {
    if es != [] {
      assert IsSilent(es[0], n.instance);
      SilenceKeepsDown(Apply(Some(n), es[0], lease).value, es[1..], lease);
    }
  }

  lemma {:induction false} SilenceExpires(n: Node, es: seq<Event>, lease: int, expires: int)
    requires n.leaseExpiresAt == expires || !n.status.Online?
    requires forall e | e in es :: IsSilent(e, n.instance)
    requires exists k :: 0 <= k < |es| && es[k].Tick? && expires <= es[k].now
    ensures Continue(Some(n), es, lease).Some? && !Continue(Some(n), es, lease).value.status.Online?
    decreases |es|
  {
    assert IsSilent(es[0], n.instance);
    var next := Apply(Some(n), es[0], lease).value;
    if es[0].Tick? && expires <= es[0].now {
      SilenceKeepsDown(next, es[1..], lease);
    } else {
      var k :| 0 <= k < |es| && es[k].Tick? && expires <= es[k].now;
      assert es[1..][k - 1] == es[k];
      SilenceExpires(next, es[1..], lease, expires);
    }
  }

  /**
   After a renewal at time t and then silence, the node is not ONLINE after any monitor tick
   at or after t + lease, until somebody registers, beats or undrains.
   */
  lemma SilentNodeGoesDown(n: Option<Node>, renewal: Event, es: seq<Event>, lease: int, k: nat)
    requires renewal.Register? || (renewal.Heartbeat? && n.Some? && n.value.instance == renewal.instance)
    requires forall e | e in es :: IsSilent(e, renewal.instance)
    requires k < |es| && es[k].Tick? && renewal.now + lease <= es[k].now
    ensures var m := Continue(Apply(n, renewal, lease), es, lease);
            m.Some? && !m.value.status.Online?
  {
    SilenceExpires(Apply(n, renewal, lease).value, es, lease, renewal.now + lease);
  }

  /** Restarts, goodbyes, expiry and heartbeats never end a drain. */
  lemma {:induction false} DrainingIsSticky(n: Node, es: seq<Event>, lease: int)
    requires n.status.Draining? && forall e | e in es :: !(e.SetDraining? && !e.draining)
    ensures Continue(Some(n), es, lease).Some? && Continue(Some(n), es, lease).value.status.Draining?
    decreases |es|
  {
    if es != [] {
      assert !(es[0].SetDraining? && !es[0].draining);
      DrainingIsSticky(Apply(Some(n), es[0], lease).value, es[1..], lease);
    }
  }

  /** An OFFLINE node comes back only through a registration or a heartbeat of its instance. */
  lemma {:induction false} OfflineNeedsRenewal(n: Node, es: seq<Event>, lease: int)
    requires n.status.Offline? && forall e | e in es :: !e.Register? && !(e.Heartbeat? && e.instance == n.instance)
    ensures Continue(Some(n), es, lease).Some? && Continue(Some(n), es, lease).value.status.Offline?
    decreases |es|
  {
    if es != [] {
      assert !es[0].Register?;
      OfflineNeedsRenewal(Apply(Some(n), es[0], lease).value, es[1..], lease);
    }
  }

  /** Messages of an instance that is not current change nothing, however many there are. */
  lemma {:induction false} StaleInstanceIsFenced(n: Node, es: seq<Event>, lease: int)
    requires forall e | e in es :: (e.Heartbeat? || e.Goodbye?) && e.instance != n.instance
    ensures Continue(Some(n), es, lease) == Some(n)
    decreases |es|
  {
    if es != [] {
      assert (es[0].Heartbeat? || es[0].Goodbye?) && es[0].instance != n.instance;
      StaleInstanceIsFenced(n, es[1..], lease);
    }
  }

  lemma ContinueOne(n: Option<Node>, e: Event, rest: seq<Event>, lease: int)
    ensures Continue(n, [e] + rest, lease) == Continue(Apply(n, e, lease), rest, lease)
  {
    assert ([e] + rest)[1..] == rest;
  }

  /**
   ONLINE does not imply a live worker: undraining a node whose worker said goodbye makes it
   ONLINE, and dispatchable, until the next tick at or after the goodbye.
   */
  lemma UndrainRevivesDepartedNode(n: Node, t: int, later: int, lease: int)
    requires n.status.Draining? && t <= later
    ensures var goodbye, undrain := Event.Goodbye(n.instance, t), Event.SetDraining(false, t);
            var revived, expired := Continue(Some(n), [goodbye, undrain], lease),
                                    Continue(Some(n), [goodbye, undrain, Tick(later)], lease);
            && revived.Some? && revived.value.status.Online?
            && expired.Some? && expired.value.status.Offline?
  {
    var goodbye, undrain := Event.Goodbye(n.instance, t), Event.SetDraining(false, t);
    assert [goodbye, undrain] == [goodbye] + ([undrain] + []);
    assert [goodbye, undrain, Tick(later)] == [goodbye] + ([undrain] + ([Tick(later)] + []));
    var gone := Apply(Some(n), goodbye, lease);
    var online := Apply(gone, undrain, lease);
    ContinueOne(Some(n), goodbye, [undrain] + [], lease);
    ContinueOne(gone, undrain, [], lease);
    ContinueOne(Some(n), goodbye, [undrain] + ([Tick(later)] + []), lease);
    ContinueOne(gone, undrain, [Tick(later)] + [], lease);
    ContinueOne(online, Tick(later), [], lease);
  }

  /** Neither a registration nor a heartbeat of this instance. */
  predicate IsNoRenewal(e: Event, instance: string) {
    !e.Register? && !(e.Heartbeat? && e.instance == instance)
  }

  /** The node is not ONLINE after its goodbye at `t` and any further events that do not renew it. */
  predicate DownAfter(n: Node, t: int, es: seq<Event>, lease: int) {
    var after := Continue(Apply(Some(n), Event.Goodbye(n.instance, t), lease), es, lease);
    (forall e | e in es :: IsNoRenewal(e, n.instance)) ==> after.Some? && !after.value.status.Online?
  }

  /**
   When a departed node can come back without a renewal: never, if it was not DRAINING; else an
   undrain does it, so the node stays down under every such history exactly when it was not.
   */
  lemma DepartedStaysDownIff(n: Node, t: int, lease: int)
    ensures (forall es :: DownAfter(n, t, es, lease)) <==> !n.status.Draining?
  {
    if n.status.Draining? {
      var goodbye, undrain := Event.Goodbye(n.instance, t), Event.SetDraining(false, t);
      UndrainRevivesDepartedNode(n, t, t, lease);
      assert [goodbye, undrain] == [goodbye] + [undrain];
      ContinueOne(Some(n), goodbye, [undrain], lease);
      assert !DownAfter(n, t, [undrain], lease);
    } else {
      forall es
        ensures DownAfter(n, t, es, lease)
      {
        if forall e | e in es :: IsNoRenewal(e, n.instance) {
          OfflineNeedsRenewal(Departed(n, t), es, lease);
        }
      }
    }
  }

  // ---------------------------------------------------------------------------------------
  // Registration is not fenced
  // ---------------------------------------------------------------------------------------

  lemma {:induction false} ContinueLast(n: Option<Node>, es: seq<Event>, lease: int)
    requires es != []
    ensures Continue(n, es, lease) == Apply(Continue(n, es[..|es| - 1], lease), es[|es| - 1], lease)
    decreases |es|
  {
    if |es| > 1 {
      ContinueLast(Apply(n, es[0], lease), es[1..], lease);
      assert es[1..][..|es| - 2] == es[..|es| - 1][1..];
    } else {
      assert es[1..] == [] && es[..0] == [];
    }
  }

  /** The row names the instance that registered last, old or new. */
  lemma {:induction false} LastRegistrationWins(n: Node, es: seq<Event>, lease: int)
    ensures Continue(Some(n), es, lease).Some?
    ensures Continue(Some(n), es, lease).value.instance == if Current(es).Some? then Current(es).value else n.instance
    decreases |es|
  {
    if es != [] {
      ContinueLast(Some(n), es, lease);
      LastRegistrationWins(n, es[..|es| - 1], lease);
    }
  }

  /** The history without the heartbeats and goodbyes of one instance. */
  function Without(es: seq<Event>, instance: string): seq<Event>
    decreases |es|
  {
    if es == [] then []
    else
      (if (es[0].Heartbeat? || es[0].Goodbye?) && es[0].instance == instance then [] else [es[0]])
      + Without(es[1..], instance)
  }

  lemma {:induction false} FencedIsUnheard(n: Node, es: seq<Event>, live: string, lease: int)
    requires n.instance != live && forall e | e in es :: !e.Register?
    ensures Continue(Some(n), es, lease) == Continue(Some(n), Without(es, live), lease)
    decreases |es|
  {
    if es != [] {
      assert !es[0].Register?;
      var next := Apply(Some(n), es[0], lease);
      FencedIsUnheard(next.value, es[1..], live, lease);
      var rest := Without(es[1..], live);
      assert ([es[0]] + rest)[1..] == rest && [] + rest == rest;
    }
  }

  /**
   A registration of an old instance that arrives late takes the node over. From then on the
   live instance's heartbeats and goodbyes might as well not exist, and it has its row back
   exactly when the last registration after that is its own.
   */
  lemma LateRegistrationTakesOver(n: Node, stale: InstanceId, now: int, es: seq<Event>, lease: int)
    requires stale != n.instance
    ensures var after := Continue(Apply(Some(n), Event.Register(stale, now), lease), es, lease);
            after.Some? && (after.value.instance == n.instance <==> Current(es) == Some(n.instance))
    ensures (forall e | e in es :: !e.Register?) ==>
              var taken := Apply(Some(n), Event.Register(stale, now), lease);
              Continue(taken, es, lease) == Continue(taken, Without(es, n.instance), lease)
  {
    var taken := Registered(Some(n), stale, now, lease);
    LastRegistrationWins(taken, es, lease);
    if forall e | e in es :: !e.Register? {
      FencedIsUnheard(taken, es, n.instance, lease);
    }
  }

  // ---------------------------------------------------------------------------------------
  // The sender
  // ---------------------------------------------------------------------------------------

  datatype Message = RegisterMessage | HeartbeatMessage | GoodbyeMessage

  datatype Sent = Sent(message: Message, at: int)

  /** Every `interval`, from 0 on and for the given number of ticks, a registration is sent. */
  predicate RegistersEvery(sent: seq<Sent>, interval: int, ticks: nat) {
    forall n: nat | n <= ticks :: Sent(RegisterMessage, n * interval) in sent
  }

  /** HeartbeatManager.Run: register at once, register and beat on every tick, say goodbye at the end. */
  method SendHeartbeats(interval: int, ticks: nat, stop: int) returns (sent: seq<Sent>)
    ensures RegistersEvery(sent, interval, ticks)
    ensures |sent| == 2 * ticks + 2
    ensures forall n: nat | n < ticks :: sent[2 * n + 2] == Sent(HeartbeatMessage, (n + 1) * interval)
    ensures forall k | 0 <= k < |sent| :: sent[k].message.GoodbyeMessage? <==> k == |sent| - 1
    ensures sent[|sent| - 1].at == stop
  {
    sent := [Sent(RegisterMessage, 0)];
    for i := 0 to ticks
      invariant |sent| == 2 * i + 1
      invariant RegistersEvery(sent, interval, i)
      invariant forall n: nat | n < i :: sent[2 * n + 2] == Sent(HeartbeatMessage, (n + 1) * interval)
      invariant forall k | 0 <= k < |sent| :: !sent[k].message.GoodbyeMessage?
    {
      sent := sent + [Sent(RegisterMessage, (i + 1) * interval)];
      sent := sent + [Sent(HeartbeatMessage, (i + 1) * interval)];
    }
    sent := sent + [Sent(GoodbyeMessage, stop)];
  }

  predicate NonDecreasing(es: seq<Event>) {
    forall i, j | 0 <= i < j < |es| :: es[i].now <= es[j].now
  }

  /** No other instance registers, and this one does not leave. */
  predicate IsSole(es: seq<Event>, instance: InstanceId) {
    forall e | e in es :: (e.Register? ==> e.instance == instance) && (e.Goodbye? ==> e.instance != instance)
  }

  /** A registration stamped `since` or later was processed before position `k`. */
  predicate ArrivedBefore(es: seq<Event>, k: nat, since: int)
    requires k <= |es|
  {
    exists j :: 0 <= j < k && es[j].Register? && since <= es[j].now
  }

  /** Of a registration sent more than `delay` before a tick and those at most `slack` before it, one has been processed. */
  predicate Delivered(es: seq<Event>, sent: seq<Sent>, delay: int, slack: int) {
    forall k, m | 0 <= k < |es| && es[k].Tick? && m in sent ::
      m.message.RegisterMessage? && m.at + delay < es[k].now ==> ArrivedBefore(es, k, m.at - slack)
  }

  /** A renewal is never older than any registration before it. */
  lemma {:induction false} RenewalsGrow(es: seq<Event>, j: nat)
    requires NonDecreasing(es) && j < |es| && es[j].Register?
    ensures RenewedAt(es).Some? && RenewedAt(es).value >= es[j].now
    decreases |es|
  {
    var last := |es| - 1;
    if !IsRenewal(es, last) {
      RenewalsGrow(es[..last], j);
    }
  }

  lemma {:induction false} RenewedSinceStart(es: seq<Event>)
    requires forall e | e in es :: e.now >= 0
    ensures RenewedAt(es).Some? ==> RenewedAt(es).value >= 0
    decreases |es|
  {
    if es != [] {
      assert es[|es| - 1] in es;
      RenewedSinceStart(es[..|es| - 1]);
    }
  }

  lemma {:induction false} CurrentIsSole(es: seq<Event>, instance: InstanceId)
    requires IsSole(es, instance)
    ensures Current(es).Some? ==> Current(es).value == instance
    decreases |es|
  {
    if es != [] {
      assert es[|es| - 1] in es;
      CurrentIsSole(es[..|es| - 1], instance);
    }
  }

  /** The last send at least `delay` before time `now`. */
  lemma LastDue(now: int, interval: int, delay: int, ticks: nat) returns (n: nat)
    requires 0 < interval && 0 <= delay < now <= (ticks + 1) * interval
    ensures n <= ticks && n * interval + delay < now <= (n + 1) * interval + delay
  {
    n := (now - delay - 1) / interval;
    assert now - delay - 1 == n * interval + (now - delay - 1) % interval;
    assert (n + 1) * interval == n * interval + interval;
  }

  /**
   The heartbeats keep the lease: when each registration sent is processed within `delay`, or
   one of the `misses` sent before it, and misses + 1 intervals and the delay fit into a lease,
   then every tick of the monitor finds the lease running.
   */
  lemma SteadySenderIsAttended(es: seq<Event>, sent: seq<Sent>, instance: InstanceId,
                               interval: int, ticks: nat, delay: int, misses: nat, lease: int)
    requires 0 < interval && 0 <= delay && (misses + 1) * interval + delay < lease
    requires RegistersEvery(sent, interval, ticks) && Delivered(es, sent, delay, misses * interval)
    requires NonDecreasing(es) && IsSole(es, instance)
    requires forall e | e in es :: 0 <= e.now <= (ticks + 1) * interval
    ensures Attended(es, lease)
  {
    forall k | 0 <= k < |es|
      ensures es[k].Tick? && RenewedAt(es[..k]).Some? ==> es[k].now < RenewedAt(es[..k]).value + lease
      ensures es[k].Goodbye? ==> Current(es[..k]) != Some(es[k].instance)
    {
      assert es[k] in es;
      CurrentIsSole(es[..k], instance);
      if es[k].Tick? && RenewedAt(es[..k]).Some? {
        SteadyTick(es, sent, interval, ticks, delay, misses, lease, k);
      }
    }
  }

  lemma SteadyTick(es: seq<Event>, sent: seq<Sent>, interval: int, ticks: nat, delay: int, misses: nat, lease: int, k: nat)
    requires 0 < interval && 0 <= delay && (misses + 1) * interval + delay < lease
    requires RegistersEvery(sent, interval, ticks) && Delivered(es, sent, delay, misses * interval)
    requires NonDecreasing(es) && forall e | e in es :: 0 <= e.now <= (ticks + 1) * interval
    requires k < |es| && es[k].Tick? && RenewedAt(es[..k]).Some?
    ensures es[k].now < RenewedAt(es[..k]).value + lease
  {
    var now := es[k].now;
    assert (misses + 1) * interval == misses * interval + interval;
    if now <= delay {
      assert misses * interval >= 0;
      RenewedSinceStart(es[..k]);
    } else {
      assert es[k] in es;
      var n := LastDue(now, interval, delay, ticks);
      var m := Sent(RegisterMessage, n * interval);
      assert m in sent;
      var j :| 0 <= j < k && es[j].Register? && m.at - misses * interval <= es[j].now;
      assert es[..k][j] == es[j];
      RenewalsGrow(es[..k], j);
      assert (n + 1) * interval == n * interval + interval;
    }
  }

  /** From its first registration on, a node whose sender is heard in time is never OFFLINE. */
  lemma SteadySenderStaysUp(es: seq<Event>, sent: seq<Sent>, instance: InstanceId,
                            interval: int, ticks: nat, delay: int, misses: nat, lease: int, k: nat)
    requires 0 < interval && 0 <= delay && (misses + 1) * interval + delay < lease
    requires RegistersEvery(sent, interval, ticks) && Delivered(es, sent, delay, misses * interval)
    requires NonDecreasing(es) && IsSole(es, instance)
    requires forall e | e in es :: 0 <= e.now <= (ticks + 1) * interval
    requires k <= |es| && exists j :: 0 <= j < k && es[j].Register?
    ensures After(es[..k], lease).Some? && !After(es[..k], lease).value.status.Offline?
  {
    SteadySenderIsAttended(es, sent, instance, interval, ticks, delay, misses, lease);
    var j :| 0 <= j < k && es[j].Register?;
    assert es[..k][j] == es[j];
    RegisteredIsCurrent(es[..k], j);
    RenewedNodeStaysUp(es, lease, k);
  }

  lemma {:induction false} RegisteredIsCurrent(es: seq<Event>, j: nat)
    requires j < |es| && es[j].Register?
    ensures Current(es).Some?
    decreases |es|
  {
    if j < |es| - 1 {
      RegisteredIsCurrent(es[..|es| - 1], j);
    }
  }
}
