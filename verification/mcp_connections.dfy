/**
 * The MCP connections of the desktop host. Every method of `McpHost` is one critical section of
 * its mutex; the functions on `Host` say what the section leaves behind. Creating and revoking a
 * connection each take two sections with unlocked work between them.
 */
module McpConnections {
  import opened Options

  type Id = nat
  type CallId = nat

  datatype Status = Connected | Revoking | Revoked | Expired | HostRestarted

  /** `expires` is absent when its text does not parse; the client, scope and grant are carried along. */
  datatype Connection = Connection(id: Id, expires: Option<nat>, status: Status, terms: nat)

  datatype Snapshot = Snapshot(generation: nat, connections: map<Id, Connection>)

  /** `cancelled` holds the calls whose context was cancelled from here. */
  datatype Host = Host(
    enabled: bool, generation: nat, connections: map<Id, Connection>, calls: map<Id, set<CallId>>, sequence: nat,
    cancelled: set<CallId>, disk: Snapshot)

  predicate Past(c: Connection, now: nat) {
    c.expires.None? || now >= c.expires.value
  }

  function CallsOf(h: Host, id: Id): set<CallId> {
    if id in h.calls then h.calls[id] else {}
  }

  predicate IsConnected(h: Host, id: Id) {
    id in h.connections && h.connections[id].status == Connected
  }

  function CallsCancelled(h: Host, id: Id): Host {
    h.(cancelled := h.cancelled + CallsOf(h, id), calls := if id in h.calls then h.calls[id := {}] else h.calls)
  }

  /** Every call of the connections `ids` is cancelled. */
  function CallsCancelledIn(h: Host, ids: set<Id>): Host {
    h.(cancelled := h.cancelled + set id, call | id in ids && id in h.calls && call in h.calls[id] :: call,
       calls := map id | id in h.calls :: if id in ids then {} else h.calls[id])
  }

  function ConnectedIds(h: Host): set<Id> {
    set id | id in h.connections && h.connections[id].status == Connected
  }

  lemma NoneCancelled(h: Host)
    ensures CallsCancelledIn(h, {}) == h
  {
    assert CallsCancelledIn(h, {}).calls == h.calls;
  }

  lemma OneMoreCancelled(h: Host, ids: set<Id>, id: Id)
    ensures CallsCancelled(CallsCancelledIn(h, ids), id) == CallsCancelledIn(h, ids + {id})
  {
    var a, b := CallsCancelled(CallsCancelledIn(h, ids), id), CallsCancelledIn(h, ids + {id});
    assert a.calls == b.calls;
    forall call ensures call in a.cancelled <==> call in b.cancelled {
    }
  }

  function Fenced(connections: map<Id, Connection>): map<Id, Connection> {
    map id | id in connections ::
      if connections[id].status == Connected then connections[id].(status := HostRestarted) else connections[id]
  }

  function Stopped(h: Host, generation: nat, connections: map<Id, Connection>): Host {
    CallsCancelledIn(h, ConnectedIds(h)).(enabled := false, generation := generation, connections := connections)
  }

  /** A stop whose save failed takes effect only when the transport does not come back either. */
  function StopTried(h: Host, saved: bool, restarted: bool): Host {
    var connections := Fenced(h.connections);
    if saved then Stopped(h, h.generation + 1, connections).(disk := Snapshot(h.generation + 1, connections))
    else if restarted then h
    else Stopped(h, h.generation + 1, connections)
  }

  function EnabledSet(h: Host, enabled: bool, ready: bool, moved: bool, saved: bool, restarted: bool): Host {
    if h.enabled == enabled || !ready || !moved then h
    else if !enabled then StopTried(h, saved, restarted)
    else if saved then
      h.(enabled := true, generation := h.generation + 1, disk := Snapshot(h.generation + 1, h.connections))
    else h
  }

  function Finalized(h: Host, saved: bool, restarted: bool): Host {
    if h.enabled then StopTried(h, saved, restarted) else h
  }

  /** The second section of a creation does not look at `enabled` again. */
  function Created(h: Host, c: Connection, saved: bool): Host {
    if saved then
      h.(connections := h.connections[c.id := c], disk := Snapshot(h.generation, h.connections[c.id := c]))
    else h.(connections := h.connections - {c.id})
  }

  function Elapsed(h: Host, now: nat): set<Id> {
    set id | id in h.connections && h.connections[id].status == Connected && Past(h.connections[id], now)
  }

  function Expire(h: Host, ids: set<Id>): Host {
    CallsCancelledIn(h, ids).(connections :=
      map id | id in h.connections :: if id in ids then h.connections[id].(status := Expired) else h.connections[id])
  }

  lemma NoneExpired(h: Host)
    ensures Expire(h, {}) == h
  {
    NoneCancelled(h);
    assert Expire(h, {}).connections == h.connections;
  }

  lemma OneMoreExpired(h: Host, ids: set<Id>, id: Id)
    requires id in h.connections && id !in ids
    ensures var n := Expire(h, ids);
            && n.connections.Keys == h.connections.Keys && n.connections[id] == h.connections[id]
            && CallsCancelled(n.(connections := n.connections[id := n.connections[id].(status := Expired)]),
                              id) == Expire(h, ids + {id})
  {
    hide CallsCancelled, CallsCancelledIn;
    var n := Expire(h, ids);
    OneMoreCancelled(h, ids, id);
    CancellingMindsCallsOnly(CallsCancelledIn(h, ids), n.connections,
                             n.connections[id := n.connections[id].(status := Expired)], id);
    assert n.connections[id := n.connections[id].(status := Expired)] == Expire(h, ids + {id}).connections;
  }

  lemma CancellingMindsCallsOnly(h: Host, a: map<Id, Connection>, b: map<Id, Connection>, id: Id)
    ensures CallsCancelled(h.(connections := a).(connections := b), id) == CallsCancelled(h, id).(connections := b)
  {
  }

  lemma CancellingKeepsRest(h: Host, ids: set<Id>)
    ensures var n := CallsCancelledIn(h, ids); n == h.(calls := n.calls, cancelled := n.cancelled)
  {
  }

  lemma ExpiringKeepsRest(h: Host, ids: set<Id>)
    ensures var n := Expire(h, ids);
            && n == h.(calls := n.calls, cancelled := n.cancelled, connections := n.connections)
            && n.connections.Keys == h.connections.Keys
            && forall id :: id in h.connections && id !in ids ==> n.connections[id] == h.connections[id]
  {
  }

  function Listed(h: Host, now: nat, saved: bool): Host {
    var expired := Expire(h, Elapsed(h, now));
    if saved then expired.(disk := Snapshot(h.generation, expired.connections)) else expired
  }

  predicate Deletable(h: Host, id: Id) {
    id in h.connections && h.connections[id].status != Connected && h.connections[id].status != Revoking
  }

  function Deleted(h: Host, id: Id, saved: bool): Host {
    if Deletable(h, id) && saved then
      h.(connections := h.connections - {id}, disk := Snapshot(h.generation, h.connections - {id}))
    else h
  }

  function RevokeEntered(h: Host, id: Id): Host {
    if IsConnected(h, id) then
      CallsCancelled(h.(connections := h.connections[id := h.connections[id].(status := Revoking)]), id)
    else h
  }

  /** `c` is the copy the revoking goroutine took in its first section. */
  function RevokeFailed(h: Host, c: Connection): Host {
    h.(connections := h.connections[c.id := c.(status := Connected)])
  }

  function RevokeDone(h: Host, c: Connection, saved: bool): Host {
    var n := h.(connections := h.connections[c.id := c.(status := Revoked)]);
    if saved then n.(disk := Snapshot(n.generation, n.connections)) else n
  }

  predicate CallAdmitted(h: Host, id: Id, now: nat, permitted: bool) {
    h.enabled && IsConnected(h, id) && !Past(h.connections[id], now) && permitted
  }

  function CallBegun(h: Host, id: Id, now: nat, permitted: bool): Host {
    if !h.enabled || !IsConnected(h, id) then h
    else if Past(h.connections[id], now) then
      CallsCancelled(h.(connections := h.connections[id := h.connections[id].(status := Expired)]), id)
    else if !permitted then h
    else h.(sequence := h.sequence + 1, calls := h.calls[id := CallsOf(h, id) + {h.sequence + 1}])
  }

  function CallDone(h: Host, id: Id, call: CallId): Host {
    h.(cancelled := h.cancelled + {call}, calls := if id in h.calls then h.calls[id := h.calls[id] - {call}]
       else h.calls)
  }

  function Reloaded(c: Connection, now: nat): Connection {
    var fenced := if c.status == Connected || c.status == Revoking then c.(status := HostRestarted) else c;
    if Past(c, now) then fenced.(status := Expired) else fenced
  }

  function Loaded(disk: Snapshot, now: nat): Host {
    Host(false, disk.generation, map id | id in disk.connections :: Reloaded(disk.connections[id], now), map[], 0, {},
         disk)
  }

  class McpHost {
    var enabled: bool
    var generation: nat
    var connections: map<Id, Connection>
    var calls: map<Id, set<CallId>>
    var sequence: nat
    var cancelled: set<CallId>
    var disk: Snapshot

    ghost function View(): Host
      reads this
    {
      Host(enabled, generation, connections, calls, sequence, cancelled, disk)
    }

    /** Starts disabled, from the stored snapshot. */
    constructor (file: Snapshot, now: nat)
      ensures View() == Loaded(file, now)
    {
      enabled, generation, calls, sequence, cancelled, disk := false, file.generation, map[], 0, {}, file;
      connections := file.connections;
      new;
      var pending := file.connections.Keys;
      while pending != {}
        invariant pending <= file.connections.Keys && connections.Keys == file.connections.Keys
        invariant forall id :: id in connections ==>
                    connections[id] == if id in pending then file.connections[id]
                      else Reloaded(file.connections[id], now)
        invariant Host(enabled, generation, map[], calls, sequence, cancelled, disk) ==
                  Host(false, file.generation, map[], map[], 0, {}, file)
        decreases |pending|
      {
        var id :| id in pending;
        pending := pending - {id};
        var c := connections[id];
        if c.status == Connected || c.status == Revoking {
          c := c.(status := HostRestarted);
        }
        if c.expires.None? || now >= c.expires.value {
          c := c.(status := Expired);
        }
        connections := connections[id := c];
      }
    }

    method Save(generation: nat, values: map<Id, Connection>, saved: bool)
      modifies this`disk
      ensures disk == if saved then Snapshot(generation, values) else old(disk)
    {
      if saved {
        disk := Snapshot(generation, values);
      }
    }

    method CancelCallsLocked(id: Id)
      modifies this`calls, this`cancelled
      ensures View() == CallsCancelled(old(View()), id)
    {
      if id in calls {
        cancelled := cancelled + calls[id];
        calls := calls[id := {}];
      }
    }

    method FencedConnections() returns (result: map<Id, Connection>)
      ensures result == Fenced(connections)
    {
      result := connections;
      var pending := connections.Keys;
      while pending != {}
        invariant pending <= connections.Keys && result.Keys == connections.Keys
        invariant forall id :: id in connections ==>
                    result[id] == if id in pending then connections[id] else Fenced(connections)[id]
        decreases |pending|
      {
        var id :| id in pending;
        pending := pending - {id};
        if result[id].status == Connected {
          result := result[id := result[id].(status := HostRestarted)];
        }
      }
    }

    method CommitStoppedLocked(generation: nat, connections: map<Id, Connection>)
      modifies this`enabled, this`generation, this`connections, this`calls, this`cancelled
      ensures View() == Stopped(old(View()), generation, connections)
    {
      hide CallsCancelled, CallsCancelledIn;
      ghost var h := View();
      var pending := this.connections.Keys;
      NoneCancelled(h);
      assert ConnectedIds(h) - pending == {};
      while pending != {}
        invariant pending <= h.connections.Keys && this.connections == h.connections
        invariant View() == CallsCancelledIn(h, ConnectedIds(h) - pending)
        decreases |pending|
      {
        var id :| id in pending;
        ghost var done := ConnectedIds(h) - pending;
        pending := pending - {id};
        if this.connections[id].status == Connected {
          CancelCallsLocked(id);
          OneMoreCancelled(h, done, id);
          assert done + {id} == ConnectedIds(h) - pending;
          CancellingKeepsRest(h, done + {id});
        } else {
          assert done == ConnectedIds(h) - pending;
        }
      }
      assert ConnectedIds(h) - pending == ConnectedIds(h);
      this.enabled, this.generation, this.connections := false, generation, connections;
    }

    /** The tail that disabling and shutting down share, once the transport has stopped. */
    method Stop(saved: bool, restarted: bool) returns (ok: bool)
      modifies this
      ensures View() == StopTried(old(View()), saved, restarted) && ok == saved
    {
      var nextGeneration := generation + 1;
      var nextConnections := FencedConnections();
      Save(nextGeneration, nextConnections, saved);
      if !saved {
        if !restarted {
          CommitStoppedLocked(nextGeneration, nextConnections);
        }
        return false;
      }
      CommitStoppedLocked(nextGeneration, nextConnections);
      return true;
    }

    /** `ready`, `moved` and `restarted` are the answers of the application and of the transport. */
    method SetEnabled(enable: bool, ready: bool, moved: bool, saved: bool, restarted: bool) returns (ok: bool)
      modifies this
      ensures View() == EnabledSet(old(View()), enable, ready, moved, saved, restarted)
      ensures ok <==> old(enabled) == enable || (ready && moved && saved)
    {
      if enabled == enable {
        return true;
      }
      if !ready || !moved {
        return false;
      }
      if !enable {
        ok := Stop(saved, restarted);
        return;
      }
      Save(generation + 1, connections, saved);
      if !saved {
        return false;
      }
      enabled, generation := true, generation + 1;
      return true;
    }

    method FinalizeStopped(saved: bool, restarted: bool) returns (ok: bool)
      modifies this
      ensures View() == Finalized(old(View()), saved, restarted)
      ensures ok <==> !old(enabled) || saved
    {
      if !enabled {
        return true;
      }
      ok := Stop(saved, restarted);
    }

    method CommitCreated(c: Connection, saved: bool) returns (ok: bool)
      requires c.id !in connections
      modifies this
      ensures View() == Created(old(View()), c, saved) && ok == saved
    {
      connections := connections[c.id := c];
      Save(generation, connections, saved);
      if !saved {
        connections := connections - {c.id};
        assert connections == old(connections) - {c.id};
      }
      return saved;
    }

    method List(now: nat, saved: bool) returns (result: set<Connection>)
      modifies this
      ensures View() == Listed(old(View()), now, saved)
      ensures result == set id | id in connections :: connections[id]
    {
      hide CallsCancelled, CallsCancelledIn, Expire;
      ghost var h := View();
      var pending := connections.Keys;
      NoneExpired(h);
      assert Elapsed(h, now) - pending == {};
      while pending != {}
        invariant pending <= h.connections.Keys == connections.Keys
        invariant forall id :: id in pending ==> connections[id] == h.connections[id]
        invariant View() == Expire(h, Elapsed(h, now) - pending)
        decreases |pending|
      {
        var id :| id in pending;
        ghost var done := Elapsed(h, now) - pending;
        pending := pending - {id};
        OneMoreExpired(h, done, id);
        var value := connections[id];
        if value.status == Connected && (value.expires.None? || now >= value.expires.value) {
          connections := connections[id := value.(status := Expired)];
          CancelCallsLocked(id);
          assert done + {id} == Elapsed(h, now) - pending;
          ExpiringKeepsRest(h, done + {id});
          ExpiringKeepsRest(h, done);
        } else {
          assert done == Elapsed(h, now) - pending;
        }
      }
      assert Elapsed(h, now) - pending == Elapsed(h, now);
      ExpiringKeepsRest(h, Elapsed(h, now));
      Save(generation, connections, saved);
      result := set id | id in connections :: connections[id];
    }

    method Delete(id: Id, saved: bool) returns (ok: bool)
      modifies this
      ensures View() == Deleted(old(View()), id, saved)
      ensures ok <==> Deletable(old(View()), id) && saved
    {
      if id !in connections || connections[id].status == Connected || connections[id].status == Revoking {
        return false;
      }
      var next := map k | k in connections && k != id :: connections[k];
      assert next == connections - {id};
      Save(generation, next, saved);
      if !saved {
        return false;
      }
      connections := next;
      return true;
    }

    method RevokeEnter(id: Id) returns (taken: Option<Connection>)
      modifies this
      ensures View() == RevokeEntered(old(View()), id)
      ensures taken == if IsConnected(old(View()), id) then Some(old(connections)[id].(status := Revoking)) else None
    {
      if id !in connections || connections[id].status != Connected {
        return None;
      }
      var c := connections[id].(status := Revoking);
      connections := connections[id := c];
      CancelCallsLocked(id);
      return Some(c);
    }

    method RevokeFail(c: Connection)
      modifies this`connections
      ensures View() == RevokeFailed(old(View()), c)
    {
      connections := connections[c.id := c.(status := Connected)];
    }

    method RevokeCommit(c: Connection, saved: bool) returns (ok: bool)
      modifies this
      ensures View() == RevokeDone(old(View()), c, saved) && ok == saved
    {
      connections := connections[c.id := c.(status := Revoked)];
      Save(generation, connections, saved);
      return saved;
    }

    method BeginCall(id: Id, now: nat, permitted: bool) returns (call: Option<CallId>)
      modifies this
      ensures View() == CallBegun(old(View()), id, now, permitted)
      ensures call == if CallAdmitted(old(View()), id, now, permitted) then Some(old(sequence) + 1) else None
    {
      if id !in connections || !enabled || connections[id].status != Connected {
        return None;
      }
      if connections[id].expires.None? || now >= connections[id].expires.value {
        connections := connections[id := connections[id].(status := Expired)];
        CancelCallsLocked(id);
        return None;
      }
      if !permitted {
        return None;
      }
      sequence := sequence + 1;
      if id !in calls {
        calls := calls[id := {}];
      }
      calls := calls[id := calls[id] + {sequence}];
      return Some(sequence);
    }

    method EndCall(id: Id, call: CallId)
      modifies this`calls, this`cancelled
      ensures View() == CallDone(old(View()), id, call)
    {
      cancelled := cancelled + {call};
      if id in calls {
        calls := calls[id := calls[id] - {call}];
      }
    }
  }
}
