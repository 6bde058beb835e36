/**
 * Every interleaving of the MCP host's critical sections, with the goroutines that are between
 * the two sections of a creation or a revocation, the calls that are running, and crashes.
 */
module McpProtocol {
  import opened Options
  import opened McpConnections

  type Thread = nat

  /** What a goroutine carries between its two sections. */
  datatype Pending = Creating(c: Connection) | RevokingOf(c: Connection)

  /** `running` are the calls that have begun and not ended; `used` every identifier ever drawn. */
  datatype World = World(host: Host, pending: map<Thread, Pending>, running: map<CallId, Id>, used: set<Id>)

  datatype Step =
    | SetEnabled(enable: bool, ready: bool, moved: bool, saved: bool, restarted: bool)
    | Finalize(saved: bool, restarted: bool)
    | CreateCheck(t: Thread, c: Connection)
    | CreateCommit(t: Thread, saved: bool)
    | CreateAbandon(t: Thread)
    | ListAll(now: nat, saved: bool)
    | DeleteOne(id: Id, saved: bool)
    | RevokeEnter(t: Thread, id: Id)
    | RevokeFail(t: Thread)
    | RevokeCommit(t: Thread, saved: bool)
    | BeginCall(id: Id, now: nat, permitted: bool)
    | EndCall(call: CallId)
    | Crash(now: nat)

  predicate Enabled(w: World, s: Step) {
    match s
    case CreateCheck(t, c) => t !in w.pending && c.id !in w.used && c.status == Connected
    case CreateCommit(t, _) => t in w.pending && w.pending[t].Creating?
    case CreateAbandon(t) => t in w.pending && w.pending[t].Creating?
    case RevokeEnter(t, _) => t !in w.pending
    case RevokeFail(t) => t in w.pending && w.pending[t].RevokingOf?
    case RevokeCommit(t, _) => t in w.pending && w.pending[t].RevokingOf?
    case EndCall(call) => call in w.running
    case _ => true
  }

  function Apply(w: World, s: Step): World
    requires Enabled(w, s)
  {
    match s
    case SetEnabled(enable, ready, moved, saved, restarted) =>
      w.(host := EnabledSet(w.host, enable, ready, moved, saved, restarted))
    case Finalize(saved, restarted) => w.(host := Finalized(w.host, saved, restarted))
    case CreateCheck(t, c) =>
      if w.host.enabled then w.(pending := w.pending[t := Creating(c)], used := w.used + {c.id}) else w
    case CreateCommit(t, saved) => w.(host := Created(w.host, w.pending[t].c, saved), pending := w.pending - {t})
    case CreateAbandon(t) => w.(pending := w.pending - {t})
    case ListAll(now, saved) => w.(host := Listed(w.host, now, saved))
    case DeleteOne(id, saved) => w.(host := Deleted(w.host, id, saved))
    case RevokeEnter(t, id) =>
      if IsConnected(w.host, id) then
        w.(host := RevokeEntered(w.host, id),
           pending := w.pending[t := RevokingOf(w.host.connections[id].(status := Revoking))])
      else w
    case RevokeFail(t) => w.(host := RevokeFailed(w.host, w.pending[t].c), pending := w.pending - {t})
    case RevokeCommit(t, saved) => w.(host := RevokeDone(w.host, w.pending[t].c, saved), pending := w.pending - {t})
    case BeginCall(id, now, permitted) =>
      w.(host := CallBegun(w.host, id, now, permitted),
         running := if CallAdmitted(w.host, id, now, permitted) then w.running[w.host.sequence + 1 := id]
           else w.running)
    case EndCall(call) => w.(host := CallDone(w.host, w.running[call], call), running := w.running - {call})
    case Crash(now) => World(Loaded(w.host.disk, now), map[], map[], w.used)
  }

  ghost predicate Run(first: World, steps: seq<Step>, last: World)
    decreases |steps|
  {
    if steps == [] then first == last
    else Enabled(first, steps[0]) && Run(Apply(first, steps[0]), steps[1..], last)
  }

  function Started(disk: Snapshot, now: nat): World {
    World(Loaded(disk, now), map[], map[], disk.connections.Keys)
  }

  ghost predicate Stored(disk: Snapshot) {
    forall id :: id in disk.connections ==> disk.connections[id].id == id
  }

  ghost predicate Reachable(w: World) {
    exists disk, now, steps :: Stored(disk) && Run(Started(disk, now), steps, w)
  }

  // ----- The invariant ------------------------------------------------------------------------

  predicate Final(status: Status) {
    status == Revoked || status == Expired || status == HostRestarted
  }

  ghost predicate Filed(w: World) {
    && (forall id :: id in w.host.connections ==> w.host.connections[id].id == id)
    && Stored(w.host.disk)
    && w.host.connections.Keys == w.host.disk.connections.Keys && w.host.connections.Keys <= w.used
    && w.host.disk.generation <= w.host.generation
  }

  /** Calls are registered only under a live connection, and a running call is registered or cancelled. */
  ghost predicate CallsHold(h: Host, running: map<CallId, Id>) {
    && (forall id :: id in h.calls && h.calls[id] != {} ==> h.enabled && IsConnected(h, id))
    && (forall call :: call in running ==>
          && call <= h.sequence
          && (call !in h.cancelled ==> running[call] in h.calls && call in h.calls[running[call]]))
  }

  ghost predicate PendingHold(w: World) {
    && (forall t :: t in w.pending ==>
          var p := w.pending[t];
          if p.Creating? then p.c.status == Connected && p.c.id in w.used && p.c.id !in w.host.connections
          else p.c.status == Revoking && p.c.id in w.host.connections && w.host.connections[p.c.id] == p.c)
    && (forall t, u :: t in w.pending && u in w.pending && t != u ==> w.pending[t].c.id != w.pending[u].c.id)
  }

  ghost predicate Owned(w: World, id: Id) {
    exists t :: t in w.pending && w.pending[t].RevokingOf? && w.pending[t].c.id == id
  }

  /** Whatever is being revoked is being revoked by somebody. */
  ghost predicate NoneStuck(w: World) {
    forall id :: id in w.host.connections && w.host.connections[id].status == Revoking ==> Owned(w, id)
  }

  ghost predicate Inv(w: World) {
    Filed(w) && CallsHold(w.host, w.running) && PendingHold(w) && NoneStuck(w)
  }

  // ----- What cancelling does to calls --------------------------------------------------------

  lemma CancellingInKeepsCalls(h: Host, running: map<CallId, Id>, ids: set<Id>)
    requires CallsHold(h, running)
    ensures var n := CallsCancelledIn(h, ids);
            && CallsHold(n, running) && (forall id :: id in ids && id in n.calls ==> n.calls[id] == {})
            && n == h.(calls := n.calls, cancelled := n.cancelled)
  {
  }

  lemma CancellingOneKeepsCalls(h: Host, running: map<CallId, Id>, id: Id)
    requires CallsHold(h, running)
    ensures var n := CallsCancelled(h, id);
            && CallsHold(n, running) && (id in n.calls ==> n.calls[id] == {})
            && n == h.(calls := n.calls, cancelled := n.cancelled)
  {
  }

  /** A connection without registered calls may change in any way. */
  lemma ChangingIdleKeepsCalls(h: Host, running: map<CallId, Id>, connections: map<Id, Connection>)
    requires CallsHold(h, running)
    requires forall id :: id in h.calls && h.calls[id] != {} ==>
               id in connections && connections[id].status == Connected
    ensures CallsHold(h.(connections := connections), running)
  {
  }

  /** Stopping leaves no call registered, whatever the connections become. */
  lemma StoppedKeepsCalls(h: Host, running: map<CallId, Id>, generation: nat, connections: map<Id, Connection>)
    requires CallsHold(h, running)
    ensures CallsHold(Stopped(h, generation, connections), running)
  {
    CancellingInKeepsCalls(h, running, ConnectedIds(h));
  }

  // ----- Each critical section keeps the invariant --------------------------------------------

  predicate IsStop(w: World, s: Step) {
    match s
    case SetEnabled(enable, ready, moved, saved, restarted) =>
      w.host.enabled && !enable && ready && moved && (saved || !restarted)
    case Finalize(saved, restarted) => w.host.enabled && (saved || !restarted)
    case _ => false
  }

  function SavedFlag(s: Step): bool {
    (s.SetEnabled? || s.Finalize?) && s.saved
  }

  lemma StopKeepsInv(w: World, s: Step)
    requires Inv(w) && IsStop(w, s)
    ensures Inv(Apply(w, s))
  {
    hide CallsHold, CallsCancelledIn;
    var n := Apply(w, s);
    var connections := Fenced(w.host.connections);
    StoppedKeepsCalls(w.host, w.running, w.host.generation + 1, connections);
    StoppedParts(w.host, w.host.generation + 1, connections);
    var stopped := Stopped(w.host, w.host.generation + 1, connections);
    assert n.host == if SavedFlag(s) then stopped.(disk := Snapshot(w.host.generation + 1, connections)) else stopped;
    DiskMindsNoCalls(stopped, w.running, Snapshot(w.host.generation + 1, connections));
    forall id | id in connections && connections[id].status == Revoking ensures Owned(n, id) {
      assert Owned(w, id);
    }
  }

  lemma StoppedParts(h: Host, generation: nat, connections: map<Id, Connection>)
    ensures var n := Stopped(h, generation, connections);
            n.connections == connections && n.generation == generation && !n.enabled && n.disk == h.disk
  {
  }

  lemma DiskMindsNoCalls(h: Host, running: map<CallId, Id>, disk: Snapshot)
    requires CallsHold(h, running)
    ensures CallsHold(h.(disk := disk), running)
  {
  }

  lemma EnableKeepsInv(w: World, s: Step)
    requires Inv(w) && (s.SetEnabled? || s.Finalize?) && !IsStop(w, s)
    ensures Inv(Apply(w, s))
  {
    var n := Apply(w, s);
    forall id | id in n.host.connections && n.host.connections[id].status == Revoking ensures Owned(n, id) {
      assert Owned(w, id);
    }
  }

  lemma CreateKeepsInv(w: World, s: Step)
    requires Inv(w) && Enabled(w, s) && (s.CreateCheck? || s.CreateCommit? || s.CreateAbandon?)
    ensures Inv(Apply(w, s))
  {
    var n := Apply(w, s);
    forall id | id in n.host.connections && n.host.connections[id].status == Revoking ensures Owned(n, id) {
      assert Owned(w, id);
      var t :| t in w.pending && w.pending[t].RevokingOf? && w.pending[t].c.id == id;
      assert t in n.pending;
    }
    if s.CreateCommit? {
      var c := w.pending[s.t].c;
      if s.saved {
        ChangingIdleKeepsCalls(w.host, w.running, w.host.connections[c.id := c]);
      } else {
        assert w.host.connections - {c.id} == w.host.connections;
      }
    }
  }

  lemma ListKeepsInv(w: World, s: Step)
    requires Inv(w) && s.ListAll?
    ensures Inv(Apply(w, s))
  {
    hide CallsCancelledIn;
    var ids := Elapsed(w.host, s.now);
    var n := Apply(w, s);
    CancellingInKeepsCalls(w.host, w.running, ids);
    var cancelled := CallsCancelledIn(w.host, ids);
    ChangingIdleKeepsCalls(cancelled, w.running, Expire(w.host, ids).connections);
    forall id | id in n.host.connections && n.host.connections[id].status == Revoking ensures Owned(n, id) {
      assert Owned(w, id);
    }
  }

  lemma DeleteKeepsInv(w: World, s: Step)
    requires Inv(w) && s.DeleteOne?
    ensures Inv(Apply(w, s))
  {
    var n := Apply(w, s);
    if Deletable(w.host, s.id) && s.saved {
      ChangingIdleKeepsCalls(w.host, w.running, w.host.connections - {s.id});
    }
    forall id | id in n.host.connections && n.host.connections[id].status == Revoking ensures Owned(n, id) {
      assert Owned(w, id);
    }
  }

  lemma RevokeEnterKeepsInv(w: World, s: Step)
    requires Inv(w) && s.RevokeEnter? && Enabled(w, s)
    ensures Inv(Apply(w, s))
  {
    hide CallsCancelled;
    if IsConnected(w.host, s.id) {
      var n := Apply(w, s);
      var connections := w.host.connections[s.id := w.host.connections[s.id].(status := Revoking)];
      CancellingOneKeepsCalls(w.host, w.running, s.id);
      ChangingIdleKeepsCalls(CallsCancelled(w.host, s.id), w.running, connections);
      CancellingMindsCallsOnly(w.host, w.host.connections, connections, s.id);
      assert w.host.(connections := w.host.connections) == w.host;
      forall id | id in n.host.connections && n.host.connections[id].status == Revoking ensures Owned(n, id) {
        if id == s.id {
          assert s.t in n.pending;
        } else {
          assert Owned(w, id);
          var t :| t in w.pending && w.pending[t].RevokingOf? && w.pending[t].c.id == id;
          assert t in n.pending;
        }
      }
    }
  }

  lemma RevokeEndKeepsInv(w: World, s: Step)
    requires Inv(w) && Enabled(w, s) && (s.RevokeFail? || s.RevokeCommit?)
    ensures Inv(Apply(w, s))
  {
    var n := Apply(w, s);
    var c := w.pending[s.t].c;
    ChangingIdleKeepsCalls(w.host, w.running, n.host.connections);
    forall id | id in n.host.connections && n.host.connections[id].status == Revoking ensures Owned(n, id) {
      assert Owned(w, id);
      var t :| t in w.pending && w.pending[t].RevokingOf? && w.pending[t].c.id == id;
      assert t != s.t && t in n.pending;
    }
  }

  lemma BeginCallKeepsCalls(w: World, s: Step)
    requires Inv(w) && s.BeginCall?
    ensures CallsHold(Apply(w, s).host, Apply(w, s).running)
  {
    hide CallsCancelled;
    var h := w.host;
    if h.enabled && IsConnected(h, s.id) && Past(h.connections[s.id], s.now) {
      var connections := h.connections[s.id := h.connections[s.id].(status := Expired)];
      CancellingOneKeepsCalls(h, w.running, s.id);
      ChangingIdleKeepsCalls(CallsCancelled(h, s.id), w.running, connections);
      CancellingMindsCallsOnly(h, h.connections, connections, s.id);
      assert h.(connections := h.connections) == h;
    }
  }

  lemma CallKeepsInv(w: World, s: Step)
    requires Inv(w) && Enabled(w, s) && (s.BeginCall? || s.EndCall?)
    ensures Inv(Apply(w, s))
  {
    var n := Apply(w, s);
    if s.BeginCall? {
      BeginCallKeepsCalls(w, s);
    }
    forall id | id in n.host.connections && n.host.connections[id].status == Revoking ensures Owned(n, id) {
      assert Owned(w, id);
    }
  }

  lemma LoadedIsInv(disk: Snapshot, now: nat, used: set<Id>)
    requires Stored(disk) && disk.connections.Keys <= used
    ensures Inv(World(Loaded(disk, now), map[], map[], used))
  {
  }

  lemma StepKeepsInv(w: World, s: Step)
    requires Inv(w) && Enabled(w, s)
    ensures Inv(Apply(w, s))
  {
    hide Inv, Apply;
    match s {
      case SetEnabled(_, _, _, _, _) => if IsStop(w, s) { StopKeepsInv(w, s); } else { EnableKeepsInv(w, s); }
      case Finalize(_, _) => if IsStop(w, s) { StopKeepsInv(w, s); } else { EnableKeepsInv(w, s); }
      case CreateCheck(_, _) => CreateKeepsInv(w, s);
      case CreateCommit(_, _) => CreateKeepsInv(w, s);
      case CreateAbandon(_) => CreateKeepsInv(w, s);
      case ListAll(_, _) => ListKeepsInv(w, s);
      case DeleteOne(_, _) => DeleteKeepsInv(w, s);
      case RevokeEnter(_, _) => RevokeEnterKeepsInv(w, s);
      case RevokeFail(_) => RevokeEndKeepsInv(w, s);
      case RevokeCommit(_, _) => RevokeEndKeepsInv(w, s);
      case BeginCall(_, _, _) => CallKeepsInv(w, s);
      case EndCall(_) => CallKeepsInv(w, s);
      case Crash(now) => CrashKeepsInv(w, s);
    }
  }

  lemma CrashKeepsInv(w: World, s: Step)
    requires Inv(w) && s.Crash?
    ensures Inv(Apply(w, s))
  {
    LoadedIsInv(w.host.disk, s.now, w.used);
  }

  lemma {:induction false} RunKeepsInv(first: World, steps: seq<Step>, last: World)
    requires Inv(first) && Run(first, steps, last)
    ensures Inv(last)
    decreases |steps|
  {
    if steps != [] {
      StepKeepsInv(first, steps[0]);
      RunKeepsInv(Apply(first, steps[0]), steps[1..], last);
    }
  }

  lemma ReachableHolds(w: World)
    requires Reachable(w)
    ensures Inv(w)
  {
    var disk, now, steps :| Stored(disk) && Run(Started(disk, now), steps, w);
    LoadedIsInv(disk, now, disk.connections.Keys);
    RunKeepsInv(Started(disk, now), steps, w);
  }

  // ----- Main results -------------------------------------------------------------------------

  /** A call that runs uncancelled runs under a connected connection of an enabled host. */
  lemma UncancelledCallIsLive(w: World, call: CallId)
    requires Reachable(w) && call in w.running && call !in w.host.cancelled
    ensures w.host.enabled && IsConnected(w.host, w.running[call])
  {
    ReachableHolds(w);
  }

  /** Once an identifier is final, or deleted, it never comes back to life: not even after a crash. */
  ghost predicate Settled(w: World, id: Id) {
    && id in w.used && (id in w.host.connections ==> Final(w.host.connections[id].status))
    && forall t :: t in w.pending ==> w.pending[t].c.id != id
  }

  lemma StepKeepsSettled(w: World, s: Step, id: Id)
    requires Inv(w) && Enabled(w, s) && Settled(w, id)
    ensures Settled(Apply(w, s), id)
  {
  }

  lemma {:induction false} FinalNeverRevives(first: World, steps: seq<Step>, last: World, id: Id)
    requires Inv(first) && Run(first, steps, last) && id in first.host.connections &&
             Final(first.host.connections[id].status)
    ensures id in last.host.connections ==> Final(last.host.connections[id].status)
  {
    forall t | t in first.pending ensures first.pending[t].c.id != id {
    }
    SettledStays(first, steps, last, id);
  }

  lemma {:induction false} SettledStays(first: World, steps: seq<Step>, last: World, id: Id)
    requires Inv(first) && Run(first, steps, last) && Settled(first, id)
    ensures Settled(last, id)
    decreases |steps|
  {
    if steps != [] {
      StepKeepsInv(first, steps[0]);
      StepKeepsSettled(first, steps[0], id);
      SettledStays(Apply(first, steps[0]), steps[1..], last, id);
    }
  }

  /** Only a crash can lower the generation in memory, and it lowers it to the one on disk. */
  lemma GenerationNeverDecreases(w: World, s: Step)
    requires Inv(w) && Enabled(w, s)
    ensures if s.Crash? then Apply(w, s).host.generation == w.host.disk.generation <= w.host.generation
            else Apply(w, s).host.generation >= w.host.generation
    ensures Apply(w, s).host.enabled != w.host.enabled && !s.Crash? ==>
              Apply(w, s).host.generation == w.host.generation + 1
  {
  }

  /** A stop that took effect without reaching the disk. */
  predicate UnsavedStop(w: World, s: Step) {
    IsStop(w, s) && !SavedFlag(s)
  }

  /** The section saves, and the save succeeds. */
  predicate Saves(w: World, s: Step) {
    match s
    case SetEnabled(enable, ready, moved, saved, _) => w.host.enabled != enable && ready && moved && saved
    case Finalize(saved, _) => w.host.enabled && saved
    case CreateCommit(_, saved) => saved
    case ListAll(_, saved) => saved
    case DeleteOne(id, saved) => Deletable(w.host, id) && saved
    case RevokeCommit(_, saved) => saved
    case _ => false
  }

  lemma StepTracksGeneration(w: World, s: Step)
    requires Inv(w) && Enabled(w, s)
    ensures var n := Apply(w, s).host;
            n.disk.generation < n.generation <==>
              !Saves(w, s) && !s.Crash? && (w.host.disk.generation < w.host.generation || UnsavedStop(w, s))
  {
  }

  /** Some stop took effect unsaved, and since then there was no successful save and no crash. */
  ghost predicate UnsavedAfter(w: World, steps: seq<Step>, unsaved: bool)
    decreases |steps|
  {
    if steps == [] then unsaved
    else
      && Enabled(w, steps[0])
      && UnsavedAfter(Apply(w, steps[0]), steps[1..],
                      !Saves(w, steps[0]) && !steps[0].Crash? && (unsaved || UnsavedStop(w, steps[0])))
  }

  lemma {:induction false} RunTracksGeneration(first: World, steps: seq<Step>, last: World, unsaved: bool)
    requires Inv(first) && Run(first, steps, last) && (first.host.disk.generation < first.host.generation <==> unsaved)
    ensures last.host.disk.generation < last.host.generation <==> UnsavedAfter(first, steps, unsaved)
    decreases |steps|
  {
    hide Inv, Apply, Enabled, Saves, UnsavedStop;
    if steps != [] {
      StepKeepsInv(first, steps[0]);
      StepTracksGeneration(first, steps[0]);
      RunTracksGeneration(Apply(first, steps[0]), steps[1..], last,
                          !Saves(first, steps[0]) && !steps[0].Crash? && (unsaved || UnsavedStop(first, steps[0])));
    }
  }

  /**
   * Over every run, a crash lowers the generation exactly when a stop took effect unsaved and nothing was saved
   * since.
   */
  lemma CrashLowersGenerationIff(disk: Snapshot, now: nat, steps: seq<Step>, last: World, later: nat)
    requires Stored(disk) && Run(Started(disk, now), steps, last)
    ensures Apply(last, Crash(later)).host.generation < last.host.generation <==>
            UnsavedAfter(Started(disk, now), steps, false)
  {
    LoadedIsInv(disk, now, disk.connections.Keys);
    RunTracksGeneration(Started(disk, now), steps, last, false);
  }

  lemma CrashDisconnectsEverything(w: World, now: nat, id: Id)
    requires id in w.used
    ensures var n := Apply(w, Crash(now)); !n.host.enabled && n.running == map[] && Settled(n, id)
  {
  }

  /** No identifier that was in use before a crash is ever served again, whatever happens afterwards. */
  lemma CrashEndsForGood(disk: Snapshot, now: nat, before: seq<Step>, w: World, crashed: nat, steps: seq<Step>,
                         last: World, id: Id)
    requires Stored(disk) && Run(Started(disk, now), before, w) && id in w.used
    requires Run(Apply(w, Crash(crashed)), steps, last)
    ensures id in last.host.connections ==> Final(last.host.connections[id].status)
    ensures forall later, permitted :: !CallAdmitted(last.host, id, later, permitted)
    ensures forall call :: call in last.running && last.running[call] == id ==> call in last.host.cancelled
  {
    LoadedIsInv(disk, now, disk.connections.Keys);
    RunKeepsInv(Started(disk, now), before, w);
    StepKeepsInv(w, Crash(crashed));
    CrashDisconnectsEverything(w, crashed, id);
    SettledStays(Apply(w, Crash(crashed)), steps, last, id);
    RunKeepsInv(Apply(w, Crash(crashed)), steps, last);
  }

  ghost predicate Quiet(w: World) {
    !w.host.enabled ==> forall id :: id in w.host.connections ==> w.host.connections[id].status != Connected
  }

  /** The two second sections that do not look whether the host was disabled meanwhile. */
  predicate LandsLate(w: World, s: Step) {
    !w.host.enabled && (s.RevokeFail? || (s.CreateCommit? && s.saved))
  }

  lemma StepKeepsQuietIff(w: World, s: Step)
    requires Inv(w) && Enabled(w, s) && Quiet(w)
    ensures Quiet(Apply(w, s)) <==> !LandsLate(w, s)
  {
    var n := Apply(w, s);
    if LandsLate(w, s) {
      var c := w.pending[s.t].c;
      assert n.host.connections[c.id].status == Connected;
    }
  }

  // ----- A connection that outlives a stop ----------------------------------------------------

  lemma {:induction false} RunExtends(first: World, steps: seq<Step>, w: World, s: Step)
    requires Run(first, steps, w) && Enabled(w, s)
    ensures Run(first, steps + [s], Apply(w, s))
    decreases |steps|
  {
    if steps == [] {
      assert ([] + [s])[1..] == [];
      assert Run(Apply(w, s), [], Apply(w, s));
    } else {
      RunExtends(Apply(first, steps[0]), steps[1..], w, s);
      assert (steps + [s])[1..] == steps[1..] + [s];
    }
  }

  lemma Taken(w: World, s: Step) returns (n: World)
    requires Reachable(w) && Enabled(w, s)
    ensures n == Apply(w, s) && Reachable(n)
  {
    var disk, now, steps :| Stored(disk) && Run(Started(disk, now), steps, w);
    RunExtends(Started(disk, now), steps, w, s);
    n := Apply(w, s);
  }

  const SAMPLE := Connection(1, Some(100), Connected, 0)

  lemma SampleConnected() returns (w: World)
    ensures Reachable(w) && w.host.enabled && w.pending == map[] && w.host.calls == map[]
    ensures w.host.connections == map[1 := SAMPLE] && w.host.disk.generation == w.host.generation
  {
    var disk := Snapshot(0, map[]);
    w := Started(disk, 0);
    assert Run(w, [], w) && Stored(disk);
    w := Taken(w, SetEnabled(true, true, true, true, true));
    w := Taken(w, CreateCheck(0, SAMPLE));
    w := Taken(w, CreateCommit(0, true));
  }

  lemma SampleRevokedAcrossStop() returns (w: World)
    ensures Reachable(w) && !w.host.enabled && w.pending == map[0 := RevokingOf(SAMPLE.(status := Revoking))]
    ensures w.host.connections == map[1 := SAMPLE.(status := Revoking)]
    ensures w.host.disk.connections == w.host.connections && w.host.disk.generation == w.host.generation
  {
    w := SampleConnected();
    w := Taken(w, RevokeEnter(0, 1));
    assert Fenced(w.host.connections) == w.host.connections;
    w := Taken(w, SetEnabled(false, true, true, true, true));
  }

  /**
   * A revocation that fails after the host was stopped puts its connection back as connected, and
   * the next start serves it: the stop fenced every connection but this one.
   */
  lemma FailedRevocationOutlivesStop() returns (stopped: World, last: World)
    ensures Reachable(stopped) && !stopped.host.enabled && stopped.host.disk.generation == stopped.host.generation
    ensures Reachable(last) && CallAdmitted(last.host, 1, 50, true) && last.host.connections[1] == SAMPLE
    ensures 1 in stopped.host.connections && last.host.generation == stopped.host.generation + 1
  {
    stopped := SampleRevokedAcrossStop();
    last := Taken(stopped, RevokeFail(0));
    last := Taken(last, SetEnabled(true, true, true, true, true));
  }

  lemma SampleCreatingAcrossStop() returns (w: World)
    ensures Reachable(w) && !w.host.enabled && w.pending == map[0 := Creating(SAMPLE)] && w.host.connections == map[]
    ensures w.host.disk.generation == w.host.generation
  {
    var disk := Snapshot(0, map[]);
    w := Started(disk, 0);
    assert Run(w, [], w) && Stored(disk);
    w := Taken(w, SetEnabled(true, true, true, true, true));
    w := Taken(w, CreateCheck(0, SAMPLE));
    assert Fenced(w.host.connections) == map[];
    w := Taken(w, SetEnabled(false, true, true, true, true));
  }

  /** A creation that lands after the host was stopped leaves a connected connection, and the next start serves it. */
  lemma LateCreationOutlivesStop() returns (stopped: World, last: World)
    ensures Reachable(stopped) && !stopped.host.enabled && !Quiet(stopped)
    ensures Reachable(last) && CallAdmitted(last.host, 1, 50, true) &&
            last.host.generation == stopped.host.generation + 1
  {
    stopped := SampleCreatingAcrossStop();
    stopped := Taken(stopped, CreateCommit(0, true));
    assert stopped.host.connections[1].status == Connected;
    last := Taken(stopped, SetEnabled(true, true, true, true, true));
  }

  /**
   * A stop that cannot be saved, and whose transport does not come back either, takes effect; a crash then lowers the
   * generation.
   */
  lemma UnsavedStopLowersGeneration() returns (stopped: World, last: World)
    ensures Reachable(stopped) && !stopped.host.enabled && Reachable(last)
    ensures last == Apply(stopped, Crash(0)) && last.host.generation < stopped.host.generation
  {
    stopped := SampleConnected();
    stopped := Taken(stopped, SetEnabled(false, true, true, false, false));
    last := Taken(stopped, Crash(0));
  }
}
