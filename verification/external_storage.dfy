/**
 * The reference external store: optimistic versions, leases, saves that may fail, and restarts that
 * fall back to what was saved. Every method of `ExternalStore` holds the store's lock throughout.
 */
module ExternalStorage {
  import opened Options

  type Id = nat
  type Byte = b: nat | b < 256

  // ----- Version tokens -----------------------------------------------------------------------

  function Digits(n: nat): string {
    (if n < 10 then "" else Digits(n / 10)) + [('0' as int + n % 10) as char]
  }

  function Token(version: nat): string {
    "v" + Digits(version)
  }

  predicate IsDigit(c: char) {
    '0' <= c <= '9'
  }

  /** Scanning a decimal stops at the first character that is no digit. */
  function Scanned(s: string, sofar: nat): nat
    decreases |s|
  {
    if s == "" || !IsDigit(s[0]) then sofar else Scanned(s[1..], sofar * 10 + (s[0] as int - '0' as int))
  }

  /** A token that does not start with `v` and a digit scans as zero. */
  function VersionOf(token: string): nat {
    if |token| > 0 && token[0] == 'v' then Scanned(token[1..], 0) else 0
  }

  function NextToken(token: string): string {
    Token(VersionOf(token) + 1)
  }

  function Power10(n: nat): nat {
    if n == 0 then 1 else 10 * Power10(n - 1)
  }

  lemma {:induction false} ScannedAppends(s: string, t: string, sofar: nat)
    requires forall c :: c in s ==> IsDigit(c)
    ensures Scanned(s + t, sofar) == Scanned(t, Scanned(s, sofar))
    decreases |s|
  {
    if s == "" {
      assert s + t == t;
    } else {
      assert (s + t)[1..] == s[1..] + t && s[0] in s;
      ScannedAppends(s[1..], t, sofar * 10 + (s[0] as int - '0' as int));
    }
  }

  lemma {:induction false} DigitsScanBack(n: nat)
    ensures Scanned(Digits(n), 0) == n && forall c :: c in Digits(n) ==> IsDigit(c)
    decreases n
  {
    var last := [('0' as int + n % 10) as char];
    assert last[1..] == "";
    if n < 10 {
      assert Digits(n) == last;
      assert Scanned(last, 0) == Scanned("", n % 10);
    } else {
      DigitsScanBack(n / 10);
      ScannedAppends(Digits(n / 10), last, 0);
      assert Scanned(last, n / 10) == Scanned("", n / 10 * 10 + n % 10);
    }
  }

  /** Tokens of different versions differ, and the next token is the token of the next version. */
  lemma TokenRoundTrip(version: nat)
    ensures VersionOf(Token(version)) == version && NextToken(Token(version)) == Token(version + 1)
  {
    assert Token(version)[1..] == Digits(version);
    DigitsScanBack(version);
  }

  // ----- What identifiers are hashed from -----------------------------------------------------

  /** Each part is preceded by its length, in four bytes that keep the low 32 bits. */
  function Framed(parts: seq<seq<Byte>>): seq<Byte> {
    if parts == [] then []
    else LengthBytes(|parts[0]|) + parts[0] + Framed(parts[1..])
  }

  function LengthBytes(n: nat): seq<Byte> {
    [n / 0x1000000 % 256, n / 0x10000 % 256, n / 0x100 % 256, n % 256]
  }

  lemma LengthBytesDiffer(a: nat, b: nat)
    requires a < 0x1_0000_0000 && b < 0x1_0000_0000 && LengthBytes(a) == LengthBytes(b)
    ensures a == b
  {
    assert LengthBytes(a)[0] == LengthBytes(b)[0] && LengthBytes(a)[1] == LengthBytes(b)[1];
    assert LengthBytes(a)[2] == LengthBytes(b)[2] && LengthBytes(a)[3] == LengthBytes(b)[3];
    LowBytes(a);
    LowBytes(b);
  }

  lemma LowBytes(n: nat)
    requires n < 0x1_0000_0000
    ensures n == n / 0x1000000 % 256 * 0x1000000 + n / 0x10000 % 256 * 0x10000 + n / 0x100 % 256 * 0x100 + n % 256
  {
    assert n / 0x100 / 0x100 == n / 0x10000;
    assert n / 0x10000 / 0x100 == n / 0x1000000;
  }

  /** Two lists of parts are hashed from the same bytes only when they are the same list. */
  lemma {:induction false} FramingIsInjective(a: seq<seq<Byte>>, b: seq<seq<Byte>>)
    requires Framed(a) == Framed(b)
    requires (forall p :: p in a ==> |p| < 0x1_0000_0000) && forall p :: p in b ==> |p| < 0x1_0000_0000
    ensures a == b
    decreases |a|
  {
    if a != [] && b != [] {
      assert a[0] in a && b[0] in b;
      var x, y := Framed(a), Framed(b);
      assert x[..4] == LengthBytes(|a[0]|) && y[..4] == LengthBytes(|b[0]|);
      LengthBytesDiffer(|a[0]|, |b[0]|);
      var n := |a[0]|;
      assert x[4..4 + n] == a[0] && y[4..4 + n] == b[0];
      assert x[4 + n..] == Framed(a[1..]) && y[4 + n..] == Framed(b[1..]);
      FramingIsInjective(a[1..], b[1..]);
      assert a == [a[0]] + a[1..] && b == [b[0]] + b[1..];
    }
  }

  // ----- The store ----------------------------------------------------------------------------

  datatype Binding = Binding(connection: Id, document: Id, remote: Id, version: nat, revision: Id, payload: Id)

  /** A lease token is made from the binding and the expiry. */
  datatype Lease = Lease(binding: Id, expires: nat)

  datatype State = State(bindings: map<Id, Binding>, live: set<Id>)

  datatype Store = Store(memory: State, disk: State, leases: map<Id, Lease>)

  datatype Request = Request(
    binding: Id, connection: Id, document: Id, lease: Option<Lease>, expected: nat, revision: Id, payload: Id)

  datatype WriteResult =
    | Offline | Moved | Conflict(version: nat) | Partial(version: nat)
    | Unknown | Published(version: nat)

  const LEASE_SECONDS := 300

  function Saved(s: Store, saved: bool): Store {
    if saved then s.(disk := s.memory) else s
  }

  function Connected(s: Store, connection: Id, saved: bool): Store {
    Saved(s.(memory := s.memory.(live := s.memory.live + {connection})), saved)
  }

  function Lapsed(s: Store, connection: Id, saved: bool): Store {
    Saved(s.(memory := s.memory.(live := s.memory.live - {connection})), saved)
  }

  function Disconnected(s: Store, connection: Id, saved: bool): Store {
    Lapsed(s.(leases := map id | id in s.leases &&
              !(id in s.memory.bindings && s.memory.bindings[id].connection == connection) :: s.leases[id]),
              connection, saved)
  }

  /** A failed save keeps the new binding in memory. */
  function Selected(s: Store, id: Id, connection: Id, document: Id, remote: Id, saved: bool): Store {
    if connection !in s.memory.live || id in s.memory.bindings then s
    else
      var made := Binding(connection, document, remote, 0, 0, 0);
      Saved(s.(memory := s.memory.(bindings := s.memory.bindings[id := made])), saved)
  }

  predicate LeaseAllowed(s: Store, id: Id, presented: Binding) {
    && id in s.memory.bindings && presented.connection in s.memory.live
    && var b := s.memory.bindings[id];
       b.connection == presented.connection && b.document == presented.document && b.remote == presented.remote
       && b.version == presented.version
  }

  function Leased(s: Store, id: Id, presented: Binding, now: nat): Store {
    if LeaseAllowed(s, id, presented) then s.(leases := s.leases[id := Lease(id, now + LEASE_SECONDS)]) else s
  }

  predicate LeaseHeld(s: Store, r: Request, now: nat) {
    r.binding in s.leases && r.lease == Some(s.leases[r.binding]) && now < s.leases[r.binding].expires
  }

  function Outcome(s: Store, r: Request, cancelled: bool, stored: bool, saved: bool, now: nat): WriteResult {
    if cancelled then Offline
    else if r.binding !in s.memory.bindings then Moved
    else
      var b := s.memory.bindings[r.binding];
      if b.connection != r.connection || b.document != r.document then Moved
      else if r.connection !in s.memory.live then Offline
      else if !LeaseHeld(s, r, now) || r.expected != b.version then Conflict(b.version)
      else if !stored then Partial(b.version)
      else if !saved then Unknown
      else Published(b.version + 1)
  }

  /** A write whose save fails has still moved the version in memory, and used up its lease. */
  function Written(s: Store, r: Request, cancelled: bool, stored: bool, saved: bool, now: nat): Store {
    var outcome := Outcome(s, r, cancelled, stored, saved, now);
    if !outcome.Published? && !outcome.Unknown? then s
    else
      var b := s.memory.bindings[r.binding];
      var next := b.(version := b.version + 1, revision := r.revision, payload := r.payload);
      Saved(s.(memory := s.memory.(bindings := s.memory.bindings[r.binding := next]),
               leases := s.leases - {r.binding}), saved)
  }

  datatype Resolution = NoResolution | AcceptProvider | PublishLocal | KeepCurrent | OtherResolution

  datatype Plan = Plan(binding: Id, version: nat, revision: Id, restricted: bool, genuine: bool)

  /** `genuine` says that the plan's identifier is the one made from its parts. */
  function Reconciled(s: Store, p: Plan, resolution: Resolution, saved: bool): Store {
    if p.binding !in s.memory.bindings || s.memory.bindings[p.binding].version != p.version || !p.genuine then s
    else if p.restricted || resolution == NoResolution || resolution == OtherResolution then s
    else
      var next := s.memory.bindings[p.binding].(revision := p.revision);
      Saved(s.(memory := s.memory.(bindings := s.memory.bindings[p.binding := next])), saved)
  }

  function Restarted(s: Store): Store {
    Store(s.disk, s.disk, map[])
  }

  class ExternalStore {
    var memory: State
    var disk: State
    var leases: map<Id, Lease>

    ghost function View(): Store
      reads this
    {
      Store(memory, disk, leases)
    }

    /** Starts from what was saved, with no lease. */
    constructor (file: State)
      ensures View() == Store(file, file, map[])
    {
      memory, disk, leases := file, file, map[];
    }

    method SaveLocked(saved: bool)
      modifies this`disk
      ensures disk == if saved then memory else old(disk)
    {
      if saved {
        disk := memory;
      }
    }

    method Connect(connection: Id, saved: bool)
      modifies this
      ensures View() == Connected(old(View()), connection, saved)
    {
      memory := memory.(live := memory.live + {connection});
      SaveLocked(saved);
    }

    method Disconnect(connection: Id, saved: bool)
      modifies this
      ensures View() == Disconnected(old(View()), connection, saved)
    {
      memory := memory.(live := memory.live - {connection});
      var pending := leases.Keys;
      ghost var held := leases;
      while pending != {}
        invariant pending <= held.Keys && memory == old(memory).(live := old(memory).live - {connection}) &&
                  disk == old(disk)
        invariant forall id :: id in leases ==> id in held
        invariant forall id | id in held ::
                    id in leases <==> id in pending || !(id in memory.bindings &&
                                                         memory.bindings[id].connection == connection)
        invariant forall id :: id in leases ==> leases[id] == held[id]
        decreases |pending|
      {
        var id :| id in pending;
        pending := pending - {id};
        if id in memory.bindings && memory.bindings[id].connection == connection {
          leases := leases - {id};
        }
      }
      assert leases == Disconnected(old(View()), connection, saved).leases;
      SaveLocked(saved);
    }

    method SelectRemote(id: Id, connection: Id, document: Id, remote: Id, saved: bool) returns (ok: bool)
      modifies this
      ensures View() == Selected(old(View()), id, connection, document, remote, saved)
      ensures ok <==> connection in old(memory).live && (id in old(memory).bindings || saved)
    {
      if connection !in memory.live {
        return false;
      }
      if id !in memory.bindings {
        memory := memory.(bindings := memory.bindings[id := Binding(connection, document, remote, 0, 0, 0)]);
        SaveLocked(saved);
        return saved;
      }
      return true;
    }

    method AcquireLease(id: Id, presented: Binding, now: nat) returns (lease: Option<Lease>)
      modifies this`leases
      ensures View() == Leased(old(View()), id, presented, now)
      ensures lease == if LeaseAllowed(old(View()), id, presented) then Some(Lease(id, now + LEASE_SECONDS)) else None
    {
      if id !in memory.bindings {
        return None;
      }
      var b := memory.bindings[id];
      if b.connection != presented.connection || b.document != presented.document || b.remote != presented.remote ||
         b.version != presented.version || presented.connection !in memory.live {
        return None;
      }
      leases := leases[id := Lease(id, now + LEASE_SECONDS)];
      return Some(leases[id]);
    }

    method Write(r: Request, cancelled: bool, stored: bool, saved: bool, now: nat) returns (result: WriteResult)
      modifies this
      ensures View() == Written(old(View()), r, cancelled, stored, saved, now)
      ensures result == Outcome(old(View()), r, cancelled, stored, saved, now)
    {
      if cancelled {
        return Offline;
      }
      if r.binding !in memory.bindings {
        return Moved;
      }
      var b := memory.bindings[r.binding];
      if b.connection != r.connection || b.document != r.document {
        return Moved;
      }
      if r.connection !in memory.live {
        return Offline;
      }
      if r.binding !in leases || r.lease.None? || r.lease.value != leases[r.binding] ||
        now >= leases[r.binding].expires {
        return Conflict(b.version);
      }
      if r.expected != b.version {
        return Conflict(b.version);
      }
      if !stored {
        return Partial(b.version);
      }
      var next := b.(version := b.version + 1, revision := r.revision, payload := r.payload);
      memory := memory.(bindings := memory.bindings[r.binding := next]);
      leases := leases - {r.binding};
      SaveLocked(saved);
      if !saved {
        return Unknown;
      }
      return Published(next.version);
    }

    method ApplyReconcile(p: Plan, resolution: Resolution, saved: bool) returns (converged: bool)
      modifies this
      ensures View() == Reconciled(old(View()), p, resolution, saved)
      ensures converged ==>
                p.binding in memory.bindings && memory.bindings[p.binding].revision == p.revision && disk == memory
    {
      if p.binding !in memory.bindings || memory.bindings[p.binding].version != p.version || !p.genuine {
        return false;
      }
      if p.restricted || resolution == NoResolution || resolution == OtherResolution {
        return false;
      }
      memory := memory.(bindings := memory.bindings[p.binding := memory.bindings[p.binding].(revision := p.revision)]);
      SaveLocked(saved);
      return saved;
    }
  }

  // ----- Runs ---------------------------------------------------------------------------------

  datatype Step =
    | ConnectStep(connection: Id, saved: bool)
    | LapseStep(connection: Id, saved: bool)
    | DisconnectStep(connection: Id, saved: bool)
    | SelectStep(id: Id, connection: Id, document: Id, remote: Id, saved: bool)
    | LeaseStep(id: Id, presented: Binding, now: nat)
    | WriteStep(r: Request, cancelled: bool, stored: bool, saved: bool, now: nat)
    | ReconcileStep(p: Plan, resolution: Resolution, saved: bool)
    | RestartStep

  /** A write that was answered as published, in the order of the answers. */
  datatype Publication = Publication(binding: Id, expected: nat, version: nat, payload: Id)

  datatype World = World(store: Store, published: seq<Publication>)

  function Apply(w: World, s: Step): World {
    match s
    case ConnectStep(connection, saved) => w.(store := Connected(w.store, connection, saved))
    case LapseStep(connection, saved) => w.(store := Lapsed(w.store, connection, saved))
    case DisconnectStep(connection, saved) => w.(store := Disconnected(w.store, connection, saved))
    case SelectStep(id, connection, document, remote, saved) =>
      w.(store := Selected(w.store, id, connection, document, remote, saved))
    case LeaseStep(id, presented, now) => w.(store := Leased(w.store, id, presented, now))
    case WriteStep(r, cancelled, stored, saved, now) =>
      var outcome := Outcome(w.store, r, cancelled, stored, saved, now);
      World(Written(w.store, r, cancelled, stored, saved, now),
            if outcome.Published? then w.published + [Publication(r.binding, r.expected, outcome.version, r.payload)]
            else w.published)
    case ReconcileStep(p, resolution, saved) => w.(store := Reconciled(w.store, p, resolution, saved))
    case RestartStep => w.(store := Restarted(w.store))
  }

  ghost function Run(w: World, steps: seq<Step>): World
    decreases |steps|
  {
    if steps == [] then w else Run(Apply(w, steps[0]), steps[1..])
  }

  function Started(file: State): World {
    World(Store(file, file, map[]), [])
  }

  /** Memory never falls behind the disk, and the disk never behind what was published. */
  ghost predicate Inv(w: World) {
    && (forall id :: id in w.store.disk.bindings ==>
          id in w.store.memory.bindings && w.store.disk.bindings[id].version <= w.store.memory.bindings[id].version)
    && (forall p :: p in w.published ==>
          p.version == p.expected + 1 && p.binding in w.store.disk.bindings &&
            p.version <= w.store.disk.bindings[p.binding].version)
    && (forall i, j :: 0 <= i < j < |w.published| && w.published[i].binding == w.published[j].binding ==>
          w.published[i].version < w.published[j].version)
  }

  lemma SavingKeepsInv(w: World, memory: State, saved: bool, leases: map<Id, Lease>)
    requires Inv(w)
    requires forall id :: id in w.store.memory.bindings ==>
               id in memory.bindings && w.store.memory.bindings[id].version <= memory.bindings[id].version
    ensures Inv(w.(store := Saved(Store(memory, w.store.disk, leases), saved)))
  {
  }

  lemma WriteKeepsInv(w: World, s: Step)
    requires Inv(w) && s.WriteStep?
    ensures Inv(Apply(w, s))
  {
    var outcome := Outcome(w.store, s.r, s.cancelled, s.stored, s.saved, s.now);
    var n := Apply(w, s);
    if outcome.Published? || outcome.Unknown? {
      SavingKeepsInv(w, n.store.memory, s.saved, n.store.leases);
      if outcome.Published? {
        var last := n.published[|w.published|];
        assert forall p :: p in n.published <==> p in w.published || p == last;
        forall i | 0 <= i < |w.published| && w.published[i].binding == last.binding
          ensures w.published[i].version < last.version
        {
          assert w.published[i] in w.published;
        }
      }
    }
  }

  lemma StepKeepsInv(w: World, s: Step)
    requires Inv(w)
    ensures Inv(Apply(w, s))
  {
    hide Inv;
    var n := Apply(w, s);
    match s {
      case WriteStep(_, _, _, _, _) => WriteKeepsInv(w, s);
      case RestartStep => RestartKeepsInv(w);
      case ConnectStep(_, saved) => SavingKeepsInv(w, n.store.memory, saved, n.store.leases);
      case LapseStep(_, saved) => SavingKeepsInv(w, n.store.memory, saved, n.store.leases);
      case DisconnectStep(_, saved) => SavingKeepsInv(w, n.store.memory, saved, n.store.leases);
      case SelectStep(_, _, _, _, saved) =>
        SavingKeepsInv(w, n.store.memory, saved, n.store.leases);
      case LeaseStep(_, _, _) => SavingKeepsInv(w, n.store.memory, false, n.store.leases);
      case ReconcileStep(_, _, saved) => SavingKeepsInv(w, n.store.memory, saved, n.store.leases);
    }
  }

  lemma RestartKeepsInv(w: World)
    requires Inv(w)
    ensures Inv(Apply(w, RestartStep))
  {
  }

  lemma {:induction false} RunKeepsInv(w: World, steps: seq<Step>)
    requires Inv(w)
    ensures Inv(Run(w, steps))
    decreases |steps|
  {
    if steps != [] {
      StepKeepsInv(w, steps[0]);
      RunKeepsInv(Apply(w, steps[0]), steps[1..]);
    }
  }

  /**
   * No update is lost: whatever saves fail and restarts happen, the versions published for a binding
   * strictly increase, so no two published writes had expected the same version.
   */
  lemma NoLostUpdate(file: State, steps: seq<Step>, i: nat, j: nat)
    requires var published := Run(Started(file), steps).published;
             i < j < |published| && published[i].binding == published[j].binding
    ensures var published := Run(Started(file), steps).published;
            published[i].version < published[j].version && published[i].expected < published[j].expected
            && Token(published[i].version) != Token(published[j].version)
  {
    RunKeepsInv(Started(file), steps);
    var published := Run(Started(file), steps).published;
    assert published[i] in published && published[j] in published;
    TokenRoundTrip(published[i].version);
    TokenRoundTrip(published[j].version);
  }

  /** The section published `p`: on the very version it expected, under its lease, and the disk then holds it. */
  ghost predicate PublishedAt(w: World, s: Step, p: Publication) {
    && s.WriteStep? && LeaseHeld(w.store, s.r, s.now) && p.binding == s.r.binding && p.payload == s.r.payload
    && p.binding in w.store.memory.bindings && w.store.memory.bindings[p.binding].version == p.expected == s.r.expected
    && var n := Apply(w, s).store;
       && p.binding !in n.leases && n.disk == n.memory && p.binding in n.disk.bindings
       && n.disk.bindings[p.binding].version == p.version == p.expected + 1 &&
          n.disk.bindings[p.binding].payload == p.payload
       && forall id | id != p.binding ::
            (id in n.disk.bindings <==> id in w.store.memory.bindings)
            && (id in w.store.memory.bindings ==> n.disk.bindings[id] == w.store.memory.bindings[id])
  }

  lemma PublishedOnExpected(w: World, s: Step)
    ensures w.published <= Apply(w, s).published && |Apply(w, s).published| <= |w.published| + 1
    ensures |w.published| < |Apply(w, s).published| ==> PublishedAt(w, s, Apply(w, s).published[|w.published|])
  {
  }

  lemma {:induction false} PublishedStays(w: World, steps: seq<Step>)
    ensures w.published <= Run(w, steps).published
    decreases |steps|
  {
    hide Apply;
    if steps != [] {
      PublishedOnExpected(w, steps[0]);
      PublishedStays(Apply(w, steps[0]), steps[1..]);
    }
  }

  lemma {:induction false} PublishedFromStep(w: World, steps: seq<Step>, i: nat) returns (k: nat)
    requires |w.published| <= i < |Run(w, steps).published|
    ensures k < |steps| && PublishedAt(Run(w, steps[..k]), steps[k], Run(w, steps).published[i])
    decreases |steps|
  {
    hide Apply, PublishedAt;
    var next := Apply(w, steps[0]);
    PublishedOnExpected(w, steps[0]);
    PublishedStays(next, steps[1..]);
    if i < |next.published| {
      k := 0;
      assert steps[..0] == [];
    } else {
      var later := PublishedFromStep(next, steps[1..], i);
      k := later + 1;
      assert steps[..k][1..] == steps[1..][..later] && steps[..k][0] == steps[0];
    }
  }

  /**
   * Over every run, each published write was made by one section, on top of the very version it expected and under
   * the lease then held, and was on disk, with everything else as it stood in memory, when it was answered.
   */
  lemma PublicationsAreOnDisk(file: State, steps: seq<Step>, i: nat) returns (k: nat)
    requires i < |Run(Started(file), steps).published|
    ensures k < |steps| && PublishedAt(Run(Started(file), steps[..k]), steps[k], Run(Started(file), steps).published[i])
  {
    k := PublishedFromStep(Started(file), steps, i);
  }

  // ----- What a restart forgets ---------------------------------------------------------------

  /** The version of a binding, zero when there is none: a binding is made at version zero. */
  function VersionIn(state: State, id: Id): nat {
    if id in state.bindings then state.bindings[id].version else 0
  }

  /** The section saves, and the save succeeds. */
  predicate Saves(w: World, s: Step) {
    match s
    case ConnectStep(_, saved) => saved
    case LapseStep(_, saved) => saved
    case DisconnectStep(_, saved) => saved
    case SelectStep(id, connection, _, _, saved) =>
      saved && connection in w.store.memory.live && id !in w.store.memory.bindings
    case LeaseStep(_, _, _) => false
    case WriteStep(r, cancelled, stored, saved, now) => Outcome(w.store, r, cancelled, stored, saved, now).Published?
    case ReconcileStep(p, resolution, saved) =>
      && saved && p.binding in w.store.memory.bindings && w.store.memory.bindings[p.binding].version == p.version &&
         p.genuine
      && !p.restricted && resolution != NoResolution && resolution != OtherResolution
    case RestartStep => false
  }

  predicate UnknownWrite(w: World, s: Step, id: Id) {
    s.WriteStep? && s.r.binding == id && Outcome(w.store, s.r, s.cancelled, s.stored, s.saved, s.now).Unknown?
  }

  function StillUnsaved(w: World, s: Step, id: Id, unsaved: bool): bool {
    !Saves(w, s) && !s.RestartStep? && (unsaved || UnknownWrite(w, s, id))
  }

  /** Some write of the binding was answered as unknown, and since then there was no successful save and no restart. */
  ghost predicate UnsavedAfter(w: World, steps: seq<Step>, id: Id, unsaved: bool)
    decreases |steps|
  {
    if steps == [] then unsaved else UnsavedAfter(Apply(w, steps[0]), steps[1..], id,
                                                  StillUnsaved(w, steps[0], id, unsaved))
  }

  ghost predicate Behind(store: Store, id: Id) {
    VersionIn(store.disk, id) < VersionIn(store.memory, id)
  }

  lemma SavedIsNotBehind(w: World, s: Step, id: Id)
    requires Saves(w, s) || s.RestartStep?
    ensures !Behind(Apply(w, s).store, id)
  {
  }

  lemma UnsavedStepTracks(w: World, s: Step, id: Id)
    requires Inv(w) && !Saves(w, s) && !s.RestartStep?
    ensures Behind(Apply(w, s).store, id) <==> Behind(w.store, id) || UnknownWrite(w, s, id)
  {
    assert id in w.store.disk.bindings ==> w.store.disk.bindings[id].version <= VersionIn(w.store.memory, id);
  }

  lemma {:induction false} RunTracks(w: World, steps: seq<Step>, id: Id, unsaved: bool)
    requires Inv(w) && (Behind(w.store, id) <==> unsaved)
    ensures Behind(Run(w, steps).store, id) <==> UnsavedAfter(w, steps, id, unsaved)
    decreases |steps|
  {
    hide Inv, Apply, Behind, Saves, UnknownWrite;
    if steps != [] {
      StepKeepsInv(w, steps[0]);
      if Saves(w, steps[0]) || steps[0].RestartStep? {
        SavedIsNotBehind(w, steps[0], id);
      } else {
        UnsavedStepTracks(w, steps[0], id);
      }
      RunTracks(Apply(w, steps[0]), steps[1..], id, StillUnsaved(w, steps[0], id, unsaved));
    }
  }

  /**
   * Over every run, a restart lowers the version of a binding exactly when a write of it was answered as
   * unknown and nothing has been saved since; otherwise it keeps the version.
   */
  lemma RestartLowersVersionIff(file: State, steps: seq<Step>, id: Id)
    ensures var before := Run(Started(file), steps).store;
            var after := Restarted(before);
            && (VersionIn(after.memory, id) < VersionIn(before.memory, id) <==>
                UnsavedAfter(Started(file), steps, id, false))
            && VersionIn(after.memory, id) <= VersionIn(before.memory, id)
  {
    RunTracks(Started(file), steps, id, false);
    RunKeepsInv(Started(file), steps);
  }

  const SAMPLE := Binding(1, 1, 1, 0, 0, 0)

  function LeasedWrite(s: Store, payload: Id, saved: bool, now: nat): Step
    requires 1 in s.memory.bindings
  {
    var b := s.memory.bindings[1];
    WriteStep(Request(1, b.connection, b.document, Some(Lease(1, now + LEASE_SECONDS)), b.version, 0, payload), false,
              true, saved, now)
  }

  /**
   * A write answered as unknown, then a restart: the next write publishes the very version the first
   * one had already shown in memory, for another payload.
   */
  lemma UnknownThenRestartReusesVersion(before: Id, after: Id) returns (unknown: World, last: World)
    ensures 1 in unknown.store.memory.bindings
    ensures unknown.store.memory.bindings[1].version == 1 && unknown.store.memory.bindings[1].payload == before
    ensures last.published == [Publication(1, 0, 1, after)]
    ensures exists steps :: last == Run(unknown, steps)
  {
    var w0 := Started(State(map[1 := SAMPLE], {1}));
    var w1 := Apply(w0, LeaseStep(1, SAMPLE, 0));
    unknown := Apply(w1, LeasedWrite(w1.store, before, false, 0));
    var w3 := Apply(unknown, RestartStep);
    var w4 := Apply(w3, LeaseStep(1, SAMPLE, 0));
    var write := LeasedWrite(w4.store, after, true, 0);
    last := Apply(w4, write);
    var steps := [RestartStep, LeaseStep(1, SAMPLE, 0), write];
    assert steps[1..] == [LeaseStep(1, SAMPLE, 0), write] && steps[1..][1..] == [write] && [write][1..] == [];
    assert Run(w4, [write]) == Run(last, []);
    assert Run(w3, steps[1..]) == Run(w4, [write]);
    assert Run(unknown, steps) == Run(w3, steps[1..]);
  }
}
