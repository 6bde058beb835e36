/**
 * Delegating part of a grant to an agent. Records are never removed: a revocation notes the
 * generation it revokes, and a snapshot carries both through a restart.
 */
module Delegations {
  import opened Options
  import opened TextOrder
  import opened Policies

  datatype Actor = Actor(kind: string, id: string)

  datatype Delegation = Delegation(
    id: string, parentActor: Actor, agent: Actor, document: string, scope: string,
    capabilities: seq<Capability>, permissions: Permissions, issuedAt: int, expiresAt: int, generation: nat)

  datatype Grant = Grant(
    actor: Actor, document: string, scope: string, issuedAt: int, expiry: Expiry, capabilities: seq<Capability>)

  datatype Store = Store(records: map<string, Delegation>, revoked: map<string, nat>)

  datatype Snapshot = Snapshot(version: int, records: seq<Delegation>, revoked: Option<map<string, nat>>)

  predicate WithinExpiry(parent: Grant, d: Delegation) {
    match parent.expiry
    case NoExpiry => true
    case Unreadable => false
    case ExpiresAt(at) => d.expiresAt <= at
  }

  /** The request names this parent and this scope, and asks for no capability the parent lacks. */
  ghost predicate Delegable(s: Store, parent: Grant, d: Delegation) {
    && d.id != "" && d.agent.kind == AGENT && d.agent.id != "" && d.parentActor == parent.actor &&
       d.document == parent.document
    && d.scope == parent.scope && d.expiresAt > d.issuedAt && WithinExpiry(parent, d)
    && (forall c :: c in d.capabilities ==> c in parent.capabilities) && d.id !in s.records
  }

  predicate Current(s: Store, id: string, now: int) {
    && id in s.records && (if id in s.revoked then s.revoked[id] else 0) < s.records[id].generation
    && now < s.records[id].expiresAt
  }

  /** The record was made for this actor, document and scope, and the parent still has its capabilities. */
  ghost predicate Admits(s: Store, parent: Grant, id: string) {
    id in s.records &&
    var d := s.records[id];
    && d.parentActor == parent.actor && d.document == parent.document && d.scope == parent.scope
    && forall c :: c in d.capabilities ==> c in parent.capabilities
  }

  ghost predicate Grantable(s: Store, parent: Grant, id: string, now: int) {
    Current(s, id, now) && Admits(s, parent, id)
  }

  /** The agent's own grant: its record's capabilities, times and permissions, on the parent's document and scope. */
  function Granted(d: Delegation, parent: Grant): Grant {
    Grant(d.agent, parent.document, parent.scope, d.issuedAt, ExpiresAt(d.expiresAt), d.capabilities)
  }

  method LoadRecords(all: seq<Delegation>) returns (ok: bool, records: map<string, Delegation>)
    ensures ok <==>
              && (forall k :: 0 <= k < |all| ==> ValidRecord(all[k]))
              && forall k, l :: 0 <= k < l < |all| ==> all[k].id != all[l].id
    ensures ok ==> records == RecordsOf(all)
  {
    records := map[];
    for i := 0 to |all|
      invariant records == RecordsOf(all[..i])
      invariant forall k :: 0 <= k < i ==> ValidRecord(all[k])
      invariant forall k, l :: 0 <= k < l < i ==> all[k].id != all[l].id
    {
      assert all[..i + 1][..i] == all[..i];
      RecordsOfKeys(all[..i], all[i].id);
      if all[i].id == "" || all[i].generation == 0 || all[i].agent.kind != AGENT {
        return false, records;
      }
      if all[i].id in records {
        return false, records;
      }
      records := records[all[i].id := all[i]];
    }
    assert all[..|all|] == all;
    return true, records;
  }

  method LoadRevoked(records: map<string, Delegation>, stored: map<string, nat>)
    returns (ok: bool, revoked: map<string, nat>)
    ensures ok <==> forall id :: id in stored ==> ValidRevocation(records, id, stored[id])
    ensures ok ==> revoked == stored
  {
    revoked := map[];
    var pending := stored.Keys;
    while pending != {}
      invariant pending <= stored.Keys
      invariant forall id :: id in revoked <==> id in stored.Keys - pending
      invariant forall id :: id in revoked ==> revoked[id] == stored[id] && ValidRevocation(records, id, stored[id])
      decreases |pending|
    {
      var id :| id in pending;
      if id !in records || stored[id] == 0 || stored[id] > records[id].generation {
        return false, revoked;
      }
      pending := pending - {id};
      revoked := revoked[id := stored[id]];
    }
    assert revoked == stored;
    return true, revoked;
  }

  class DelegationStore {
    var records: map<string, Delegation>
    var revoked: map<string, nat>

    ghost function View(): Store
      reads this
    {
      Store(records, revoked)
    }

    constructor ()
      ensures View() == Store(map[], map[])
    {
      records, revoked := map[], map[];
    }

    /** Takes over a snapshot, refusing any whose records or revocations could not have been stored. */
    method Load(snapshot: Snapshot) returns (ok: bool)
      requires records == map[] && revoked == map[]
      modifies this
      ensures ok <==> snapshot.version == 1 && Loadable(snapshot)
      ensures ok ==> records == RecordsOf(snapshot.records) && Some(revoked) == snapshot.revoked
    {
      if snapshot.version != 1 || snapshot.revoked.None? {
        return false;
      }
      ok, records := LoadRecords(snapshot.records);
      if !ok {
        return;
      }
      ok, revoked := LoadRevoked(records, snapshot.revoked.value);
    }

    method TakeSnapshot() returns (snapshot: Snapshot)
      requires forall id :: id in records ==> records[id].id == id
      ensures Snapshots(View(), snapshot)
    {
      hide Less, SortedBy, Inserted;
      var found: seq<Delegation> := [];
      var pending := records.Keys;
      while pending != {}
        invariant pending <= records.Keys
        invariant forall d :: d in found <==> d.id in records.Keys - pending && records[d.id] == d
        invariant forall i, j :: 0 <= i < j < |found| ==> found[i].id != found[j].id
        decreases |pending|
      {
        var id :| id in pending;
        assert forall k :: 0 <= k < |found| ==> found[k] in found;
        pending := pending - {id};
        found := found + [records[id]];
      }
      var sorted := SortedBy(ById, found);
      ByIdIsComparison();
      SortedByIsOrdered(ById, found);
      SameElements(found, sorted);
      SortedIdsDiffer(found, sorted);
      return Snapshot(1, sorted, Some(revoked));
    }

    method Delegate(parent: Grant, requested: Delegation) returns (made: Option<Delegation>)
      modifies this`records
      ensures made.Some? <==> Delegable(old(View()), parent, requested)
      ensures made.None? ==> records == old(records)
      ensures made.Some? ==> records == old(records)[requested.id := made.value]
      ensures made.Some? ==>
                && made.value == requested.(capabilities := made.value.capabilities, generation := 1)
                && Strict(made.value.capabilities) && forall c :: c in made.value.capabilities <==>
                   c in requested.capabilities
    {
      if requested.id == "" || requested.agent.kind != AGENT || requested.agent.id == "" ||
         requested.parentActor != parent.actor || requested.document != parent.document ||
         requested.scope != parent.scope || requested.expiresAt <= requested.issuedAt {
        return None;
      }
      match parent.expiry {
        case NoExpiry =>
        case Unreadable => return None;
        case ExpiresAt(at) => if requested.expiresAt > at { return None; }
      }
      var held := set c | c in parent.capabilities;
      var canonical := CanonicalCapabilities(requested.capabilities);
      for i := 0 to |canonical|
        invariant forall k :: 0 <= k < i ==> canonical[k] in held
      {
        if canonical[i] !in held {
          assert canonical[i] in canonical;
          return None;
        }
      }
      if requested.id in records {
        return None;
      }
      var record := requested.(capabilities := canonical, generation := 1);
      records := records[requested.id := record];
      return Some(record);
    }

    method Revoke(id: string) returns (ok: bool)
      modifies this`revoked
      ensures ok <==> id in records
      ensures revoked == if id in records then old(revoked)[id := records[id].generation] else old(revoked)
    {
      if id !in records {
        return false;
      }
      revoked := revoked[id := records[id].generation];
      return true;
    }

    method Resolve(id: string, now: int) returns (found: Option<Delegation>)
      ensures found == if Current(View(), id, now) then Some(records[id]) else None
    {
      if id !in records {
        return None;
      }
      var mark := if id in revoked then revoked[id] else 0;
      if mark >= records[id].generation || now >= records[id].expiresAt {
        return None;
      }
      return Some(records[id]);
    }

    /** The grant an agent acts under, and what it permits. */
    method GrantFor(parent: Grant, id: string, now: int) returns (granted: Option<(Grant, Permissions)>)
      ensures granted.Some? <==> Grantable(View(), parent, id, now)
      ensures granted.Some? ==> granted.value == (Granted(records[id], parent), records[id].permissions)
    {
      var record := Resolve(id, now);
      if record.None? {
        return None;
      }
      var d := record.value;
      if d.parentActor != parent.actor || d.document != parent.document || d.scope != parent.scope {
        return None;
      }
      var held := set c | c in parent.capabilities;
      for i := 0 to |d.capabilities|
        invariant forall k :: 0 <= k < i ==> d.capabilities[k] in held
      {
        if d.capabilities[i] !in held {
          assert d.capabilities[i] in d.capabilities;
          return None;
        }
      }
      var grant := parent.(actor := d.agent, capabilities := d.capabilities, issuedAt := d.issuedAt,
                           expiry := ExpiresAt(d.expiresAt));
      return Some((grant, d.permissions));
    }
  }

  // ----- Snapshots ----------------------------------------------------------------------------

  predicate ValidRecord(d: Delegation) {
    d.id != "" && d.generation != 0 && d.agent.kind == AGENT
  }

  predicate ValidRevocation(records: map<string, Delegation>, id: string, generation: nat) {
    id in records && generation != 0 && generation <= records[id].generation
  }

  function RecordsOf(all: seq<Delegation>): map<string, Delegation> {
    if all == [] then map[] else RecordsOf(all[..|all| - 1])[all[|all| - 1].id := all[|all| - 1]]
  }

  ghost predicate Loadable(snapshot: Snapshot) {
    && (forall k :: 0 <= k < |snapshot.records| ==> ValidRecord(snapshot.records[k]))
    && (forall k, l :: 0 <= k < l < |snapshot.records| ==> snapshot.records[k].id != snapshot.records[l].id)
    && snapshot.revoked.Some?
    && forall id :: id in snapshot.revoked.value ==>
       ValidRevocation(RecordsOf(snapshot.records), id, snapshot.revoked.value[id])
  }

  function ById(a: Delegation, b: Delegation): bool {
    Less(a.id, b.id)
  }

  lemma ByIdIsComparison()
    ensures Comparison(ById)
  {
    LessIsComparison();
    forall a, b | ById(a, b) ensures !ById(b, a) {
      LessIsAsymmetric(a.id, b.id);
    }
    forall a, b, c | !ById(b, a) && !ById(c, b) ensures !ById(c, a) {
      AtMostIsTransitive(a.id, b.id, c.id);
    }
  }

  lemma SortedIdsDiffer(found: seq<Delegation>, sorted: seq<Delegation>)
    requires multiset(found) == multiset(sorted) && forall i, j :: 0 <= i < j < |found| ==> found[i].id != found[j].id
    ensures forall i, j :: 0 <= i < j < |sorted| ==> sorted[i].id != sorted[j].id
  {
    var key := (d: Delegation) => d.id;
    assert DistinctBy(key, found);
    PermutedStaysDistinct(key, found, sorted);
    forall i, j | 0 <= i < j < |sorted| ensures sorted[i].id != sorted[j].id {
      assert key(sorted[i]) != key(sorted[j]);
    }
  }

  /** The snapshot lists every record once, in identifier order, with the revocations as they are. */
  ghost predicate Snapshots(s: Store, snapshot: Snapshot) {
    && snapshot.version == 1 && snapshot.revoked == Some(s.revoked)
    && (forall d :: d in snapshot.records <==> d.id in s.records && s.records[d.id] == d)
    && (forall i, j :: 0 <= i < j < |snapshot.records| ==> snapshot.records[i].id != snapshot.records[j].id)
    && Ordered(ById, snapshot.records)
  }

  lemma {:induction false} RecordsOfKeys(all: seq<Delegation>, id: string)
    requires forall k, l :: 0 <= k < l < |all| ==> all[k].id != all[l].id
    ensures id in RecordsOf(all) <==> exists k :: 0 <= k < |all| && all[k].id == id
    ensures forall k :: 0 <= k < |all| && all[k].id == id ==> id in RecordsOf(all) && RecordsOf(all)[id] == all[k]
    decreases |all|
  {
    if all != [] {
      var front := all[..|all| - 1];
      RecordsOfKeys(front, id);
      assert forall k :: 0 <= k < |front| ==> front[k] == all[k];
    }
  }

  /** The store every run leaves behind: what a snapshot needs to be taken back. */
  ghost predicate Sound(s: Store) {
    && (forall id :: id in s.records ==> s.records[id].id == id && ValidRecord(s.records[id]))
    && (forall id :: id in s.revoked ==> ValidRevocation(s.records, id, s.revoked[id]))
  }

  /** Taking a snapshot and loading it gives the store back. */
  lemma SnapshotRoundTrip(s: Store, snapshot: Snapshot)
    requires Sound(s) && Snapshots(s, snapshot)
    ensures Loadable(snapshot) && Store(RecordsOf(snapshot.records), snapshot.revoked.value) == s
  {
    var all := snapshot.records;
    forall id ensures id in RecordsOf(all) <==> id in s.records {
      RecordsOfKeys(all, id);
      if id in s.records {
        assert s.records[id] in all;
      }
    }
    forall id | id in s.records ensures RecordsOf(all)[id] == s.records[id] {
      RecordsOfKeys(all, id);
      assert s.records[id] in all;
    }
    assert RecordsOf(all) == s.records;
    forall k | 0 <= k < |all| ensures ValidRecord(all[k]) {
      assert all[k] in all;
    }
  }

  // ----- Runs ---------------------------------------------------------------------------------

  datatype Step =
    | DelegateStep(parent: Grant, made: Delegation)
    | RevokeStep(id: string)
    | RestartStep(snapshot: Snapshot)

  /** A delegation leaves the record the store made of it: canonical capabilities, first generation. */
  ghost predicate Enabled(s: Store, step: Step) {
    match step
    case DelegateStep(parent, made) => Delegable(s, parent, made) && made.generation == 1 && Strict(made.capabilities)
    case RevokeStep(_) => true
    case RestartStep(snapshot) => Snapshots(s, snapshot)
  }

  ghost function Apply(s: Store, step: Step): Store {
    match step
    case DelegateStep(_, made) => s.(records := s.records[made.id := made])
    case RevokeStep(id) => if id in s.records then s.(revoked := s.revoked[id := s.records[id].generation]) else s
    case RestartStep(snapshot) => Store(RecordsOf(snapshot.records), snapshot.revoked.GetOr(map[]))
  }

  ghost predicate Run(s: Store, steps: seq<Step>, last: Store)
    decreases |steps|
  {
    if steps == [] then s == last else Enabled(s, steps[0]) && Run(Apply(s, steps[0]), steps[1..], last)
  }

  lemma StepKeepsSound(s: Store, step: Step)
    requires Sound(s) && Enabled(s, step)
    ensures Sound(Apply(s, step))
    ensures forall id :: id in s.records ==> id in Apply(s, step).records && Apply(s, step).records[id] == s.records[id]
    ensures forall id :: id in s.revoked && s.revoked[id] >= s.records[id].generation ==>
              id in Apply(s, step).revoked && Apply(s, step).revoked[id] >= s.records[id].generation
  {
    if step.RestartStep? {
      SnapshotRoundTrip(s, step.snapshot);
    }
  }

  ghost predicate Revoked(s: Store, id: string) {
    id in s.records && id in s.revoked && s.revoked[id] >= s.records[id].generation
  }

  /** Records never change, and a revoked identifier never resolves again, restarts included. */
  lemma {:induction false} RevokedNeverResolves(s: Store, steps: seq<Step>, last: Store, id: string)
    requires Sound(s) && Run(s, steps, last) && Revoked(s, id)
    ensures Sound(last) && Revoked(last, id) && last.records[id] == s.records[id]
    ensures forall now :: !Current(last, id, now)
    decreases |steps|
  {
    if steps != [] {
      StepKeepsSound(s, steps[0]);
      RevokedNeverResolves(Apply(s, steps[0]), steps[1..], last, id);
    }
  }

  lemma RevokingRevokes(s: Store, id: string)
    requires Sound(s) && id in s.records
    ensures Revoked(Apply(s, RevokeStep(id)), id)
  {
  }

  /** However a run goes on after a revocation, restarts included, the identifier is never resolved or granted again. */
  lemma RevocationIsFinal(s: Store, id: string, steps: seq<Step>, last: Store, parent: Grant, now: int)
    requires Sound(s) && id in s.records && Run(Apply(s, RevokeStep(id)), steps, last)
    ensures id in last.records && !Current(last, id, now) && !Grantable(last, parent, id, now)
  {
    StepKeepsSound(s, RevokeStep(id));
    RevokingRevokes(s, id);
    RevokedNeverResolves(Apply(s, RevokeStep(id)), steps, last, id);
  }

  lemma {:induction false} RecordsAreKept(s: Store, steps: seq<Step>, last: Store, id: string)
    requires Sound(s) && Run(s, steps, last) && id in s.records
    ensures Sound(last) && id in last.records && last.records[id] == s.records[id]
    decreases |steps|
  {
    if steps != [] {
      StepKeepsSound(s, steps[0]);
      RecordsAreKept(Apply(s, steps[0]), steps[1..], last, id);
    }
  }

  /** What an agent may do stays within the grant it was delegated from, however long ago that was. */
  lemma GrantedStaysWithinParent(s: Store, parent: Grant, made: Delegation, steps: seq<Step>, last: Store,
                                 later: Grant, now: int)
    requires Sound(s) && Enabled(s, DelegateStep(parent, made))
    requires Run(Apply(s, DelegateStep(parent, made)), steps, last) && Grantable(last, later, made.id, now)
    ensures forall c :: c in last.records[made.id].capabilities ==> c in parent.capabilities && c in later.capabilities
    ensures now < made.expiresAt && WithinExpiry(parent, made) && later.actor == parent.actor
  {
    StepKeepsSound(s, DelegateStep(parent, made));
    RecordsAreKept(Apply(s, DelegateStep(parent, made)), steps, last, made.id);
  }

  // ----- Chains of delegation -----------------------------------------------------------------

  /**
   * The grant that `root` comes to through the records `ids` in turn, each presented with the grant before it. When it
   * was presented does not matter, for records never change.
   */
  ghost function ChainGrant(s: Store, root: Grant, ids: seq<string>): Option<Grant>
    decreases |ids|
  {
    if ids == [] then Some(root)
    else
      var parent, id := ChainGrant(s, root, ids[..|ids| - 1]), ids[|ids| - 1];
      if parent.Some? && Admits(s, parent.value, id) then Some(Granted(s.records[id], parent.value)) else None
  }

  /** A grant taken at any time of a run is a link in every later store. */
  lemma GrantedOnceIsLink(s: Store, steps: seq<Step>, last: Store, root: Grant, ids: seq<string>, parent: Grant,
                          id: string, now: int)
    requires Sound(s) && Run(s, steps, last) && Grantable(s, parent, id, now) &&
             ChainGrant(last, root, ids) == Some(parent)
    ensures ChainGrant(last, root, ids + [id]) == Some(Granted(s.records[id], parent))
  {
    RecordsAreKept(s, steps, last, id);
    assert (ids + [id])[..|ids|] == ids;
  }

  /** However long the chain, an agent's grant stays on the root's document and scope and within its capabilities. */
  lemma {:induction false} ChainStaysWithinRoot(s: Store, root: Grant, ids: seq<string>)
    requires Sound(s) && ChainGrant(s, root, ids).Some?
    ensures var grant := ChainGrant(s, root, ids).value;
            && grant.document == root.document && grant.scope == root.scope
            && (forall c :: c in grant.capabilities ==> c in root.capabilities)
            && (ids != [] ==> grant.actor == s.records[ids[|ids| - 1]].agent && grant.actor.kind == AGENT)
    decreases |ids|
  {
    if ids != [] {
      ChainStaysWithinRoot(s, root, ids[..|ids| - 1]);
    }
  }

  /**
   * Whatever an agent is granted at any time of a run, on a grant that came down a chain, stays on the root's document
   * and scope and within its capabilities, and is the agent's own.
   */
  lemma GrantedStaysWithinRoot(s: Store, steps: seq<Step>, last: Store, root: Grant, ids: seq<string>, parent: Grant,
                               id: string, now: int)
    requires Sound(s) && Run(s, steps, last) && Grantable(s, parent, id, now) &&
             ChainGrant(last, root, ids) == Some(parent)
    ensures var grant := Granted(s.records[id], parent);
            && grant.document == root.document && grant.scope == root.scope
            && (forall c :: c in grant.capabilities ==> c in root.capabilities)
            && grant.actor == s.records[id].agent && grant.actor.kind == AGENT && now < s.records[id].expiresAt
  {
    RecordsAreKept(s, steps, last, id);
    GrantedOnceIsLink(s, steps, last, root, ids, parent, id, now);
    ChainStaysWithinRoot(last, root, ids + [id]);
  }

  predicate NoLater(e: Expiry, root: Expiry) {
    match root
    case NoExpiry => true
    case Unreadable => e == Unreadable
    case ExpiresAt(at) => e.ExpiresAt? && e.at <= at
  }

  /** A grant ends with its record: within the presented parent's time exactly when the record fits that parent. */
  lemma GrantEndsInTimeIff(s: Store, parent: Grant, id: string)
    requires Admits(s, parent, id)
    ensures NoLater(Granted(s.records[id], parent).expiry, parent.expiry) <==> WithinExpiry(parent, s.records[id])
  {
  }

  /** Each record of the chain fits the time of the grant it is presented with, as when it was made under that grant. */
  ghost predicate FitsInTurn(s: Store, root: Grant, ids: seq<string>)
    requires ChainGrant(s, root, ids).Some?
    decreases |ids|
  {
    ids != [] ==>
      var front := ids[..|ids| - 1];
      FitsInTurn(s, root, front) && WithinExpiry(ChainGrant(s, root, front).value, s.records[ids[|ids| - 1]])
  }

  /** A chain whose records fit in turn also ends no later than its root. */
  lemma {:induction false} ChainEndsWithRoot(s: Store, root: Grant, ids: seq<string>)
    requires ChainGrant(s, root, ids).Some? && FitsInTurn(s, root, ids)
    ensures NoLater(ChainGrant(s, root, ids).value.expiry, root.expiry)
    decreases |ids|
  {
    if ids != [] {
      ChainEndsWithRoot(s, root, ids[..|ids| - 1]);
      GrantEndsInTimeIff(s, ChainGrant(s, root, ids[..|ids| - 1]).value, ids[|ids| - 1]);
    }
  }

  /**
   * A delegation made under the last grant of a chain, and presented with it at any later time, extends the chain in
   * time.
   */
  lemma DelegatingExtendsChain(s: Store, root: Grant, ids: seq<string>, parent: Grant, made: Delegation,
                               steps: seq<Step>, last: Store)
    requires Sound(s) && Enabled(s, DelegateStep(parent, made)) &&
             Run(Apply(s, DelegateStep(parent, made)), steps, last)
    requires ChainGrant(last, root, ids) == Some(parent) && FitsInTurn(last, root, ids)
    ensures ChainGrant(last, root, ids + [made.id]) == Some(Granted(made, parent)) &&
            FitsInTurn(last, root, ids + [made.id])
  {
    StepKeepsSound(s, DelegateStep(parent, made));
    RecordsAreKept(Apply(s, DelegateStep(parent, made)), steps, last, made.id);
    assert (ids + [made.id])[..|ids|] == ids;
  }
}
