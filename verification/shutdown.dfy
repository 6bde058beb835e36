/**
 * Tearing the application down behind a quit fence: the sessions are detached one by one, and a
 * failed save, or a host that does not stop, brings the detached ones back.
 */
module Shutdown {
  import opened Options
  import opened Lifecycle
  import opened LifecycleProtocol
  import opened QuitFence

  predicate AllSaved(saves: seq<bool>) {
    forall saved :: saved in saves ==> saved
  }

  function RolledBackAll(r: Registry, refs: seq<SessionRef>): Registry
    decreases |refs|
  {
    if refs == [] then r else RolledBackAll(CloseRolledBack(r, refs[0]), refs[1..])
  }

  /** The registry after the detach loop, the copies it handed out, and whether it got to the end. */
  datatype Teardown = Teardown(reg: Registry, copies: seq<Session>, complete: bool)

  function TornDown(r: Registry, refs: seq<SessionRef>, saves: seq<bool>): (t: Teardown)
    requires |saves| == |refs|
    ensures |t.copies| <= |refs|
    decreases |refs|
  {
    if refs == [] then Teardown(r, [], true)
    else if !FenceHolds(r, refs[0]) then TornDown(r, refs[1..], saves[1..])
    else if !saves[0] then Teardown(Detached(r, refs[0], false), [], false)
    else
      var rest := TornDown(Detached(r, refs[0], true), refs[1..], saves[1..]);
      rest.(copies := [r.sessions[refs[0].id]] + rest.copies)
  }

  function RestoredAll(r: Registry, copies: seq<Session>, now: nat, saves: seq<bool>): Registry
    requires |saves| >= |copies|
    decreases |copies|
  {
    if copies == [] then r else RestoredAll(Restored(r, copies[0], now, saves[0]), copies[1..], now, saves[1..])
  }

  function CloseFinished(r: Registry, ref: SessionRef, known: bool, saved: bool, closes: bool, now: nat,
                         restored: bool): Registry
    requires FenceHolds(r, ref)
  {
    if !known then CloseRolledBack(r, ref)
    else if !saved then CloseRolledBack(Detached(r, ref, false), ref)
    else if !closes then Restored(Detached(r, ref, true), r.sessions[ref.id], now, restored)
    else Detached(r, ref, true)
  }

  class Application {
    const projects: ProjectLifecycle
    var life: Life
    var hosted: bool
    var inflight: nat
    var quitFenced: bool
    var quitSessions: seq<SessionRef>

    constructor (lifecycle: ProjectLifecycle)
      ensures projects == lifecycle && life == Stopped && !hosted && inflight == 0 && !quitFenced && quitSessions == []
    {
      projects := lifecycle;
      life, hosted, inflight, quitFenced, quitSessions := Stopped, false, 0, false, [];
    }

    method Begin() returns (admitted: bool)
      modifies this`inflight
      ensures admitted <==> life == Ready && hosted
      ensures inflight == if admitted then old(inflight) + 1 else old(inflight)
    {
      if life != Ready || !hosted {
        return false;
      }
      inflight := inflight + 1;
      return true;
    }

    method RollbackDraining()
      modifies this`life
      ensures life == if old(life) == Draining then Ready else old(life)
    {
      if life == Draining {
        life := Ready;
      }
    }

    method RollbackQuitFence()
      modifies this`life, this`quitFenced, this`quitSessions, projects
      ensures projects.View() == RolledBackAll(old(projects.View()), old(quitSessions))
      ensures !quitFenced && quitSessions == [] && life == if old(life) == Draining then Ready else old(life)
    {
      var refs := quitSessions;
      quitFenced, quitSessions := false, [];
      for i := 0 to |refs|
        invariant RolledBackAll(projects.View(), refs[i..]) == RolledBackAll(old(projects.View()), refs)
        invariant life == old(life) && !quitFenced && quitSessions == []
      {
        assert refs[i..][1..] == refs[i + 1..];
        projects.RollbackClose(refs[i]);
      }
      RollbackDraining();
    }

    method RestoreAll(copies: seq<Session>, now: nat, saves: seq<bool>)
      requires |saves| >= |copies|
      modifies projects
      ensures projects.View() == RestoredAll(old(projects.View()), copies, now, saves)
    {
      for i := 0 to |copies|
        invariant RestoredAll(projects.View(), copies[i..], now, saves[i..]) ==
                  RestoredAll(old(projects.View()), copies, now, saves)
      {
        assert copies[i..][1..] == copies[i + 1..] && saves[i..][1..] == saves[i + 1..];
        var restored := projects.Restore(copies[i], now, saves[i]);
      }
    }

    method DetachAll(refs: seq<SessionRef>, saves: seq<bool>) returns (copies: seq<Session>, complete: bool)
      requires |saves| == |refs|
      modifies projects
      ensures Teardown(projects.View(), copies, complete) == TornDown(old(projects.View()), refs, saves)
    {
      copies := [];
      for i := 0 to |refs|
        invariant var rest := TornDown(projects.View(), refs[i..], saves[i..]);
                  rest.(copies := copies + rest.copies) == TornDown(old(projects.View()), refs, saves)
      {
        assert refs[i..][1..] == refs[i + 1..] && saves[i..][1..] == saves[i + 1..];
        ghost var taken := copies;
        var copy, failed := projects.Detach(refs[i], saves[i]);
        if copy.Some? {
          copies := copies + [copy.value];
          ghost var rest := TornDown(projects.View(), refs[i + 1..], saves[i + 1..]);
          assert taken + ([copy.value] + rest.copies) == copies + rest.copies;
        } else if failed {
          assert copies + [] == copies;
          return copies, false;
        }
      }
      assert copies + [] == copies;
      return copies, true;
    }

    /**
     * `CloseProject` once the session is fenced and closable: `known` says that the host has it,
     * `closes` that the host closed it, `saved` and `restored` that the two saves went through.
     */
    method FinishClose(ref: SessionRef, known: bool, saved: bool, closes: bool, now: nat, restored: bool)
      returns (closed: bool)
      requires FenceHolds(projects.View(), ref)
      modifies projects
      ensures projects.View() == CloseFinished(old(projects.View()), ref, known, saved, closes, now, restored)
      ensures closed <==> known && saved && closes
    {
      if !known {
        projects.RollbackClose(ref);
        return false;
      }
      var detached, failed := projects.Detach(ref, saved);
      if failed {
        projects.RollbackClose(ref);
        return false;
      }
      if !closes {
        var ok := projects.Restore(detached.value, now, restored);
        return false;
      }
      return true;
    }

    /** `Shutdown` from the point where `fenceQuitLocked` has returned without a failure. */
    method TearDown(adaptersStop: bool, refs: seq<SessionRef>, saves: seq<bool>, hostStops: bool,
                    now: nat, restores: seq<bool>) returns (stopped: bool)
      requires quitFenced || life == Stopped
      requires |saves| == |refs| <= |restores|
      modifies this, projects
      ensures !(old(life) == Ready || old(life) == Draining || old(life) == InRecovery) || !adaptersStop ==>
                projects.View() == old(projects.View()) && (stopped <==> old(life) == Stopped)
      ensures (old(life) == Ready || old(life) == Draining || old(life) == InRecovery) && adaptersStop ==>
                var t := TornDown(old(projects.View()), refs, saves);
                && (stopped <==> t.complete && hostStops)
                && projects.View() == if stopped then t.reg else RestoredAll(t.reg, t.copies, now, restores)
      ensures stopped ==> life == Stopped
      ensures stopped && old(life) != Stopped ==> !hosted && !quitFenced && quitSessions == []
      ensures !stopped || old(life) == Stopped ==>
                life == old(life) && hosted == old(hosted) && quitFenced == old(quitFenced) &&
                  quitSessions == old(quitSessions)
    {
      if life == Stopped {
        return true;
      }
      if (life != Ready && life != Draining && life != InRecovery) || !adaptersStop {
        return false;
      }
      var copies, complete := DetachAll(refs, saves);
      if !complete || !hostStops {
        RestoreAll(copies, now, restores);
        return false;
      }
      life, hosted, quitFenced, quitSessions := Stopped, false, false, [];
      return true;
    }
  }

  // ----- Giving the fences back ---------------------------------------------------------------

  /** Rolling back reopens exactly the listed sessions, whatever else is registered. */
  lemma {:induction false} RolledBackAllReopensListed(r: Registry, refs: seq<SessionRef>, id: SessionId)
    requires id in r.sessions && r.sessions[id].ref.id == id
    ensures var n := RolledBackAll(r, refs);
            && n.sessions.Keys == r.sessions.Keys && n.state == r.state && n.byProject == r.byProject
            && n.sessions[id] == if r.sessions[id].ref in refs then r.sessions[id].(closing := false, drained := None)
                                 else r.sessions[id]
    decreases |refs|
  {
    if refs != [] {
      var next := CloseRolledBack(r, refs[0]);
      assert next.sessions.Keys == r.sessions.Keys;
      assert refs == [refs[0]] + refs[1..];
      RolledBackAllReopensListed(next, refs[1..], id);
    }
  }

  /** The session is back with its work and open to new work, or gone with its recovery record; no other moved. */
  ghost predicate EndedOrReopened(r: Registry, n: Registry, ref: SessionRef, reopened: bool)
    requires ref.id in r.sessions
  {
    var s := r.sessions[ref.id];
    && (forall id | id != ref.id ::
          (id in n.sessions <==> id in r.sessions) && (id in r.sessions ==> n.sessions[id] == r.sessions[id]))
    && (ref.id in n.sessions <==> reopened)
    && (reopened ==>
          && n.byProject == r.byProject && n.sessions[ref.id].work == s.work && !n.sessions[ref.id].closing
          && n.sessions[ref.id].ref == ref && n.sessions[ref.id].inflight == 0 && BeginAllowed(n, ref))
    && (!reopened ==> s.project !in n.byProject && s.project !in n.state.recoveries && s.project !in n.disk.recoveries)
  }

  lemma CloseEndsOrReopens(r: Registry, ref: SessionRef, known: bool, saved: bool, closes: bool, now: nat,
                           restored: bool)
    requires Mirrored(r) && FenceHolds(r, ref)
    ensures EndedOrReopened(r, CloseFinished(r, ref, known, saved, closes, now, restored), ref,
                            !known || !saved || (!closes && restored))
  {
    DetachTakes(r, ref);
    var n := CloseFinished(r, ref, known, saved, closes, now, restored);
    if ref.id in n.sessions {
      assert n.byProject == r.byProject;
    }
  }

  /**
   * In every reachable state the owner of a fence can close: its session is still fenced as it was judged, and after
   * the close it is registered, with its work, exactly when the host did not know it, or a save or the host failed
   * and it could be brought back; in every other case it is gone with its recovery record.
   */
  lemma OwnedCloseEndsOrReopens(w: World, f: Thread, known: bool, saved: bool, closes: bool, now: nat, restored: bool)
    requires LifecycleProtocol.Reachable(w) && f in w.fences && w.fences[f].phase.Owned?
    ensures var ref := w.fences[f].ref;
            && FenceHolds(w.reg, ref) && w.reg.sessions[ref.id] == w.fences[f].phase.fenced
            && EndedOrReopened(w.reg, CloseFinished(w.reg, ref, known, saved, closes, now, restored), ref,
                               !known || !saved || (!closes && restored))
  {
    ReachableHolds(w);
    assert Local(w, w.fences[f].ref.id) && FencedBy(w, w.fences[f].ref.id, f);
    FenceFinishNeverLost(w, f);
    CloseEndsOrReopens(w.reg, w.fences[f].ref, known, saved, closes, now, restored);
  }

  // ----- The detach loop ----------------------------------------------------------------------

  ghost predicate Taken(r: Registry, n: Registry, copies: seq<Session>) {
    && Mirrored(n)
    && (forall id :: id in n.sessions ==> id in r.sessions && n.sessions[id] == r.sessions[id])
    && (forall c :: c in copies ==> FenceHolds(r, c.ref) && r.sessions[c.ref.id] == c && c.ref.id !in n.sessions)
    && (forall id :: id in r.sessions && id !in n.sessions ==> r.sessions[id] in copies)
    && (forall i, j :: 0 <= i < j < |copies| ==> copies[i].ref.id != copies[j].ref.id)
  }

  lemma DetachTakes(r: Registry, ref: SessionRef)
    requires Mirrored(r) && FenceHolds(r, ref)
    ensures Taken(r, Detached(r, ref, true), [r.sessions[ref.id]])
    ensures Detached(r, ref, false) == r
  {
    assert r.byProject[r.sessions[ref.id].project := ref.id] == r.byProject;
  }

  /** The copies are exactly the sessions that left, each as it was. */
  lemma {:induction false} TeardownTakes(r: Registry, refs: seq<SessionRef>, saves: seq<bool>)
    requires Mirrored(r) && |saves| == |refs|
    ensures var t := TornDown(r, refs, saves); Taken(r, t.reg, t.copies)
    decreases |refs|
  {
    if refs != [] {
      if !FenceHolds(r, refs[0]) {
        TeardownTakes(r, refs[1..], saves[1..]);
      } else {
        DetachTakes(r, refs[0]);
        if saves[0] {
          var next := Detached(r, refs[0], true);
          TeardownTakes(next, refs[1..], saves[1..]);
          TakenTwice(r, next, r.sessions[refs[0].id], TornDown(next, refs[1..], saves[1..]));
        }
      }
    }
  }

  lemma TakenTwice(r: Registry, next: Registry, first: Session, rest: Teardown)
    requires Taken(r, next, [first]) && Taken(next, rest.reg, rest.copies)
    ensures Taken(r, rest.reg, [first] + rest.copies)
  {
    var all := [first] + rest.copies;
    assert forall c :: c in all <==> c == first || c in rest.copies;
    forall id | id in r.sessions && id !in rest.reg.sessions ensures r.sessions[id] in all {
      if id !in next.sessions {
        assert r.sessions[id] in [first];
      }
    }
    forall i, j | 0 <= i < j < |all| ensures all[i].ref.id != all[j].ref.id {
      assert all[j] in rest.copies;
      if i == 0 {
        assert first in [first];
      }
    }
  }

  lemma {:induction false} CompletedTeardownLeavesUnfenced(r: Registry, refs: seq<SessionRef>, saves: seq<bool>,
                                                           id: SessionId)
    requires Mirrored(r) && |saves| == |refs| && TornDown(r, refs, saves).complete
    requires id in TornDown(r, refs, saves).reg.sessions
    ensures id in r.sessions && (r.sessions[id].ref in refs ==> !FenceHolds(r, r.sessions[id].ref))
    decreases |refs|
  {
    if refs != [] {
      assert refs == [refs[0]] + refs[1..];
      if FenceHolds(r, refs[0]) {
        DetachTakes(r, refs[0]);
        var next := Detached(r, refs[0], true);
        CompletedTeardownLeavesUnfenced(next, refs[1..], saves[1..], id);
        assert next.sessions[id] == r.sessions[id] && r.sessions[id].ref != refs[0];
      } else {
        CompletedTeardownLeavesUnfenced(r, refs[1..], saves[1..], id);
      }
    }
  }

  lemma {:induction false} AllSavedCompletes(r: Registry, refs: seq<SessionRef>, saves: seq<bool>)
    requires |saves| == |refs| && AllSaved(saves)
    ensures TornDown(r, refs, saves).complete
    decreases |refs|
  {
    if refs != [] {
      assert forall saved :: saved in saves[1..] ==> saved in saves;
      assert saves[0] in saves;
      AllSavedCompletes(r, refs[1..], saves[1..]);
      AllSavedCompletes(Detached(r, refs[0], true), refs[1..], saves[1..]);
    }
  }

  /** A completed teardown leaves exactly the sessions no fence holds. */
  lemma CompletedTeardownRemovesExactlyFenced(r: Registry, refs: seq<SessionRef>, saves: seq<bool>)
    requires Mirrored(r) && Listing(r, refs) && |saves| == |refs| && TornDown(r, refs, saves).complete
    ensures var n := TornDown(r, refs, saves).reg;
            && (forall id :: id in n.sessions <==> id in r.sessions && !FenceHolds(r, r.sessions[id].ref))
            && (n.sessions == map[] <==> forall id :: id in r.sessions ==> FenceHolds(r, r.sessions[id].ref))
  {
    var t := TornDown(r, refs, saves);
    TeardownTakes(r, refs, saves);
    forall id | id in r.sessions
      ensures id in t.reg.sessions <==> !FenceHolds(r, r.sessions[id].ref)
    {
      assert r.sessions[id].ref in Refs(r);
      if id in t.reg.sessions {
        CompletedTeardownLeavesUnfenced(r, refs, saves, id);
      }
    }
  }

  // ----- Bringing detached sessions back ------------------------------------------------------

  ghost predicate Returnable(r: Registry, copies: seq<Session>) {
    && (forall c :: c in copies ==>
          c.ref.id != EMPTY && c.project == c.ref.document && c.ref.id !in r.sessions && c.project !in r.byProject)
    && (forall i, j :: 0 <= i < j < |copies| ==>
        copies[i].ref.id != copies[j].ref.id && copies[i].project != copies[j].project)
  }

  lemma TakenIsReturnable(r: Registry, n: Registry, copies: seq<Session>)
    requires Mirrored(r) && Taken(r, n, copies)
    ensures Returnable(n, copies)
  {
    forall i, j | 0 <= i < j < |copies| ensures copies[i].project != copies[j].project {
      assert copies[i] in copies && copies[j] in copies;
    }
    forall p | p in n.byProject ensures p in r.byProject && r.byProject[p] == n.byProject[p] {
      assert n.sessions[n.byProject[p]] == r.sessions[n.byProject[p]];
    }
  }

  /** Exactly the copies whose save works are registered again, reopened, and nothing else moved. */
  ghost predicate Returned(r: Registry, n: Registry, copies: seq<Session>, saves: seq<bool>)
    requires |saves| >= |copies|
  {
    && Mirrored(n)
    && (forall i :: 0 <= i < |copies| ==> (copies[i].ref.id in n.sessions <==> saves[i]))
    && (forall i :: 0 <= i < |copies| && saves[i] ==> n.sessions[copies[i].ref.id] == Reopened(copies[i]))
    && (forall id :: id in r.sessions ==> id in n.sessions && n.sessions[id] == r.sessions[id])
    && (forall id :: id in n.sessions ==> id in r.sessions || exists i :: 0 <= i < |copies| && copies[i].ref.id == id)
  }

  lemma {:induction false} RestoredAllReopens(r: Registry, copies: seq<Session>, now: nat, saves: seq<bool>)
    requires Mirrored(r) && Returnable(r, copies) && |saves| >= |copies|
    ensures Returned(r, RestoredAll(r, copies, now, saves), copies, saves)
    decreases |copies|
  {
    hide Restored, Mirrored, Returnable;
    if copies == [] {
      NothingReturned(r, saves);
    } else {
      var next := Restored(r, copies[0], now, saves[0]);
      RestoreOneReturns(r, copies, now, saves[0]);
      RestoredAllReopens(next, copies[1..], now, saves[1..]);
      ReturnedTwice(r, next, RestoredAll(next, copies[1..], now, saves[1..]), copies, saves);
    }
  }

  lemma NothingReturned(r: Registry, saves: seq<bool>)
    requires Mirrored(r)
    ensures Returned(r, r, [], saves)
  {
  }

  lemma ReturnedTwice(r: Registry, next: Registry, n: Registry, copies: seq<Session>, saves: seq<bool>)
    requires copies != [] && |saves| >= |copies| && Returnable(r, copies) && Returned(next, n, copies[1..], saves[1..])
    requires next.sessions == if saves[0] then r.sessions[copies[0].ref.id := Reopened(copies[0])] else r.sessions
    ensures Returned(r, n, copies, saves)
  {
    hide Mirrored;
    assert copies[0] in copies;
    forall i | 0 <= i < |copies|
      ensures copies[i].ref.id in n.sessions <==> saves[i]
      ensures saves[i] ==> n.sessions[copies[i].ref.id] == Reopened(copies[i])
    {
      if i == 0 {
        assert forall k :: 0 <= k < |copies[1..]| ==> copies[1..][k] == copies[k + 1];
      } else {
        assert copies[1..][i - 1] == copies[i] && saves[1..][i - 1] == saves[i];
      }
    }
    forall id | id in n.sessions ensures id in r.sessions || exists i :: 0 <= i < |copies| && copies[i].ref.id == id {
      if id !in next.sessions {
        var i :| 0 <= i < |copies[1..]| && copies[1..][i].ref.id == id;
        assert copies[i + 1].ref.id == id;
      }
    }
  }

  lemma RestoreOneReturns(r: Registry, copies: seq<Session>, now: nat, saved: bool)
    requires Mirrored(r) && Returnable(r, copies) && copies != []
    ensures var next := Restored(r, copies[0], now, saved);
            && next.sessions == (if saved then r.sessions[copies[0].ref.id := Reopened(copies[0])] else r.sessions)
            && Mirrored(next) && Returnable(next, copies[1..])
  {
    assert copies[0] in copies;
    forall c | c in copies[1..] ensures c in copies && c.ref.id != copies[0].ref.id && c.project != copies[0].project {
      var i :| 0 <= i < |copies[1..]| && copies[1..][i] == c;
      assert copies[i + 1] == c;
    }
    if !saved {
      assert r.sessions - {copies[0].ref.id} == r.sessions && r.byProject - {copies[0].project} == r.byProject;
    }
  }

  /**
   * After a failed teardown the sessions it had not detached are as they were; of those it had, exactly the ones
   * whose restore could be saved are registered, no longer closing. What a restore answers is not looked at.
   */
  lemma FailedTeardownReopens(r: Registry, refs: seq<SessionRef>, saves: seq<bool>, now: nat, restores: seq<bool>)
    requires Mirrored(r) && |saves| == |refs| <= |restores|
    ensures var t := TornDown(r, refs, saves);
            var n := RestoredAll(t.reg, t.copies, now, restores);
            && Mirrored(n) && (forall id :: id in n.sessions ==> id in r.sessions)
            && (forall id :: id in r.sessions && r.sessions[id] !in t.copies ==>
                  id in n.sessions && n.sessions[id] == r.sessions[id])
            && (forall i :: 0 <= i < |t.copies| ==> (t.copies[i].ref.id in n.sessions <==> restores[i]))
            && forall i :: 0 <= i < |t.copies| && restores[i] ==>
               n.sessions[t.copies[i].ref.id] == Reopened(t.copies[i])
  {
    hide TornDown, RestoredAll, Returnable, Mirrored;
    var t := TornDown(r, refs, saves);
    TeardownTakes(r, refs, saves);
    TakenIsReturnable(r, t.reg, t.copies);
    RestoredAllReopens(t.reg, t.copies, now, restores);
    var n := RestoredAll(t.reg, t.copies, now, restores);
    forall id | id in n.sessions ensures id in r.sessions {
      if id !in t.reg.sessions {
        var i :| 0 <= i < |t.copies| && t.copies[i].ref.id == id;
        assert t.copies[i] in t.copies;
      }
    }
  }

  /** How many sessions are detached before the first save that fails. */
  function SavedPrefix(saves: seq<bool>): (n: nat)
    ensures n <= |saves|
  {
    if saves == [] || !saves[0] then 0 else 1 + SavedPrefix(saves[1..])
  }

  lemma FencedElsewhere(r: Registry, refs: seq<SessionRef>)
    requires Mirrored(r) && refs != [] && forall ref :: ref in refs ==> FenceHolds(r, ref)
    requires forall i, j :: 0 <= i < j < |refs| ==> refs[i].id != refs[j].id
    ensures var next := Detached(r, refs[0], true);
            forall ref :: ref in refs[1..] ==> FenceHolds(next, ref) && next.sessions[ref.id] == r.sessions[ref.id]
  {
    forall ref | ref in refs[1..] ensures ref in refs && ref.id != refs[0].id {
      var i :| 0 <= i < |refs[1..]| && refs[1..][i] == ref;
      assert refs[i + 1] == ref;
    }
  }

  /** Behind the fence the copies are those of the first references, up to the first save that failed. */
  lemma {:induction false} CopiesAreSavedPrefix(r: Registry, refs: seq<SessionRef>, saves: seq<bool>)
    requires Mirrored(r) && |saves| == |refs| && forall ref :: ref in refs ==> FenceHolds(r, ref)
    requires forall i, j :: 0 <= i < j < |refs| ==> refs[i].id != refs[j].id
    ensures var copies := TornDown(r, refs, saves).copies;
            && |copies| == SavedPrefix(saves)
            && forall i :: 0 <= i < |copies| ==> refs[i].id in r.sessions && copies[i] == r.sessions[refs[i].id]
    decreases |refs|
  {
    if refs != [] {
      assert refs[0] in refs;
      if saves[0] {
        var next := Detached(r, refs[0], true);
        DetachTakes(r, refs[0]);
        FencedElsewhere(r, refs);
        CopiesAreSavedPrefix(next, refs[1..], saves[1..]);
        var rest := TornDown(next, refs[1..], saves[1..]).copies;
        forall i | 0 <= i < |rest| ensures rest[i] == r.sessions[refs[i + 1].id] {
          assert refs[1..][i] in refs[1..];
        }
      }
    }
  }

  lemma ListedIdsDiffer(r: Registry, refs: seq<SessionRef>)
    requires Mirrored(r) && Listing(r, refs)
    ensures forall i, j :: 0 <= i < j < |refs| ==> refs[i].id != refs[j].id
    ensures forall ref :: ref in refs ==> ref.id in r.sessions && r.sessions[ref.id].ref == ref
  {
    forall ref | ref in refs ensures ref.id in r.sessions && r.sessions[ref.id].ref == ref {
      assert ref in Refs(r);
    }
    forall i, j | 0 <= i < j < |refs| ensures refs[i].id != refs[j].id {
      assert refs[i] in refs && refs[j] in refs;
    }
  }

  /**
   * `fenceQuitLocked` answers at once while the application is already fenced, so a second attempt does not fence the
   * reopened sessions again. When it reports success it leaves registered exactly the sessions whose detach the first
   * attempt had saved before it failed, and whose restore it had saved as well.
   */
  lemma RetryStrandsReopened(r: Registry, refs: seq<SessionRef>, saves: seq<bool>, now: nat, restores: seq<bool>,
                             again: seq<SessionRef>, retried: seq<bool>)
    requires Mirrored(r) && Listing(r, refs) && forall id :: id in r.sessions ==> FenceHolds(r, r.sessions[id].ref)
    requires |saves| == |refs| <= |restores|
    requires var t := TornDown(r, refs, saves); Listing(RestoredAll(t.reg, t.copies, now, restores), again)
    requires |retried| == |again|
    ensures var t := TornDown(r, refs, saves);
            var retry := TornDown(RestoredAll(t.reg, t.copies, now, restores), again, retried);
            && (AllSaved(retried) ==> retry.complete)
            && (retry.complete ==>
                  && (forall i :: 0 <= i < |refs| ==>
                        (refs[i].id in retry.reg.sessions <==> i < SavedPrefix(saves) && restores[i]))
                  && (retry.reg.sessions == map[] <==> forall i :: 0 <= i < SavedPrefix(saves) ==> !restores[i]))
  {
    hide RestoredAll, TornDown, Mirrored, Listing;
    var t := TornDown(r, refs, saves);
    var n := RestoredAll(t.reg, t.copies, now, restores);
    ListedIdsDiffer(r, refs);
    CopiesAreSavedPrefix(r, refs, saves);
    RetryLeavesRestored(r, refs, saves, now, restores, again, retried);
    var retry := TornDown(n, again, retried);
    if retry.complete {
      var left := retry.reg.sessions;
      assert forall k :: 0 <= k < |t.copies| ==> t.copies[k].ref.id == refs[k].id by {
        assert forall k :: 0 <= k < |t.copies| ==> refs[k] in refs;
      }
      forall i | 0 <= i < |refs| ensures refs[i].id in left <==> i < SavedPrefix(saves) && restores[i] {
        if refs[i].id in left {
          var k :| 0 <= k < |t.copies| && t.copies[k].ref.id == refs[i].id && restores[k];
          assert k == i;
        } else if i < SavedPrefix(saves) {
          assert t.copies[i].ref.id == refs[i].id;
        }
      }
      if left == map[] {
        forall i | 0 <= i < SavedPrefix(saves) ensures !restores[i] {
          assert refs[i].id !in left;
        }
      }
    }
  }

  lemma RetryLeavesRestored(r: Registry, refs: seq<SessionRef>, saves: seq<bool>, now: nat, restores: seq<bool>,
                            again: seq<SessionRef>, retried: seq<bool>)
    requires Mirrored(r) && Listing(r, refs) && forall id :: id in r.sessions ==> FenceHolds(r, r.sessions[id].ref)
    requires |saves| == |refs| <= |restores|
    requires var t := TornDown(r, refs, saves); Listing(RestoredAll(t.reg, t.copies, now, restores), again)
    requires |retried| == |again|
    ensures var t := TornDown(r, refs, saves);
            var retry := TornDown(RestoredAll(t.reg, t.copies, now, restores), again, retried);
            && (AllSaved(retried) ==> retry.complete)
            && (retry.complete ==>
                  forall id :: id in retry.reg.sessions <==>
                    exists i :: 0 <= i < |t.copies| && t.copies[i].ref.id == id && restores[i])
  {
    hide TornDown, RestoredAll, Listing;
    var t := TornDown(r, refs, saves);
    var n := RestoredAll(t.reg, t.copies, now, restores);
    TeardownTakes(r, refs, saves);
    FailedTeardownReopens(r, refs, saves, now, restores);
    if AllSaved(retried) {
      AllSavedCompletes(n, again, retried);
    }
    var retry := TornDown(n, again, retried);
    if retry.complete {
      CompletedTeardownRemovesExactlyFenced(n, again, retried);
      forall id ensures id in retry.reg.sessions <==>
        exists i :: 0 <= i < |t.copies| && t.copies[i].ref.id == id && restores[i] {
        if id in n.sessions {
          FencedIffKept(r, t, n, restores, id);
        }
        if i :| 0 <= i < |t.copies| && t.copies[i].ref.id == id && restores[i] {
          assert id in n.sessions;
        }
      }
    }
  }

  lemma FencedIffKept(r: Registry, t: Teardown, n: Registry, restores: seq<bool>, id: SessionId)
    requires Mirrored(r) && Mirrored(n) && Taken(r, t.reg, t.copies) && id in n.sessions && id in r.sessions
    requires FenceHolds(r, r.sessions[id].ref) && |t.copies| <= |restores|
    requires r.sessions[id] !in t.copies ==> n.sessions[id] == r.sessions[id]
    requires forall i :: 0 <= i < |t.copies| ==> (t.copies[i].ref.id in n.sessions <==> restores[i])
    requires forall i :: 0 <= i < |t.copies| && restores[i] ==> n.sessions[t.copies[i].ref.id] == Reopened(t.copies[i])
    ensures !FenceHolds(n, n.sessions[id].ref) <==>
            exists i :: 0 <= i < |t.copies| && t.copies[i].ref.id == id && restores[i]
  {
    if r.sessions[id] in t.copies {
      var i :| 0 <= i < |t.copies| && t.copies[i] == r.sessions[id];
      assert t.copies[i].ref.id == id && restores[i];
    } else {
      forall i | 0 <= i < |t.copies| ensures t.copies[i].ref.id != id {
        assert t.copies[i] in t.copies;
      }
    }
  }

  lemma {:induction false} AllSavedIsWholePrefix(saves: seq<bool>)
    requires AllSaved(saves)
    ensures SavedPrefix(saves) == |saves|
    decreases |saves|
  {
    if saves != [] {
      assert saves[0] in saves && forall saved :: saved in saves[1..] ==> saved in saves;
      AllSavedIsWholePrefix(saves[1..]);
    }
  }

  /** A host that does not stop, after every save went well: the retry strands every session it could restore. */
  lemma HostFailureStrandsRestored(r: Registry, refs: seq<SessionRef>, saves: seq<bool>, now: nat, restores: seq<bool>,
                              again: seq<SessionRef>, retried: seq<bool>)
    requires Mirrored(r) && Listing(r, refs) && forall id :: id in r.sessions ==> FenceHolds(r, r.sessions[id].ref)
    requires |saves| == |refs| <= |restores| && AllSaved(saves)
    requires var t := TornDown(r, refs, saves); Listing(RestoredAll(t.reg, t.copies, now, restores), again)
    requires |retried| == |again|
    ensures var t := TornDown(r, refs, saves);
            var retry := TornDown(RestoredAll(t.reg, t.copies, now, restores), again, retried);
            && t.complete && (AllSaved(retried) ==> retry.complete)
            && (retry.complete ==> forall i :: 0 <= i < |refs| ==> (refs[i].id in retry.reg.sessions <==> restores[i]))
  {
    hide RestoredAll, TornDown, Mirrored, Listing;
    AllSavedCompletes(r, refs, saves);
    AllSavedIsWholePrefix(saves);
    RetryStrandsReopened(r, refs, saves, now, restores, again, retried);
  }

  /** End to end: behind the quit fence, a teardown whose saves succeed empties the registry. */
  lemma FencedQuitTearsEverythingDown(a: App, refs: seq<SessionRef>, saves: seq<bool>)
    requires AppReachable(a) && a.quit.Fenced? && Listing(a.world.reg, refs) && |saves| == |refs| && AllSaved(saves)
    ensures var t := TornDown(a.world.reg, refs, saves);
            t.complete && t.reg.sessions == map[] && t.reg.byProject == map[]
  {
    var r := a.world.reg;
    AppReachableHolds(a);
    QuitFenceFreezesEverything(a);
    AllSavedCompletes(r, refs, saves);
    forall id | id in r.sessions ensures FenceHolds(r, r.sessions[id].ref) {
      assert FrozenForQuit(a, id) && Mirrored(r);
    }
    CompletedTeardownRemovesExactlyFenced(r, refs, saves);
    TeardownTakes(r, refs, saves);
    assert TornDown(r, refs, saves).reg.byProject.Keys == {};
  }

  // ----- A run to a stranded session ----------------------------------------------------------

  const SAMPLE_REF := SessionRef(1, 1, EMPTY)

  lemma OneSessionOpen() returns (a: App)
    ensures AppReachable(a) && a.life == Ready && a.units == {} && a.quit.NotQuitting? && !a.quitFenced
    ensures a.world.fences == map[] && a.world.made == map[] && a.world.detached == map[]
    ensures a.world.reg.sessions == map[1 := NewSession(SAMPLE_REF, 9, false)]
  {
    hide AppReachable;
    a := AppBegun(EMPTY_STATE);
    a := AppTaken(a, Start(true));
    a := AppTaken(a, AppStep.Started(Ready));
    a := AppTaken(a, BeginUnit(0));
    a := OpenedIn(a);
    a := AppTaken(a, EndUnit(0));
  }

  lemma OpenedIn(before: App) returns (a: App)
    requires AppReachable(before) && 0 in before.units && before.world.reg.sessions == map[] &&
             before.world.reg.byProject == map[]
    ensures AppReachable(a) && a == before.(world := before.world.(reg := a.world.reg))
    ensures a.world.reg.sessions == map[1 := NewSession(SAMPLE_REF, 9, false)]
  {
    hide AppReachable;
    a := AppTaken(before, Section(0, Open(SAMPLE_REF, 9, false, EMPTY, EMPTY, 5, true)));
  }

  lemma OneRef(reg: Registry)
    requires reg.sessions.Keys == {1} && reg.sessions[1].ref == SAMPLE_REF
    ensures Refs(reg) == {SAMPLE_REF} && Listing(reg, [SAMPLE_REF])
  {
    assert reg.sessions[1].ref in Refs(reg);
  }

  lemma OneSessionListed() returns (a: App)
    ensures AppReachable(a) && a.quit == Fencing([SAMPLE_REF], None, []) && !a.quitFenced && a.units == {}
    ensures a.world.fences == map[] && a.world.made == map[] && a.world.detached == map[]
    ensures a.world.reg.sessions == map[1 := NewSession(SAMPLE_REF, 9, false)]
  {
    hide AppReachable, Refs;
    a := OneSessionOpen();
    a := AppTaken(a, QuitStart);
    OneRef(a.world.reg);
    a := AppTaken(a, QuitDrained([SAMPLE_REF]));
  }

  lemma OneSessionEntered() returns (a: App)
    ensures AppReachable(a) && a.quit == Fencing([SAMPLE_REF], Some(1), []) && !a.quitFenced
    ensures a.world.reg.sessions == map[1 := NewSession(SAMPLE_REF, 9, false).(closing := true)]
    ensures a.world.fences == map[1 := Fence(SAMPLE_REF, Passed)]
  {
    hide AppReachable, Refs;
    a := OneSessionListed();
    a := AppTaken(a, QuitEnter(1, 0));
  }

  lemma OneSessionOwned() returns (a: App)
    ensures AppReachable(a) && a.quit == Fencing([SAMPLE_REF], Some(1), []) && !a.quitFenced
    ensures a.world.reg.sessions.Keys == {1} && a.world.reg.sessions[1].ref == SAMPLE_REF
    ensures 1 in a.world.fences && a.world.fences[1].phase == Owned(a.world.reg.sessions[1]) &&
            a.world.fences[1].ref == SAMPLE_REF
    ensures Assess(a.world.reg.sessions[1]).canClose
  {
    hide AppReachable, Refs;
    a := OneSessionEntered();
    a := AppTaken(a, QuitPark(FenceFinish(1)));
  }

  lemma OneSessionFenced() returns (a: App)
    ensures AppReachable(a) && a.quit.Fenced? && a.world.reg.sessions.Keys == {1} &&
            a.world.reg.sessions[1].ref == SAMPLE_REF
  {
    hide AppReachable, Refs, Apply, Enabled;
    a := OneSessionOwned();
    a := AppTaken(a, QuitJudge);
    a := AppTaken(a, QuitDone);
  }

  /**
   * A reachable fenced application whose one session is detached, brought back because the host did
   * not stop, and left registered by the second attempt, which reports success.
   */
  lemma RetryStrandsASession() returns (a: App)
    ensures AppReachable(a) && a.quit.Fenced?
    ensures var t := TornDown(a.world.reg, [SAMPLE_REF], [true]);
            var n := RestoredAll(t.reg, t.copies, 7, [true]);
            var retry := TornDown(n, [SAMPLE_REF], [true]);
            && Listing(a.world.reg, [SAMPLE_REF]) && Listing(n, [SAMPLE_REF]) && t.complete
            && retry.complete && retry.reg.sessions.Keys == {1}
  {
    hide AppReachable;
    a := OneSessionFenced();
    var r, refs := a.world.reg, [SAMPLE_REF];
    AppReachableHolds(a);
    QuitFenceFreezesEverything(a);
    forall id | id in r.sessions ensures FenceHolds(r, r.sessions[id].ref) {
      assert FrozenForQuit(a, id);
    }
    FailedTeardownReopens(r, refs, [true], 7, [true]);
    var t := TornDown(r, refs, [true]);
    var n := RestoredAll(t.reg, t.copies, 7, [true]);
    OneRef(r);
    OneRef(n);
    HostFailureStrandsRestored(r, refs, [true], 7, [true], refs, [true]);
  }
}
