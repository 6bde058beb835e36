/**
 * Every interleaving of the registry's critical sections. A `World` is the registry together
 * with what the goroutines hold between sections: begin tokens, autosave collectors, close
 * fences (parked, past the drain, or owned), detached copies and recovery records read earlier.
 */
module LifecycleProtocol {
  import opened Options
  import opened Lifecycle

  type Thread = nat

  /** A collector is the goroutine that keeps a begin token until its autosave has landed. */
  datatype Holder = Request | Collector(autosaveGeneration: nat)
  datatype Token = Token(ref: SessionRef, generation: nat, holder: Holder)

  datatype Phase = Parked(channel: Channel) | Passed | Owned(fenced: Session)
  datatype Fence = Fence(ref: SessionRef, phase: Phase)

  datatype World = World(
    reg: Registry, tokens: map<Thread, Token>, fences: map<Thread, Fence>, made: map<Channel, Thread>,
    closed: set<Channel>, detached: map<Thread, Session>, offered: set<RecoveryRecord>)

  datatype Step =
    | Open(ref: SessionRef, revision: Revision, providerPending: bool, name: Text, location: Text, now: nat,
           saved: bool)
    | Begin(t: Thread, ref: SessionRef)
    | End(t: Thread)
    | EditFree(ref: SessionRef, edit: Edit, now: nat, saved: bool)
    | EditHeld(t: Thread, edit: Edit, now: nat, saved: bool)
    | Schedule(t: Thread, scheduled: bool, payload: Artifact, now: nat, saved: bool)
    | Complete(t: Thread, result: AutosaveResult, now: nat, saved: bool)
    | DemandRecovery(t: Thread)
    | FenceEnter(f: Thread, ref: SessionRef, channel: Channel)
    | FenceWake(f: Thread)
    | FenceCancel(f: Thread)
    | FenceFinish(f: Thread)
    | FenceRollback(f: Thread)
    | Detach(f: Thread, saved: bool)
    | Restore(f: Thread, now: nat, saved: bool)
    | Forget(f: Thread)
    | UpdateProject(project: ProjectId, pinned: bool, missing: bool, saved: bool)
    | DiscardRecovery(project: ProjectId, saved: bool)
    | ReadRecovery(project: ProjectId)
    | Recover(ref: SessionRef, record: RecoveryRecord, revision: Revision, now: nat, saved: bool)
    | Crash(size: nat)

  // ----- Which steps the callers can take -----------------------------------------------------

  predicate ValidRevision(revision: Option<Revision>) {
    revision.Some? ==> revision.value != EMPTY
  }

  predicate ValidResult(result: AutosaveResult) {
    result.AutosaveFinished? ==> ValidRevision(result.revision)
  }

  /** The edits made without a token: they pass generation zero and are refused by a fence. */
  predicate FreeEdit(edit: Edit) {
    match edit
    case EphemeralEdit(dirty, artifact) => dirty ==> artifact.Some? && ValidArtifact(artifact)
    case DiscardEdit(_) => true
    case _ => false
  }

  predicate HeldEdit(edit: Edit) {
    match edit
    case PreviewEdit(payload) => ValidArtifact(Some(payload))
    case CommitEdit(_, revision, payload) => ValidRevision(revision) && ValidArtifact(Some(payload))
    case ProviderEdit(_) => true
    case CancelAutosaveEdit(result) => ValidResult(result)
    case _ => false
  }

  /**
   * What the sources of each call establish: fresh session ids, owned threads, valid payloads. A crash finds a file
   * of some size, and the program starts again only when the loader takes that file.
   */
  predicate Enabled(w: World, s: Step) {
    match s
    case Open(ref, revision, _, _, _, _, _) =>
      && ref.id != EMPTY && ref.document != EMPTY && revision != EMPTY
      && (ref.id !in w.reg.sessions || Existing(w.reg, ref.document).Some?)
    case Begin(t, _) => t !in w.tokens
    case End(t) => t in w.tokens
    case EditFree(_, edit, _, _) => FreeEdit(edit)
    case EditHeld(t, edit, _, _) => t in w.tokens && HeldEdit(edit)
    case Schedule(t, _, payload, _, _) => t in w.tokens && w.tokens[t].holder.Request? && ValidArtifact(Some(payload))
    case Complete(t, result, _, _) => t in w.tokens && w.tokens[t].holder.Collector? && ValidResult(result)
    case DemandRecovery(t) => t in w.tokens
    case FenceEnter(f, _, channel) => f !in w.fences && f !in w.detached && channel !in w.made
    case FenceWake(f) => f in w.fences && w.fences[f].phase.Parked? && w.fences[f].phase.channel in w.closed
    case FenceCancel(f) => f in w.fences && w.fences[f].phase.Parked?
    case FenceFinish(f) => f in w.fences && w.fences[f].phase.Passed?
    case FenceRollback(f) => f in w.fences && w.fences[f].phase.Owned?
    case Detach(f, _) => f in w.fences && w.fences[f].phase.Owned?
    case Restore(f, _, _) => f in w.detached
    case Forget(f) => f in w.detached
    case UpdateProject(project, _, _, _) => true
    case DiscardRecovery(_, _) => true
    case ReadRecovery(project) => project in w.reg.state.recoveries
    case Recover(ref, record, revision, _, _) =>
      record in w.offered && record.project == ref.document && revision != EMPTY
    case Crash(size) => size <= MAX_FILE_BYTES && LoadableRecords(w.reg.disk) && WithinCap(w.reg.disk)
  }

  function Reloaded(disk: Persisted): Persisted {
    Persisted(disk.projects, map key | key in disk.recoveries :: Normalized(disk.recoveries[key]))
  }

  function AfterEnd(w: World, t: Thread): World
    requires t in w.tokens
  {
    var token := w.tokens[t];
    var closes := ChannelClosedByEnd(w.reg, token.ref, token.generation);
    w.(reg := Ended(w.reg, token.ref, token.generation), tokens := w.tokens - {t},
       closed := if closes.Some? then w.closed + {closes.value} else w.closed)
  }

  function AfterFenceEnter(w: World, f: Thread, ref: SessionRef, channel: Channel): World
    requires BeginAllowed(w.reg, ref)
  {
    var phase := if w.reg.sessions[ref.id].inflight > 0 then Parked(channel) else Passed;
    w.(reg := FenceEntered(w.reg, ref, channel), fences := w.fences[f := Fence(ref, phase)],
       made := w.made[channel := f])
  }

  function AfterFenceFinish(w: World, f: Thread): World
    requires f in w.fences && FenceHolds(w.reg, w.fences[f].ref)
  {
    var ref := w.fences[f].ref;
    var reg := FenceFinished(w.reg, ref);
    w.(reg := reg, fences := w.fences[f := Fence(ref, Owned(reg.sessions[ref.id]))])
  }

  function Apply(w: World, s: Step): World
    requires Enabled(w, s)
  {
    match s
    case Open(ref, revision, providerPending, name, location, now, saved) =>
      w.(reg := Opened(w.reg, ref, revision, providerPending, name, location, now, saved))
    case Begin(t, ref) =>
      if BeginAllowed(w.reg, ref) then
        w.(reg := Begun(w.reg, ref), tokens := w.tokens[t := Token(ref, w.reg.sessions[ref.id].generation, Request)])
      else w
    case End(t) => AfterEnd(w, t)
    case EditFree(ref, edit, now, saved) => w.(reg := Mutated(w.reg, ref, 0, edit, now, saved))
    case EditHeld(t, edit, now, saved) =>
      w.(reg := Mutated(w.reg, w.tokens[t].ref, w.tokens[t].generation, edit, now, saved))
    case Schedule(t, scheduled, payload, now, saved) =>
      var token := w.tokens[t];
      var reg := Mutated(w.reg, token.ref, token.generation, ScheduleEdit(scheduled, payload), now, saved);
      var collects := scheduled && saved && MutateAllowed(w.reg, token.ref, token.generation);
      w.(reg := reg,
         tokens :=
           if collects then
             w.tokens[t := token.(holder := Collector(reg.sessions[token.ref.id].work.autosaveGeneration))]
                   else w.tokens)
    case Complete(t, result, now, saved) =>
      var token := w.tokens[t];
      w.(reg := AutosaveCompleted(w.reg, token.ref, token.generation, token.holder.autosaveGeneration, result, now,
                                  saved), tokens := w.tokens[t := token.(holder := Request)])
    case DemandRecovery(t) => w.(reg := RecoveryDemanded(w.reg, w.tokens[t].ref))
    case FenceEnter(f, ref, channel) => if BeginAllowed(w.reg, ref) then AfterFenceEnter(w, f, ref, channel) else w
    case FenceWake(f) => w.(fences := w.fences[f := w.fences[f].(phase := Passed)])
    case FenceCancel(f) => w.(reg := CloseRolledBack(w.reg, w.fences[f].ref), fences := w.fences - {f})
    case FenceFinish(f) =>
      if FenceHolds(w.reg, w.fences[f].ref) then AfterFenceFinish(w, f)
      else w.(fences := w.fences - {f})
    case FenceRollback(f) => w.(reg := CloseRolledBack(w.reg, w.fences[f].ref), fences := w.fences - {f})
    case Detach(f, saved) =>
      var ref := w.fences[f].ref;
      if FenceHolds(w.reg, ref) && saved then
        w.(reg := Detached(w.reg, ref, saved), fences := w.fences - {f},
           detached := w.detached[f := w.reg.sessions[ref.id]])
      else w.(reg := Detached(w.reg, ref, saved))
    case Restore(f, now, saved) => w.(reg := Restored(w.reg, w.detached[f], now, saved), detached := w.detached - {f})
    case Forget(f) => w.(detached := w.detached - {f})
    case UpdateProject(project, pinned, missing, saved) =>
      var record := Looked(w.reg.state.projects, project, ZERO_PROJECT).(pinned := pinned, missing := missing);
      w.(reg := ProjectUpdated(w.reg, project, record, saved))
    case DiscardRecovery(project, saved) => w.(reg := RecoveryDiscarded(w.reg, project, saved))
    case ReadRecovery(project) => w.(offered := w.offered + {w.reg.state.recoveries[project]})
    case Recover(ref, record, revision, now, saved) =>
      w.(reg := Mutated(w.reg, ref, 0, RecoverEdit(record.(revision := revision)), now, saved))
    case Crash(_) =>
      World(Registry(Reloaded(w.reg.disk), w.reg.disk, map[], map[]), map[], map[], w.made, w.closed, map[], {})
  }

  /** The program starts on any file the loader accepts. */
  function Started(file: Persisted): World {
    World(Registry(Reloaded(file), file, map[], map[]), map[], map[], map[], {}, map[], {})
  }

  ghost predicate Run(first: World, steps: seq<Step>, last: World)
    decreases |steps|
  {
    if steps == [] then first == last
    else Enabled(first, steps[0]) && Run(Apply(first, steps[0]), steps[1..], last)
  }

  // ----- The drain invariant ------------------------------------------------------------------

  /** `sessions` and `byProject` are mutually inverse. */
  ghost predicate Mirrored(reg: Registry) {
    && (forall id :: id in reg.sessions ==>
          var s := reg.sessions[id];
          id != EMPTY && s.ref.id == id && s.project == s.ref.document && s.project in reg.byProject &&
            reg.byProject[s.project] == id)
    && (forall p :: p in reg.byProject ==>
      reg.byProject[p] in reg.sessions && reg.sessions[reg.byProject[p]].project == p)
  }

  function Holders(tokens: map<Thread, Token>, id: SessionId): set<Thread> {
    set t | t in tokens && tokens[t].ref.id == id
  }

  ghost predicate PhaseHolds(s: Session, f: Thread, phase: Phase, made: map<Channel, Thread>, closed: set<Channel>) {
    match phase
    case Parked(c) =>
      && c in made && made[c] == f
      && if c in closed then s.inflight == 0 && s.drained.None? else s.inflight > 0 && s.drained == Some(c)
    case Passed => s.inflight == 0 && s.drained.None?
    case Owned(fenced) => s.inflight == 0 && s.drained.None? && s == fenced
  }

  ghost predicate FencedBy(w: World, id: SessionId, f: Thread) {
    f in w.fences && w.fences[f].ref.id == id
  }

  /** The registered session counts its tokens, and is closing exactly while some fence holds it. */
  ghost predicate SessionHolds(w: World, id: SessionId) {
    id in w.reg.sessions ==>
      var s := w.reg.sessions[id];
      && s.generation > 0 && s.inflight == |Holders(w.tokens, id)|
      && if s.closing then exists f :: FencedBy(w, id, f) else s.drained.None?
  }

  /** Every token carries the current generation; no two collectors carry one autosave number. */
  ghost predicate TokensHold(w: World, id: SessionId) {
    && (forall t :: t in w.tokens && w.tokens[t].ref.id == id ==>
          && Registered(w.reg, w.tokens[t].ref) && w.tokens[t].generation == w.reg.sessions[id].generation
          && (w.tokens[t].holder.Collector? ==>
                w.tokens[t].holder.autosaveGeneration <= w.reg.sessions[id].work.autosaveGeneration))
    && (forall t, u :: t in w.tokens && u in w.tokens && t != u ==>
          w.tokens[t].ref.id == id == w.tokens[u].ref.id && w.tokens[t].holder == w.tokens[u].holder ==>
            w.tokens[t].holder.Request?)
  }

  ghost predicate FencesHold(w: World, id: SessionId) {
    && (forall f :: FencedBy(w, id, f) ==>
          && Registered(w.reg, w.fences[f].ref) && w.reg.sessions[id].closing
          && PhaseHolds(w.reg.sessions[id], f, w.fences[f].phase, w.made, w.closed))
    && (forall f, g :: FencedBy(w, id, f) && FencedBy(w, id, g) ==> f == g)
  }

  ghost predicate Local(w: World, id: SessionId) {
    SessionHolds(w, id) && TokensHold(w, id) && FencesHold(w, id)
  }

  ghost predicate Inv(w: World) {
    Mirrored(w.reg) && w.closed <= w.made.Keys && forall id :: Local(w, id)
  }

  // ----- Each critical section keeps the invariant --------------------------------------------

  /** The section touched nothing of any session but `id`. */
  ghost predicate Elsewhere(w: World, n: World, id: SessionId) {
    && (forall i | i != id ::
          && (i in w.reg.sessions <==> i in n.reg.sessions)
          && (i in w.reg.sessions ==> n.reg.sessions[i] == w.reg.sessions[i]))
    && (forall t :: t in w.tokens && w.tokens[t].ref.id != id ==> t in n.tokens && n.tokens[t] == w.tokens[t])
    && (forall t :: t in n.tokens && n.tokens[t].ref.id != id ==> t in w.tokens && n.tokens[t] == w.tokens[t])
    && (forall f :: f in w.fences && w.fences[f].ref.id != id ==> f in n.fences && n.fences[f] == w.fences[f])
    && (forall f :: f in n.fences && n.fences[f].ref.id != id ==> f in w.fences && n.fences[f] == w.fences[f])
    && (forall c :: c in w.made ==> c in n.made && n.made[c] == w.made[c])
    && (forall c :: c in w.made && (w.made[c] in w.fences ==> w.fences[w.made[c]].ref.id != id) ==>
          (c in n.closed <==> c in w.closed))
  }

  lemma ElsewhereIsLocal(w: World, n: World, id: SessionId, other: SessionId)
    requires Local(w, other) && Elsewhere(w, n, id) && other != id
    ensures Local(n, other)
  {
    assert Holders(n.tokens, other) == Holders(w.tokens, other);
    if other in n.reg.sessions && n.reg.sessions[other].closing {
      var f :| FencedBy(w, other, f);
      assert FencedBy(n, other, f);
    }
    forall f | FencedBy(n, other, f)
      ensures FencedBy(w, other, f) && n.fences[f] == w.fences[f]
    {
    }
  }

  lemma InvFromLocal(w: World, n: World, id: SessionId)
    requires Inv(w) && Mirrored(n.reg) && n.closed <= n.made.Keys && Elsewhere(w, n, id) && Local(n, id)
    ensures Inv(n)
  {
    forall other ensures Local(n, other) {
      if other != id {
        ElsewhereIsLocal(w, n, id, other);
      }
    }
  }

  // Sections that only rewrite `work` or `recoveryRequired` of one session.

  /** A session with a token outstanding is at most waited for, never past its drain. */
  lemma TokenMeansParked(w: World, t: Thread, f: Thread)
    requires t in w.tokens && Local(w, w.tokens[t].ref.id) && FencedBy(w, w.tokens[t].ref.id, f)
    ensures var phase := w.fences[f].phase;
            phase.Parked? && phase.channel !in w.closed &&
              w.reg.sessions[w.tokens[t].ref.id].drained == Some(phase.channel)
  {
    assert t in Holders(w.tokens, w.tokens[t].ref.id);
  }

  ghost predicate SameFence(s: Session, n: Session) {
    && n.project == s.project && n.ref == s.ref && n.generation == s.generation && n.inflight == s.inflight
    && n.closing == s.closing && n.drained == s.drained
    && n.work.autosaveGeneration >= s.work.autosaveGeneration
  }

  /** `n` replaces one session by one with the same fence fields; `held` says why it is not owned. */
  lemma WorkKeepsLocal(w: World, n: World, id: SessionId, held: Option<Thread>)
    requires Local(w, id) && id in w.reg.sessions && id in n.reg.sessions
    requires SameFence(w.reg.sessions[id], n.reg.sessions[id])
    requires n.tokens == w.tokens && n.fences == w.fences && n.made == w.made && n.closed == w.closed
    requires if held.Some? then held.value in w.tokens && w.tokens[held.value].ref.id == id
             else !w.reg.sessions[id].closing
    ensures Local(n, id)
  {
    forall f | FencedBy(n, id, f)
      ensures FencedBy(w, id, f) && w.fences[f].phase.Parked?
    {
      assert FencedBy(w, id, f);
      if held.Some? {
        TokenMeansParked(w, held.value, f);
      }
    }
    if n.reg.sessions[id].closing {
      var f :| FencedBy(w, id, f);
      assert FencedBy(n, id, f);
    }
  }

  lemma EditGrowsAutosaveGeneration(edit: Edit, work: Work)
    ensures ApplyEdit(edit, work).autosaveGeneration ==
              work.autosaveGeneration + (if edit.ScheduleEdit? || edit.CancelAutosaveEdit? then 1 else 0)
  {
  }

  /** `held` is the token the caller edits under; without one the session must not be closing. */
  lemma MutateKeepsInv(w: World, ref: SessionRef, held: Option<Thread>, edit: Edit, now: nat, saved: bool)
    requires Inv(w) && (held.Some? ==> held.value in w.tokens && w.tokens[held.value].ref == ref)
    ensures var generation := if held.Some? then w.tokens[held.value].generation else 0;
            Inv(w.(reg := Mutated(w.reg, ref, generation, edit, now, saved)))
  {
    var generation := if held.Some? then w.tokens[held.value].generation else 0;
    var n := w.(reg := Mutated(w.reg, ref, generation, edit, now, saved));
    if MutateAllowed(w.reg, ref, generation) {
      assert Local(w, ref.id);
      EditGrowsAutosaveGeneration(edit, w.reg.sessions[ref.id].work);
      WorkKeepsLocal(w, n, ref.id, held);
      InvFromLocal(w, n, ref.id);
    }
  }

  /** Only the session a token is held on may change what that token stands for. */
  lemma HolderKeepsInv(w: World, t: Thread, holder: Holder)
    requires Inv(w) && t in w.tokens
    requires holder.Collector? ==>
               && w.tokens[t].ref.id in w.reg.sessions
               && holder.autosaveGeneration <= w.reg.sessions[w.tokens[t].ref.id].work.autosaveGeneration
               && forall u :: u in w.tokens && w.tokens[u].ref.id == w.tokens[t].ref.id ==> w.tokens[u].holder != holder
    ensures Inv(w.(tokens := w.tokens[t := w.tokens[t].(holder := holder)]))
  {
    var id := w.tokens[t].ref.id;
    var n := w.(tokens := w.tokens[t := w.tokens[t].(holder := holder)]);
    assert Local(w, id);
    assert Holders(n.tokens, id) == Holders(w.tokens, id);
    if id in n.reg.sessions && n.reg.sessions[id].closing {
      var f :| FencedBy(w, id, f);
      assert FencedBy(n, id, f);
    }
    forall f | FencedBy(n, id, f) ensures FencedBy(w, id, f) {
    }
    InvFromLocal(w, n, id);
  }

  lemma ScheduleKeepsInv(w: World, s: Step)
    requires Inv(w) && s.Schedule? && Enabled(w, s)
    ensures Inv(Apply(w, s))
  {
    var token := w.tokens[s.t];
    var edit := ScheduleEdit(s.scheduled, s.payload);
    assert Local(w, token.ref.id);
    MutateKeepsInv(w, token.ref, Some(s.t), edit, s.now, s.saved);
    EditGrowsAutosaveGeneration(edit, w.reg.sessions[token.ref.id].work);
    var n := w.(reg := Mutated(w.reg, token.ref, token.generation, edit, s.now, s.saved));
    if s.scheduled && s.saved && MutateAllowed(w.reg, token.ref, token.generation) {
      HolderKeepsInv(n, s.t, Collector(n.reg.sessions[token.ref.id].work.autosaveGeneration));
    }
  }

  lemma DemandKeepsInv(w: World, t: Thread)
    requires Inv(w) && t in w.tokens
    ensures Inv(w.(reg := RecoveryDemanded(w.reg, w.tokens[t].ref)))
  {
    var ref := w.tokens[t].ref;
    var n := w.(reg := RecoveryDemanded(w.reg, ref));
    assert Local(w, ref.id);
    WorkKeepsLocal(w, n, ref.id, Some(t));
    InvFromLocal(w, n, ref.id);
  }

  lemma CompleteKeepsInv(w: World, s: Step)
    requires Inv(w) && s.Complete? && Enabled(w, s)
    ensures Inv(Apply(w, s))
  {
    var token := w.tokens[s.t];
    assert Local(w, token.ref.id);
    var edit := CompleteAutosaveEdit(s.result);
    MutateKeepsInv(w, token.ref, Some(s.t), edit, s.now, s.saved);
    var n := w.(reg := Mutated(w.reg, token.ref, token.generation, edit, s.now, s.saved));
    DemandKeepsInv(n, s.t);
    var m := w.(reg := Apply(w, s).reg);
    assert m == w || m == n || m == n.(reg := RecoveryDemanded(n.reg, token.ref));
    HolderKeepsInv(m, s.t, Request);
  }

  // Sections that move tokens.

  lemma BeginKeepsLocal(w: World, n: World, t: Thread, ref: SessionRef)
    requires Local(w, ref.id) && t !in w.tokens && BeginAllowed(w.reg, ref)
    requires n == w.(reg := Begun(w.reg, ref),
                     tokens := w.tokens[t := Token(ref, w.reg.sessions[ref.id].generation, Request)])
    ensures Local(n, ref.id)
  {
    assert Holders(n.tokens, ref.id) == Holders(w.tokens, ref.id) + {t};
    assert forall f :: FencedBy(n, ref.id, f) ==> FencedBy(w, ref.id, f);
  }

  lemma BeginKeepsInv(w: World, t: Thread, ref: SessionRef)
    requires Inv(w) && t !in w.tokens && BeginAllowed(w.reg, ref)
    ensures Inv(w.(reg := Begun(w.reg, ref),
                   tokens := w.tokens[t := Token(ref, w.reg.sessions[ref.id].generation, Request)]))
  {
    var n := w.(reg := Begun(w.reg, ref),
                tokens := w.tokens[t := Token(ref, w.reg.sessions[ref.id].generation, Request)]);
    assert Local(w, ref.id);
    BeginKeepsLocal(w, n, t, ref);
    InvFromLocal(w, n, ref.id);
  }

  /** The count matches the outstanding tokens, so `end` always finds something to decrement. */
  lemma EndNeverDropsADecrement(w: World, t: Thread)
    requires Inv(w) && t in w.tokens
    ensures EndCounts(w.reg, w.tokens[t].ref, w.tokens[t].generation)
  {
    assert Local(w, w.tokens[t].ref.id);
    assert t in Holders(w.tokens, w.tokens[t].ref.id);
  }

  /** A channel is closed at most once: by the end of the last token, waking the one fence parked on it. */
  lemma EndWakesOneFence(w: World, t: Thread)
    requires Inv(w) && t in w.tokens
    ensures var id := w.tokens[t].ref.id;
            var closes := ChannelClosedByEnd(w.reg, w.tokens[t].ref, w.tokens[t].generation);
            if closes.Some? then
              && closes.value in w.made && closes.value !in w.closed && Holders(w.tokens, id) == {t}
              && FencedBy(w, id, w.made[closes.value]) && w.fences[w.made[closes.value]].phase == Parked(closes.value)
            else Holders(w.tokens, id) == {t} ==> forall f :: !FencedBy(w, id, f)
  {
    var id := w.tokens[t].ref.id;
    assert Local(w, id) && t in Holders(w.tokens, id);
    EndNeverDropsADecrement(w, t);
    var rest := Holders(w.tokens, id) - {t};
    assert |rest| == w.reg.sessions[id].inflight - 1;
    forall f | FencedBy(w, id, f)
      ensures w.fences[f].phase.Parked? && w.made[w.fences[f].phase.channel] == f
    {
      TokenMeansParked(w, t, f);
    }
    if w.reg.sessions[id].inflight == 1 {
      assert Holders(w.tokens, id) == {t} + rest;
    }
  }

  lemma EndKeepsLocal(w: World, t: Thread)
    requires t in w.tokens && Local(w, w.tokens[t].ref.id)
    requires EndCounts(w.reg, w.tokens[t].ref, w.tokens[t].generation)
    ensures Local(AfterEnd(w, t), w.tokens[t].ref.id)
  {
    var n := AfterEnd(w, t);
    var id := w.tokens[t].ref.id;
    assert t in Holders(w.tokens, id);
    assert Holders(n.tokens, id) == Holders(w.tokens, id) - {t};
    forall f | FencedBy(n, id, f)
      ensures FencedBy(w, id, f) && PhaseHolds(n.reg.sessions[id], f, n.fences[f].phase, n.made, n.closed)
    {
      assert FencedBy(w, id, f);
      TokenMeansParked(w, t, f);
    }
    if n.reg.sessions[id].closing {
      var f :| FencedBy(w, id, f);
      assert FencedBy(n, id, f);
    }
  }

  lemma EndKeepsInv(w: World, t: Thread)
    requires Inv(w) && t in w.tokens
    ensures Inv(AfterEnd(w, t))
  {
    var id := w.tokens[t].ref.id;
    assert Local(w, id);
    EndNeverDropsADecrement(w, t);
    EndWakesOneFence(w, t);
    EndKeepsLocal(w, t);
    InvFromLocal(w, AfterEnd(w, t), id);
  }

  // Sections of the close fence.

  lemma FenceEnterKeepsLocal(w: World, f: Thread, ref: SessionRef, channel: Channel)
    requires Local(w, ref.id) && BeginAllowed(w.reg, ref) && f !in w.fences && channel !in w.made &&
             w.closed <= w.made.Keys
    ensures Local(AfterFenceEnter(w, f, ref, channel), ref.id)
  {
    var n := AfterFenceEnter(w, f, ref, channel);
    forall g | FencedBy(n, ref.id, g) ensures g == f {
      assert g != f ==> FencedBy(w, ref.id, g);
    }
    assert FencedBy(n, ref.id, f);
  }

  lemma FenceEnterKeepsInv(w: World, f: Thread, ref: SessionRef, channel: Channel)
    requires Inv(w) && BeginAllowed(w.reg, ref) && f !in w.fences && channel !in w.made
    ensures Inv(AfterFenceEnter(w, f, ref, channel))
  {
    assert Local(w, ref.id);
    FenceEnterKeepsLocal(w, f, ref, channel);
    InvFromLocal(w, AfterFenceEnter(w, f, ref, channel), ref.id);
  }

  lemma FenceWakeKeepsInv(w: World, s: Step)
    requires Inv(w) && s.FenceWake? && Enabled(w, s)
    ensures Inv(Apply(w, s))
  {
    var n := Apply(w, s);
    var id := w.fences[s.f].ref.id;
    assert Local(w, id) && FencedBy(w, id, s.f);
    assert FencedBy(n, id, s.f);
    forall f | FencedBy(n, id, f) ensures FencedBy(w, id, f) {
    }
    InvFromLocal(w, n, id);
  }

  /** Cancelling a parked fence and rolling an owned one back are the same section. */
  lemma RollbackKeepsInv(w: World, f: Thread)
    requires Inv(w) && f in w.fences
    ensures Inv(w.(reg := CloseRolledBack(w.reg, w.fences[f].ref), fences := w.fences - {f}))
  {
    var n := w.(reg := CloseRolledBack(w.reg, w.fences[f].ref), fences := w.fences - {f});
    var id := w.fences[f].ref.id;
    assert Local(w, id) && FencedBy(w, id, f);
    forall g ensures !FencedBy(n, id, g) {
      assert FencedBy(n, id, g) ==> FencedBy(w, id, g);
    }
    InvFromLocal(w, n, id);
  }

  /** The second half of `fenceClose` never finds its fence lost. */
  lemma FenceFinishNeverLost(w: World, f: Thread)
    requires Inv(w) && f in w.fences && !w.fences[f].phase.Parked?
    ensures FenceHolds(w.reg, w.fences[f].ref) && forall t :: t in w.tokens ==> w.tokens[t].ref.id != w.fences[f].ref.id
  {
    var id := w.fences[f].ref.id;
    assert Local(w, id) && FencedBy(w, id, f);
    forall t | t in w.tokens ensures w.tokens[t].ref.id != id {
      if w.tokens[t].ref.id == id {
        TokenMeansParked(w, t, f);
      }
    }
  }

  lemma FenceFinishKeepsLocal(w: World, f: Thread)
    requires f in w.fences && Local(w, w.fences[f].ref.id) && FenceHolds(w.reg, w.fences[f].ref) &&
             !w.fences[f].phase.Parked?
    requires forall t :: t in w.tokens ==> w.tokens[t].ref.id != w.fences[f].ref.id
    ensures Local(AfterFenceFinish(w, f), w.fences[f].ref.id)
  {
    var n := AfterFenceFinish(w, f);
    var id := w.fences[f].ref.id;
    assert FencedBy(w, id, f) && FencedBy(n, id, f);
    forall g | FencedBy(n, id, g) ensures g == f {
      assert FencedBy(w, id, g);
    }
  }

  lemma FenceFinishKeepsInv(w: World, f: Thread)
    requires Inv(w) && f in w.fences && w.fences[f].phase.Passed?
    ensures FenceHolds(w.reg, w.fences[f].ref) && Inv(AfterFenceFinish(w, f))
  {
    assert Local(w, w.fences[f].ref.id);
    FenceFinishNeverLost(w, f);
    FenceFinishKeepsLocal(w, f);
    InvFromLocal(w, AfterFenceFinish(w, f), w.fences[f].ref.id);
  }

  // Sections that register and remove sessions.

  lemma DetachKeepsInv(w: World, f: Thread)
    requires Inv(w) && f in w.fences && w.fences[f].phase.Owned?
    ensures FenceHolds(w.reg, w.fences[f].ref)
    ensures Inv(w.(reg := Detached(w.reg, w.fences[f].ref, true), fences := w.fences - {f}))
  {
    var n := w.(reg := Detached(w.reg, w.fences[f].ref, true), fences := w.fences - {f});
    var id := w.fences[f].ref.id;
    assert Local(w, id) && FencedBy(w, id, f);
    FenceFinishNeverLost(w, f);
    forall g ensures !FencedBy(n, id, g) {
      assert FencedBy(n, id, g) ==> FencedBy(w, id, g);
    }
    InvFromLocal(w, n, id);
  }

  lemma DetachRefusedKeepsRegistry(w: World, f: Thread)
    requires Inv(w) && f in w.fences && w.fences[f].phase.Owned?
    ensures Detached(w.reg, w.fences[f].ref, false) == w.reg
  {
    FenceFinishNeverLost(w, f);
    var id := w.fences[f].ref.id;
    assert w.reg.byProject[w.reg.sessions[id].project := id] == w.reg.byProject;
  }

  /** No token or fence refers to a session that is not registered. */
  lemma UnregisteredIsUnheld(w: World, id: SessionId)
    requires Inv(w) && id !in w.reg.sessions
    ensures Holders(w.tokens, id) == {} && forall f :: !FencedBy(w, id, f)
    ensures forall t :: t in w.tokens ==> w.tokens[t].ref.id != id
  {
    assert Local(w, id);
  }

  /** `opened` and `restore` add one idle session under keys nothing refers to. */
  lemma RegisterKeepsInv(w: World, n: World, session: Session)
    requires Inv(w) && session.ref.id !in w.reg.sessions && session.project !in w.reg.byProject
    requires session.ref.id != EMPTY && session.project == session.ref.document && session.generation > 0
    requires session.inflight == 0 && !session.closing && session.drained.None?
    requires n.reg.sessions == w.reg.sessions[session.ref.id := session]
    requires n.reg.byProject == w.reg.byProject[session.project := session.ref.id]
    requires n.tokens == w.tokens && n.fences == w.fences && n.made == w.made && n.closed == w.closed
    ensures Inv(n)
  {
    var id := session.ref.id;
    UnregisteredIsUnheld(w, id);
    assert Holders(n.tokens, id) == {};
    assert forall f :: FencedBy(n, id, f) ==> FencedBy(w, id, f);
    InvFromLocal(w, n, id);
  }

  lemma OpenKeepsInv(w: World, s: Step)
    requires Inv(w) && s.Open? && Enabled(w, s)
    ensures Inv(Apply(w, s))
  {
    var n := Apply(w, s);
    if Existing(w.reg, s.ref.document).None? {
      if s.saved {
        RegisterKeepsInv(w, n, NewSession(s.ref, s.revision, s.providerPending));
      } else {
        assert n.reg.sessions == w.reg.sessions && n.reg.byProject == w.reg.byProject;
        SameRegistryKeepsInv(w, n);
      }
    }
  }

  /** Sections that leave sessions, tokens and fences alone. */
  lemma SameRegistryKeepsInv(w: World, n: World)
    requires Inv(w) && n.reg.sessions == w.reg.sessions && n.reg.byProject == w.reg.byProject
    requires n.tokens == w.tokens && n.fences == w.fences && n.made == w.made && n.closed == w.closed
    ensures Inv(n)
  {
    forall id ensures Local(n, id) {
      assert Local(w, id);
      if id in w.reg.sessions && w.reg.sessions[id].closing {
        var f :| FencedBy(w, id, f);
        assert FencedBy(n, id, f);
      }
      assert forall f :: FencedBy(n, id, f) ==> FencedBy(w, id, f);
    }
  }

  lemma RestoreKeepsInv(w: World, n: World, session: Session, now: nat, saved: bool)
    requires Inv(w) && session.ref.id != EMPTY && session.project == session.ref.document
    requires n == w.(reg := Restored(w.reg, session, now, saved), detached := n.detached)
    ensures Inv(n)
  {
    if RestoreAllowed(w.reg, session) && saved {
      RegisterKeepsInv(w, n, Reopened(session));
    } else {
      assert n.reg.sessions == w.reg.sessions && n.reg.byProject == w.reg.byProject;
      SameRegistryKeepsInv(w, n);
    }
  }

  lemma NothingOpenIsInv(w: World)
    requires w.reg.sessions == map[] && w.reg.byProject == map[] && w.tokens == map[] && w.fences == map[]
    requires w.closed <= w.made.Keys
    ensures Inv(w)
  {
    forall id ensures Local(w, id) {
      assert forall f :: !FencedBy(w, id, f);
    }
  }

  lemma StepKeepsInv(w: World, s: Step)
    requires Inv(w) && CopiesHold(w) && Enabled(w, s)
    ensures Inv(Apply(w, s))
  {
    var n := Apply(w, s);
    match s {
      case Open(_, _, _, _, _, _, _) => OpenKeepsInv(w, s);
      case Begin(t, ref) => if BeginAllowed(w.reg, ref) { BeginKeepsInv(w, t, ref); }
      case End(t) => EndKeepsInv(w, t);
      case EditFree(ref, edit, now, saved) => MutateKeepsInv(w, ref, None, edit, now, saved);
      case EditHeld(t, edit, now, saved) => MutateKeepsInv(w, w.tokens[t].ref, Some(t), edit, now, saved);
      case Schedule(_, _, _, _, _) => ScheduleKeepsInv(w, s);
      case Complete(_, _, _, _) => CompleteKeepsInv(w, s);
      case DemandRecovery(t) => DemandKeepsInv(w, t);
      case FenceEnter(f, ref, channel) => if BeginAllowed(w.reg, ref) { FenceEnterKeepsInv(w, f, ref, channel); }
      case FenceWake(_) => FenceWakeKeepsInv(w, s);
      case FenceCancel(f) => RollbackKeepsInv(w, f);
      case FenceFinish(f) => FenceFinishKeepsInv(w, f);
      case FenceRollback(f) => RollbackKeepsInv(w, f);
      case Detach(f, saved) =>
        DetachKeepsInv(w, f);
        DetachRefusedKeepsRegistry(w, f);
        if saved {
          SameRegistryKeepsInv(w.(reg := n.reg, fences := n.fences), n);
        }
      case Restore(f, now, saved) => RestoreKeepsInv(w, n, w.detached[f], now, saved);
      case Recover(ref, record, revision, now, saved) =>
        MutateKeepsInv(w, ref, None, RecoverEdit(record.(revision := revision)), now, saved);
      case Crash(_) => NothingOpenIsInv(n);
      case _ => SameRegistryKeepsInv(w, n);
    }
  }

  /** Copies that `detach` handed out keep the identity they were registered under. */
  ghost predicate CopiesHold(w: World) {
    forall f :: f in w.detached ==>
      w.detached[f].ref.id != EMPTY && w.detached[f].project == w.detached[f].ref.document
  }

  ghost predicate DrainInv(w: World) {
    Inv(w) && CopiesHold(w)
  }

  /** Every critical section, taken from any reachable world, keeps the drain protocol intact. */
  lemma StepKeepsDrainInv(w: World, s: Step)
    requires DrainInv(w) && Enabled(w, s)
    ensures DrainInv(Apply(w, s))
  {
    StepKeepsInv(w, s);
    if s.Detach? {
      FenceFinishNeverLost(w, s.f);
    }
  }

  lemma {:induction false} RunKeepsDrainInv(steps: seq<Step>, w: World, last: World)
    requires DrainInv(w) && Run(w, steps, last)
    ensures DrainInv(last)
    decreases |steps|
  {
    if steps != [] {
      StepKeepsDrainInv(w, steps[0]);
      RunKeepsDrainInv(steps[1..], Apply(w, steps[0]), last);
    }
  }

  // ----- What the drain protocol promises over whole runs -------------------------------------

  ghost predicate Reachable(w: World) {
    exists file, steps :: LoadableRecords(file) && WithinCap(file) && Run(Started(file), steps, w)
  }

  lemma {:induction false} RunExtends(first: World, steps: seq<Step>, w: World, s: Step)
    requires Run(first, steps, w) && Enabled(w, s)
    ensures Run(first, steps + [s], Apply(w, s))
    decreases |steps|
  {
    if steps == [] {
      assert ([] + [s])[1..] == [];
      assert Run(Apply(w, s), [], Apply(w, s));
    } else {
      RunExtends(Apply(first, steps[0]), steps[1..], w, s);
      assert (steps + [s])[1..] == steps[1..] + [s];
    }
  }

  lemma StepReaches(w: World, s: Step)
    requires Reachable(w) && Enabled(w, s)
    ensures Reachable(Apply(w, s))
  {
    var file, steps :| LoadableRecords(file) && WithinCap(file) && Run(Started(file), steps, w);
    RunExtends(Started(file), steps, w, s);
  }

  lemma EmptyStartIsReachable()
    ensures Reachable(Started(EMPTY_STATE))
  {
    assert Run(Started(EMPTY_STATE), [], Started(EMPTY_STATE));
  }

  lemma ReachableHolds(w: World)
    requires Reachable(w)
    ensures DrainInv(w)
  {
    var file, steps :| LoadableRecords(file) && WithinCap(file) && Run(Started(file), steps, w);
    NothingOpenIsInv(Started(file));
    RunKeepsDrainInv(steps, Started(file), w);
  }

  /** The count of every session is its outstanding tokens, each carrying the current generation. */
  lemma InflightIsOutstandingTokens(w: World, id: SessionId)
    requires Reachable(w) && id in w.reg.sessions
    ensures w.reg.sessions[id].inflight == |Holders(w.tokens, id)|
    ensures forall t :: t in Holders(w.tokens, id) ==> w.tokens[t].generation == w.reg.sessions[id].generation
  {
    ReachableHolds(w);
    assert Local(w, id);
  }

  /** No wake-up is lost: a parked fence is waiting for somebody, or its channel is already closed. */
  lemma ParkedFenceIsAwaited(w: World, f: Thread)
    requires Reachable(w) && f in w.fences && w.fences[f].phase.Parked?
    ensures w.fences[f].phase.channel !in w.closed <==> Holders(w.tokens, w.fences[f].ref.id) != {}
  {
    ReachableHolds(w);
    var id := w.fences[f].ref.id;
    assert Local(w, id) && FencedBy(w, id, f);
  }

  /** The steps that may release the fence `f`. */
  predicate Releases(s: Step, f: Thread) {
    s.Crash? || ((s.FenceRollback? || s.Detach?) && s.f == f)
  }

  /** A successful fence freezes its session: nothing runs, nothing can start, nothing changes it. */
  lemma OwnedFenceFreezes(w: World, f: Thread, s: Step)
    requires Reachable(w) && Enabled(w, s) && f in w.fences && w.fences[f].phase.Owned?
    ensures var id := w.fences[f].ref.id;
            && Holders(w.tokens, id) == {} && !BeginAllowed(w.reg, w.fences[f].ref)
            && id in w.reg.sessions && w.reg.sessions[id] == w.fences[f].phase.fenced
            && (!Releases(s, f) ==>
                  var n := Apply(w, s);
                  && f in n.fences && n.fences[f] == w.fences[f]
                  && id in n.reg.sessions && n.reg.sessions[id] == w.reg.sessions[id])
  {
    ReachableHolds(w);
    var id := w.fences[f].ref.id;
    assert Local(w, id) && FencedBy(w, id, f);
    FenceFinishNeverLost(w, f);
    if !Releases(s, f) {
      var n := Apply(w, s);
      StepKeepsDrainInv(w, s);
      FenceSurvives(w, f, s);
      assert Local(n, id) && FencedBy(n, id, f);
    }
  }

  lemma FenceSurvives(w: World, f: Thread, s: Step)
    requires DrainInv(w) && Enabled(w, s) && f in w.fences && w.fences[f].phase.Owned? && !Releases(s, f)
    ensures f in Apply(w, s).fences && Apply(w, s).fences[f] == w.fences[f]
  {
    if s.FenceFinish? {
      FenceFinishNeverLost(w, s.f);
    }
  }

  /** While a completion is outstanding its session is registered and no fence has passed its drain. */
  lemma CompletionLandsBeforeClose(w: World, t: Thread)
    requires Reachable(w) && t in w.tokens && w.tokens[t].holder.Collector?
    ensures Registered(w.reg, w.tokens[t].ref)
    ensures forall f :: FencedBy(w, w.tokens[t].ref.id, f) ==> w.fences[f].phase.Parked?
  {
    ReachableHolds(w);
    assert Local(w, w.tokens[t].ref.id);
    forall f | FencedBy(w, w.tokens[t].ref.id, f) ensures w.fences[f].phase.Parked? {
      TokenMeansParked(w, t, f);
    }
  }

  /** Every other outstanding completion of the session is older than the one that is current. */
  lemma OlderCompletionsAreStale(w: World, t: Thread, u: Thread)
    requires Reachable(w) && t in w.tokens && u in w.tokens && t != u && w.tokens[t].ref.id == w.tokens[u].ref.id
    requires w.tokens[t].holder.Collector? && w.tokens[u].holder.Collector? && w.tokens[t].ref.id in w.reg.sessions
    requires w.tokens[t].holder.autosaveGeneration == w.reg.sessions[w.tokens[t].ref.id].work.autosaveGeneration
    ensures w.tokens[u].holder.autosaveGeneration < w.tokens[t].holder.autosaveGeneration
  {
    ReachableHolds(w);
    assert Local(w, w.tokens[t].ref.id);
  }

  lemma CompletionTokenIsCurrent(w: World, t: Thread)
    requires Reachable(w) && t in w.tokens && w.tokens[t].holder.Collector?
    ensures Registered(w.reg, w.tokens[t].ref)
    ensures w.tokens[t].generation == w.reg.sessions[w.tokens[t].ref.id].generation
    ensures w.tokens[t].holder.autosaveGeneration <= w.reg.sessions[w.tokens[t].ref.id].work.autosaveGeneration
  {
    ReachableHolds(w);
    assert Local(w, w.tokens[t].ref.id);
  }

  /** A completion edits its session exactly when no later schedule or cancel took effect. */
  lemma CompletionEditsIffLatest(w: World, s: Step)
    requires Reachable(w) && s.Complete? && Enabled(w, s)
    ensures Registered(w.reg, w.tokens[s.t].ref) && Registered(Apply(w, s).reg, w.tokens[s.t].ref)
    ensures var token := w.tokens[s.t];
            var before, after := w.reg.sessions[token.ref.id], Apply(w, s).reg.sessions[token.ref.id];
            if token.holder.autosaveGeneration == before.work.autosaveGeneration then
              && after.work == (if s.saved then ApplyAutosaveResult(before.work, s.result) else before.work)
              && (after.recoveryRequired <==> !s.saved || before.recoveryRequired)
            else
              Apply(w, s).reg == w.reg && token.holder.autosaveGeneration < before.work.autosaveGeneration
  {
    CompletionTokenIsCurrent(w, s.t);
  }

  /** What was admitted before a fence is refused after it: a fence and a restore both start a new generation. */
  lemma FenceOutdatesGeneration(reg: Registry, ref: SessionRef, generation: nat, autosaveGeneration: nat)
    requires FenceHolds(reg, ref) && 0 < generation <= reg.sessions[ref.id].generation
    ensures var n := CloseRolledBack(FenceFinished(reg, ref), ref);
            && BeginAllowed(n, ref) && !MutateAllowed(n, ref, generation) && !EndCounts(n, ref, generation)
            && !CompletionCurrent(n, ref, generation, autosaveGeneration)
    ensures var copy := reg.sessions[ref.id];
            RestoreAllowed(Detached(reg, ref, true), copy) ==>
              forall now: nat :: var n := Restored(Detached(reg, ref, true), copy, now, true);
                BeginAllowed(n, ref) && !MutateAllowed(n, ref, generation) && !EndCounts(n, ref, generation)
  {
  }
}
