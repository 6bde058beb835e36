/**
 * What survives a crash. The registry's memory mirrors the file after every critical section,
 * whichever saves fail, and the file always reloads with a recovery record for each open project.
 * Two callers can break this, and `Careful` says exactly when they do.
 */
module CrashRecovery {
  import opened Options
  import opened Lifecycle
  import opened LifecycleProtocol

  predicate RecordDurable(key: ProjectId, record: RecoveryRecord) {
    LoadableRecovery(key, record) && record.autosave != Unset
  }

  predicate WorkDurable(work: Work) {
    && work.revision != EMPTY && work.autosave != Unset && ValidArtifact(work.recovery) &&
       ValidArtifact(work.terminalRecovery)
    && PairedTerminal(work.terminalBlocker, work.terminalRecovery)
  }

  ghost predicate StateDurable(state: Persisted) {
    && (forall key :: key in state.projects ==> LoadableProject(key, state.projects[key]))
    && (forall key :: key in state.recoveries ==> RecordDurable(key, state.recoveries[key]))
  }

  /** The recovery record of an open session is the projection `syncRecoveryLocked` writes. */
  ghost predicate Journaled(state: Persisted, s: Session) {
    s.project in state.recoveries && state.recoveries[s.project] == Projection(s,
        state.recoveries[s.project].interruptedAt)
  }

  /** The records offered after a restart: those of projects that are not open. */
  function Orphans(reg: Registry): set<ProjectId> {
    reg.state.recoveries.Keys - reg.byProject.Keys
  }

  ghost predicate AllJournaled(reg: Registry) {
    forall id :: id in reg.sessions ==> Journaled(reg.state, reg.sessions[id])
  }

  ghost predicate RegistryDurable(reg: Registry) {
    && StateDurable(reg.state) && LoadableRecords(reg.disk) && reg.state == Reloaded(reg.disk)
    && AllJournaled(reg)
  }

  /** A detached project left no record behind, so restoring it overwrites nothing. */
  ghost predicate CopyDurable(reg: Registry, copy: Session) {
    WorkDurable(copy.work) && copy.project != EMPTY && copy.project !in Orphans(reg)
  }

  ghost predicate HeldDurable(w: World) {
    && (forall f :: f in w.detached ==> CopyDurable(w.reg, w.detached[f]))
    && (forall record :: record in w.offered ==> RecordDurable(record.project, record))
  }

  ghost predicate Durable(w: World) {
    RegistryDurable(w.reg) && HeldDurable(w)
  }

  /** A durable commit of an edit nobody kept: it would leave a blocker with nothing to recover. */
  predicate Unrecoverable(work: Work, result: AutosaveResult) {
    result.AutosaveFinished? && StatusBlocker(result.status).Some? && work.recovery.None?
  }

  /**
   * The two ways to lose durability: discarding the record of a project that is open, and landing
   * an autosave whose status blocks the close after its artifact was already dropped.
   */
  predicate Careful(w: World, s: Step)
    requires Enabled(w, s)
  {
    match s
    case DiscardRecovery(project, saved) => !(saved && project in w.reg.state.recoveries && project in w.reg.byProject)
    case Complete(t, result, _, saved) =>
      var token := w.tokens[t];
      !(saved && CompletionCurrent(w.reg, token.ref, token.generation, token.holder.autosaveGeneration)
        && Unrecoverable(w.reg.sessions[token.ref.id].work, result))
    case EditHeld(t, CancelAutosaveEdit(result), _, saved) =>
      var token := w.tokens[t];
      !(saved && MutateAllowed(w.reg, token.ref, token.generation)
        && Unrecoverable(w.reg.sessions[token.ref.id].work, result))
    case _ => true
  }

  lemma DurableReloadsToItself(state: Persisted)
    requires StateDurable(state)
    ensures LoadableRecords(state) && Reloaded(state) == state
  {
    assert Reloaded(state).recoveries == state.recoveries;
  }

  lemma ReloadedIsDurable(disk: Persisted)
    requires LoadableRecords(disk)
    ensures StateDurable(Reloaded(disk))
  {
  }

  // ----- Which edits keep a session durable ---------------------------------------------------

  function EditResult(edit: Edit): Option<AutosaveResult> {
    match edit
    case CancelAutosaveEdit(result) => Some(result)
    case CompleteAutosaveEdit(result) => Some(result)
    case _ => None
  }

  predicate ValidEdit(edit: Edit) {
    match edit
    case CompleteAutosaveEdit(result) => ValidResult(result)
    case ScheduleEdit(_, payload) => ValidArtifact(Some(payload))
    case RecoverEdit(record) => RecordDurable(record.project, record)
    case _ => FreeEdit(edit) || HeldEdit(edit)
  }

  lemma ResultKeepsWorkDurableIff(result: AutosaveResult, work: Work)
    requires WorkDurable(work) && ValidResult(result)
    ensures WorkDurable(ApplyAutosaveResult(work, result)) <==> !Unrecoverable(work, result)
  {
  }

  lemma CommitKeepsWorkDurable(status: OperationStatus, revision: Option<Revision>, payload: Artifact, work: Work)
    requires WorkDurable(work) && ValidRevision(revision) && ValidArtifact(Some(payload))
    ensures WorkDurable(ApplyEdit(CommitEdit(status, revision, payload), work))
  {
  }

  lemma EditKeepsWorkDurableIff(edit: Edit, work: Work)
    requires WorkDurable(work) && ValidEdit(edit)
    ensures WorkDurable(ApplyEdit(edit, work)) <==>
              !(EditResult(edit).Some? && Unrecoverable(work, EditResult(edit).value))
  {
    if edit.CancelAutosaveEdit? {
      ResultKeepsWorkDurableIff(edit.result, work.(autosaveGeneration := work.autosaveGeneration + 1));
    } else if edit.CompleteAutosaveEdit? {
      ResultKeepsWorkDurableIff(edit.result, work);
    } else if edit.CommitEdit? {
      CommitKeepsWorkDurable(edit.status, edit.revision, edit.payload, work);
    }
  }

  lemma ResultKeepsPairingIff(result: AutosaveResult, work: Work)
    requires PairedTerminal(work.terminalBlocker, work.terminalRecovery)
    ensures var after := ApplyAutosaveResult(work, result);
            PairedTerminal(after.terminalBlocker, after.terminalRecovery) <==> !Unrecoverable(work, result)
  {
  }

  /** A blocker and its artifact come and go together through every edit but an unrecoverable autosave result. */
  lemma PairingKeptIff(edit: Edit, work: Work)
    requires PairedTerminal(work.terminalBlocker, work.terminalRecovery)
    requires edit.RecoverEdit? ==> PairedTerminal(edit.record.terminalBlocker, edit.record.terminalRecovery)
    ensures var after := ApplyEdit(edit, work);
            PairedTerminal(after.terminalBlocker, after.terminalRecovery) <==>
              !(EditResult(edit).Some? && Unrecoverable(work, EditResult(edit).value))
  {
    hide ApplyAutosaveResult;
    if edit.CancelAutosaveEdit? {
      ResultKeepsPairingIff(edit.result, work.(autosaveGeneration := work.autosaveGeneration + 1));
    } else if edit.CompleteAutosaveEdit? {
      ResultKeepsPairingIff(edit.result, work);
    }
  }

  /** Scheduling keeps the edit as an artifact, so its own result can always land. */
  lemma ScheduledResultIsRecoverable(work: Work, payload: Artifact, result: AutosaveResult)
    requires PairedTerminal(work.terminalBlocker, work.terminalRecovery)
    ensures var scheduled := ApplyEdit(ScheduleEdit(true, payload), work);
            var after := ApplyEdit(CompleteAutosaveEdit(result), scheduled);
            && !Unrecoverable(scheduled, result) && PairedTerminal(after.terminalBlocker, after.terminalRecovery)
            && (after.terminalBlocker.None? || after.terminalRecovery in {Some(payload), work.terminalRecovery})
  {
    var scheduled := ApplyEdit(ScheduleEdit(true, payload), work);
    PairingKeptIff(CompleteAutosaveEdit(result), scheduled);
  }

  lemma JournaledWork(reg: Registry, id: SessionId)
    requires RegistryDurable(reg) && id in reg.sessions
    ensures WorkDurable(reg.sessions[id].work) && reg.sessions[id].project != EMPTY
  {
    assert Journaled(reg.state, reg.sessions[id]);
  }

  // ----- Sections that write ------------------------------------------------------------------

  lemma SavedIsDurable(reg: Registry)
    requires reg.disk == reg.state && StateDurable(reg.state) && AllJournaled(reg)
    ensures RegistryDurable(reg)
  {
    DurableReloadsToItself(reg.state);
  }

  /** After a save that touched one project's record, only that project's session needs a look. */
  lemma OthersStayJournaled(reg: Registry, n: Registry, project: ProjectId)
    requires AllJournaled(reg)
    requires forall id :: id in n.sessions && n.sessions[id].project != project ==>
               id in reg.sessions && n.sessions[id] == reg.sessions[id]
    requires forall p :: p != project && p in reg.state.recoveries ==>
               p in n.state.recoveries && n.state.recoveries[p] == reg.state.recoveries[p]
    requires forall id :: id in n.sessions && n.sessions[id].project == project ==> Journaled(n.state, n.sessions[id])
    ensures AllJournaled(n)
  {
    forall id | id in n.sessions && n.sessions[id].project != project ensures Journaled(n.state, n.sessions[id]) {
      assert Journaled(reg.state, reg.sessions[id]);
    }
  }

  /** Sections that neither write nor edit. */
  ghost predicate Unwritten(reg: Registry, n: Registry) {
    && n.state == reg.state && n.disk == reg.disk && n.byProject == reg.byProject
    && (forall id :: id in n.sessions ==>
          id in reg.sessions && n.sessions[id].project == reg.sessions[id].project &&
            n.sessions[id].work == reg.sessions[id].work)
  }

  lemma UnwrittenKeepsDurable(reg: Registry, n: Registry)
    requires RegistryDurable(reg) && Unwritten(reg, n)
    ensures RegistryDurable(n)
  {
    forall id | id in n.sessions ensures Journaled(n.state, n.sessions[id]) {
      assert Journaled(reg.state, reg.sessions[id]);
    }
  }

  /** A failed save finds the record it puts back, because an open session always has one. */
  lemma FailedWriteIsNoop(reg: Registry, s: Session, now: nat)
    requires s.project in reg.state.recoveries
    ensures Written(reg, s, now, false) == reg
  {
    assert reg.state.recoveries[s.project := reg.state.recoveries[s.project]] == reg.state.recoveries;
  }

  lemma WrittenKeepsStateDurableIff(state: Persisted, s: Session, now: nat)
    requires StateDurable(state) && s.project != EMPTY
    ensures StateDurable(SyncRecovery(state, s, now)) <==> WorkDurable(s.work)
  {
    var n := SyncRecovery(state, s, now);
    assert RecordDurable(s.project, n.recoveries[s.project]) <==> WorkDurable(s.work);
    if !WorkDurable(s.work) {
      assert s.project in n.recoveries && !RecordDurable(s.project, n.recoveries[s.project]);
    }
  }

  lemma SavedWriteKeepsDurableIff(reg: Registry, s: Session, now: nat)
    requires Mirrored(reg) && RegistryDurable(reg) && Registered(reg, s.ref)
    requires s.project == reg.sessions[s.ref.id].project && s.project != EMPTY
    ensures RegistryDurable(Written(reg, s, now, true)) <==> WorkDurable(s.work)
  {
    var n := Written(reg, s, now, true);
    WrittenKeepsStateDurableIff(reg.state, s, now);
    if WorkDurable(s.work) {
      OthersStayJournaled(reg, n, s.project);
      SavedIsDurable(n);
    }
  }

  lemma EditedKeepsDurableIff(reg: Registry, ref: SessionRef, edit: Edit, now: nat, saved: bool)
    requires Mirrored(reg) && RegistryDurable(reg) && Registered(reg, ref) && ValidEdit(edit)
    ensures RegistryDurable(Edited(reg, ref, edit, now, saved)) <==>
              !(saved && EditResult(edit).Some? && Unrecoverable(reg.sessions[ref.id].work, EditResult(edit).value))
  {
    var s := reg.sessions[ref.id];
    var next := s.(work := ApplyEdit(edit, s.work));
    JournaledWork(reg, ref.id);
    EditKeepsWorkDurableIff(edit, s.work);
    if saved {
      SavedWriteKeepsDurableIff(reg, next, now);
    } else {
      assert Journaled(reg.state, s);
      FailedWriteIsNoop(reg, next, now);
    }
  }

  lemma MutatedKeepsDurableIff(reg: Registry, ref: SessionRef, generation: nat, edit: Edit, now: nat, saved: bool)
    requires Mirrored(reg) && RegistryDurable(reg) && ValidEdit(edit)
    ensures RegistryDurable(Mutated(reg, ref, generation, edit, now, saved)) <==>
              !(saved && MutateAllowed(reg, ref, generation) && EditResult(edit).Some?
                && Unrecoverable(reg.sessions[ref.id].work, EditResult(edit).value))
  {
    if MutateAllowed(reg, ref, generation) {
      EditedKeepsDurableIff(reg, ref, edit, now, saved);
    }
  }

  lemma DemandKeepsDurable(reg: Registry, ref: SessionRef)
    requires RegistryDurable(reg)
    ensures RegistryDurable(RecoveryDemanded(reg, ref))
  {
    UnwrittenKeepsDurable(reg, RecoveryDemanded(reg, ref));
  }

  lemma CompletedKeepsDurableIff(reg: Registry, ref: SessionRef, generation: nat, autosaveGeneration: nat,
                                 result: AutosaveResult, now: nat, saved: bool)
    requires Mirrored(reg) && RegistryDurable(reg) && ValidResult(result)
    ensures RegistryDurable(AutosaveCompleted(reg, ref, generation, autosaveGeneration, result, now, saved)) <==>
              !(saved && CompletionCurrent(reg, ref, generation, autosaveGeneration)
                && Unrecoverable(reg.sessions[ref.id].work, result))
  {
    if CompletionCurrent(reg, ref, generation, autosaveGeneration) {
      var edit := CompleteAutosaveEdit(result);
      EditedKeepsDurableIff(reg, ref, edit, now, saved);
      var e := Edited(reg, ref, edit, now, saved);
      if !saved {
        DemandKeepsDurable(e, ref);
      }
    }
  }

  /** `opened` and `restore`: one more session, and the record that projects it. */
  lemma RegisteredKeepsDurable(reg: Registry, n: Registry, s: Session, at: nat)
    requires Mirrored(reg) && RegistryDurable(reg) && WorkDurable(s.work) && s.project != EMPTY &&
             s.project !in reg.byProject
    requires n.state.recoveries == reg.state.recoveries[s.project := Projection(s, Some(at))]
    requires forall key :: key in n.state.projects ==> LoadableProject(key, n.state.projects[key])
    requires n.disk == n.state && n.sessions == reg.sessions[s.ref.id := s] && s.ref.id !in reg.sessions
    ensures RegistryDurable(n)
  {
    assert RecordDurable(s.project, Projection(s, Some(at)));
    OthersStayJournaled(reg, n, s.project);
    SavedIsDurable(n);
  }

  lemma OpenKeepsDurable(reg: Registry, ref: SessionRef, revision: Revision, pending: bool, name: Text, location: Text,
                         now: nat, saved: bool)
    requires Mirrored(reg) && RegistryDurable(reg) && ref.document != EMPTY && revision != EMPTY
    requires ref.id !in reg.sessions || Existing(reg, ref.document).Some?
    ensures RegistryDurable(Opened(reg, ref, revision, pending, name, location, now, saved))
  {
    var n := Opened(reg, ref, revision, pending, name, location, now, saved);
    if Existing(reg, ref.document).None? {
      if saved {
        RegisteredKeepsDurable(reg, n, NewSession(ref, revision, pending), now);
      } else {
        OpenedFailureIsNoop(reg, ref);
      }
    }
  }

  lemma RestoreFailureIsNoop(reg: Registry, copy: Session, now: nat)
    requires Mirrored(reg) && CopyDurable(reg, copy) && RestoreAllowed(reg, copy)
    ensures Restored(reg, copy, now, false) == reg
  {
    var n := Restored(reg, copy, now, false);
    assert copy.project !in reg.byProject;
    assert n.state.recoveries == reg.state.recoveries;
    assert n.sessions == reg.sessions && n.byProject == reg.byProject;
  }

  lemma RestoreKeepsDurable(reg: Registry, copy: Session, now: nat, saved: bool)
    requires Mirrored(reg) && RegistryDurable(reg) && CopyDurable(reg, copy)
    ensures RegistryDurable(Restored(reg, copy, now, saved))
  {
    if RestoreAllowed(reg, copy) {
      if saved {
        RegisteredKeepsDurable(reg, Restored(reg, copy, now, true), Reopened(copy), now);
      } else {
        RestoreFailureIsNoop(reg, copy, now);
      }
    }
  }

  lemma DetachKeepsDurable(reg: Registry, ref: SessionRef)
    requires Mirrored(reg) && RegistryDurable(reg) && FenceHolds(reg, ref)
    ensures RegistryDurable(Detached(reg, ref, true))
  {
    var n := Detached(reg, ref, true);
    OthersStayJournaled(reg, n, reg.sessions[ref.id].project);
    SavedIsDurable(n);
  }

  lemma UpdateKeepsDurable(reg: Registry, project: ProjectId, record: ProjectRecord, saved: bool)
    requires RegistryDurable(reg) && (project in reg.state.projects ==> LoadableProject(project, record))
    ensures RegistryDurable(ProjectUpdated(reg, project, record, saved))
  {
    var n := ProjectUpdated(reg, project, record, saved);
    if n != reg {
      OthersStayJournaled(reg, n, EMPTY);
      SavedIsDurable(n);
    }
  }

  /** Discarding keeps durability exactly when the project is not open. */
  lemma DiscardKeepsDurableIff(reg: Registry, project: ProjectId, saved: bool)
    requires Mirrored(reg) && RegistryDurable(reg)
    ensures RegistryDurable(RecoveryDiscarded(reg, project, saved)) <==>
              !(saved && project in reg.state.recoveries && project in reg.byProject)
  {
    var n := RecoveryDiscarded(reg, project, saved);
    if saved && project in reg.state.recoveries {
      if project in reg.byProject {
        assert !Journaled(n.state, n.sessions[reg.byProject[project]]);
      } else {
        OthersStayJournaled(reg, n, project);
        SavedIsDurable(n);
      }
    }
  }

  // ----- Main results -------------------------------------------------------------------------

  /** A failed open puts everything back exactly when the host's session id was not already taken. */
  lemma OpenedFailureIsNoop(reg: Registry, ref: SessionRef)
    requires Mirrored(reg) && Existing(reg, ref.document).None?
    ensures (forall revision, pending, name, location, now ::
               Opened(reg, ref, revision, pending, name, location, now, false) == reg) <==> ref.id !in reg.sessions
  {
    var n := Opened(reg, ref, EMPTY, false, EMPTY, EMPTY, 0, false);
    assert ref.document !in reg.byProject;
    assert reg.byProject - {ref.document} == reg.byProject;
    if ref.id in reg.sessions {
      assert ref.id !in n.sessions;
    } else {
      assert reg.sessions - {ref.id} == reg.sessions;
    }
  }

  predicate IsEdit(s: Step) {
    s.EditFree? || s.EditHeld? || s.Schedule? || s.Recover? || s.Complete?
  }

  predicate IsRegistration(s: Step) {
    s.Open? || s.Detach? || s.Restore?
  }

  predicate IsCatalog(s: Step) {
    s.UpdateProject? || s.DiscardRecovery?
  }

  lemma EditStepKeepsRegistryDurableIff(w: World, s: Step)
    requires Mirrored(w.reg) && Durable(w) && Enabled(w, s) && IsEdit(s)
    ensures RegistryDurable(Apply(w, s).reg) <==> Careful(w, s)
  {
    match s {
      case EditFree(ref, edit, now, saved) => MutatedKeepsDurableIff(w.reg, ref, 0, edit, now, saved);
      case EditHeld(t, edit, now, saved) =>
        MutatedKeepsDurableIff(w.reg, w.tokens[t].ref, w.tokens[t].generation, edit, now, saved);
      case Schedule(t, scheduled, payload, now, saved) =>
        MutatedKeepsDurableIff(w.reg, w.tokens[t].ref, w.tokens[t].generation, ScheduleEdit(scheduled, payload), now,
                               saved);
      case Complete(t, result, now, saved) =>
        var token := w.tokens[t];
        CompletedKeepsDurableIff(w.reg, token.ref, token.generation, token.holder.autosaveGeneration, result, now,
                                 saved);
      case Recover(ref, record, revision, now, saved) =>
        MutatedKeepsDurableIff(w.reg, ref, 0, RecoverEdit(record.(revision := revision)), now, saved);
    }
  }

  lemma RegistrationKeepsRegistryDurable(w: World, s: Step)
    requires DrainInv(w) && Durable(w) && Enabled(w, s) && IsRegistration(s)
    ensures RegistryDurable(Apply(w, s).reg)
  {
    match s {
      case Open(ref, revision, pending, name, location, now, saved) =>
        OpenKeepsDurable(w.reg, ref, revision, pending, name, location, now, saved);
      case Detach(f, saved) =>
        FenceFinishNeverLost(w, f);
        DetachKeepsDurable(w.reg, w.fences[f].ref);
        DetachRefusedKeepsRegistry(w, f);
      case Restore(f, now, saved) => RestoreKeepsDurable(w.reg, w.detached[f], now, saved);
    }
  }

  lemma CatalogKeepsRegistryDurableIff(w: World, s: Step)
    requires Mirrored(w.reg) && Durable(w) && Enabled(w, s) && IsCatalog(s)
    ensures RegistryDurable(Apply(w, s).reg) <==> Careful(w, s)
  {
    match s {
      case UpdateProject(project, pinned, missing, saved) =>
        var record := Looked(w.reg.state.projects, project, ZERO_PROJECT).(pinned := pinned, missing := missing);
        UpdateKeepsDurable(w.reg, project, record, saved);
      case DiscardRecovery(project, saved) => DiscardKeepsDurableIff(w.reg, project, saved);
    }
  }

  lemma OtherStepsAreUnwritten(w: World, s: Step)
    requires Enabled(w, s) && !IsEdit(s) && !IsRegistration(s) && !IsCatalog(s) && !s.Crash?
    ensures Unwritten(w.reg, Apply(w, s).reg)
  {
  }

  lemma StepKeepsRegistryDurableIff(w: World, s: Step)
    requires DrainInv(w) && Durable(w) && Enabled(w, s)
    ensures RegistryDurable(Apply(w, s).reg) <==> Careful(w, s)
  {
    if IsEdit(s) {
      EditStepKeepsRegistryDurableIff(w, s);
    } else if IsRegistration(s) {
      RegistrationKeepsRegistryDurable(w, s);
    } else if IsCatalog(s) {
      CatalogKeepsRegistryDurableIff(w, s);
    } else if s.Crash? {
      ReloadedIsDurable(w.reg.disk);
    } else {
      OtherStepsAreUnwritten(w, s);
      UnwrittenKeepsDurable(w.reg, Apply(w, s).reg);
    }
  }

  /** The project an edit writes back is the open one it found. */
  lemma MutateAddsNoOrphan(reg: Registry, ref: SessionRef, generation: nat, edit: Edit, now: nat, saved: bool)
    requires Mirrored(reg)
    ensures Orphans(Mutated(reg, ref, generation, edit, now, saved)) == Orphans(reg)
  {
  }

  lemma EditStepAddsNoOrphan(w: World, s: Step)
    requires Mirrored(w.reg) && Enabled(w, s) && IsEdit(s)
    ensures Orphans(Apply(w, s).reg) <= Orphans(w.reg)
  {
    match s {
      case EditFree(ref, edit, now, saved) => MutateAddsNoOrphan(w.reg, ref, 0, edit, now, saved);
      case EditHeld(t, edit, now, saved) =>
        MutateAddsNoOrphan(w.reg, w.tokens[t].ref, w.tokens[t].generation, edit, now, saved);
      case Schedule(t, scheduled, payload, now, saved) =>
        MutateAddsNoOrphan(w.reg, w.tokens[t].ref, w.tokens[t].generation, ScheduleEdit(scheduled, payload), now,
                           saved);
      case Complete(t, result, now, saved) =>
        MutateAddsNoOrphan(w.reg, w.tokens[t].ref, w.tokens[t].generation, CompleteAutosaveEdit(result), now, saved);
      case Recover(ref, record, revision, now, saved) =>
        MutateAddsNoOrphan(w.reg, ref, 0, RecoverEdit(record.(revision := revision)), now, saved);
    }
  }

  lemma RegistrationAddsNoOrphan(w: World, s: Step)
    requires DrainInv(w) && HeldDurable(w) && Enabled(w, s) && IsRegistration(s)
    ensures Orphans(Apply(w, s).reg) <= Orphans(w.reg)
  {
    match s {
      case Open(ref, _, _, _, _, _, _) =>
        if Existing(w.reg, ref.document).None? {
          OpenedFailureIsNoop(w.reg, ref);
        }
      case Detach(f, _) =>
        FenceFinishNeverLost(w, f);
        DetachRefusedKeepsRegistry(w, f);
      case Restore(f, now, _) =>
        if RestoreAllowed(w.reg, w.detached[f]) {
          RestoreFailureIsNoop(w.reg, w.detached[f], now);
        }
    }
  }

  /** No section but a crash turns a record into an orphan. */
  lemma StepAddsNoOrphan(w: World, s: Step)
    requires DrainInv(w) && HeldDurable(w) && Enabled(w, s) && !s.Crash?
    ensures Orphans(Apply(w, s).reg) <= Orphans(w.reg)
  {
    if IsEdit(s) {
      EditStepAddsNoOrphan(w, s);
    } else if IsRegistration(s) {
      RegistrationAddsNoOrphan(w, s);
    } else if !IsCatalog(s) {
      OtherStepsAreUnwritten(w, s);
    }
  }

  /** The copies and records that goroutines carry between sections. */
  lemma StepKeepsHeld(w: World, s: Step)
    requires Enabled(w, s)
    ensures var n := Apply(w, s);
            forall f :: f in n.detached ==>
              (f in w.detached && n.detached[f] == w.detached[f]) ||
              (s.Detach? && f == s.f && s.saved && Registered(w.reg, w.fences[f].ref) &&
               n.detached[f] == w.reg.sessions[w.fences[f].ref.id]
               && n.reg == Detached(w.reg, w.fences[f].ref, true) && FenceHolds(w.reg, w.fences[f].ref))
    ensures var n := Apply(w, s);
            forall record :: record in n.offered ==>
              record in w.offered || (s.ReadRecovery? && record == w.reg.state.recoveries[s.project])
    ensures s.Crash? ==> Apply(w, s).detached == map[] && Apply(w, s).offered == {}
  {
  }

  lemma StepKeepsHeldDurable(w: World, s: Step)
    requires DrainInv(w) && Durable(w) && Enabled(w, s)
    ensures HeldDurable(Apply(w, s))
  {
    StepKeepsHeld(w, s);
    if !s.Crash? {
      StepAddsNoOrphan(w, s);
    }
    if s.Detach? {
      FenceFinishNeverLost(w, s.f);
      JournaledWork(w.reg, w.fences[s.f].ref.id);
    }
  }

  /** Durability survives a critical section exactly when the section is careful. */
  lemma StepKeepsDurableIff(w: World, s: Step)
    requires DrainInv(w) && Durable(w) && Enabled(w, s)
    ensures Durable(Apply(w, s)) <==> Careful(w, s)
  {
    StepKeepsRegistryDurableIff(w, s);
    StepKeepsHeldDurable(w, s);
  }

  ghost predicate CarefulRun(first: World, steps: seq<Step>, last: World)
    decreases |steps|
  {
    if steps == [] then first == last
    else Enabled(first, steps[0]) && Careful(first, steps[0]) && CarefulRun(Apply(first, steps[0]), steps[1..], last)
  }

  lemma {:induction false} CarefulRunIsDurable(first: World, steps: seq<Step>, last: World)
    requires DrainInv(first) && Durable(first) && CarefulRun(first, steps, last)
    ensures DrainInv(last) && Durable(last)
    decreases |steps|
  {
    if steps != [] {
      StepKeepsDrainInv(first, steps[0]);
      StepKeepsDurableIff(first, steps[0]);
      CarefulRunIsDurable(Apply(first, steps[0]), steps[1..], last);
    }
  }

  lemma DurableSurvivesCrash(w: World, size: nat)
    requires Durable(w)
    ensures w.reg.state == Reloaded(w.reg.disk)
    ensures Enabled(w, Crash(size)) <==> size <= MAX_FILE_BYTES && WithinCap(w.reg.disk)
    ensures Enabled(w, Crash(size)) ==> OffersEveryOpenProject(w, Apply(w, Crash(size)).reg)
  {
    forall id | id in w.reg.sessions ensures Journaled(w.reg.state, w.reg.sessions[id]) {
    }
  }

  /** After the restart every project that was open has a candidate that projects its latest work. */
  ghost predicate OffersEveryOpenProject(w: World, after: Registry) {
    forall id :: id in w.reg.sessions ==>
      w.reg.sessions[id].project in Orphans(after) && Journaled(after.state, w.reg.sessions[id])
  }

  /**
   * After any careful run from any file the loader accepts, crashes included, memory is what the file holds, and
   * the file reloads, when its size and its counts are within their limits, with a candidate for every open project.
   */
  lemma CrashOffersEveryOpenProject(file: Persisted, steps: seq<Step>, w: World, size: nat)
    requires LoadableRecords(file) && CarefulRun(Started(file), steps, w)
    ensures w.reg.state == Reloaded(w.reg.disk)
    ensures Enabled(w, Crash(size)) <==> size <= MAX_FILE_BYTES && WithinCap(w.reg.disk)
    ensures Enabled(w, Crash(size)) ==> OffersEveryOpenProject(w, Apply(w, Crash(size)).reg)
  {
    NothingOpenIsInv(Started(file));
    ReloadedIsDurable(file);
    assert AllJournaled(Started(file).reg);
    CarefulRunIsDurable(Started(file), steps, w);
    DurableSurvivesCrash(w, size);
  }

  /** Restoring a journaled session brings back its work, with edit flags read off the artifact. */
  lemma RecoverReversesProjection(lost: Session, at: Option<nat>, blank: Work)
    ensures var record := Projection(lost, at);
            var found := ApplyEdit(RecoverEdit(record), blank);
            var preview := lost.work.recovery.Some? && lost.work.recovery.value.kind == PreviewOperations;
            (found == lost.work.(autosaveGeneration := blank.autosaveGeneration)) <==>
              && lost.work.ephemeralEdits == lost.work.recovery.Some? && lost.work.pendingPreview == preview
              && !lost.work.autosavePending
  {
  }

  // ----- The two callers that break durability ------------------------------------------------

  lemma Taken(w: World, s: Step) returns (n: World)
    requires Reachable(w) && Enabled(w, s)
    ensures n == Apply(w, s) && Reachable(n)
  {
    StepReaches(w, s);
    n := Apply(w, s);
  }

  const SAMPLE_REF := SessionRef(1, 1, EMPTY)
  const SAMPLE_PAYLOAD := Artifact(PreviewOperations, Payload(7, 2))

  /** A first project is opened on an empty file. */
  lemma OneProjectOpen() returns (w: World)
    ensures Reachable(w) && w.tokens == map[] && Registered(w.reg, SAMPLE_REF)
    ensures w.reg.sessions[1] == NewSession(SAMPLE_REF, 9, false) && w.reg.byProject == map[1 := 1]
    ensures 1 in w.reg.state.projects && 1 in w.reg.state.recoveries
  {
    EmptyStartIsReachable();
    w := Taken(Started(EMPTY_STATE), Open(SAMPLE_REF, 9, false, EMPTY, EMPTY, 5, true));
  }

  lemma RecordDiscardedWhileOpen() returns (w: World)
    ensures Reachable(w) && Registered(w.reg, SAMPLE_REF) && 1 in w.reg.state.projects && 1 !in w.reg.state.recoveries
    ensures w.reg.sessions[1].project == 1 && !w.reg.sessions[1].closing
  {
    w := OneProjectOpen();
    w := Taken(w, DiscardRecovery(1, true));
  }

  /** Without its record, an edit whose save fails puts back a zero record. */
  lemma FailedEditLeavesZeroRecord() returns (w: World)
    ensures Reachable(w) && 1 in w.reg.state.projects
    ensures 1 in w.reg.state.recoveries && w.reg.state.recoveries[1] == ZERO_RECOVERY
  {
    w := RecordDiscardedWhileOpen();
    w := Taken(w, EditFree(SAMPLE_REF, DiscardEdit(false), 6, false));
  }

  /**
   * Discard the record of an open project, fail one edit, save anything: the zero record reaches
   * the file, and the file no longer loads.
   */
  lemma DiscardWhileOpenCorruptsFile() returns (last: World)
    ensures Reachable(last) && !LoadableRecords(last.reg.disk)
  {
    last := FailedEditLeavesZeroRecord();
    last := Taken(last, UpdateProject(1, true, false, true));
    assert !LoadableRecovery(1, last.reg.disk.recoveries[1]);
  }

  lemma OneRequestRunning() returns (w: World)
    ensures Reachable(w) && Registered(w.reg, SAMPLE_REF) && !w.reg.sessions[1].closing
    ensures w.reg.sessions[1].generation == 1 && w.reg.sessions[1].work.autosaveGeneration == 0
    ensures w.tokens == map[0 := Token(SAMPLE_REF, 1, Request)]
    ensures w.reg.sessions[1].project == 1
  {
    w := OneProjectOpen();
    w := Taken(w, Begin(0, SAMPLE_REF));
  }

  lemma ScheduleTakes(reg: Registry, ref: SessionRef, payload: Artifact, now: nat)
    requires MutateAllowed(reg, ref, 1) && ref.id in reg.sessions
    ensures var n := Mutated(reg, ref, 1, ScheduleEdit(true, payload), now, true);
            var s, t := reg.sessions[ref.id], n.sessions[ref.id];
            && t.work.autosaveGeneration == s.work.autosaveGeneration + 1
            && Registered(n, ref) && t == s.(work := t.work)
  {
  }

  lemma ScheduledAutosave() returns (w: World)
    ensures Reachable(w) && Registered(w.reg, SAMPLE_REF) && !w.reg.sessions[1].closing
    ensures w.reg.sessions[1].generation == 1 && w.reg.sessions[1].work.autosaveGeneration == 1
    ensures w.tokens == map[0 := Token(SAMPLE_REF, 1, Collector(1))]
    ensures w.reg.sessions[1].project == 1
  {
    hide Reachable, Edited, Written, SyncRecovery, ApplyEdit;
    w := OneRequestRunning();
    ScheduleTakes(w.reg, SAMPLE_REF, SAMPLE_PAYLOAD, 6);
    w := Taken(w, Schedule(0, true, SAMPLE_PAYLOAD, 6, true));
  }

  lemma DiscardedUnderAutosave() returns (w: World)
    ensures Reachable(w) && Registered(w.reg, SAMPLE_REF) && w.reg.sessions[1].project == 1
    ensures w.reg.sessions[1].generation == 1 && w.reg.sessions[1].work.autosaveGeneration == 1
    ensures w.tokens == map[0 := Token(SAMPLE_REF, 1, Collector(1))] && w.reg.sessions[1].work.recovery.None?
  {
    w := ScheduledAutosave();
    w := Taken(w, EditFree(SAMPLE_REF, DiscardEdit(false), 7, true));
  }

  lemma PendingResultLands(reg: Registry, ref: SessionRef, now: nat)
    requires CompletionCurrent(reg, ref, 1, 1) && reg.sessions[ref.id].work.recovery.None?
    ensures var s, result := reg.sessions[ref.id], AutosaveFinished(CommittedExternalPending, None);
            var records := AutosaveCompleted(reg, ref, 1, 1, result, now, true).disk.recoveries;
            s.project in records && !LoadableRecovery(s.project, records[s.project])
  {
  }

  /**
   * Schedule an autosave, discard the edit without cancelling it, let it land as committed with
   * external work pending: the blocker has no artifact, and the file no longer loads.
   */
  lemma DiscardDuringAutosaveCorruptsFile() returns (last: World)
    ensures Reachable(last) && !LoadableRecords(last.reg.disk)
  {
    var w := DiscardedUnderAutosave();
    PendingResultLands(w.reg, SAMPLE_REF, 8);
    last := Taken(w, Complete(0, AutosaveFinished(CommittedExternalPending, None), 8, true));
    assert !LoadableRecovery(1, last.reg.disk.recoveries[1]);
  }
}
