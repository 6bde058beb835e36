/**
 * The registry of open project sessions. Every method of `ProjectLifecycle` is one critical
 * section of the registry's mutex: the fields are its memory, `disk` is the last state written.
 * The functions on `Registry` say what each critical section leaves behind; the interleavings
 * of those sections are the subject of `LifecycleProtocol`.
 */
module Lifecycle {
  import opened Options

  /** Identifiers and labels are only compared, with each other and with the empty string. */
  type Text = nat
  const EMPTY: Text := 0

  type ProjectId = Text
  type SessionId = Text
  type Revision = Text
  type Channel = nat

  const MAX_LIFECYCLE_ENTRIES := 4096
  const MAX_FILE_BYTES := 1048576
  const MAX_RECOVERY_PAYLOAD_BYTES := 262144
  const MAX_RECOVERY_REFERENCE_BYTES := 2048

  datatype SessionRef = SessionRef(id: SessionId, document: ProjectId, scope: Text)

  datatype ArtifactKind = PreviewOperations | EditorState
  datatype ArtifactContent = Payload(text: Text, size: nat) | Reference(text: Text, size: nat)
  datatype Artifact = Artifact(kind: ArtifactKind, content: ArtifactContent)

  predicate ValidArtifact(value: Option<Artifact>) {
    match value
    case None => true
    case Some(Artifact(_, Payload(_, size))) => 0 < size <= MAX_RECOVERY_PAYLOAD_BYTES
    case Some(Artifact(_, Reference(_, size))) => 0 < size <= MAX_RECOVERY_REFERENCE_BYTES
  }

  datatype TerminalBlocker = ExternalPending | ExternalFailed | StateStale

  /** `Unset` is Go's empty string: the loader reads it as `Idle`. */
  datatype Autosave = Unset | Idle | Scheduled | Committed | Conflict | NeedsReview | Failed

  datatype Blocker =
    | PendingPreview | EphemeralEdits | AutosavePending | ProviderPending
    | Terminal(blocker: TerminalBlocker) | RecoveryRequired

  datatype Assessment = Assessment(
    project: ProjectId, revision: Revision, canClose: bool, blockers: seq<Blocker>, autosave: Autosave)

  datatype ProjectRecord = ProjectRecord(
    project: ProjectId, displayName: Text, locationLabel: Text, pinned: bool,
    lastOpenedAt: Option<nat>, missing: bool)

  datatype RecoveryRecord = RecoveryRecord(
    project: ProjectId, revision: Revision, interruptedAt: Option<nat>, autosavePending: bool,
    providerPending: bool, terminalBlocker: Option<TerminalBlocker>, autosave: Autosave,
    recovery: Option<Artifact>, terminalRecovery: Option<Artifact>)

  /** The zero values a Go map lookup yields for a missing key. */
  const ZERO_PROJECT := ProjectRecord(EMPTY, EMPTY, EMPTY, false, None, false)
  const ZERO_RECOVERY := RecoveryRecord(EMPTY, EMPTY, None, false, false, None, Unset, None, None)

  datatype Persisted = Persisted(projects: map<ProjectId, ProjectRecord>, recoveries: map<ProjectId, RecoveryRecord>)

  /** The fields of a session that the closures passed to `mutate` may rewrite. */
  datatype Work = Work(
    revision: Revision, pendingPreview: bool, ephemeralEdits: bool, autosavePending: bool, providerPending: bool,
    terminalBlocker: Option<TerminalBlocker>, recovery: Option<Artifact>, terminalRecovery: Option<Artifact>,
    autosave: Autosave, autosaveGeneration: nat)

  /** The remaining fields belong to the registry: identity, and the close fence. */
  datatype Session = Session(
    project: ProjectId, ref: SessionRef, work: Work, recoveryRequired: bool, generation: nat, inflight: nat,
    closing: bool, drained: Option<Channel>)

  datatype Registry = Registry(
    state: Persisted, disk: Persisted, sessions: map<SessionId, Session>, byProject: map<ProjectId, SessionId>)

  const EMPTY_STATE := Persisted(map[], map[])

  // ----- What the closures passed to `mutate` do to a session ---------------------------------

  datatype OperationStatus =
    | CommittedCleanly | CommittedExternalPending | CommittedExternalFailed | CommittedStateStale
    | OperationNeedsReview | OperationOther

  datatype AutosaveResult =
    | AutosaveCancelled | AutosaveConflicted | AutosaveErrored
    | AutosaveFinished(status: OperationStatus, revision: Option<Revision>)

  datatype Edit =
    | PreviewEdit(payload: Artifact)
    | CommitEdit(status: OperationStatus, revision: Option<Revision>, payload: Artifact)
    | EphemeralEdit(dirty: bool, artifact: Option<Artifact>)
    | DiscardEdit(cancelAutosave: bool)
    | ProviderEdit(pending: bool)
    | ScheduleEdit(scheduled: bool, payload: Artifact)
    | CancelAutosaveEdit(result: AutosaveResult)
    | CompleteAutosaveEdit(result: AutosaveResult)
    | RecoverEdit(record: RecoveryRecord)

  predicate IsCommitted(status: OperationStatus) {
    !status.OperationNeedsReview? && !status.OperationOther?
  }

  function StatusBlocker(status: OperationStatus): Option<TerminalBlocker> {
    match status
    case CommittedExternalPending => Some(ExternalPending)
    case CommittedExternalFailed => Some(ExternalFailed)
    case CommittedStateStale => Some(StateStale)
    case _ => None
  }

  /** A durable commit clears every edit flag and leaves at most the blocker its status names. */
  function AfterCommit(s: Work, status: OperationStatus, artifact: Option<Artifact>): Work {
    s.(pendingPreview := false, ephemeralEdits := false, recovery := None, providerPending := false,
       terminalBlocker := StatusBlocker(status),
       terminalRecovery := if StatusBlocker(status).Some? then artifact else None)
  }

  function ApplyAutosaveResult(s: Work, result: AutosaveResult): Work {
    var cleared := s.(autosavePending := false);
    match result
    case AutosaveCancelled => cleared.(autosave := Idle)
    case AutosaveConflicted => cleared.(autosave := Conflict, ephemeralEdits := true)
    case AutosaveErrored => cleared.(autosave := Failed, ephemeralEdits := true)
    case AutosaveFinished(status, revision) =>
      var revised := cleared.(revision := revision.GetOr(s.revision));
      if IsCommitted(status) then AfterCommit(revised, status, s.recovery).(autosave := Committed)
      else revised.(autosave := if status.OperationNeedsReview? then NeedsReview else Failed, ephemeralEdits := true)
  }

  function ApplyEdit(edit: Edit, s: Work): Work {
    match edit
    case PreviewEdit(payload) => s.(pendingPreview := true, ephemeralEdits := true, recovery := Some(payload))
    case CommitEdit(status, revision, payload) =>
      var revised := s.(revision := revision.GetOr(s.revision));
      if IsCommitted(status)
      then AfterCommit(revised, status, Some(payload)).(autosavePending := false, autosave := Idle)
      else revised.(ephemeralEdits := true)
    case EphemeralEdit(dirty, artifact) =>
      if dirty then s.(ephemeralEdits := true, recovery := artifact)
      else s.(recovery := if s.recovery.Some? && s.recovery.value.kind == EditorState then None else s.recovery,
              ephemeralEdits := s.pendingPreview)
    case DiscardEdit(cancelAutosave) =>
      s.(pendingPreview := false, ephemeralEdits := false, recovery := None,
         autosavePending := s.autosavePending && !cancelAutosave)
    case ProviderEdit(pending) =>
      var clears := !pending && (s.terminalBlocker == Some(ExternalPending) ||
                                 s.terminalBlocker == Some(ExternalFailed));
      s.(providerPending := pending,
         terminalBlocker := if clears then None else s.terminalBlocker,
         terminalRecovery := if clears then None else s.terminalRecovery)
    case ScheduleEdit(scheduled, artifact) =>
      var bumped := s.(autosaveGeneration := s.autosaveGeneration + 1, autosavePending := scheduled);
      if scheduled then bumped.(autosave := Scheduled, ephemeralEdits := true, recovery := Some(artifact))
      else bumped.(autosave := Idle)
    case CancelAutosaveEdit(result) =>
      ApplyAutosaveResult(s.(autosaveGeneration := s.autosaveGeneration + 1), result)
    case CompleteAutosaveEdit(result) => ApplyAutosaveResult(s, result)
    case RecoverEdit(record) =>
      s.(revision := record.revision, recovery := record.recovery,
         pendingPreview := record.recovery.Some? && record.recovery.value.kind == PreviewOperations,
         ephemeralEdits := record.recovery.Some?, autosavePending := false,
         providerPending := record.providerPending, terminalBlocker := record.terminalBlocker,
         terminalRecovery := record.terminalRecovery,
         autosave := if record.autosavePending then NeedsReview else record.autosave)
  }

  // ----- What each critical section leaves behind ---------------------------------------------

  predicate Registered(r: Registry, ref: SessionRef) {
    ref.id in r.sessions && r.sessions[ref.id].ref == ref
  }

  /** The session a project is already open in, if any. */
  function Existing(r: Registry, project: ProjectId): Option<Session> {
    if project in r.byProject && r.byProject[project] in r.sessions then Some(r.sessions[r.byProject[project]])
      else None
  }

  function Projection(s: Session, interruptedAt: Option<nat>): RecoveryRecord {
    RecoveryRecord(s.project, s.work.revision, interruptedAt, s.work.autosavePending, s.work.providerPending,
                   s.work.terminalBlocker, s.work.autosave, s.work.recovery, s.work.terminalRecovery)
  }

  function Looked<V>(m: map<ProjectId, V>, key: ProjectId, zero: V): V {
    if key in m then m[key] else zero
  }

  /** Puts an entry back as it was looked up, removing it again when it was absent. */
  function PutBack<V>(m: map<ProjectId, V>, key: ProjectId, had: bool, prior: V): map<ProjectId, V> {
    if had then m[key := prior] else m - {key}
  }

  lemma PutBackUndoes<V>(m: map<ProjectId, V>, key: ProjectId, value: V, zero: V)
    ensures PutBack(m[key := value], key, key in m, Looked(m, key, zero)) == m
  {
    assert PutBack(m[key := value], key, key in m, Looked(m, key, zero)).Keys == m.Keys;
  }

  function SyncRecovery(state: Persisted, s: Session, now: nat): Persisted {
    var prior := Looked(state.recoveries, s.project, ZERO_RECOVERY);
    var at := if prior.interruptedAt.None? then Some(now) else prior.interruptedAt;
    state.(recoveries := state.recoveries[s.project := Projection(s, at)])
  }

  function NewSession(ref: SessionRef, revision: Revision, providerPending: bool): Session {
    var work := Work(revision, false, false, false, providerPending, None, None, None, Idle, 0);
    Session(ref.document, ref, work, false, 1, 0, false, None)
  }

  function OpenedState(state: Persisted, ref: SessionRef, revision: Revision, providerPending: bool,
                       name: Text, location: Text, now: nat): Persisted {
    var prior := Looked(state.projects, ref.document, ZERO_PROJECT);
    var project := ProjectRecord(ref.document, if name != EMPTY then name else prior.displayName,
                                 if location != EMPTY then location else prior.locationLabel, prior.pinned, Some(now),
                                 false);
    Persisted(state.projects[ref.document := project],
              state.recoveries[ref.document := Projection(NewSession(ref, revision, providerPending), Some(now))])
  }

  /** A failed save drops whatever the session and project keys held: see `OpenedFailureIsNoop`. */
  function Opened(r: Registry, ref: SessionRef, revision: Revision, providerPending: bool,
                  name: Text, location: Text, now: nat, saved: bool): Registry {
    if Existing(r, ref.document).Some? then r
    else if saved then
      var state := OpenedState(r.state, ref, revision, providerPending, name, location, now);
      Registry(state, state, r.sessions[ref.id := NewSession(ref, revision, providerPending)],
               r.byProject[ref.document := ref.id])
    else r.(sessions := r.sessions - {ref.id}, byProject := r.byProject - {ref.document})
  }

  predicate MutateAllowed(r: Registry, ref: SessionRef, generation: nat) {
    && Registered(r, ref)
    && !(r.sessions[ref.id].closing && generation == 0)
    && (generation != 0 ==> r.sessions[ref.id].generation == generation)
  }

  /** A failed save puts back the record looked up before the edit, present or not. */
  function Written(r: Registry, next: Session, now: nat, saved: bool): Registry {
    if saved then
      var state := SyncRecovery(r.state, next, now);
      r.(state := state, disk := state, sessions := r.sessions[next.ref.id := next])
    else
      r.(state := r.state.(recoveries :=
           r.state.recoveries[next.project := Looked(r.state.recoveries, next.project, ZERO_RECOVERY)]))
  }

  function Edited(r: Registry, ref: SessionRef, edit: Edit, now: nat, saved: bool): Registry
    requires Registered(r, ref)
  {
    var s := r.sessions[ref.id];
    Written(r, s.(work := ApplyEdit(edit, s.work)), now, saved)
  }

  function Mutated(r: Registry, ref: SessionRef, generation: nat, edit: Edit, now: nat, saved: bool): Registry {
    if MutateAllowed(r, ref, generation) then Edited(r, ref, edit, now, saved) else r
  }

  predicate CompletionCurrent(r: Registry, ref: SessionRef, generation: nat, autosaveGeneration: nat) {
    && Registered(r, ref)
    && r.sessions[ref.id].generation == generation
    && r.sessions[ref.id].work.autosaveGeneration == autosaveGeneration
  }

  function AutosaveCompleted(r: Registry, ref: SessionRef, generation: nat, autosaveGeneration: nat,
                             result: AutosaveResult, now: nat, saved: bool): Registry {
    if !CompletionCurrent(r, ref, generation, autosaveGeneration) then r
    else
      var edited := Edited(r, ref, CompleteAutosaveEdit(result), now, saved);
      if saved then edited else RecoveryDemanded(edited, ref)
  }

  function RecoveryDemanded(r: Registry, ref: SessionRef): Registry {
    if Registered(r, ref) then r.(sessions := r.sessions[ref.id := r.sessions[ref.id].(recoveryRequired := true)])
      else r
  }

  predicate BeginAllowed(r: Registry, ref: SessionRef) {
    Registered(r, ref) && !r.sessions[ref.id].closing
  }

  function Begun(r: Registry, ref: SessionRef): Registry {
    if BeginAllowed(r, ref) then
      var s := r.sessions[ref.id];
      r.(sessions := r.sessions[ref.id := s.(inflight := s.inflight + 1)])
    else r
  }

  predicate EndCounts(r: Registry, ref: SessionRef, generation: nat) {
    Registered(r, ref) && r.sessions[ref.id].generation == generation && r.sessions[ref.id].inflight != 0
  }

  /** The channel that the last `end` of a fenced session closes. */
  function ChannelClosedByEnd(r: Registry, ref: SessionRef, generation: nat): Option<Channel> {
    if EndCounts(r, ref, generation) && r.sessions[ref.id].closing && r.sessions[ref.id].inflight == 1
    then r.sessions[ref.id].drained else None
  }

  function Ended(r: Registry, ref: SessionRef, generation: nat): Registry {
    if EndCounts(r, ref, generation) then
      var s := r.sessions[ref.id];
      var drained := if ChannelClosedByEnd(r, ref, generation).Some? then None else s.drained;
      r.(sessions := r.sessions[ref.id := s.(inflight := s.inflight - 1, drained := drained)])
    else r
  }

  function FenceEntered(r: Registry, ref: SessionRef, channel: Channel): Registry {
    if BeginAllowed(r, ref) then
      var s := r.sessions[ref.id];
      r.(sessions := r.sessions[ref.id := s.(closing := true, drained := if s.inflight > 0 then Some(channel)
                                             else s.drained)])
    else r
  }

  predicate FenceHolds(r: Registry, ref: SessionRef) {
    Registered(r, ref) && r.sessions[ref.id].closing && r.sessions[ref.id].inflight == 0
  }

  function FenceFinished(r: Registry, ref: SessionRef): Registry {
    if FenceHolds(r, ref) then
      var s := r.sessions[ref.id];
      r.(sessions := r.sessions[ref.id := s.(generation := s.generation + 1)])
    else r
  }

  function CloseRolledBack(r: Registry, ref: SessionRef): Registry {
    if Registered(r, ref) then
      r.(sessions := r.sessions[ref.id := r.sessions[ref.id].(closing := false, drained := None)])
    else r
  }

  function Detached(r: Registry, ref: SessionRef, saved: bool): Registry {
    if FenceHolds(r, ref) && saved then
      var project := r.sessions[ref.id].project;
      var state := r.state.(recoveries := r.state.recoveries - {project});
      Registry(state, state, r.sessions - {ref.id}, r.byProject - {project})
    else if FenceHolds(r, ref) then
      r.(byProject := r.byProject[r.sessions[ref.id].project := ref.id])
    else r
  }

  function Reopened(s: Session): Session {
    s.(closing := false, inflight := 0, drained := None, generation := s.generation + 1)
  }

  predicate RestoreAllowed(r: Registry, s: Session) {
    s.ref.id !in r.sessions && (s.project !in r.byProject || r.byProject[s.project] == EMPTY)
  }

  function Restored(r: Registry, s: Session, now: nat, saved: bool): Registry {
    if !RestoreAllowed(r, s) then r
    else if saved then
      var state := r.state.(recoveries := r.state.recoveries[s.project := Projection(s, Some(now))]);
      Registry(state, state, r.sessions[s.ref.id := Reopened(s)], r.byProject[s.project := s.ref.id])
    else
      r.(state := r.state.(recoveries := r.state.recoveries - {s.project}),
         sessions := r.sessions - {s.ref.id}, byProject := r.byProject - {s.project})
  }

  /** `markMissing` and `pin` rewrite one catalogue entry. */
  function ProjectUpdated(r: Registry, project: ProjectId, record: ProjectRecord, saved: bool): Registry {
    if project in r.state.projects && saved then
      var state := r.state.(projects := r.state.projects[project := record]);
      r.(state := state, disk := state)
    else r
  }

  function RecoveryDiscarded(r: Registry, project: ProjectId, saved: bool): Registry {
    if project in r.state.recoveries && saved then
      var state := r.state.(recoveries := r.state.recoveries - {project});
      r.(state := state, disk := state)
    else r
  }

  function Assess(s: Session): (a: Assessment)
    ensures var w := s.work;
            a.canClose <==> !w.pendingPreview && !w.ephemeralEdits && !w.autosavePending && !w.providerPending
                            && w.terminalBlocker.None? && !s.recoveryRequired
  {
    var w := s.work;
    var blockers :=
      (if w.pendingPreview then [PendingPreview] else []) +
      (if w.ephemeralEdits then [EphemeralEdits] else []) +
      (if w.autosavePending then [AutosavePending] else []) +
      (if w.providerPending then [ProviderPending] else []) +
      (if w.terminalBlocker.Some? then [Terminal(w.terminalBlocker.value)] else []) +
      (if s.recoveryRequired then [RecoveryRequired] else []);
    Assessment(s.project, w.revision, |blockers| == 0, blockers, w.autosave)
  }

  // ----- Reloading after a crash --------------------------------------------------------------

  predicate PairedTerminal(blocker: Option<TerminalBlocker>, artifact: Option<Artifact>) {
    blocker.None? <==> artifact.None?
  }

  predicate LoadableProject(key: ProjectId, p: ProjectRecord) {
    key == p.project && p.project != EMPTY && p.lastOpenedAt.Some?
  }

  predicate LoadableRecovery(key: ProjectId, record: RecoveryRecord) {
    && key == record.project && record.project != EMPTY && record.revision != EMPTY && record.interruptedAt.Some?
    && ValidArtifact(record.recovery) && ValidArtifact(record.terminalRecovery)
    && PairedTerminal(record.terminalBlocker, record.terminalRecovery)
  }

  predicate LoadableRecords(disk: Persisted) {
    && (forall key :: key in disk.projects ==> LoadableProject(key, disk.projects[key]))
    && (forall key :: key in disk.recoveries ==> LoadableRecovery(key, disk.recoveries[key]))
  }

  predicate WithinCap(disk: Persisted) {
    |disk.projects| <= MAX_LIFECYCLE_ENTRIES && |disk.recoveries| <= MAX_LIFECYCLE_ENTRIES
  }

  function Normalized(record: RecoveryRecord): RecoveryRecord {
    if record.autosave == Unset then record.(autosave := Idle) else record
  }

  method ProjectsLoadable(projects: map<ProjectId, ProjectRecord>) returns (ok: bool)
    ensures ok <==> forall key :: key in projects ==> LoadableProject(key, projects[key])
  {
    var pending := projects.Keys;
    while pending != {}
      invariant pending <= projects.Keys
      invariant forall key :: key in projects && key !in pending ==> LoadableProject(key, projects[key])
      decreases |pending|
    {
      var key :| key in pending;
      if !LoadableProject(key, projects[key]) {
        return false;
      }
      pending := pending - {key};
    }
    return true;
  }

  method LoadRecoveries(stored: map<ProjectId, RecoveryRecord>)
    returns (ok: bool, recoveries: map<ProjectId, RecoveryRecord>)
    ensures ok <==> forall key :: key in stored ==> LoadableRecovery(key, stored[key])
    ensures ok ==> recoveries == map key | key in stored :: Normalized(stored[key])
  {
    recoveries := stored;
    var pending := stored.Keys;
    while pending != {}
      invariant pending <= stored.Keys && recoveries.Keys == stored.Keys
      invariant forall key :: key in stored && key !in pending ==>
                  LoadableRecovery(key, stored[key]) && recoveries[key] == Normalized(stored[key])
      invariant forall key :: key in pending ==> recoveries[key] == stored[key]
      decreases |pending|
    {
      var key :| key in pending;
      if recoveries[key].autosave == Unset {
        recoveries := recoveries[key := recoveries[key].(autosave := Idle)];
      }
      if !LoadableRecovery(key, recoveries[key]) {
        return false, recoveries;
      }
      pending := pending - {key};
    }
    return true, recoveries;
  }

  /** Reads a file of `size` bytes back, accepting exactly those whose size, counts and records pass every check. */
  method Load(size: nat, disk: Persisted) returns (result: Option<Persisted>)
    ensures result.Some? <==> size <= MAX_FILE_BYTES && WithinCap(disk) && LoadableRecords(disk)
    ensures result.Some? ==>
              && result.value.projects == disk.projects
              && result.value.recoveries == map key | key in disk.recoveries :: Normalized(disk.recoveries[key])
  {
    if size > MAX_FILE_BYTES {
      return None;
    }
    if |disk.projects| > MAX_LIFECYCLE_ENTRIES || |disk.recoveries| > MAX_LIFECYCLE_ENTRIES {
      return None;
    }
    var ok := ProjectsLoadable(disk.projects);
    if !ok {
      return None;
    }
    var recoveries;
    ok, recoveries := LoadRecoveries(disk.recoveries);
    return if ok then Some(Persisted(disk.projects, recoveries)) else None;
  }

  // ----- The registry object ------------------------------------------------------------------

  datatype OpenDisposition = OpenedNew(ref: SessionRef) | FocusedExisting(ref: SessionRef) | OpenFailed

  datatype RecoveryCandidate = RecoveryCandidate(
    project: ProjectId, pendingPreview: bool, ephemeralEdits: bool, record: RecoveryRecord)

  function Candidate(record: RecoveryRecord): RecoveryCandidate {
    RecoveryCandidate(record.project,
                      record.recovery.Some? && record.recovery.value.kind == PreviewOperations,
                      record.recovery.Some?, record)
  }

  class ProjectLifecycle {
    var state: Persisted
    var disk: Persisted
    var sessions: map<SessionId, Session>
    var byProject: map<ProjectId, SessionId>

    ghost function View(): Registry
      reads this
    {
      Registry(state, disk, sessions, byProject)
    }

    /** Starts from a loaded file. */
    constructor (loaded: Persisted, file: Persisted)
      ensures View() == Registry(loaded, file, map[], map[])
    {
      state, disk := loaded, file;
      sessions, byProject := map[], map[];
    }

    /** One atomic write: it replaces the file or, when `saved` is false, leaves it alone. */
    method SaveLocked(saved: bool)
      modifies this`disk
      ensures disk == if saved then state else old(disk)
    {
      if saved {
        disk := state;
      }
    }

    method SyncRecoveryLocked(value: Session, now: nat)
      modifies this`state
      ensures state == SyncRecovery(old(state), value, now)
    {
      var prior := if value.project in state.recoveries then state.recoveries[value.project] else ZERO_RECOVERY;
      prior := prior.(project := value.project, revision := value.work.revision);
      if prior.interruptedAt.None? {
        prior := prior.(interruptedAt := Some(now));
      }
      var work := value.work;
      prior := prior.(autosavePending := work.autosavePending, providerPending := work.providerPending,
        terminalBlocker := work.terminalBlocker, terminalRecovery := work.terminalRecovery,
        autosave := work.autosave, recovery := work.recovery);
      state := state.(recoveries := state.recoveries[value.project := prior]);
    }

    method Open(ref: SessionRef, revision: Revision, providerPending: bool, name: Text, location: Text,
                now: nat, saved: bool) returns (result: OpenDisposition)
      modifies this
      ensures View() == Opened(old(View()), ref, revision, providerPending, name, location, now, saved)
      ensures result == match Existing(old(View()), ref.document)
                        case Some(s) => FocusedExisting(s.ref)
                        case None => if saved then OpenedNew(ref) else OpenFailed
    {
      var project := ref.document;
      if project in byProject && byProject[project] in sessions {
        return FocusedExisting(sessions[byProject[project]].ref);
      }
      var hadProject, hadRecovery := project in state.projects, project in state.recoveries;
      var priorProject := Looked(state.projects, project, ZERO_PROJECT);
      var priorRecovery := Looked(state.recoveries, project, ZERO_RECOVERY);
      state := OpenedState(state, ref, revision, providerPending, name, location, now);
      sessions := sessions[ref.id := NewSession(ref, revision, providerPending)];
      byProject := byProject[project := ref.id];
      SaveLocked(saved);
      if !saved {
        sessions := sessions - {ref.id};
        byProject := byProject - {project};
        PutBackUndoes(old(state).projects, project, state.projects[project], ZERO_PROJECT);
        PutBackUndoes(old(state).recoveries, project, state.recoveries[project], ZERO_RECOVERY);
        state := Persisted(PutBack(state.projects, project, hadProject, priorProject),
                           PutBack(state.recoveries, project, hadRecovery, priorRecovery));
        assert sessions == old(sessions) - {ref.id};
        assert byProject == old(byProject) - {project};
        return OpenFailed;
      }
      return OpenedNew(ref);
    }

    /** The shared tail of `mutate` and `completeAutosave`: edit, synchronize, save, roll back. */
    method WriteLocked(value: Session, now: nat, saved: bool)
      requires Registered(View(), value.ref)
      modifies this
      ensures View() == Written(old(View()), value, now, saved)
    {
      var prior := sessions[value.ref.id];
      var priorRecovery := Looked(state.recoveries, value.project, ZERO_RECOVERY);
      sessions := sessions[value.ref.id := value];
      SyncRecoveryLocked(value, now);
      SaveLocked(saved);
      if !saved {
        sessions := sessions[value.ref.id := prior];
        state := state.(recoveries := state.recoveries[value.project := priorRecovery]);
        assert sessions == old(sessions);
        assert state.recoveries == old(state.recoveries)[value.project := priorRecovery];
      }
    }

    method Mutate(ref: SessionRef, generation: nat, edit: Edit, now: nat, saved: bool) returns (ok: bool)
      modifies this
      ensures View() == Mutated(old(View()), ref, generation, edit, now, saved)
      ensures ok <==> MutateAllowed(old(View()), ref, generation) && saved
    {
      if ref.id !in sessions || sessions[ref.id].ref != ref || (sessions[ref.id].closing && generation == 0) ||
         (generation != 0 && sessions[ref.id].generation != generation) {
        return false;
      }
      var value := sessions[ref.id];
      WriteLocked(value.(work := ApplyEdit(edit, value.work)), now, saved);
      return saved;
    }

    method CompleteAutosave(ref: SessionRef, generation: nat, autosaveGeneration: nat, result: AutosaveResult,
                            now: nat, saved: bool) returns (ok: bool)
      modifies this
      ensures View() == AutosaveCompleted(old(View()), ref, generation, autosaveGeneration, result, now, saved)
      ensures ok <==> CompletionCurrent(old(View()), ref, generation, autosaveGeneration) && saved
    {
      if ref.id !in sessions || sessions[ref.id].ref != ref || sessions[ref.id].generation != generation ||
         sessions[ref.id].work.autosaveGeneration != autosaveGeneration {
        return false;
      }
      var value := sessions[ref.id];
      WriteLocked(value.(work := ApplyEdit(CompleteAutosaveEdit(result), value.work)), now, saved);
      if !saved {
        sessions := sessions[ref.id := sessions[ref.id].(recoveryRequired := true)];
      }
      return saved;
    }

    method RequireRecovery(ref: SessionRef)
      modifies this`sessions
      ensures View() == RecoveryDemanded(old(View()), ref)
    {
      if ref.id in sessions && sessions[ref.id].ref == ref {
        sessions := sessions[ref.id := sessions[ref.id].(recoveryRequired := true)];
      }
    }

    method Begin(ref: SessionRef) returns (generation: Option<nat>)
      modifies this`sessions
      ensures View() == Begun(old(View()), ref)
      ensures generation == if BeginAllowed(old(View()), ref) then Some(old(sessions)[ref.id].generation) else None
    {
      if ref.id !in sessions || sessions[ref.id].ref != ref || sessions[ref.id].closing {
        return None;
      }
      sessions := sessions[ref.id := sessions[ref.id].(inflight := sessions[ref.id].inflight + 1)];
      return Some(sessions[ref.id].generation);
    }

    /** `closed` is the channel this call closes, waking the fencer parked on it. */
    method End(ref: SessionRef, generation: nat) returns (closed: Option<Channel>)
      modifies this`sessions
      ensures View() == Ended(old(View()), ref, generation)
      ensures closed == ChannelClosedByEnd(old(View()), ref, generation)
    {
      closed := None;
      if ref.id !in sessions || sessions[ref.id].ref != ref || sessions[ref.id].generation != generation ||
         sessions[ref.id].inflight == 0 {
        return;
      }
      sessions := sessions[ref.id := sessions[ref.id].(inflight := sessions[ref.id].inflight - 1)];
      var value := sessions[ref.id];
      if value.closing && value.inflight == 0 && value.drained.Some? {
        closed := value.drained;
        sessions := sessions[ref.id := value.(drained := None)];
      }
    }

    /** First half of `fenceClose`: `wait` is the channel to park on when work is in flight. */
    method FenceEnter(ref: SessionRef, channel: Channel) returns (entered: bool, wait: Option<Channel>)
      modifies this`sessions
      ensures View() == FenceEntered(old(View()), ref, channel)
      ensures entered <==> BeginAllowed(old(View()), ref)
      ensures wait.Some? <==> entered && old(sessions)[ref.id].inflight > 0
      ensures wait.Some? ==> wait.value == channel
    {
      wait := None;
      if ref.id !in sessions || sessions[ref.id].ref != ref || sessions[ref.id].closing {
        return false, None;
      }
      sessions := sessions[ref.id := sessions[ref.id].(closing := true)];
      if sessions[ref.id].inflight > 0 {
        sessions := sessions[ref.id := sessions[ref.id].(drained := Some(channel))];
        wait := Some(channel);
      }
      return true, wait;
    }

    /** Second half of `fenceClose`, after the drain. */
    method FenceFinish(ref: SessionRef) returns (result: Option<Assessment>)
      modifies this`sessions
      ensures View() == FenceFinished(old(View()), ref)
      ensures result == if FenceHolds(old(View()), ref) then Some(Assess(old(sessions)[ref.id])) else None
    {
      if ref.id !in sessions || sessions[ref.id].ref != ref || !sessions[ref.id].closing ||
        sessions[ref.id].inflight != 0 {
        return None;
      }
      sessions := sessions[ref.id := sessions[ref.id].(generation := sessions[ref.id].generation + 1)];
      return Some(Assess(sessions[ref.id]));
    }

    method RollbackClose(ref: SessionRef)
      modifies this`sessions
      ensures View() == CloseRolledBack(old(View()), ref)
    {
      if ref.id in sessions && sessions[ref.id].ref == ref {
        sessions := sessions[ref.id := sessions[ref.id].(closing := false, drained := None)];
      }
    }

    /** Hands back a copy of the detached session; a session that is not fenced is no failure. */
    method Detach(ref: SessionRef, saved: bool) returns (copy: Option<Session>, failed: bool)
      modifies this
      ensures View() == Detached(old(View()), ref, saved)
      ensures copy == if FenceHolds(old(View()), ref) && saved then Some(old(sessions)[ref.id]) else None
      ensures failed <==> FenceHolds(old(View()), ref) && !saved
    {
      if ref.id !in sessions || sessions[ref.id].ref != ref || !sessions[ref.id].closing ||
        sessions[ref.id].inflight != 0 {
        return None, false;
      }
      var value := sessions[ref.id];
      var hadRecovery := value.project in state.recoveries;
      var recovery := Looked(state.recoveries, value.project, ZERO_RECOVERY);
      sessions := sessions - {ref.id};
      byProject := byProject - {value.project};
      state := state.(recoveries := state.recoveries - {value.project});
      SaveLocked(saved);
      if !saved {
        sessions := sessions[ref.id := value];
        byProject := byProject[value.project := ref.id];
        if hadRecovery {
          state := state.(recoveries := state.recoveries[value.project := recovery]);
        }
        assert state.recoveries == old(state.recoveries) && sessions == old(sessions);
        assert byProject == old(byProject)[value.project := ref.id];
        return None, true;
      }
      return Some(value), false;
    }

    method Restore(value: Session, now: nat, saved: bool) returns (ok: bool)
      modifies this
      ensures View() == Restored(old(View()), value, now, saved)
      ensures ok <==> RestoreAllowed(old(View()), value) && saved
    {
      if value.ref.id in sessions || (value.project in byProject && byProject[value.project] != EMPTY) {
        return false;
      }
      sessions := sessions[value.ref.id := Reopened(value)];
      byProject := byProject[value.project := value.ref.id];
      state := state.(recoveries := state.recoveries[value.project := Projection(value, Some(now))]);
      SaveLocked(saved);
      if !saved {
        sessions := sessions - {value.ref.id};
        byProject := byProject - {value.project};
        state := state.(recoveries := state.recoveries - {value.project});
        assert sessions == old(sessions) - {value.ref.id} && byProject == old(byProject) - {value.project};
        assert state.recoveries == old(state.recoveries) - {value.project};
      }
      return saved;
    }

    /** An unknown project is nothing to mark, and no error. */
    method MarkMissing(project: ProjectId, missing: bool, saved: bool) returns (ok: bool)
      modifies this
      ensures View() == ProjectUpdated(old(View()), project,
                                       Looked(old(state).projects, project, ZERO_PROJECT).(missing := missing), saved)
      ensures ok <==> project !in old(state).projects || saved
    {
      if project !in state.projects {
        return true;
      }
      var prior := state.projects[project];
      state := state.(projects := state.projects[project := prior.(missing := missing)]);
      SaveLocked(saved);
      if !saved {
        state := state.(projects := state.projects[project := prior]);
        assert state.projects == old(state.projects);
      }
      return saved;
    }

    /** An unknown project cannot be pinned. */
    method Pin(project: ProjectId, pinned: bool, saved: bool) returns (ok: bool)
      modifies this
      ensures View() == ProjectUpdated(old(View()), project,
                                       Looked(old(state).projects, project, ZERO_PROJECT).(pinned := pinned), saved)
      ensures ok <==> project in old(state).projects && saved
    {
      if project !in state.projects {
        return false;
      }
      var prior := state.projects[project];
      state := state.(projects := state.projects[project := prior.(pinned := pinned)]);
      SaveLocked(saved);
      if !saved {
        state := state.(projects := state.projects[project := prior]);
        assert state.projects == old(state.projects);
      }
      return saved;
    }

    method DiscardRecovery(project: ProjectId, saved: bool) returns (ok: bool)
      modifies this
      ensures View() == RecoveryDiscarded(old(View()), project, saved)
      ensures ok <==> project in old(state).recoveries && saved
    {
      if project !in state.recoveries {
        return false;
      }
      var prior := state.recoveries[project];
      state := state.(recoveries := state.recoveries - {project});
      SaveLocked(saved);
      if !saved {
        state := state.(recoveries := state.recoveries[project := prior]);
        assert state.recoveries == old(state.recoveries);
      }
      return saved;
    }

    /** The candidates offered after a restart: one for each record of a project that is not open. */
    method Recoveries() returns (result: seq<RecoveryCandidate>)
      requires forall key :: key in state.recoveries ==> state.recoveries[key].project == key
      ensures forall key :: key in state.recoveries && key !in byProject <==>
                exists i :: 0 <= i < |result| && result[i].project == key
      ensures forall i :: 0 <= i < |result| ==>
                result[i].project in state.recoveries && result[i] == Candidate(state.recoveries[result[i].project])
      ensures forall i, j :: 0 <= i < j < |result| ==> result[i].project != result[j].project
    {
      result := [];
      var pending := state.recoveries.Keys;
      while pending != {}
        invariant pending <= state.recoveries.Keys
        invariant forall key :: key in state.recoveries.Keys - pending && key !in byProject ==>
                    exists i :: 0 <= i < |result| && result[i].project == key
        invariant forall i :: 0 <= i < |result| ==>
                    && result[i].project in state.recoveries.Keys - pending && result[i].project !in byProject
                    && result[i] == Candidate(state.recoveries[result[i].project])
        invariant forall i, j :: 0 <= i < j < |result| ==> result[i].project != result[j].project
        decreases |pending|
      {
        var key :| key in pending;
        pending := pending - {key};
        if key !in byProject {
          ghost var before := result;
          result := result + [Candidate(state.recoveries[key])];
          assert result[|before|].project == key;
          assert forall i :: 0 <= i < |before| ==> result[i] == before[i];
        }
      }
    }
  }
}
