/**
 * Two limits of recovery: the loader refuses a file that is too long or lists too much, which no save looks at,
 * and opening a project replaces the record that recovering it would need.
 */
module CrashLimits {
  import opened FiniteSets
  import opened Options
  import opened Lifecycle
  import opened LifecycleProtocol
  import opened CrashRecovery
  import Shutdown

  // ----- What a section writes ----------------------------------------------------------------

  function EditedState(reg: Registry, ref: SessionRef, generation: nat, edit: Edit, now: nat): Option<Persisted> {
    if !MutateAllowed(reg, ref, generation) then None
    else
      var s := reg.sessions[ref.id];
      Some(SyncRecovery(reg.state, s.(work := ApplyEdit(edit, s.work)), now))
  }

  /** The state a section is about to save, if it saves at all. */
  function Attempted(w: World, s: Step): Option<Persisted>
    requires Enabled(w, s)
  {
    var reg := w.reg;
    match s
    case Open(ref, revision, pending, name, location, now, _) =>
      if Existing(reg, ref.document).Some? then None
      else Some(OpenedState(reg.state, ref, revision, pending, name, location, now))
    case EditFree(ref, edit, now, _) => EditedState(reg, ref, 0, edit, now)
    case EditHeld(t, edit, now, _) => EditedState(reg, w.tokens[t].ref, w.tokens[t].generation, edit, now)
    case Schedule(t, scheduled, payload, now, _) =>
      EditedState(reg, w.tokens[t].ref, w.tokens[t].generation, ScheduleEdit(scheduled, payload), now)
    case Complete(t, result, now, _) =>
      var token := w.tokens[t];
      if !CompletionCurrent(reg, token.ref, token.generation, token.holder.autosaveGeneration) then None
      else
        var n := reg.sessions[token.ref.id];
        Some(SyncRecovery(reg.state, n.(work := ApplyEdit(CompleteAutosaveEdit(result), n.work)), now))
    case Recover(ref, record, revision, now, _) =>
      EditedState(reg, ref, 0, RecoverEdit(record.(revision := revision)), now)
    case Detach(f, _) =>
      if !FenceHolds(reg, w.fences[f].ref) then None
      else Some(reg.state.(recoveries := reg.state.recoveries - {reg.sessions[w.fences[f].ref.id].project}))
    case Restore(f, now, _) =>
      var copy := w.detached[f];
      if !RestoreAllowed(reg, copy) then None
      else Some(reg.state.(recoveries := reg.state.recoveries[copy.project := Projection(copy, Some(now))]))
    case UpdateProject(project, pinned, missing, _) =>
      if project !in reg.state.projects then None
      else
        var record := reg.state.projects[project].(pinned := pinned, missing := missing);
        Some(reg.state.(projects := reg.state.projects[project := record]))
    case DiscardRecovery(project, _) =>
      if project !in reg.state.recoveries then None
      else Some(reg.state.(recoveries := reg.state.recoveries - {project}))
    case _ => None
  }

  predicate SaveWorks(s: Step) {
    match s
    case Open(_, _, _, _, _, _, saved) => saved
    case EditFree(_, _, _, saved) => saved
    case EditHeld(_, _, _, saved) => saved
    case Schedule(_, _, _, _, saved) => saved
    case Complete(_, _, _, saved) => saved
    case Recover(_, _, _, _, saved) => saved
    case Detach(_, saved) => saved
    case Restore(_, _, saved) => saved
    case UpdateProject(_, _, _, saved) => saved
    case DiscardRecovery(_, saved) => saved
    case _ => false
  }

  /** The file changes only by the save of the section, to the state it was about to save. */
  lemma FileIsAttempted(w: World, s: Step)
    requires Enabled(w, s)
    ensures Apply(w, s).reg.disk == if Attempted(w, s).Some? && SaveWorks(s) then Attempted(w, s).value else w.reg.disk
  {
    hide ApplyEdit, LoadableRecords;
  }

  // ----- The limits of the file ---------------------------------------------------------------

  predicate Opens(w: World, s: Step) {
    s.Open? && s.saved && Existing(w.reg, s.ref.document).None?
  }

  predicate Restores(w: World, s: Step)
    requires Enabled(w, s)
  {
    s.Restore? && s.saved && RestoreAllowed(w.reg, w.detached[s.f])
  }

  function AddedProjects(w: World, s: Step): set<ProjectId> {
    if Opens(w, s) then {s.ref.document} else {}
  }

  function AddedRecoveries(w: World, s: Step): set<ProjectId>
    requires Enabled(w, s)
  {
    if Opens(w, s) then {s.ref.document} else if Restores(w, s) then {w.detached[s.f].project} else {}
  }

  /** There is room for what the section adds to the two catalogues. */
  predicate RoomForEntries(w: World, s: Step)
    requires Enabled(w, s)
  {
    && |w.reg.disk.projects.Keys + AddedProjects(w, s)| <= MAX_LIFECYCLE_ENTRIES
    && |w.reg.disk.recoveries.Keys + AddedRecoveries(w, s)| <= MAX_LIFECYCLE_ENTRIES
  }

  /** What a section does to the names in the file: it adds those, and only removes recovery records. */
  ghost predicate KeysMove(w: World, s: Step, n: Registry)
    requires Enabled(w, s)
  {
    && n.disk.projects.Keys == w.reg.disk.projects.Keys + AddedProjects(w, s)
    && n.disk.recoveries.Keys <= w.reg.disk.recoveries.Keys + AddedRecoveries(w, s)
    && (AddedRecoveries(w, s) != {} ==> n.disk.recoveries.Keys == w.reg.disk.recoveries.Keys + AddedRecoveries(w, s))
  }

  lemma MutationMovesNoKey(reg: Registry, ref: SessionRef, generation: nat, edit: Edit, now: nat, saved: bool)
    requires RegistryDurable(reg)
    ensures var n := Mutated(reg, ref, generation, edit, now, saved);
            n.disk.projects.Keys == reg.disk.projects.Keys && n.disk.recoveries.Keys == reg.disk.recoveries.Keys
  {
    hide ApplyEdit;
    if MutateAllowed(reg, ref, generation) {
      assert Journaled(reg.state, reg.sessions[ref.id]);
    }
  }

  lemma EditMovesNoKey(w: World, s: Step)
    requires Durable(w) && Enabled(w, s) && IsEdit(s)
    ensures KeysMove(w, s, Apply(w, s).reg)
  {
    hide Mutated, RegistryDurable, HeldDurable, AutosaveCompleted;
    match s {
      case EditFree(ref, edit, now, saved) => MutationMovesNoKey(w.reg, ref, 0, edit, now, saved);
      case EditHeld(t, edit, now, saved) =>
        MutationMovesNoKey(w.reg, w.tokens[t].ref, w.tokens[t].generation, edit, now, saved);
      case Schedule(t, scheduled, payload, now, saved) =>
        MutationMovesNoKey(w.reg, w.tokens[t].ref, w.tokens[t].generation, ScheduleEdit(scheduled, payload), now,
                           saved);
      case Complete(t, result, now, saved) =>
        CompletionMovesNoKey(w.reg, w.tokens[t].ref, w.tokens[t].generation, w.tokens[t].holder.autosaveGeneration,
                             result, now, saved);
      case Recover(ref, record, revision, now, saved) =>
        MutationMovesNoKey(w.reg, ref, 0, RecoverEdit(record.(revision := revision)), now, saved);
    }
  }

  lemma CompletionMovesNoKey(reg: Registry, ref: SessionRef, generation: nat, autosaveGeneration: nat,
                             result: AutosaveResult, now: nat, saved: bool)
    requires RegistryDurable(reg)
    ensures var n := AutosaveCompleted(reg, ref, generation, autosaveGeneration, result, now, saved);
            n.disk.projects.Keys == reg.disk.projects.Keys && n.disk.recoveries.Keys == reg.disk.recoveries.Keys
  {
    hide ApplyEdit;
    if CompletionCurrent(reg, ref, generation, autosaveGeneration) {
      assert Journaled(reg.state, reg.sessions[ref.id]);
    }
  }

  lemma StepMovesKeys(w: World, s: Step)
    requires DrainInv(w) && Durable(w) && Enabled(w, s)
    ensures KeysMove(w, s, Apply(w, s).reg)
  {
    hide KeysMove, Durable, DrainInv, Apply, Enabled;
    if IsEdit(s) {
      EditMovesNoKey(w, s);
    } else if IsRegistration(s) {
      RegistrationMovesKeys(w, s);
    } else if IsCatalog(s) {
      DurableRegistry(w);
      CatalogMovesKeys(w, s);
    } else {
      QuietKeepsDisk(w, s);
      QuietMovesNoKey(w, s, Apply(w, s).reg);
    }
  }

  lemma DurableRegistry(w: World)
    requires Durable(w)
    ensures RegistryDurable(w.reg)
  {
  }

  lemma QuietKeepsDisk(w: World, s: Step)
    requires Enabled(w, s) && !IsEdit(s) && !IsRegistration(s) && !IsCatalog(s)
    ensures Apply(w, s).reg.disk == w.reg.disk
  {
    if !s.Crash? {
      OtherStepsAreUnwritten(w, s);
    }
  }

  lemma CatalogMovesKeys(w: World, s: Step)
    requires RegistryDurable(w.reg) && Enabled(w, s) && IsCatalog(s)
    ensures KeysMove(w, s, Apply(w, s).reg)
  {
    hide LoadableRecords, StateDurable, AllJournaled;
    assert w.reg.state.projects.Keys == w.reg.disk.projects.Keys &&
      w.reg.state.recoveries.Keys == w.reg.disk.recoveries.Keys;
  }

  lemma QuietMovesNoKey(w: World, s: Step, n: Registry)
    requires Enabled(w, s) && !s.Open? && !s.Restore? && n.disk == w.reg.disk
    ensures KeysMove(w, s, n)
  {
    hide Enabled;
  }

  lemma RegistrationMovesKeys(w: World, s: Step)
    requires DrainInv(w) && Durable(w) && Enabled(w, s) && IsRegistration(s)
    ensures KeysMove(w, s, Apply(w, s).reg)
  {
    hide DrainInv, HeldDurable, LoadableRecords, StateDurable, AllJournaled, KeysMove;
    SameKeys(w);
    match s {
      case Open(_, _, _, _, _, _, _) => OpenMovesKeys(w, s);
      case Detach(_, _) => DetachMovesKeys(w, s);
      case Restore(_, _, _) => RestoreMovesKeys(w, s);
    }
  }

  ghost predicate SameNames(reg: Registry) {
    reg.state.projects.Keys == reg.disk.projects.Keys && reg.state.recoveries.Keys == reg.disk.recoveries.Keys
  }

  lemma SameKeys(w: World)
    requires Durable(w)
    ensures SameNames(w.reg)
  {
  }

  lemma OpenMovesKeys(w: World, s: Step)
    requires SameNames(w.reg) && Enabled(w, s) && s.Open?
    ensures KeysMove(w, s, Apply(w, s).reg)
  {
  }

  lemma DetachMovesKeys(w: World, s: Step)
    requires SameNames(w.reg) && Enabled(w, s) && s.Detach?
    ensures KeysMove(w, s, Apply(w, s).reg)
  {
  }

  lemma RestoreMovesKeys(w: World, s: Step)
    requires SameNames(w.reg) && Enabled(w, s) && s.Restore?
    ensures KeysMove(w, s, Apply(w, s).reg)
  {
  }

  /** A file within the caps stays within them exactly when there is room for what the section adds. */
  lemma StepKeepsCapIff(w: World, s: Step)
    requires DrainInv(w) && Durable(w) && Enabled(w, s) && WithinCap(w.reg.disk)
    ensures WithinCap(Apply(w, s).reg.disk) <==> RoomForEntries(w, s)
  {
    hide DrainInv, Durable, Enabled, Apply, AddedProjects, AddedRecoveries;
    StepMovesKeys(w, s);
    var disk := Apply(w, s).reg.disk;
    assert |disk.projects| == |disk.projects.Keys| && |disk.recoveries| == |disk.recoveries.Keys|;
    assert |w.reg.disk.projects| == |w.reg.disk.projects.Keys| &&
      |w.reg.disk.recoveries| == |w.reg.disk.recoveries.Keys|;
    if AddedRecoveries(w, s) == {} {
      assert w.reg.disk.recoveries.Keys + AddedRecoveries(w, s) == w.reg.disk.recoveries.Keys;
      SubsetSize(disk.recoveries.Keys, w.reg.disk.recoveries.Keys);
    }
  }

  /** `bytes` is the length of the file a state is written as: the loader takes no file above a mebibyte. */
  predicate Fits(bytes: Persisted -> nat, disk: Persisted) {
    bytes(disk) <= MAX_FILE_BYTES && WithinCap(disk)
  }

  predicate RoomForBytes(bytes: Persisted -> nat, w: World, s: Step)
    requires Enabled(w, s)
  {
    Attempted(w, s).Some? && SaveWorks(s) ==> bytes(Attempted(w, s).value) <= MAX_FILE_BYTES
  }

  predicate Roomy(bytes: Persisted -> nat, w: World, s: Step)
    requires Enabled(w, s)
  {
    RoomForEntries(w, s) && RoomForBytes(bytes, w, s)
  }

  /** A file the loader takes is followed by one it takes exactly when there is room for what the section writes. */
  lemma StepFitsIff(bytes: Persisted -> nat, w: World, s: Step)
    requires DrainInv(w) && Durable(w) && Enabled(w, s) && Fits(bytes, w.reg.disk)
    ensures Fits(bytes, Apply(w, s).reg.disk) <==> Roomy(bytes, w, s)
  {
    hide DrainInv, Durable, Enabled, Apply, Attempted, RoomForEntries, WithinCap;
    StepKeepsCapIff(w, s);
    FileIsAttempted(w, s);
  }

  ghost predicate SafeRun(bytes: Persisted -> nat, first: World, steps: seq<Step>, last: World)
    decreases |steps|
  {
    if steps == [] then first == last
    else
      && Enabled(first, steps[0]) && Careful(first, steps[0]) && Roomy(bytes, first, steps[0])
      && SafeRun(bytes, Apply(first, steps[0]), steps[1..], last)
  }

  /** A crash that finds the file as it was written. */
  function CrashNow(bytes: Persisted -> nat, w: World): Step {
    Crash(bytes(w.reg.disk))
  }

  /** The program could be stopped at any point of the run and started again. */
  ghost predicate AlwaysReloads(bytes: Persisted -> nat, first: World, steps: seq<Step>)
    decreases |steps|
  {
    && Enabled(first, CrashNow(bytes, first))
    && (steps != [] ==> Enabled(first, steps[0]) && AlwaysReloads(bytes, Apply(first, steps[0]), steps[1..]))
  }

  /** Of the careful runs, exactly those that keep room never leave a file the loader refuses. */
  lemma {:induction false} SafeRunIffAlwaysReloads(bytes: Persisted -> nat, first: World, steps: seq<Step>, last: World)
    requires DrainInv(first) && Durable(first) && Fits(bytes, first.reg.disk) && CarefulRun(first, steps, last)
    ensures SafeRun(bytes, first, steps, last) <==> AlwaysReloads(bytes, first, steps)
    decreases |steps|
  {
    hide DrainInv, Durable, Apply, WithinCap, Roomy, Careful;
    DurableSurvivesCrash(first, bytes(first.reg.disk));
    if steps != [] {
      var next := Apply(first, steps[0]);
      StepFitsIff(bytes, first, steps[0]);
      StepKeepsDrainInv(first, steps[0]);
      StepKeepsDurableIff(first, steps[0]);
      DurableSurvivesCrash(next, bytes(next.reg.disk));
      if Fits(bytes, next.reg.disk) {
        SafeRunIffAlwaysReloads(bytes, next, steps[1..], last);
      } else {
        assert !AlwaysReloads(bytes, next, steps[1..]);
      }
    }
  }

  /**
   * After a safe run from any file the loader takes, a crash reloads a candidate with the latest work of every open
   * project.
   */
  lemma SafeRunOffersEveryOpenProject(bytes: Persisted -> nat, file: Persisted, steps: seq<Step>, w: World)
    requires LoadableRecords(file) && Fits(bytes, file) && SafeRun(bytes, Started(file), steps, w)
    ensures Enabled(w, CrashNow(bytes, w)) && OffersEveryOpenProject(w, Apply(w, CrashNow(bytes, w)).reg)
  {
    hide DrainInv, Durable;
    StartIsDurable(file);
    SafeRunIsCareful(bytes, Started(file), steps, w);
    SafeRunStaysFitting(bytes, Started(file), steps, w);
    CrashOffersEveryOpenProject(file, steps, w, bytes(w.reg.disk));
  }

  lemma StartIsDurable(file: Persisted)
    requires LoadableRecords(file)
    ensures DrainInv(Started(file)) && Durable(Started(file))
  {
    NothingOpenIsInv(Started(file));
    ReloadedIsDurable(file);
  }

  lemma {:induction false} SafeRunIsCareful(bytes: Persisted -> nat, first: World, steps: seq<Step>, last: World)
    requires SafeRun(bytes, first, steps, last)
    ensures CarefulRun(first, steps, last)
    decreases |steps|
  {
    hide Apply, Enabled, Careful, Roomy;
    if steps != [] {
      SafeRunIsCareful(bytes, Apply(first, steps[0]), steps[1..], last);
    }
  }

  lemma {:induction false} SafeRunStaysFitting(bytes: Persisted -> nat, first: World, steps: seq<Step>, last: World)
    requires DrainInv(first) && Durable(first) && Fits(bytes, first.reg.disk) && SafeRun(bytes, first, steps, last)
    ensures Fits(bytes, last.reg.disk)
    decreases |steps|
  {
    hide DrainInv, Durable, Apply, Enabled, Careful, Roomy, Fits;
    if steps != [] {
      StepFitsIff(bytes, first, steps[0]);
      StepKeepsDrainInv(first, steps[0]);
      StepKeepsDurableIff(first, steps[0]);
      SafeRunStaysFitting(bytes, Apply(first, steps[0]), steps[1..], last);
    }
  }

  /** No project ever leaves the catalogue, so a catalogue above its cap never loads again. */
  lemma {:induction false} ProjectsNeverLeave(first: World, steps: seq<Step>, last: World)
    requires DrainInv(first) && Durable(first) && CarefulRun(first, steps, last)
    ensures first.reg.disk.projects.Keys <= last.reg.disk.projects.Keys
    ensures |first.reg.disk.projects| > MAX_LIFECYCLE_ENTRIES ==> forall size :: !Enabled(last, Crash(size))
    decreases |steps|
  {
    hide DrainInv, Durable, Apply, Careful;
    if steps != [] {
      StepMovesKeys(first, steps[0]);
      StepKeepsDrainInv(first, steps[0]);
      StepKeepsDurableIff(first, steps[0]);
      ProjectsNeverLeave(Apply(first, steps[0]), steps[1..], last);
    }
    SubsetSize(first.reg.disk.projects.Keys, last.reg.disk.projects.Keys);
    assert |first.reg.disk.projects.Keys| == |first.reg.disk.projects|;
    assert |last.reg.disk.projects.Keys| == |last.reg.disk.projects|;
  }

  function Catalogue(n: nat): map<ProjectId, ProjectRecord> {
    map p | 1 <= p <= n :: ProjectRecord(p, EMPTY, EMPTY, false, Some(0), false)
  }

  lemma {:induction false} CatalogueSize(n: nat)
    ensures |Catalogue(n).Keys| == n
    decreases n
  {
    if n > 0 {
      CatalogueSize(n - 1);
      assert Catalogue(n).Keys == Catalogue(n - 1).Keys + {n};
    }
  }

  lemma OverflowsAtCap(file: Persisted, document: ProjectId) returns (w: World)
    requires LoadableRecords(file) && WithinCap(file) && |file.projects| == MAX_LIFECYCLE_ENTRIES
    requires document != EMPTY && document !in file.projects
    ensures Reachable(w) && LoadableRecords(w.reg.disk) && forall size :: !Enabled(w, Crash(size))
  {
    hide DrainInv, Durable, Reachable;
    var first := Started(file);
    var s := Open(SessionRef(1, document, EMPTY), 9, false, EMPTY, EMPTY, 5, true);
    StartIsDurable(file);
    StartIsReachable(file);
    w := Taken(first, s);
    StepKeepsCapIff(first, s);
    StepKeepsDurableIff(first, s);
    forall size ensures !Enabled(w, Crash(size)) {
      DurableSurvivesCrash(w, size);
    }
    DurableLoads(w);
    assert file.projects.Keys + {document} == file.projects.Keys + AddedProjects(first, s);
    assert |file.projects.Keys| == |file.projects|;
  }

  lemma DurableLoads(w: World)
    requires Durable(w)
    ensures LoadableRecords(w.reg.disk)
  {
  }

  lemma StartIsReachable(file: Persisted)
    requires LoadableRecords(file) && WithinCap(file)
    ensures Reachable(Started(file))
  {
    assert Run(Started(file), [], Started(file));
  }

  /** A run: a file at its cap loads, one more project is opened, and the file does not load again. */
  lemma FullCatalogueOverflows() returns (w: World)
    ensures Reachable(w) && LoadableRecords(w.reg.disk) && forall size :: !Enabled(w, Crash(size))
  {
    hide Reachable, Enabled;
    var file := Persisted(Catalogue(MAX_LIFECYCLE_ENTRIES), map[]);
    CatalogueSize(MAX_LIFECYCLE_ENTRIES);
    assert |file.projects| == |file.projects.Keys|;
    w := OverflowsAtCap(file, MAX_LIFECYCLE_ENTRIES + 1);
  }

  // ----- A run to a file that is too long -------------------------------------------------------

  /** The bytes of the artifacts that the listed projects have on file. */
  function ArtifactBytes(disk: Persisted, listed: seq<ProjectId>): nat {
    if listed == [] then 0
    else
      var p := listed[|listed| - 1];
      ArtifactBytes(disk, listed[..|listed| - 1])
      + if p in disk.recoveries && disk.recoveries[p].recovery.Some? then
        disk.recoveries[p].recovery.value.content.size else 0
  }

  /** A written file holds the artifacts it lists. */
  ghost predicate HoldsArtifacts(bytes: Persisted -> nat) {
    forall disk, listed :: (forall i, j :: 0 <= i < j < |listed| ==> listed[i] != listed[j]) ==>
      ArtifactBytes(disk, listed) <= bytes(disk)
  }

  const LARGE := Artifact(EditorState, Payload(7, MAX_RECOVERY_PAYLOAD_BYTES))

  /** Projects 1 to `n` are open, each with one artifact of the largest size. */
  ghost predicate LargelyEdited(reg: Registry, n: nat) {
    && reg.disk == reg.state && reg.sessions.Keys == reg.byProject.Keys == Catalogue(n).Keys
    && reg.disk.recoveries.Keys == Catalogue(n).Keys && reg.disk.projects.Keys == Catalogue(n).Keys
    && (forall p :: p in reg.sessions ==> reg.sessions[p].ref == SessionRef(p, p, EMPTY) && !reg.sessions[p].closing)
    && forall p :: p in reg.disk.recoveries ==> reg.disk.recoveries[p].recovery == Some(LARGE)
  }

  /** One more project is open, and nothing else changed. */
  ghost predicate OneMore(reg: Registry, n: Registry, p: ProjectId) {
    && n.disk == n.state && n.sessions == reg.sessions[p := NewSession(SessionRef(p, p, EMPTY), 9, false)]
    && n.byProject == reg.byProject[p := p]
    && n.disk.projects.Keys == reg.disk.projects.Keys + {p} && n.disk.recoveries.Keys == reg.disk.recoveries.Keys + {p}
    && forall q :: q in reg.disk.recoveries ==> n.disk.recoveries[q] == reg.disk.recoveries[q]
  }

  ghost predicate Sound(w: World) {
    DrainInv(w) && Durable(w) && Reachable(w)
  }

  lemma NoneEdited() returns (w: World)
    ensures Sound(w) && LargelyEdited(w.reg, 0)
  {
    w := Started(EMPTY_STATE);
    EmptyStartIsReachable();
    StartIsDurable(EMPTY_STATE);
    assert Reloaded(EMPTY_STATE).recoveries == map[];
  }

  /** A careful section from a sound world leads to a sound world. */
  lemma SoundlyTaken(w: World, s: Step) returns (n: World)
    requires Sound(w) && Enabled(w, s) && Careful(w, s)
    ensures n == Apply(w, s) && Sound(n)
  {
    hide DrainInv, Durable, Reachable, Careful, Apply, Enabled;
    StepKeepsDrainInv(w, s);
    StepKeepsDurableIff(w, s);
    n := Taken(w, s);
  }

  lemma OpenOneMore(before: World, n: nat) returns (w: World)
    requires Sound(before) && LargelyEdited(before.reg, n)
    ensures Sound(w) && OneMore(before.reg, w.reg, n + 1)
  {
    hide Sound, Catalogue;
    NextIsNew(n);
    w := SoundlyTaken(before, Open(SessionRef(n + 1, n + 1, EMPTY), 9, false, EMPTY, EMPTY, 5, true));
  }

  lemma NextIsNew(n: nat)
    ensures n + 1 !in Catalogue(n) && Catalogue(n + 1).Keys == Catalogue(n).Keys + {n + 1}
  {
  }

  /** The one session of project `p` was given the large artifact, and nothing else changed. */
  ghost predicate Landed(reg: Registry, n: Registry, p: ProjectId)
    requires p in reg.sessions
  {
    && n.disk == n.state && n.byProject == reg.byProject && n.disk.projects == reg.state.projects
    && p in n.sessions && n.sessions == reg.sessions[p := n.sessions[p]]
    && n.sessions[p].ref == reg.sessions[p].ref && n.sessions[p].closing == reg.sessions[p].closing
    && p in n.disk.recoveries && n.disk.recoveries == reg.state.recoveries[p := n.disk.recoveries[p]]
    && n.disk.recoveries[p].recovery == Some(LARGE)
  }

  lemma LargeEditLands(reg: Registry, ref: SessionRef)
    requires Registered(reg, ref) && !reg.sessions[ref.id].closing && reg.sessions[ref.id].project == ref.id
    ensures Landed(reg, Mutated(reg, ref, 0, EphemeralEdit(true, Some(LARGE)), 6, true), ref.id)
  {
  }

  lemma OneMoreKeys(before: Registry, reg: Registry, n: nat)
    requires LargelyEdited(before, n) && OneMore(before, reg, n + 1)
    ensures reg.sessions.Keys == reg.byProject.Keys == Catalogue(n + 1).Keys
    ensures reg.disk.recoveries.Keys == reg.disk.projects.Keys == Catalogue(n + 1).Keys
  {
    hide Catalogue;
    NextIsNew(n);
  }

  lemma LandedKeys(reg: Registry, m: Registry, p: ProjectId)
    requires p in reg.sessions && reg.disk == reg.state && p in reg.disk.recoveries && Landed(reg, m, p)
    ensures m.disk == m.state && m.sessions.Keys == reg.sessions.Keys && m.byProject == reg.byProject
    ensures m.disk.projects.Keys == reg.disk.projects.Keys && m.disk.recoveries.Keys == reg.disk.recoveries.Keys
  {
  }

  lemma LandedSession(before: Registry, reg: Registry, m: Registry, n: nat, p: ProjectId)
    requires LargelyEdited(before, n) && OneMore(before, reg, n + 1)
    requires n + 1 in reg.sessions && Landed(reg, m, n + 1) && p in m.sessions
    ensures m.sessions[p].ref == SessionRef(p, p, EMPTY) && !m.sessions[p].closing
  {
    hide Catalogue;
  }

  lemma LandedRecord(before: Registry, reg: Registry, m: Registry, n: nat, p: ProjectId)
    requires LargelyEdited(before, n) && OneMore(before, reg, n + 1)
    requires n + 1 in reg.sessions && Landed(reg, m, n + 1) && p in m.disk.recoveries
    ensures m.disk.recoveries[p].recovery == Some(LARGE)
  {
    hide Catalogue;
    if p != n + 1 {
      assert m.disk.recoveries[p] == reg.disk.recoveries[p];
      assert p in before.disk.recoveries;
    }
  }

  lemma LandedAddsOne(before: Registry, reg: Registry, m: Registry, n: nat)
    requires LargelyEdited(before, n) && OneMore(before, reg, n + 1)
    requires reg.sessions.Keys == reg.byProject.Keys == Catalogue(n + 1).Keys
    requires reg.disk.recoveries.Keys == reg.disk.projects.Keys == Catalogue(n + 1).Keys
    requires n + 1 in reg.sessions && reg.disk == reg.state && n + 1 in reg.disk.recoveries && Landed(reg, m, n + 1)
    ensures LargelyEdited(m, n + 1)
  {
    hide Catalogue, Landed, OneMore;
    LandedKeys(reg, m, n + 1);
    forall p | p in m.sessions ensures m.sessions[p].ref == SessionRef(p, p, EMPTY) && !m.sessions[p].closing {
      LandedSession(before, reg, m, n, p);
    }
    forall p | p in m.disk.recoveries ensures m.disk.recoveries[p].recovery == Some(LARGE) {
      LandedRecord(before, reg, m, n, p);
    }
  }

  lemma LargeEditAddsOne(before: Registry, reg: Registry, n: nat)
    requires LargelyEdited(before, n) && OneMore(before, reg, n + 1)
    ensures Registered(reg, SessionRef(n + 1, n + 1, EMPTY))
    ensures LargelyEdited(Mutated(reg, SessionRef(n + 1, n + 1, EMPTY), 0, EphemeralEdit(true, Some(LARGE)), 6, true),
                          n + 1)
  {
    hide Mutated, Catalogue, Landed, LargelyEdited;
    OneMoreKeys(before, reg, n);
    LargeEditLands(reg, SessionRef(n + 1, n + 1, EMPTY));
    LandedAddsOne(before, reg, Mutated(reg, SessionRef(n + 1, n + 1, EMPTY), 0, EphemeralEdit(true, Some(LARGE)), 6,
                                       true), n);
  }

  lemma EditOneMore(before: Registry, started: World, n: nat) returns (w: World)
    requires LargelyEdited(before, n) && Sound(started) && OneMore(before, started.reg, n + 1)
    ensures Sound(w) && LargelyEdited(w.reg, n + 1)
  {
    hide Sound, Mutated, LargelyEdited, OneMore;
    LargeEditAddsOne(before, started.reg, n);
    w := SoundlyTaken(started, EditFree(SessionRef(n + 1, n + 1, EMPTY), EphemeralEdit(true, Some(LARGE)), 6, true));
  }

  lemma {:induction false} ManyEdited(n: nat) returns (w: World)
    ensures Sound(w) && LargelyEdited(w.reg, n)
    decreases n
  {
    hide LargelyEdited, Sound, OneMore;
    if n == 0 {
      w := NoneEdited();
    } else {
      var before := ManyEdited(n - 1);
      var more := OpenOneMore(before, n - 1);
      w := EditOneMore(before.reg, more, n - 1);
    }
  }

  lemma LargeFile(reg: Registry, n: nat)
    requires LargelyEdited(reg, n)
    ensures |reg.disk.projects| == n && |reg.disk.recoveries| == n
    ensures forall p :: 1 <= p <= n ==> p in reg.disk.recoveries && reg.disk.recoveries[p].recovery == Some(LARGE)
  {
    CatalogueSize(n);
    assert |reg.disk.projects| == |reg.disk.projects.Keys| && |reg.disk.recoveries| == |reg.disk.recoveries.Keys|;
    forall p | 1 <= p <= n ensures p in Catalogue(n) {
    }
  }

  /**
   * A run: five projects are opened and edited, each step careful and within the entry caps, and the file is too
   * long to load.
   */
  lemma FiveLargeEditsOverflow(bytes: Persisted -> nat) returns (w: World)
    requires HoldsArtifacts(bytes)
    ensures Reachable(w) && Durable(w) && LoadableRecords(w.reg.disk) && WithinCap(w.reg.disk)
    ensures !Enabled(w, CrashNow(bytes, w))
  {
    hide DrainInv, Durable, Reachable, LargelyEdited;
    w := ManyEdited(5);
    DurableLoads(w);
    LargeFile(w.reg, 5);
    LargeArtifactsAddUp(w.reg.disk, [1, 2, 3, 4, 5]);
  }

  lemma {:induction false} LargeArtifactsAddUp(disk: Persisted, listed: seq<ProjectId>)
    requires forall p :: p in listed ==> p in disk.recoveries && disk.recoveries[p].recovery == Some(LARGE)
    ensures ArtifactBytes(disk, listed) == |listed| * MAX_RECOVERY_PAYLOAD_BYTES
    decreases |listed|
  {
    if listed != [] {
      LargeArtifactsAddUp(disk, listed[..|listed| - 1]);
    }
  }

  // ----- The artifact of a project that is not open ---------------------------------------------

  /** The file offers the artifact for the project. */
  predicate Offers(disk: Persisted, project: ProjectId, artifact: Artifact) {
    project in disk.recoveries && disk.recoveries[project].recovery == Some(artifact)
  }

  /** The sections that replace or drop the record of a project that is not open. */
  predicate Forgets(w: World, s: Step, project: ProjectId) {
    || (Opens(w, s) && s.ref.document == project)
    || (s.DiscardRecovery? && s.saved && s.project == project)
  }

  ghost predicate Waiting(w: World, project: ProjectId, artifact: Artifact) {
    project in Orphans(w.reg) && Offers(w.reg.disk, project, artifact)
  }

  lemma MutationKeepsOffer(reg: Registry, ref: SessionRef, generation: nat, edit: Edit, now: nat, saved: bool,
                           project: ProjectId, artifact: Artifact)
    requires Mirrored(reg) && RegistryDurable(reg) && project in Orphans(reg) && Offers(reg.disk, project, artifact)
    ensures var n := Mutated(reg, ref, generation, edit, now, saved);
            project in Orphans(n) && Offers(n.disk, project, artifact)
  {
    hide ApplyEdit, LoadableRecords, StateDurable, AllJournaled;
    MutateAddsNoOrphan(reg, ref, generation, edit, now, saved);
  }

  lemma CompletionKeepsOffer(reg: Registry, ref: SessionRef, generation: nat, autosaveGeneration: nat,
                             result: AutosaveResult, now: nat, saved: bool, project: ProjectId, artifact: Artifact)
    requires Mirrored(reg) && RegistryDurable(reg) && project in Orphans(reg) && Offers(reg.disk, project, artifact)
    ensures var n := AutosaveCompleted(reg, ref, generation, autosaveGeneration, result, now, saved);
            project in Orphans(n) && Offers(n.disk, project, artifact)
  {
    hide ApplyEdit, LoadableRecords, StateDurable, AllJournaled;
  }

  lemma EditKeepsOffer(w: World, s: Step, project: ProjectId, artifact: Artifact)
    requires Mirrored(w.reg) && RegistryDurable(w.reg) && Enabled(w, s) && IsEdit(s) && Waiting(w, project, artifact)
    ensures Waiting(Apply(w, s), project, artifact)
  {
    hide Mutated, RegistryDurable, AutosaveCompleted, Offers, Mirrored, Orphans;
    match s {
      case EditFree(ref, edit, now, saved) => MutationKeepsOffer(w.reg, ref, 0, edit, now, saved, project, artifact);
      case EditHeld(t, edit, now, saved) =>
        MutationKeepsOffer(w.reg, w.tokens[t].ref, w.tokens[t].generation, edit, now, saved, project, artifact);
      case Schedule(t, scheduled, payload, now, saved) =>
        MutationKeepsOffer(w.reg, w.tokens[t].ref, w.tokens[t].generation, ScheduleEdit(scheduled, payload), now,
                           saved, project, artifact);
      case Complete(t, result, now, saved) =>
        CompletionKeepsOffer(w.reg, w.tokens[t].ref, w.tokens[t].generation, w.tokens[t].holder.autosaveGeneration,
                             result, now, saved, project, artifact);
      case Recover(ref, record, revision, now, saved) =>
        MutationKeepsOffer(w.reg, ref, 0, RecoverEdit(record.(revision := revision)), now, saved, project, artifact);
    }
  }

  lemma OpenKeepsOfferIff(w: World, s: Step, project: ProjectId, artifact: Artifact)
    requires Mirrored(w.reg) && RegistryDurable(w.reg) && Enabled(w, s) && s.Open? && Waiting(w, project, artifact)
    ensures Offers(Apply(w, s).reg.disk, project, artifact) <==> !Forgets(w, s, project)
    ensures Offers(Apply(w, s).reg.disk, project, artifact) ==> project in Orphans(Apply(w, s).reg)
  {
    hide LoadableRecords, StateDurable, AllJournaled;
    if Existing(w.reg, s.ref.document).None? && !s.saved {
      OpenedFailureIsNoop(w.reg, s.ref);
    }
  }

  lemma DetachKeepsOffer(w: World, s: Step, project: ProjectId, artifact: Artifact)
    requires Mirrored(w.reg) && RegistryDurable(w.reg) && Enabled(w, s) && s.Detach? && Waiting(w, project, artifact)
    ensures Waiting(Apply(w, s), project, artifact)
  {
    hide LoadableRecords, StateDurable, AllJournaled;
    if FenceHolds(w.reg, w.fences[s.f].ref) && !s.saved {
      assert w.reg.byProject[w.reg.sessions[w.fences[s.f].ref.id].project := w.fences[s.f].ref.id] == w.reg.byProject;
    }
  }

  lemma RestoreKeepsOffer(w: World, s: Step, project: ProjectId, artifact: Artifact)
    requires Mirrored(w.reg) && RegistryDurable(w.reg) && HeldDurable(w) && Enabled(w, s) && s.Restore? &&
             Waiting(w, project, artifact)
    ensures Waiting(Apply(w, s), project, artifact)
  {
    hide LoadableRecords, StateDurable, AllJournaled;
    assert CopyDurable(w.reg, w.detached[s.f]);
    if RestoreAllowed(w.reg, w.detached[s.f]) && !s.saved {
      RestoreFailureIsNoop(w.reg, w.detached[s.f], s.now);
    }
  }

  lemma CatalogKeepsOfferIff(w: World, s: Step, project: ProjectId, artifact: Artifact)
    requires RegistryDurable(w.reg) && Enabled(w, s) && (IsCatalog(s) || s.Crash?) && Waiting(w, project, artifact)
    ensures Offers(Apply(w, s).reg.disk, project, artifact) <==> !Forgets(w, s, project)
    ensures Offers(Apply(w, s).reg.disk, project, artifact) ==> project in Orphans(Apply(w, s).reg)
  {
    hide LoadableRecords, StateDurable, AllJournaled;
  }

  /**
   * The artifact of a project that is not open stays on file exactly until the project is opened or its record
   * discarded.
   */
  lemma StepKeepsArtifactIff(w: World, s: Step, project: ProjectId, artifact: Artifact)
    requires DrainInv(w) && Durable(w) && Enabled(w, s) && Waiting(w, project, artifact)
    ensures Offers(Apply(w, s).reg.disk, project, artifact) <==> !Forgets(w, s, project)
    ensures Offers(Apply(w, s).reg.disk, project, artifact) ==> Waiting(Apply(w, s), project, artifact)
  {
    hide Apply, Enabled, RegistryDurable, Orphans, Offers, Inv;
    DrainedIsMirrored(w);
    if IsEdit(s) {
      EditKeepsOffer(w, s, project, artifact);
    } else if IsRegistration(s) {
      match s {
        case Open(_, _, _, _, _, _, _) => OpenKeepsOfferIff(w, s, project, artifact);
        case Detach(_, _) => DetachKeepsOffer(w, s, project, artifact);
        case Restore(_, _, _) => RestoreKeepsOffer(w, s, project, artifact);
      }
    } else if IsCatalog(s) || s.Crash? {
      CatalogKeepsOfferIff(w, s, project, artifact);
    } else {
      OtherStepsAreUnwritten(w, s);
      UnwrittenKeepsOffer(w, Apply(w, s), project, artifact);
    }
  }

  lemma DrainedIsMirrored(w: World)
    requires DrainInv(w)
    ensures Mirrored(w.reg)
  {
  }

  lemma UnwrittenKeepsOffer(w: World, n: World, project: ProjectId, artifact: Artifact)
    requires Unwritten(w.reg, n.reg) && Waiting(w, project, artifact)
    ensures Waiting(n, project, artifact)
  {
  }

  ghost predicate NeverForgets(first: World, steps: seq<Step>, project: ProjectId)
    decreases |steps|
  {
    steps != [] ==>
      Enabled(first, steps[0]) && !Forgets(first, steps[0], project) &&
        NeverForgets(Apply(first, steps[0]), steps[1..], project)
  }

  /** So it survives any careful run, crashes included, in which neither happens. */
  lemma {:induction false} RunKeepsArtifact(first: World, steps: seq<Step>, last: World, project: ProjectId,
                                            artifact: Artifact)
    requires DrainInv(first) && Durable(first) && CarefulRun(first, steps, last) && NeverForgets(first, steps, project)
    requires Waiting(first, project, artifact)
    ensures Waiting(last, project, artifact)
    decreases |steps|
  {
    hide DrainInv, Durable, Apply, Enabled, Careful, Forgets;
    if steps != [] {
      StepKeepsArtifactIff(first, steps[0], project, artifact);
      StepKeepsDrainInv(first, steps[0]);
      StepKeepsDurableIff(first, steps[0]);
      RunKeepsArtifact(Apply(first, steps[0]), steps[1..], last, project, artifact);
    }
  }

  // ----- Recovering a project -------------------------------------------------------------------

  /** What closing the freshly opened project answers. */
  datatype Closing = Closing(known: bool, saved: bool, closes: bool, restored: bool)

  /** `CloseProject` on a session that nobody else uses: fence it, judge it, then close it or give the fence back. */
  function ProjectClosed(r: Registry, ref: SessionRef, now: nat, closing: Closing): Registry
    requires BeginAllowed(r, ref) && r.sessions[ref.id].inflight == 0
  {
    var fenced := FenceFinished(FenceEntered(r, ref, 0), ref);
    if !Assess(fenced.sessions[ref.id]).canClose then CloseRolledBack(fenced, ref)
    else Shutdown.CloseFinished(fenced, ref, closing.known, closing.saved, closing.closes, now, closing.restored)
  }

  /** `ResolveRecovery` with nothing in between: open, apply the record read before, and close again if that fails. */
  function Resolved(r: Registry, ref: SessionRef, record: RecoveryRecord, revision: Revision, pending: bool, now: nat,
                    openSaved: bool, applied: bool, closing: Closing): Registry
    requires ref.document !in r.byProject
  {
    var o := Opened(r, ref, revision, pending, EMPTY, EMPTY, now, openSaved);
    if !openSaved then o
    else
      var m := Mutated(o, ref, 0, RecoverEdit(record.(revision := revision)), now, applied);
      if applied then m else ProjectClosed(m, ref, now, closing)
  }

  /**
   * Recovering keeps the artifact on file exactly when the open fails or the recovery is saved. When the recovery
   * cannot be saved, the project is closed again, and closing it deletes the record.
   */
  lemma ResolvingKeepsArtifactIff(r: Registry, ref: SessionRef, artifact: Artifact, revision: Revision, pending: bool,
                                  now: nat, openSaved: bool, applied: bool, closing: Closing)
    requires Mirrored(r) && RegistryDurable(r) && ref.document in Orphans(r) && Offers(r.disk, ref.document, artifact)
    requires ref.id !in r.sessions
    ensures var record := r.state.recoveries[ref.document];
            var n := Resolved(r, ref, record, revision, pending, now, openSaved, applied, closing);
            && (Offers(n.disk, ref.document, artifact) <==> !openSaved || applied)
            && (openSaved && !applied && !pending && closing.known && closing.saved && closing.closes ==>
                  ref.document !in n.disk.recoveries && ref.id !in n.sessions)
  {
    hide LoadableRecords, StateDurable, AllJournaled, Mirrored;
    var record := r.state.recoveries[ref.document];
    var o := Opened(r, ref, revision, pending, EMPTY, EMPTY, now, openSaved);
    if openSaved {
      OpenedAlone(r, ref, revision, pending, now);
      if !applied {
        FailedWriteIsNoop(o, o.sessions[ref.id].(work := ApplyEdit(RecoverEdit(record.(revision := revision)),
                                                                   o.sessions[ref.id].work)), now);
        ClosedForgets(o, ref, pending, now, closing, artifact);
      }
    }
  }

  lemma OpenedAlone(r: Registry, ref: SessionRef, revision: Revision, pending: bool, now: nat)
    requires ref.document !in r.byProject && ref.id !in r.sessions
    ensures var o := Opened(r, ref, revision, pending, EMPTY, EMPTY, now, true);
            && BeginAllowed(o, ref) && o.sessions[ref.id] == NewSession(ref, revision, pending) && o.disk == o.state
            && ref.document in o.state.recoveries && o.state.recoveries[ref.document].recovery.None?
  {
  }

  lemma ClosedForgets(o: Registry, ref: SessionRef, pending: bool, now: nat, closing: Closing, artifact: Artifact)
    requires BeginAllowed(o, ref) && o.disk == o.state && ref.document in o.state.recoveries
    requires o.state.recoveries[ref.document].recovery.None?
    requires var s := o.sessions[ref.id]; s == NewSession(ref, s.work.revision, pending)
    ensures var n := ProjectClosed(o, ref, now, closing);
            && !Offers(n.disk, ref.document, artifact)
            && (!pending && closing.known && closing.saved && closing.closes ==>
                  ref.document !in n.disk.recoveries && ref.id !in n.sessions)
  {
  }

  const LOST := Artifact(EditorState, Payload(7, 2))

  /** A file left behind by a crash, with an artifact for project 1. */
  const INTERRUPTED := Persisted(map[1 := ProjectRecord(1, EMPTY, EMPTY, false, Some(0), false)],
                                 map[1 := RecoveryRecord(1, 9, Some(0), false, false, None, Idle, Some(LOST), None)])

  lemma InterruptedLoads()
    ensures LoadableRecords(INTERRUPTED) && WithinCap(INTERRUPTED) && Reloaded(INTERRUPTED) == INTERRUPTED
  {
    assert |INTERRUPTED.projects| == 1 && |INTERRUPTED.recoveries| == 1;
    assert Reloaded(INTERRUPTED).recoveries == INTERRUPTED.recoveries;
  }

  lemma InterruptedRead() returns (w: World)
    ensures Reachable(w) && w == Started(INTERRUPTED).(offered := {INTERRUPTED.recoveries[1]})
    ensures w.reg.state == w.reg.disk == INTERRUPTED
  {
    hide Reachable, LoadableRecords, WithinCap, Reloaded;
    InterruptedLoads();
    StartIsReachable(INTERRUPTED);
    w := Taken(Started(INTERRUPTED), ReadRecovery(1));
  }

  lemma InterruptedOpen() returns (w: World)
    ensures Reachable(w) && w.offered == {INTERRUPTED.recoveries[1]} && w.fences == map[] && w.made == map[] &&
            w.detached == map[]
    ensures w.reg.sessions == map[1 := NewSession(SAMPLE_REF, 9, false)] && w.reg.byProject == map[1 := 1]
    ensures w.reg.disk == w.reg.state && w.reg.disk.projects.Keys == {1} && w.reg.disk.recoveries.Keys == {1}
    ensures w.reg.disk.recoveries[1] == Projection(NewSession(SAMPLE_REF, 9, false), Some(5)) &&
            LoadableRecords(w.reg.disk)
  {
    hide Reachable;
    w := InterruptedRead();
    w := Taken(w, Open(SAMPLE_REF, 9, false, EMPTY, EMPTY, 5, true));
  }

  /**
   * A run: the artifact is on file, its project is opened to recover it, the program crashes, and the artifact is
   * nowhere.
   */
  lemma OpenThenCrashForgets(size: nat) returns (w: World)
    requires size <= MAX_FILE_BYTES
    ensures Reachable(w) && Offers(INTERRUPTED, 1, LOST) && 1 in w.reg.disk.recoveries && 1 in Orphans(w.reg)
    ensures w.reg.disk.recoveries[1].recovery.None? && w.reg.state.recoveries[1].recovery.None? && w.offered == {}
  {
    hide Reachable;
    w := InterruptedOpen();
    assert |w.reg.disk.projects.Keys| == |w.reg.disk.projects| &&
      |w.reg.disk.recoveries.Keys| == |w.reg.disk.recoveries|;
    w := Taken(w, Crash(size));
  }

  lemma RecoveryFailed() returns (w: World)
    ensures Reachable(w) && w.fences == map[] && w.made == map[] && w.detached == map[]
    ensures w.reg.sessions == map[1 := NewSession(SAMPLE_REF, 9, false)] && w.reg.disk.recoveries.Keys == {1}
  {
    hide Reachable;
    w := InterruptedOpen();
    w := Taken(w, Recover(SAMPLE_REF, INTERRUPTED.recoveries[1], 9, 6, false));
  }

  lemma RecoveryClosing() returns (w: World)
    ensures Reachable(w) && w.fences == map[0 := Fence(SAMPLE_REF, Passed)] && w.reg.disk.recoveries.Keys == {1}
    ensures w.reg.sessions == map[1 := NewSession(SAMPLE_REF, 9, false).(closing := true)]
  {
    hide Reachable;
    w := RecoveryFailed();
    w := Taken(w, FenceEnter(0, SAMPLE_REF, 0));
  }

  /** A run: the recovery cannot be saved, the project is closed again as closable, and the record is deleted. */
  lemma FailedRecoveryDeletesRecord() returns (fenced: World, w: World)
    ensures Reachable(fenced) && 0 in fenced.fences && fenced.fences[0].phase.Owned?
    ensures Assess(fenced.fences[0].phase.fenced).canClose && Enabled(fenced, Detach(0, true))
    ensures w == Apply(fenced, Detach(0, true)) && Reachable(w) && 1 !in w.reg.disk.recoveries && 1 !in w.reg.sessions
  {
    hide Reachable;
    fenced := RecoveryClosing();
    fenced := Taken(fenced, FenceFinish(0));
    w := Taken(fenced, Detach(0, true));
  }
}
