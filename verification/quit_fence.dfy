/**
 * The application-wide quit fence above the registry. `units` are the goroutines counted by the
 * application's wait group; the quit goroutine drains them, fences every session in turn, and
 * either keeps all the fences or gives all of them back.
 */
module QuitFence {
  import opened Options
  import opened Lifecycle
  import opened LifecycleProtocol

  datatype Life = Stopped | Starting | Ready | Draining | InRecovery

  /** Where the goroutine holding the shutdown lock stands inside `fenceQuitLocked`. */
  datatype Quit =
    | NotQuitting
    | AwaitingUnits
    | Fencing(todo: seq<SessionRef>, current: Option<Thread>, done: seq<Thread>)
    | Unfencing(rest: seq<Thread>)
    | Fenced(done: seq<Thread>)

  datatype App = App(
    world: World, life: Life, hosted: bool, units: set<Thread>, quit: Quit, quitFenced: bool,
    quitSessions: seq<SessionRef>)

  datatype AppStep =
    | Start(hosted: bool)
    | Started(life: Life)
    | BeginUnit(u: Thread)
    | EndUnit(u: Thread)
    | Section(on: Thread, s: Step)
    | QuitStart
    | QuitDrained(refs: seq<SessionRef>)
    | QuitAbandoned
    | QuitEnter(f: Thread, channel: Channel)
    | QuitPark(s: Step)
    | QuitRefused
    | QuitJudge
    | QuitUnfence
    | QuitUnfenced
    | QuitDone
    | QuitUndo

  /** Sections a goroutine may take only between `beginHost` and its `done`. */
  predicate NeedsUnit(s: Step) {
    match s
    case Begin(_, _) => false
    case End(_) => false
    case EditFree(_, _, _, _) => false
    case UpdateProject(_, _, _, _) => false
    case DiscardRecovery(_, _) => false
    case ReadRecovery(_) => false
    case Recover(_, _, _, _, _) => false
    case _ => true
  }

  /** The goroutine a section runs on, where the section names one. */
  predicate RunsOn(on: Thread, s: Step) {
    match s
    case EditHeld(t, _, _, _) => t == on
    case Schedule(t, _, _, _, _) => t == on
    case Complete(t, _, _, _) => t == on
    case DemandRecovery(t) => t == on
    case FenceEnter(f, _, _) => f == on
    case FenceWake(f) => f == on
    case FenceCancel(f) => f == on
    case FenceFinish(f) => f == on
    case FenceRollback(f) => f == on
    case Detach(f, _) => f == on
    case Restore(f, _, _) => f == on
    case Forget(f) => f == on
    case _ => true
  }

  predicate Parking(s: Step, f: Thread) {
    (s.FenceWake? || s.FenceCancel? || s.FenceFinish?) && s.f == f
  }

  function Refs(reg: Registry): set<SessionRef> {
    set id | id in reg.sessions :: reg.sessions[id].ref
  }

  predicate Listing(reg: Registry, refs: seq<SessionRef>) {
    (set ref | ref in refs) == Refs(reg) && forall i, j :: 0 <= i < j < |refs| ==> refs[i] != refs[j]
  }

  /** The fence `current` came back from `fenceClose` with a closable assessment. */
  predicate Closable(w: World, f: Thread) {
    f in w.fences && w.fences[f].phase.Owned? && Assess(w.fences[f].phase.fenced).canClose
  }

  predicate AppEnabled(a: App, step: AppStep) {
    match step
    case Start(_) => a.life == Stopped && a.quit.NotQuitting?
    case Started(life) => a.life == Starting && life != Starting && (life == Ready ==> a.hosted)
    case BeginUnit(u) => u !in a.units && u !in a.world.fences && u !in a.world.detached
    case EndUnit(u) => u in a.units && u !in a.world.fences && u !in a.world.detached
    case Section(on, s) =>
      Enabled(a.world, s) && !s.Crash? && (NeedsUnit(s) ==> on in a.units && RunsOn(on, s))
    case QuitStart =>
      a.quit.NotQuitting? && !a.quitFenced && (a.life == Ready || a.life == InRecovery || a.life == Draining)
    case QuitDrained(refs) => a.quit.AwaitingUnits? && a.units == {} && Listing(a.world.reg, refs)
    case QuitAbandoned => a.quit.AwaitingUnits?
    case QuitEnter(f, channel) =>
      && a.quit.Fencing? && a.quit.current.None? && a.quit.todo != [] && f !in a.units && f !in a.quit.done
      && Enabled(a.world, FenceEnter(f, a.quit.todo[0], channel))
    case QuitPark(s) =>
      a.quit.Fencing? && a.quit.current.Some? && Parking(s, a.quit.current.value) && Enabled(a.world, s)
    case QuitRefused => a.quit.Fencing? && a.quit.current.Some? && a.quit.current.value !in a.world.fences
    case QuitJudge =>
      && a.quit.Fencing? && a.quit.current.Some? && a.quit.todo != []
      && a.quit.current.value in a.world.fences && a.world.fences[a.quit.current.value].phase.Owned?
    case QuitUnfence => a.quit.Unfencing? && a.quit.rest != [] && Enabled(a.world, FenceRollback(a.quit.rest[0]))
    case QuitUnfenced => a.quit.Unfencing? && a.quit.rest == []
    case QuitDone =>
      && a.quit.Fencing? && a.quit.current.None? && a.quit.todo == []
      && forall i :: 0 <= i < |a.quit.done| ==> a.quit.done[i] in a.world.fences
    case QuitUndo => a.quit.Fenced? && a.quitFenced
  }

  function AppApply(a: App, step: AppStep): App
    requires AppEnabled(a, step)
  {
    match step
    case Start(hosted) => a.(life := Starting, hosted := hosted)
    case Started(life) => a.(life := life)
    case BeginUnit(u) => if a.life == Ready && a.hosted then a.(units := a.units + {u}) else a
    case EndUnit(u) => a.(units := a.units - {u})
    case Section(_, s) => a.(world := Apply(a.world, s))
    case QuitStart => a.(life := Draining, quit := AwaitingUnits)
    case QuitDrained(refs) => a.(quit := Fencing(refs, None, []))
    case QuitAbandoned => a.(quit := NotQuitting)
    case QuitEnter(f, channel) =>
      a.(world := Apply(a.world, FenceEnter(f, a.quit.todo[0], channel)), quit := a.quit.(current := Some(f)))
    case QuitPark(s) => a.(world := Apply(a.world, s))
    case QuitRefused => a.(quit := Unfencing(a.quit.done))
    case QuitJudge =>
      var f := a.quit.current.value;
      if Closable(a.world, f) then a.(quit := Fencing(a.quit.todo[1..], None, a.quit.done + [f]))
      else a.(quit := Unfencing(a.quit.done + [f]))
    case QuitUnfence =>
      a.(world := Apply(a.world, FenceRollback(a.quit.rest[0])), quit := Unfencing(a.quit.rest[1..]))
    case QuitUnfenced => a.(quit := NotQuitting, life := if a.life == Draining then Ready else a.life)
    case QuitDone =>
      a.(quit := Fenced(a.quit.done), quitFenced := true,
         quitSessions := seq(|a.quit.done|, i requires 0 <= i < |a.quit.done| => a.world.fences[a.quit.done[i]].ref))
    case QuitUndo => a.(quitFenced := false, quitSessions := [], quit := Unfencing(a.quit.done))
  }

  function AppStarted(file: Persisted): App {
    App(LifecycleProtocol.Started(file), Stopped, false, {}, NotQuitting, false, [])
  }

  ghost predicate AppRun(first: App, steps: seq<AppStep>, last: App)
    decreases |steps|
  {
    if steps == [] then first == last
    else AppEnabled(first, steps[0]) && AppRun(AppApply(first, steps[0]), steps[1..], last)
  }

  // ----- The invariant ------------------------------------------------------------------------

  /** The fences the quit goroutine is responsible for. */
  function QuitThreads(quit: Quit): set<Thread> {
    match quit
    case Fencing(_, current, done) => (set f | f in done) + (if current.Some? then {current.value} else {})
    case Unfencing(rest) => set f | f in rest
    case Fenced(done) => set f | f in done
    case _ => {}
  }

  /** Between the drain and the outcome, nothing is in flight and admission is closed. */
  predicate Drained(quit: Quit) {
    quit.Fencing? || quit.Unfencing? || quit.Fenced?
  }

  ghost predicate Kept(w: World, done: seq<Thread>) {
    && (forall f :: f in done ==> Closable(w, f))
    && (forall i, j :: 0 <= i < j < |done| ==> done[i] != done[j])
  }

  /** The session is fenced by one of `done`. */
  ghost predicate Covered(w: World, done: seq<Thread>, ref: SessionRef) {
    exists f :: f in done && f in w.fences && w.fences[f].ref == ref
  }

  ghost predicate PhaseInv(a: App) {
    match a.quit
    case Fencing(todo, current, done) =>
      && Kept(a.world, done)
      && (forall ref :: ref in Refs(a.world.reg) ==> ref in todo || Covered(a.world, done, ref))
      && (current.Some? ==>
            && todo != [] && current.value !in done
            && (current.value in a.world.fences ==> a.world.fences[current.value].ref == todo[0]))
    case Fenced(done) =>
      && Kept(a.world, done) && a.quitFenced && |a.quitSessions| == |done|
      && (forall ref :: ref in Refs(a.world.reg) ==> Covered(a.world, done, ref))
      && (forall i :: 0 <= i < |done| ==> done[i] in a.world.fences && a.world.fences[done[i]].ref == a.quitSessions[i])
    case Unfencing(rest) =>
      && (forall f :: f in rest ==> f in a.world.fences && a.world.fences[f].phase.Owned?)
      && (forall i, j :: 0 <= i < j < |rest| ==> rest[i] != rest[j])
    case _ => true
  }

  ghost predicate AppInv(a: App) {
    && DrainInv(a.world)
    && (forall f :: f in a.world.fences ==> f in a.units || f in QuitThreads(a.quit))
    && (forall f :: f in a.world.detached ==> f in a.units)
    && a.units !! QuitThreads(a.quit)
    && (Drained(a.quit) ==> a.life == Draining && a.units == {})
    && (a.quit.AwaitingUnits? ==> a.life == Draining)
    && (!a.quit.Fenced? ==> !a.quitFenced)
    && PhaseInv(a)
  }

  // ----- Each step keeps the invariant --------------------------------------------------------

  /** Sections open to goroutines outside the wait group move no fence, copy or registration. */
  lemma FreeSectionKeepsFences(w: World, s: Step)
    requires Enabled(w, s) && !NeedsUnit(s)
    ensures var n := Apply(w, s);
            n.fences == w.fences && n.detached == w.detached && Refs(n.reg) == Refs(w.reg)
  {
    var n := Apply(w, s);
    assert n.reg.sessions.Keys == w.reg.sessions.Keys;
    assert forall id :: id in w.reg.sessions ==> n.reg.sessions[id].ref == w.reg.sessions[id].ref;
  }

  /** A section inside the wait group creates fences and copies for its own goroutine only. */
  lemma SectionFencesItsGoroutine(w: World, on: Thread, s: Step)
    requires Enabled(w, s) && !s.Crash? && (NeedsUnit(s) ==> RunsOn(on, s))
    ensures forall f :: f in Apply(w, s).fences ==> f in w.fences || (NeedsUnit(s) && f == on)
    ensures forall f :: f in Apply(w, s).detached ==> f in w.detached || (NeedsUnit(s) && f == on)
  {
  }

  lemma SectionKeepsAppInv(a: App, step: AppStep)
    requires AppInv(a) && AppEnabled(a, step) && step.Section?
    ensures AppInv(AppApply(a, step))
  {
    StepKeepsDrainInv(a.world, step.s);
    SectionFencesItsGoroutine(a.world, step.on, step.s);
    if Drained(a.quit) {
      FreeSectionKeepsFences(a.world, step.s);
      var n := AppApply(a, step);
      assert n.world.fences == a.world.fences && Refs(n.world.reg) == Refs(a.world.reg);
      SameFencesKeepPhase(a, n);
    }
  }

  lemma SameFencesKeepPhase(a: App, n: App)
    requires PhaseInv(a) && n.quit == a.quit && n.quitFenced == a.quitFenced && n.quitSessions == a.quitSessions
    requires n.world.fences == a.world.fences && Refs(n.world.reg) == Refs(a.world.reg)
    ensures PhaseInv(n)
  {
    if a.quit.Fencing? || a.quit.Fenced? {
      forall ref | ref in Refs(n.world.reg) && Covered(a.world, a.quit.done, ref)
        ensures Covered(n.world, a.quit.done, ref) {
        var f :| f in a.quit.done && f in a.world.fences && a.world.fences[f].ref == ref;
        assert f in n.world.fences;
      }
    }
  }

  /** The section changed the fence of `f` only, and moved no session in or out. */
  ghost predicate OnlyFence(w: World, n: World, f: Thread) {
    && (forall g | g != f :: (g in n.fences <==> g in w.fences) && (g in w.fences ==> n.fences[g] == w.fences[g]))
    && n.detached == w.detached && Refs(n.reg) == Refs(w.reg)
    && (f in n.fences && f in w.fences ==> n.fences[f].ref == w.fences[f].ref)
  }

  lemma SameRefs(reg: Registry, n: Registry)
    requires n.sessions.Keys == reg.sessions.Keys
    requires forall id :: id in reg.sessions ==> n.sessions[id].ref == reg.sessions[id].ref
    ensures Refs(n) == Refs(reg)
  {
  }

  lemma EnterIsItsOwn(w: World, f: Thread, ref: SessionRef, channel: Channel)
    requires Enabled(w, FenceEnter(f, ref, channel))
    ensures var n := Apply(w, FenceEnter(f, ref, channel));
            OnlyFence(w, n, f) && (f in n.fences ==> n.fences[f].ref == ref)
  {
    SameRefs(w.reg, Apply(w, FenceEnter(f, ref, channel)).reg);
  }

  lemma ParkingIsItsOwn(w: World, s: Step, f: Thread)
    requires Enabled(w, s) && Parking(s, f)
    ensures OnlyFence(w, Apply(w, s), f)
  {
    SameRefs(w.reg, Apply(w, s).reg);
  }

  lemma UnfenceIsItsOwn(w: World, f: Thread)
    requires Enabled(w, FenceRollback(f))
    ensures var n := Apply(w, FenceRollback(f)); OnlyFence(w, n, f) && f !in n.fences
  {
    SameRefs(w.reg, Apply(w, FenceRollback(f)).reg);
  }

  lemma OthersKeepCovering(w: World, n: World, done: seq<Thread>, f: Thread)
    requires Kept(w, done) && f !in done && OnlyFence(w, n, f)
    ensures Kept(n, done)
    ensures forall ref :: Covered(w, done, ref) ==> Covered(n, done, ref)
  {
    forall ref | Covered(w, done, ref) ensures Covered(n, done, ref) {
      var g :| g in done && g in w.fences && w.fences[g].ref == ref;
      assert g in n.fences && n.fences[g].ref == ref;
    }
  }

  lemma EnterOrParkKeepsAppInv(a: App, step: AppStep)
    requires AppInv(a) && AppEnabled(a, step) && (step.QuitEnter? || step.QuitPark?)
    ensures AppInv(AppApply(a, step))
  {
    var n := AppApply(a, step);
    var f := if step.QuitEnter? then step.f else a.quit.current.value;
    var s := if step.QuitEnter? then FenceEnter(step.f, a.quit.todo[0], step.channel) else step.s;
    StepKeepsDrainInv(a.world, s);
    if step.QuitEnter? {
      EnterIsItsOwn(a.world, step.f, a.quit.todo[0], step.channel);
    } else {
      ParkingIsItsOwn(a.world, s, f);
    }
    OthersKeepCovering(a.world, n.world, a.quit.done, f);
    assert QuitThreads(n.quit) == QuitThreads(a.quit) + {f};
  }

  lemma JudgeKeepsAppInv(a: App, step: AppStep)
    requires AppInv(a) && AppEnabled(a, step) && step.QuitJudge?
    ensures AppInv(AppApply(a, step))
  {
    hide Enabled, Apply, DrainInv, Assess;
    var n := AppApply(a, step);
    var f := a.quit.current.value;
    var done := a.quit.done + [f];
    assert forall g :: g in done <==> g in a.quit.done || g == f;
    assert QuitThreads(n.quit) == QuitThreads(a.quit);
    forall ref | ref in Refs(a.world.reg) ensures ref in a.quit.todo[1..] || Covered(a.world, done, ref) {
      if ref == a.quit.todo[0] {
        assert f in done && a.world.fences[f].ref == ref;
      } else if Covered(a.world, a.quit.done, ref) {
        var g :| g in a.quit.done && g in a.world.fences && a.world.fences[g].ref == ref;
        assert g in done;
      } else {
        assert ref in a.quit.todo;
      }
    }
  }

  lemma UnfenceKeepsAppInv(a: App, step: AppStep)
    requires AppInv(a) && AppEnabled(a, step) && step.QuitUnfence?
    ensures AppInv(AppApply(a, step))
  {
    var n := AppApply(a, step);
    var f := a.quit.rest[0];
    StepKeepsDrainInv(a.world, FenceRollback(f));
    UnfenceIsItsOwn(a.world, f);
    assert forall g :: g in a.quit.rest <==> g == f || g in a.quit.rest[1..];
    assert f !in a.quit.rest[1..];
  }

  lemma OutcomeKeepsAppInv(a: App, step: AppStep)
    requires AppInv(a) && AppEnabled(a, step) && (step.QuitRefused? || step.QuitDone? || step.QuitUndo? ||
                                                  step.QuitUnfenced?)
    ensures AppInv(AppApply(a, step))
  {
  }

  lemma AdmissionKeepsAppInv(a: App, step: AppStep)
    requires AppInv(a) && AppEnabled(a, step)
    requires step.Start? || step.Started? || step.BeginUnit? || step.EndUnit? || step.QuitStart? ||
             step.QuitDrained? || step.QuitAbandoned?
    ensures AppInv(AppApply(a, step))
  {
  }

  lemma AppStepKeepsInv(a: App, step: AppStep)
    requires AppInv(a) && AppEnabled(a, step)
    ensures AppInv(AppApply(a, step))
  {
    if step.Section? {
      SectionKeepsAppInv(a, step);
    } else if step.QuitEnter? || step.QuitPark? {
      EnterOrParkKeepsAppInv(a, step);
    } else if step.QuitJudge? {
      JudgeKeepsAppInv(a, step);
    } else if step.QuitUnfence? {
      UnfenceKeepsAppInv(a, step);
    } else if step.QuitRefused? || step.QuitDone? || step.QuitUndo? || step.QuitUnfenced? {
      OutcomeKeepsAppInv(a, step);
    } else {
      AdmissionKeepsAppInv(a, step);
    }
  }

  lemma {:induction false} AppRunKeepsInv(first: App, steps: seq<AppStep>, last: App)
    requires AppInv(first) && AppRun(first, steps, last)
    ensures AppInv(last)
    decreases |steps|
  {
    if steps != [] {
      AppStepKeepsInv(first, steps[0]);
      AppRunKeepsInv(AppApply(first, steps[0]), steps[1..], last);
    }
  }

  // ----- What the quit fence promises over whole runs -----------------------------------------

  ghost predicate AppReachable(a: App) {
    exists file, steps :: LoadableRecords(file) && WithinCap(file) && AppRun(AppStarted(file), steps, a)
  }

  lemma AppReachableHolds(a: App)
    requires AppReachable(a)
    ensures AppInv(a)
  {
    var file, steps :| LoadableRecords(file) && WithinCap(file) && AppRun(AppStarted(file), steps, a);
    NothingOpenIsInv(LifecycleProtocol.Started(file));
    AppRunKeepsInv(AppStarted(file), steps, a);
  }

  lemma {:induction false} AppRunExtends(first: App, steps: seq<AppStep>, a: App, step: AppStep)
    requires AppRun(first, steps, a) && AppEnabled(a, step)
    ensures AppRun(first, steps + [step], AppApply(a, step))
    decreases |steps|
  {
    hide AppApply, AppEnabled;
    if steps == [] {
      assert ([] + [step])[1..] == [];
      assert AppRun(AppApply(a, step), [], AppApply(a, step));
    } else {
      AppRunExtends(AppApply(first, steps[0]), steps[1..], a, step);
      assert (steps + [step])[1..] == steps[1..] + [step];
    }
  }

  lemma AppTaken(a: App, step: AppStep) returns (n: App)
    requires AppReachable(a) && AppEnabled(a, step)
    ensures n == AppApply(a, step) && AppReachable(n)
  {
    hide AppApply, AppEnabled;
    var file, steps :| LoadableRecords(file) && WithinCap(file) && AppRun(AppStarted(file), steps, a);
    AppRunExtends(AppStarted(file), steps, a, step);
    n := AppApply(a, step);
  }

  lemma AppBegun(file: Persisted) returns (a: App)
    requires LoadableRecords(file) && WithinCap(file)
    ensures a == AppStarted(file) && AppReachable(a)
  {
    a := AppStarted(file);
    assert AppRun(a, [], a);
  }

  /** The session was closable when it was fenced, has nothing in flight, and nobody holds a token of it. */
  ghost predicate FrozenForQuit(a: App, id: SessionId) {
    id in a.world.reg.sessions &&
    var s := a.world.reg.sessions[id];
    && s.ref in a.quitSessions && s.closing && s.inflight == 0 && Assess(s).canClose
    && Holders(a.world.tokens, id) == {} && !BeginAllowed(a.world.reg, s.ref)
  }

  lemma CoveredIsFrozen(a: App, id: SessionId)
    requires AppInv(a) && a.quit.Fenced? && id in a.world.reg.sessions
    ensures FrozenForQuit(a, id)
  {
    var s := a.world.reg.sessions[id];
    assert s.ref in Refs(a.world.reg) && Mirrored(a.world.reg);
    var f :| f in a.quit.done && f in a.world.fences && a.world.fences[f].ref == s.ref;
    var i :| 0 <= i < |a.quit.done| && a.quit.done[i] == f;
    assert a.quitSessions[i] == s.ref;
    assert Local(a.world, id) && FencedBy(a.world, id, f) && Closable(a.world, f);
    FenceFinishNeverLost(a.world, f);
  }

  lemma TokenIsOfASession(w: World, t: Thread)
    requires Inv(w) && t in w.tokens
    ensures w.tokens[t].ref.id in w.reg.sessions && t in Holders(w.tokens, w.tokens[t].ref.id)
  {
    assert Local(w, w.tokens[t].ref.id);
  }

  /** While the quit fence stands, the application drains and every registered session is frozen. */
  lemma QuitFenceFreezesEverything(a: App)
    requires AppReachable(a) && a.quit.Fenced?
    ensures a.life == Draining && a.units == {} && a.quitFenced && a.world.tokens == map[]
    ensures forall id :: id in a.world.reg.sessions ==> FrozenForQuit(a, id)
  {
    AppReachableHolds(a);
    forall id | id in a.world.reg.sessions ensures FrozenForQuit(a, id) {
      CoveredIsFrozen(a, id);
    }
    forall t ensures t !in a.world.tokens {
      if t in a.world.tokens {
        TokenIsOfASession(a.world, t);
      }
    }
  }

  lemma FenceStandsUntilUndone(a: App, step: AppStep)
    requires AppInv(a) && a.quit.Fenced? && AppEnabled(a, step) && !step.QuitUndo?
    ensures var n := AppApply(a, step);
            n.quit == a.quit && n.quitSessions == a.quitSessions && n.quitFenced &&
              Refs(n.world.reg) == Refs(a.world.reg)
  {
    if step.Section? {
      FreeSectionKeepsFences(a.world, step.s);
    }
  }

  lemma {:induction false} FenceStandsOverRuns(a: App, steps: seq<AppStep>, last: App)
    requires AppInv(a) && a.quit.Fenced? && AppRun(a, steps, last) && QuitUndo !in steps
    ensures AppInv(last) && last.quit == a.quit && last.quitSessions == a.quitSessions
    ensures Refs(last.world.reg) == Refs(a.world.reg)
    decreases |steps|
  {
    if steps != [] {
      assert steps[0] in steps;
      assert forall step :: step in steps[1..] ==> step in steps;
      FenceStandsUntilUndone(a, steps[0]);
      AppStepKeepsInv(a, steps[0]);
      FenceStandsOverRuns(AppApply(a, steps[0]), steps[1..], last);
    }
  }

  lemma OwnedIsItsFence(w: World, id: SessionId, f: Thread)
    requires Inv(w) && FencedBy(w, id, f) && w.fences[f].phase.Owned?
    ensures id in w.reg.sessions && w.reg.sessions[id] == w.fences[f].phase.fenced
  {
    assert Local(w, id);
  }

  lemma UnchangedByFreeSection(a: App, step: AppStep, id: SessionId)
    requires AppInv(a) && a.quit.Fenced? && AppEnabled(a, step) && step.Section? && id in a.world.reg.sessions
    ensures id in AppApply(a, step).world.reg.sessions
    ensures AppApply(a, step).world.reg.sessions[id] == a.world.reg.sessions[id]
  {
    var w := a.world;
    assert Mirrored(w.reg) && w.reg.sessions[id].ref in Refs(w.reg);
    var f :| f in a.quit.done && f in w.fences && w.fences[f].ref == w.reg.sessions[id].ref;
    assert Closable(w, f);
    StepKeepsDrainInv(w, step.s);
    FreeSectionKeepsFences(w, step.s);
    OwnedIsItsFence(w, id, f);
    OwnedIsItsFence(Apply(w, step.s), id, f);
  }

  /** What was judged closable is what is torn down: no session changes or appears behind the fence. */
  lemma {:induction false} NothingChangesBehindTheFence(a: App, steps: seq<AppStep>, last: App)
    requires AppInv(a) && a.quit.Fenced? && AppRun(a, steps, last) && QuitUndo !in steps
    ensures last.world.reg.sessions == a.world.reg.sessions
    decreases |steps|
  {
    if steps != [] {
      assert steps[0] in steps;
      assert forall step :: step in steps[1..] ==> step in steps;
      var n := AppApply(a, steps[0]);
      FenceStandsUntilUndone(a, steps[0]);
      AppStepKeepsInv(a, steps[0]);
      forall id | id in a.world.reg.sessions
        ensures id in n.world.reg.sessions && n.world.reg.sessions[id] == a.world.reg.sessions[id]
      {
        if steps[0].Section? {
          UnchangedByFreeSection(a, steps[0], id);
        }
      }
      NoSessionAppears(a, n);
      NothingChangesBehindTheFence(n, steps[1..], last);
    }
  }

  lemma NoSessionAppears(a: App, n: App)
    requires Mirrored(a.world.reg) && Mirrored(n.world.reg) && Refs(n.world.reg) == Refs(a.world.reg)
    requires forall id :: id in a.world.reg.sessions ==>
               id in n.world.reg.sessions && n.world.reg.sessions[id] == a.world.reg.sessions[id]
    ensures n.world.reg.sessions == a.world.reg.sessions
  {
    forall id | id in n.world.reg.sessions ensures id in a.world.reg.sessions {
      assert n.world.reg.sessions[id].ref in Refs(n.world.reg);
    }
  }

  /** Once a refused or undone quit has given its fences back, nothing is closing; even recovery turns ready. */
  lemma RefusedQuitReopensEverything(a: App)
    requires AppReachable(a) && AppEnabled(a, QuitUnfenced)
    ensures AppApply(a, QuitUnfenced).life == Ready && a.world.fences == map[]
    ensures forall id :: id in a.world.reg.sessions ==> !a.world.reg.sessions[id].closing
  {
    AppReachableHolds(a);
    forall f ensures f !in a.world.fences {
    }
    forall id | id in a.world.reg.sessions ensures !a.world.reg.sessions[id].closing {
      assert Local(a.world, id);
      assert forall f :: !FencedBy(a.world, id, f);
    }
  }
}
