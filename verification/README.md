# LayerDraw: verified models of the desktop backend and the engine

LayerDraw's desktop backend and Go engine hold several self-contained cores whose correctness rests on
interleavings, failing saves, exact counting or closed accounting. This project models them in Dafny and
proves what they promise. Every file is one module; `dafny verify dfyconfig.toml` checks all of them.

**Project sessions** (`project_lifecycle`, `lifecycle_protocol`, `crash_recovery`, `crash_limits`). A mutex guards the registry
of open sessions. `ProjectLifecycle` is the registry as an object: one method is one critical section, every
save may fail, and the file is a field beside the memory. `LifecycleProtocol` takes those sections in every
order, together with what goroutines hold in between: begin tokens, autosave collectors, close fences that are
parked, past the drain or owned, detached copies and records read earlier. It proves the drain protocol.
`CrashRecovery` proves that memory mirrors the file and that a crash offers every open project for recovery,
and says exactly which two calls break that; `CrashLimits` adds the limits of the file, in entries and in length,
and what recovering a project can lose.

**Quitting** (`quit_fence`, `shutdown`). The application drains its units, fences every session in turn, keeps
all the fences or gives all of them back, and later detaches the sessions one by one.

**Query measurement** (`canonical_json`, `query_size`). A query result is measured without being printed. The
counter and the walk are methods over one shared counter; the printed bytes, with escapes and UTF-8, are a
function of a separate tree. The measured size is the printed length, in every member order.

**Export planning** (`export_collection`, `export_tree`, `export_plan`, `export_topology`, with `text_order` for
sorting). A recursive walk collects the items of a view; artifacts, units and representations are planned for
them; a run-time check re-examines the plan and is proved never to fail.

**MCP connections** (`mcp_connections`, `mcp_protocol`). Statuses, cancellable calls and a generation, with
creations and revocations that let go of the lock in the middle, and reloading after a crash.

**Containers and compiler input** (`container`, `container_files`, `container_writer`, `container_round_trip`,
`limits`, `closed_input`). Metadata that is written and read back, a manifest that covers the files, a reading for
each file, the writer and the reader composed, limits on 64-bit counters, and the accounting of an installed tree.

**External storage** (`external_storage`), **access** (`policies`, `delegations`), the **window** (`native_shell`)
and the **process tree** (`process_tree`).

Digests, the image sniffer, source decoding and text normalization are function parameters. Saves, the transport,
the host and cancellation answer through parameters or nondeterministically. Times and identifiers are numbers
where they are only compared.

## Where the code does not keep the plain promise

Each of these has a run or an input that shows it, and a theorem with the exact condition.

- Discarding the recovery record of a project that is open, or landing a blocking autosave result after its
  artifact was dropped, leaves a file the loader refuses (`CrashRecovery.DiscardWhileOpenCorruptsFile`,
  `CrashRecovery.DiscardDuringAutosaveCorruptsFile`; exactly then, by `CrashRecovery.StepKeepsDurableIff`).
- No save looks at what the loader takes: a catalogue at its cap grows by opening a project and never loads again
  (`CrashLimits.FullCatalogueOverflows`), and five large edits make the file too long
  (`CrashLimits.FiveLargeEditsOverflow`); exactly without room for the entries or the length, by
  `CrashLimits.StepFitsIff` and `CrashLimits.SafeRunIffAlwaysReloads`.
- Opening a project to recover it replaces its record first, so a crash or a failed save loses the artifact
  (`CrashLimits.OpenThenCrashForgets`, `CrashLimits.FailedRecoveryDeletesRecord`; exactly then, by
  `CrashLimits.StepKeepsArtifactIff` and `CrashLimits.ResolvingKeepsArtifactIff`).
- After a shutdown that failed halfway, the retry does not fence again and stops with the sessions it had brought
  back still registered (`Shutdown.RetryStrandsASession`; exactly those detached before the first failing save and
  restored with a save that worked, by `Shutdown.RetryStrandsReopened`).
- A creation or a failed revocation that lands while MCP is disabled leaves a connected connection, which the next
  start serves (`McpProtocol.LateCreationOutlivesStop`, `McpProtocol.FailedRevocationOutlivesStop`; exactly these
  two, by `McpProtocol.StepKeepsQuietIff`).
- A stop that could not be saved lets a crash lower the generation (`McpProtocol.UnsavedStopLowersGeneration`;
  exactly until the next save, by `McpProtocol.CrashLowersGenerationIff`).
- The writer decodes and sorts its files as the reader would before it emits them, but takes the digests before the
  manifest has its place, and does not check the states: a project asset at `manifest.json` and a source under
  `state/` each make a container that every reader refuses (`ContainerRoundTrip.MisplacedAssetIsEmitted`,
  `ContainerRoundTrip.StateSourceIsRefused`; as far as manifest, files and states go, exactly such an asset, and
  whatever is given under `state/` without being a snapshot under its own name that the policy allows, by
  `ContainerRoundTrip.EmittedIsAcceptedIff`). And a source under `previews/` or `exports/` is not read back
  (`ContainerRoundTrip.PreviewSourceIsLost`; the exact condition is in `ContainerRoundTrip.EmittedReadsBack`).
- A manifest takes its path without asking, and so lets two canonical packs share a file past the check that forbids
  it (`ClosedInput.CleanInputSharesPath`; exactly then, by `ClosedInput.SharedAcrossIff`).
- A version shown after an unknown write can be published again, for another payload, after a restart
  (`ExternalStorage.UnknownThenRestartReusesVersion`; exactly while nothing was saved since, by
  `ExternalStorage.RestartLowersVersionIff`).

## Model

| member | source | states |
|---|---|---|
| Lifecycle.Assess | internal/desktopapp/project_lifecycle.go:470-491 | a session can close exactly when no edit flag, pending work, terminal blocker or demanded recovery stands in the way |
| Lifecycle.LoadRecoveries | internal/desktopapp/project_lifecycle.go:220-232 | the loader takes exactly the recovery records that pass every check, reading an unset autosave state as idle |
| Lifecycle.Load | internal/desktopapp/project_lifecycle.go:183-234 | a file is accepted exactly when it is no longer than a mebibyte, both catalogues are within the cap and every record in them is loadable |
| Lifecycle.ProjectLifecycle.Open | internal/desktopapp/project_lifecycle.go:277-317 | a project already open is focused; otherwise session, mirror entry, project record and fresh recovery record appear together, and a failed save puts the records back |
| Lifecycle.ProjectLifecycle.Mutate | internal/desktopapp/project_lifecycle.go:340-357 | the edit applies to a registered session of the given generation that no fence refuses, and a failed save restores session and record |
| Lifecycle.ProjectLifecycle.CompleteAutosave | internal/desktopapp/project_lifecycle.go:359-377 | the result lands only on the generation and autosave number it was scheduled for; a failed save demands recovery |
| Lifecycle.ProjectLifecycle.Begin | internal/desktopapp/project_lifecycle.go:394-403 | admission counts one more operation and hands out the current generation, unless the session is closing or gone |
| Lifecycle.ProjectLifecycle.End | internal/desktopapp/project_lifecycle.go:405-417 | one operation less, and the last one under a fence closes the fencer's channel |
| Lifecycle.ProjectLifecycle.FenceEnter | internal/desktopapp/project_lifecycle.go:419-428 | entering closes admission and leaves a channel exactly when something is in flight |
| Lifecycle.ProjectLifecycle.FenceFinish | internal/desktopapp/project_lifecycle.go:429-449 | past the drain the fence either stands, with a new generation and an assessment, or is lost |
| Lifecycle.ProjectLifecycle.RollbackClose | internal/desktopapp/project_lifecycle.go:451-458 | giving a fence back reopens the session and forgets the channel |
| Lifecycle.ProjectLifecycle.Detach | internal/desktopapp/project_lifecycle.go:493-514 | a fenced session leaves both maps together with its recovery record; an unfenced one is left alone without an error; a failed save puts everything back |
| Lifecycle.ProjectLifecycle.Restore | internal/desktopapp/project_lifecycle.go:516-540 | a detached copy is registered again under a new generation with the record that projects it, or nothing stays behind |
| Lifecycle.ProjectLifecycle.SyncRecoveryLocked | internal/desktopapp/project_lifecycle.go:649-663 | the record of a session is its projection, keeping the first time of interruption |
| Lifecycle.ProjectLifecycle.MarkMissing | internal/desktopapp/project_lifecycle.go:542-557 | marking rewrites one catalogue entry, or nothing when the save fails; an unknown project is no error |
| Lifecycle.ProjectLifecycle.Pin | internal/desktopapp/project_lifecycle.go:566-581 | pinning rewrites one catalogue entry, or nothing when the save fails; an unknown project is an error |
| Lifecycle.ProjectLifecycle.DiscardRecovery | internal/desktopapp/project_lifecycle.go:675-688 | a discarded record is gone from memory and file, or still in both |
| Lifecycle.ProjectLifecycle.Recoveries | internal/desktopapp/project_lifecycle.go:610-623 | one candidate for each record of a project that is not open, and no other |
| LifecycleProtocol.StepKeepsDrainInv | internal/desktopapp/project_lifecycle.go:394-458 | every critical section keeps the drain protocol: counts match tokens, tokens are current, fences are unique, channels belong to their fencer |
| LifecycleProtocol.RunKeepsDrainInv | internal/desktopapp/project_lifecycle.go:277-540 | the drain protocol holds after every interleaving of the sections, whichever saves fail |
| LifecycleProtocol.InflightIsOutstandingTokens | internal/desktopapp/project_lifecycle.go:394-417 | the in-flight count of a session is the number of its outstanding begin tokens, each of the current generation |
| LifecycleProtocol.EndNeverDropsADecrement | internal/desktopapp/project_lifecycle.go:405-417 | every end of an outstanding token is counted |
| LifecycleProtocol.EndWakesOneFence | internal/desktopapp/project_lifecycle.go:413-416 | the channel an end closes is open until then and belongs to the one fence that waits for it |
| LifecycleProtocol.ParkedFenceIsAwaited | internal/desktopapp/project_lifecycle.go:429-441 | no wake-up is lost: a parked fence still has a token to wait for exactly while its channel is open |
| LifecycleProtocol.FenceFinishNeverLost | internal/desktopapp/project_lifecycle.go:442-446 | a fence past its drain always finds its session fenced, with no token outstanding |
| LifecycleProtocol.OwnedFenceFreezes | internal/desktopapp/project_lifecycle.go:419-449 | under an owned fence nothing is outstanding, nothing can begin, and no step but rollback, detach or crash changes the session |
| LifecycleProtocol.CompletionLandsBeforeClose | internal/desktopapp/project_lifecycle_api.go:389-398 | while a completion is outstanding its session is registered and no fence of it is past the drain |
| LifecycleProtocol.OlderCompletionsAreStale | internal/desktopapp/project_lifecycle_api.go:362-383 | of two outstanding completions at most the later can be current |
| LifecycleProtocol.CompletionTokenIsCurrent | internal/desktopapp/project_lifecycle_api.go:389-398 | the collector's token carries the session's generation and an autosave number not above the session's |
| LifecycleProtocol.CompletionEditsIffLatest | internal/desktopapp/project_lifecycle.go:359-377 | a completion edits its session exactly when no later schedule or cancel took effect |
| LifecycleProtocol.FenceOutdatesGeneration | internal/desktopapp/project_lifecycle.go:442-447 | edits, ends and completions of the generation before a fence or a restore are refused after it |
| CrashRecovery.EditKeepsWorkDurableIff | internal/desktopapp/project_lifecycle_api.go:400-449 | an edit keeps a session loadable exactly unless it is an autosave result that would leave a blocker with nothing to recover |
| CrashRecovery.PairingKeptIff | internal/desktopapp/project_lifecycle_api.go:400-449 | blocker and artifact stay paired through every edit but such a result |
| CrashRecovery.ScheduledResultIsRecoverable | internal/desktopapp/project_lifecycle_api.go:348-372 | the artifact kept by scheduling is what makes the schedule's own result land paired |
| CrashRecovery.OpenedFailureIsNoop | internal/desktopapp/project_lifecycle.go:300-315 | a failed open puts everything back exactly when the host's session identifier was free |
| CrashRecovery.StepKeepsDurableIff | internal/desktopapp/project_lifecycle.go:277-540 | a critical section keeps memory equal to the file and every open project journaled exactly when it is careful |
| CrashRecovery.CrashOffersEveryOpenProject | internal/desktopapp/project_lifecycle.go:183-234 | after any careful run memory is the file, and a crash that finds it within its limits reloads a candidate with the latest work of every open project |
| CrashRecovery.RecoverReversesProjection | internal/desktopapp/project_lifecycle.go:632-647 | recovering a record gives the lost work back exactly when its edit flags said what its artifact says and no autosave was pending |
| CrashRecovery.DiscardWhileOpenCorruptsFile | internal/desktopapp/project_lifecycle_api.go:462-490 | a run: discard the record of an open project, fail one edit, save anything, and the file no longer loads |
| CrashRecovery.DiscardDuringAutosaveCorruptsFile | internal/desktopapp/project_lifecycle_api.go:243-280 | a run: discard edits under a scheduled autosave, let it commit with external work pending, and the file no longer loads |
| CrashLimits.StepKeepsCapIff | internal/desktopapp/project_lifecycle.go:210-212 | a file within the two caps stays within them exactly when there is room for the project and the record a section adds |
| CrashLimits.FileIsAttempted | internal/desktopapp/project_lifecycle.go:733-780 | the file changes only by the save of a section, to the state the section was about to save |
| CrashLimits.StepFitsIff | internal/desktopapp/project_lifecycle.go:196-212 | a file the loader takes is followed by one it takes exactly when the section finds room for its entries and for the length of what it saves |
| CrashLimits.SafeRunIffAlwaysReloads | internal/desktopapp/project_lifecycle.go:183-234 | of the careful runs, exactly those that keep room for entries and length leave a file that reloads at every point |
| CrashLimits.SafeRunOffersEveryOpenProject | internal/desktopapp/project_lifecycle.go:183-234 | after any run that is careful and keeps that room, a crash reloads a candidate with the latest work of every open project |
| CrashLimits.ProjectsNeverLeave | internal/desktopapp/project_lifecycle.go:277-317 | no project ever leaves the catalogue, so a file above the cap never loads again |
| CrashLimits.FullCatalogueOverflows | internal/desktopapp/project_lifecycle.go:210-212 | a run: a file at its cap loads, one more project is opened, and the file does not load again |
| CrashLimits.FiveLargeEditsOverflow | internal/desktopapp/project_lifecycle.go:196-196 | a run: five projects are opened and each is given an artifact of the largest size, and the file is too long to load, if it is at least as long as its artifacts |
| CrashLimits.StepKeepsArtifactIff | internal/desktopapp/project_lifecycle.go:298-298 | the artifact of a project that is not open stays on file exactly until the project is opened or its record discarded |
| CrashLimits.RunKeepsArtifact | internal/desktopapp/project_lifecycle.go:277-540 | it survives any careful run, crashes included, in which neither happens |
| CrashLimits.ResolvingKeepsArtifactIff | internal/desktopapp/project_lifecycle_api.go:462-490 | recovering a project keeps its artifact on file exactly when the open fails or the recovery is saved; otherwise closing it again deletes the record |
| CrashLimits.OpenThenCrashForgets | internal/desktopapp/project_lifecycle_api.go:477-479 | a run: the project is opened to recover it, the program crashes, and the artifact is nowhere |
| CrashLimits.FailedRecoveryDeletesRecord | internal/desktopapp/project_lifecycle_api.go:479-482 | a run: the recovery cannot be saved, the project is closed again, and its record is deleted |
| QuitFence.AppStepKeepsInv | internal/desktopapp/app.go:603-681 | every step of the application keeps admission, the wait group, the fences of the quit and the registry consistent |
| QuitFence.AppRunKeepsInv | internal/desktopapp/app.go:603-681 | so does every interleaving of quit attempts with everything else |
| QuitFence.QuitFenceFreezesEverything | internal/desktopapp/app.go:603-660 | while the quit fence stands the application drains, no unit or token is outstanding, and every registered session is listed, closing, idle and closable |
| QuitFence.FenceStandsOverRuns | internal/desktopapp/app.go:603-672 | the fence and its list of sessions stand until they are undone |
| QuitFence.NothingChangesBehindTheFence | internal/desktopapp/app.go:515-597 | behind the fence no session changes, appears or leaves |
| QuitFence.RefusedQuitReopensEverything | internal/desktopapp/app.go:638-652 | once a refused or undone quit has given its fences back, no session is closing and the application is ready, even if it was recovering |
| Shutdown.Application.Begin | internal/desktopapp/app.go:720-733 | work is admitted exactly when the application is ready and has a host |
| Shutdown.Application.RollbackQuitFence | internal/desktopapp/app.go:662-672 | undoing a quit forgets the fence and rolls back every listed session |
| Shutdown.Application.DetachAll | internal/desktopapp/app.go:564-574 | the detach loop hands out the copies it took and stops at the first failed save |
| Shutdown.Application.TearDown | internal/desktopapp/app.go:515-597 | shutdown either stops with every fenced session detached, or stays as it was after restoring the detached ones as far as their saves go |
| Shutdown.Application.FinishClose | internal/desktopapp/projects.go:310-327 | the tail of closing one project, through its two saves and the host's answer |
| Shutdown.OwnedCloseEndsOrReopens | internal/desktopapp/projects.go:310-327 | in every reachable state the owner of a fence finds its session as it was judged; closing leaves it open to work, as it was, exactly when the host did not know it or a failure could be undone, and else gone with its record |
| Shutdown.RolledBackAllReopensListed | internal/desktopapp/app.go:662-672 | a rollback reopens exactly the listed sessions |
| Shutdown.TeardownTakes | internal/desktopapp/app.go:564-574 | the copies of a teardown are exactly the sessions that left, each as it was |
| Shutdown.CompletedTeardownRemovesExactlyFenced | internal/desktopapp/app.go:564-574 | a completed teardown leaves exactly the sessions no fence holds, so it empties the registry exactly when all were fenced |
| Shutdown.RestoredAllReopens | internal/desktopapp/app.go:567-570 | restoring the copies registers, reopened, exactly those whose save works, and moves nothing else |
| Shutdown.FailedTeardownReopens | internal/desktopapp/app.go:564-581 | after a failed teardown the sessions not detached are as they were, and of the others exactly those whose restore was saved are registered, no longer closing |
| Shutdown.RetryStrandsReopened | internal/desktopapp/app.go:551-597 | after a failed shutdown a retry that reports success leaves registered exactly the sessions detached before the first failing save whose restore was saved, and none only when there is none of these |
| Shutdown.HostFailureStrandsRestored | internal/desktopapp/app.go:576-581 | when every save succeeds and the host does not stop, a successful retry leaves registered exactly the sessions whose restore was saved |
| Shutdown.RetryStrandsASession | internal/desktopapp/app.go:515-597 | a reachable fenced application whose one session is still registered after the retry has reported success |
| Shutdown.FencedQuitTearsEverythingDown | internal/desktopapp/app.go:515-597 | behind a quit fence, a teardown whose saves succeed empties the registry |
| CanonicalJson.PrintHasSize | internal/engine/internal/canonicaljson/counter.go:69-100 | the size charged for a valid tree is the length of its printed bytes, escapes and UTF-8 included |
| CanonicalJson.ArrangedKeepsSize | internal/engine/query_logical_size.go:647-658 | putting the members of every object in any order keeps size and validity |
| CanonicalJson.TapeWeighsSize | internal/engine/query_logical_size.go:609-658 | what a walk charges, container by container and string by string, adds up to the size, and cannot be added up exactly when the tree is invalid |
| CanonicalJson.RunCountsIffFits | internal/engine/internal/canonicaljson/counter.go:38-51 | a counter succeeds exactly when the whole amount fits limit and word; a limit is reported only for an amount beyond it, an invariant only for an unmeasurable or overflowing one |
| CanonicalJson.Counter.Add | internal/engine/internal/canonicaljson/counter.go:38-51 | one charge moves the counter one step along its plan or fails as the plan's verdict says |
| CanonicalJson.Counter.Encode | internal/engine/internal/canonicaljson/counter.go:69-100 | the symbol loop computes the quoted length, refusing malformed text and overflow |
| CanonicalJson.Counter.String | internal/engine/internal/canonicaljson/counter.go:69-100 | charging a string is charging its quoted length |
| QuerySize.WalkOrderIsImmaterial | internal/engine/query_logical_size.go:647-658 | the order in which a map is ranged over changes neither its size nor its validity |
| QuerySize.GroupVerdict | internal/engine/internal/canonicaljson/counter.go:55-67 | measuring a group on its own counter fails only where charging its size would |
| QuerySize.QuerySizer.AddMeasured | internal/engine/internal/canonicaljson/counter.go:55-67 | a group is charged whole or not at all |
| QuerySize.QuerySizer.Container | internal/engine/query_logical_size.go:628-645 | brackets and commas of a container of so many items |
| QuerySize.QuerySizer.ScalarOf | internal/engine/query_logical_size.go:242-285 | the walk charges the scalar's tree, and refuses unsafe integers, numbers without a finite decimal and unknown kinds |
| QuerySize.QuerySizer.Arguments | internal/engine/query_logical_size.go:228-240 | the walk charges the argument map as one group, in whatever order it is ranged over |
| QuerySize.QuerySizer.Details | internal/engine/query_logical_size.go:408-436 | the same for the arguments of a diagnostic |
| QuerySize.QuerySizer.CycleRefs | internal/engine/query_logical_size.go:315-350 | the walk charges the list of cycle references |
| QuerySize.QuerySizer.DiagnosticOf | internal/engine/query_logical_size.go:388-495 | the declared member count of a diagnostic is the number of members it emits, optional ones included |
| QuerySize.QuerySizer.RelatedOf | internal/engine/query_logical_size.go:497-558 | the same for a related entry |
| QuerySize.QuerySizer.RangeOf | internal/engine/query_logical_size.go:560-607 | the walk charges a source range with its origin, refusing negative offsets |
| QuerySize.QuerySizer.StateInputOf | internal/engine/query_logical_size.go:172-199 | the state input has five members for a snapshot and one otherwise |
| QuerySize.QuerySizer.ResultOf | internal/engine/query_logical_size.go:104-226 | the walk charges the sixteen members of a query result |
| QuerySize.QuerySizer.ExecuteResult | internal/engine/query_logical_size.go:48-74 | the walk charges the whole payload, with a returned byte count of zero |
| QuerySize.MeasureDocumentQueryLogicalBytes | internal/engine/query_logical_size.go:18-42 | the measurement gives the one outcome its payload and limit determine, or is cancelled |
| QuerySize.MeasurementIsPrintedLength | internal/engine/query_logical_size.go:16-31 | a measured size is the length of the payload's print under every member order, and a valid result is over the limit exactly when that length is |
| QuerySize.FilledPayloadLength | internal/engine/workbench_query.go:54-63 | with its own count filled in, the payload is strictly longer than what was measured, by one byte for each further digit |
| TextOrder.SortedByIsOrdered | internal/engine/export_plan.go:584-584 | sorting by a comparison orders the list |
| TextOrder.StrictIsUnique | internal/engine/export_plan.go:684-697 | a set of strings has one strictly sorted list |
| TextOrder.DeduplicatedIsStrict | internal/engine/export_plan.go:739-742 | removing repeats from a sorted list makes it strictly sorted and keeps its elements |
| TextOrder.UniqueInPlace | internal/engine/export_plan.go:860-868 | the in-place removal leaves the distinct elements at the front of the array |
| TextOrder.Contains | internal/engine/export_plan.go:870-873 | the binary search finds a key exactly when the sorted list holds it |
| ExportCollection.ExportItemCollector.CollectItem | internal/engine/export_plan.go:612-631 | an item is taken with its own or its inherited source, unless it is malformed or its key was seen |
| ExportCollection.ExportItemCollector.CollectArray | internal/engine/export_plan.go:593-610 | the recursive walk gathers the flattened collection, or fails because it cannot be gathered without a clash |
| ExportCollection.CollectExportItems | internal/engine/export_plan.go:504-584 | the collector returns the sorted flattening of the view, or fails |
| ExportTree.CollectedAreTheChainItems | internal/engine/export_plan.go:504-647 | a collected list is strictly sorted by key and holds exactly the items at the ends of nested chains, each with the source declared nearest on its chain |
| ExportTree.CollectedIffKeysDiffer | internal/engine/export_plan.go:616-622 | collection succeeds exactly when the walk does and no two chains end at one key, at any depth |
| ExportTree.ChainsEndAtDifferentKeys | internal/engine/export_plan.go:593-631 | in a gathered tree, different chains end at different keys |
| ExportTree.SiblingOrderIsImmaterial | internal/engine/export_plan.go:584-584 | views that differ only in the order of siblings, at any depth, collect to the same list |
| ExportPlan.ExportArtifacts | internal/engine/export_plan.go:747-780 | the planned artifacts in their stable order |
| ExportPlan.ExportPlanUnits | internal/engine/export_plan.go:782-818 | the planned units, each with no keys yet |
| ExportPlan.ExportRepresentations | internal/engine/export_plan.go:699-745 | one representation per entry, and in every unit the sorted distinct keys bound to it |
| ExportPlan.ValidateExportTopology | internal/engine/export_plan.go:820-858 | the run-time check accepts exactly the closed topologies |
| ExportTopology.ArtifactsAreClosed | internal/engine/export_plan.go:747-780 | artifact roles are distinct, they are the planned ones, and the one primary artifact leads |
| ExportTopology.ArtifactPathsDiffer | internal/engine/export_plan.go:763-769 | no two artifacts of a plan share a path |
| ExportTopology.UnitsAreClosed | internal/engine/export_plan.go:782-818 | every unit sits in a planned artifact, under an identifier and a role of its own |
| ExportTopology.PlanIsAlwaysClosed | internal/engine/export_plan.go:243-248 | for every shape, recipe and item list the planned topology passes the check |
| ExportTopology.EveryItemIsRepresentedOnce | internal/engine/export_plan.go:699-738 | one representation per item, and a root entry exactly when the export is lossless or empty |
| ExportTopology.UnitKeysAreTheBoundOnes | internal/engine/export_plan.go:705-742 | a key stands in a unit exactly when its representation is bound there |
| ExportTopology.UnitsShareNoKey | internal/engine/export_plan.go:705-742 | no key stands in two units |
| ExportTopology.OmittedIffNoRoom | internal/engine/export_plan.go:713-726 | an item is omitted exactly when an unbundled separated format has no room for its role, and is otherwise filed under its role or in the one unit there is |
| ExportTopology.CollectedRolesFitShape | internal/engine/export_plan.go:524-583 | every collected item has a role its shape plans for, and a proper key |
| ExportTopology.PlanExport | internal/engine/export_plan.go:238-248 | from view to plan: only a view that cannot be collected fails, never the invariant check |
| McpConnections.McpHost.SetEnabled | internal/desktopapp/mcp_connections.go:89-152 | enabling and disabling, through the transport's answers and the save; a stop fences every connected connection and cancels its calls |
| McpConnections.McpHost.FinalizeStopped | internal/desktopapp/mcp_connections.go:337-353 | the stop at shutdown takes effect unless its save fails and the transport comes back |
| McpConnections.McpHost.CommitStoppedLocked | internal/desktopapp/mcp_connections.go:326-335 | a committed stop cancels the calls of connected connections and disables the host |
| McpConnections.McpHost.FencedConnections | internal/desktopapp/mcp_connections.go:315-324 | fencing turns exactly the connected connections into restarted ones |
| McpConnections.McpHost.CommitCreated | internal/desktopapp/mcp_connections.go:205-215 | a created connection is registered and stored, or neither |
| McpConnections.McpHost.List | internal/desktopapp/mcp_connections.go:230-249 | listing expires what has run out and cancels its calls |
| McpConnections.McpHost.Delete | internal/desktopapp/mcp_connections.go:254-272 | only a terminated connection is deleted, from memory and store together |
| McpConnections.McpHost.RevokeEnter | internal/desktopapp/mcp_connections.go:274-284 | the first section of a revocation takes a connected connection out of service and cancels its calls |
| McpConnections.McpHost.RevokeFail | internal/desktopapp/mcp_connections.go:288-294 | a failed revocation writes the connection back as connected |
| McpConnections.McpHost.RevokeCommit | internal/desktopapp/mcp_connections.go:295-304 | a revocation is final in memory even when its save fails |
| McpConnections.McpHost.BeginCall | internal/desktopapp/mcp_connections.go:450-481 | a call is registered exactly under a connected, unexpired connection of an enabled host that permits it |
| McpConnections.McpHost.constructor | internal/desktopapp/mcp_connection_store.go:64-77 | loading disables the host and rewrites every live status |
| McpProtocol.StepKeepsInv | internal/desktopapp/mcp_connections.go:89-353 | every critical section keeps calls under live connections, copies current, and the store's identifiers those of memory |
| McpProtocol.UncancelledCallIsLive | internal/desktopapp/mcp_connections.go:450-488 | an uncancelled running call belongs to a connected connection of an enabled host |
| McpProtocol.FinalNeverRevives | internal/desktopapp/mcp_connections.go:274-304 | a revoked, expired or restarted connection never lives again, over any run and any crash |
| McpProtocol.CrashEndsForGood | internal/desktopapp/mcp_connection_store.go:63-76 | no identifier in use before a crash is ever served or called again, over any run before and after it |
| McpProtocol.GenerationNeverDecreases | internal/desktopapp/mcp_connections.go:114-128 | only a crash lowers the generation, to the one stored; every switch raises it by one |
| McpProtocol.CrashLowersGenerationIff | internal/desktopapp/mcp_connections.go:114-128 | over every run, a crash lowers the generation exactly when a stop took effect unsaved and nothing has been saved since |
| McpProtocol.UnsavedStopLowersGeneration | internal/desktopapp/mcp_connections.go:119-125 | a run: a stop that cannot be saved takes effect, and a crash lowers the generation |
| McpProtocol.StepKeepsQuietIff | internal/desktopapp/mcp_connections.go:205-210 | a disabled host has no connected connection, exactly unless a creation or a failed revocation lands while it is disabled |
| McpProtocol.FailedRevocationOutlivesStop | internal/desktopapp/mcp_connections.go:288-294 | a run: a revocation fails after a stop, and the next start serves a connection the stop had not fenced |
| McpProtocol.LateCreationOutlivesStop | internal/desktopapp/mcp_connections.go:205-210 | a run: a creation lands after a stop, and the next start serves its connection |
| PortableContainer.CanonicalResolved | internal/engine/container.go:771-799 | the encoder builds the metadata document, or refuses the envelope or the packs |
| PortableContainer.DecodeInstalls | internal/engine/container.go:681-704 | the decoder reads the packs in name order, each with its manifest, exactly when the envelope is right and every pack is readable |
| PortableContainer.DecodingIsUnique | internal/engine/container.go:680-700 | a document is read as one list of packs only |
| PortableContainer.EncodesIffDuplicateFree | internal/engine/container.go:775-796 | with no empty identifier or digest about, exactly the duplicate-free metadata encodes |
| PortableContainer.EncodingIgnoresOrder | internal/engine/container.go:771-799 | listing packs, files and dependencies in another order gives the same encoding |
| PortableContainer.PackRoundTrip | internal/engine/container.go:681-704 | a pack read back is the pack written, its files and dependencies in name order and its default manifest path spelled out |
| PortableContainer.MetadataRoundTrip | internal/engine/container.go:666-704 | writing duplicate-free metadata and reading it back gives the same packs in name order, none added or lost |
| ContainerFiles.ValidateManifest | internal/engine/container.go:612-645 | a manifest is accepted exactly when its header is right and it lists every other file, and nothing else, under its digest |
| ContainerFiles.OneWayCovers | internal/engine/container.go:625-636 | a count and lookups in one direction make the two sets of names equal |
| ContainerFiles.CollectClaims | internal/engine/container.go:705-727 | packs claim their manifests and files, and exactly unshared claims are accepted |
| ContainerFiles.UnsharedIffApart | internal/engine/container.go:708-727 | claims are unshared exactly when no pack claims a path twice and no two packs claim the same one |
| ContainerFiles.SortFiles | internal/engine/container.go:728-769 | every file is put where its class says, assets in order, exactly when no claim is shared and every file has a place |
| ContainerFiles.EveryFileIsReadOnce | internal/engine/container.go:728-762 | each file is reserved, a pack file, a source or a project asset, once and unchanged |
| ContainerWriter.Assemble | internal/engine/container.go:343-402 | sources, tree, metadata, manifests, assets, derived files, snapshots and artifacts are put together, or refused when two disagree or one is misplaced |
| ContainerWriter.CompileInputFrom | internal/engine/container.go:666-769 | the files are read exactly when the metadata decodes, no claim is shared and every file has a place |
| ContainerWriter.ValidateStates | internal/engine/container.go:812-846 | the state check passes exactly when whatever lies under state/ is a snapshot under its own name, and nothing is left out without a policy |
| ContainerWriter.ReadContainer | internal/engine/container.go:273-310 | a reader takes exactly the files that the manifest covers, that it can read, and whose states hold |
| ContainerWriter.Write | internal/engine/container.go:328-437 | a container is emitted exactly when the input compiles, its files agree, the writer can read them back and the policy fits |
| ContainerRoundTrip.CleanEncodesIff | internal/engine/container.go:775-796 | an input without diagnostics encodes exactly when every registry and dependency name is given, and then no pack is lost |
| ContainerRoundTrip.SelfReadIff | internal/engine/container.go:403-407 | with default manifest paths the writer's own reading succeeds exactly when no claim of the packs is shared and every file has a place |
| ContainerRoundTrip.EmittedStatesHoldIff | internal/engine/container.go:386-393 | the states of what is emitted hold exactly when no source was given under state/, and nothing else there but snapshots under their own names that the policy allows |
| ContainerRoundTrip.EmittedIsAcceptedIff | internal/engine/container.go:403-437 | what is emitted can always be decoded and sorted; its manifest is accepted exactly when no project asset was placed at the manifest's name, and its states exactly when nothing but allowed snapshots was given under state/ |
| ContainerRoundTrip.EmittedReadsBack | internal/engine/container.go:666-769 | the packs and the installed tree come back as written, the sources exactly when none hides behind a reserved or claimed name and no asset looks like one, and of the project assets exactly those no such name hides |
| ContainerRoundTrip.WriteThenRead | internal/engine/container.go:328-437 | writing and reading composed: when the reading succeeds and what it gives back |
| ContainerRoundTrip.MisplacedAssetIsEmitted | internal/engine/container.go:370-378 | an input with an asset at the manifest's name, whose container is emitted and refused by every reader |
| ContainerRoundTrip.StateSourceIsRefused | internal/engine/container.go:812-820 | an input with a source under state/, whose container is emitted and refused by every reader |
| ContainerRoundTrip.PreviewSourceIsLost | internal/engine/container.go:729-731 | an input with a source under previews/, whose container is emitted and accepted without that source |
| Limits.AddExceeds | internal/engine/compiler.go:394-402 | an addition exceeds its limit exactly when the unbounded sum does, without overflow |
| Limits.Accumulate | internal/engine/compiler.go:290-299 | adding up fails exactly when the whole sum exceeds the limit, and reports where it first did |
| Limits.CompressionRatioExceeded | internal/engine/container.go:523-533 | the ratio test is the comparison with the full product, without computing it |
| Limits.ScanTotals | internal/engine/container.go:496-509 | a listing is accepted exactly when every size and the unbounded total are within their limits |
| Limits.ValidateRaster | internal/engine/compiler.go:366-392 | a raster is accepted exactly when both dimensions and the unbounded pixel count fit |
| Limits.CloneClosedInput | internal/engine/compiler.go:278-364 | an input is accepted exactly when every count and every unbounded sum fits its limit |
| ClosedInput.CheckPack | internal/engine/compiler.go:464-532 | one pack is free of diagnostics exactly when its names, manifest, dependencies, files and digests are in order and it takes no path of another |
| ClosedInput.PrepareClosedInput | internal/engine/compiler.go:440-585 | no diagnostics exactly when mode, root pack and envelope agree and every pack, every path of the tree and every asset is accounted for |
| ClosedInput.CleanTreeIsExact | internal/engine/compiler.go:499-552 | the tree of a clean input is exactly its resolved files and the manifests present, with matching digests |
| ClosedInput.LaterSharerIsManifestOwner | internal/engine/compiler.go:513-526 | of two packs that list a file at one path, the later belongs to the canonical pack whose manifest took the path last in between, or else to the earlier one's |
| ClosedInput.SharedAcrossIff | internal/engine/compiler.go:513-526 | a clean input shares a path across canonical packs exactly when the last manifest at that path between the two, in install order, is not the earlier one's |
| ClosedInput.CleanInputSharesPath | internal/engine/compiler.go:513-526 | a clean input, in directories of their own, in which two canonical packs list one file |
| ExternalStorage.TokenRoundTrip | internal/desktopapp/external_storage.go:417-421 | the next token is the token of the next version, and tokens of different versions differ |
| ExternalStorage.FramingIsInjective | internal/desktopapp/external_storage.go:408-415 | two lists of parts are hashed from the same bytes only when they are the same list |
| ExternalStorage.ExternalStore.SelectRemote | internal/desktopapp/external_storage.go:188-210 | selecting finds the binding or makes it at version zero, kept in memory even when the save fails |
| ExternalStorage.ExternalStore.AcquireLease | internal/desktopapp/external_storage.go:212-223 | a lease is given for exactly the stored binding, version included, on a live connection |
| ExternalStorage.ExternalStore.Disconnect | internal/desktopapp/external_storage.go:166-186 | disconnecting drops the leases of the connection's bindings |
| ExternalStorage.ExternalStore.Write | internal/desktopapp/external_storage.go:225-261 | the write gives the outcome the stored version, the lease and the saves determine, and the store it leaves |
| ExternalStorage.ExternalStore.ApplyReconcile | internal/desktopapp/external_storage.go:310-329 | a reconcile changes the local revision of the planned version only, and never the version |
| ExternalStorage.StepKeepsInv | internal/desktopapp/external_storage.go:188-329 | memory never falls behind the file, nor the file behind what was published |
| ExternalStorage.NoLostUpdate | internal/desktopapp/external_storage.go:225-261 | over every run, versions published for a binding strictly increase, so no two published writes expected the same one |
| ExternalStorage.PublicationsAreOnDisk | internal/desktopapp/external_storage.go:225-261 | over every run, each published write was made by one section, on the version it expected and under the lease then held, and was on disk, with the rest as in memory, when it was answered |
| ExternalStorage.RestartLowersVersionIff | internal/desktopapp/external_storage.go:256-259 | over every run, a restart lowers the version of a binding exactly when a write of it was answered as unknown and nothing has been saved since |
| ExternalStorage.UnknownThenRestartReusesVersion | internal/desktopapp/external_storage.go:256-259 | a run: after an unknown write and a restart, another payload is published under the version already shown |
| Policies.CanonicalCapabilities | internal/access/access.go:441-451 | the canonical list is strictly sorted and has the same elements |
| Policies.IntersectDimension | internal/access/policy.go:70-84 | the loop computes the intersection, a missing dimension restricting nothing |
| Policies.ResolvePolicies | internal/access/policy.go:40-68 | the result is the base without everything denied, strictly sorted, and each dimension the conjunction of the policies' |
| Policies.PolicyOrderIsImmaterial | internal/access/policy.go:36-68 | permuting or repeating policies resolves to the same thing |
| Policies.ConstraintViolations | internal/access/access.go:362-383 | exactly the violating entries are reported |
| Policies.Evaluate | internal/access/access.go:285-360 | the decision allows exactly when grant, agent permission, capabilities and constraints all do, and lists what is missing |
| Policies.AddingPolicyNeverPermits | internal/access/policy.go:36-68 | adding a policy never turns a denial into permission |
| Delegations.DelegationStore.Load | internal/access/access.go:128-149 | a snapshot is taken exactly when its records are valid and distinct and its revocations refer to them |
| Delegations.DelegationStore.TakeSnapshot | internal/access/access.go:151-163 | the snapshot lists every record once, in order, with the revocations |
| Delegations.DelegationStore.Delegate | internal/access/access.go:179-204 | a delegation is recorded exactly when it names its parent and scope, fits the parent's expiry and capabilities, and is new |
| Delegations.DelegationStore.Revoke | internal/access/access.go:206-215 | a revocation notes the record's generation |
| Delegations.DelegationStore.Resolve | internal/access/access.go:217-225 | a record resolves exactly while it is neither revoked nor expired |
| Delegations.DelegationStore.GrantFor | internal/access/access.go:227-255 | the grant is the agent's own, with its record's capabilities, times and permissions, exactly while the record is current and the parent still has them |
| Delegations.SnapshotRoundTrip | internal/access/access.go:128-163 | taking a snapshot and loading it gives the store back |
| Delegations.RevokedNeverResolves | internal/access/access.go:206-225 | over every run, restarts included, a revoked identifier never resolves again |
| Delegations.RevocationIsFinal | internal/access/access.go:206-255 | however a run goes on after a revocation, the identifier is neither resolved nor granted |
| Delegations.GrantedStaysWithinParent | internal/access/access.go:179-255 | however late, what an agent is granted lies within the grant it was delegated from and the one presented |
| Delegations.ChainStaysWithinRoot | internal/access/access.go:227-255 | however long a chain of delegations, the last agent's grant stays on the root's document and scope and within its capabilities |
| Delegations.GrantedStaysWithinRoot | internal/access/access.go:227-255 | whatever is granted at any time of a run on a grant that came down a chain stays within the root |
| Delegations.ChainEndsWithRoot | internal/access/access.go:179-255 | a chain whose records fit the grants they are presented with ends no later than its root |
| Delegations.DelegatingExtendsChain | internal/access/access.go:179-255 | a delegation made under a grant and presented with it at any later time extends the chain in time |
| NativeShell.UsableDisplays | internal/desktopapp/native_shell.go:386-402 | exactly the valid displays, in their order, and the first primary one among them, or the first of all when none is |
| NativeShell.NormalizeWindow | internal/desktopapp/native_shell.go:414-438 | the loop picks the first display that shows most of the window |
| NativeShell.FullAreaIffInside | internal/desktopapp/native_shell.go:440-447 | a window is shown whole exactly by the displays it lies inside of |
| NativeShell.NormalizedIsOnOneDisplay | internal/desktopapp/native_shell.go:414-438 | the result is a valid window that lies wholly on one display |
| NativeShell.UnchangedIffOnOneDisplay | internal/desktopapp/native_shell.go:414-438 | a window is left alone exactly when it is valid and lies wholly on one display |
| NativeShell.NormalizingTwiceIsOnce | internal/desktopapp/native_shell.go:414-438 | normalizing is idempotent |
| ProcessTree.Descendants | internal/desktopwails/rss_process_tree.go:110-119 | the fixpoint ends, in any walking order and with any cycles of parents, with exactly the descendants of the root |
| ProcessTree.ProcessTreeRss | internal/desktopwails/rss_process_tree.go:106-129 | the sum over exactly the descendants, modulo the word, or nothing when one of them has no measure |

## Left out

- Sessions are values in the registry's maps, not shared pointers: aliasing between a registered session and the pointer a caller kept is not modelled; generations, autosave numbers and MCP generations are unbounded.
- Lifecycle.ProjectLifecycle.SaveLocked: a save either replaces the file or leaves it; an error reported after the rename, when the directory sync fails, is not modelled.
- Lifecycle.Load: the file's permissions, its JSON syntax and the parsing of times are left to the codec; the file's length is a parameter.
- CrashLimits.FiveLargeEditsOverflow: the length of a written state is a function of it that is at least the sum of the artifacts' sizes; the JSON text itself is not modelled.
- Lifecycle.ProjectLifecycle.Recoveries: the candidates are listed in no particular order, and recent projects, which are only sorted, are left out.
- Shutdown.Application.TearDown: stopping adapters, publishing lifecycle events and converting panics are one answer each; the start sequence of components is not modelled.
- The application's start and recovery entry are single steps, and a cancelled drain only leaves the application draining, as the code does.
- In the query measurement, the shortest decimal of a finite number is the number's own text, and strings are the symbols UTF-8 decoding yields; the decoder and the float printer are not modelled.
- ExportCollection.CollectExportItems: decoding a declared source is a function parameter; the hashes, the requirement checks, the digests and the pagination of an export plan are one-branch facts and left out.
- McpConnections.McpHost.constructor: the field checks of a stored connection and the file's size and permissions are not modelled; a stored snapshot is a map, so it repeats no identifier. The delegation made and revoked on the host is one answer.
- McpConnections.McpHost.List: the sorted order of the answer is not modelled.
- PortableContainer.CanonicalResolved: the JSON text of the document is not modelled; the document is the value that is encoded.
- PortableContainer.MetadataRoundTrip: packs whose manifest is not at the default path, where the decoder looks for it, are outside the round trip; so they are in `ContainerRoundTrip.SelfReadIff` and `ContainerRoundTrip.EmittedReadsBack`.
- ContainerWriter.Write: the size limits, the portable-file checks (paths, case folding, forbidden names and keys, secrets), the state codec and the ZIP itself are left out. What the later compiler stages establish of an accepted input, and that a state is decoded as what was encoded, is stated as `Promised`.
- ContainerWriter.ReadContainer: the portable-file checks, which the writer makes as well, and what the reader recompiles and compares between reading the files and checking the states are not modelled; a project asset that is not read back, for one, may be missed there.
- ContainerFiles.SortFiles: case folding, path safety, forbidden names and secrets are checked elsewhere in the repository and left out.
- Limits.CloneClosedInput: cloning and cancellation are left out; the order of map iteration does not matter to the sums. Image decoding is replaced by its dimensions.
- ClosedInput.CleanInputSharesPath: the later stages that read the manifests' text are not part of this model.
- ClosedInput.PrepareClosedInput: the diagnostics carry their kind only; their texts and their sorting are left out, as is the parsing of a manifest beyond whether it parses.
- ExternalStorage.TokenRoundTrip: signs and leading spaces in a version token of a file this store did not write, and the overflow of its number, are not modelled.
- ExternalStorage.ExternalStore.ApplyReconcile: that a plan's identifier is the one made from its parts is a flag of the plan; credentials and the payload files themselves are left out.
- Policies.Evaluate: the digests of a decision and its diagnostics' texts are left out.
- Delegations.DelegationStore.GrantFor: the delegation digest and the fingerprint of the grant are left out.
- NativeShell.NormalizeWindow: coordinates are unbounded, so the overflow of far-off windows is not modelled.
- Wails, menus, dialogs, sockets, keychain, signals, the compiler's stages, generated codecs, binding tables and MCP pagination are not modelled: plumbing, or large switches without a deeper property.
