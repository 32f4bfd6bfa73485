# Riverhog behaviour in Dafny

A model of the parts of the repository whose correctness rests on agreement between several pieces of code, and
proofs about every input, every run or every reachable state of them.

* **The Gogurt listener.** `Dispatches`, `Observation` and `ListenerStore` are the two tables and their transactions;
  `StoreHistory` replays any sequence of transactions. `ListenerRuntime` is the two-thread runtime as a labelled
  transition system: one label for each step of the main thread, the worker and the world (signals, process exits,
  the clock, crashes, restarts, the installer). A run is any list of labels, of which the disabled ones do nothing.
  Every durable step also goes into a log, and `DispatchLife` says which logs are legal. `ListenerSafety` proves the invariant,
  `ListenerTheorems` the promises, `Verdicts` why an attempt is settled as it is, `ListenerProgress` that
  a runnable dispatch can be served, `LateLaunches` and `LateLaunchRuns` where a promise fails, and `ListenerHistory`
  that the store of a run has a history. `ListenerInstall` is installation and removal on a host whose every call may
  fail.
* **Provider qualification.** `Checkpoints` is the hash-chained record, `Qualification` the loader, the evidence gate
  and the stages of an invocation, `CheckpointFile` the object that rewrites the file, `QualificationRuns` all runs
  of invocations, each of which may be cut off after any of its writes, `QualificationTable` what each writes as a
  table over its answers, and `QualificationResume` which of them get anywhere. `CheckpointJson` and
  `CheckpointReload` print a checkpoint and read it again.
* **The lifecycle event log.** `EventLog` is the table and its methods, `EventLogRuns` any changes between pages.
* **Schemas.** `JsonPointer`, `SchemaWalk`, `SchemaCoverage` and `ExtentDecisions` are the walk, what it visits and
  its identities; `RefExpansion` is the inlining of definitions and `RefMeaning` that it keeps the meaning.
* **Releases.** `DependencyClosure`, `PlatformLocks` and `InstallationLocks` compile closures to lock markers and check
  them; `NoticeBundle`, `NoticeOrder`, `NoticeVerifier` and `NoticeIntegrity` write and check attribution notices.
* **Codecs.** `Base64` and `BrowseTokens` are continuation tokens; `JsonSequence` is the chunked reader.

`Wrappers`, `Bytes`, `Text`, `Sorting` and `Json` hold what the others share.

Hashes, message codes and JSON text are parameters: a hash is injective on JSON values where two must be told apart, and
the values the code prints are read back as they were printed. A checkpoint digest is a constructor applied to the
record it covers. Time is a parameter, in whole seconds or reals.

Where a promise turned out not to hold, the code is modelled as it is and the exact condition is proved:

* An action can be launched after its dispatch was recorded as uncertain. It happens exactly when, between the start of
  the attempt and the creation of its process, the main thread gives up on it or an installer creates the store
  (`LateLaunchIff`, `LaunchedAfterVerdictIff`, with the runs `AbandonedLaunchHappens` and `RevokedByCreateHappens`).
* Rolling back a fresh installation removes a config file that was lying about before it (`Install`,
  `StrayConfigIsLost`).
* An invocation cannot resume a checkpoint in phase restored (`ResumableIff`, `RestoredIsReachedAndKept`).
* An object whose text has a line feed is a legal record of a JSON text sequence; the reader refuses it (`ReadBackIff`,
  `TwoLineObjectIsRefused`).
* The docstring of `inline_type_schema` promises a self-contained schema; a recursive type keeps a local reference
  (`SelfContainedIff`, `RecursiveTypeIsNotSelfContained`).
* The notice writer does not look at empty identity parts, the verifier refuses them (`WrittenIsAcceptedIff`,
  `UnnamedIsWrittenAndRefused`).

`dafny verify dfyconfig.toml` checks the project.

## Model

| member | source | states |
|---|---|---|
| `Observation.DispatchIdInjective` | packages/gogurt-listener-runtime/src/gogurt_listener_runtime/listener.py:401-507 | a dispatch id determines its mount, generation and marker identity (paths hold no NUL, the digest is injective) |
| `Observation.OrderIrrelevant` | packages/gogurt-listener-runtime/src/gogurt_listener_runtime/listener.py:401-507 | the tables after an observation do not depend on the order in which the mounts are visited |
| `ListenerStore.ListenerStore.constructor` | packages/gogurt-listener-runtime/src/gogurt_listener_runtime/listener.py:356-368 | a new database is empty |
| `ListenerStore.ListenerStore.Create` | packages/gogurt-listener-runtime/src/gogurt_listener_runtime/listener.py:369-399 | opening the store is the transaction `Create` of the history: running rows become uncertain |
| `ListenerStore.VisitAll` | packages/gogurt-listener-runtime/src/gogurt_listener_runtime/listener.py:401-507 | the loop over the mounts computes the declarative `Observed` store and the reported ids, and fails exactly when some plan is not acceptable |
| `ListenerStore.ListenerStore.Observe` | packages/gogurt-listener-runtime/src/gogurt_listener_runtime/listener.py:401-507 | commits the whole observation or, when a planner raises or answers badly, changes nothing |
| `ListenerStore.ListenerStore.Runnable` | packages/gogurt-listener-runtime/src/gogurt_listener_runtime/listener.py:509-523 | the ids are runnable, in order, the first in order, and as many as the limit allows |
| `Dispatches.SelectionIsUnique` | packages/gogurt-listener-runtime/src/gogurt_listener_runtime/listener.py:509-523 | that query has one answer: ties in time are broken by the id |
| `ListenerStore.ListenerStore.StartDispatch` | packages/gogurt-listener-runtime/src/gogurt_listener_runtime/listener.py:525-555 | starts exactly a runnable row and otherwise changes nothing |
| `ListenerStore.ListenerStore.FinishDispatch` | packages/gogurt-listener-runtime/src/gogurt_listener_runtime/listener.py:557-599 | settles a running row as completed, retry, failed or uncertain, and raises for an absent row |
| `ListenerStore.ListenerStore.MarkRunningUncertain` | packages/gogurt-listener-runtime/src/gogurt_listener_runtime/listener.py:601-613 | only a running row becomes uncertain |
| `StoreHistory.ReachableStoreOk` | packages/gogurt-listener-runtime/src/gogurt_listener_runtime/listener.py:54-55 | after any sequence of transactions queued rows have 0 attempts, retry 1 to 2, running, completed and uncertain 1 to 3, failed 3; a retry time is set exactly for retry; rows are filed under their own digest |
| `StoreHistory.OneRowPerMarker` | packages/gogurt-listener-runtime/src/gogurt_listener_runtime/listener.py:401-507 | at most one dispatch per mount, generation and marker identity, whatever markers came in between |
| `StoreHistory.ReadyMountHasRow` | packages/gogurt-listener-runtime/src/gogurt_listener_runtime/listener.py:401-507 | after a committed observation every ready mount has its row; a row that was there before is unchanged, and a new one carries the route, the plan and the time |
| `StoreHistory.NewRowIsFresh` | packages/gogurt-listener-runtime/src/gogurt_listener_runtime/listener.py:478-496 | a row that an observation adds belongs to a mount it found ready with a marker not recorded for it, and carries what the planner gave |
| `StoreHistory.GenerationCountsEdges` | packages/gogurt-listener-runtime/src/gogurt_listener_runtime/listener.py:401-507 | a stored generation is the number of absent-to-present edges in the committed observations |
| `StoreHistory.RowsAreKept` | packages/gogurt-listener-runtime/src/gogurt_listener_runtime/listener.py:356-613 | no transaction deletes a row, changes what it is for, or changes a settled row |
| `DispatchLife.RelaunchNeedsRetry` | packages/gogurt-listener-runtime/src/gogurt_listener_runtime/listener.py:913-991 | in a legal log a second launch has a recorded retry before it |
| `DispatchLife.AtMostThreeStarts` | packages/gogurt-listener-runtime/src/gogurt_listener_runtime/listener.py:54-55 | a legal log starts a dispatch at most three times and launches it at most once per start |
| `ListenerSafety.EveryRunIsSafe` | packages/gogurt-listener-runtime/src/gogurt_listener_runtime/listener.py:726-1065 | every run of main thread, worker, signals, process exits, clock, crashes and restarts keeps the invariant: queue, custody, log and thread states agree |
| `ListenerSafety.EveryLogIsLegal` | packages/gogurt-listener-runtime/src/gogurt_listener_runtime/listener.py:726-1065 | the durable event log of every run is a legal life of every dispatch |
| `ListenerTheorems.OneAtATime` | packages/gogurt-listener-runtime/src/gogurt_listener_runtime/listener.py:840-854 | in every state of every run `_queued` holds at most one id, the queue holds only ids in it and none twice, and a running row is the worker's |
| `ListenerTheorems.StartIsNeverRefused` | packages/gogurt-listener-runtime/src/gogurt_listener_runtime/listener.py:913-978 | while the clock does not go back, starting a dequeued id is never refused |
| `ListenerTheorems.RunnableIffDue` | packages/gogurt-listener-runtime/src/gogurt_listener_runtime/listener.py:509-523 | a dispatch is runnable if and only if it was never started, or its last attempt is to be tried again and the wait is over |
| `ListenerProgress.RunnableIsServed` | packages/gogurt-listener-runtime/src/gogurt_listener_runtime/listener.py:840-991 | from every state at rest with something runnable the two threads can start the first in order, launch it, record any exit code as completed, retry or failed with its times, and come to rest with nothing else changed |
| `Verdicts.SettlesAsDeserved` | packages/gogurt-listener-runtime/src/gogurt_listener_runtime/listener.py:964-974 | what a commit of the worker writes into the row and the log, against what an observer saw of the process and the stop flag |
| `Verdicts.EverySettlementIsDeserved` | packages/gogurt-listener-runtime/src/gogurt_listener_runtime/listener.py:557-613 | every settlement in the log of every run is the deserved one, or the attempt was taken away by giving up or by creating the store, and is in doubt |
| `Verdicts.CompletedIffReturnedZero` | packages/gogurt-listener-runtime/src/gogurt_listener_runtime/listener.py:580-591 | an attempt is completed if and only if its worker settled it and its process returned 0; in doubt if and only if it was taken away or cut short by a stop; otherwise retry below three attempts and failed at three |
| `Verdicts.StopPreventsLaunch` | packages/gogurt-listener-runtime/src/gogurt_listener_runtime/listener.py:944-946 | a worker that sees the stop flag before the launch never launches that attempt, whatever happens after |
| `ListenerTheorems.ReturnMeansSettled` | packages/gogurt-listener-runtime/src/gogurt_listener_runtime/listener.py:1040-1065 | a normal return of `run` means that every started attempt was settled, no row is running and no failure was recorded |
| `ListenerTheorems.DeadWorkerMakesRunRaise` | packages/gogurt-listener-runtime/src/gogurt_listener_runtime/listener.py:993-1065 | once the worker is dying or dead, or the main thread judged it unsettled, no continuation without a restart lets `run` return |
| `ListenerHistory.RunIsReplay` | packages/gogurt-listener-runtime/src/gogurt_listener_runtime/listener.py:356-613 | the store of every run is the replay of its durable steps as store transactions |
| `ListenerHistory.EveryRunKeepsTheStore` | packages/gogurt-listener-runtime/src/gogurt_listener_runtime/listener.py:401-507 | so in every run there is one row per mount, generation and marker, and generations count the edges seen |
| `ListenerTheorems.NoRelaunchWithoutRetry` | packages/gogurt-listener-runtime/src/gogurt_listener_runtime/listener.py:525-613 | two launches of one dispatch have a durable retry between them |
| `ListenerTheorems.NothingAfterVerdict` | packages/gogurt-listener-runtime/src/gogurt_listener_runtime/listener.py:601-613 | nothing follows completed or failed, and only a launch of the same attempt can follow uncertain |
| `LateLaunches.UncertainIffRevoked` | packages/gogurt-listener-runtime/src/gogurt_listener_runtime/listener.py:913-991 | while the worker has an attempt in hand its row is uncertain if and only if, since the start, the main thread gave up on this id or the installer created the store |
| `LateLaunches.LateLaunchIff` | packages/gogurt-listener-runtime/src/gogurt_listener_runtime/listener.py:776-817 | a launch is the first of its attempt; it comes after a verdict if and only if one of those two steps came between start and launch, and otherwise the row is running |
| `LateLaunches.LaunchedAfterVerdictIff` | packages/gogurt-listener-runtime/src/gogurt_listener_runtime/listener.py:776-817 | over whole runs: the log has a launch after a verdict if and only if some enabled launch was revoked first |
| `LateLaunchRuns.AbandonedLaunchHappens` | packages/gogurt-listener-runtime/src/gogurt_listener_runtime/listener.py:776-817 | a run in which the main thread gives up, records uncertain, and the action is launched afterwards |
| `LateLaunchRuns.RevokedByCreateHappens` | packages/gogurt-listener-runtime/src/gogurt_listener_runtime/listener.py:1548-1666 | a run in which the installer, which holds no lock, creates the store beside a live process, and the action is launched afterwards |
| `ListenerTheorems.StartsAreBoundedAndSpaced` | packages/gogurt-listener-runtime/src/gogurt_listener_runtime/listener.py:54-55 | at most three starts, at most one launch each, the second at least 5 and the third at least 30 seconds after the settled attempt before it |
| `ListenerTheorems.CrashedAttemptBecomesUncertain` | packages/gogurt-listener-runtime/src/gogurt_listener_runtime/listener.py:369-399 | an attempt that was running at a crash is uncertain whenever a process runs again, whatever happens after |
| `ListenerInstall.PastLookIff` | packages/gogurt-listener-runtime/src/gogurt_listener_runtime/listener.py:1400-1443 | a wait for health ends at the first look that shows a wanted health, a released lock where the service is down, and settled custody |
| `ListenerInstall.WaitForAbsence` | packages/gogurt-listener-runtime/src/gogurt_listener_runtime/listener.py:1446-1475 | succeeds if and only if the registration is gone and one of the rounds, at the position it answers, saw a free lock and then no process |
| `ListenerInstall.RollBack` | packages/gogurt-listener-runtime/src/gogurt_listener_runtime/listener.py:1548-1666 | has no errors if and only if every call of it succeeds and the looks are good, and then the former bytes, command and health are back, or nothing is left of a fresh install |
| `ListenerInstall.Install` | packages/gogurt-listener-runtime/src/gogurt_listener_runtime/listener.py:1514-1666 | for every script of adapter answers: when it is refused, already healthy or, if fresh, installed; that an old service is seen down before its config is touched; and the exact condition under which rolling back restores config and registration |
| `ListenerInstall.HostWithStray` | packages/gogurt-listener-runtime/src/gogurt_listener_runtime/listener.py:1514-1666 | there is a host with a config file that is not registered, on which promotion alone will fail |
| `ListenerInstall.StrayConfigIsLost` | packages/gogurt-listener-runtime/src/gogurt_listener_runtime/listener.py:1548-1666 | on every such host the rollback reports no error and the file is gone |
| `ListenerInstall.Uninstall` | packages/gogurt-listener-runtime/src/gogurt_listener_runtime/listener.py:1742-1779 | deletes state only after such a round, and nothing where the lock is held or the process is there at every look; succeeds if and only if every call does |
| `Checkpoints.Merge` | scripts/provider_qualification.py:1908-1952 | the dictionary loop computes the declarative merge, and refuses exactly when it does |
| `Checkpoints.MergeFacts` | scripts/provider_qualification.py:1908-1952 | a merge holds exactly the old and the new artifacts, one for each surface |
| `Checkpoints.AdvanceChains` | scripts/provider_qualification.py:1908-1952 | advancing keeps the chain of digests, the path of transitions and the sorted, growing artifacts |
| `Checkpoints.BindChains` | scripts/provider_qualification.py:1955-1980 | binding keeps the chain and never changes a bound key |
| `Checkpoints.NewChains` | scripts/provider_qualification.py:1856-1905 | a new checkpoint starts a chain |
| `Checkpoints.ChainFacts` | scripts/provider_qualification.py:1856-1980 | along a chain the history is a path of transitions from created to the current phase, and the generation is its length less one, plus one for a bound key |
| `Checkpoints.ChainOnlyGrows` | scripts/provider_qualification.py:1856-1980 | along a chain artifacts are never lost or changed and a bound key stays |
| `Qualification.Evidence` | scripts/provider_qualification.py:2122-2151 | the evidence loops raise exactly when the gate predicate fails |
| `CheckpointFile.Operation.Store` | scripts/provider_qualification.py:1983-2000 | a rewrite replaces the file, and the file is again what a crash after this write would leave |
| `CheckpointFile.Operation.Operate` | scripts/provider_qualification.py:3566-3939 | the object that rewrites its file step by step does what the stage functions say; at every moment the file is the one that a round cut off there leaves |
| `QualificationRuns.OperateOk` | scripts/provider_qualification.py:3566-3939 | every write of an invocation that starts from a good checkpoint is good and a successor of it |
| `QualificationTable.OperateFollowsTable` | scripts/provider_qualification.py:3566-3939 | for every good checkpoint, phase and set of answers: write by write the history, assertions, collection, job and artifacts are those of the table, and so is the way the invocation ends |
| `QualificationTable.RoundFollowsTable` | scripts/provider_qualification.py:3566-3939 | the file after an invocation cut off after any write holds the first so many rows of the table |
| `QualificationTable.RestoreIsAnswered` | scripts/provider_qualification.py:3787-3830 | a restore under way fails the run if and only if the deadline passed or the job failed, was canceled or expired, and cleanup succeeds, naming that reason; it is noted as pending if and only if the job is still requested in time; it goes on if and only if the job is ready in time |
| `QualificationRuns.NewLoads` | scripts/provider_qualification.py:2002-2119 | the loader accepts a new checkpoint |
| `QualificationRuns.EveryFileLoads` | scripts/provider_qualification.py:2002-2119 | the loader accepts what the file holds after any invocations, each cut off after any of its writes |
| `CheckpointJson.ReloadsSame` | scripts/provider_qualification.py:312-343 | reading the dictionary of a checkpoint field by field, with its sorted tuples and its digest check, gives the same checkpoint |
| `CheckpointJson.TupleIff` | scripts/provider_qualification.py:2002-2119 | assertions are read from exactly the sorted tuple of their names |
| `CheckpointReload.EveryFileReloads` | scripts/provider_qualification.py:2002-2119 | so does the file of every run |
| `QualificationRuns.CleanedIsComplete` | scripts/provider_qualification.py:2122-2151 | a cleaned checkpoint has all required assertions and surfaces, for both corpus profiles |
| `QualificationRuns.EvidenceNeverRaises` | scripts/provider_qualification.py:2122-2151 | over all runs and restarts evidence is produced if and only if the phase is cleaned or failed |
| `QualificationRuns.PhaseNeverMovesBack` | scripts/provider_qualification.py:74-85 | the phase never moves backwards over any invocations and restarts |
| `QualificationRuns.RestoredIsNotResumed` | scripts/provider_qualification.py:3787-3939 | an invocation that starts in restored writes the same checkpoint and does no more |
| `QualificationRuns.RestoredIsStuck` | scripts/provider_qualification.py:3787-3939 | a run whose file holds restored between invocations stays there for ever |
| `QualificationResume.RestoredIsReachedAndKept` | scripts/provider_qualification.py:3787-3939 | from every new checkpoint some invocation leaves restored in the file, and no invocations after it change the file |
| `QualificationResume.ResumableIff` | scripts/provider_qualification.py:3566-3939 | some invocation moves a good checkpoint on if and only if its phase is not restored, cleaned or failed |
| `QualificationRuns.OneInvocationPassesRestored` | scripts/provider_qualification.py:3787-3939 | a run gets past restored only inside one invocation that did not start there |
| `EventLog.CursorRoundTrip` | packages/lifecycle-events/src/lifecycle_events/sqlite_store.py:58-66 | a printed cursor parses to itself |
| `EventLog.CursorIff` | packages/lifecycle-events/src/lifecycle_events/sqlite_store.py:58-66 | a text is read as a cursor if and only if it is empty, for nought, or a number with an optional sign and white space around it is written in it |
| `EventLog.SQLiteLifecycleEventLog.Append` | packages/lifecycle-events/src/lifecycle_events/sqlite_store.py:78-112 | is the change that inserts one row under a fresh greater sequence, or raises for a blank owner or a repeated id and changes nothing |
| `EventLog.SQLiteLifecycleEventLog.AppendOnce` | packages/lifecycle-events/src/lifecycle_events/sqlite_store.py:114-152 | inserts only for a new id and answers the sequence of the row with the id |
| `EventLog.SQLiteLifecycleEventLog.ExpireContext` | packages/lifecycle-events/src/lifecycle_events/sqlite_store.py:154-168 | is the change that sets the expiry of exactly the live matching contexts, and answers how many |
| `EventLog.SQLiteLifecycleEventLog.ReadPage` | packages/lifecycle-events/src/lifecycle_events/sqlite_store.py:170-210 | is the purging change and answers the page of the table after it, or raises for a bad cursor or limit |
| `EventLog.Collect` | packages/lifecycle-events/src/lifecycle_events/sqlite_store.py:199-208 | the loop pairs every selected event with its context |
| `EventLogRuns.EventsAreKept` | packages/lifecycle-events/src/lifecycle_events/sqlite_store.py:78-221 | no change loses or alters an event, and a context only goes live, expiring, purged |
| `EventLogRuns.ExpiredContextIsNeverDelivered` | packages/lifecycle-events/src/lifecycle_events/sqlite_store.py:181-221 | no page taken at or after an expiry delivers that context, however many changes come between |
| `EventLogRuns.ContextLivesUntilExpiry` | packages/lifecycle-events/src/lifecycle_events/sqlite_store.py:154-221 | through any changes a context is there, unchanged and with the expiry it has or got first, if and only if no purge came at or after that expiry |
| `EventLogRuns.ContextIsDeliveredIff` | packages/lifecycle-events/src/lifecycle_events/sqlite_store.py:181-221 | a page that delivers an event delivers its context if and only if the context did not run out before or at that page |
| `EventLogRuns.RepeatedAppendAnswersTheSame` | packages/lifecycle-events/src/lifecycle_events/sqlite_store.py:114-152 | across any changes a row with an id keeps the sequence it was first given, so a repeated append answers the same |
| `EventLogRuns.FollowingIsExact` | packages/lifecycle-events/src/lifecycle_events/sqlite_store.py:170-210 | following the cursor through any interleaved changes delivers exactly the matching events after the start, in order, without gap or repeat |
| `EventLogRuns.FollowingTextIsExact` | packages/lifecycle-events/src/lifecycle_events/sqlite_store.py:58-66 | a reader that keeps only the printed cursor gets exactly the same |
| `EventLogRuns.PageAdvances` | packages/lifecycle-events/src/lifecycle_events/sqlite_store.py:199-210 | the cursor never moves back and a nonempty page moves it forward |
| `EventLogRuns.LastPageBringsAll` | packages/lifecycle-events/src/lifecycle_events/sqlite_store.py:199-210 | after a page that says there is no more the reader has everything |
| `EventLogRuns.MoreIsMore` | packages/lifecycle-events/src/lifecycle_events/sqlite_store.py:199-210 | a page says there is more if and only if something comes after its cursor, and then it is full |
| `JsonPointer.UnescapeEscape` | scripts/extent_contract.py:130-131 | unescaping inverts `_escape` for every string (sections 3 and 4 of RFC 6901) |
| `JsonPointer.ParseRender` | scripts/extent_contract.py:130-135 | parsing a rendered pointer gives its tokens back |
| `JsonPointer.PointerRenders` | scripts/extent_contract.py:134-135 | `_pointer` is the rendering of its parts, and of no parts the pointer to an empty key |
| `JsonPointer.ParseExtended` | scripts/extent_contract.py:143-159 | a pointer with rendered tokens after it parses to its own tokens and those |
| `SchemaWalk.WalkAgrees` | scripts/extent_contract.py:162-176 | the walk by string pointers visits the nodes of the walk by tokens, in the same order |
| `SchemaWalk.EveryPointerResolves` | scripts/extent_contract.py:143-176 | where the starting pointer resolves in a document to the schema, every pointer of the walk resolves in that document to the node beside it |
| `SchemaWalk.PointersDiffer` | scripts/extent_contract.py:143-176 | all pointers of one walk differ |
| `SchemaCoverage.ChildrenExactly` | scripts/extent_contract.py:143-159 | the children are exactly the subschemas under the listed keywords, by name, alone or by index |
| `SchemaCoverage.KeptIff` | scripts/extent_contract.py:162-176 | the test on the text of the suffix leaves out exactly the definitions |
| `SchemaCoverage.WalkCoversExactly` | scripts/extent_contract.py:162-176 | the walk yields a pointer and a node if and only if going down through subschemas along its tokens leads to the node |
| `ExtentDecisions.SchemaDecisions` | scripts/extent_contract.py:534-661 | the loop appends the identities of the decided nodes in walking order |
| `ExtentDecisions.IdentitiesDiffer` | scripts/extent_contract.py:547-661 | all decision identities of one call differ |
| `DependencyClosure.Closure` | scripts/release_installation.py:201-220 | on every graph the worklist ends with exactly the names reachable through markers that hold, or with the error of a reachable name that is missing |
| `DependencyClosure.SetClosure` | scripts/release.py:1347-1356 | the same for the set graph, for every order in which sets are iterated |
| `DependencyClosure.ClosureIsLeast` | scripts/release_installation.py:201-220 | the reachable set is the least set with the root and all that its members need |
| `DependencyClosure.ClosureIsUnique` | scripts/release.py:1347-1356 | two results for one root are equal, whatever was popped first |
| `InstallationLocks.PlatformClosures` | scripts/release_installation.py:176-237 | one set for each platform: the projects that a chain of declared dependencies with markers that hold there leads to; it raises exactly for a root that is no project |
| `InstallationLocks.ProjectsReachProjects` | scripts/release_installation.py:176-198 | from a project declared dependencies lead only to projects |
| `PlatformLocks.MarkerIsExact` | scripts/release_installation.py:304-316 | a compiled marker holds on exactly the platforms it was compiled from, and compiling fails exactly for no platform |
| `InstallationLocks.WriteLock` | scripts/release_installation.py:406-459 | the lock is the exported blocks and the first-party blocks; it raises exactly when a workspace name was exported |
| `InstallationLocks.PlatformRequirements` | scripts/release_installation.py:534-577 | the selected packages are those whose marker is absent or holds; it raises exactly when one has no wheel |
| `InstallationLocks.ProjectionIsClosure` | scripts/release_installation.py:850-861 | evaluating the written markers on a platform gives back exactly that platform's first-party closure |
| `InstallationLocks.VerifyComponents` | scripts/release_installation.py:1189-1218 | the loops accept exactly the manifests in which every component verifies |
| `InstallationLocks.BuildInstallation` | scripts/release_installation.py:801-930 | fails exactly for listed reasons; otherwise it passes the closure check, records those sets, and indexes exactly what the roots and chosen distributions lead to |
| `Base64.DecodeEncode` | packages/http-api-contracts/src/http_api_contracts/browse.py:63-71 | decoding inverts encoding for every byte string (section 5 of RFC 4648) |
| `Base64.EncodeInjective` | packages/http-api-contracts/src/http_api_contracts/browse.py:63-64 | no two byte strings have one encoding |
| `BrowseTokens.ParsePosition` | packages/http-api-contracts/src/http_api_contracts/browse.py:78-101 | the loop answers the parsed items or the first error |
| `BrowseTokens.PositionIff` | packages/http-api-contracts/src/http_api_contracts/browse.py:78-101 | a list reads as a position if and only if it has at most eight items and each stands for its scalar, within the bounds |
| `BrowseTokens.IssuesIff` | packages/http-api-contracts/src/http_api_contracts/browse.py:127-153 | when `issue` answers a token, and which |
| `BrowseTokens.AcceptedIff` | packages/http-api-contracts/src/http_api_contracts/browse.py:155-201 | of any text: `verify` answers a position if and only if the text is a body with its own signature, and the body continues this request, is in time and holds that position |
| `BrowseTokens.PositionRoundTrip` | packages/http-api-contracts/src/http_api_contracts/browse.py:78-105 | a parsed position survives its payload form |
| `BrowseTokens.IssuedTokenVerifies` | packages/http-api-contracts/src/http_api_contracts/browse.py:127-201 | the exact answer of `verify` for an issued token, at any time and for any request: the position for the same request until expiry, otherwise the first refusal among operation, expiry, principal and selectors |
| `BrowseTokens.TokenLivesItsLifetime` | packages/http-api-contracts/src/http_api_contracts/browse.py:111-125 | a token is accepted for its request if and only if its lifetime is not over |
| `BrowseTokens.TamperedIsRefused` | packages/http-api-contracts/src/http_api_contracts/browse.py:170-201 | with distinct message codes, a token whose body was changed under its signature is refused at every time for every request |
| `BrowseTokens.Base64Restores` | packages/http-api-contracts/src/http_api_contracts/browse.py:63-71 | the codec's text form meets the assumption the token theorems make |
| `JsonSequence.IterRecords` | packages/http-api-contracts/src/http_api_contracts/__init__.py:193-210 | for every way of cutting a stream into chunks the records and the final accept or error are those of the whole stream |
| `JsonSequence.ReadBack` | packages/http-api-contracts/src/http_api_contracts/__init__.py:193-210 | records written as RS, one line of object text, LF are read back, whatever follows |
| `JsonSequence.ReadBackIff` | packages/http-api-contracts/src/http_api_contracts/__init__.py:193-210 | written object texts are read back (section 2 of RFC 7464) if and only if none of them has a line feed |
| `JsonSequence.TwoLineObjectIsRefused` | packages/http-api-contracts/src/http_api_contracts/__init__.py:193-210 | an object printed over two lines is refused |
| `JsonSequence.EveryStreamSplits` | packages/http-api-contracts/src/http_api_contracts/__init__.py:193-210 | every stream is written records, which are the ones yielded, and a tail that yields none |
| `JsonSequence.AcceptsExactly` | packages/http-api-contracts/src/http_api_contracts/__init__.py:193-210 | a stream is accepted if and only if it is a sequence of written records |
| `RefExpansion.Expand` | packages/http-api-contracts/src/http_api_contracts/__init__.py:420-436 | terminates for every table of definitions, and keeps objects objects and arrays arrays |
| `RefMeaning.InliningKeepsMeaning` | packages/http-api-contracts/src/http_api_contracts/__init__.py:420-436 | for every schema and table of definitions, recursive ones included: the same is read at every path that enters no discriminator, following references, before and after |
| `RefMeaning.InlinedStandsAlone` | packages/http-api-contracts/src/http_api_contracts/__init__.py:413-441 | where definitions resolve in no circle the result says without them what the schema says with them |
| `RefMeaning.DiscriminatorKeepsItsName` | packages/http-api-contracts/src/http_api_contracts/__init__.py:433-436 | a discriminator keeps exactly its property name, or all of itself if it has none |
| `RefExpansion.InlinedIsSelfContained` | packages/http-api-contracts/src/http_api_contracts/__init__.py:413-441 | when every chain of live references resolves and repeats no name, no local reference is left and the result needs no definitions |
| `RefExpansion.SelfContainedIff` | packages/http-api-contracts/src/http_api_contracts/__init__.py:413-441 | that condition is exact, discriminators included |
| `RefExpansion.RecursiveTypeIsNotSelfContained` | packages/http-api-contracts/src/http_api_contracts/__init__.py:425-428 | a definition that refers to itself keeps a local reference |
| `NoticeBundle.WriteBundle` | scripts/release.py:1137-1214 | stores the text of every notice under its digest and nothing else, and refuses only empty, repeated, textless or clashing components |
| `NoticeVerifier.VerifyBundle` | scripts/release.py:2183-2268 | accepts exactly the archives that meet the declarative rules, and counts the components |
| `NoticeIntegrity.AcceptedIsAddressed` | scripts/release.py:2183-2268 | every text of an accepted bundle is filed under its own digest and mentioned in the index |
| `NoticeIntegrity.IndexFixesContents` | scripts/release.py:2183-2268 | two accepted bundles with one index hold the same texts: none can be added, dropped or changed |
| `NoticeOrder.BundleIsReproducible` | scripts/release.py:1137-1214 | the same components, listed in any order and with their notices in any order, give the same contents |
| `NoticeVerifier.WrittenIsAcceptedIff` | scripts/release.py:1137-1214 | the verifier accepts a written bundle if and only if every component has a kind, a name and a version |
| `NoticeVerifier.WriteThenVerify` | scripts/release.py:2183-2268 | writing and then verifying gives the component count back under exactly that condition |
| `NoticeVerifier.UnnamedIsWrittenAndRefused` | scripts/release.py:1137-1214 | a component without a name is written and then refused |

## Left out

- SQLite, file locks, file modes, signals, heartbeat files and logging are atomic steps or nothing at all; `process.wait` returns.
- The order in which mounts are visited (by case-folded path): `Observation.OrderIrrelevant` shows that it does not matter to the tables.
- The health cascade of the listener and the field checks of its config are an opaque health value and an opaque parser.
- Provider calls of the qualification are answers that an invocation gets; bucket and distribution reconciliation is not modelled.
- Checkpoints.BindChains: the key arrives already stripped and case-folded.
- QualificationRuns.EveryFileLoads: the run's identity is one that the config loader resolves.
- CheckpointJson.ReloadsSame: keys are constructors and not texts; `str()` and `int()` of fields of another type are parameters that keep texts and numbers; an assertion's name identifies it; a history with a phase that is none, or a negative generation, which no digest of a run can cover, is refused while it is read.
- ListenerInstall.WaitForAbsence: says nothing of the lock after the last look, because the looks are taken one after the other.
- EventLog.CursorIff: cursors with digits or spaces beyond ASCII, underscores, or more than 64 bits are not modelled.
- EventLog.SQLiteLifecycleEventLog.ReadPage: timestamps are whole numbers.
- Base64.DecodeEncode: how the lenient decoder treats text that no encoder wrote is modelled, and nothing is proved about it.
- RefMeaning.InliningKeepsMeaning: paths into a discriminator, of which the code keeps only the property name.
- ExtentDecisions.SchemaDecisions: which decision a node needs is a parameter; only identities and their order are modelled.
- `_named_definitions`, the name heuristics and the other decision sources of the extent contract.
- InstallationLocks.BuildInstallation: lock text is the table of its blocks; wheel ranking is a yes or no per package and platform; the marker language beyond comparisons joined by "or" is an evaluator.
- BrowseTokens.IssuedTokenVerifies: the domain prefix of the signed message is part of the message code; strings are valid Unicode.
- RefExpansion.SelfContainedIff: no reference has a `propertyName` beside it, which JSON Schema gives no meaning; there trimming may remove the reference that would have stayed.
- NoticeBundle.WriteBundle: the archive lists its members in some order, and gzip and tar framing is not modelled; member names are the index, the file of a digest, or other text.
- Time zones in `repeats.py`, licenses, images, governance and timing scripts, and command-line and OpenAPI plumbing would only add easy members.
