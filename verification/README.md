# Verified models of the session, acceptance and supply-chain scripts

This project models the decision logic of a set of Python scripts that run a paid GPU session,
accept native CI evidence, inventory container images and licences, pin retrieval snapshots,
replay captured pools, prepare locked wheels, select tests, relay a port-forward, and print the
small files other tools trust. Each module follows one script or one protocol. Code that changes
state step by step is a class or a method with a loop, proved against a specification; the
promises about whole runs, and between one script and the next, are lemmas.

`dafny verify dfyconfig.toml` checks everything.

## The modules

- **SessionRelease** — one controller and an assignment service that may answer anything, or
  nothing, or late. The controller's history is a ghost trace; safety says what the listing
  immediately before each allocation, stop and release showed. Time is a real-valued clock.
- **SessionProtocol** — the host and the remote runtime as two programs that share only the
  runtime's files. A run is any sequence of steps of either side, of time, and of the runtime
  dying; every step may fail or be interrupted. An invariant holds of every state of every run.
- **UsageBudget** — the compute-unit budget: the bounded history and its summary, the deadline that
  only shrinks, and the arithmetic that keeps spending inside the cap to the end of the reserve.
- **CaptureBudget** — the pools of output allowance shared by the controller's children, with the
  persisted record a recovery starts from, and the drain that keeps a prefix of each stream.
- **RunAttempts**, **NativeLanes** — the walk back through rerun attempts to the one that executed a
  job, and the fold of per-job records into lane statuses, pending lanes and acceptance.
- **LayerOverlay** — the pass over image layers that remembers only package metadata and links. Its
  meaning is a separate, top-down definition of what the final image holds at a path ("Whiteouts"
  and "Opaque Whiteout", OCI Image Format Specification, layer.md).
- **LicenseExpression** — the recursive-descent classifier of licence expressions (Annex D of SPDX
  Specification 2.3), against trees, a printer and an evaluator of trees.
- **SnapshotPin** — the snapshot policy and the server operations, over whole histories of record
  runs, gate runs and outside changes. The server may fail any call, and may report a recovery it
  did not perform.
- **CapturePool** — recording retrieval legs, turning a leg into rows, and rebuilding the pool from
  rows in any order.
- **DependencyLock**, **WheelPreparation** — the lock generator and its loader, and the preparation of
  a wheelhouse with a crash possible at every durable write.
- **LocalSelection** — the import closure, the tests of a changed path, and the selection.
- **Relay** — one relayed connection over timed rounds of its loop.
- **CodeOwners** — the generated code-owner file, printed and read back.
- **DevkitKey** — the length-prefixed stream a kit's key hashes, with its decoder.
- **Prelude**, **Sorting**, **Text** — shared types, Python's `sorted`, and splitting and joining text.

Remote services, file systems, clocks and hashes are inputs: values chosen arbitrarily (`*`),
abstract maps, uninterpreted functions. Hashes are assumed free of collisions only where a lemma
says so in its `requires`.

## What the proofs turned up

- **The lock can be written and then refused.** `generate` puts no bound on the manifest it writes,
  while `load` refuses one above 8,000,000 bytes. `DependencyLock.ManifestOf` is the manifest that
  acceptable reports lead to; `DependencyLock.Checkout.Generate` states that the profiles load as
  reported if and only if it fits, which the reports decide before the call. `DependencyLock.AcceptedButNotLoaded`
  gives three reports, each within the reader's own bound, whose manifest no profile loads from.
- **A captured leg comes back exactly when its trimmed id lists repeat nothing and hold no empty id.**
  `legs_to_record` checks neither; `CapturePool.RoundTrip` is an if-and-only-if. Of the legs that do
  not come back, the replay refuses some and shortens the others without a word:
  `CapturePool.RefusedExactly` states that the rows are refused if and only if a dense id repeats, or
  a sparse id that is not dense, or an id is empty. `CapturePool.RepeatedPointIsRefused` and
  `CapturePool.RepeatedSparsePointIsLost` are one leg of each kind.
- **Strays never count as drift.** A comment in `resolve_snapshot_action` (scripts/harness.py:224) counts
  a stray snapshot that sorts first as drift, but the fingerprint lists a surviving recorded pin
  first whatever else exists; `SnapshotPin.GatePolicy` states what the code does.
- **Equal counts pass for equal indices.** Drift is judged by the number of points. Under drift a gate run
  evaluates the live index when its count is the baseline's and the pin's content otherwise;
  `SnapshotPin.GateUnderDrift` states that this is the baseline's index exactly when that index is
  the recorded one, and, for a pin made by the last record run, exactly when the live index is the
  recorded one or differs from it in its count. `SnapshotPin.GateUnderAlways` is the same for an
  unconditional restore, which a server that reports a recovery it did not perform can void;
  `SnapshotPin.EqualCountsAreNotTold` is a history in which another index is evaluated.
- **A stream with a request waiting can be dropped.** The relay reads no protocol: whatever the server
  sends clears `awaiting` (scripts/kube_forward.py:124 and 143), while the module's text says that a stream waiting
  for a response never is dropped. The inputs of a run say how many requests each chunk of the
  client's begins and how many answers each chunk of the server's completes. `Relay.DropAbandonsRequest`
  states, for every run, that a drop follows a chunk of the server's and leaves requests waiting if and
  only if that chunk completes fewer answers than were outstanding when it was forwarded. Three runs
  fail: a request crossing the answer to the one before it (`Relay.RequestArrivingWithAnAnswerIsAbandoned`),
  an answer in pieces (`Relay.HalfAnswerIsAbandoned`), and a second request sent before the first was
  answered (`Relay.SecondRequestIsAbandoned`). A client that takes turns loses its request exactly to an
  answer in pieces (`Relay.TurnTakerLosesOnlyPieces`); with answers that arrive whole it loses none
  (`Relay.TurnsAndWholeAnswersSuffice`).
- **A log is not always a prefix.** A log that takes only part of a chunk is written on from the next
  chunk. `CaptureBudget.LogIsCutIff` states that a log is the output cut at one position if and only
  if nothing is accepted after the first short write; `CaptureBudget.ShortThenMoreLeavesGap` is a log
  that is not, and `CaptureBudget.MeetsShortWrite` a capture that comes to it. The kept output is
  always exactly a prefix.

## Model

| member | source | states |
|---|---|---|
| SessionRelease.Run.Owned | scripts/colab.py:1119-1135 | the answer is backed by the listing it adds to the trace; the endpoint is bound at most once and only by a run that attempted an allocation; against an honest service the answer, or while the controller's own output is in order a refusal, is decided by the true assignments |
| SessionRelease.Run.Allocate | scripts/colab.py:1805-1818 | at most one session is asked for, only after a listing without its name and after the attempt is on disk; success means the new session was seen as owned; nothing else of the manifest changes, its release included |
| SessionRelease.Run.Command | scripts/colab.py:1018-1094 | a call past its deadline is refused without taking time and without running the tool; any other ends by its timeout and its deadline plus its own clean-up, and is refused only for a reason of the service's or of the controller's own output |
| SessionRelease.Run.Export | scripts/colab.py:1656-1694 | the export changes nothing of ownership but a first binding, keeps a releasable session releasable, and leaves 30 seconds or two thirds of the window |
| SessionRelease.Run.FinalUsage | scripts/colab.py:1171-1193 | the usage query takes at most five seconds and a quarter of what is left |
| SessionRelease.Run.BeforeRelease | scripts/colab.py:1656-1701 | together they leave the release loop three quarters of 30 seconds or of two thirds of the window |
| SessionRelease.Run.SendStop | scripts/colab.py:1708-1708 | a stop is sent only right after a listing that maps the run's name to its endpoint, not at all past the deadline, and no request escapes the trace |
| SessionRelease.Run.StopIfOwned | scripts/colab.py:1707-1708 | a calm service is left without this run's session; an honest one with a session that can still be released |
| SessionRelease.Run.TryRelease | scripts/colab.py:1707-1714 | success means the last listing showed neither the name nor the endpoint; a calm service releases the session in one pass; an honest one refuses only when the deadline cut the pass off |
| SessionRelease.Run.Release | scripts/colab.py:1704-1727 | the loop ends by the deadline, gives up only on a refusal or when no retry fits, spends five seconds a retry, records a release only right after a listing that shows absence, succeeds against an honest service that is calm from some moment with a retry and three calls still to fit, and against a calm one within three calls |
| SessionRelease.Run.Cleanup | scripts/colab.py:1644-1727 | a run that never asked for a session sends nothing; otherwise the recorded outcome is that of the release loop, which succeeds against an honest service that recovers in time whatever the export before it did, and against a calm one within 25 seconds, two overruns and three calls |
| SessionRelease.Run.Recover | scripts/colab.py:1987-1990 | after a death at any point the recovery knows of any session that may have been asked for, is held to the recorded endpoint, and finds a release recorded only if one was seen |
| SessionRelease.SafeBind | scripts/colab.py:1128-1132 | binding the first endpoint keeps every earlier step justified |
| SessionProtocol.NothingRunsBeforeApproval | scripts/colab_runtime.py:290-313 | in every run no install, download or model process has started unless the host verified tunnel and gateway and uploaded its approval; starts follow one fixed plan, each after a passed guard; the CPU profile starts none |
| SessionProtocol.ModelsAndListenersExclude | scripts/colab_runtime.py:926-938 | no model server runs beside an open transport listener |
| SessionProtocol.WorkloadFindsEveryServerWarm | scripts/colab.py:1837-1863 | the workload starts only after every server of the profile was warmed, in the profile's order |
| SessionProtocol.StopFollowsQuiescence | scripts/colab.py:1644-1655 | the remote is told to stop only after the workload ended or could not be ended |
| SessionProtocol.HandshakeIsNotMissed | scripts/colab.py:1406-1432 | a host still waiting for the transport stage has not missed it while the remote lives |
| SessionProtocol.StagesOnlyAdvance | scripts/colab_runtime.py:844-860 | what the remote publishes moves only forward until it shuts down, and then stays shut down |
| SessionProtocol.NothingStartsAfterStop | scripts/colab_runtime.py:862-866 | once a stop is requested or the deadline has passed the remote starts nothing more, ever |
| SessionProtocol.StoppedWasAsked | scripts/colab_runtime.py:1284-1305 | `stopped` is published only after the host asked for it; a failure or an interrupt ends in `failed` |
| SessionProtocol.RunHolds | scripts/colab_runtime.py:1257-1311 | the invariant behind these holds after every interleaving of host, remote, time and loss |
| UsageBudget.History.Record | scripts/colab.py:959-967 | the kept list is the tail of the unbounded log and the totals count all of it |
| UsageBudget.Controller.Observe | scripts/colab.py:1153-1169 | the log grows by the reading and the summary stays first, last, least balance, greatest rate and count of the whole log |
| UsageBudget.SummaryGrows | scripts/colab.py:1164-1168 | the updated summary is that of the extended log |
| UsageBudget.Rebuild | scripts/colab.py:1157-1163 | a summary missing from an older record is rebuilt from its list |
| UsageBudget.Controller.Budget | scripts/colab.py:1195-1231 | exactly which readings and missed polls are accepted, and that the deadline becomes the earlier of itself and what the reading allows |
| UsageBudget.Controller.Supervise | scripts/colab.py:1864-1873 | the deadline after any polls is that of the accepted readings, each made before the deadline the earlier ones left |
| UsageBudget.ExpiryNeverGrows | scripts/colab.py:1230-1230 | over any sequence of readings the deadline never moves later |
| UsageBudget.DeadlineBound | scripts/colab.py:1227-1230 | the final deadline plus the reserve is no later than any reading's rate exhausts what it had left |
| UsageBudget.SpendStaysInside | scripts/colab.py:1195-1231 | while burn never exceeds an observed positive rate, spend stays within the cap and the balance above the floor to the end of the reserve |
| CaptureBudget.Budget.constructor | scripts/colab.py:149-167 | an invalid record makes the budget unavailable, a valid one is taken over, an absent one is empty |
| CaptureBudget.Budget.Reserve | scripts/colab.py:169-185 | who gets how much, that no other pool is touched, and that memory and the record on disk cover every reservation granted |
| CaptureBudget.Budget.Finish | scripts/colab.py:187-195 | exactly the unwritten part is returned, to its own pool, and a recovery would still be covered |
| CaptureBudget.ChargedUpdate | scripts/colab.py:187-189 | closing a reservation lowers its pool's charge by what it did not write |
| CaptureBudget.AbsorbKeeps | scripts/colab.py:254-258 | taking in a chunk keeps the output the first 64 KiB of everything read and marks a dropped byte |
| CaptureBudget.ProcessCapture.WriteLog | scripts/colab.py:259-267 | the log grows by the part of the chunk it accepted, within the reservation, and a failed log is given up |
| CaptureBudget.ProcessCapture.Probe | scripts/colab.py:275-284 | the final probe reads at most what is left of the prefix and one byte |
| CaptureBudget.ProcessCapture.Drain | scripts/colab.py:236-302 | each stream keeps exactly the first 64 KiB read, is marked truncated just when something is missing, the logs hold the accepted parts of the chunks in order, and the reservation is settled |
| CaptureBudget.LogIsCutIff | scripts/colab.py:259-267 | a log is the offered output cut at one position exactly when nothing is accepted after the first short write |
| CaptureBudget.CutLogIsPrefix | scripts/colab.py:259-267 | such a log is a prefix of the output |
| CaptureBudget.ShortThenMoreLeavesGap | scripts/colab.py:259-267 | offers of which the first is taken short and the second whole leave a log with a gap |
| CaptureBudget.MeetsShortWrite | scripts/colab.py:254-267 | a capture reading two chunks arrives at that log |
| RunAttempts.Attempts.Execution | scripts/acceptance.py:287-309 | the answer is no record, the attempt that executed the job, or a refusal, and a refusal only when no attempt executed it |
| RunAttempts.Attempts.NamedIn | scripts/acceptance.py:278-285 | at most one record of this run and attempt bears a name, or the listing is refused |
| RunAttempts.ExecutedOnce | scripts/acceptance.py:290-308 | at most one attempt executed a record |
| RunAttempts.ExecutedAgrees | scripts/acceptance.py:303-308 | the executing attempt's job agrees with the latest record on every carried field |
| RunAttempts.NoOther | scripts/acceptance.py:292-306 | where the walk stops in a refusal no attempt qualifies |
| NativeLanes.CollectNative | scripts/acceptance.py:354-481 | refused exactly when the latest attempt of some run cannot be listed; otherwise one record per producer of each inspected workflow, in order, and statuses and pending lanes as their values decide |
| NativeLanes.CollectionIsDetermined | scripts/acceptance.py:378-451 | the evidence leaves no choice in the records |
| NativeLanes.RecordsOfLane | scripts/acceptance.py:378-451 | a lane has exactly as many records as producers in inspected workflows |
| NativeLanes.SuccessMeansAllShards | scripts/acceptance.py:452-481 | a lane is successful only if every one of its producers was inspected and recorded a success |
| NativeLanes.SuccessRecordMeans | scripts/acceptance.py:378-451 | a success rests on the latest attempt's success and a readable receipt of the attempt that executed the job |
| NativeLanes.BadShardDecides | scripts/acceptance.py:452-481 | one failed, unverified, cancelled or skipped shard keeps its lane from success and from pending, wherever it stands |
| NativeLanes.OrderDoesNotMatter | scripts/acceptance.py:452-481 | a lane's verdict depends on its values, not on their order |
| NativeLanes.NeverBoth | scripts/acceptance.py:452-481 | no lane is both pending and reported |
| NativeLanes.PendingIsHonest | scripts/acceptance.py:177-188 | acceptance is pending only while a run is active and every required lane is successful or waiting, with no other kind of record |
| LayerOverlay.ScanLayer | scripts/image_inventory.py:85-112 | the per-layer sets of a layer that decodes, and a refusal exactly of one that does not |
| LayerOverlay.RemoveAll | scripts/image_inventory.py:113-116 | what is left after the removals, in whatever order the set yields them |
| LayerOverlay.Inventory | scripts/image_inventory.py:47-124 | the kept files are exactly the wanted files of the final image with their contents, and acceptance means none lies at or under one of its links |
| LayerOverlay.TextUnderIsPrefix | scripts/image_inventory.py:114-116 | the text test for being under a path is ancestry of its components |
| LayerOverlay.ChangesAt | scripts/image_inventory.py:91-112 | what the sets of one layer say about a path |
| LayerOverlay.LayerStep | scripts/image_inventory.py:113-121 | one layer's update turns the projection of the image so far into that of the image with the layer |
| LayerOverlay.ClearedIsHidden | scripts/image_inventory.py:91-116 | the paths a layer clears are those its whiteouts, opaque directories and replacements hide |
| LicenseExpression.Parser.Alternatives | scripts/license_inventory.py:174-180 | the cursor loop returns the parse of what is left, and moves to its end |
| LicenseExpression.Classify | scripts/license_inventory.py:130-185 | the classification of a text, an election taking its place |
| LicenseExpression.PrintedClass | scripts/license_inventory.py:152-180 | the printed form of every tree is classified as the tree |
| LicenseExpression.ClassifiedIsPrinted | scripts/license_inventory.py:130-185 | whatever is classified at all is the printed form of a tree of that class |
| LicenseExpression.ParsesIffPrinted | scripts/license_inventory.py:181-185 | exactly the printed trees are read, everything else is unknown |
| LicenseExpression.PermissiveMeansAllPermissive | scripts/license_inventory.py:167-180 | a permissive tree has only permissive identifiers, exceptions aside |
| LicenseExpression.LexRender | scripts/license_inventory.py:93-142 | the tokens of a rendered token list are that list |
| LicenseExpression.ExpressionTextClass | scripts/license_inventory.py:130-185 | the text of every spellable tree is classified as the tree |
| LicenseExpression.PermissiveAnswer | scripts/license_inventory.py:130-185 | a permissive answer to any text names an expression all of whose identifiers are permissive |
| SnapshotPin.OrderedLists | scripts/harness.py:165-180 | the fingerprint lists every snapshot once, a surviving pin first |
| SnapshotPin.GatePolicy | scripts/harness.py:182-240 | a gate run never pins, restores only the recorded name, skips exactly when that snapshot exists and counts agree, and refuses exactly when it is gone |
| SnapshotPin.Server.PinSnapshot | scripts/harness.py:243-278 | success leaves exactly one snapshot, the kept pin when it still matches and a new one of the live index otherwise |
| SnapshotPin.Server.RestoreSnapshot | scripts/harness.py:281-313 | no snapshot changes, the index moves only to the pinned content, and success means the expected count |
| SnapshotPin.Harness.RunOnce | scripts/harness.py:380-418 | one run is a step of the history relation: a gate run evaluates the live index or the recorded pin, as its mode and the counts decide, and leaves the server with what it evaluated; a record run that pins the live index leaves that pin alone |
| SnapshotPin.Harness.Choose | scripts/harness.py:182-240 | the action chosen is the one the mode, the pin and the counts call for |
| SnapshotPin.Harness.Act | scripts/harness.py:243-313 | a skip leaves the server alone, a restore recovers only the recorded pin, a pin leaves one snapshot |
| SnapshotPin.HistoryIsConsistent | scripts/harness.py:165-312 | over every history the baseline's pin, while it exists, holds an index of the recorded count |
| SnapshotPin.GateEvaluatesItsBaseline | scripts/harness.py:182-240 | over every history a gate run changes no snapshot and evaluates an index of its baseline's count, the very index where counts identify indices |
| SnapshotPin.FreshPinHoldsRecorded | scripts/harness.py:243-278 | a pin the last successful record run made, while it exists, holds the index that run recorded, whatever happened since |
| SnapshotPin.GateUnderDrift | scripts/harness.py:182-240 | what a gate run under drift evaluates, and exactly when that is the index its baseline recorded |
| SnapshotPin.GateUnderAlways | scripts/harness.py:182-240 | what a gate run under an unconditional restore can evaluate, and exactly when every outcome is the recorded index |
| SnapshotPin.EqualCountsAreNotTold | scripts/harness.py:182-240 | a history in which a gate run under drift evaluates another index of the same count |
| CapturePool.LegsToRecord | scripts/capture_pool.py:65-133 | the record of the legs, or a refusal |
| CapturePool.TableIsFirstSeen | scripts/capture_pool.py:87-118 | every point is in the chunk table, with the chunk of the first point that named it |
| CapturePool.RecordToRows | scripts/capture_pool.py:228-291 | the rows of one leg in order, or a refusal exactly when they do not exist |
| CapturePool.ReplayPool | scripts/capture_pool.py:144-225 | the replayed pool, or a refusal of corrupt rows |
| CapturePool.ReplayOkIsPairwise | scripts/capture_pool.py:136-190 | rows are accepted exactly when each is well formed and no two share an id or a rank of a leg |
| CapturePool.ReplayIgnoresOrder | scripts/capture_pool.py:144-225 | every arrangement of the same rows is accepted or refused alike and rebuilds the same pool |
| CapturePool.ReplayedAreDistinct | scripts/capture_pool.py:144-225 | a replayed leg repeats no id and holds no empty one |
| CapturePool.RoundTrip | scripts/capture_pool.py:228-291 | replaying a recorded leg returns its trimmed ids in order with chunks, joined or placeholder headings, and scores if and only if they repeat nothing and none is empty |
| CapturePool.RefusedExactly | scripts/capture_pool.py:144-291 | the rows of a recorded leg are refused exactly when a dense id repeats, or a sparse one that is not dense, or an id is empty |
| CapturePool.RepeatedPointIsRefused | scripts/capture_pool.py:65-291 | a leg that lists a point twice is recorded and its rows are refused |
| CapturePool.RepeatedSparsePointIsLost | scripts/capture_pool.py:65-291 | a leg that lists a dense point twice among the sparse ones is accepted and comes back with one |
| DependencyLock.CanonicalIsFixed | scripts/dependency_lock.py:51-54 | a canonical name is a name and its own canonical form |
| DependencyLock.RenderedLines | scripts/dependency_lock.py:130-137 | reading a rendered requirements file back yields the requirements written to it |
| DependencyLock.ReadReport | scripts/dependency_lock.py:107-124 | a report is read completely exactly when every item checks out and none contradicts what was read before |
| DependencyLock.ReadingMeansAcceptable | scripts/dependency_lock.py:96-129 | reading the three reports in turn refuses exactly the triples that are malformed, disagree on a distribution, or leave dev without runtime or build |
| DependencyLock.LoadsBack | scripts/dependency_lock.py:151-177 | a written profile loads as exactly the reported entries |
| DependencyLock.Checkout.Generate | scripts/dependency_lock.py:95-148 | accepts exactly the acceptable reports, changes nothing otherwise, and writes the manifest they lead to, with all three profiles loading as reported exactly when it fits its reader's bound |
| DependencyLock.AcceptedButNotLoaded | scripts/dependency_lock.py:95-177 | three reports within the reader's bound that are accepted and whose manifest is refused for every profile |
| DependencyLock.DevContainsOthers | scripts/dependency_lock.py:128-129 | what runtime and build report is locked with the same entry in dev |
| DependencyLock.SharedEntriesAgree | scripts/dependency_lock.py:151-177 | profiles loaded from one checkout agree on every shared distribution |
| WheelPreparation.Wheelhouse.Prepare | scripts/dependency_lock.py:299-351 | what one run decides and the durable writes it makes: none unless a complete, verified stage meets a directory that is acceptable when looked at again; the verification before the marker always passes on a directory nobody else writes to |
| WheelPreparation.Wheelhouse.Stage | scripts/dependency_lock.py:208-281 | a complete, checked stage or none, the destination untouched |
| WheelPreparation.CrashSafe | scripts/dependency_lock.py:328-351 | at every crash point a current marker vouches only for verified wheels and every wheel is as before or locked |
| WheelPreparation.CompletedIsTarget | scripts/dependency_lock.py:328-351 | an uninterrupted run ends with exactly the locked wheels and the marker |
| WheelPreparation.RerunCompletes | scripts/dependency_lock.py:299-351 | so does an uninterrupted rerun from any crash point, whatever acceptable members it finds there |
| LocalSelection.ImportClosure | scripts/local_selection.py:141-148 | the worklist ends with the closure |
| LocalSelection.ClosureIsReachability | scripts/local_selection.py:141-148 | membership in the closure is a chain of imports of any length |
| LocalSelection.FindTests | scripts/local_selection.py:168-178 | the tests of a path are those its rules give |
| LocalSelection.RulesOnlyAdd | scripts/local_selection.py:168-178 | more imports, references or contract rows never drop a test |
| LocalSelection.ImportersAreSelected | scripts/local_selection.py:151-154 | the tests importing a module are among those of its path |
| LocalSelection.SelectionFollowsImports | scripts/local_selection.py:168-178 | what a file importing the change selects by its rules is selected for the change |
| LocalSelection.Select | scripts/local_selection.py:201-223 | tier, tests, reasons, broad, unmapped and harness-only paths of a change, in order and without repetition |
| LocalSelection.SelectionIsDetermined | scripts/local_selection.py:201-223 | the selection depends only on the set of changed paths |
| LocalSelection.SelectionOnlyGrows | scripts/local_selection.py:201-223 | more changed paths, a fuller graph or the higher tier never run fewer tests |
| LocalSelection.GuardedPathsAreAccountedFor | scripts/local_selection.py:207-216 | a present guarded path that is not broad selects a test, or is reported as harness-only or as unmapped, exactly one of the three |
| LocalSelection.HarnessNeverRuns | scripts/local_selection.py:217-219 | the harness's own tests are never selected |
| LocalSelection.LowTierRunsTheMapped | scripts/local_selection.py:207-223 | on the lower tier a test runs exactly when a changed path maps to it and it is not the harness's |
| Relay.Relay.FromClient | scripts/kube_forward.py:133-143 | client bytes enter the stream, opened when there is none, whole and in order, or the connection ends |
| Relay.Relay.Pump | scripts/kube_forward.py:119-149 | whatever other connections do between its rounds, the loop does what the rounds say: bytes pass in order and unaltered, a stream is dropped exactly when nothing was sent since the server's last bytes for long enough, and its sockets and its slot, and no others, are given back |
| Relay.BytesArrive | scripts/kube_forward.py:119-149 | over every list of rounds bytes pass in order and unaltered, all of them while the connection lasts |
| Relay.LogIsPlaced | scripts/kube_forward.py:119-149 | each request, answer and drop in the log belongs to the round that caused it, in that order, and a drop follows an answer by the idle time |
| Relay.DropAbandonsRequest | scripts/kube_forward.py:124-149 | a drop follows a chunk of the server's, and leaves requests waiting exactly when that chunk completes fewer answers than were outstanding; what is outstanding is what the inputs since the stream's opening leave unanswered |
| Relay.TurnTakerLosesOnlyPieces | scripts/kube_forward.py:20-21 | a client that begins a request only with none outstanding loses it exactly when the last chunk was a piece of its answer |
| Relay.TurnsAndWholeAnswersSuffice | scripts/kube_forward.py:20-21 | between such a client and a server whose every chunk completes an answer no stream with a request waiting is dropped |
| Relay.CrossingIsAbandoned | scripts/kube_forward.py:124-149 | when each chunk of the server's answers all it had been sent, a drop leaves a request waiting exactly when both sockets were readable in the round of the last answer |
| Relay.OrdinaryRun | scripts/kube_forward.py:119-149 | a request, its whole answer and a drop meet the premises of these three |
| Relay.RequestArrivingWithAnAnswerIsAbandoned | scripts/kube_forward.py:124-149 | a run of three rounds that drops a stream with a request waiting |
| Relay.HalfAnswerIsAbandoned | scripts/kube_forward.py:124-149 | a run that drops a stream half way through an answer |
| Relay.SecondRequestIsAbandoned | scripts/kube_forward.py:124-149 | a run that drops a stream after the first of two answers |
| Relay.RequestsAreNeverLate | scripts/kube_forward.py:119-149 | if no round takes longer than a bound, no request enters a stream idle for longer than the idle time and that bound |
| CodeOwners.OwnersOfRender | scripts/gap_codeowners.py:156-185 | reading the printed file gives back the group and the approvers in order |
| CodeOwners.RenderIsInjective | scripts/gap_codeowners.py:156-161 | equal files list equal entries for equal owners |
| CodeOwners.Checkout.GroupOwned | scripts/gap_codeowners.py:138-153 | the sorted entries of the tree, or a refusal exactly when a top-level name cannot be printed |
| CodeOwners.Checkout.Write | scripts/gap_codeowners.py:212-218 | the file becomes the generated one, or nothing changes |
| CodeOwners.Checkout.Refresh | scripts/gap_codeowners.py:221-222 | the owners the file names stay its owners however the tree changed, and refreshing again changes nothing |
| CodeOwners.Checkout.Check | scripts/gap_codeowners.py:199-209 | passes exactly when nothing shadows the file and it is the generated one for some valid owners |
| CodeOwners.TargetAddsNothing | scripts/gap_codeowners.py:145-153 | committing the generated file changes nothing in it |
| CodeOwners.NewTopLevelChangesTheFile | scripts/gap_codeowners.py:138-161 | a new top-level entry makes every older file differ from the generated one |
| DevkitKey.Inputs | scripts/devkit_key.py:58-74 | the fixed inputs and the sorted files of the image tree, whatever order it is listed in |
| DevkitKey.Key | scripts/devkit_key.py:77-89 | the hash of the framed inputs, fed record by record, or a refusal exactly of unreadable ones |
| DevkitKey.ParseUndoesFrames | scripts/devkit_key.py:84-88 | a decoder recovers the records from the stream |
| DevkitKey.FramesUndoParse | scripts/devkit_key.py:84-88 | every stream the decoder accepts is the framing of what it returns |
| DevkitKey.StreamsAgreeOnInputs | scripts/devkit_key.py:77-89 | two checkouts feed the hash the same bytes exactly when their inputs are the same |
| DevkitKey.EqualKeysMeanEqualInputs | scripts/devkit_key.py:77-89 | equal keys mean equal inputs under a hash without collisions on the two |

## Left out

- SessionProtocol.NothingRunsBeforeApproval: a guard and the process start it protects are one step, and so are the other short runs of statements between two waits; a change made between them counts as made after.
- SessionProtocol.WorkloadFindsEveryServerWarm: budget polls, resource samples and software checks are only reasons for a step to fail.
- SessionRelease.Run.Command: a drain that does not stop, a listing beyond its bound and an exhausted output budget are one premise (`orderly`), not modelled here step by step; the wall clock is assumed never to run backwards, and what a call needs to end its child is one constant.
- SessionRelease.Run.Release: an honest service changes its assignments only by a stop of the session; whoever else uses the account may make one that is dishonest in this sense.
- SessionRelease.Run.Recover: an endpoint bound in memory whose manifest could not be written is not known to the recovery, which binds what it finds under the run's name.
- UsageBudget.SpendStaysInside: it ends with the reserve after the deadline. Cleanup may run on to the run's own expiry, which observations do not shrink; when a release falls inside the reserve can be read off the bound `SessionRelease.Run.Cleanup` gives for a calm service. Observation and deadline update are one instant, and rounding of floating-point numbers is left out.
- CaptureBudget.ProcessCapture.Drain: the drain thread and the threads of other children take turns.
- LayerOverlay.Inventory: layers are decoded members; distinct paths within a layer, a directory at the root and an explicit entry for each opaque directory are premises of agreement with the image. The loop itself also meets a path listed twice; what it then does is that of `ScanLayer`, but no image is said to agree with it.
- SnapshotPin.Harness.RunOnce: nobody else changes the server during one run, and the server never issues a snapshot name twice.
- SnapshotPin.GateEvaluatesItsBaseline: outside changes may do anything to the index, but not alter the content of an existing snapshot.
- LicenseExpression.Classify: recursion is unbounded; the interpreter's recursion limit, which deeply nested parentheses exceed with an exception `expression_class` does not catch, is left out.
- DependencyLock.Checkout.Generate: reports are decoded values with the size of their file; wheel tags, download origins, SHA-256 and the encoded size of the manifest are parameters, and the wording of the comment lines is left out.
- WheelPreparation.Wheelhouse.Prepare: it begins once the file lock is held, for a lock whose file names end in `.whl`, as `load` checks, and a marker that reads back as written; downloads are a function from names to bytes; retries, timeouts, worker threads and permissions are left out, and another process may change the directory while the stage is prepared but not while members are replaced.
- LocalSelection.FindTests: reading the tree into a graph, module names and the search of string literals for a file's names are inputs.
- Relay.Relay.Pump: other connections run between its rounds, not inside one; the restart of the forward is left out.
- Relay.DropAbandonsRequest: how many requests a chunk begins and how many answers one completes are inputs, since the relay does not read them.
- CodeOwners.Checkout.Check: the protected list is a parameter, non-empty and without spaces or line breaks, and file contents are text.
- Whether a native run is bound to the candidate (`current_native_run`) is an input: a list of field comparisons. Review templates and publication are left out too.
- Session preparation, environment handoff, the Kubernetes proof, the pooling and software probes: long lists of equality checks.
- Wheel metadata, notices and RPM tags of the licence inventory; the SBOM and base-image checks of the image inventory.
- Installed-environment verification of the dependency lock, and the key pin file of the kit.
- Answer taxonomy, benchmarks, mock servers, corpus builders, report rendering and argument parsing: tabular code that would only add easy members.
