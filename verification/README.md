# Verified models of the application's state machines

The application keeps a lot of state that is updated by stale messages, coalesced events,
epochs and caches. This project models its hardest state machines in Dafny and proves that
each one agrees, in every run, with something simpler: direct delivery, full recomputation, a
log of grants, the list of everything fetched. `dafny verify dfyconfig.toml` checks all of it.

| module | models |
|---|---|
| `ProjectRegistry` | project trust: roots, trust levels, trusted identities, authority revisions, cached access |
| `LaunchRegistry` | launch permits and publications, bound to epochs |
| `TransitionLanes` | the per-root locks, kept by weak references |
| `TrustProtocol`, `TrustRevocation` | trust revocation among interleaved threads, on top of the first two |
| `ProjectFacts`, `FactsFreshness`, `FactsRequests`, `FactsStore` | the project facts coordinator: generations, joining, eviction, deferred retirement |
| `TaskSnapshot`, `SnapshotBatcher` | task snapshot merging and coalescing |
| `TaskIndex`, `TaskLists` | the per-project id lists and running counters of the task store |
| `WorkflowRevision`, `WorkflowFacts`, `WorkflowDispatch` | workflow revisions, cache, coalescing |
| `StreamBatcher` | stream text buffering and its timers |
| `PreferenceQueue` | the optimistic queue of global preference patches |
| `ResourceFreshness` | the project resource controller |
| `ImportItems`, `ImportStore`, `ImportAggregates`, `ImportCounters`, `ImportWindow`, `ImportEdits`, `ImportWorkbench` | the import workbench: counters, task index, page window |

## How the models are built

Each state machine has a value-level state, one pure function per operation, and runs over
arbitrary sequences of steps (`Paths` and `Common` hold what they share). Properties are proved
of every run, or of every reachable state. Where the source updates fields in place or loops, a
class with the same fields and loops is proved to compute exactly the step functions. A step
that is not possible in a state leaves it unchanged, so every sequence of steps is a run.
Beside the theorems about runs, each step function is characterised by lemmas in the plain
fields of the state, with the source's statuses and numbers written out (the lemmas named
`...Means` and `...Iff`), so that no shared definition is explained by itself alone.

Time, replies of the backend, what the file system shows, and the order of callbacks are
parameters of the steps and may be anything. Fresh UUIDs are positions in the log of all
revisions ever minted. Threads interleave between any two critical sections.

## What the code does not do

The proofs separate what holds for all inputs from what holds under a condition. Where the
code fails, an input is given and, for all inputs, the exact condition under which it holds:

- **Tasks of a project whose id is the empty string.** `mergeNormalizedTaskFacts` tests the
  previous project key for truth. When a task leaves the project `""`, or stops running there,
  its id or its running count stays behind. `TaskIndex.MergeOneAgrees` shows that the index
  agrees after a merge if and only if this does not happen.
- **A partial `setTasks` snapshot** drops stored tasks of the active project from the index:
  `TaskIndex.SetTasksAgreesIffCovering`.
- **A forced refresh in the window between the end of a request loop and the clearing of its
  promise** is joined to the finished loop. Nothing is sent and the old value stays `ready`:
  `FactsFreshness.ForcedRefreshInWindowIsLost`. Exactly outside the window it is sent at once
  or is pending: `FactsFreshness.ForcedRefreshIsTakenIff`. Stale replies are refused in either
  case.
- **`reset` of a resource controller** while the promise in flight is about to repeat its load
  lets that load go on unseen; a later invalidation misses it and its data is served. A reset is
  safe exactly otherwise: `ResourceFreshness.ResetIsSafeIff`. Even then the promise that was let
  go resolves with stale data if an invalidation follows: `ResourceFreshness.LetGoResolvesFreshIff`.
- **A workflow run without a session** replaces a cached fact that names one at any lower
  revision, because revisions are compared only within equal session fields:
  `WorkflowFacts.SessionlessRunTakesBack`, with the exact condition in
  `WorkflowFacts.RevisionsOnlyIncrease`.
- **A preference patch issued before the first load** takes the defaults on screen for what is
  stored; its successful save then changes other preferences on screen:
  `PreferenceQueue.SaveBeforeLoadChangesShown`, exactly when
  `PreferenceQueue.SaveDoesNotChangeShown` says.
- **A revocation that cannot measure the root** closes its workflow launches only through listed
  runs: `TrustRevocation.RunKeepsCoverage`, `TrustRevocation.UnmeasuredRevocationLeavesLaunch`.
- **Cached access snapshots and calls outside the lane.** Some callers use the project
  registry without holding the root's lane. A transition observed there between resolving an
  authority and caching its snapshot leaves a stale snapshot, and nothing else does:
  `ProjectRegistry.CacheIsCurrentIffNothingMinted`. The revocation theorem does not depend on lane
  discipline of registry calls: it allows any of them at any time.
- **Unparsable timestamps** can make coalescing visible to the task store:
  `SnapshotBatcher.UnparsedTimestampIsVisible`, exactly when a snapshot passes a held-back one
  but is stale against the one before it: `SnapshotBatcher.BatchedStoreEqualsDirectStore`.
- **Repeated item ids** in an import session are counted twice by `attachSession`:
  `ImportAggregates.AttachAgreesIffDistinct`.
- **An import item without a revision** takes the place of any stored one, after which an older
  one is let in: `ImportWindow.UnrevisedItemLetsOlderIn`, with the exact condition in
  `ImportWindow.RunNeverGoesBack`.
- **An empty revision string** is not a numeral and compares below every numeral:
  `WorkflowRevision.EmptyRevisionIsBelowAll`. **Absent revisions** tie with zero but compare with
  each other by time: `WorkflowRevision.CompareIsTotalPreorder`.

## Model

| member | source | states |
|---|---|---|
| `TrustRevocation.RevocationIsComplete` | src-tauri/src/app_state.rs:1633-1783 | in every reachable state, for every revocation that returned without error: no open publication on its root carries a revision the project had before, and no permit for such a revision can begin |
| `TrustRevocation.NoRevokedLeaseIsOpen` | src-tauri/src/app_state.rs:126-135 | success of a revocation means that all execution leases of the revoked authority have been dropped |
| `TrustRevocation.RevokedLeaseCannotCommit` | src-tauri/src/app_state.rs:1183-1229 | from the registry revocation on, a lease taken before it fails the commit check, whatever the file system shows |
| `TrustRevocation.EveryPublicationWasGranted` | src-tauri/src/app_state.rs:1127-1181 | publications exist only for revisions minted with trust |
| `TrustRevocation.RegrantOpensNewLease` | src-tauri/src/app_state.rs:1127-1181 | from every reachable state with a free lane, trusting the project again leads to an open lease of the new revision |
| `TrustRevocation.RevocationCanSucceed` | src-tauri/src/app_state.rs:1633-1783 | from every reachable state with a free lane in which the owners to close have nothing published, the revocation of a registered project can return without error |
| `TrustRevocation.SuccessIsReachable` | src-tauri/src/app_state.rs:1633-1783 | a state after a successful revocation is reachable from the start |
| `TrustProtocol.RunKeepsInv` | src-tauri/src/app_state.rs:1633-1783 | the protocol invariant: lane exclusion, counted publications, granted tickets, and for every cut that the entry, tickets and owners carry no revoked revision |
| `TrustRevocation.RunKeepsCoverage` | src-tauri/src/app_state.rs:1638-1654 | every revocation closes the root's execution owner, and its workflow owner if and only if the root could be measured or a listed run has its key |
| `TrustRevocation.UnmeasuredRevocationLeavesLaunch` | src-tauri/src/app_state.rs:1649-1654 | otherwise a revocation can succeed while a workflow launch of the revoked authority is open |
| `TrustRevocation.RevocationReportsErrors` | src-tauri/src/app_state.rs:1633-1783 | a revocation counts as successful only if neither the registry nor any other part of it reported an error |
| `TrustRevocation.AttemptUsesPermit` | src-tauri/src/services/workflow_service/launch_registry.rs:94-110 | one attempt uses a permit up; the publication begins if and only if its owner is open in the permit's epoch |
| `TrustRevocation.FinishRemovesOne` | src-tauri/src/services/workflow_service/launch_registry.rs:131-143 | ending a publication removes that one and no other |
| `TrustRevocation.IssueNeedsLane` | src-tauri/src/app_state.rs:1127-1181 | a permit is issued only inside the root's lane for the authority resolved there, unless the owner is closed for that revision |
| `TrustRevocation.LaneIsTakenIffFree` | src-tauri/src/app_state.rs:137-160 | a thread takes the lane of a root, to work or to revoke, if and only if nobody holds it |
| `TrustProtocol.NewCutHolds` | src-tauri/src/app_state.rs:1759-1769 | closing the owners in the lane before revoking the entry leaves nothing that could reopen them for the old authority |
| `TrustProtocol.BarrierKeepsInv` | src-tauri/src/app_state.rs:1769-1782 | passing a barrier proves its owner free of the revoked revisions, for good |
| `ProjectRegistry.ChangesMintFreshRevisions` | src-tauri/src/app_state.rs:404-491 | the revision stays the same if and only if root, trust and trusted identity do; otherwise it is one never used before |
| `ProjectRegistry.LostTrustReturnsOnlyByGrant` | src-tauri/src/app_state.rs:311-491 | over every run, trust that was lost or never granted returns only through an explicit trusted registration or relocation of that project, for the identity measured by that call and under the revision it minted |
| `ProjectRegistry.RevisionDeterminesAuthority` | src-tauri/src/app_state.rs:558-620 | equal revisions at two points of a run mean the same root, trust and identity at every point between |
| `ProjectRegistry.CommitProvesNoTransition` | src-tauri/src/app_state.rs:1183-1229 | a commit that passes the revision check proves that no trust transition happened since the lease was taken |
| `ProjectRegistry.CacheIsCurrentIffNothingMinted` | src-tauri/src/app_state.rs:1351-1427 | over every run whose stores cache what an earlier resolve returned: the cached snapshot carries the current revision at every point if and only if nothing is minted for the project between a resolve and its store |
| `ProjectRegistry.LaneKeepsCacheCurrent` | src-tauri/src/app_state.rs:1351-1427 | over every run under lane discipline the cached snapshot is current at every point |
| `ProjectRegistry.RevisionKeptIffNoMint` | src-tauri/src/app_state.rs:404-636 | between two points of a run the revision is the same if and only if nothing was minted for the project |
| `ProjectRegistry.OutsideLaneCacheGoesStale` | src-tauri/src/app_state.rs:558-620 | outside the lane, whenever another resolve falls between the resolve and the store and no longer finds the grant current, the cached snapshot names a withdrawn revision |
| `ProjectRegistry.OverviewTrustIsGranted` | src-tauri/src/app_state.rs:495-535 | the overview reports trust only for the identity that the current grant was made for |
| `ProjectRegistry.ApplyKeepsValid` | src-tauri/src/app_state.rs:404-636 | every operation keeps each entry equal to what its revision was minted for, and only appends to the log |
| `ProjectRegistry.ProjectTable.RegisterWithExpectedAuthority` | src-tauri/src/app_state.rs:404-491 | registration computes `Register`, with its error order and the layout error reported after the change |
| `ProjectRegistry.ProjectTable.RelocateTrustedNative` | src-tauri/src/app_state.rs:311-368 | relocation computes `Relocate` |
| `ProjectRegistry.ProjectTable.ResolveProjectAuthority` | src-tauri/src/app_state.rs:558-620 | resolving computes `ResolveAuthority`: a grant that no longer matches is withdrawn under a fresh revision |
| `ProjectRegistry.ProjectTable.RevokeProjectTrust` | src-tauri/src/app_state.rs:622-636 | revoking computes `RevokeTrust`, idempotent on untrusted projects |
| `ProjectRegistry.ResolveKeepsTrustIff` | src-tauri/src/app_state.rs:558-620 | a resolve keeps and reports the grant if and only if there was none, or the identity is the granted one and the layout is strictly native for a native grant, compatible for a compatible one; otherwise the project is untrusted under a fresh revision |
| `ProjectRegistry.CommitIsAllowedIff` | src-tauri/src/app_state.rs:1183-1229 | a commit passes if and only if the project is healthy and trusted under the lease's revision, and identity and layout are those of the grant |
| `ProjectRegistry.RegisterMeans` | src-tauri/src/app_state.rs:404-491 | which registrations fail, with which error and in which order, and what the others write |
| `ProjectRegistry.RelocateMeans` | src-tauri/src/app_state.rs:311-368 | when a relocation succeeds, and the entry it writes |
| `ProjectRegistry.RevokeMeans` | src-tauri/src/app_state.rs:622-636 | a revocation succeeds exactly for the registered root and leaves the project untrusted, under a fresh revision if it was trusted |
| `ProjectRegistry.OverviewMeans` | src-tauri/src/app_state.rs:495-535 | the overview reports trust if and only if the project is trusted for the identity last observed and the cached snapshot agrees |
| `ProjectRegistry.StoreMeans` | src-tauri/src/app_state.rs:1411-1425 | a stored snapshot keeps the Git state known before, unless Git was inspected |
| `LaunchRegistry.PermitLivesExactlyOneEpoch` | src-tauri/src/services/workflow_service/launch_registry.rs:45-110 | a permit can be begun if and only if no close and no change of authority happened since its issue (within 2^64 epochs) |
| `LaunchRegistry.ClosedRevisionStaysClosed` | src-tauri/src/services/workflow_service/launch_registry.rs:54-63 | a closed owner issues and begins nothing until another revision is named |
| `LaunchRegistry.GenerationCountsEpochs` | src-tauri/src/services/workflow_service/launch_registry.rs:54-80 | the wrapping generation counts the epochs that ended |
| `LaunchRegistry.IssueMeans` | src-tauri/src/services/workflow_service/launch_registry.rs:45-68 | a permit is refused if and only if its owner is closed for this very revision; another revision reopens it |
| `LaunchRegistry.CloseMeans` | src-tauri/src/services/workflow_service/launch_registry.rs:70-80 | a closed owner begins nothing, and what was begun still counts |
| `LaunchRegistry.BeginThenFinish` | src-tauri/src/services/workflow_service/launch_registry.rs:94-143 | beginning counts one publication, ending it restores the owners; a refused permit changes nothing |
| `LaunchRegistry.WorkflowLaunchRegistry.IssuePermit` | src-tauri/src/services/workflow_service/launch_registry.rs:45-68 | issuing computes `Issue` and `IssuedPermit` |
| `LaunchRegistry.WorkflowLaunchRegistry.CloseOwner` | src-tauri/src/services/workflow_service/launch_registry.rs:70-80 | closing computes `Close`; afterwards no permit of the owner can begin |
| `LaunchRegistry.WorkflowLaunchRegistry.BeginPublication` | src-tauri/src/services/workflow_service/launch_registry.rs:94-110 | beginning succeeds exactly in the permit's own open epoch and counts the publication |
| `LaunchRegistry.WorkflowLaunchRegistry.FinishPublication` | src-tauri/src/services/workflow_service/launch_registry.rs:131-143 | a finished publication is uncounted, saturating at zero |
| `TransitionLanes.HandlesShareLaneIffSameKey` | src-tauri/src/app_state.rs:146-159 | live handles are the same mutex if and only if they were asked for the same root |
| `TransitionLanes.LaneExcludes` | src-tauri/src/app_state.rs:137-160 | two lock holders for one root never overlap |
| `TransitionLanes.UnrelatedRootsAreIndependent` | src-tauri/src/app_state.rs:137-139 | who blocks a handle holds the lane of the same root |
| `TransitionLanes.CallPurgesDeadLanes` | src-tauri/src/app_state.rs:146-159 | after each call the map names exactly the lanes that somebody holds |
| `TransitionLanes.LockIsTakenIffFree` | src-tauri/src/app_state.rs:137-160 | a handle locks its lane if and only if no other handle of the same root holds it |
| `TransitionLanes.DroppedHandleGoes` | src-tauri/src/app_state.rs:146-159 | a dropped handle goes unless it is locked; a call finds the old lane if and only if another handle of the root is left |
| `TransitionLanes.ProjectTrustTransitionLanes.AcquireHandle` | src-tauri/src/app_state.rs:146-159 | the call computes `Lane` and keeps the invariant |
| `FactsFreshness.StoredIffUndisturbed` | src/stores/projectFactsStore.ts:303-376 | a successful reply is stored as ready if and only if no invalidation, forced refresh, rebinding, switch-away or eviction of its slot happened since its request was sent |
| `FactsFreshness.ReplyIsStoredIffCurrent` | src/stores/projectFactsStore.ts:321-338 | in one state: stored exactly if not overtaken; otherwise the stored value is untouched |
| `FactsFreshness.OvertakenMeans` | src/stores/projectFactsStore.ts:378-583 | the overtaking marks record exactly those events and nothing else |
| `FactsFreshness.ReadyIsCurrent` | src/stores/projectFactsStore.ts:435-549 | what is ready was requested after the last invalidation or rebinding |
| `FactsFreshness.OneRequestPerSlot` | src/stores/projectFactsStore.ts:303-376 | at most one request is in flight per project and kind, and its control and entry are kept |
| `FactsFreshness.RetentionIsBounded` | src/stores/projectFactsStore.ts:189-208 | at most three distinct keys in access order, all with entries; every other entry has unfinished work or is the active project |
| `ProjectFacts.RunKeepsInv` | src/stores/projectFactsStore.ts:144-208 | the coordinator's invariant over every run |
| `FactsFreshness.PendingRefreshIsSent` | src/stores/projectFactsStore.ts:359-360 | a refresh asked for while a request runs is sent when that request returns |
| `FactsFreshness.ForcedRefreshIsTakenIff` | src/stores/projectFactsStore.ts:378-413 | in every reachable state, and for slots with or without a control, a forced refresh is sent at once or pending if and only if it does not fall into the window |
| `FactsFreshness.ForcedRefreshInWindowIsLost` | src/stores/projectFactsStore.ts:359-375 | inside the window it is lost and the old value keeps its status |
| `FactsFreshness.WindowIsReachable` | src/stores/projectFactsStore.ts:359-375 | the window is reached with a ready value by the first successful request |
| `FactsRequests.UnforcedEnsureSendsIff` | src/stores/projectFactsStore.ts:378-414 | an unforced ensure sends one request of its slot, if and only if the slot is at rest, the value is not ready or at least 5 s old for git and 30 s for the others, and no retry time stands |
| `FactsRequests.EnsuredIsServed` | src/stores/projectFactsStore.ts:233-237 | after it, a request is under way, or a retry time stands, or the value is ready and younger than 5000 ms for git, 30000 ms for the others |
| `FactsRequests.SendMeans` | src/stores/projectFactsStore.ts:307-320 | a sent request takes up what was noted for its slot; the value stays, stale, or is loading |
| `FactsRequests.UnforcedEnsureJoins` | src/stores/projectFactsStore.ts:391-399 | joined to an unfinished request, it notes a refresh if and only if that request is out of date or its loop has ended |
| `FactsRequests.CurrentReplyMeans` | src/stores/projectFactsStore.ts:317-357 | a current success clears the failures; a current failure keeps the value and sets the retry time 5, 30, then 120 seconds ahead |
| `FactsRequests.OvertakenReplyMeans` | src/stores/projectFactsStore.ts:317-361 | an overtaken reply changes neither value nor retry time, and the loop goes on exactly if a refresh is pending |
| `FactsRequests.InvalidateMeans` | src/stores/projectFactsStore.ts:465-497 | invalidation keeps the value and makes it stale, or idle if there is none |
| `FactsRequests.InvalidateControlMeans` | src/stores/projectFactsStore.ts:435-448 | invalidation outdates every generation so far, notes a refresh exactly if an unfinished loop is not told to stop, and keeps retry time and failures |
| `FactsRequests.InvalidatedRequestIsRepeated` | src/stores/projectFactsStore.ts:435-450 | a request invalidated while it runs is sent again when it returns |
| `FactsRequests.BindMeans` | src/stores/projectFactsStore.ts:527-549 | binding another authority forgets the facts, failures and retry times and repeats what runs; the same one keeps them |
| `FactsRequests.TouchMeans` | src/stores/projectFactsStore.ts:189-208 | the touched project is the last in access order and of more than three the one used longest ago leaves it |
| `FactsRequests.PruneMeans` | src/stores/projectFactsStore.ts:559-583 | pruning empties the access order without an active project and moves a known active one to its end |
| `FactsRequests.RetireMeans` | src/stores/projectFactsStore.ts:173-187 | an evicted project is dropped at once, unless a request of its is unfinished |
| `FactsRequests.RetiredControlMeans` | src/stores/projectFactsStore.ts:180-186 | what runs for an evicted project is told to stop and not repeated |
| `FactsRequests.SwitchAwayMeans` | src/stores/projectFactsStore.ts:499-526 | what runs for the project that is left is not repeated and stores nothing |
| `FactsRequests.SettleMeans` | src/stores/projectFactsStore.ts:159-171 | the last promise of an evicted project clears it away, unless it is active or back in access order |
| `FactsStore.ProjectFactsStore.EnsureResource` | src/stores/projectFactsStore.ts:378-414 | ensuring computes `Ensure` and keeps the invariant |
| `FactsStore.ProjectFactsStore.OnReply` | src/stores/projectFactsStore.ts:320-361 | a reply computes `Reply`: commit, then another turn or the end |
| `FactsStore.ProjectFactsStore.OnSettled` | src/stores/projectFactsStore.ts:365-373 | settling computes `Settle` with the cleanup of retired entries |
| `FactsStore.ProjectFactsStore.FilterEntries` | src/stores/projectFactsStore.ts:173-206 | the filtering loop retires exactly the entries not kept, and keeps those with running work |
| `FactsStore.ProjectFactsStore.TouchEntry` | src/stores/projectFactsStore.ts:189-208 | touching computes `Touch` |
| `FactsStore.ProjectFactsStore.InvalidateEntries` | src/stores/projectFactsStore.ts:465-497 | the loop computes `InvalidateAll` and keeps the invariant |
| `FactsStore.ProjectFactsStore.BindAuthority` | src/stores/projectFactsStore.ts:527-549 | rebinding computes `Bind` |
| `FactsStore.ProjectFactsStore.PruneProjectFacts` | src/stores/projectFactsStore.ts:559-583 | pruning computes `Prune` |
| `FactsStore.ProjectFactsStore.SupersedeActiveEntry` | src/stores/projectFactsStore.ts:499-525 | the loop computes `Supersede` |
| `TaskSnapshot.StructurallyEqualIsEquality` | src/services/taskSnapshotSemantics.ts:3-20 | the recursive comparison decides equality of values, whatever the order of object keys |
| `TaskSnapshot.MergeMeans` | src/stores/taskStore.ts:396-427 | a snapshot is rejected if and only if it is older in parsed time, leaves a final status, or goes from waiting to queued; otherwise the merged task is the incoming one, with grouping fields it does not know kept |
| `SnapshotBatcher.BatchingRefinesDirectDelivery` | src/services/taskSnapshotBatcher.ts:75-145 | batched and direct delivery accept the same snapshots: what was delivered or is pending is a subsequence of the accepted ones with the same last snapshot and the same stable states once neighbours that differ only in progress are collapsed, and every boundary has been delivered |
| `SnapshotBatcher.RunSimulates` | src/services/taskSnapshotBatcher.ts:75-145 | the simulation relation holds after every run |
| `SnapshotBatcher.AcceptMeans` | src/services/taskSnapshotBatcher.ts:36-102 | a snapshot that is neither rejected nor equal to the last is delivered within the call if it is the first, a boundary, or changes more than progress and time, and is held back otherwise |
| `SnapshotBatcher.BatchedStoreEqualsDirectStore` | src/services/taskSnapshotBatcher.ts:75-145 | for every run: flushed at any point, the store holds exactly the task that direct delivery leads to, if and only if no snapshot passes a held-back one while it is stale against the one committed before |
| `SnapshotBatcher.ParsedNeverExposes` | src/services/taskSnapshotBatcher.ts:45-53 | timestamps that parse always meet that condition |
| `SnapshotBatcher.UnparsedTimestampIsVisible` | src/services/taskSnapshotBatcher.ts:45-53 | an unparsable timestamp can violate it |
| `SnapshotBatcher.TaskSnapshotBatcher.Enqueue` | src/services/taskSnapshotBatcher.ts:75-102 | enqueueing computes `Accept` on the task's lane and leaves the others alone |
| `SnapshotBatcher.TaskSnapshotBatcher.FlushKey` | src/services/taskSnapshotBatcher.ts:126-133 | flushing computes `Flush` on one lane |
| `TaskIndex.MergeOneAgrees` | src/stores/taskStore.ts:451-509 | lists and counters agree with the map after a merge if and only if no task leaves, or stops in, the project with the empty id |
| `TaskIndex.LosingBreaksAgreement` | src/stores/taskStore.ts:474-503 | in that case the agreement is really broken |
| `TaskIndex.ClampNeverActs` | src/stores/taskStore.ts:498-500 | on an agreeing index the clamp at zero never acts |
| `TaskIndex.RunAgrees` | src/stores/taskStore.ts:167-207 | from every agreeing index and over every run, `setTasks` included: the lists are duplicate-free and equal to the stored tasks and the counters equal to a recount at every point, if and only if no merge loses a task of the project with the empty id and every `setTasks` covers the active project |
| `TaskIndex.NamedRunIsSound` | src/stores/taskStore.ts:451-509 | with non-empty project ids and covering snapshots that always holds |
| `TaskIndex.RunKeepsTerminal` | src/stores/taskStore.ts:396-411 | no run moves a stored task out of a terminal status |
| `TaskIndex.SetTasksAgreesIffCovering` | src/stores/taskStore.ts:167-207 | a snapshot with distinct ids, whose merges lose nothing, keeps the agreement if and only if it covers the active project |
| `TaskIndex.CoversMeansLists` | src/stores/taskStore.ts:185-188 | covering means listing every task stored for the active project before, unless a project is named like the key of tasks without one |
| `TaskIndex.ReplaceSnapshotIds` | src/stores/taskStore.ts:537-549 | a snapshot that is taken over keeps its ids in order |
| `TaskLists.ListsMean` | src/stores/taskStore.ts:451-509 | in an agreeing index each project lists its tasks once and counts those that are queued, running or cancelling |
| `TaskLists.NewTaskIsAppended` | src/stores/taskStore.ts:472-481 | a new task is stored and appended to its project's list |
| `TaskLists.ChangedTaskMovesLast` | src/stores/taskStore.ts:482-488 | a change of more than progress and time moves the task to the end of its list; any other keeps the order |
| `TaskLists.MovedTaskChangesLists` | src/stores/taskStore.ts:472-478 | a task that changes its project leaves the one list and is appended to the other |
| `TaskLists.ReplaceSnapshotMeans` | src/stores/taskStore.ts:537-549 | an empty snapshot does not replace unfinished tasks; otherwise each incoming task is merged into its shown version |
| `TaskLists.SelectKeepsOrder` | src/stores/taskStore.ts:167-207 | the list of the active project follows the order of the snapshot |
| `TaskIndex.TaskStore.MergeNormalizedTaskFacts` | src/stores/taskStore.ts:451-509 | the loop computes `MergeAll`; without a change nothing moves |
| `WorkflowRevision.CompareIsNumeric` | src/services/workflowTaskSnapshot.ts:4-15 | the comparison has the sign of the difference of the numeric values, for numerals of any length |
| `WorkflowRevision.CompareIsTotalPreorder` | src/services/workflowTaskSnapshot.ts:4-15 | on numerals and absent revisions the order is total, its ties are numeric equality (equal times where both are absent), and it is transitive except exactly around a zero revision between two absent ones |
| `WorkflowRevision.StrictlyNewerIsTransitive` | src/services/workflowTaskSnapshot.ts:4-15 | strictly newer is asymmetric and transitive for stamps of any kind |
| `WorkflowFacts.RunKeepsInv` | src/stores/taskStore.ts:331-371 | at every point facts that name a session name the current one, and the retired list is distinct, at most 8 long and without the current session |
| `WorkflowFacts.LiveEventsNeverSwitch` | src/stores/taskStore.ts:331-371 | a live event never switches an established session |
| `WorkflowFacts.RevisionsOnlyIncrease` | src/stores/taskStore.ts:331-371 | over every run of calls, while no session is switched and the task stays cached: each recorded run leaves its fact or moves it to a strictly newer revision of the same identity, if and only if none takes it back |
| `WorkflowFacts.RecordAdvancesIff` | src/stores/taskStore.ts:346-359 | one recorded run advances the cached fact if and only if it is not an older run of which, or of whose predecessor, no session is named |
| `WorkflowFacts.AdvancesIsNumeric` | src/stores/taskStore.ts:357-357 | for numerals a newer revision is a larger number |
| `WorkflowFacts.SessionlessRunTakesBack` | src/stores/taskStore.ts:354-357 | a run without a session does take back the fact of one that names it |
| `WorkflowFacts.CallAdvances` | src/stores/taskStore.ts:361-367 | within a session a fact leaves the cache only as one of too many terminal ones |
| `WorkflowFacts.WorkflowCache.RecordWorkflowFacts` | src/stores/taskStore.ts:331-371 | a call computes the recorded facts |
| `WorkflowFacts.WorkflowCache.Trim` | src/stores/taskStore.ts:361-367 | only terminal runs go, the oldest first, down to 256 |
| `WorkflowFacts.NewSessionIsEntered` | src/stores/taskStore.ts:348-353 | a complete run of a session neither current nor retired, in a snapshot or as the first, retires the old session, empties the cache, moves it to the new session and is stored |
| `WorkflowFacts.SnapshotSessionIsEntered` | src/stores/taskStore.ts:340-344 | a call opened with such a session moves the cache to it, and what is cached afterwards came with the call |
| `WorkflowFacts.SnapshotRunIsCached` | src/stores/taskStore.ts:340-360 | a call with one complete run of a new session leaves exactly that run cached |
| `WorkflowFacts.RetiredSessionIsIgnored` | src/stores/taskStore.ts:340-344 | a call opened with a retired session is a call opened with none |
| `WorkflowFacts.ForeignRunIsIgnored` | src/stores/taskStore.ts:346-349 | incomplete runs, runs of a retired session and live runs of another session change nothing |
| `WorkflowFacts.RecordStoresIff` | src/stores/taskStore.ts:354-359 | within the session a complete run is stored if and only if its task is not cached, or cached for the same identity at a strictly older revision or under another session field |
| `WorkflowFacts.CacheIsBounded` | src/stores/taskStore.ts:361-367 | after every call at most 256 finished runs are cached and 8 sessions retired |
| `WorkflowFacts.ActiveRunsStay` | src/stores/taskStore.ts:361-367 | running, queued and waiting runs are never evicted |
| `WorkflowFacts.EvictedAreOldest` | src/stores/taskStore.ts:361-367 | of more than 256 finished runs exactly 256 stay, and none that goes was updated later than one that stays |
| `WorkflowDispatch.CoalescingIsInvisible` | src/services/taskEventDispatcher.ts:64-84 | within one session, established or not yet, coalescing and flushing leaves the workflow cache exactly as direct delivery does |
| `WorkflowDispatch.CoalescingIsInvisibleToStore` | src/services/taskEventDispatcher.ts:108-114 | the same for the bounded store, while no more than 256 tasks ever end |
| `WorkflowDispatch.DispatchMeans` | src/services/taskEventDispatcher.ts:64-84 | an older event than the held-back one is dropped, a running one is held back under the timer, any other is emitted at once and clears its key |
| `WorkflowDispatch.KeyMeans` | src/services/taskEventDispatcher.ts:69-73 | events share a key if and only if they agree in task, project, session and identity |
| `WorkflowDispatch.FlushMeans` | src/services/taskEventDispatcher.ts:108-114 | the timer emits each held-back event once, in the order in which the keys came |
| `WorkflowDispatch.WorkflowEventDispatcher.DispatchWorkflow` | src/services/taskEventDispatcher.ts:64-84 | dispatching computes `Dispatch` |
| `WorkflowDispatch.WorkflowEventDispatcher.FlushPendingWorkflows` | src/services/taskEventDispatcher.ts:108-114 | flushing emits what is pending, in insertion order |
| `StreamBatcher.TextIsConserved` | src/services/streamDeltaBatcher.ts:70-159 | for each task the text that left followed by the buffered text is the enqueued text in order |
| `StreamBatcher.BufferedStreamsAreScheduled` | src/services/streamDeltaBatcher.ts:70-128 | every buffered stream has a pending delay or fallback timer |
| `StreamBatcher.CallbackMeetsItsBuffer` | src/services/streamDeltaBatcher.ts:118-128 | in every run a live callback belongs to the buffer it was made for |
| `StreamBatcher.OnlyDiscardDrops` | src/services/streamDeltaBatcher.ts:104-116 | without a discard no text is dropped |
| `StreamBatcher.TerminalComesAfterText` | src/services/taskEventDispatcher.ts:85-93 | a terminal event comes out after all text its task was sent before |
| `StreamBatcher.EnqueueMeans` | src/services/streamDeltaBatcher.ts:70-98 | the first text opens a buffer behind a delay timer, further text joins it, and the route is the last one given |
| `StreamBatcher.DelayAlignsFlush` | src/services/streamDeltaBatcher.ts:118-128 | when the delay ends the text stays buffered behind a fallback timer and, where there are frames, an animation frame |
| `StreamBatcher.AlignedTimerDelivers` | src/services/streamDeltaBatcher.ts:118-145 | the frame or fallback delivers the text with its route and leaves neither buffer nor timer |
| `StreamBatcher.FlushDelivers` | src/services/streamDeltaBatcher.ts:100-145 | flushing a task delivers its text at once |
| `StreamBatcher.StreamDeltaBatcher.EnqueueDelta` | src/services/streamDeltaBatcher.ts:70-98 | enqueueing computes `Enqueue` |
| `StreamBatcher.StreamDeltaBatcher.FlushKey` | src/services/streamDeltaBatcher.ts:130-145 | flushing computes `Flush` |
| `StreamBatcher.StreamDeltaBatcher.OnTimer` | src/services/streamDeltaBatcher.ts:118-128 | a timer computes its alignment or flush |
| `PreferenceQueue.ShownIsExplained` | src/stores/settingsStore.ts:335-423 | over every run, whatever is shown and stored at first: the shown preferences are the original ones with all succeeded and pending patches merged in issue order and failed ones absent; the originals are the stored ones from the first published load or successful save on, and those shown first before; saving is shown exactly while patches are pending |
| `PreferenceQueue.SaveDoesNotChangeShown` | src/stores/settingsStore.ts:365-400 | a successful save leaves what is shown, if and only if a load was published or a save succeeded before, or what was shown first agrees with what is stored on every preference no pending patch sets |
| `PreferenceQueue.SaveBeforeLoadChangesShown` | src/stores/settingsStore.ts:368-398 | a patch issued before the first load can change another preference on screen when its save succeeds |
| `PreferenceQueue.NoPatchIsLost` | src/stores/settingsStore.ts:365-423 | every issued patch is settled or pending, in order |
| `PreferenceQueue.PublishedLoadShowsBackend` | src/stores/settingsStore.ts:335-363 | a load that is published shows the stored preferences |
| `PreferenceQueue.ShownKeyByKey` | src/stores/settingsStore.ts:273-279 | key by key, preferences and notification switches show the value of the last saved or pending patch that sets them, and of the originals otherwise |
| `PreferenceQueue.UndisturbedLoadIsPublished` | src/stores/settingsStore.ts:335-363 | a load begun with nothing pending and not disturbed shows what is stored |
| `PreferenceQueue.LoadWaitsForSaves` | src/stores/settingsStore.ts:341-344 | a load reads only after every save issued before it |
| `PreferenceQueue.OvertakenLoadIsDropped` | src/stores/settingsStore.ts:335-369 | once a patch was issued or another load begun, an earlier load changes nothing |
| `PreferenceQueue.SettingsStore.VisibleGlobalPreferences` | src/stores/settingsStore.ts:273-279 | the loop merges the pending patches in order |
| `PreferenceQueue.SettingsStore.PersistPatch` | src/stores/settingsStore.ts:365-378 | issuing a patch computes `PersistGlobalPatch` and keeps the invariant |
| `PreferenceQueue.SettingsStore.OnSaveSettled` | src/stores/settingsStore.ts:388-416 | a settled save computes `SettleSave` and keeps the invariant |
| `ResourceFreshness.CacheIsFresh` | src/lib/projectResourceFreshness.ts:42-44 | data served from cache came with a reply less than the time to live ago, to a load begun after the last invalidation |
| `ResourceFreshness.ResolvedLoadIsFresh` | src/lib/projectResourceFreshness.ts:51-64 | the promise in flight leaves its loop only with a load begun after every invalidation before the exit test |
| `ResourceFreshness.LetGoResolvesFreshIff` | src/lib/projectResourceFreshness.ts:79-83 | a promise that an allowed reset let go resolves fresh if and only if no invalidation falls between the reset and the reply |
| `ResourceFreshness.LetGoPromiseResolvesStale` | src/lib/projectResourceFreshness.ts:79-83 | it can resolve stale |
| `ResourceFreshness.CurrentLoadIsCommitted` | src/lib/projectResourceFreshness.ts:19-86 | a load that was not invalidated is committed |
| `ResourceFreshness.ResetIsSafeIff` | src/lib/projectResourceFreshness.ts:79-83 | a reset lets no later run cache stale data, if and only if the promise in flight is not about to repeat its load |
| `ResourceFreshness.ResetDuringDirtyLoadIsUnsafe` | src/lib/projectResourceFreshness.ts:79-83 | otherwise stale data can always follow |
| `ResourceFreshness.DirtyLoadIsReachable` | src/lib/projectResourceFreshness.ts:19-86 | that situation is reachable |
| `ResourceFreshness.EnsureStartsIff` | src/lib/projectResourceFreshness.ts:36-66 | over every run a load is started if and only if no young data of the key is shown and no promise of the key is in flight |
| `ResourceFreshness.ReplyMeans` | src/lib/projectResourceFreshness.ts:51-58 | a success under the current epoch is committed and nothing else; the loop goes round exactly if it was invalidated and the reply is no error |
| `ResourceFreshness.InvalidateMeans` | src/lib/projectResourceFreshness.ts:68-78 | an invalidated key is not served from cache and its load in flight is repeated |
| `ResourceFreshness.SettleMeans` | src/lib/projectResourceFreshness.ts:60-63 | a settled promise is no longer in flight; another one stays |
| `ResourceFreshness.ProjectResourceController.constructor` | src/lib/projectResourceFreshness.ts:19-24 | the time to live is 60 s for the graph, 30 s for the chat authorization, 15 s otherwise |
| `ResourceFreshness.ProjectResourceController.EnsureFresh` | src/lib/projectResourceFreshness.ts:19-86 | ensuring answers from cache, joins or starts a load |
| `ImportItems.TotalsAgreeIffDistinct` | src/stores/importStore.ts:267-276 | the total of a list equals the total over the stored items if and only if no id occurs twice |
| `ImportItems.ProjectionsFor` | src/stores/importStore.ts:267-276 | the loop sums the projections |
| `ImportCounters.ListTotalsCount` | src/stores/importStore.ts:267-276 | each total of a list is the number of its places whose item has the status the counter is for |
| `ImportCounters.ProjectMeans` | src/stores/importStore.ts:149-180 | what one item contributes to each of the fifteen counters, by its status |
| `ImportCounters.MatchesMeans` | src/stores/importStore.ts:278-286 | what each filter lets through, by status |
| `ImportStore.BuildTaskIndex` | src/stores/importStore.ts:288-295 | the loop builds `IndexTasks` |
| `ImportAggregates.AttachAgreesIffDistinct` | src/stores/importStore.ts:418-434 | an attached session has exact counters if and only if its item ids are distinct; then the index is exact too |
| `ImportAggregates.ReplaceAgreesFully` | src/stores/importStore.ts:435-458 | after a replacement with distinct ids the selection summary and the item count agree as well |
| `ImportAggregates.RunKeepsAgreement` | src/stores/importStore.ts:550-642 | every run of patches and local replacements keeps counts, progress and selection equal to full recomputation and the task index the exact inverse |
| `ImportAggregates.AttachedSessionStaysExact` | src/stores/importStore.ts:418-458 | both entry points, followed by any run |
| `ImportCounters.AgreeMeansExact` | src/stores/importStore.ts:186-265 | counters equal full recomputation if and only if each is the number of stored items with its status |
| `ImportCounters.OverviewMeansExact` | src/stores/importStore.ts:186-265 | the same for the overview with its selection summary and item count |
| `ImportCounters.RunCountsByStatus` | src/stores/importStore.ts:550-642 | over every run of patches and local replacements the counters count the stored items by status |
| `ImportCounters.SessionCountsByStatus` | src/stores/importStore.ts:418-458 | the same after either entry point with distinct ids |
| `ImportAggregates.ClampNeverActs` | src/stores/importStore.ts:182-184 | on an agreeing counter the difference is exact and the clamp never acts |
| `ImportAggregates.ReindexKeepsExact` | src/stores/importStore.ts:554-564 | moving an item between tasks keeps the inverse exact, without empty entries |
| `ImportAggregates.IndexTasksExact` | src/stores/importStore.ts:288-295 | the index built from distinct items is the exact inverse of their task ids |
| `ImportWindow.WindowIsFetchedSuffix` | src/stores/importStore.ts:459-546 | after attaching a window, any run of appended pages and quiet edits shows the fetched ids from the start index on, in at most three pages, and the session lists their stored items |
| `ImportWindow.AppendWindowOk` | src/stores/importStore.ts:498-546 | one appended page extends the fetched sequence and keeps the window, empty pages included |
| `ImportWindow.RunNeverGoesBack` | src/stores/importStore.ts:498-642 | over every run of pages, patches and local replacements, an item that carries a revision and stays stored keeps or raises it at every step, if and only if nothing without a revision, or locally with a smaller one, is put in its place |
| `ImportWindow.UnrevisedItemLetsOlderIn` | src/stores/importStore.ts:359-361 | a patch without a revision lets every stored item go back to an older one |
| `ImportWindow.AppendNeverGoesBack` | src/stores/importStore.ts:519-523 | a stored item is the same or newer after a page was appended |
| `ImportEdits.OutOfScopeChangesNothing` | src/stores/importStore.ts:363-367 | actions of another project or epoch change nothing, and no other action is refused for its scope |
| `ImportEdits.PatchTakesNewer` | src/stores/importStore.ts:584-591 | a patch replaces exactly the stored items it lists at a newer revision, or where one revision is absent |
| `ImportEdits.PatchKeepsSelection` | src/stores/importStore.ts:639-639 | a patch keeps a selection that is known or stored |
| `ImportEdits.LeavingItemIsRemoved` | src/stores/importStore.ts:594-611 | an item that leaves the filter leaves the view; the rest keeps its order and the total falls by one |
| `ImportEdits.EnteringItemIsAdded` | src/stores/importStore.ts:604-611 | an item that enters the filter is put in front of the last page, which keeps at most 200 ids |
| `ImportEdits.StayingItemMovesNothing` | src/stores/importStore.ts:592-594 | an item that stays on its side of the filter moves no page |
| `ImportEdits.ReplaceLocalMeans` | src/stores/importStore.ts:550-569 | a local replacement takes the item whatever its revision |
| `ImportEdits.EditTakesTotal` | src/stores/importStore.ts:186-219 | an edit that moves a counter shows the item count of a present overview as the total; one that moves none changes nothing |
| `ImportEdits.OtherSessionIsShown` | src/stores/importStore.ts:305-325 | another session shows its items that pass the filter, in order, up to 600 |
| `ImportEdits.SameSessionKeepsView` | src/stores/importStore.ts:309-315 | the session in view keeps what it shows and adds new matching items, up to 600 |
| `ImportEdits.ViewStartsAt` | src/stores/importStore.ts:317-317 | the view starts at the position of its first id among the items that pass the filter |
| `ImportEdits.AttachFollowsView` | src/stores/importStore.ts:325-328 | an attached session lists the stored items of the ids in view |
| `ImportEdits.PatchFollowsView` | src/stores/importStore.ts:626-630 | a patch keeps the list in step with the view |
| `ImportEdits.AppendFollowsView` | src/stores/importStore.ts:532-534 | so does a page |
| `ImportEdits.AttachKeepsSelection` | src/stores/importStore.ts:418-434 | a selection survives a session that lists its item, the overview survives within its session |
| `ImportEdits.ReplaceIsAttach` | src/stores/importStore.ts:435-458 | replacing a session is attaching it, but for the overview |
| `ImportEdits.PageFitsMeans` | src/stores/importStore.ts:498-501 | a page is let in if and only if it is in scope and names the session and snapshot in view |
| `ImportEdits.AppendedPageIsShown` | src/stores/importStore.ts:502-513 | a page is added to the view; with three pages loaded exactly the first one goes |
| `ImportEdits.AppendTakesNewer` | src/stores/importStore.ts:520-524 | each page item is stored unless the stored one is not older; the selected item stays |
| `ImportEdits.AppendIndexesTasks` | src/stores/importStore.ts:527-531 | a page adds its items to the task index and no entry is lost |
| `ImportEdits.AppendKeepsCounters` | src/stores/importStore.ts:533-545 | a page changes no counter but the page total |
| `ImportEdits.AttachWindowMeans` | src/stores/importStore.ts:459-497 | the first page takes over the counters of its overview and keeps the selection within the session |
| `ImportWorkbench.ImportWorkbenchStore.PatchItems` | src/stores/importStore.ts:570-642 | the loop computes `PatchItems` and keeps the agreement |
| `ImportWorkbench.ImportWorkbenchStore.ReplaceItemLocal` | src/stores/importStore.ts:550-569 | the action computes `ReplaceItemLocal` and keeps the agreement |
| `ImportWorkbench.ImportWorkbenchStore.AppendItemPage` | src/stores/importStore.ts:498-546 | the action with its loops computes `AppendPage` |
| `ImportWorkbench.ImportWorkbenchStore.ReplaceSession` | src/stores/importStore.ts:435-458 | recounting the stored values in any order gives full agreement |
| `ImportWorkbench.EvictPages` | src/stores/importStore.ts:507-513 | the eviction loop computes `Evict` |
| `ImportWorkbench.MergePageItems` | src/stores/importStore.ts:520-523 | the merge loop computes `MergePage` |

## Left out

- Liveness of a revocation: the barrier waits for a count that leases of a later grant also raise, so it may wait for them too; only safety is proved.
- Poisoned locks, `Arc` identity and panics of the native code; the side effects of a revocation on connectors, tasks and confirmations, which appear only as an arbitrary error that makes it fail.
- TrustRevocation.RevocationIsComplete: speaks of the owners closed for the revoked root; the workflow owner is among them when the root's identity could be measured or a listed run names it, as in the source.
- A project relocated to another root: its old root's owners are closed by a revocation of the old root, not of the new one.
- LaunchRegistry.PermitLivesExactlyOneEpoch: fewer than 2^64 epochs; the revocation theorem does not need the generation at all.
- ResourceFreshness.CacheIsFresh: one project key per controller; `markLoaded` and `beginRequest` outside `ensure`.
- WorkflowDispatch.CoalescingIsInvisible: events of one session, with one identity per task and revisions that determine their summaries.
- WorkflowDispatch.CoalescingIsInvisibleToStore: at most 256 tasks that ever end; beyond that eviction depends on the order of calls.
- ImportWindow.WindowIsFetchedSuffix: distinct ids in the first page and no edit that changes filter membership; such edits move ids between pages.
- TaskIndex.RunAgrees: `setTasks` snapshots with distinct ids; the visible list it replaces is a parameter.
- The visible task list of the task store, streams, logs, confirmations and activity rows; `fetchTasks`.
- `retainProject` and `dispose` of the batchers, which discard on purpose; discarded stream text is accounted for by a separate output.
- `localeCompare` is character order, which it is for digits and for timestamps of one format.
- SnapshotBatcher.BatchedStoreEqualsDirectStore: one stored task per project and task, as the batcher keys its lanes; `taskById` is keyed by the task id alone.
- WorkflowFacts.RevisionsOnlyIncrease: an absent session id and an empty one are the same, as the store's truth tests treat them everywhere but in one equality.
- PreferenceQueue.ShownIsExplained: a backend that merges each patch as the client does; language loading and visual effects; `loadSettings` and `reset`, which also write the shown and the committed preferences.
- Re-entrant store subscribers: a listener that dispatches while it is called.
- Completion banners, operation counts per batch, cursors and dialogs of the import store.
- The lint, chat, project and update stores, which repeat the epoch pattern; user interface, I/O wrappers and the native services behind them.
