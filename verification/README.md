# MediaFlow Core: a verified model

MediaFlow Core keeps its state in transactional tables that crashing, racing workers change step by step.
This project models the parts where that is hardest to get right and proves, for every run, what they
promise. `dafny verify dfyconfig.toml` checks all of it.

How it is modelled:

- A table is a map (or a sequence, for append-only tables) in the field of a class. A `BEGIN IMMEDIATE`
  transaction is one method that changes the fields in place; its contract equates the new tables and the
  answer with a function of the old tables. The catalog store keeps its tables in one field, so that a
  transaction works on a copy which is put in place on commit and dropped on rollback.
- A run is a sequence of steps from the empty state: any interleaving of transactions, of the points
  between them where a worker, thread, poller or caller stands, and of crashes, which forget that point
  and touch no table. The theorems are about all runs.
- Integers are unbounded except where the source's width matters: instants and stored counters are 64-bit
  with the source's saturating operations (`Int64`).

The modules, by core:

- Automation events: `AutomationEvents` (the store), `ReconcileRequests` and `ScanScheduling` (the
  downstream side), `AutomationWorkers` (one unit of work), `AutomationRuns` and `AutomationHistory` (runs).
- Completion signals: `CompletionSignals` (the dispatcher) and `CompletionRuns` (runs beside, and on top
  of, the automation core).
- Sources: `AutomationSources` (sealed secrets, rotation, feed polls) and `SourceRuns`.
- Directory scanner: `ScanTree` (what a tree deserves), `ScanPool` (threads, lock, channel, consumer),
  `ScanRuns` (safety, exactness, progress, termination), `ScanConsumer` (the checkpointing loop).
- File revisions: `FileRevisions`, `RevisionRuns`, `RevisionHistory`.
- Catalog: `Catalog` (validation, rows, regrouping), `CatalogStores`, `CatalogProjection` and `CatalogRuns`
  (reading back), `CatalogPages` (walks by cursor).
- Capability calls: `CapabilityClaims`, `CapabilityRuns`.
- Watch hints: `WatchHints` (channel, coalescer), `WatchTick` (one tick), `WatchRuns` (offers at any moment).
- Shared: `Outcomes`, `Int64`, `Ordering` (the ORDER BY clauses), `Texts`.

What is taken as given:

- Fresh identifiers never repeat: they are drawn from a counter. Digests and fingerprints are injective, so
  a digest stands for what it was taken of, and no other part files an event under the tagged digest of a
  completion. Sealing is symbolic: a sealed value opens if and only if the associated data matches.
- Whether an event's payload opens now is an input of a claim; what a download client answers is an input
  of the call; whether a display path marks an auxiliary video is an input of an observation; the folded
  title a search uses is an input of a result; what the file system says about a directory is a tree.
- A finished automatic scan stays finished; the catalog's order history and the stored capability calls are
  never rewritten; a sink that fails commits nothing of that batch.
- A scanner thread's shared accesses (the lock, the two flags, the channel) are atomic steps in any order.
  The model allows more than the code: a notification may wake nobody, threads may wake for no reason, and
  the consumer may go on receiving after a stop. Visited and Skipped messages carry their path only in
  the model, to tell them apart.
- A claim that spans several rounds draws one token in the store's own
  method and, in runs, a fresh token for each round; tokens matter only by being different.

Where the code differs from what its documentation or a first reading suggests, the model follows the code:

- A command on an unknown event answers an invalid state, not a missing event.
- Completing or failing an event does not look at the lease's deadline: an expired lease that was not
  reclaimed still commits. Committing a feed poll does look at it.
- `replace` with a version that is still to come can put a rotated webhook key back in force:
  `ReplaceRetainsKey` says exactly when it cannot, `ReplaceMayRestoreRotatedKey` gives the shortest run.
- An observation at the largest 64-bit instant can count although it is not an interval later:
  `SaturationBreaksTheChain` gives the run, `CountedObservationsAreSpaced` says exactly when.
- A revision that is reactivated after a policy change is scheduled by the new policy although its gate
  follows the old snapshot: `TheCheckIsTheInstant` says exactly when its check is right, in every run.
- The scanner's stop flag is always set when its final test reads it, so a scan loses its lease
  exactly when it heard no message; the batch size of 500 is never reached before 128 messages.
- A feed poll with one draft whose dedup key stands for something else refuses the whole poll.
- A capability call without a handler, a refused completion and a crashed owner leave a claim that is
  pending for ever: `AbandonedClaimsPendForEver` and `ClaimsAreAbandonedByTheirOwners`.

## Model

| member | source | states |
|---|---|---|
| `AutomationEvents.AutomationEventStore.ClaimRound` | apps/core/src/automation/event_store.rs:348-423 | one claim transaction: the oldest due row gets the lease token, deadline and one more attempt, or is failed for good if its payload does not open; one outbox record either way |
| `AutomationEvents.AutomationEventStore.ClaimOne` | apps/core/src/automation/event_store.rs:336-424 | up to 100 rounds under one token; a lease is answered exactly when a round found a readable event |
| `AutomationEvents.AutomationEventStore.Complete` | apps/core/src/automation/event_store.rs:430-464 | takes effect exactly when the row is running under the lease's token, whatever the deadline says |
| `AutomationEvents.AutomationEventStore.Fail` | apps/core/src/automation/event_store.rs:471-506 | the same fence; schedules the retry or fails for good depending on recoverability and the lease's attempt |
| `AutomationEvents.AutomationEventStore.ReclaimExpired` | apps/core/src/automation/event_store.rs:513-552 | every expired lease, at most a thousand, goes back to retry or fails when its attempts are spent, each once |
| `AutomationEvents.AutomationEventStore.Command` | apps/core/src/automation/event_store.rs:582-680 | cancel and retry with a receipt per event and key: replays answer, other commands under the key conflict |
| `AutomationEvents.AutomationEventStore.Insert` | apps/core/src/automation/webhook.rs:140-250 | a fresh pending event with its first outbox record unless the source already used the dedup key |
| `AutomationEvents.ReclaimRows` | apps/core/src/automation/event_store.rs:513-552 | reclaiming a batch rewrites exactly the rows of the batch and no other |
| `ReconcileRequests.ReconcileRequestService.Accept` | apps/core/src/discovery/reconcile_service.rs:67-158 | one request row per key: a malformed key is refused, an existing key answers its own request or conflicts, a new one joins or creates a scan |
| `ReconcileRequests.AcceptIsIdempotent` | apps/core/src/discovery/reconcile_service.rs:67-158 | an answered request is bound to exactly this key and inbox, and a repeated key never adds a row |
| `ReconcileRequests.AcceptTwice` | apps/core/src/discovery/reconcile_service.rs:78-107 | accepting a key again, whatever happened in between, names the same request |
| `ScanScheduling.ScheduleKeepsOneActive` | apps/core/src/discovery/coordinator.rs:372-448 | at most one automatic scan of an inbox is queued or running, and a scheduling call answers with such a scan |
| `AutomationWorkers.AutomationWorker.RunOnce` | apps/core/src/automation/worker.rs:198-239 | claim, downstream call under the event's own key, then complete or fail, composed in that order |
| `AutomationWorkers.UndisturbedWorkIsReported` | apps/core/src/automation/worker.rs:198-239 | undisturbed, the report is always accepted and the event stands as the downstream answered |
| `AutomationRuns.EveryRunIsOk` | apps/core/src/automation/event_store.rs:348-552 | every interleaving of claims, deliveries, reports, crashes, reclaims and commands keeps rows, leases, outbox and downstream relations in order |
| `AutomationHistory.StatusSaysWhatIsSet` | apps/core/src/automation/event_store.rs:348-552 | running iff leased, retry-wait iff a retry instant is set, completed iff downstream is set; attempts per status; a current lease counts as the row does |
| `AutomationHistory.OnlyTheNewestLeaseCommits` | apps/core/src/automation/event_store.rs:430-506 | a report takes effect exactly when the event is running under the newest token handed out for it |
| `AutomationHistory.CompletesAtMostOnce` | apps/core/src/automation/event_store.rs:430-464 | an event completes at most once in its life, and is completed exactly when it has |
| `AutomationHistory.TerminalForEver` | apps/core/src/automation/event_store.rs:559-680 | completed and cancelled events never change again |
| `AutomationHistory.OneRequestPerEvent` | apps/core/src/automation/worker.rs:198-239 | a reconcile event has at most one downstream request ever, and a completed one stores that request's id |
| `AutomationHistory.DeliveryIsIdempotent` | apps/core/src/discovery/reconcile_service.rs:78-107 | delivering again after a crash meets no conflict and answers with the request that exists |
| `AutomationHistory.BackoffDoubles` | apps/core/src/automation/event_store.rs:1240-1243 | the delay starts at one second and doubles with each attempt of the budget |
| `AutomationHistory.BudgetBoundsClaimsAndDelays` | apps/core/src/automation/event_store.rs:354-362 | at most ten claims between insertion or retry command and the next, equal to the attempt count, with delays summing to at most 511 seconds |
| `AutomationHistory.WaitingEventsBecomeDue` | apps/core/src/automation/event_store.rs:348-362 | the attempt guard of the claim query strands no pending or waiting event |
| `AutomationHistory.OutboxRebuildsEvents` | apps/core/src/automation/event_store.rs:1160-1199 | each event's outbox versions are 1 to current without gap, and replaying the outbox rebuilds every event's public state |
| `AutomationHistory.CommandsApplyOnce` | apps/core/src/automation/event_store.rs:582-680 | after a command succeeded the same key replays its answer for ever and changes nothing |
| `AutomationHistory.ClaimTakesOldestReadable` | apps/core/src/automation/event_store.rs:348-423 | the lease goes to the oldest due event whose payload opens; older ones were failed as unreadable |
| `AutomationHistory.ReclaimLeavesNoneExpired` | apps/core/src/automation/event_store.rs:513-552 | unless a thousand leases expired at once none is left expired |
| `CompletionSignals.DownloadCompletionDispatcher.Prepare` | apps/core/src/automation/completion.rs:69-88 | recovers expired leases only, the earliest deadlines first, all of them below a thousand, to pending or failed by their attempts; nothing else changes |
| `CompletionSignals.DownloadCompletionDispatcher.ClaimOne` | apps/core/src/automation/completion.rs:102-139 | leases the oldest waiting signal, whenever one waits, under a token its row then carries and one more attempt |
| `CompletionSignals.DownloadCompletionDispatcher.Dispatch` | apps/core/src/automation/completion.rs:141-236 | finds the mapping, files the event and settles the signal in one transaction; without the lease all of it is rolled back |
| `CompletionSignals.DownloadCompletionDispatcher.RunOnce` | apps/core/src/automation/completion.rs:95-100 | claim, then dispatch under that lease |
| `CompletionSignals.RecoveryIsInOrder` | apps/core/src/automation/completion.rs:69-88 | recovery picks the earliest expired deadlines and leaves none expired below the limit of a thousand |
| `CompletionRuns.EveryRunIsOk` | apps/core/src/automation/completion.rs:102-265 | every interleaving of records, mappings, recoveries, claims, dispatches, crashes and steps of the automation core keeps signals and filed events naming each other, and is a run of the automation core underneath |
| `CompletionRuns.OneEventPerCompletion` | apps/core/src/automation/completion.rs:187-230 | an event for a download's completion exists exactly when its signal is settled as that event, so there is at most one |
| `CompletionRuns.OneRequestPerCompletion` | apps/core/src/automation/completion.rs:141-236 | from download to scan: a completion never makes more than one reconcile request |
| `CompletionRuns.OnlyTheNewestLeaseDispatches` | apps/core/src/automation/completion.rs:238-265 | a dispatch commits exactly when the signal runs under the newest lease; otherwise nothing is written; a held lease meets no conflict and at most one mapping |
| `CompletionRuns.NoSignalIsStranded` | apps/core/src/automation/completion.rs:69-139 | at most ten claims ever; every signal waits to be claimed, is leased, or is finished |
| `CompletionRuns.FinishedForEver` | apps/core/src/automation/completion.rs:238-265 | a settled or failed signal never changes again |
| `CompletionRuns.UndisturbedTurnSettles` | apps/core/src/automation/completion.rs:95-236 | an undisturbed turn settles the oldest waiting signal, with an event exactly if its connection is mapped |
| `AutomationSources.AutomationSourceStore.Insert` | apps/core/src/automation/source_store.rs:177-252 | source and runtime rows with sealed secret under the first version |
| `AutomationSources.AutomationSourceStore.Replace` | apps/core/src/automation/source_store.rs:255-361 | a version-checked replacement that reseals the given or retained secret under the next version |
| `AutomationSources.AutomationSourceStore.RotateWebhookSecret` | apps/core/src/automation/source_store.rs:424-597 | version-checked rotation with a receipt per key, and the exact replay of a receipt |
| `AutomationSources.AutomationSourceStore.ClaimDueRssSource` | apps/core/src/automation/event_store.rs:842-936 | the source due longest gets a poll lease bound to its version |
| `AutomationSources.AutomationSourceStore.CommitRssPoll` | apps/core/src/automation/event_store.rs:974-1131 | all drafts and the cursor in one transaction, or nothing |
| `AutomationSources.AutomationSourceStore.CommitFailure` | apps/core/src/automation/event_store.rs:757-830 | releases the lease and schedules the next poll by the number of failures in a row; a failed checkpoint changes nothing |
| `SourceRuns.EverySecretOpens` | apps/core/src/automation/source_store.rs:599-637 | through any run each stored secret, cursor and rotation receipt opens under the associated data its reader builds |
| `SourceRuns.RotationReplaysItsOwnKey` | apps/core/src/automation/source_store.rs:458-520 | replaying a rotation answers that rotation's own key even after later ones |
| `SourceRuns.VersionPinsSecret` | apps/core/src/automation/source_store.rs:286-352 | within one configuration version the secret never changes |
| `SourceRuns.ReplaceRetainsKey` | apps/core/src/automation/source_store.rs:255-352 | whatever happens between reading the webhook key and replacing, the key in force stays if and only if the expected version was none still to come at the reading |
| `SourceRuns.ReplaceMayRestoreRotatedKey` | apps/core/src/automation/source_store.rs:255-352 | the shortest run in which a replacement that expects a version still to come puts a rotated key back in force |
| `SourceRuns.RefusedExactlyOnClash` | apps/core/src/automation/event_store.rs:1006-1073 | a poll is refused as a whole if and only if one of its drafts reuses a dedup key for something else |
| `SourceRuns.DraftsGrow` | apps/core/src/automation/event_store.rs:1006-1073 | an accepted batch files every draft and answers the growth of the event table |
| `SourceRuns.FiledDraftsAddNothing` | apps/core/src/automation/event_store.rs:1006-1073 | the same drafts under a later lease add no event |
| `SourceRuns.OnlyTheNewestPollCommits` | apps/core/src/automation/event_store.rs:974-1010 | a poll commits only under the newest lease of an enabled source at its version |
| `SourceRuns.PollCommitsAtMostOnce` | apps/core/src/automation/event_store.rs:757-830 | a poll lease commits at most once, as success or failure |
| `SourceRuns.PollsFileDraftsOnce` | apps/core/src/automation/event_store.rs:974-1131 | a successful poll's answer is the growth of the event table, and dedup keys stay unique per source |
| `ScanTree.EachDeservedMessageOnce` | apps/core/src/discovery/scanner.rs:294-430 | an undisturbed traversal sends exactly the messages a walk down the tree says it deserves, each once |
| `ScanPool.WorkState.Poll` | apps/core/src/discovery/scanner.rs:267-284 | one look at the queue under the lock: leave, take or wait |
| `ScanPool.WorkState.Offer` | apps/core/src/discovery/scanner.rs:441-450 | queue below 64 or process inline |
| `ScanPool.WorkState.Finish` | apps/core/src/discovery/scanner.rs:286-289 | the saturating decrement after a directory |
| `ScanRuns.StepKeeps` | apps/core/src/discovery/scanner.rs:259-510 | every shared access of every thread and of the consumer keeps counts, wakeups and messages in order and spends from a budget |
| `ScanRuns.PoolStaysInBounds` | apps/core/src/discovery/scanner.rs:267-289 | queue at most 64, no underflow of outstanding, nothing discarded at zero, every sleeper watched by an active worker |
| `ScanRuns.ScanReportsTheTreeExactlyOnce` | apps/core/src/discovery/scanner.rs:226-451 | at the end of an unstopped scan the consumer has received every deserved message exactly once, for all trees, worker counts and interleavings |
| `ScanRuns.NeverDeadlocks` | apps/core/src/discovery/scanner.rs:259-290 | until all threads and the consumer are done one of them can move by itself |
| `ScanRuns.EveryRunEnds` | apps/core/src/discovery/scanner.rs:259-451 | the moves of any run are bounded by tree size and worker count, plus one for each spurious wakeup |
| `ScanConsumer.Consume` | apps/core/src/discovery/scanner.rs:140-221 | the loop writes exactly the planned batches up to the first failing write and returns the planned verdict |
| `ScanConsumer.Conclude` | apps/core/src/discovery/scanner.rs:192-221 | what follows the loop: error precedence and the final write |
| `ScanConsumer.BatchesAreSmallAndCounted` | apps/core/src/discovery/scanner.rs:168-188 | no batch holds more than 128 items and each carries the counts of the prefix received |
| `ScanConsumer.SuccessWroteEverything` | apps/core/src/discovery/scanner.rs:140-221 | a returned count equals the last written progress, and the batches concatenate to all files and errors in order |
| `ScanConsumer.ScanWritesEachFileOnce` | apps/core/src/discovery/scanner.rs:126-451 | threads, channel and consumer together: a completed scan writes each regular file of the tree once and no other |
| `FileRevisions.RevisionService.Observe` | apps/core/src/discovery/revisions.rs:194-289 | one observation: same facts advance the current revision, other facts supersede it and begin or reactivate another |
| `FileRevisions.RevisionService.AdvanceExisting` | apps/core/src/discovery/revisions.rs:406-509 | matching count, counted instant, age gate, stability and the one-shot request of a current revision |
| `FileRevisions.RevisionService.CreateOrReactivate` | apps/core/src/discovery/revisions.rs:298-404 | insert or find the revision with these facts and begin its epoch |
| `FileRevisions.RevisionService.MarkMissing` | apps/core/src/discovery/revisions.rs:122-172 | marks the current revision missing and keeps history |
| `FileRevisions.RevisionService.PutPolicy` | apps/core/src/discovery/policy.rs:94-151 | bounds, default policy, optimistic version check |
| `RevisionRuns.AgeGateIsExact` | apps/core/src/discovery/revisions.rs:609-617 | saturation never distorts the age gate: it is the exact comparison in nanoseconds |
| `RevisionRuns.IntervalGateIsExact` | apps/core/src/discovery/revisions.rs:436-455 | the interval gate is exact if and only if the sum does not saturate at the largest instant |
| `RevisionRuns.EveryTableIsOk` | apps/core/src/discovery/revisions.rs:194-592 | what every reachable table keeps of revisions, states, requests and policies |
| `RevisionHistory.StepFollows` | apps/core/src/discovery/revisions.rs:194-509 | what one step does to any one revision: advanced, begun, replaced, lost or untouched |
| `RevisionHistory.CountedObservationsAreSpaced` | apps/core/src/discovery/revisions.rs:436-455 | the counted observations of an epoch lie an interval apart, even out of order, if and only if none of this revision saturated; then last counted minus first observed is at least (matching - 1) intervals |
| `RevisionHistory.SaturationBreaksTheChain` | apps/core/src/discovery/revisions.rs:436-455 | a run of two observations at the largest instants makes a file stable after one microsecond |
| `RevisionHistory.StableMeansSeenTwiceAndOldEnough` | apps/core/src/discovery/revisions.rs:457-462 | a stable revision has an observation that was old enough, and two counted ones an interval apart in its epoch if and only if the epoch began an interval before the largest instant |
| `RevisionHistory.EveryCheckIsOnSchedule` | apps/core/src/discovery/revisions.rs:594-607 | a pending check follows the revision's own snapshot if and only if its latest observation advanced it or made it current under a policy that gives the same first check |
| `RevisionHistory.TheCheckIsTheInstant` | apps/core/src/discovery/revisions.rs:463-473 | in every run, exactly the observations in order at or after the check are answered with a stable revision, if and only if the revision is on its own schedule |
| `RevisionHistory.ObservationsAfterTheCheckAreStable` | apps/core/src/discovery/revisions.rs:457-473 | on its own schedule any observation at or after the check is answered with a stable revision, in order or not |
| `RevisionHistory.SameValuesAgree` | apps/core/src/discovery/revisions.rs:345-355 | a new revision, and one that returns while the policy in force has its snapshot's values, is on its own schedule |
| `RevisionHistory.ReactivationScheduleIsExactOnlyIfPoliciesAgree` | apps/core/src/discovery/revisions.rs:345-355 | after a policy change the check of a reactivated revision is exact if and only if both policies give the same instant |
| `RevisionHistory.RequestedOnceIfEverStable` | apps/core/src/discovery/revisions.rs:575-592 | a processing request exists if and only if the revision was ever stable, and exactly one observation reported it |
| `RevisionHistory.OneCurrentRevision` | apps/core/src/discovery/revisions.rs:240-273 | one current revision per tracked file, all others superseded or missing with other facts; skipped ones never stable |
| `Catalog.ValidateVersions` | apps/core/src/catalog/store.rs:742-785 | the counters and sets of the loop decide exactly the declared validity of versions, owners and links |
| `Catalog.ValidateResult` | apps/core/src/catalog/store.rs:675-829 | the whole validation decides exactly the declared validity of a result |
| `CatalogStores.CatalogStore.InsertProjection` | apps/core/src/catalog/store.rs:566-673 | all rows of the result or failure on the first key another item holds |
| `CatalogStores.CatalogStore.Apply` | apps/core/src/catalog/store.rs:108-273 | one transaction: refusals, replay, replacement, version, history and notice |
| `Catalog.GroupFiles` | apps/core/src/catalog/store.rs:450-475 | one pass over the sorted link rows gives every version exactly its own ordered files |
| `CatalogStores.CatalogStore.GetDetail` | apps/core/src/catalog/store.rs:391-527 | the hash-map regrouping equals asking for each node's versions and each version's files |
| `CatalogRuns.AppliedResultReadsBack` | apps/core/src/catalog/store.rs:108-273 | after an apply the detail is exactly the applied tree, and only the cap on related tasks can fail |
| `CatalogRuns.DetailIsTheLastResult` | apps/core/src/catalog/store.rs:391-527 | at any time of any run the detail is the tree of the last result applied to the item |
| `CatalogRuns.ApplyKeepsOtherItems` | apps/core/src/catalog/store.rs:543-564 | an apply touches no row of another item |
| `CatalogRuns.RepeatsChangeNothing` | apps/core/src/catalog/store.rs:121-145 | a result applied again changes nothing at any later time; other content under its id conflicts |
| `CatalogRuns.VersionCountsResults` | apps/core/src/catalog/store.rs:184-198 | the projection version is the number of distinct results applied, and notices carry 1, 2, ... without gap |
| `CatalogRuns.ListShowsTheCatalog` | apps/core/src/catalog/store.rs:298-335 | a fresh list shows exactly the account's matching items, each as it stands |
| `CatalogPages.PageIsTheNextStretch` | apps/core/src/catalog/store.rs:320-381 | a page is the next stretch of the snapshot and has a cursor exactly when more is left |
| `CatalogPages.WalkReturnsTheSnapshot` | apps/core/src/catalog/store.rs:280-382 | walking by cursor returns exactly the first page's snapshot for all limits, whatever is written between pages |
| `CatalogPages.SnapshotIsNewestFirst` | apps/core/src/catalog/store.rs:345-353 | the snapshot is strictly ordered by instant and identity, so each item appears once |
| `CatalogPages.SnapshotHoldsLatestRows` | apps/core/src/catalog/store.rs:326-346 | a history row is in the snapshot if and only if it is the item's last, the account's, and matches |
| `CapabilityClaims.CapabilityStore.TakeClaim` | apps/core/src/capability/claims.rs:46-96 | replay, conflict, pending, owned or available, and the pending row for a reservation |
| `CapabilityClaims.CapabilityStore.CompleteClaim` | apps/core/src/capability/claims.rs:99-134 | completion, call row and event row together or not at all |
| `CapabilityRuns.HandlersRunAtMostOnce` | apps/core/src/capability/gateway.rs:139-203 | over all interleavings and crashes the handler starts at most once per request id and per capability and key |
| `CapabilityRuns.ReplaysAgree` | apps/core/src/capability/gateway.rs:205-229 | all callers that get a result for a request get the one stored result |
| `CapabilityRuns.CompletedCallsReplayForEver` | apps/core/src/capability/claims.rs:61-77 | a stored result is replayed at every later time to exactly the call it was made for |
| `CapabilityRuns.CompletedMeansOneRowEach` | apps/core/src/capability/claims.rs:99-134 | a claim is completed if and only if its own call row was written, with exactly one event row |
| `CapabilityRuns.AbandonedClaimsPendForEver` | apps/core/src/capability/claims.rs:61-77 | a pending claim without an owner is pending at every later time: its call is told to wait for ever, other calls conflict, nothing is stored for it |
| `CapabilityRuns.ClaimsAreAbandonedByTheirOwners` | apps/core/src/capability/gateway.rs:139-203 | an owned claim comes to that exactly when its owner crashes, finds no handler, or has its completion refused |
| `WatchHints.WatchChannel.TrySend` | apps/core/src/discovery/watcher.rs:80-87 | a full channel sets the sticky flag and keeps nothing |
| `WatchHints.WatchCoalescer.Push` | apps/core/src/discovery/watcher.rs:158-175 | merge without going back in time, refuse a new path when full |
| `WatchHints.WatchCoalescer.DrainReady` | apps/core/src/discovery/watcher.rs:179-196 | exactly the paths whose window has passed leave, the others stay |
| `WatchTick.DiscoveryCoordinator.Tick` | apps/core/src/discovery/coordinator.rs:718-767 | one tick: drained hints are held or their inbox scheduled, overflow schedules every watched inbox, nothing due stays |
| `WatchRuns.NoHintIsLost` | apps/core/src/discovery/coordinator.rs:718-767 | with offers at any moment, also between the last receive and the taking of the flag, every hint of a watched inbox is in the channel, covered by the flag, held under the window, or followed by a scheduling call |
| `WatchRuns.DueHintsAreServed` | apps/core/src/discovery/coordinator.rs:718-754 | a hint once held under a first instant is served by the first tick that begins a window after it, over every run in between |
| `WatchRuns.CapacitiesHold` | apps/core/src/discovery/watcher.rs:15-17 | channel and coalescer stay within capacity and an inbox has at most one automatic scan queued or running |
| `WatchRuns.ServingLeavesAnActiveScan` | apps/core/src/discovery/coordinator.rs:372-448 | the scheduling call of an available inbox leaves a queued or running automatic scan |

## Left out

- Where finished downloads come from and webhook requests: a finished download is the Record step, a webhook event the Insert step.
- Lists and pages of events and sources, health fields and views: settled by reading one query.
- Reference checks of connections and inboxes: other stores. Sources that map completions are set by a step of their own.
- Watch states (health, next reconcile, active task): the inboxes whose periodic scan is due are an input of a tick.
- Ticks that a database error ends early: a drained hint can be dropped there.
- AutomationEvents.AutomationEventStore.Insert: what a webhook checks first (its signature, source and nonce) is not modelled.
- AutomationSources.AutomationSourceStore.Insert: reference checks and whether a connection is already mapped are not modelled.
- AutomationSources.AutomationSourceStore.Replace: the same checks and the overflow of the version are not modelled.
- FileRevisions.RevisionService.PutPolicy: does not model the watch state and its next reconcile instant.
- WatchTick.DiscoveryCoordinator.Tick: no hint arrives within this method (WatchRuns has them arrive anywhere); watch states are not modelled.
- AutomationRuns.EveryRunIsOk: in runs each claim round draws its own token, where the store's method uses one token for all rounds.
- ScanConsumer.Consume: a sink is the number of writes that succeed before one fails, since the loop stops at the first failure.
- WatchHints.WatchCoalescer.DrainReady: gives the released paths as a map, not in the order of inbox and path.
- CatalogStores.CatalogStore.GetDetail: metadata and related tasks are sets; their order in the answer is not modelled.
- CatalogStores.CatalogStore.Apply: instants outside the calendar's range, which are refused, are not modelled.
- CatalogPages.WalkReturnsTheSnapshot: cursors are records; their encoding and checksum are not modelled.
- CapabilityClaims.CapabilityStore.TakeClaim: a call stands for its canonical fingerprint; sorting the keys of its input is not modelled.
- FileRevisions.RevisionService.MarkMissing: a scan that marks many files missing is that many steps.
- Identifier, time and JSON formats, HTTP routes, authentication, audit records and configuration: plumbing.
- Cryptography, file descriptors, feed parsing and clients of other systems: external.
- Enum names, error classification, artwork files and library names: only easy members.
