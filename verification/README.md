# Sync store, deployment lifecycle and instance initialization: a verified model

This project models the three stateful machines of the runtime and proves what they keep over every run.

**The sync store.** `StoreTables` holds the tables as typed maps and sets together with their joint invariant: the
cursor-numbered change log, retained and collected revision rows, content-addressed objects, heads, marker frontiers,
the collection queue and the device registry. Each transaction is given twice: as a function on the tables, about which
the laws are proved, and as the loops and early exits the server runs, proved equal to that function.

| modules | part of the store |
|---|---|
| `Uint64`, `Vectors`, `Ordering` | eight-byte codec, strict vector dominance, ordered query answers |
| `Collection`, `CollectionProofs`, `CollectionCode` | retention: the specification, its safety, and the code |
| `CollectionEffects`, `CollectionProgress`, `ScanFairness` | what a visit takes, and that aged history goes within a bounded number of passes |
| `Admission`, `AdmissionRules`, `BatchAdmission` | which mutations are admitted and what an accepted batch stores |
| `Sync`, `SyncEffects` | the whole sync transaction, what it writes and which requests succeed |
| `SnapshotPlan`, `Snapshots`, `SnapshotCode`, `SnapshotCreation`, `SnapshotReads` | paging, metadata accounting, leases, creation, and reading to the end |
| `Receipts`, `ReceiptEffects`, `Registry`, `Uptime` | receipts, enrollment, revocation and envelope, the uptime clock |
| `StoreRuns`, `StoreDelivery`, `StoreClass`, `StoreSessions` | safety and delivery over all runs, the running store with its in-memory half, sequences of requests |

**The deployment lifecycle.** `Deployment` gives apply, rollback and uninstall as programs of primitive actions over a
host (state file, journal, staged releases, service definition, running service). Every action can fail or be
interrupted before, within or after its effect. `DeploymentProofs` and `DeploymentRuns` prove what every disk state
satisfies; `DeploymentCode` holds the phase-guarded methods and proves that they run exactly those programs;
`DeploymentSteps` and `DeploymentCommands` say what the operations and the commands do; `Preview`, `PreviewLines` and
`PreviewCalls` compare the previewed actions with the run; `DeploymentExamples` holds histories from a fresh host in
which a property fails; `Locks` is the lock and lease protocol.

**Instance initialization.** `Instance` is the crash-resumable initializer.

## How the pieces fit

* The joint invariant (`Sync.RunInv`) and the order in which nothing is undone (`StoreTables.Evolves`) hold over every
  sequence of committed transactions from the empty database: `StoreRuns.RunsAreSafe` and `StoreRuns.RunsOnlyEvolve`.
  They contain, among others: one origin for every cursor and a change row for every cursor above the floor; stored
  objects are exactly those of retained or pinned revisions; heads are pairwise undominated; collected rows lie at or
  below their record's frontier, heads at or above it; a frontier only moves strictly up; at most eight snapshots, one
  per device, within 64 MiB of metadata.
* Beside safety each operation has its effect, stated on tables and arguments without the function that specifies it:
  a visit of the collector (`CollectionEffects.VisitReplaces`, `VisitPrunes`, `VisitLeaves`), an admission
  (`AdmissionRules.AdmittedIff`), a sync (`SyncEffects.SyncStores`, `SyncSucceeds`), a reading
  (`SnapshotReads.ReaderSeesTheCut`), a stored receipt (`ReceiptEffects.StoringPrunesExactly`) and every command
  (`DeploymentCommands`). Collection also makes progress: `CollectionProgress.AgedHistoryGoes`.
* A content hash is modelled as carrying its revision, which is SHA-256 taken to be injective. Identifiers are numbers
  in the order of their text form.
* Accumulated uptime enters each store transaction as a value between the stored one and the largest 64-bit value;
  `Uptime` proves which values it takes under every interleaving.

### Where the code does not meet a property outright

* `DeploymentRuns.FinishedIff`: a compensation that is itself interrupted stops the service and removes its definition
  without recording that it did, so a later resume from a late phase commits without bringing them back. A completed
  deployment leaves its definition in place and its service running if and only if, when it was resumed, the definition
  was still to install or in place, and the health check was still to pass or the service running; `ResumesClean` also has
  the matching conditions on files and for uninstall.
  `DefinitionAfterResume` and `RunningAfterResume` are the two halves; `DeploymentExamples.LostDefinitionIsCommitted` and
  `DeploymentExamples.StoppedServiceIsCommitted` are histories from a fresh host, one for each. Without an interrupted
  compensation the property holds outright: `CrashesDoNotMatter`.
* `PreviewCalls.PreviewedCallsIff`: activation looks at the service first, so a service found running is left alone or
  stopped first, and the manager calls differ from the previewed ones; they agree exactly when activation is no longer
  pending, nothing runs at that point, or stopping the prior service is still ahead. In
  `DeploymentExamples.PreviewMissesCalls` an apply is interrupted after activating and before recording it, then resumed.
* `Vectors.SameEntriesIsNotEquality`: the entry-wise comparison of vectors is equality only for positive counters,
  which vector validation guarantees.

## Model

| member | source | states |
|---|---|---|
| `Uint64.Uint64RoundTrip` | runtime/internal/store/store.go:678-689 | decoding an encoded 64-bit value gives it back |
| `Uint64.Uint64BlobOrder` | runtime/internal/store/store.go:678-682 | byte order of encoded values is numeric order |
| `Vectors.VectorDominates` | runtime/internal/store/models.go:690-710 | the two loops decide strict dominance: nowhere below, somewhere above |
| `Vectors.DominatesIsStrictOrder` | runtime/internal/store/models.go:690-710 | dominance is irreflexive, asymmetric and transitive |
| `Vectors.VectorsEqual` | runtime/internal/store/sync.go:709-719 | the loop decides that both vectors have the same size and entries |
| `Vectors.SameEntriesIsEquality` | runtime/internal/store/sync.go:709-719 | for positive counters that is equality |
| `Vectors.SameEntriesIsNotEquality` | runtime/internal/store/sync.go:709-719 | with zero counters it is not |
| `Ordering.ListingIsOrdered` | runtime/internal/store/collection.go:364-399 | an ordered query answers with every row once, in key order |
| `StoreTables.NoResurrection` | runtime/internal/store/sync.go:617-707 | a revision admitted after another of its record was collected strictly dominates it |
| `Collection.PlanSelectsRows` | runtime/internal/store/collection.go:246-284 | what a pass selects for a record is stored |
| `CollectionProofs.WitnessIsSoleHead` | runtime/internal/store/collection.go:680-706 | an advancing witness is its record's only head |
| `CollectionProofs.WitnessDominatesRetained` | runtime/internal/store/collection.go:680-706 | the witness strictly dominates every other retained revision of its record |
| `CollectionProofs.AdvanceKeepsInv` | runtime/internal/store/collection.go:755-808 | writing a marker keeps the joint invariant and moves the frontier strictly up |
| `CollectionProofs.CollectOneKeepsInv` | runtime/internal/store/collection.go:285-311 | collecting one covered revision keeps it: log, objects, heads, coverage, queue |
| `CollectionProofs.CollectAllExact` | runtime/internal/store/collection.go:285-311 | exactly the selected revisions lose their bytes, change rows, heads and queue entries |
| `CollectionProofs.CollectEligibleSafe` | runtime/internal/store/collection.go:197-329 | a pass keeps the invariant and undoes nothing; what it takes is 90 days old, every active device has acknowledged its record's barrier, and no live head goes |
| `CollectionProofs.TombstoneHeadsGoUnderEqualFrontier` | runtime/internal/store/collection.go:254-317 | a head goes only as a tombstone whose vector equals the frontier, and its record is left without heads |
| `CollectionCode.LoadActiveAcknowledgements` | runtime/internal/store/collection.go:331-362 | collects exactly the acknowledgements of unrevoked devices |
| `CollectionCode.AllAcknowledged` | runtime/internal/store/collection.go:746-753 | decides that every acknowledgement reached the barrier |
| `CollectionCode.SelectAdvancingWitness` | runtime/internal/store/collection.go:680-706 | finds the witness if and only if there is one |
| `CollectionCode.SelectWitnessCovered` | runtime/internal/store/collection.go:708-725 | keeps, in order, exactly the candidates the witness covers |
| `CollectionCode.SelectMarkerCovered` | runtime/internal/store/collection.go:727-744 | keeps, in order, exactly the candidates the marker covers |
| `CollectionCode.LoadCandidates` | runtime/internal/store/collection.go:411-445 | the encoded cutoff comparison selects the oldest candidates of at least ninety days, at most 256 |
| `CollectionCode.CollectRecordTx` | runtime/internal/store/collection.go:246-317 | the code for one record equals skip, prune, or advance and prune |
| `CollectionCode.LoadRecordBatch` | runtime/internal/store/collection.go:364-399 | the next 32 queued records after the scan position |
| `CollectionCode.CollectEligibleTx` | runtime/internal/store/collection.go:197-329 | the whole pass, with its wrap to the start, equals its specification |
| `CollectionEffects.VisitReplaces` | runtime/internal/store/collection.go:254-317 | a seen record whose only head is authenticated, above any frontier and has aged history: the marker of that head is written, the oldest 256 aged revisions go, all but a live head, and the record leaves the queue exactly when nothing is left |
| `CollectionEffects.VisitPrunes` | runtime/internal/store/collection.go:254-317 | without such a head, exactly those of the oldest 256 aged revisions that the marker covers go; if there is none, nothing changes |
| `CollectionEffects.VisitLeaves` | runtime/internal/store/collection.go:246-253 | a record that some active device has not seen is left alone |
| `ScanFairness.ScanIsSlice` | runtime/internal/store/collection.go:224-246 | one call scans the next slice of the ordered queue, wrapping once |
| `ScanFairness.ScanIsFair` | runtime/internal/store/collection.go:224-246 | from a queue of n records, ceil(n / 32) + 1 consecutive calls visit every record that stays queued, whatever leaves the queue |
| `CollectionProgress.RoundServes` | runtime/internal/store/collection.go:197-329 | one round of ceil(n / 32) + 1 passes takes an aged revision of a converged, seen record, or at least 255 older ones before it |
| `CollectionProgress.AgedHistoryGoes` | runtime/internal/store/collection.go:197-329 | aged history of a converged, seen record is gone within one round of passes, with more than 255 older ones before it within one more round for every 255 |
| `Admission.AdmitOneKeepsInv` | runtime/internal/store/sync.go:129-228 | writing an admissible mutation keeps the joint invariant and dominates the frontier |
| `Admission.AdmitAllKeepsInv` | runtime/internal/store/sync.go:129-228 | so does a whole batch |
| `AdmissionRules.AdmittedIff` | runtime/internal/store/sync.go:525-707 | a new mutation is admitted if and only if its counter is the next, its vector unused and made of used counters of registered devices, above any frontier, and at most 32 siblings are left |
| `AdmissionRules.RefusalsAreExact` | runtime/internal/store/sync.go:525-707 | each broken rule has its own error, under an exact condition |
| `AdmissionRules.KnownIsIdempotent` | runtime/internal/store/sync.go:445-523 | a known identifier is accepted again with the same content only, changing nothing |
| `AdmissionRules.AcceptedBatchIsStored` | runtime/internal/store/sync.go:129-228 | every mutation of an accepted batch is stored with its content and acceptance time, one cursor and one counter each; nothing else is added or changed |
| `AdmissionRules.AcceptedOneByOne` | runtime/internal/store/sync.go:445-523 | a batch is answered as its mutations are in turn; the first refusal is the answer |
| `BatchAdmission.CountUndominated` | runtime/internal/store/sync.go:617-707 | the pairwise loops count the maximal siblings |
| `BatchAdmission.HeadsAreContenders` | runtime/internal/store/sync.go:617-707 | heads after writing pending mutations are the maximal ones among old heads and pending |
| `BatchAdmission.RefusalWhilePending` | runtime/internal/store/sync.go:525-707 | checking against stored rows and pending mutations gives the refusal the written tables would |
| `BatchAdmission.ValidateNext` | runtime/internal/store/sync.go:445-523 | duplicate, refusal or new mutation, as one-at-a-time admission decides |
| `BatchAdmission.ValidateMutations` | runtime/internal/store/sync.go:445-523 | validating a batch before writing gives the result of admitting one by one |
| `BatchAdmission.ClassifyFrontier` | runtime/internal/store/sync.go:301-344 | which heads a new revision supersedes, and whether it becomes one |
| `BatchAdmission.WriteAll` | runtime/internal/store/sync.go:129-228 | writing all new mutations, counter last, equals admitting them in order |
| `BatchAdmission.AdmitBatch` | runtime/internal/store/sync.go:118-228 | the batch refines one-at-a-time admission, refused whole when cursors run out |
| `Sync.ChangesAreDeliverable` | runtime/internal/store/sync.go:785-838 | every change above the floor can be delivered with the content its author wrote |
| `Sync.LogIsContiguous` | runtime/internal/store/sync.go:721-741 | above the floor the ordered query answers with consecutive cursors |
| `Sync.LoadChanges` | runtime/internal/store/sync.go:721-839 | delivers the next changes, at most 128, and tells exactly whether more remain |
| `Sync.TrimToBody` | runtime/internal/store/sync.go:255-284 | trims to the longest prefix that fits, still complete up to its next cursor |
| `Sync.TrimmedIsLongest` | runtime/internal/store/sync.go:255-284 | what trimming leaves is the longest complete delta that fits, and it gives up only when none does |
| `Sync.DeltasJoin` | runtime/internal/store/sync.go:721-839 | repeating from the next cursor delivers every change once, in order |
| `Sync.AdvancedKeepsInv` | runtime/internal/store/sync.go:67-254 | the writes of a sync keep the invariant and undo nothing |
| `Sync.SyncKeepsInv` | runtime/internal/store/sync.go:27-299 | a successful sync keeps it and delivers exactly the cursors after the client's own |
| `Sync.SyncTransaction` | runtime/internal/store/sync.go:67-290 | the specified error, or the specified store with the longest delta that fits; an internal error after the writes only if no delta fits |
| `SyncEffects.SyncStores` | runtime/internal/store/sync.go:129-290 | after a successful sync the caller has the acknowledgement it sent, the larger returned cursor and a counter per new upload, other devices are as they were, and every upload is stored |
| `SyncEffects.CursorRefusals` | runtime/internal/store/sync.go:67-117 | the exact conditions under which a malformed request or its cursors are refused |
| `SyncEffects.CollectionLeavesUnseen` | runtime/internal/store/collection.go:246-311 | a pass raises the floor at most to what an active device has acknowledged |
| `SyncEffects.SyncSucceeds` | runtime/internal/store/sync.go:67-290 | an active device with cursors in order, at or past its acknowledgement, and admitted uploads is answered; its own collection never expires it |
| `SyncEffects.DeltaIsFull` | runtime/internal/store/sync.go:721-839 | consecutive changes after the cursor, at most 128, exactly 128 or all if bodies are small, more exactly when more remain |
| `SnapshotPlan.GreedyIsLossless` | runtime/internal/store/snapshot.go:649-779 | greedy paging loses, repeats and reorders nothing |
| `SnapshotPlan.GreedyIsTight` | runtime/internal/store/snapshot.go:686-707 | no page could have taken the item the next page starts with |
| `SnapshotPlan.PlanIsLossless` | runtime/internal/store/snapshot.go:610-827 | the pages list all heads, then all markers, then all devices |
| `SnapshotPlan.ServedWithinLimitsIff` | runtime/internal/store/snapshot.go:745-779 | whatever the sizes, every page of an accepted plan is within 4 MiB if and only if every marker alone is |
| `SnapshotPlan.AcceptedIsServable` | runtime/internal/store/snapshot.go:725-779 | with frontiers of at most 64 entries, every page of an accepted plan is single-phase, within its item limits and served in at most 4 MiB |
| `SnapshotPlan.PlannerMeasuresServed` | runtime/internal/store/snapshot.go:852-866 | what the planner measures is the served body with a next link, and at most 128 items |
| `SnapshotPlan.AddRecordShows` | runtime/internal/store/snapshot.go:874-902 | accounting never wraps: it shows the exact sum or has latched an overflow |
| `SnapshotPlan.MetadataBytes` | runtime/internal/store/snapshot.go:912-943 | the account of a plan is its exact footprint |
| `SnapshotPlan.RunningTotalIsLower` | runtime/internal/store/snapshot.go:614-630 | the running total never exceeds the final one, whatever the response and tokens |
| `SnapshotPlan.PlanRevisions` | runtime/internal/store/snapshot.go:649-723 | the head phase builds the greedy pages or tells exactly why not |
| `SnapshotPlan.PlanMarkers` | runtime/internal/store/snapshot.go:725-779 | the marker phase likewise |
| `SnapshotPlan.BuildPlan` | runtime/internal/store/snapshot.go:610-850 | a plan is built exactly when accepted; early rejection implies final rejection |
| `SnapshotPlan.WalkVisitsEveryPage` | runtime/internal/store/snapshot.go:828-849 | following tokens from the first page reads every page once, then stops |
| `Snapshots.DropKeepsInv` | runtime/internal/store/snapshot.go:569-608 | dropping snapshots releases exactly the objects nobody needs any more |
| `Snapshots.CreateKeepsInv` | runtime/internal/store/snapshot.go:245-297 | creation pins objects without dangling or leaking |
| `Snapshots.CreateKeepsSnapshots` | runtime/internal/store/snapshot.go:184-249 | at most 8 snapshots, one per device, within the metadata budget |
| `Snapshots.CreatedHoldsCut` | runtime/internal/store/snapshot.go:229-277 | reading a new snapshot to its end gives heads, markers and devices of the cut |
| `SnapshotCode.DeleteSnapshot` | runtime/internal/store/snapshot.go:569-608 | deleting and offering each reference equals dropping the snapshot |
| `SnapshotCode.PruneExpired` | runtime/internal/store/snapshot.go:522-567 | exactly the snapshots without a running lease go |
| `SnapshotCode.CreateSnapshot` | runtime/internal/store/snapshot.go:104-297 | replay, refusal or creation, with the exact condition for each; which error, whenever the plan is feasible |
| `SnapshotCode.PlanAndStore` | runtime/internal/store/snapshot.go:201-297 | plans, accounts and stores exactly when creation is allowed |
| `SnapshotCode.PlanCut` | runtime/internal/store/snapshot.go:201-229 | the plan of the cut exactly when it is accepted; over budget or infeasible otherwise |
| `SnapshotCreation.CreatedIff` | runtime/internal/store/snapshot.go:184-249 | created if and only if fewer than 8 are leased, none by the caller, the envelope is set, every head fits a page, 64 MiB suffice and the identifiers are free |
| `SnapshotCreation.CreatedAnswersItsRequest` | runtime/internal/store/snapshot.go:245-297 | the new snapshot belongs to its request and body, is its owner's only one, and lets the owner acknowledge up to the cut |
| `SnapshotCode.ReadPage` | runtime/internal/store/snapshot.go:313-443 | the page answer is exactly the one the snapshot, its owner and its lease determine, with every error case |
| `SnapshotReads.CutListsAll` | runtime/internal/store/snapshot.go:649-827 | the listings of a cut hold every head, marker and device counter once |
| `SnapshotReads.ReaderSeesTheCut` | runtime/internal/store/snapshot.go:313-443 | in every reachable state, following the token each answer names reads one answer per page and then stops; together they are the heads with their contents, markers and devices of the creating state |
| `Receipts.LookupReceipt` | runtime/internal/store/dataplane.go:340-369 | a known key replays its response or is refused as reused |
| `Receipts.BoundaryIsExact` | runtime/internal/store/dataplane.go:638-651 | below the protected boundary lie exactly the receipts with 10,000 newer ones |
| `Receipts.PruneReceipts` | runtime/internal/store/dataplane.go:629-685 | the code removes exactly the oldest 256 prunable receipts from both tables |
| `Receipts.PruneKeepsInv` | runtime/internal/store/dataplane.go:629-685 | tables stay in bijection; what goes is 30 days old and has 10,000 newer of its class |
| `Receipts.StoreReceipt` | runtime/internal/store/dataplane.go:599-627 | a new receipt gets the next sequence number and is kept |
| `Receipts.WithReceiptKeeps` | runtime/internal/store/dataplane.go:599-685 | storing a receipt keeps every older one, except those 30 days older with 10,000 newer of their device and class |
| `Receipts.ReceiptsOutlast` | runtime/internal/store/dataplane.go:599-685 | over every run a receipt stays while it is under 30 days old or fewer than 10,000 of its class are newer |
| `Receipts.StoredRequestReplays` | runtime/internal/store/dataplane.go:340-369 | over every such run a repeated request gets its stored response, and a different request under its identifier is refused |
| `ReceiptEffects.StoringPrunesExactly` | runtime/internal/store/dataplane.go:599-685 | storing a receipt removes an older one if and only if it is of the same device and class, 30 days older, has 10,000 later ones, and is among the first 256 such |
| `Receipts.SequencesOnlyGrow` | runtime/internal/store/dataplane.go:599-685 | over every run, a new sequence number exceeds all earlier ones, pruned or not |
| `Registry.EnrollKeepsInv` | runtime/internal/store/enrollment.go:98-166 | enrollment takes one cursor, at most 64 devices; the newcomer is active and has acknowledged nothing; nobody else changes |
| `Registry.EnrollIff` | runtime/internal/store/enrollment.go:98-166 | enrolled if and only if new, with a free token, fewer than 64 devices and a cursor left; each refusal has its reason |
| `Registry.RevokeKeepsInv` | runtime/internal/store/devices.go:202-305 | revocation is final, takes one cursor, and zero active devices need confirmation |
| `Registry.RevokeIff` | runtime/internal/store/devices.go:202-305 | one of several active devices needs no confirmation, the last one does, a revoked one changes nothing |
| `Registry.PutEnvelopeKeepsInv` | runtime/internal/store/envelope.go:89-146 | the compare-and-set advances the generation by one, each generation logged once in order |
| `Registry.PutEnvelopeIff` | runtime/internal/store/envelope.go:89-146 | set if and only if the expected generation is current, the proposed one is next, and the body and a cursor are in order; a stale one is a conflict |
| `Uptime.NextKeepsInv` | runtime/internal/store/collection.go:137-195 | every step of every transaction keeps the clock conserved |
| `Uptime.UptimeIsConserved` | runtime/internal/store/collection.go:137-195 | in every interleaving uptime gained equals the checkpoint's advance in whole milliseconds |
| `Uptime.UptimeNeverDecreases` | runtime/internal/store/collection.go:163-179 | durable uptime never goes back, not even over a reboot |
| `Uptime.PublishedCountsAll` | runtime/internal/store/collection.go:182-195 | a published checkpoint leaves less than a millisecond uncounted |
| `Uptime.IdleClockCountsAll` | runtime/internal/store/collection.go:137-195 | from every reachable idle state the next checkpoint gets through and counts all whole milliseconds since boot, however many checkpoints came before |
| `StoreRuns.StepKeepsInv` | runtime/internal/store/dataplane.go:189-223 | every transaction keeps the joint invariant and undoes nothing |
| `StoreRuns.RunsAreSafe` | runtime/internal/store/dataplane.go:189-223 | the joint invariant holds in every reachable store |
| `StoreRuns.RunsOnlyEvolve` | runtime/internal/store/dataplane.go:189-223 | between any two states nothing is undone |
| `StoreRuns.RunsNeverResurrect` | runtime/internal/store/sync.go:617-707 | no stale upload brings collected state back, over whole runs |
| `StoreRuns.RunsCollectOnlyRipe` | runtime/internal/store/collection.go:217-253 | bytes that are gone had 90 days of uptime, and every active device had acknowledged a barrier at or past every revision of the record |
| `StoreRuns.SnapshotsAreRepeatable` | runtime/internal/store/snapshot.go:313-443 | a snapshot lists its cut, and its pages and revisions never change while it is there |
| `StoreRuns.FrontiersAreBounded` | runtime/internal/store/bounds.go:5-12 | in every reachable store a marker frontier has at most 64 entries, one per registered device |
| `StoreRuns.SnapshotsAreServable` | runtime/internal/store/snapshot.go:445-467 | in every reachable store every page of every snapshot is within its limits and at most 4 MiB |
| `StoreRuns.CutsAreClosed` | runtime/internal/store/snapshot.go:781-827 | a snapshot shows no counter its own device list does not cover |
| `StoreDelivery.UploadsAreDelivered` | runtime/internal/store/sync.go:721-839 | over every run, what one device uploaded is in every later delta that spans its cursor, at its place and as written |
| `StoreClass.Store.StartBoot` | runtime/internal/store/dataplane.go:61-119 | a restart drops every snapshot, releases its objects and restarts the clock |
| `StoreClass.Store.CheckpointUptime` | runtime/internal/store/collection.go:121-195 | counts elapsed whole milliseconds, saturating, and moves the checkpoint |
| `StoreClass.Store.SyncRequest` | runtime/internal/store/sync.go:27-299 | replay or the exact error without any change, or one committed step that writes what a sync writes and its receipt and drops exactly the snapshots without a running lease |
| `StoreClass.CommitSync` | runtime/internal/store/sync.go:226-298 | the specified answer; the committed step writes what a sync writes, keeps exactly the snapshots with a running lease and adds the receipt |
| `StoreClass.Store.CreateSnapshotRequest` | runtime/internal/store/snapshot.go:104-311 | replay, the exact refusal without database change, or one step and a started lease; running leases stay |
| `StoreClass.CommitCreate` | runtime/internal/store/snapshot.go:184-311 | a creation that is no replay: the exact refusal, or the step that drops expired snapshots and stores this one |
| `StoreClass.Store.SnapshotPageRequest` | runtime/internal/store/snapshot.go:313-443 | not found, expired, unknown token or the page, each under its exact condition on owner, deadline and token |
| `StoreClass.Store.EnrollRequest` | runtime/internal/store/enrollment.go:79-171 | one enrollment step, or the exact refusal with nothing changed |
| `StoreClass.Store.PutEnvelopeRequest` | runtime/internal/store/envelope.go:64-151 | replay, the exact refusal, or one step with its receipt and counted uptime; leases and snapshots stay |
| `StoreClass.Store.RevokeRequest` | runtime/internal/store/devices.go:154-310 | replay, the exact refusal also for a request reused across targets, or one step with its receipt and counted uptime |
| `StoreSessions.Handle` | runtime/internal/store/snapshot.go:522-567 | no request of any kind touches a running lease or its snapshot |
| `StoreSessions.HandleAll` | runtime/internal/store/snapshot.go:313-443 | over any sequence of requests a snapshot with a running lease survives, and every page request for it is answered as before |
| `StoreSessions.ReadAll` | runtime/internal/store/snapshot.go:313-443 | a client loop under a running lease gets one answer per page, the body of each page in order |
| `DeploymentProofs.WorkSound` | runtime/internal/deployment/lifecycle.go:1193-1335 | the work of a phase prepares the record of that phase, however it ends |
| `DeploymentProofs.FromSound` | runtime/internal/deployment/lifecycle.go:1193-1335 | from any recorded phase the disk stays in order through any failure or interruption |
| `DeploymentProofs.ProgramSound` | runtime/internal/deployment/lifecycle.go:379-437 | the same for a resumed journal of any operation |
| `DeploymentProofs.CompensationSound` | runtime/internal/deployment/lifecycle.go:1523-1630 | compensation keeps the disk in order and, once the journal is gone, has the prior state back |
| `DeploymentProofs.CompensationRestoresService` | runtime/internal/deployment/lifecycle.go:1523-1630 | a completed compensation of an active prior state leaves the prior release defined and running; of none, nothing |
| `DeploymentProofs.InvokeSound` | runtime/internal/deployment/lifecycle.go:1011-1063 | an invocation ends with the same journal, the prior state or the committed one; success means committed |
| `DeploymentRuns.CrashesDoNotMatter` | runtime/internal/deployment/lifecycle.go:379-608 | any number of interruptions and uncompensated failures, each resumed, ends in the committed state, definition and service |
| `DeploymentRuns.UninterruptedSame` | runtime/internal/deployment/lifecycle.go:1193-1335 | that is what an uninterrupted run leaves: state, journal, staged releases, readiness and, with a service manager, the whole host |
| `DeploymentRuns.DefinitionAfterResume` | runtime/internal/deployment/lifecycle.go:1270-1310 | a finished deployment has its definition if and only if it was still to install or in place at resume |
| `DeploymentRuns.RunningAfterResume` | runtime/internal/deployment/lifecycle.go:1270-1310 | its service runs if and only if the health check was still to pass or the service running at resume |
| `DeploymentRuns.FinishedIff` | runtime/internal/deployment/lifecycle.go:1193-1335 | a resumed transaction of any operation ends fully finished if and only if it resumes clean |
| `DeploymentExamples.LostDefinitionIsCommitted` | runtime/internal/deployment/lifecycle.go:1595-1630 | a history from a fresh host that commits an active release whose definition is gone |
| `DeploymentExamples.StoppedServiceIsCommitted` | runtime/internal/deployment/manager.go:331-346 | a history from a fresh host that commits an active release, its definition in place, whose service does not run |
| `DeploymentRuns.RollbackTargetIsKept` | runtime/internal/deployment/lifecycle.go:408-427 | active and previous release stay staged until uninstall records removal |
| `DeploymentRuns.CommandKeepsInv` | runtime/internal/deployment/lifecycle.go:213-377 | every command, however it ends, keeps the disk in order and moves the generation by at most one |
| `DeploymentRuns.HistoriesAreSafe` | runtime/internal/deployment/lifecycle.go:745-1064 | in every reachable disk state the saved state is the one the journal's phase says |
| `DeploymentRuns.GenerationsStepByOne` | runtime/internal/deployment/lifecycle.go:1474-1502 | at journal-free points the generation never decreases and each change is exactly one |
| `DeploymentRuns.CommittedGeneration` | runtime/internal/deployment/lifecycle.go:1474-1502 | a committed state that can be saved has the next generation; a wrapped one cannot be saved |
| `DeploymentRuns.RollbackUndoesApply` | runtime/internal/deployment/lifecycle.go:580-597 | a rollback after an apply, however both ran, makes the replaced release active again, two generations on |
| `DeploymentSteps.ApplySteps` | runtime/internal/deployment/lifecycle.go:1193-1335 | the actions of an apply with a service manager, in order |
| `DeploymentSteps.RollbackSteps` | runtime/internal/deployment/lifecycle.go:495-578 | those of a rollback |
| `DeploymentSteps.UninstallSteps` | runtime/internal/deployment/lifecycle.go:379-437 | those of an uninstall, the point of no return recorded before removal |
| `DeploymentSteps.AllWellFinishes` | runtime/internal/deployment/lifecycle.go:1193-1335 | a transaction resumed on a host that matches its phases finishes when nothing goes wrong |
| `DeploymentSteps.FailureIsUndone` | runtime/internal/deployment/lifecycle.go:1523-1630 | a failure before the point of no return, compensated without trouble, leaves no journal, the prior state and the prior service |
| `DeploymentSteps.FailureIsLeft` | runtime/internal/deployment/lifecycle.go:234-245 | past it, a failure is left to be resumed |
| `DeploymentCommands.ApplyStartsIff` | runtime/internal/deployment/lifecycle.go:1011-1063 | without a journal: refused if it would lose the service, restaging if already active, otherwise a transaction to the release |
| `DeploymentCommands.RollbackStartsIff` | runtime/internal/deployment/lifecycle.go:249-281 | starts if and only if there is a staged previous release of the same storage schema and a manager for an active service; otherwise nothing changes |
| `DeploymentCommands.UninstallStartsIff` | runtime/internal/deployment/lifecycle.go:297-377 | a transaction on a deployed host, a first record on a fresh one, nothing on an uninstalled one |
| `DeploymentCommands.ResumesIff` | runtime/internal/deployment/lifecycle.go:963-1010 | a command that asks for what the journal is about resumes it; every other one leaves the host alone |
| `DeploymentCommands.HistoriesKeepSchema` | runtime/internal/deployment/lifecycle.go:256-258 | in every reachable disk state a rollback in flight keeps the storage schema |
| `DeploymentCommands.RollbacksKeepSchema` | runtime/internal/deployment/lifecycle.go:249-295 | over every history a rollback that took effect swapped active and previous release, with the same schema |
| `DeploymentCommands.ApplyInstalls` | runtime/internal/deployment/lifecycle.go:1193-1335 | without trouble an apply leaves the release active, staged, defined and running, one generation on, the replaced one kept |
| `DeploymentCommands.RollbackReturns` | runtime/internal/deployment/lifecycle.go:495-578 | without trouble a permitted rollback brings the previous release back and keeps the replaced one |
| `DeploymentCommands.UninstallRemoves` | runtime/internal/deployment/lifecycle.go:379-437 | without trouble an uninstall removes artifacts and service and remembers the last release |
| `DeploymentCode.PhaseReached` | runtime/internal/deployment/lifecycle.go:1725-1747 | the rank loop decides whether a phase is at or past another |
| `DeploymentCode.Lifecycle.Perform` | runtime/internal/deployment/lifecycle.go:1632-1638 | one action and its answer; memory records a phase before the disk does |
| `DeploymentCode.Lifecycle.RunApply` | runtime/internal/deployment/lifecycle.go:1193-1335 | the phase-guarded code runs exactly the rest of the apply program |
| `DeploymentCode.Lifecycle.RunRollback` | runtime/internal/deployment/lifecycle.go:495-578 | likewise for rollback |
| `DeploymentCode.Lifecycle.RunUninstall` | runtime/internal/deployment/lifecycle.go:379-437 | likewise for uninstall |
| `DeploymentCode.Lifecycle.RestoreAfterFailedApply` | runtime/internal/deployment/lifecycle.go:1523-1630 | runs exactly the compensation of a failed apply |
| `DeploymentCode.Lifecycle.RestoreAfterFailedSwitch` | runtime/internal/deployment/lifecycle.go:610-642 | runs exactly the compensation of a failed rollback |
| `DeploymentCode.Lifecycle.RestoreAfterFailedUninstall` | runtime/internal/deployment/lifecycle.go:466-493 | runs exactly the compensation of a failed uninstall |
| `DeploymentCode.Lifecycle.ResumeTransaction` | runtime/internal/deployment/lifecycle.go:234-245 | one invocation: the disk in order, the state prior or committed, committed on success |
| `Preview.PreviewApplyActions` | runtime/internal/deployment/preview.go:610-683 | the listed actions and checkpoints are, in order, exactly those of the run |
| `Preview.ViewBlock` | runtime/internal/deployment/preview.go:636-680 | the lines of one block are its work and its checkpoint |
| `PreviewLines.FirstPreviewShows` | runtime/internal/deployment/preview.go:610-683 | the lines of a first apply with a service manager, one by one |
| `PreviewLines.ResumedPreviewShowsRest` | runtime/internal/deployment/preview.go:617-683 | a resumed apply shows where it resumes and then exactly the lines after the record of that phase |
| `PreviewLines.RebindShownIff` | runtime/internal/deployment/preview.go:617-631 | other sources are shown as rebound exactly while only the plan is recorded |
| `PreviewCalls.PreviewedCallsIff` | runtime/internal/deployment/lifecycle.go:1422-1447 | the publish, stop, install, activate and commit calls made are those the returned lines announce, under an exact condition |
| `PreviewCalls.PreviewWithCalls` | runtime/internal/deployment/preview.go:610-683 | the same of the lines the preview code returns, for every host and environment |
| `DeploymentExamples.ActivationBegins` | runtime/internal/deployment/lifecycle.go:1291-1298 | a history from a fresh host that leaves the service activated and unrecorded |
| `DeploymentExamples.PreviewMissesCalls` | runtime/internal/deployment/lifecycle.go:1422-1447 | resumed from there, the calls made are not the ones any preview of that journal announces |
| `PreviewCalls.RunningAtActivation` | runtime/internal/deployment/lifecycle.go:1394-1420 | what the activation finds running |
| `Locks.NextKeepsInv` | runtime/internal/deployment/lock_unix.go:23-155 | every step of mutators, previews and leases keeps the protocol invariant |
| `Locks.ProtocolIsSafe` | runtime/internal/deployment/preview.go:244-285 | no returned preview mixes moments; a held lease is current, its holder is the leased release, and nothing mutates beside it |
| `Locks.PreviewReturnsThePresent` | runtime/internal/deployment/preview.go:252-268 | a preview is the disk at the moment it returns, lock file or not |
| `Locks.LockFileStays` | runtime/internal/deployment/lock_unix.go:51-78 | the lock file never disappears |
| `Locks.LeaseGrantedIff` | runtime/internal/deployment/endpoint_unix.go:80-118 | a lease is granted if and only if there is no journal and the saved generation and active release are those bound and served |
| `Locks.MutatorStartsIff` | runtime/internal/deployment/lock_unix.go:51-155 | a mutator starts if and only if nobody holds the lock file, and otherwise holds nothing |
| `Locks.PreviewStartsIff` | runtime/internal/deployment/preview.go:244-268 | a preview is turned away if and only if a mutator holds the lock file |
| `Locks.PreviewReturnsIff` | runtime/internal/deployment/preview.go:252-268 | a preview returns if and only if it read under the lock or there still is no lock file; otherwise it starts over or is turned away |
| `Locks.LeaseSharesIff` | runtime/internal/deployment/lock_unix.go:88-98 | a lease is checked only under the shared lock, which an unlocked lock file gives |
| `Locks.NextMutatorGetsThrough` | runtime/internal/deployment/lock_unix.go:23-155 | in every interleaving, once all processes have ended nothing is held and the next mutator gets through |
| `Instance.State.Initialize` | runtime/internal/instance/instance.go:119-234 | one attempt resumes what is missing and replaces nothing; refused as partial exactly on disks no attempt leaves; completes if nothing stops it |
| `Instance.State.InitializeRepeatedly` | runtime/internal/instance/instance.go:119-234 | over any sequence of stopped attempts identifiers and secret never change and completions agree |
| `Instance.State.OpenDatabase` | runtime/internal/instance/instance.go:216-228 | a database is bound once, to the configured identity |
| `Instance.State.Open` | runtime/internal/instance/instance.go:243-286 | only a completed instance opens, with secret and bound database |

## Left out

- Authentication, scopes, enrollment grants, token rotation, self-revocation receipts and rate limits: a request is taken to come from a registered device; they keep no invariant of the tables modelled here.
- SQL text, `octet_length` and `typeof` sanity checks, and error answers for rows that the joint invariant excludes.
- JSON encoding: bodies enter as sizes and as opaque encodings; the descriptor frame and the accounting tags have the source's lengths.
- Random identifiers and tokens: they enter as values; collisions are refused as the unique indexes refuse them.
- Failed commits of a store transaction: they leave the database as it was and appear only in `Uptime`.
- StoreClass.Store.SyncRequest: before the first boot it answers with the internal error ahead of the cursor and mutation checks, which the server makes first; nothing changes either way.
- BatchAdmission.RefusalWhilePending: reports an unregistered vector entry before an unused counter, where the server iterates over a map in no fixed order.
- Receipts.StoreReceipt: sequence numbers are unbounded, so the random reuse that SQLite falls back to at 2^63 - 1 is not modelled.
- SnapshotCode.CreateSnapshot: when a plan is both infeasible and over budget, the contract does not say which of the two errors is answered; it depends on which item the server reads first. The same holds for SnapshotCode.PlanCut and StoreClass.Store.CreateSnapshotRequest.
- validateSyncResponse, validateVector, the stored-response validators and CreateDevice: single checks without a state to keep.
- Preview's classification and its preparation lines before the journal line: a case split with no further invariant; the decision apply takes is modelled in `DeploymentRuns`.
- Artifact hashing, ownership and mode checks, fsync and crashes inside one metadata write: staging, saving and removing are single actions that happen, fail or are interrupted; removal of artifacts can be interrupted part-way.
- A lost initialization lease ends an apply without compensation, which is the same as an interruption here.
- Service-manager commands, identity probes and health polling: environment answers; the modelled service runs what its definition names.
- HTTP transport, listeners, the admin socket, command-line handling, release bundles, installer templates and the Python policy scripts.
