# Verified model of the ingestion and product pipeline

This project models the parts of the cross-border e-commerce backend whose correctness spans several
functions or several processes, and proves what the code promises about them, in Dafny. Database tables
are maps, one SQL statement is one atomic step, and the body of a `WithinTx` is all or nothing. Clocks,
random draws, cancellations, lost answers, crashes and the order in which workers step are inputs, so
every result holds for all of them.

`dafny verify dfyconfig.toml` checks everything.

## What is modelled

**Change detection** (`Transition`, `Batch`, `ProductStore`, `BatchDecider`, `ProductTables`). One
record against a snapshot is NEW, CHANGED, UNCHANGED, STALE or VERSION_MISMATCH. `DecideBatch` groups a
page by identity, sorts each group, folds it and emits one netted plan; `ApplyBatch` writes the plan
behind its version guards. The loops and the table writes are imperative and refine the functions.
`PageRefinement` proves the claim in the code's own comment: applying the decided page leaves exactly
what deciding and applying every record alone, in grouped processing order, would have left - rows,
versions, changes, events, watermarks, counters and the identifiers drawn. `VersionChain` and
`ConcurrentPages` prove that workers which read snapshots and commit plans in any interleaving keep each
product's versions one chain 1..n. `StaleCommit` and `StalePages` say what a page decided from old snapshots
makes of the rows it meets, and when two workers at once end where no order of their pages ends. `ChangeRecords`
and `RealChanges` say what the rows of a version tell: which record it carries, which fields changed since the
version before it, and that a version stands for a change of content. `Convergence`, `Conservation` and `Replay` say when the order of arrival matters, what a page conserves, and exactly when
processing a page or a run again does nothing; `Marks` carries the argument on the part of a snapshot that
does not depend on identifiers.

**Leased run processing** (`RunRow`, `RunProtocol`, `RunLoop`). Claims, leases, takeover, page commits
with cursor and counters, releases, failures, resets and crashes of any number of workers. Committed
pages are consecutive, disjoint and counted once, the product tables are what those pages and the pages
other runs write in between leave, and no run is ever stuck. A run over its error budget can still end COMPLETED: when, and that it
does happen, is proved.

**Delivery** (`Outbox`, `Idempotency`, `Consumer`, `Delivery`, `Backoff`). The relay's round, the
idempotency guard, the consumer's retry loop and dead-letter replay, each as imperative code with exact
contracts, and one transition system with lease loss, lost answers, redelivery and crashes: at most one
effect per group and event, no message acknowledged without a reason, and nothing stuck: from every reachable
state what waits can still be published, handled or recovered. The retry arithmetic wraps at 64 bits.

**Regulatory data** (`Regulatory`, `RegulatoryTimeline`, `Tariff`). The dataset lifecycle, that no version goes
into force without the review it needs by a second person, and that the in-force intervals of a key partition
time and never change for the past, with any clock. The one-pass
index of most specific tariff rules agrees with a declarative maximum, whatever the candidates' order.

**Reading** (`Decimal`, `CanonicalNumber`, `Ndjson`, `Resume`, `Sync`, `SyncResume`, `SyncLoop`). Canonical
decimal text has the exact value of its numeral and is unique for it. A newline-delimited feed read in
batches of any size and resumed from its checkpoints is one pass over the file. Sync stores no checkpoint beyond
what it saved or counted as failed; what a resumed run saves a second time is characterised exactly.

**Worker pool** (`Pool`). Dispatchers, workers and Shutdown as threads over the lock, the wait group and
the channels: no accepted task is lost, and Shutdown is neither stuck nor made to wait without end.

`Prelude`, `Text`, `Sorting` and `Budget` hold shared types, string functions, the stable sort and the error
budget; `FoldInvariant`, `GroupWrite`, `GroupCommit`, `BatchRefinement`, `PlanAppend` and `PlanSplit` are
the steps of the refinement proof.

## Where the code differs from what one would expect

- Staleness compares `source_updated_at` and falls back to `received_at`, so a record without
  `source_updated_at` beside records with one can make a replayed page write a version
  (`Replay.MixedPageIsNotReplayable`, and over a run `Replay.StoredWithoutTimestampBreaksReplay`;
  `Replay.AnyRunReplayIff` gives the exact condition), and a later record that ties on
  `source_updated_at` can be stale because an older record raised `last_received_at`
  (`Convergence.PagesAgreeIff` gives the exact condition).
- A page that only raises watermarks carries no version guard, so beside a page that replaces the content it
  can leave the older content under the newer watermark, which no order of the two does
  (`StaleCommit.RaceCanDiffer`; `StaleCommit.RaceIsSerialIff` gives the exact condition for pages of one
  record, `StalePages.PagesRaceIsSerialIff` for pages of any).
- `Exponential` is the documented minimum for every positive duration except one point: attempt 62, a base
  of one nanosecond and a cap above 2^62; for a base or cap that is not positive it answers zero
  (`Backoff.ExponentialIsMinimumIff`).
- The last batch of a feed has no next checkpoint, so the stored one stays at that batch's start, and a run
  resumed from it saves that batch's rows twice (`SyncResume.ResumeCanRepeat`). A caller of the exported
  service that cancels or fails a run another is working on writes the checkpoint it read earlier, so the
  stored one can also move back (`SyncResume.EndCanLowerCheckpoint`); the run's own worker, the only caller
  in this repository, ends it after its own writes. What a resumed run saves again is exactly what the
  earlier run saved after storing the checkpoint (`SyncResume.ResumeSavesAgain`): nothing if and only if
  that is its last stored checkpoint and its last batch, if it read the feed to the end, held no record
  (`SyncResume.ResumeRepeatsNothingIff`). Nothing is lost (`Sync.SyncNeverSkips`).
- An exponent beyond 64 bits is reported as malformed, one beyond 308 as too large
  (`Decimal.NumeralsAreRead`).
- A COMPLETED run may exceed its error budget when it failed on its last page and was claimed again: some
  execution ends so exactly when the whole run's failures exceed the budget
  (`RunProtocol.OverBudgetCompletesIff`).

## Model

| member | source | states |
|---|---|---|
| Transition.FieldChanges | internal/domain/product/fingerprint.go:77-122 | the listed fields are exactly those whose canonical values differ, at most five |
| Transition.NoFieldChangesIffSameFingerprint | internal/domain/product/fingerprint.go:50-122 | a change lists no field exactly when both contents have one fingerprint |
| Transition.AttributesDiffer | internal/domain/product/fingerprint.go:77-122 | the size-then-lookup loop reports a change exactly when the attribute maps differ |
| Transition.DetectFieldChanges | internal/domain/product/fingerprint.go:77-122 | the appended names are the differing fields in alphabetical order |
| Batch.ProcessingOrderIsTotal | internal/domain/product/batch.go:151-166 | the processing order is a total preorder that puts the older record first - undated before dated, then by the source's date, then by receipt, then by raw identifier - and two records tie exactly when raw identifier and both timestamps are the same |
| BatchDecider.IdSupply.Take | internal/domain/product/batch.go:375-386 | identifiers are drawn fresh and consecutively |
| BatchDecider.IdentityFold.AddVersion | internal/domain/product/batch.go:226-300 | appends one version, change and event numbered after the current version and moves the running snapshot to it |
| BatchDecider.IdentityFold.Transit | internal/domain/product/batch.go:190-224 | one record's transition updates the running snapshot, plan and counters as the fold's step says |
| BatchDecider.IdentityFold.Apply | internal/domain/product/batch.go:190-224 | after a record, the fold and the plan are those of the records so far plus it |
| BatchDecider.IdentityFold.Emit | internal/domain/product/batch.go:302-324 | the rows emitted are the net difference of the identity's state before and after |
| BatchDecider.IdentityFold.EmitInsert | internal/domain/product/batch.go:326-352 | a first-seen identity emits one product and one source row at their final values |
| BatchDecider.IdentityFold.EmitVersionUpdate | internal/domain/product/batch.go:354-373 | a known identity with new versions emits one guarded move from its starting version and one source change |
| BatchDecider.GroupByIdentity | internal/domain/product/batch.go:129-149 | groups come in first-seen order, each holding exactly its identity's records in processing order |
| BatchDecider.FoldGroup | internal/domain/product/batch.go:108-117 | a group's records are folded in order and its rows appended to the plan |
| BatchDecider.DecideBatch | internal/domain/product/batch.go:99-118 | the loops compute the specified plan and draw the specified identifiers |
| ProductStore.IndexAppend | internal/infrastructure/postgres/product_batch.go:44-66 | copying rows in two halves is copying them together, later keys winning |
| ProductTables.SortedIndex | internal/infrastructure/postgres/product_batch.go:279-283 | sorting an update's parameters does not change which update a key gets |
| ProductTables.AllUpdated | internal/infrastructure/postgres/product_batch.go:285-291 | as many rows are updated as were asked for exactly when every guard holds and no key repeats |
| ProductTables.CountedUpdate | internal/infrastructure/postgres/product_batch.go:279-291 | the sorted guarded update that reports the full count has applied every update |
| ProductTables.AppliedIffAccepted | internal/infrastructure/postgres/product_batch.go:16-42 | a plan is applied exactly when its inserts and its guards are all accepted |
| ProductTables.Tables.CopyProducts | internal/infrastructure/postgres/product_batch.go:16-66 | product rows are all inserted, or none when a key exists or repeats |
| ProductTables.Tables.CopySources | internal/infrastructure/postgres/product_batch.go:16-66 | source rows are all inserted, or none when a key or an identity exists or repeats |
| ProductTables.Tables.CopyVersions | internal/infrastructure/postgres/product_batch.go:16-66 | versions are all inserted, or none when a key or a (product, number) pair exists or repeats |
| ProductTables.Tables.BatchGuardedUpdateProductVersion | internal/infrastructure/postgres/generated/products.sql.go:62-86 | moves exactly the products whose current version is the expected one |
| ProductTables.Tables.BatchGuardedUpdateProductFingerprintOnly | internal/infrastructure/postgres/generated/products.sql.go:14-28 | replaces exactly the fingerprints whose product is at the expected version |
| ProductTables.Tables.BatchUpdateProductSourceOnChanged | internal/infrastructure/postgres/generated/product_sources.sql.go:14-27 | sets last_changed_at and raises both watermarks of every source that exists |
| ProductTables.Tables.BatchUpdateProductSourceWatermarks | internal/infrastructure/postgres/generated/product_sources.sql.go:49-62 | skipping rows already at or past their mark still leaves the GREATEST of both |
| ProductTables.Tables.UpdateProductVersions | internal/infrastructure/postgres/product_batch.go:68-95 | succeeds exactly when every guard matches, and then every product has moved |
| ProductTables.Tables.UpdateProductFingerprints | internal/infrastructure/postgres/product_batch.go:97-117 | succeeds exactly when every guard matches, and then every fingerprint is replaced |
| ProductTables.Tables.UpdateSourcesOnChanged | internal/infrastructure/postgres/product_batch.go:119-139 | succeeds exactly when every source exists once, and then every one is changed |
| ProductTables.Tables.UpdateSourceWatermarks | internal/infrastructure/postgres/product_batch.go:141-161 | raises watermarks with no guard |
| ProductTables.Tables.ApplyBatch | internal/infrastructure/postgres/product_batch.go:16-42 | the ordered statements accept exactly the acceptable plans and leave exactly the plan applied |
| ProductTables.Tables.CommitPlan | internal/infrastructure/postgres/product_batch.go:16-42 | in its transaction a plan is applied whole or leaves the tables as they were |
| PageRefinement.PageEqualsRecordsAlone | internal/domain/product/batch.go:96-118 | for every consistent store and page, applying the decided batch equals deciding and applying each record alone in grouped processing order, identifiers and counters included |
| VersionChain.VersionsAreNumberedOneToN | internal/infrastructure/postgres/product_batch.go:68-95 | in a chained store a product's version numbers are exactly 1..n and its row points at n |
| VersionChain.OneChangeAndOneEventPerVersion | internal/domain/product/batch.go:226-300 | change rows, events and versions correspond one to one |
| VersionChain.ChainGrows | internal/domain/product/batch.go:226-300 | a fold's rows written over a chained store extend the product's chain |
| ConcurrentPages.GroupKeepsChain | internal/infrastructure/postgres/product_batch.go:68-95 | an accepted group decided from a stale snapshot keeps the chain |
| ConcurrentPages.PageKeepsChain | internal/infrastructure/postgres/product_batch.go:16-42 | an accepted page decided from stale snapshots keeps the chain and every earlier version |
| ConcurrentPages.ChainsUnderConcurrency | internal/infrastructure/postgres/generated/products.sql.go:62-86 | for every interleaving of snapshot reads, commits and crashes: versions are one chain 1..n per product, each with one change row linked to its predecessor and one event |
| ConcurrentPages.CommittedVersionsStay | internal/infrastructure/postgres/product_batch.go:16-42 | a committed version is never changed or removed |
| StaleCommit.CommitOverlays | internal/infrastructure/postgres/product_batch.go:68-161 | for every record and every later state that accepts its plan: content that differs from what was read replaces what is there, content that repeats it leaves what is there, and watermarks only rise |
| StaleCommit.BothAreAccepted | internal/infrastructure/postgres/product_batch.go:97-161 | of two workers that read the same tables, one confirming and one replacing the content, both commit in either order and end with the new content under the highest watermarks |
| StaleCommit.SecondVersionIsRefused | internal/infrastructure/postgres/product_batch.go:68-95 | of two that both add a version, whichever commits second is refused |
| StaleCommit.RaceIsSerialIff | internal/infrastructure/postgres/product_batch.go:141-161 | the accepted pair of one-record pages ends, in the identity's content and watermarks, where one of the two orders of the pages ends if and only if the replacing record is not late after the confirming one, or the confirming one is late after it and raises nothing |
| StaleCommit.RaceCanDiffer | internal/infrastructure/postgres/product_batch.go:141-161 | a pair that ends where neither order does |
| StalePages.StalePageLands | internal/infrastructure/postgres/product_batch.go:16-161 | for every chained store and page decided on snapshots read from it at any time, if it is accepted: each known identity gets the group's last content if the group replaced what it had read, keeps what is there otherwise, and its watermarks only rise; identities beside the page keep theirs |
| StalePages.CommitLands | internal/infrastructure/postgres/product_batch.go:16-161 | and so over every interleaving of reads, commits and crashes |
| StalePages.PagesRaceIsSerialIff | internal/infrastructure/postgres/product_batch.go:97-161 | two pages of any records decided side by side, one confirming what is current: both are accepted in either order with the same end, and that is the end of the pages in turn if and only if no known identity's group comes out differently after the other page's |
| StalePages.UndisturbedOne | internal/infrastructure/postgres/product_batch.go:141-161 | for groups of one record that condition is the one of the pages of one record |
| ChangeRecords.FoldTells | internal/domain/product/batch.go:190-300 | for every snapshot and group of records: each version added has a change row and an event that agree and list, in alphabetical order, exactly the fields in which its content differs from the version before it, and carries one record of the group |
| ChangeRecords.PageIsFaithful | internal/domain/product/batch.go:99-118 | and an accepted page, decided on snapshots of any age, keeps that true of all rows, and that each product row displays its current version |
| ChangeRecords.EveryVersionTells | internal/domain/product/transition.go:83-90 | for every interleaving of reads, commits and crashes: a first version is NEW with no field, any other CHANGED with exactly the differing fields, its event says the same, it carries a record that arrived for its identity and names it, and each product row displays its current version |
| RealChanges.VersionIffContentChanged | internal/domain/product/transition.go:43-90 | a record of the current algorithm adds a version exactly when the source or the time of receipt does not put it before what is stored and its canonical content is not the stored one, whichever algorithm wrote the stored fingerprint; it is counted once and its fingerprint becomes current unless it was overtaken |
| RealChanges.EveryChangeIsReal | internal/domain/product/transition.go:43-90 | for every interleaving over records whose fingerprint is that of their content or an older algorithm's: no CHANGED row of a version of the current algorithm lists nothing, and a product's fingerprint is that of its current version's content |
| Marks.StepAbsorbs | internal/domain/product/transition.go:43-90 | whatever the transition, a record that is not stale leaves its own fingerprint current and raises both watermarks |
| Marks.PageMarks | internal/domain/product/batch.go:99-220 | a page takes an identity's fingerprint and watermarks where its own records, in processing order, take them |
| Convergence.PagesConverge | internal/domain/product/transition.go:51-62 | when the latest records of an identity agree, every arrival order and every split into pages ends with their fingerprint and the latest source_updated_at |
| Convergence.OrderIndependentIff | internal/domain/product/transition.go:51-62 | absorbed one by one, the order of arrival does not matter exactly when the latest records agree, or the last received of them agree and nothing was received later |
| Convergence.PagesAgreeIff | internal/domain/product/transition.go:51-62 | from every consistent store that does not know the identity, all arrival orders and splits into pages store one fingerprint exactly under that condition |
| Conservation.OrderedPage | internal/domain/product/batch.go:127-149 | grouping and sorting keep every record exactly as often as it came |
| Conservation.PageConserves | internal/domain/product/batch.go:302-324 | new + changed + unchanged = records; products = sources = new; versions, changes and events = new + changed; no identity is written twice |
| Conservation.EmitCounts | internal/domain/product/batch.go:302-324 | a touched identity emits exactly one insert, guarded move or watermark, an untouched one nothing |
| Conservation.PermutedGroups | internal/domain/product/batch.go:129-166 | permuting a page of distinct raw records gives every identity the same ordered group |
| Conservation.PermutedPageFoldsAlike | internal/domain/product/batch.go:129-220 | and the same transitions, versions, changes and events up to identifiers |
| Replay.ReplayIsNoOpIff | internal/domain/product/transition.go:43-90 | re-deciding a committed page changes nothing and counts every record unchanged if and only if each record is late for, or repeats, what the page stored |
| Replay.UniformReplayIff | internal/domain/product/transition.go:43-90 | for pages of one kind of timestamp that is so exactly when each group's records tied with the last one have its content |
| Replay.MixedPageIsNotReplayable | internal/domain/product/transition.go:51-62 | a record without source_updated_at beside one with it breaks the replay although no two records tie: the second pass writes two more versions |
| Replay.WholeRunReplay | internal/domain/product/batch.go:108-118 | a sufficient condition on the records alone: replaying all pages of a run is a no-op when every record and every prior snapshot carries source_updated_at and ties agree |
| Replay.WholeRunReplayIff | internal/domain/product/batch.go:108-118 | and for pages made of any of the run's records, in any split, it is a no-op if and only if each record that ties with both stored watermarks of its identity has the stored content |
| Replay.AnyRunReplayIff | internal/domain/product/batch.go:108-118 | for every run, with or without timestamps, and any pages after it: they change nothing and count as unchanged if and only if each record is covered by, and late for or repeating, what the run left of its identity |
| Replay.StoredWithoutTimestampBreaksReplay | internal/domain/product/transition.go:51-62 | a prior snapshot without source_updated_at breaks it: two pages processed and processed again write one more version |
| RunRow.Queue.EnsureExists | internal/infrastructure/postgres/generated/run_processing.sql.go:152-159 | creates a pending row only when the run has none |
| RunRow.Queue.Write | internal/infrastructure/postgres/generated/run_processing.sql.go:68-80 | a refused guard leaves the table as it was |
| RunRow.WhoMayClaim | internal/infrastructure/postgres/generated/run_processing.sql.go:14-80 | the next worker may claim a waiting run or one whose lease ran out, a worker that names the run also a finished one or its own; a reset takes a run nobody holds |
| RunRow.LiveLeaseStands | internal/infrastructure/postgres/generated/run_processing.sql.go:14-80 | a run under a live lease is neither claimed by another nor reset |
| RunRow.ClaimsMean | internal/infrastructure/postgres/generated/run_processing.sql.go:14-80 | a claim gives the run to the claimant for the duration and keeps cursor and counters |
| RunRow.WritesMean | internal/infrastructure/postgres/generated/run_processing.sql.go:111-380 | only the holder releases, completes or fails a run, each leaving it to nobody in its status, and progress renews the lease, moves the cursor and adds the page's counts |
| RunRow.ResetMeans | internal/infrastructure/postgres/generated/run_processing.sql.go:297-308 | a reset run waits with no cursor and nothing counted |
| RunRow.Queue.ClaimOldest | internal/infrastructure/postgres/generated/run_processing.sql.go:14-38 | a run is claimed exactly when one is pending or running under a lease that is over, and then the oldest of them |
| RunProtocol.ListedAreAfter | internal/application/product/process_run.go:173-245 | a listing holds the first n records after the cursor, in identifier order: every record before them is at or before the cursor, so none is skipped |
| RunProtocol.ExactlyOnce | internal/application/product/process_run.go:173-245 | over every interleaving of claims, takeovers, commits, lost answers, aborts, releases, failures, crashes, resets and other runs' pages: committed pages are the first k records once each, cursor and counters say so, the holder's own cursor is the stored one, COMPLETED means none is left, and the tables are what these pages leave together with the others written in between |
| RunProtocol.SoleWriter | internal/application/product/process_run.go:173-245 | if no other run writes, the tables are what the run's own pages, one after the other, leave |
| RunProtocol.LeaseIsExclusive | internal/infrastructure/postgres/generated/run_processing.sql.go:14-80 | while a worker's lease lasts, no other worker's claim and no reset changes the row |
| RunProtocol.NextStarts | internal/infrastructure/postgres/generated/run_processing.sql.go:14-80 | a new worker gets a waiting run and, with the token it got, starts from the run's cursor |
| RunProtocol.AbortedPage | internal/application/product/process_run.go:274-360 | an aborted page has changed nothing; its worker keeps it only to try it again, and otherwise commits it no more |
| RunProtocol.EveryRunCanComplete | internal/application/product/process_run.go:101-271 | from every reachable state a run that nobody holds, or whose holder's lease is over, can still be taken to its end, by two new workers, with every record processed once |
| RunProtocol.OverBudgetCompletion | internal/application/product/process_run.go:173-245 | only a worker that committed no page itself can complete a run over its budget |
| RunProtocol.OverBudgetRunCompletes | internal/application/product/process_run.go:173-251 | for every run whose failures exceed the budget there is an execution that completes it |
| RunProtocol.OverBudgetCompletesIff | internal/application/product/process_run.go:173-251 | some execution ends COMPLETED over the budget if and only if the whole run's failures exceed it |
| Budget.OverBudgetIff | internal/domain/ingestion/error_budget.go:26-38 | the budget is exceeded exactly when the sample is large enough and the share of failed rows is above the highest allowed |
| RunLoop.Processing.Attempt | internal/application/product/process_run.go:274-360 | one transaction writes products, events and guarded progress together or nothing |
| RunLoop.ProcessPageWithRetry | internal/application/product/process_run.go:274-360 | only a conflict is tried again, once; the page is committed exactly when the deciding attempt went well or only its answer was lost; done, error and lost lease are answered exactly when that attempt and the budget call for them |
| RunLoop.Stopped | internal/application/product/process_run.go:230-240 | a page error releases the run exactly when the caller is cancelled by then, and otherwise leaves it as failed or lost; another worker may have claimed it meanwhile |
| RunLoop.TakePage | internal/application/product/process_run.go:173-245 | a turn moves the worker's position exactly by the page committed, done means within budget, a lost lease is reported exactly when the worker no longer holds the run, and an error only after a failing attempt or over budget |
| RunLoop.PageLoop | internal/application/product/process_run.go:173-245 | terminates; every turn before the last went well, and the outcome is explained by what the last one met: released only if cancelled, failed only for an error, a failed listing or the budget, lost only if taken over, finished only with no record left |
| RunLoop.Settle | internal/application/product/process_run.go:253-271 | fails, releases or completes the row only for the holder, leaves it alone for anybody else and touches no counter; the statement may fail or its answer be lost, and a completion without an answer is reported as such |
| RunLoop.ProcessRun | internal/application/product/process_run.go:101-251 | refused exactly when another holds the run; otherwise its pages are the run's next records, every other outcome is explained by what the last turn met, and a run that is granted, meets nothing and stays within budget finishes; each outcome says how the row was left, unless the last statement failed |
| Idempotency.CompletedStays | internal/infrastructure/postgres/generated/idempotency_keys.sql.go:14-41 | a completed key is never claimed, completed or released again, and a key's payload hash never changes |
| Idempotency.LeaseIsExclusive | internal/infrastructure/postgres/generated/idempotency_keys.sql.go:14-60 | a key just claimed is refused to every rival until its lease runs out and given from then on, and only its claimer completes or releases it |
| Idempotency.Store.ClaimKey | internal/infrastructure/postgres/idempotency_repository.go:32-105 | which of acquired, completed, mismatch and busy is answered and what is written, for every key: acquired exactly when the key is free or in progress for the payload past its expiry, and then held until now plus the time to live with one more attempt counted |
| Idempotency.Store.CompleteKey | internal/infrastructure/postgres/idempotency_repository.go:107-131 | completes exactly for the token that holds the lease, otherwise reports the lease lost |
| Idempotency.Store.ReleaseKey | internal/infrastructure/postgres/idempotency_repository.go:133-154 | expires only the holder's lease and always looks alike |
| Idempotency.Handle | internal/application/idempotency/guard.go:73-155 | the exact answer for every key, handler and rival: an effect commits exactly with the key's completion, only from a key that could be claimed and whose lease no rival took, and only once; success means the key is complete; an unused lease is free again at once, or at its expiry if the release failed |
| Outbox.Table.ClaimBatch | internal/infrastructure/postgres/generated/outbox_events.sql.go:14-32 | claims the pending events available longest, at most the limit and no others, each until now plus the lease |
| Outbox.Table.MarkPublished | internal/infrastructure/postgres/generated/outbox_events.sql.go:127-135 | the rows the token holds become processed and unclaimed, all others stay; or the statement fails and writes nothing |
| Outbox.Table.RecordFailure | internal/infrastructure/postgres/generated/outbox_events.sql.go:153-165 | a held row gets one more attempt, fails exactly at the maximum and is otherwise pending until the backoff is over; or the statement fails and writes nothing |
| Outbox.Table.Release | internal/infrastructure/postgres/generated/outbox_events.sql.go:189-195 | held rows are unclaimed and available now, with their attempts unchanged; or the statement fails and writes nothing |
| Outbox.SettleOnCancel | internal/application/outbox/relay.go:113-131 | marks what was published and releases the rest, each tried even if the other fails |
| Outbox.SettleOnOutage | internal/application/outbox/relay.go:172-193 | the same while the broker is down: the published are marked, then the rest released, whichever fails |
| Outbox.RunOnce | internal/application/outbox/relay.go:142-237 | on every exit path, whichever writes fail: published events are marked, rejections charged once and the suffix released, as statements in order; the rows are what the statements that succeeded made of them; and the exit taken is the one the answers call for |
| Outbox.DisposedOnce | internal/application/outbox/relay.go:142-237 | each claimed event is exactly one of published, charged and released |
| Outbox.ChargedFor | internal/application/outbox/relay.go:142-237 | an event is charged only for its own rejection, never for an outage or a cancellation |
| Outbox.RoundLeaves | internal/application/outbox/relay.go:142-237 | what a round makes of each claimed row, field by field: processed if sent; one attempt more, failed at the maximum, waiting for its backoff otherwise, if rejected; available now and uncharged if at or after the stop; as it was if its one statement failed or the token no longer holds it |
| Outbox.OthersStay | internal/application/outbox/relay.go:142-237 | a round touches no row but those of its events |
| Delivery.AtMostOneEffect | internal/application/idempotency/guard.go:81-139 | over every run with redelivery, failed claims, lease loss, crashes and replays each (group, event) has at most one committed effect |
| Delivery.AcknowledgedIsAccounted | internal/infrastructure/redis/consumer.go:358-494 | an acknowledged message has its key completed, its dead letter stored or another group as target; a replay publishes the same event and payload |
| Delivery.OutboxSafe | internal/infrastructure/postgres/generated/outbox_events.sql.go:14-28 | over any relays: claimed implies pending, processed implies published, failed implies the maximum of recorded rejections, pending becomes claimable within a bound |
| Delivery.SettledForGood | internal/infrastructure/postgres/generated/outbox_events.sql.go:127-165 | processed and failed rows never change again |
| Delivery.NoPayloadMismatch | internal/application/dlq/replay.go:29-70 | over every run no delivery, replays included, meets a key of another payload |
| Delivery.WaitingCanBePublished | internal/infrastructure/postgres/generated/outbox_events.sql.go:14-32 | from every reachable state a pending row can still be published and processed, by any new relay, once its last lease or backoff is over |
| Delivery.MessageCanBeHandled | internal/infrastructure/redis/consumer.go:358-494 | from every reachable state a message not yet acknowledged can still be handled by the group it is for, once any lease on its key is over: its effect is in and it is acknowledged |
| Delivery.DeadLetterCanBeRecovered | internal/application/dlq/replay.go:29-70 | from every reachable state a replayable dead letter can be replayed, published and handled, which puts in the effect its group gave up |
| Delivery.FailureCanBeBuried | internal/infrastructure/redis/consumer.go:456-478 | from every reachable state a message whose claim or handler failed can be given up: its dead letter, open to replay, is stored and it is acknowledged without an effect |
| Delivery.FailureCanBeRetried | internal/application/idempotency/guard.go:112-139 | or tried again, with its key claimable at once when it was released |
| Delivery.OthersAreNotHandled | internal/infrastructure/redis/consumer.go:384-410 | over every run a group claims no key and runs no handler for a message that is for another group |
| Delivery.OthersArePassedOver | internal/infrastructure/redis/consumer.go:384-410 | such a message is passed over: acknowledged, with no key changed |
| Consumer.Classify | internal/application/dlq/classifier.go:57-70 | pending exactly when stopping or the key is held elsewhere; otherwise dead-lettered for the first permanent sentinel of the table if the failure carries one, the unspecific one only when it carries no other, and retried if it carries none |
| Consumer.ProcessAttempts | internal/infrastructure/redis/consumer.go:412-493 | only transient failures are retried; which fate is answered, and for which sentinel, is exact for what the last attempt met; the loop lasts what its attempts ran and waited and stays below the claim idle time |
| Consumer.ProcessMessage | internal/infrastructure/redis/consumer.go:384-494 | a message is acknowledged exactly when the acknowledgement is received after success, for another group, or with its dead letter written; it is dead-lettered exactly for a first permanent sentinel, for exhausted attempts or when it does not decode |
| Backoff.ExponentialIsMinimumIff | internal/platform/backoff/backoff.go:17-37 | in wrapping 64-bit arithmetic, for all inputs: the result is min(max, base*2^attempt) except at exactly one point of positive durations, and for others only when the smaller of base and cap is zero |
| Backoff.ExponentialBounded | internal/platform/backoff/backoff.go:17-37 | never negative, never above the cap |
| Backoff.ExponentialMonotone | internal/platform/backoff/backoff.go:17-37 | a later attempt never waits less |
| Backoff.MaxRetryWindow | internal/platform/backoff/backoff.go:73-86 | rejects exactly when the worst case does not fit 64 bits, otherwise computes it |
| Backoff.ValidateRetryPolicy | internal/platform/backoff/backoff.go:49-71 | accepts exactly the policies whose worst case is below the claim idle time |
| Backoff.AcceptedJitterIsDefined | internal/platform/backoff/backoff.go:39-47 | under an accepted policy the jitter's bound never wraps |
| Regulatory.Dataset.RecordReview | internal/domain/regulatory/dataset.go:168-183 | signs off a loaded dataset once, only by someone whose name is not the loader's in any case of its letters |
| Regulatory.Dataset.Activate | internal/domain/regulatory/dataset.go:185-196 | succeeds exactly for a loaded dataset that, where it requires a review, has one, and then sets status and instant and nothing else |
| Regulatory.Dataset.Supersede | internal/domain/regulatory/dataset.go:198-210 | succeeds exactly for an active dataset not before its activation, and then sets status and instant and nothing else |
| Regulatory.Dataset.Reject | internal/domain/regulatory/dataset.go:212-224 | rejects only a loaded dataset, with a reason |
| Regulatory.Service.SaveLifecycle | internal/infrastructure/postgres/generated/regulatory_datasets.sql.go:259-269 | writes exactly when the stored status is the expected one and no second active row of the key would arise |
| Regulatory.Service.ActiveForUpdate | internal/infrastructure/postgres/generated/regulatory_datasets.sql.go:57-64 | finds the active row of the key unless a concurrent transaction hides it |
| Regulatory.Service.Activate | internal/application/regulatory/service.go:106-151 | succeeds exactly for a loaded, where required reviewed, version whose predecessor is found and was not activated later: the predecessor ends at the instant the new one begins and every other row stays; otherwise nothing changes |
| RegulatoryTimeline.ActivatedIsReviewed | internal/domain/regulatory/dataset.go:168-196 | in every reachable state a version that was ever activated and requires a review has one, and every review has a note and was given by somebody other than the loader |
| RegulatoryTimeline.InForceIsPartition | internal/infrastructure/postgres/generated/regulatory_datasets.sql.go:201-210 | in every reachable state at most one version of a key is active, exactly one is in force from its first activation on and none before |
| RegulatoryTimeline.PastIsFixed | internal/application/regulatory/service.go:106-151 | an activation never changes what was in force at an earlier instant, even with a clock that runs back |
| RegulatoryTimeline.OnlyActivationMatters | internal/application/regulatory/service.go:70-104 | loading, reviewing and rejecting change nothing at any instant |
| Tariff.KeysTotal | internal/domain/regulatory/tariff.go:228-234 | measure keys are totally ordered, the MFN rate before everything else |
| Tariff.KeysTransitive | internal/domain/regulatory/tariff.go:228-234 | and the order is transitive |
| Tariff.StringsAlphabetical | internal/domain/regulatory/tariff.go:228-234 | programme codes are ordered by their first differing character, a prefix first |
| Tariff.MostSpecific | internal/domain/regulatory/tariff.go:192-211 | the one-pass index holds a most specific candidate per measure and marks it tied exactly when it has an equally specific rival |
| Tariff.SortKeys | internal/domain/regulatory/tariff.go:175 | the keys once each, in order |
| Tariff.ResolveTariff | internal/domain/regulatory/tariff.go:165-190 | the result meets a specification that only looks at which candidates there are |
| Tariff.ResolvesIff | internal/domain/regulatory/tariff.go:165-190 | it succeeds exactly when an MFN rule exists and every measure has a unique most specific rule that is supported |
| Tariff.ResolvedExactly | internal/domain/regulatory/tariff.go:165-190 | it returns exactly the unique most specific rules |
| Tariff.ResolvedIsLongest | internal/domain/regulatory/tariff.go:213-219 | each rule returned beats every other candidate for its measure: one for the query's origin before one for any, then the longer HS code |
| Tariff.EachIsResolved | internal/domain/regulatory/tariff.go:165-190 | and each candidate's measure is settled by one such rule |
| Tariff.ErrorsMean | internal/domain/regulatory/tariff.go:165-190 | no MFN rate means no candidate is one; ambiguous means two candidates of the measure are equally specific and none is more; unsupported means the one that beats all others is |
| Tariff.OrderDoesNotMatter | internal/domain/regulatory/tariff.go:165-211 | result and error are the same for every order of the candidates |
| Tariff.FailsAt | internal/domain/regulatory/tariff.go:177-188 | an error names the first measure in order that is not settled |
| Tariff.HSPrefixes | internal/domain/regulatory/tariff.go:107-114 | every even-length prefix of the code, longest first |
| Decimal.NumeralsAreRead | internal/platform/jsonpath/path_lookup.go:160-224 | every numeral, padded or not, is read as its sign, digits and exponent or as the error its exponent calls for |
| Decimal.OnlyNumeralsAreRead | internal/platform/jsonpath/path_lookup.go:160-224 | nothing else is accepted |
| Decimal.JsonNumbersAreAccepted | internal/platform/jsonpath/path_lookup.go:152-224 | a number of section 6 of RFC 8259 is accepted exactly when its exponent is within 308 |
| CanonicalNumber.ParseNumber | internal/platform/jsonpath/path_lookup.go:160-199 | the scanning steps compute the specified reading |
| CanonicalNumber.ParseParts | internal/platform/jsonpath/path_lookup.go:201-224 | the digit loops accept exactly digits around at most one point |
| CanonicalNumber.PlacePoint | internal/platform/jsonpath/path_lookup.go:240-257 | the digits with their point have the shifted value and no padding |
| CanonicalNumber.CanonicalText | internal/platform/jsonpath/path_lookup.go:226-266 | the text is canonical and has the exact value of the numeral |
| CanonicalNumber.CanonicalizeNumber | internal/platform/jsonpath/path_lookup.go:152-267 | every text gets its error or a canonical text of the same exact value |
| CanonicalNumber.CanonicalTextIsUnique | internal/platform/jsonpath/path_lookup.go:152-158 | a value has one canonical text |
| CanonicalNumber.EqualTextsIffEqualValues | internal/platform/jsonpath/path_lookup.go:152-267 | two accepted numerals get equal texts exactly when their values are equal |
| CanonicalNumber.CanonicalTextIsFixed | internal/platform/jsonpath/path_lookup.go:152-267 | canonicalising again keeps the value and the text |
| Ndjson.Reader.ReadSlice | internal/adapters/sources/feed_file_adapter.go:306-309 | the next bytes up to a newline, the end or wherever the buffer is full |
| Ndjson.ReadBoundedLine | internal/adapters/sources/feed_file_adapter.go:301-334 | line, length and error depend on the data alone, not on how chunks fall; too long exactly when the line exceeds the bound |
| Ndjson.StreamNDJSON | internal/adapters/sources/feed_file_adapter.go:187-299 | the loop returns exactly the specified batch, or a row error exactly when the policy is strict and the batch has a bad row |
| Resume.CheckpointRoundTrip | internal/domain/ingestion/checkpoint.go:41-71 | a formatted offset parses to itself |
| Resume.CheckpointsAccepted | internal/domain/ingestion/checkpoint.go:49-71 | a checkpoint is read as an offset exactly when, trimmed, it is blank and the offset the start, or an optional word in any case, an optional sign and the digits of an offset that fits 64 bits |
| Resume.BatchIsPrefix | internal/adapters/sources/feed_file_adapter.go:187-299 | a batch and the pass from its next offset make up the pass from its start; a batch with a next offset is full and moves forward |
| Resume.ResumeIsOnePass | internal/adapters/sources/feed_file_adapter.go:132-175 | for every file, start and sequence of positive batch sizes, following checkpoints ends within records + 1 fetches with exactly one pass's records and failures |
| Resume.WholeFile | internal/adapters/sources/feed_file_adapter.go:132-175 | from the empty checkpoint that is the whole file |
| Resume.FetchNDJSON | internal/adapters/sources/feed_file_adapter.go:132-175 | a fetch on a fresh reader answers as specified, with the default size when none is asked for, and reports a row error exactly under the strict policy on a bad row |
| Sync.StepKeeps | internal/application/ingestion/sync.go:119-145 | starting, persisting and ending runs keep every run's account of its rows and stored checkpoints |
| Sync.StepSafe | internal/application/ingestion/sync.go:119-145 | and keep that nothing is lost, for runs started from the beginning or from stored checkpoints |
| Sync.SyncNeverSkips | internal/application/ingestion/sync.go:64-145 | in every committed state a run's totals are its batches', a finished run has saved everything from its start, and, if runs start from the beginning or from stored checkpoints, nothing before a stored checkpoint is unsaved and uncounted |
| Sync.OneRunAtATime | internal/application/ingestion/service.go:32-68 | in every committed state of a source only its newest run can be RUNNING |
| Sync.EndedRunsStay | internal/infrastructure/postgres/generated/ingestion_runs.sql.go:324-336 | a run that has ended stays as it ended |
| SyncResume.ResumeSavesAgain | internal/application/ingestion/service.go:127-138 | in every committed state a run's checkpoint is exactly one of those it stored, and a run resumed from it saves, before anything unread, exactly the rows the first saved after storing it |
| SyncResume.ResumeRepeatsNothingIff | internal/application/ingestion/service.go:127-138 | it repeats nothing if and only if the checkpoint is the last one stored and the last batch, once the feed has been read to the end, held no record |
| SyncResume.ResumeCanRepeat | internal/application/ingestion/sync.go:119-145 | a history of five writes that ends with the one row of the file saved twice |
| SyncResume.EndCanLowerCheckpoint | internal/application/ingestion/service.go:105-125 | a history in which a caller of the service ends a run and takes its stored checkpoint back |
| SyncLoop.Database.CreateRun | internal/application/ingestion/service.go:32-68 | a run starts exactly when none of the source is active |
| SyncLoop.Database.Persist | internal/infrastructure/postgres/generated/ingestion_runs.sql.go:251-264 | records, counters and checkpoint change together, only while RUNNING and only if nothing disturbs the statement, and an empty checkpoint keeps the stored one; the answer to the commit may be lost |
| SyncLoop.Database.End | internal/infrastructure/postgres/generated/ingestion_runs.sql.go:324-336 | a run no longer RUNNING is left alone |
| SyncLoop.Database.Complete | internal/domain/ingestion/run.go:136-155 | COMPLETED without failed rows, PARTIAL with some |
| SyncLoop.SyncBatch | internal/application/ingestion/sync.go:66-99 | a turn persists one batch, or leaves the run ended, only because somebody disturbed it or a row may not be skipped, and as cancelled exactly when the caller was |
| SyncLoop.SyncSource | internal/application/ingestion/sync.go:50-117 | terminates; done means the run saved or counted every row from its start to the end, within the budget; stopped means it was ended as failed or cancelled, only because a turn was disturbed, a row may not be skipped or the budget is exceeded |
| Pool.ClosingKept | internal/platform/worker/pool.go:96-135 | the wait group counts the dispatchers in flight, none is once the task channel is closed, and the closing channel is closed before anybody is waited for |
| Pool.TasksKept | internal/platform/worker/pool.go:73-118 | an accepted task is queued or started once, a started one running in one worker or finished |
| Pool.ShutdownIsSafe | internal/platform/worker/pool.go:73-156 | over every interleaving no send reaches a closed channel, a task starts at most once and only if accepted, and a nil Shutdown means every accepted task has finished |
| Pool.ShutdownProgresses | internal/platform/worker/pool.go:120-156 | Shutdown is never stuck: under the lock it goes on itself, while it waits a thread it waits for can step or a task is running, and once every worker has left it can return nil |
| Pool.ShutdownEnds | internal/platform/worker/pool.go:120-156 | from the moment the pool is closing, dispatchers and workers take a bounded number of steps, whatever calls still arrive |
| Pool.DispatchAnswers | internal/platform/worker/pool.go:90-118 | over every interleaving the queue never exceeds its capacity, a call is refused only because the pool is closed or the call cancelled, and no call that reaches the pool after it is closed is ever accepted |
| Pool.DispatchProgresses | internal/platform/worker/pool.go:110-117 | a call in the select can be accepted, or the queue is full and a worker can step that makes room; once it is cancelled or the pool closing it can give up |

## Left out

- HTTP handlers, commands, configuration, logging, wiring, authentication and the migrator: plumbing.
- CSV feeds, the REST adapter and its pagination: their correctness rests on library offsets and remote servers.
- Unicode normalisation, case folding and key collisions in `canonicalize`: a content carries its canonical payload as a field, and the hash is taken to be injective.
- Timestamp truncation to microseconds and int32 overflow of version numbers and counters: instants and counts are integers.
- The length check on payload hashes: a hash is an abstract value.
- UUID generation and its errors: identifiers come from a supply that never repeats; claim tokens are never reused either.
- Argument checks that every caller here meets: a zero `now` in `DecideBatch`, a nil task in `Dispatch`.
- Foreign keys and the DRAFT status of products: no statement modelled here depends on them.
- Which of several violated constraints a refused plan reports first: a refused plan is refused as a whole.
- float64 in the error budgets: reals, so a rate that float64 rounds onto the limit is not covered.
- Redis stream trimming and the lag audit: no entry is trimmed before it is settled.
- The consumer's in-flight map, which only avoids duplicate work inside one process, and `isOnlyContextCanceled`: errors are a small datatype.
- A handler that reports success although its transaction was rolled back: handlers return an error when their transaction aborts.
- Curated CSV loading, provenance checks, coverage and the read-side services: validation and wrappers.
- Raw records of a processable run are taken as fixed, and the feed file does not change between fetches.
- Read faults other than the end of a feed: reads succeed or end; invalid UTF-8 in numerals: text is a sequence of Unicode code points.
- An orchestrator whose status write fails leaves its run RUNNING, which the state machine of `Sync` covers and its loop does not.
- Serialisability beyond content and watermarks: `StalePages` compares what is stored of each known identity, not the rows of versions and events, and races one page that confirms with one other; of two pages that both add a version to one product the second is refused.
- RunProtocol.ExactlyOnce: a page's read, decision and write are one step there; pages decided on older snapshots are the subject of `ConcurrentPages` and `StalePages`.
- StaleCommit.RaceIsSerialIff: one identity and one record per page; `StalePages.PagesRaceIsSerialIff` is the statement about any pages.
- StalePages.PagesRaceIsSerialIff: about identities known before; the condition folds the two groups of an identity, and reduces to timestamps for one record each (`StalePages.UndisturbedOne`).
- Delivery.NoPayloadMismatch: events enter the stream from the outbox; another producer's entry is one that does not decode.
- SyncLoop.Database.Complete: called as the orchestrator calls it, after the last batch and with the stored checkpoint; the exported service takes any checkpoint at any time.
- Convergence.OrderIndependentIff: stated on the fold of marks; `Convergence.PagesAgreeIff` is the statement about stored pages.
- Replay.WholeRunReplay: one direction, in terms of the records alone; `Replay.WholeRunReplayIff` and `Replay.AnyRunReplayIff` are the exact conditions.
- ProductTables.Tables.UpdateSourceWatermarks: states the statement's effect; the update has no guard to fail.
- Regulatory.Dataset.RecordReview: compares names with ASCII case folding, because Unicode simple folding is a library table.
- Decimal.JsonNumbersAreAccepted: the exponent bound of 308 is the code's own, so larger JSON exponents are errors by design.
