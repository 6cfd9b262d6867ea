# Work planning: a verified model of the work-pool release protocol

The service plans warehouse work. A *work pool* is the queue of one process path: entries with a
critical pull time (CPT), each pending, released or completed. A *work unit* is the thing worked
on, with its own lifecycle. Three use cases move work: enqueue puts a unit and an entry in place,
release hands out the most urgent pending unit within the pool's WIP limit, completion closes it.
Each loads a versioned copy of the pool, changes it, and saves it with a compare-and-swap on the
version, together with the unit and an outbox event. They retry when the swap loses.

This project models that protocol and the machinery around it, and proves what it keeps over
every run. `dafny verify dfyconfig.toml` checks all of it.

## How the model is laid out

The release protocol is modelled three times and the layers are tied together.

- **Values.** `PoolSpec` says what each pool operation computes and proves that draining a pool is
  a stable sort. `PoolCalls` proves what every sequence of calls keeps and exactly when the WIP
  limit is left. `WorkDb` is the sequential specification: one atomic operation (`Op`) per
  committed use case on the stored tables. `Ledger` proves what every sequence of operations keeps.
- **Objects.** `Aggregates` holds the mutable `WorkPool` and `WorkUnit`, `MemoryRepos` and
  `MemoryInventory` the in-memory repositories with their copies, `Postgres` the SQL adapters over
  one connection with its transaction, and `UseCases` and `InboundEvents` the use cases with their
  loops, retries and nested scopes. Each method is proved to do exactly one operation of the
  sequential specification, or to refuse for a reason the stored state, the request or a failed step
  gives, and without a trace where the source promises that.
- **Interleavings.** `Protocol` is a transition system with any number of open transactions. Each
  one reads the unit, the version row and the entry rows in separate steps that may see different
  committed states, writes into an overlay, and commits or vanishes at any time. Nothing is assumed
  about which ids are used on which paths. `Sessions` says what one transaction knows and has done
  to each pool row (`RowHistory`), and `PoolRuns` what every run guarantees: the history of each
  pool, at most one handout per path and id, the WIP limit, harmless torn reads, atomic events.
  `ProtocolProof` and `Guarantees` refine whole runs to the sequential specification as long as each
  id is used on one path, and `OnePath` reads that condition off what the run committed: it is
  enough, and for agreement of pools and units also necessary, that no id has come to be in two
  pools. `Attempts` traces committed work back to the steps that read for it. `VersionedSaves` does
  the same for any number of clients of the in-memory repository.

`PathUse`, `IdReuse`, `OnePath` and `LateCompletion` are about what the protocol does *not*
guarantee, and give exact conditions. `PathUse` judges by which ids go on which paths, known before
anything runs: every run is serializable, takes no unit back and hands no unit out twice exactly
when no id is used on two paths. `IdReuse` and `OnePath` give the exact condition of agreement for
one run, `LateCompletion` that of a second announcement. `ReusedIdRun` (for any two paths and any
id) and `OverlappingRun` are the runs in which the stronger claims fail, put together with
`RunBuilding`.

Smaller protocols stand beside it: `Outbox` (one relay) and `OutboxRelays` (any number),
`Idempotency` (the Idempotency-Key middleware, as a method and as concurrent clients), `Consumer`
(the Kafka consumer on top of the use cases), `PathCatalog` and `KafkaCatalog` (longest-prefix
lookup and the replayed catalogue), `Analytics` (the rollup) and `DerivedIds` (order-line ids).
`Types`, `PoolRows`, `MapSum` and `Environments` are shared vocabulary.

## Assumptions the theorems name

- `PoolRuns` assumes nothing about ids. It starts from any state whose stored pools have a version
  of at least 1 and whose units are stored under their own ids, which includes the legacy states
  `completePoolEntry` is written for (internal/application/usecases/record_completion.go:87-104),
  where a unit has no pool or no entry.
- `Guarantees` needs, up to the point it speaks of, that units and entries name each other at first
  and that what committed used each id on one path (`home`); what never committed may have tried
  anything. Only serializability, agreement of pool and unit, and the statements about the stage
  and events of a *unit* rest on this. `OnePath` replaces `home` by a look at the stored pools, and
  `PathUse` shows that serializability, units moving forward and one handout per unit fail without it.
- Every scope of the concurrent system is transactional: a commit is one step, and rollback,
  error and crash are the same step (`Vanish`). A statement that would need a pool, view or event
  row another open transaction has written waits, that is, its step is not enabled. One process is
  wired otherwise: the MCP server runs `ReleaseNextWork` on Postgres without a unit of work
  (cmd/mcp/main.go:130-135), so its pool and unit are two separate commits; its releases are covered
  by `UseCases`, not by the theorems about concurrent runs.
- An event's mark can be undone: by the rollback of its scope, or by a repository that can release
  it, as the in-memory one can and the Postgres one cannot. `InboundEvents.MarkKept` says what is
  left otherwise.
- What may fail in the source (a statement, a commit, a send, a fetch, a wait that the caller's
  context cuts short) has its fate given in advance by an `Environment`, so each failing answer is
  traced to the step that caused it: with no such step, every operation gives the one answer its
  input and the stored state call for. In the transition systems such a step is a free choice.
- Times and CPTs are integers; hashing, decoding and letter case are arbitrary functions.
- The consumer loses nothing only if a dead-letter writer is registered for the topic, as every
  constructor of the source does; and its marks can be undone, as in each of its two wirings
  (cmd/wes/main.go:472-478): Postgres with a unit of work, or the in-memory repositories.

Where the repository's prose promises more than the code keeps, the model follows the code. The
comment on `ReleaseNext` (internal/domain/release/work_pool.go:122-124) calls the WIP limit an
enforced invariant, but `RestoreEntry` and `Reconcile` never look at it: `PoolCalls.LimitKeptIff`
says exactly when a pool leaves its limit, and `PoolRuns.WipBound` that the use cases never take it there.

## Model

| member | source | states |
|---|---|---|
| PoolSpec.DrainOrderIsStableSort | internal/domain/release/work_pool.go:137-150 | visiting pending entries by repeated next-pending search lists each exactly once, by CPT, ties in entry order |
| PoolSpec.NthRelease | internal/domain/release/work_pool.go:122-150 | the (n+1)-st release answers the n-th pending entry of that stable sort while the limit admits it, then "empty" or "limit reached", whichever is the reason |
| PoolSpec.NextPending | internal/domain/release/work_pool.go:139-150 | the index found is pending and comes before every other pending one; -1 exactly when nothing is pending |
| PoolSpec.Reconciled | internal/domain/release/work_pool.go:275-289 | the merge takes the further of stored stage and unit lifecycle, so it never moves an entry back |
| PoolCalls.CallsKeep | internal/domain/release/work_pool.go:80-289 | no sequence of calls removes, reorders, re-dates or turns back an entry, and ids stay distinct |
| PoolCalls.LimitLeftIff | internal/domain/release/work_pool.go:125-289 | one call takes a pool over its WIP limit exactly when it restores or reconciles an entry into Released on a full release-fed pool |
| PoolCalls.LimitKeptIff | internal/domain/release/work_pool.go:125-289 | over any sequence of calls the pool stays within its limit exactly when no such call meets a full pool |
| PoolCalls.ReconcileLeavesLimit | internal/domain/release/work_pool.go:261-289 | a pool of limit one that a single reconcile takes over its limit |
| Aggregates.WorkPool.Enqueue | internal/domain/release/work_pool.go:80-88 | appends a pending entry, or reports a duplicate and changes nothing |
| Aggregates.WorkPool.NextPendingIndex | internal/domain/release/work_pool.go:139-150 | the loop finds the pending entry of earliest CPT, the first on a tie, -1 when there is none |
| Aggregates.WorkPool.ReleaseNext | internal/domain/release/work_pool.go:125-135 | releases that entry in place, or fails with the pool unchanged, the empty pool being reported before the limit |
| Aggregates.WorkPool.Release | internal/domain/release/work_pool.go:154-174 | the same for a named entry, with unknown, already released and over-limit errors |
| Aggregates.WorkPool.Complete | internal/domain/release/work_pool.go:215-230 | completes a released entry, is a no-op on a completed one, refuses a pending or unknown one |
| Aggregates.WorkPool.RestoreEntry | internal/domain/release/work_pool.go:240-259 | re-adds an entry in its stored stage without asking the WIP limit |
| Aggregates.WorkPool.Reconcile | internal/domain/release/work_pool.go:261-279 | merges one entry forward and leaves all others |
| Aggregates.WorkPool.BacklogDepth | internal/domain/release/work_pool.go:91-99 | counts the pending entries |
| Aggregates.WorkPool.Wip | internal/domain/release/work_pool.go:105-113 | counts the released entries |
| Aggregates.WorkPool.RemainingCapacity | internal/domain/release/work_pool.go:176-205 | known for a release-fed pool with a positive limit, and then limit minus WIP, not negative while the limit is kept |
| Aggregates.WorkUnit.Release | internal/domain/workunit/work_unit.go:96-104 | only a Pending unit is released, once; otherwise nothing changes |
| Aggregates.WorkUnit.Complete | internal/domain/workunit/work_unit.go:107-117 | only a Released unit is completed; each other state has its own error and no change |
| Aggregates.NewWorkUnit | internal/domain/workunit/work_unit.go:47-55 | rejects an empty id or reference, else a fresh Pending unit without gift wrap |
| MemoryRepos.ClonePool | internal/adapters/outbound/memory/work_pool_repo.go:53-60 | a fresh object with the same value, entry by entry, version included |
| MemoryRepos.WorkPoolRepo.Save | internal/adapters/outbound/memory/work_pool_repo.go:25-39 | succeeds exactly when the version is the stored one; then a copy is stored and the caller's version raised, else nothing changes |
| MemoryRepos.WorkPoolRepo.FindByPathId | internal/adapters/outbound/memory/work_pool_repo.go:41-50 | hands out a fresh copy of the stored value that the repository does not keep |
| MemoryRepos.StaleSaveIsRejected | internal/adapters/outbound/memory/work_pool_repo.go:25-39 | of two writers that loaded the same version the second to save is refused and the first one's pool stays |
| MemoryRepos.MutationStaysPrivate | internal/adapters/outbound/memory/work_pool_repo.go:41-60 | changing a loaded pool does not change what is stored |
| MemoryRepos.CloneWorkUnit | internal/adapters/outbound/memory/work_unit_repo.go:70-84 | replaying the lifecycle rebuilds the unit, gift wrap included, in a fresh object |
| MemoryRepos.WorkUnitRepo.Save | internal/adapters/outbound/memory/work_unit_repo.go:21-26 | stores a copy under the unit's id, whatever was there |
| MemoryRepos.WorkUnitRepo.FindById | internal/adapters/outbound/memory/work_unit_repo.go:28-36 | hands out a fresh copy |
| VersionedSaves.NoLostUpdate | internal/adapters/outbound/memory/work_pool_repo.go:25-60 | for any interleaving of loads, changes and saves the stored pool at version n is the n committed changes applied in turn |
| VersionedSaves.SaveSucceedsIff | internal/adapters/outbound/memory/work_pool_repo.go:25-39 | an attempt's save goes through exactly when no other save did since its load |
| MemoryInventory.ProcessedEventRepo.TryMarkProcessed | internal/adapters/outbound/memory/processed_event_repo.go:20-28 | reports whether the id was marked and marks it |
| MemoryInventory.ProcessedEventRepo.ReleaseProcessed | internal/adapters/outbound/memory/processed_event_repo.go:30-38 | removes exactly that mark |
| MemoryInventory.InventoryViewRepo.ApplyDelta | internal/adapters/outbound/memory/inventory_view_repo.go:22-32 | adds the delta to the SKU's quantity, starting from zero |
| MemoryInventory.InventoryProjection.Observe | internal/application/usecases/observe_inventory_change.go:40-54 | after every delivery each quantity is the sum of the deltas of the marked events, and a redelivery only looks up |
| MemoryInventory.OnlyTheEventsMatter | internal/application/usecases/observe_inventory_change.go:40-54 | redelivering and reordering events changes no quantity when an id stands for one event |
| PoolRows.ReadingRoundTrip | internal/adapters/outbound/postgres/work_pool_repo.go:101-197 | storing the entries and reading them back keeps every entry with its stage, up to order |
| PoolRows.ReleaseNextOnTable | internal/domain/release/work_pool.go:125-150 | on the stored table the release picks a pending row of minimal CPT within the limit, whatever order the rows were read in |
| PoolRows.ReconcileOnTable | internal/domain/release/work_pool.go:261-289 | on the stored table a reconcile touches exactly the named row |
| Postgres.OrderedRows | internal/adapters/outbound/postgres/work_pool_repo.go:127-150 | every row once, by CPT, ties in any order |
| Postgres.Store.FindPool | internal/adapters/outbound/postgres/work_pool_repo.go:101-158 | the rehydrated aggregate represents exactly the stored rows |
| Postgres.Store.SaveVersionedPoolRow | internal/adapters/outbound/postgres/work_pool_repo.go:66-99 | inserts only an absent row, updates only the loaded version, else reports a conflict with nothing written |
| Postgres.Store.SavePool | internal/adapters/outbound/postgres/work_pool_repo.go:38-64 | row and entries are replaced together; a conflict leaves everything as it was, and so does any failure of a save that owns its transaction |
| Postgres.Store.InsertPoolEntries | internal/adapters/outbound/postgres/work_pool_repo.go:167-186 | the inserted rows are exactly the aggregate's entries |
| Postgres.Store.SaveUnit | internal/adapters/outbound/postgres/work_unit_repo.go:28-36 | upserts by id |
| Postgres.Store.FindUnit | internal/adapters/outbound/postgres/work_unit_repo.go:38-84 | replays the stored lifecycle into a fresh unit |
| Postgres.SaveThenLoad | internal/adapters/outbound/postgres/work_unit_repo.go:28-84 | a unit survives storing and loading except for its gift-wrap request, which survives exactly when it was not set |
| Postgres.Store.Open | internal/adapters/outbound/postgres/unit_of_work.go:55-112 | opens a transaction, or joins the one already open |
| Postgres.Store.Close | internal/adapters/outbound/postgres/unit_of_work.go:84-112 | the owner commits or rolls back, a joined scope does neither |
| Postgres.Store.TryMarkProcessed | internal/adapters/outbound/postgres/processed_event_repo.go:18-28 | marks, and reports whether the mark was there |
| Postgres.Store.ApplyDelta | internal/adapters/outbound/postgres/inventory_view_repo.go:23-37 | adds the delta in the current transaction |
| UseCases.EnqueueOnce | internal/application/usecases/enqueue_work_unit.go:79-111 | stores the request's own entry (its CPT, pending) and unit, and announces it, which is one enqueue of the specification; or says why not: no id or reference, a duplicate, a lost race, or a step that failed. Every error raised before its first write leaves no trace, and so does any failure of a scope it owns |
| UseCases.NextReleasable | internal/application/usecases/release_next_work.go:109-131 | the healing loop ends, each turn lowering the backlog by one; the unit returned is Pending and the pool is the stored one with the visited entries healed. Otherwise, with those healed: nothing is pending (empty), or something is and the limit is used up, or the next entry's unit is not stored, or a step failed |
| UseCases.TurnTaken | internal/application/usecases/release_next_work.go:114-131 | one turn either finds the unit to release or heals an entry off the backlog |
| UseCases.HealingIsSound | internal/application/usecases/release_next_work.go:109-131 | each skipped entry ends equal to its unit, every other entry is untouched, and the chosen one has a minimal CPT among the rest |
| UseCases.WhyRefused | internal/application/usecases/release_next_work.go:109-131 | the pool's refusal, seen on the stored tables with the visited entries healed: drained, full, or a unit missing |
| UseCases.ReleaseOnce | internal/application/usecases/release_next_work.go:77-107 | hands out and announces a pending unit, none still pending being more urgent, which is one release of the specification; or says why not, as above, and leaves no trace |
| UseCases.CompleteOnce | internal/application/usecases/record_completion.go:65-105 | completes a Released unit and its entry, if its pool has one, and announces it; or says why not (unknown, completed before, not released, a lost race, a failed step) and leaves no trace |
| UseCases.Enqueue | internal/application/usecases/pool_retry.go:28-41 | only lost races are retried, and all of them until twelve were lost or a wait was cut short; the success and the refusals are those of one attempt, and a success has its effect once |
| UseCases.ReleaseNextWork | internal/application/usecases/release_next_work.go:56-73 | the same for a release |
| UseCases.RecordCompletion | internal/application/usecases/record_completion.go:46-63 | the same for a completion |
| UseCases.AttemptCounts | internal/application/usecases/pool_retry.go:28-41 | each lost attempt is one overtaken save, so that the twelve are counted in what happened to the saves |
| InboundEvents.ObserveInventoryChange | internal/application/usecases/observe_inventory_change.go:40-54 | mark and delta are committed together or not at all, and only a failed step makes it fail; where no rollback and no releaser can undo the mark, a failure leaves at most the mark |
| InboundEvents.ApplyTaskCompleted | internal/application/usecases/apply_task_completed.go:65-82 | applied, already processed and unknown unit are told apart by the stored state; a success leaves the mark, a failure none wherever marks can be undone |
| InboundEvents.EnqueueRequests | internal/application/usecases/apply_order_allocated.go:84-105 | every line's path is checked before anything is enqueued, and one unknown path fails the event; request i has the id "{order}-line-{number}" and the line's path, sku and gift wrap, with the promise date as CPT and the order as reference |
| InboundEvents.EnqueueAll | internal/application/usecases/apply_order_allocated.go:66-80 | the lines not yet stored are enqueued in their order, repeats are skipped, and in the end every line is stored |
| InboundEvents.LineNamesDiffer | internal/application/usecases/apply_order_allocated.go:84-105 | lines of different numbers or orders never share a work unit |
| InboundEvents.LineOpsAdd | internal/application/usecases/apply_order_allocated.go:60-105 | enqueueing lines of an order adds entries and units of those lines only, each with the line's CPT, reference and sku |
| InboundEvents.ApplyOrderAllocated | internal/application/usecases/apply_order_allocated.go:60-82 | mark and all lines commit together: every line then has its entry under "{order}-line-{number}", every new entry and unit is that of a line, and all else is as it was; it fails only for an unknown path, an order without an id, or a failed step, leaving nothing in a transactional wiring and no mark wherever marks can be undone |
| Ledger.StepKeeps | internal/application/usecases/release_next_work.go:77-131 | every operation keeps units and entries filed under each other, no entry ahead of its unit, and agreement where it held |
| Ledger.RunKeeps | internal/application/usecases/record_completion.go:65-105 | so does every sequence of operations, from any state whose entries only lag, and it keeps the WIP limit |
| Ledger.HandoutConservation | internal/application/usecases/release_next_work.go:77-107 | the number of WorkReleased events of a unit grows exactly as the unit leaves Pending |
| Ledger.VersionCounts | internal/adapters/outbound/postgres/work_pool_repo.go:66-99 | a pool's version counts the committed operations of its path, its size the enqueues |
| Ledger.ReleaseIsMostUrgent | internal/domain/release/work_pool.go:122-150 | at a committed release the released CPT is no later than any entry still pending |
| Ledger.QuantityIsSumOfDeltas | internal/adapters/outbound/postgres/inventory_view_repo.go:23-37 | a SKU's quantity moves by exactly the deltas applied |
| RowHistory.HistoryCounts | internal/adapters/outbound/postgres/work_pool_repo.go:66-99 | over any history of one stored pool the version counts the saves, the size the enqueues, and no entry is handed out twice |
| RowHistory.HistoryWithinLimit | internal/application/usecases/release_next_work.go:114-131 | no history of enqueues, healing releases and completions takes a pool over its WIP limit |
| PoolRuns.PoolIsItsHistory | internal/application/usecases/pool_retry.go:28-41 | no lost update, whatever ids are used where: in any concurrent run a stored pool is what the committed operations on it, each allowed in its turn, made of it |
| PoolRuns.EverySaveCounts | internal/adapters/outbound/postgres/work_pool_repo.go:66-99 | in any run a pool's version counts its committed saves and its size the committed enqueues |
| PoolRuns.OneHandoutPerPath | internal/application/usecases/release_next_work.go:77-107 | in any run at most one WorkReleased per path and id is committed, and only as the entry leaves Pending |
| PoolRuns.WipBound | internal/application/usecases/release_next_work.go:114-131 | in any run a release-fed pool that starts within its limit stays there, so its remaining capacity is not negative |
| PoolRuns.SaveSawWhatIsStored | internal/adapters/outbound/postgres/work_pool_repo.go:66-125 | torn reads are harmless: when the version check of any save passes, before or after a unit was chosen, the pool it was computed from is the stored one, healed as far as it got |
| PoolRuns.EventsAreAtomic | internal/application/usecases/apply_integration_event.go:32-66 | an inbound event is marked exactly when one batch that accounts for all its jobs is committed, never twice |
| Attempts.SkippedWasUnknown | internal/application/usecases/apply_task_completed.go:65-82 | a completion an event skipped was of a unit in no state committed up to that moment of its scope |
| PoolRuns.QuantityIsSumOfCommitted | internal/application/usecases/observe_inventory_change.go:40-54 | in any run a SKU's quantity is the sum of the deltas of the committed events |
| PoolRuns.PoolsOnlyGrow | internal/adapters/outbound/postgres/work_pool_repo.go:66-99 | between any two points of a run no pool loses an entry or goes back to an earlier version |
| PoolRuns.PhaseStable | internal/adapters/outbound/postgres/work_pool_repo.go:101-158 | what a transaction has loaded stays what the stored pool is, up to the version check, whatever others commit |
| Guarantees.Serializable | internal/application/usecases/pool_retry.go:28-41 | where what committed used each id on one path, the stored state is what the committed operations, each allowed in its turn, make of the initial state |
| OnePath.Serializable | internal/application/usecases/enqueue_work_unit.go:79-111 | a single run is serializable if it has put no id in two pools, whatever else was attempted |
| PathUse.SerializableIff | internal/application/usecases/enqueue_work_unit.go:79-111 | every run that starts from filed units and commits ids on the paths a deployment uses them on is serializable, exactly when no id is used on two paths |
| PathUse.ForwardIff | internal/adapters/outbound/postgres/work_unit_repo.go:28-36 | no such run takes a unit back in its life, exactly when no id is used on two paths |
| PathUse.HandedOutOnceIff | internal/application/usecases/release_next_work.go:77-107 | no such run hands a unit out twice, exactly when no id is used on two paths |
| ReusedIdRun.Reuse.NotSerializable | internal/adapters/outbound/postgres/work_unit_repo.go:28-36 | for any id and two paths: a release saves its unit over the one an enqueue stored meanwhile, and the run is not what its committed operations make of it |
| ReusedIdRun.Reuse.MovesBack | internal/application/usecases/enqueue_work_unit.go:79-111 | a second enqueue of the id sets its handed-out unit back to Pending |
| ReusedIdRun.Reuse.HandedOutTwice | internal/application/usecases/release_next_work.go:77-107 | and then the second path hands it out again |
| Guarantees.EveryCommitCounts | internal/application/usecases/enqueue_work_unit.go:79-111 | with one path per id every committed operation raises the version of its path by one, so none is overwritten |
| Guarantees.PoolAndUnitAgree | internal/application/usecases/release_next_work.go:77-131 | with one path per id entry and unit agree after every commit if they did at first, and an entry is never ahead of its unit |
| Guarantees.NothingMovesBack | internal/application/usecases/record_completion.go:65-105 | with one path per id no entry, unit or version moves backwards between two points of a run, also when a completion commits from a stale unit read |
| Guarantees.AtMostOnceHandout | internal/application/usecases/release_next_work.go:77-107 | with one path per id at most one WorkReleased is committed per unit, and exactly one once it has left Pending |
| Guarantees.SaveSawStoredUnits | internal/application/usecases/release_next_work.go:77-131 | with one path per id a passing save also healed by the stored units, and the unit it releases is the stored one: the release is allowed at that moment |
| ProtocolProof.RunFrame | internal/adapters/outbound/postgres/work_pool_repo.go:38-99 | operations confined to some paths and SKUs run alike on states that agree on those |
| ProtocolProof.PhaseStable | internal/application/usecases/record_completion.go:65-105 | with one path per id the units a session has read stay, up to the version check, the ones it would read |
| ProtocolProof.SessionStable | internal/adapters/outbound/postgres/unit_of_work.go:84-112 | an open transaction's overlay stays the effect of its own operations when others commit |
| IdReuse.EnqueueAgreesIff | internal/domain/release/work_pool.go:80-88 | an enqueue keeps pools and units in agreement exactly when no other path's pool holds its id |
| IdReuse.AgreementIff | internal/adapters/outbound/postgres/work_unit_repo.go:28-36 | operations done one after another keep agreement throughout exactly when no id is enqueued on a second path |
| OnePath.AgreementIff | internal/adapters/outbound/postgres/work_unit_repo.go:28-36 | over concurrent runs pools and units agree throughout exactly when no id comes to be in two pools |
| IdReuse.ReuseBreaksAgreement | internal/domain/release/work_pool.go:80-88 | one id on two paths: the code allows it and agreement is lost |
| LateCompletion.AnnouncementsCount | internal/application/usecases/record_completion.go:65-105 | a unit is announced complete once for reaching Completed and once more per late completion |
| LateCompletion.AnnouncedTwiceIff | internal/application/usecases/record_completion.go:65-105 | in a concurrent run a unit is announced more than once exactly when two completions of it both committed and the later one had read the unit before the earlier one's commit; without such an overlap, once |
| OverlappingRun.TwoAnnouncements | internal/application/usecases/record_completion.go:65-105 | a run of the concurrent system in which two overlapping completions are both announced |
| Outbox.OutboxRelay.Publish | internal/adapters/outbound/postgres/outbox_publisher.go:53-77 | the j-th message of the i-th encoder is the row at the sum of the earlier encoders' counts plus j, and there are no other new rows; or none at all, when an encoder or an insert fails |
| Outbox.OutboxRelay.Claim | internal/adapters/outbound/postgres/outbox_relay.go:134-170 | the oldest unpublished rows, at most a batch |
| Outbox.OutboxRelay.PublishBatch | internal/adapters/outbound/postgres/outbox_relay.go:172-204 | rows go out in id order, sending stops at the first failure, and only a failed step stops it |
| Outbox.OutboxRelay.RelayOnce | internal/adapters/outbound/postgres/outbox_relay.go:105-129 | unless a step fails the whole batch is sent and published; when a send fails what was marked before it is committed. Under all failures, crashes, and rows published by others between its statements, the first-in-first-out invariant is kept, and only what was sent is published |
| Outbox.SendKeepsOrder | internal/adapters/outbound/postgres/outbox_relay.go:172-204 | sending a row already sent, or the next one, keeps the order of first deliveries |
| Outbox.PublishedWasDelivered | internal/adapters/outbound/postgres/outbox_relay.go:105-129 | a row one relay published was delivered with its bytes |
| OutboxRelays.SinkIsPrefixOfOutbox | internal/adapters/outbound/postgres/outbox_relay.go:105-204 | in every run with at most one pass open at a time, rows appended and failures anywhere between its statements, the sink without repeats is a prefix of the outbox in id order and contains the published rows |
| OutboxRelays.PublishedWasSent | internal/adapters/outbound/postgres/outbox_relay.go:105-204 | with any number of relays a published row was delivered with its stored bytes, and every delivery carries its row's bytes |
| OutboxRelays.RowsStay | internal/adapters/outbound/postgres/outbox_relay.go:105-204 | rows are only added, keep their bytes, and stay published |
| OutboxRelays.UnpublishedIsClaimable | internal/adapters/outbound/postgres/outbox_relay.go:134-170 | an unpublished row can be claimed now, or by anyone once the one pass holding it ends |
| Idempotency.Middleware.Serve | internal/adapters/inbound/http/idempotency.go:74-140 | a fresh key commits the row, the outcome and the handler's writes together and answers the handler's response; every other outcome changes nothing, and a server error has a panic or a failed step behind it |
| Idempotency.Middleware.Replay | internal/adapters/inbound/http/idempotency.go:169-227 | the recorded response for the same body, a refusal for another; a row without outcome is never met |
| Idempotency.RetryIsReplay | internal/adapters/inbound/http/idempotency.go:169-295 | the same request twice gives the same answer and the writes once; with no failed step both answers are the handler's response |
| Idempotency.OutcomeRecordedOnce | internal/adapters/inbound/http/idempotency.go:109-140 | for any number of clients every committed key row has an outcome, and at most one run per key ever commits |
| Idempotency.ReplayFindsOutcome | internal/adapters/inbound/http/idempotency.go:169-208 | a client sent to the replay branch finds a row with its outcome |
| Idempotency.OneAnswerPerKey | internal/adapters/inbound/http/idempotency.go:109-295 | all responses ever given for a key are the same response |
| Idempotency.DifferentBodyIsNeverAnswered | internal/adapters/inbound/http/idempotency.go:185-194 | a response is only given to a body with the recorded hash |
| Idempotency.RecordedForGood | internal/adapters/inbound/http/idempotency.go:109-140 | once recorded, a key's row never changes and no further run of it commits |
| Consumer.PartitionConsumer.CallUseCase | internal/adapters/inbound/kafka/consumer.go:390-492 | a success marks the event and, the first time, adds exactly what the event asks for; a failure leaves no mark, and has a failed step behind it or an event the stored state or the catalogue does not allow |
| Consumer.PartitionConsumer.Handle | internal/adapters/inbound/kafka/consumer.go:390-492 | dispatches to the use case; a mark appears exactly when a consumed type succeeded, together with its effect, and a redelivery changes nothing |
| Consumer.ChainIsRun | internal/adapters/inbound/kafka/consumer.go:217-346 | events applied one after another make of the database what a sequence of use cases, each allowed in its turn, makes of it |
| Consumer.PartitionConsumer.HandleWithRetry | internal/adapters/inbound/kafka/consumer.go:311-321 | three runs of the handler per fetch unless one succeeds or the context ends, and a failure as above |
| Consumer.PartitionConsumer.WriteDlq | internal/adapters/inbound/kafka/consumer.go:546-559 | a write is repeated while the topic is not ready, forty times at most; success means the letter is written |
| Consumer.PartitionConsumer.DlqPublish | internal/adapters/inbound/kafka/consumer.go:330-346 | the letter carries the original key and bytes and the headers extended by topic, cause and time; without a writer nothing is written and success is reported |
| Consumer.PartitionConsumer.Dispatch | internal/adapters/inbound/kafka/consumer.go:276-305 | a message that decodes goes to its handler: if that succeeds there is no dead letter and a consumed event is marked, else the message was given up after three runs or an ended context. One that does not decode goes to the dead letters without a handler run |
| Consumer.PartitionConsumer.HandleMessage | internal/adapters/inbound/kafka/consumer.go:251-268 | the offset moves only past a message so settled, and stays only because a step failed |
| Consumer.PartitionConsumer.ConsumeLoop | internal/adapters/inbound/kafka/consumer.go:217-232 | the loop keeps every committed message accounted for, however it ends, runs the handler for each that decodes, and without a failed step reads the log to its end |
| Consumer.RunWithRestarts | internal/adapters/inbound/kafka/consumer.go:217-346 | so does any number of runs and restarts; every dead letter is of a message that does not decode or was given up, behind every mark set there is an event applied with its whole effect, and within a unit of work the applied events are all that happened to the database |
| PathCatalog.Catalogue.Lookup | internal/domain/pathcatalog/path_definition.go:80-102 | the first definition with the longest matching non-empty prefix, in lower case and followed by a dash or nothing; unknown exactly when none matches |
| PathCatalog.FamilyIffDash | internal/domain/pathcatalog/path_definition.go:104-113 | an id is of a prefix's family exactly when it begins with it and ends there or goes on with a dash |
| PathCatalog.EqualLengthMatchesAreEqual | internal/domain/pathcatalog/path_definition.go:104-113 | two matching prefixes of equal length are the same prefix |
| PathCatalog.AnswerIsUnique | internal/domain/pathcatalog/path_definition.go:80-102 | that description determines the answer |
| PathCatalog.OrderDoesNotMatter | internal/domain/pathcatalog/path_definition.go:74-102 | with one longest match every order of the definitions gives the same answer |
| PathCatalog.OrderMatters | internal/domain/pathcatalog/path_definition.go:74-102 | with two, there are two orders that answer differently |
| PathCatalog.OrderIndependentIff | internal/domain/pathcatalog/path_definition.go:74-102 | all orders of the definitions answer alike exactly when the longest match is one definition |
| PathCatalog.DistinctPrefixesSuffice | internal/domain/pathcatalog/path_definition.go:74-113 | pairwise distinct lower-cased prefixes make it one for every id |
| KafkaCatalog.FoldIsLastAbout | internal/adapters/outbound/kafkacatalog/consumer.go:330-372 | the catalogue says of a path what the last event about it says |
| KafkaCatalog.InterleavingsAgree | internal/adapters/outbound/kafkacatalog/consumer.go:286-372 | if each path's events stay on one partition, every interleaving builds the same catalogue |
| KafkaCatalog.InterleavingsAgreeIff | internal/adapters/outbound/kafkacatalog/consumer.go:286-372 | all interleavings of given partition logs agree exactly when the partitions' last words on each path come to the same |
| KafkaCatalog.SplitPathDisagrees | internal/adapters/outbound/kafkacatalog/consumer.go:286-372 | an upsert and a deactivation of one path on two partitions, where they do not |
| KafkaCatalog.ReplicasAgree | internal/adapters/outbound/kafkacatalog/consumer.go:286-372 | two consumers that read equally far hold the same catalogue |
| KafkaCatalog.CatalogueConsumer.MarkReady | internal/adapters/outbound/kafkacatalog/consumer.go:246-254 | closes the ready channel the first time only |
| KafkaCatalog.CatalogueConsumer.CheckReady | internal/adapters/outbound/kafkacatalog/consumer.go:308-328 | strikes off a partition once its target is passed, and is ready when none is left |
| KafkaCatalog.CatalogueConsumer.Next | internal/adapters/outbound/kafkacatalog/consumer.go:286-372 | one message: the fold, the targets and the ready flag stay in step, and ready is never taken back |
| KafkaCatalog.CatalogueConsumer.Run | internal/adapters/outbound/kafkacatalog/consumer.go:286-306 | the same for any delivery order and any end; without a failed step every delivery is read |
| KafkaCatalog.ReadsEveryPartition | internal/adapters/outbound/kafkacatalog/consumer.go:286-306 | so every partition is read on as often as it was delivered, up to its end |
| KafkaCatalog.CatalogueConsumer.Lookup | internal/adapters/outbound/kafkacatalog/consumer.go:261-269 | a longest match among exactly the current definitions, unknown exactly when none matches; on a tie the map's order decides |
| KafkaCatalog.ReadyMeansCaughtUp | internal/adapters/outbound/kafkacatalog/consumer.go:308-328 | ready exactly when every partition with a backlog was read up to its end, and the channel is closed exactly then |
| KafkaCatalog.ReadyHandledBacklog | internal/adapters/outbound/kafkacatalog/consumer.go:225-254 | once ready, every message below a start-up target has been handled |
| Analytics.HourBucket | internal/adapters/outbound/analyticsstore/memory_store.go:52-54 | rounds down to the hour |
| Analytics.MemoryStore.FirstApply | internal/adapters/outbound/analyticsstore/memory_store.go:59-68 | marks the id and moves the watermark only for a first delivery |
| Analytics.MemoryStore.Apply | internal/adapters/outbound/analyticsstore/memory_store.go:70-137 | a first delivery bumps its one counter, a repeat changes nothing |
| Analytics.MemoryStore.RunQuery | internal/adapters/outbound/analyticsstore/memory_store.go:142-164 | exactly the rows of the hours and the path asked for, each once; an empty path asks for all |
| Analytics.CountersAreDistinctIds | internal/adapters/outbound/analyticsstore/memory_store.go:59-137 | each counter is the number of distinct event ids of its kind, path and hour, and all counters sum to the number of ids seen |
| Analytics.OnlyTheFactsMatter | internal/adapters/outbound/analyticsstore/memory_store.go:59-137 | repeating and reordering the stream changes no row and no watermark when an id stands for one event |
| Analytics.WindowsPartition | internal/adapters/outbound/analyticsstore/memory_store.go:139-164 | windows [a,b) and [b,c) split the rows and totals of [a,c) |
| Analytics.AlignedWindowIsByTime | internal/adapters/outbound/analyticsstore/memory_store.go:52-54 | on hour boundaries a query selects an event's row exactly when it contains the event's time and asks for its path |
| DerivedIds.LineIdInjective | internal/application/usecases/apply_order_allocated.go:84-105 | the derived work unit id determines order id and line number, for every order string and integer |
| DerivedIds.DigitsDenote | internal/application/usecases/apply_order_allocated.go:84-105 | the digits denote the number, without a leading zero |

## Left out

- Network, SQL text, the Kafka client, HTTP routing, telemetry, charts and boot wiring are plumbing over libraries not modelled here.
- Circuit breakers, timeouts, jitter and backoff delays only bound waiting; the retry bounds themselves are modelled.
- The shift-plan, charge-forecast, rebalance and labour-view use cases settle by reading one branch, and float arithmetic is left with them. The workforce topic's handler has the shape of the inventory one and is not repeated.
- Integers are unbounded: the widths of versions, offsets and quantities are not modelled.
- A commit whose acknowledgement is lost is, to the database, a commit followed by a crashed client; the client's own view of it is not modelled.
- Outbox rows are visible in id order: a transaction that commits after one with a higher id, and order across two relays, are outside the ordering theorem. The attempt counter and last-error columns are not modelled.
- Without a unit of work the pool and the unit are saved separately; no cross-aggregate atomicity is claimed for that wiring.
- Entries healed during a release that ends in an error are discarded with the loaded pool; nothing is claimed to persist.
- Ties among equal CPTs after rehydration come back in any order, since the rows are ordered by CPT only.
- The analytics consumer marks before it applies, so exactly-once there is not claimed. Its rows are values replaced in a map, not shared counters.
- Guarantees.Serializable: needs what committed to have used each work unit id on one path, because a unit is stored by id alone; `PathUse.SerializableIff` says that it fails for any other use of ids, and `PoolRuns` what holds all the same.
- Guarantees.PoolAndUnitAgree: starts from units and entries that name each other, so a unit without a pool entry, which `completePoolEntry` tolerates, is only covered by `PoolRuns` and `UseCases`.
- Idempotency.Middleware.Serve: the stored method and path are not modelled, because no branch compares them; a handler that fails after partial writes still commits its error response with those writes.
- KafkaCatalog.CatalogueConsumer.Run: reads each partition once and in order, as a fresh consumer group does; a rebalance that redelivers is not modelled.
- Consumer.PartitionConsumer.ConsumeLoop: ends when the modelled log is exhausted, where the source would wait for the next message.
