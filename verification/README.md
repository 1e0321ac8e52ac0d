# s3db, verified

s3db is a replicated SQLite database. One manifest object, replaced only by compare-and-swap, points
at a snapshot and an ordered log of changesets; any number of clients keep a local copy in step with
it. This project models the protocol, the client code that runs it and the stores it runs on, and
proves what they keep.

## How it is built

| file | what it holds |
|---|---|
| `Changesets.dfy` | databases, changesets, diff, all-or-nothing apply, rebase |
| `Transactions.dfy` | user transactions; when replaying a changeset equals running the transaction again |
| `Connections.dfy` | a connection with its recording session: `capture` and `applyChangeset` as loops |
| `Manifests.dfy` | the manifest, `validate`, and what follows for a history of manifests |
| `Protocol.dfy` | the transition system: one store, any number of clients, 18 actions |
| `Frames.dfy` | what an action may change |
| `Invariant.dfy`, `Steps.dfy`, `Swapping.dfy` | the invariant, and which actions keep it |
| `Writes.dfy` | what a manifest write does, whoever makes it |
| `Theorems.dfy` | the results about whole runs |
| `GarbageCollection.dfy` | which blobs must stay present, and which sweeps are safe |
| `Counterexamples.dfy` | concrete runs in which the code as written, or a comment, goes wrong |
| `Session.dfy`, `Updates.dfy`, `Maintenance.dfy`, `Migrations.dfy`, `Sweep.dfy` | the client code as methods |
| `Download.dfy`, `MemStore.dfy`, `FsStore.dfy` | the parallel download and two blob stores |

**The transition system.** `Next(w, a)` is the world after action `a`. What an action does not
determine is a parameter of it: the UUID drawn, what the transaction, migration or pushed file
contained, how the store answered (including a failed Put that did or did not take effect). The store
remembers every manifest it ever held, every event that wrote one, and what was written under each
name (`content`); `live` says which names are still present. `connAt` and `mAt` in a client are
history variables that no branch reads.

**The client code.** In the methods every store access is one action, and between two accesses
`Interfere` lets the other clients take any sequence of actions. So each call is a run
(`Ran(before, after, id, safe)`), and everything proved of runs is true of it. `Reachable(w)` says
that some safe run from an empty store leads to `w`.

**Failures.** Each client has an `oracle`, which says how its environment answers its calls one after
the other: the store, the context, the local disk; `clock` counts them, and `Ask` reads the next
answer. So a call that reports failure has to say why: `Fault` (between the call and its return the
oracle answered with a failure), `Lost` (a blob was missing that a manifest stored during the call
names, which is what an ill-timed sweep does), or what the source itself calls an error (another schema
version, fn or `Up` failed, the retries ran out). An operation that gives up without such a reason, or
reports the wrong outcome, does not meet its contract. Snapshot swaps in history carry the client that
wrote them (`author`), so that a call that reports no success can be shown to have left nothing.

## The rollback

`doUpdate` advances `localSeq` for entries it rebased inside the still open savepoint (commit.go:269).
A later rollback takes those entries out of the database but leaves `localSeq` advanced, so the next
incremental sync skips them. `World.restoreSeqOnRollback` is a switch for this: off is the code as
written, on puts `localSeq` back. A rollback that keeps the connection is `Safe` if the switch is on, or
no entry was rebased, or the rebased entries cancel out (the replay of the held manifest is the
savepoint's database); a rollback followed by a full refresh is safe in any case. The results:

* after a rollback the cache is the database that (snapshotKey, localSeq) name if and only if the
  rollback is safe (`RollbackFaithful`, `RollbackTruth`; `Truthful` speaks of contents, not of history
  variables);
* with the switch on every run is safe (`RestoringRunsAreSafe`);
* whatever the switch, a run keeps the invariant at every step if and only if it is safe, and if and
  only if no rollback of it leaves an untruthful cache (`GoodRunIffSafeRun`);
* with the switch off, an Update that did not rebase over somebody else's commit is safe (`Update`), and
  a concrete run that did ends in a manifest that no client can replay
  (`StaleRollbackWedgesDatabase`).

The theorems about runs are stated for safe runs. `Interfere` lets the others take safe actions only;
with the switch on that is no restriction.

## Where the code and its documentation part

* apply.go:16-18 promises serializable isolation. A rebase compares written cells only, so it holds
  for every commit that captured on the state it follows, and for a rebased one if the transaction
  depended, on the state it ran on, only on the cells it wrote (`SerialEquivalence`); that condition
  is exact (`ReplayIsRerun`), ordinary updates meet it (`IncrementIsWriteLocal`), and `WriteSkew` is a
  run without it.
* commit.go:240-245 speaks of rows. The exact condition is about cells: an INSERT or DELETE touches
  the whole row, an UPDATE only the cells it changed (`RebaseExact`).
* pullpush.go:141-144 lets a reader think that Push overwrites nothing committed since the Pull. The
  Seq guard sees changesets only, not another Push or a migration (`PushGuard`, `PushDiscardsPush`).
* gc.go:24-27 calls GC safe beside any writer. It is not: beside a compaction followed by an Update it
  deletes a changeset in use (`SweepDeletesCurrentEpoch`), and beside a compaction that has uploaded
  its snapshot but not yet written the manifest it deletes that snapshot, which then becomes the stored
  one (`SweepDeletesPendingSnapshot`). `SweepStepExact` says exactly when a sweep step is harmless, and
  `LosingPendingIsFatal` that losing a pending blob is as bad as losing a current one.
* commit.go:102 checks the schema version, the reload at commit.go:220 does not
  (`UpdateCommitsUnderForeignSchema`). `Update` says exactly when a commit is under the client's
  version.
* blob.go:29-31 allows GetRange to return the whole object. sync.go:101-106 then writes a wrong file,
  unless only the first part is so answered or the object is empty (`DownloadParallel`).

## Model

| member | source | states |
|---|---|---|
| Changesets.CaptureReplays | session.go:33-80 | a captured changeset applies to the database it was captured on and gives exactly the transaction's result; it is empty exactly when nothing changed |
| Changesets.ReplayRecaptures | session.go:33-80 | the inverse: diffing before and after an applied minimal changeset gives that changeset back |
| Changesets.RebaseOne | commit.go:240-260 | a foreign changeset goes in over our changes iff the two share no cell, and then both orders give the same database |
| Changesets.RebaseExact | commit.go:246-260 | the same for any sequence of foreign changesets, with our changeset still applying after all of them |
| Transactions.ReplayIsRerun | commit.go:262-272 | the exact condition: wherever a transaction's recorded changeset applies it does what the transaction does there, iff on the database it ran on the transaction depended only on the cells it wrote |
| Transactions.ReplayIsRerunAt | commit.go:262-272 | on one database: replay equals running again iff the transaction would record the same changeset there |
| Connections.Conn.WriteChangeset | session.go:49-77 | the rows a recording session touched, compared with their originals, are exactly the diff; no-op changes are elided |
| Connections.Conn.Capture | session.go:33-80 | running any list of statements and capturing gives the diff of before and after, which replays |
| Connections.Conn.ApplyChangeset | apply.go:45-73 | change by change in any order: success exactly when every before-image matches, and then the whole changeset is in; otherwise a row that mismatches and nothing changed |
| Manifests.Validate | manifest.go:83-119 | accepts exactly the valid manifests, of which no complaint is true; a rejected one gets a complaint that is true of it, and a rejected log entry is the first bad one |
| Manifests.AppendIsDisciplined | manifest.go:124-131 | appending at Seq + 1 keeps validity and extends the log by one entry under the same snapshot and schema |
| Manifests.NeedOfValid | sync.go:139-145 | selecting `Seq > fromSeq` in a valid manifest is taking the unread suffix |
| Manifests.SameEpochIsPrefix | commit.go:54-56 | manifests that share a snapshot key are one run of appends: same schema, older log a prefix of the newer, Seq differing by the number of appends |
| Manifests.NoAba | blob_mem.go:111-128 | in a history two ETags are equal exactly at the same position |
| Manifests.Monotone | migrate.go:158-165 | Seq and schema version never go backward |
| Manifests.EqualSeqMeansNoAppend | pullpush.go:173-176 | equal Seq at two positions means that only snapshot swaps lie between them |
| Manifests.SeqAndSnapshotPinPosition | commit.go:54-56 | Seq and snapshot key together are equal exactly at the same position |
| Steps.SyncAgrees | commit.go:46-92 | cache agreement: a successful sync leaves the replay of the loaded manifest on both paths, a failed one nothing or a database that is what (snapshotKey, localSeq) say |
| Steps.RollbackFaithful | commit.go:303-311 | after a rollback the cache is what (snapshotKey, localSeq) name iff `localSeq` is restored, or nothing was rebased, or what was rebased cancels out |
| Swapping.StepIsGoodIffSafe | commit.go:131-311 | from a good world, each of the 18 actions leads to a good world iff it is not an unsafe rollback |
| Theorems.RollbackTruth | commit.go:276-311 | every rolling-back action, with or without a hidden commit, leaves a cache that is what it claims to be iff it is safe |
| Theorems.GoodRunIffSafeRun | commit.go:262-311 | a run is good at every step iff none of its steps is an unsafe rollback, iff no rollback of it leaves a cache that is not what it claims to be |
| Theorems.RestoringRunsAreSafe | commit.go:269-291 | with `localSeq` restored on rollback every run is safe |
| Theorems.WholeSystemRefinement | commit.go:131-311 | in every safe run of any number of clients every manifest ever stored replays without conflict, to the fold in commit order of all transactions, pushes and migrations so far |
| Theorems.HistoryIsDisciplined | manifest.go:83-144 | over runs: valid manifests, each an append or a swap of the previous one with a fresh snapshot, monotone counters, prefixes within a snapshot, no ABA |
| Theorems.CasReplacesWhatWasLoaded | commit.go:199-201 | no manifest write is unconditional, and its condition holds iff the stored manifest is the one its writer loaded |
| Theorems.RebaseInvariant | commit.go:240-272 | before every CAS, after any number of clean rebases, the changeset applies to the replay of the held manifest and the local database is that result |
| Theorems.OperationsSeeReplay | migrate.go:49-129 | fn, compaction, `Up` and a sweep start from the replay of the loaded manifest; `Up` never sees a database a losing `Up` touched |
| Theorems.SyncAgreesInRuns | commit.go:46-92 | cache agreement at every sync of every safe run |
| Theorems.SerialEquivalence | commit.go:166-212 | a commit equals running fn on the preceding state iff fn would record the same changeset there; so it does if captured there, and after any clean rebases if on its base fn depended only on the cells it wrote |
| Theorems.AtMostOnce | commit.go:199-217 | a call commits at most once, exactly once if it reports success, never on conflict or nothing to do, even when a failed Put hid a success |
| Theorems.EachBlobCommittedOnce | commit.go:188-200 | no changeset blob is appended twice |
| Theorems.CompactionStutters | compact.go:75-87 | a landed compaction keeps Seq, schema version and contents of the manifest it replaced |
| Theorems.MigrationReplacesWhatItSaw | migrate.go:150-175 | a landed migration turns the state `Up` saw, which is the preceding state, into what `Up` left; versions land once, increasing |
| Theorems.SchemaMovesByMigrationOnly | migrate.go:150-165 | the schema version is the same at two positions of a run iff no migration landed between them |
| Theorems.PushGuard | pullpush.go:166-194 | a push guarded by a pulled Seq discards no changeset committed since; nothing at all happened since iff the snapshot key is also unchanged; if only compactions happened, what it replaced is what was pulled |
| Theorems.CreatedOnce | s3db.go:173-199 | however many bootstraps race, exactly the first manifest is a creation |
| Theorems.DeadForever | commit.go:183-186 | a blob no manifest names and no operation holds is never named again |
| Theorems.OrphanDeletesAreSafe | commit.go:183-186 | the blob `doUpdate` deletes is in no past, present or future manifest |
| GarbageCollection.NoLiveKeyInForeignEpoch | gc.go:78-92 | every log key lies in the manifest's own epoch |
| GarbageCollection.SweepStepExact | gc.go:71-127 | a sweep step is harmless iff: for an epoch, it is not the stored manifest's, or that has no log entry and no pending one; for a snapshot, it is neither the stored one nor one whose manifest write is pending |
| GarbageCollection.LosingPendingIsFatal | gc.go:103-127 | if a blob is lost whose manifest write is pending, that write still succeeds and stores a manifest that cannot be read |
| GarbageCollection.GoneForever | gc.go:24-27 | a deleted blob never comes back, whatever anyone does |
| GarbageCollection.StepKeepsAvailable | gc.go:28-131 | every action keeps present all blobs that the stored manifest names and that a pending write may still name, unless it sweeps across a swap |
| GarbageCollection.GcIsSafe | gc.go:19-27 | in every run whose sweeps overlap only Updates and Views every blob of the stored manifest is present in every state |
| Counterexamples.StaleRollbackWedgesDatabase | commit.go:262-291 | a run of the code as written after which the stored manifest does not replay |
| Counterexamples.WriteSkew | apply.go:14-21 | a run with a clean rebase whose result is not fn run on the preceding state, for an fn that read a cell it did not write |
| Counterexamples.PushDiscardsPush | pullpush.go:149-151 | a run in which a push guarded by a pulled Seq overwrites another push |
| Counterexamples.IncrementIsWriteLocal | commit.go:262-272 | an ordinary UPDATE meets the condition for serial equivalence exactly where it changes something |
| Counterexamples.SweepDeletesCurrentEpoch | gc.go:28-92 | a run in which a sweep deletes a changeset the stored manifest names |
| Counterexamples.SweepDeletesPendingSnapshot | gc.go:103-127 | a run in which a sweep deletes a snapshot that a compaction has uploaded, and the compaction then makes it the stored one |
| Counterexamples.UpdateCommitsUnderForeignSchema | commit.go:220-237 | a run in which a client at schema version 0 commits to version 1 |
| Session.Db.CollectNeeded | sync.go:139-145 | the loop collects exactly the unread entries in order |
| Session.Db.ApplyBodies | sync.go:174-182 | applies in order up to the first conflict; the Seq returned is that of the last entry applied |
| Session.Db.ApplyLog | sync.go:138-183 | success iff all needed entries are in; in every case the Seq returned is that of the last entry in the database, and all entries up to it are in; it stops short only if a call failed, a blob of the log was gone, or the tail does not apply |
| Session.Db.SyncToManifest | commit.go:46-92 | whatever the others do meanwhile, it is one sync step of the protocol; from a reachable world the cache ends faithful or absent, on success equal to the replay of the manifest, and failure means that a call failed or a blob of the manifest was gone: no log ever conflicts |
| Session.Db.RefreshManifest | commit.go:97-115 | on success the manifest is at the client's schema version, and the cache is a state of the database that was current at some moment of the call; failure means trouble with the store, no database, or one that was at another schema version during the call |
| Session.Db.View | s3db.go:239-260 | fn sees a state that was current at some moment of the call, or the refresh had a reason to fail |
| Updates.DropOrphan | commit.go:183-186 | the blob of a lost attempt is gone unless the store failed, and the client is otherwise where it was |
| Updates.CaptureAndUpload | commit.go:166-196 | ends with nothing to commit iff fn changed nothing, with an error only if fn or the store failed, or with an uploaded changeset over an open savepoint |
| Updates.TryCas | commit.go:198-217 | on success fn's effect on the captured state is the last event and the held manifest the last one; on 412 nothing changed; any other answer means from a reachable world that the call failed, and rolls the savepoint back |
| Updates.RebaseOnto | commit.go:246-272 | the rebase loop over the reloaded log ends ready for another CAS, rolled back for a resync, or, only if a fetch failed or the blob was gone, with the savepoint open |
| Updates.AfterLostCas | commit.go:219-282 | a lost CAS leads to a clean rebase, a resync with the old blob as orphan, or the recorded end of the call, which a safe call from a reachable world meets only in trouble |
| Updates.DoUpdate | commit.go:131-291 | the whole loop is a run of the protocol that ends the call with its outcome on record: success with fn's effect as the last event, nothing to commit with a database in which fn changes nothing; safe unless `localSeq` is not restored and the call rebased, which from a reachable world means past somebody else's commit; `moved` from a reachable world means that the snapshot was swapped; a safe call from a reachable world reports nothing to commit only if fn changes nothing in a state at or after the loaded position, a conflict only if history grew by as many manifests as it had retries, an error only if fn failed on such a state or a store access failed |
| Updates.Update | s3db.go:277-289 | whatever `localSeq` does, a call past its refresh ends with its outcome on record, success with fn's effect as the last event, nothing to commit with a database in which fn changes nothing; from a reachable world, and unless `localSeq` is not restored and somebody else committed meanwhile: committed means exactly one history position, holding the diff of fn on its base, applied to the state before it; conflict or nothing to commit means none, and every outcome but success has the reason stated for `DoUpdate`, or the refresh had one; the commit is under the client's schema version iff no migration landed since the load at `at`, and always unless the reload of commit.go:230 found another snapshot, which it did iff the commit is on another one |
| Maintenance.CompactLocked | compact.go:35-96 | for any number of lost rounds a compaction that reports success was a stutter step of this client during the call; there is nothing to compact only if a manifest stored during the call has an empty log, it is the one held, and the connection is its state; a conflict means that this client swapped nothing and as many manifests were written as it had retries; an error has a reason |
| Maintenance.Pull | pullpush.go:99-136 | the file is a state that was current at some moment of the call, and the Seq is that state's; failure means trouble or no database |
| Maintenance.Push | pullpush.go:153-195 | success means the file became the database directly on the manifest that was loaded and checked, with Seq and schema version kept; stale means that no swap of this client is in history since the call, and that a manifest stored during it has another Seq than expected or history grew; an error means a failed call or no database |
| Maintenance.PullEditPush | pullpush.go:90-152 | pull, edit, push with the pulled Seq: the result is the edit of the pulled state, and no changeset was committed in between |
| Migrations.ValidateVersions | migrate.go:29-36 | accepts exactly the positive, strictly increasing version lists |
| Migrations.FindNext | migrate.go:70-77 | finds the first migration above the schema version |
| Swapping.NextVersionIsLeast | migrate.go:70-77 | which in an increasing list is the least version above it, and stays the next one until the schema reaches it |
| Migrations.PlanNext | migrate.go:49-90 | a version attempted twice in a row drops the snapshot key, which forces a full refresh; success is only declared at the client's own version, failure only on a failed call, without a database, or on one that is too new |
| Migrations.ApplyMigration | migrate.go:110-175 | `Up` sees the state at the loaded manifest's position; a won CAS puts in history what `Up` made of exactly that; a refused one leaves nothing and another manifest was written; anything else means that `Up` failed on that state or a store access failed |
| Migrations.AllLanded | migrate.go:41-99 | if the schema reached the last version, nobody else migrated and the client landed each migration in its turn, it landed every listed version above the schema at the start |
| Migrations.RunMigrations | migrate.go:26-99 | always a safe run in which every migration this client landed is what the caller's `Up` of that version made of the database it replaced, and from a reachable world the next one of its list; success means that a manifest stored during the call is at the client's version, the local database is its state, and, if nobody else migrated, every listed version above the schema at the start was landed; failure has a reason, or every allowed round saw another manifest written |
| Sweep.GroupByEpoch | gc.go:136-149 | exactly the epochs with a listed key, each with exactly its keys in order |
| Sweep.LiveChangesets | gc.go:39-42 | the set of keys in the log |
| Sweep.HasLive | gc.go:82-88 | true iff some key of the epoch is live |
| Sweep.ForeignEpochIsDead | gc.go:78-95 | in reachable worlds the live test is never true for another epoch |
| Sweep.DeleteEpoch | gc.go:92-96 | unless it fails, no blob of the epoch is present right after |
| Sweep.DeleteSnapshot | gc.go:125-127 | unless it fails, the snapshot is absent right after |
| Sweep.IsOld | gc.go:56-66 | a yes means that the name is as old as the grace period; a no, that it is not, or was absent when asked for, or its age could not be had |
| Sweep.SweepEpochs | gc.go:68-101 | its own steps are sweep steps that spare the loaded epoch and snapshot; on success no changeset of another epoch that was present at the call or at the listing is present at the end; failure means a failed call |
| Sweep.SweepSnapshot | gc.go:108-128 | one listed snapshot: the loaded one and a too young one are spared; one that is due is absent afterwards if all calls were answered |
| Sweep.SweepSnapshots | gc.go:103-128 | on success, and if with a grace period every age could be had, no superseded and old enough snapshot that was present at the call or at the listing is present at the end; failure means a failed call |
| Sweep.Gc | gc.go:28-131 | a refresh, then a run whose own steps are all sweep steps sparing the epoch and snapshot of a manifest current at some moment of the call, every epoch while that snapshot is younger than the grace period, and every snapshot that is; on success, and if with a grace period every age could be had, nothing that is due and was present at the call or after the refresh is present at the end; failure has a reason; if the others only updated and viewed, every blob of the stored manifest is still present |
| Download.RangesTile | sync.go:87-100 | every byte below the size is in exactly one range, and no range reaches further |
| Download.DownloadParallel | sync.go:86-126 | for every interleaving and every cutting of the streams: with ranges honoured the finished file is the object up to the size hint; for any choice of parts answered with the whole object, it is the object iff it is empty, or no part but the first is so answered and the hint suffices or the first one is |
| Download.DownloadSingle | sync.go:71-84 | for every cutting of the stream the file is what has arrived, and success means exactly the whole object |
| Download.DownloadSnapshot | sync.go:43-69 | the parallel form equals the single GET for every size hint that is not smaller than the object; a hint of 0 or below 4 MiB gives the whole object |
| MemStore.MemBlobStore.Get | blob_mem.go:39-53 | the stored body and its hash, or not found |
| MemStore.MemBlobStore.GetRange | blob_mem.go:55-76 | the exact range, clamped to the object |
| MemStore.MemBlobStore.Put | blob_mem.go:92-129 | writes iff the condition holds of the present object; a refused write changes nothing |
| MemStore.MemBlobStore.List | blob_mem.go:131-146 | exactly the names with the prefix, in strict lexicographic order |
| MemStore.LessIsLexicographic | blob_mem.go:131-146 | one name is before another iff where they part it ends or has the smaller character |
| MemStore.MemBlobStore.Delete | blob_mem.go:148-157 | removes the name if present and nothing else |
| MemStore.MemBlobStore.DeletePrefix | blob_mem.go:159-172 | removes exactly the names with the prefix |
| MemStore.ManifestPutRefines | blob_mem.go:108-128 | the protocol's manifest write is refused under exactly Put's condition, and where it lands the objects represent the extended history |
| MemStore.BlobPutRefines | blob_mem.go:108-128 | the protocol's blob upload is an unconditional Put |
| MemStore.DeleteRefines | blob_mem.go:148-157 | the protocol's blob delete is Delete |
| MemStore.DeletePrefixRefines | blob_mem.go:159-172 | the protocol's epoch sweep is DeletePrefix |
| FsStore.StepKeeps | blob_fs.go:361-587 | every filesystem call of every process keeps the tree whole, the lock exclusive, staged files intact and the visible blobs equal to the flat map |
| FsStore.RefinesFlatMap | blob_fs.go:361-495 | for every interleaving, with errors and crashes anywhere, the visible blobs are a flat map on which each Put and Delete took effect atomically; the same operations on the reference store, under any naming of the paths, get the same answers and leave the same objects |
| FsStore.BlobsChangeAtomically | blob_fs.go:402-451 | visible blobs change only at a rename whose condition the reference store would accept then, or at a removal, both under the lock |
| FsStore.TempKeepsChainAlive | blob_fs.go:454-495 | from its creation to the rename a staged file keeps its whole directory chain, whatever is pruned |
| FsStore.CheckedPutLands | blob_fs.go:402-451 | for prefix-free keys a Put that passed its check always lands |
| FsStore.NoCollisions | blob_fs.go:82-89 | for prefix-free keys no target is a directory and no needed directory is a blob |
| FsStore.PutAloneLands | blob_fs.go:361-495 | for prefix-free keys, from every reachable state in which nobody holds the lock, a Put that runs alone ends with the reference store's answer, and with its body in place iff that is success |
| FsStore.DeleteAloneLands | blob_fs.go:532-590 | and a Delete that runs alone removes its blob and nothing else, and leaves no directory above it empty |

## Left out

- SQLite itself: SQL, VACUUM (identity on contents), triggers, UNIQUE and foreign-key constraints, page format; apply is atomic and a savepoint rollback exact.
- DDL inside Update, tables without a primary key (session.go:63-73), and a transaction that commits by itself: a transaction here changes rows of unchanged width.
- blob_s3.go and the AWS SDK: only the contract of blob.go:12-56 is used.
- JSON, MD5 and UUID: an injective encoding, an injective non-empty hash and fresh names; ETag normalisation is the identity.
- Backoff, jitter, context cancellation and interrupts: any store access may fail, and the wait between two rounds may be cut short.
- Wall-clock time: GC is given the time it began and the time each name was written.
- Updates.DoUpdate and Updates.Update: no reason is claimed for an error after an unsafe rollback (`localSeq` not restored and somebody else's commit rebased), because the database may then be one that no log tail applies to.
- Connections that fail to close or reopen (compact.go:59-73, migrate.go:137-148): they succeed.
- Blob sizes are the number of changes of a changeset and of rows of a database; nothing but the size hint of a download depends on them, and there the hint is arbitrary.
- Open's first download is the full-refresh sync of a client without a connection, made by its first operation; options, Stats, Seq, Close and the command line add easy members only.
- The auto-compaction hook of Update (s3db.go:291-299) is `CompactLocked` called after `Update`; the two are not put together in one method.
- Init and bootstrap are actions of the transition system, not methods; they are sequences of store accesses without a loop. That the manifest was found absent is not a step: the upload may happen at any time, and only the conditional write guards the creation.
- Sweep.SweepSnapshots and Sweep.Gc: that a deleted snapshot stays away is not stated for the bootstrap snapshot, whose fixed name a bootstrap still under way may write again.
- applyLog's and downloadParallel's goroutines: the fetches are taken one after the other with arbitrary interference (blobs are write-once); the writes of a download are in any order.
- offsetWriter objects: the offsets are one sequence indexed by part.
- Migrations.RunMigrations: the source loop is unbounded; `rounds` is the number of iterations after which the context is cancelled, for every value of it.
- Sweep.Gc: its precondition is a reachable world, because the model's sweep action looks at the loaded log where the source looks at the listed keys; in reachable worlds the two agree (`ForeignEpochIsDead`).
- DeletePrefix of an epoch is one step, as in the in-memory store; the filesystem store deletes key by key.
- FsStore: listing walks, reads and key syntax (blob_fs.go:169-206) are not modelled; a key is a non-empty sequence of names that are not temporary names.
- File descriptors, fsync, symlinks, permissions, path separators, URL parsing, error texts.
