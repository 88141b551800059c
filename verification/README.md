# CoroBase in Dafny

Models of the parts of the CoroBase/ERMIA engine whose correctness is hardest to see from the
code, with proofs about every run of each model.

* **The multi-version engine at thread granularity** (`Engine`, with `Stamps` for fat pointers and
  states and `Serializability` for dependency graphs). Any number of transactions and records; a
  step is one load, one store or one compare-and-swap of one transaction. On top of it stand two
  certifiers: the serial safety net SSN (`Ssn`, `SsnInvariant`, `SsnSteps`, `SsnTheorems`; the exact
  exclusion window in `SsnAttained`, `SsnAttainedSteps`, `SsnWatermarks`; `SsnProgress`) and backward
  validation (`Mvocc`, `MvoccProgress`), with `EngineProgress` and `Fairness` for what their wait
  proofs share.
* **Where SSN as built falls short**: `ReaderEntries` models how workers obtain their entries in the
  readers bitmaps; `SsnRuns` builds concrete runs, `SsnAnomaly` two that are not serializable and
  the exact conditions, `SsnSecondUpdate` the second update of a record that loses a version.
* **Snapshot isolation and SSI at coroutine granularity**: one worker interleaves any number of
  transactions and switches only where an operation suspends, so commit and abort are one step.
  `Snapshot` has objects with `next` pointers, OID entries, chain walks that suspend at every hop
  and updates that suspend three times; `SnapshotInvariant`, `SnapshotTheorems` prove its
  guarantees, `SnapshotValues` which values are read and when an update goes through; `SnapshotDb`
  has the loops of commit, abort and the plain read on tables changed in place. `Ssi`,
  `SsiInvariant`, `SsiTheorems`, `SsiDb` do the same for serializable snapshot isolation, `SsiExact`
  and `SsiRefusals` prove when it refuses. `SnapshotSpill` and `SsiSpill` have the runs in which a
  log spills, and the exact conditions.
* **Adler-32** (`Adler`, `AdlerScalar`, `AdlerSse`, `AdlerSseSum`): the reference of section 8.2 of
  RFC 1950, the scalar form in 64-bit arithmetic, the vector form lane by lane, the merge.
* **Benchmark ledgers**: TPC-E Trade-Result (`TradeResult`, and over sequences of trades
  `TradeOrder`), TPC-C NewOrder, Payment and Delivery (`Tpcc`, `TpccStore`, and over runs
  `TpccLedger`).
* **Index and coroutines**: phantom protection (`Phantom`), the two-level round-robin scheduler
  (`Scheduler`), key order by eight-byte slices (`KeyOrder`).

`Basics` holds two types used by several modules. `dafny verify dfyconfig.toml` checks everything.

## How the engine is modelled

A record is the sequence of its linked versions, oldest first. `Vid(o, i)` names version `i` of
record `o`; the `next` pointer of a version is position `i - 1`, the OID entry is the last
position, and unlinking drops the last position. A transaction carries its program point; the
steps of `Engine`, `Ssn` and `Mvocc` are the volatile accesses of these lines:

* begin and give back: txn.cc:31-91, txn.cc:93-120, dbcore/xid.h:79-112, dbcore/serial.h:68-70
* `Insert`, `Install`, `MarkSuccessor`, `AddToWriteSet`, `UpdateTakeX`, `EarlyUnlink`, `UpdateCopyX`,
  `Rewrite`: txn.cc:1163-1279, dbcore/sm-oid.cpp:674-805; `SecondUpdate`: txn.cc:1230-1259
* `EnterCommit`, `Draw`, `Publish`: txn.cc:166-196
* `Probe`, `LoadSettled`, `CheckSuccessor` (SSN read check): txn.cc:233-336; the same check for
  MVOCC, with `LoadStamped`: txn.cc:1007-1063
* `LoadWord` to `LoadAccess` (SSN write check): txn.cc:338-537; `PassExclusion`: txn.cc:543
* `StampSuccessor`, `StampX`, `StampClsn`, `SetCommitted`: txn.cc:571-600, txn.cc:1065-1099; the
  stamp stored is that of `GenerateClsnPtr`: dbcore/sm-object.cpp:138-153
* `PostWait`, `PostSetX`, `PostClear`: txn.cc:610-643
* `StartAbort`, `UndoRead`, `UndoSuccessor`, `Unlink`: txn.cc:122-158, dbcore/sm-oid.h:292-297
* `ReadPick` to `ReadRegister`: txn.cc:1416-1466; the MVOCC read: txn.cc:1510-1514
* `MeetInvisible` (`Ssn`, `Ssi`): dbcore/sm-oid.h:231-276, dbcore/sm-oid.cpp:1085-1180, with the stamp of
  any version the walk may pass over

Fields that are only history (who created a version, what a transaction has read, met or asked to
write, whether it passed) are marked as such at their declarations, and no step tests them. The stamp a transaction
has drawn, `cs`, is its local variable: steps of its owner compare with it, others see only `end`.

A run has a fixed `Setup`. `placed` says whether workers hold positions in the readers bitmaps;
without positions registering a reader sets no bit. `stamping` says what a version carries: the
commit stamp of its writer (`Exact`), an address in the block drawn at commit (`OneBlock`), or any
address up to the commit stamp (`Spilling`); the `sstamp` that MVOCC and SSI leave behind is that
address too, the one SSN leaves is the high watermark. `clean` says whether a new version's `sstamp`
is null; runs under SSN have it so (tuple.h:55-67). `Snapshot` and `Ssi` have the same choice as
`oneBlock`: the address of a version lies above every snapshot taken before the commit, or merely
above the snapshot of its writer.

Safety is proved by an invariant over all runs. `Evolve` says what a step of one transaction may
change for the others; facts about another transaction's checks survive every such step
(`OthersKeep`), and each kind of step re-establishes the facts of the transaction that takes it.

That a certifier lets no cycle through would also hold of one that refuses everything. So for each of
them the answer is pinned from both sides: the watermarks, access stamps and `ct3` that a test compares
are stamps of transactions that really are in the way (`WatermarksAttained`, `RunExact`), and a test
passes exactly when nobody is (`PassesExactly`, `CommitExactly`, `ReadExactly`, the two `UpdateExactly`,
MVOCC's `CheckMoves`, the phantom tests `ReadFailsExactly`, `InsertFailsExactly`, `CheckPassesExactly`).

## Assumed

* Steps are sequentially consistent; a version or a context is not reused while it can be reached
  (a context that was given back fails `verify_owner`).
* `pre_commit` draws unique, increasing stamps. For snapshot isolation and SSI no stamp equals a
  snapshot, which is one above the current log offset.
* `spin_for_cstamp` loops until its target is committed, aborted or recycled.
* At thread granularity a read may be handed any stamped version and an update may be made over
  any stamped head; the engine's visibility and first-updater-wins rules only remove runs.
* At thread granularity a transaction may abort between operations and anywhere during
  certification, which covers the early exclusion tests of reads and of pre-commit and the phantom
  test. The early test of a first update is the step `EarlyUnlink`; an update may also go on where
  the test would fail, so builds with and without these tests are covered. The failing early test of
  a second update is no step of a run; see the next section.
* Under MVOCC the progress results need that a new version's `sstamp` is null; the constructor of
  `dbtuple` sets it for SSN and SSI only (tuple.h:55-67). Serializability does not need it: there the
  field may hold anything until an overwriter writes its XID.
* SSI: a position in a readers bitmap is named by the XID of its holder. The SSI results hold with
  and without positions: at coroutine granularity `s2` and `xstamp` alone keep a pivot from committing.
* An address in the block drawn at commit is larger than every earlier log offset and at most the end
  of the block; an address in a block spilled before is larger than the offset at the begin of the
  transaction.
* Money is in cents; trade numbers fit 31 bits (benchmarks/tpce.cc:2408 keeps them in an `int`).

## Properties the code fails

* **SSN is serializable exactly with positions in the readers bitmaps and versions that carry the
  commit stamps of their writers; the code has neither** (`SerializableExactly`).
  * The loop of dbcore/serial.cpp:176-193 fills in a copy of each `tls_bitmap_infos` element, so every
    `entry` stays 0 (`AssignEntries`), registering a reader sets no bit (`RegisterAfterAssign`,
    dbcore/serial.cpp:224-236), and a writer finds no reader. `WriterCommits` is a run in which two
    committed transactions have each overwritten what the other read. `HandshakesExactly` and
    `NoReaderMissedExactly` prove that these two guarantees hold of all runs if and only if positions
    are assigned, and `ExclusionExactly` the same of the last test of certification: without positions
    it lets a transaction pass although a predecessor's stamp reaches a successor's (`UnawarePasses`),
    and refuses nobody without cause (`RefusedForCause`). `AssignInPlace` proves that the loop over references would give every entry a bit of
    its own.
  * `GenerateClsnPtr` (dbcore/sm-object.cpp:138-153) gives a version the address of its log record
    (dbcore/sm-log-defs.h:318-325, dbcore/sm-tx-log.cpp:244-247), which lies in the commit block; the
    commit stamp is the end of that block (dbcore/sm-tx-log.cpp:118-122). Only a delete carries the
    commit stamp. A reader takes the smaller number into its low watermark. `ReaderSeesBoth` is a run,
    with or without positions, in which a transaction reads a version that another one is overwriting
    and then the version that one wrote, and passes the exclusion test with its low watermark at the
    address and its high one at the commit stamp just above it. The visibility rules admit both reads:
    the reader begins after the writer has drawn its stamp, the first read passes over the head of a
    holder that is still committing (dbcore/sm-oid.cpp:1095-1147), the second finds its address below
    the snapshot (dbcore/sm-oid.cpp:1148-1177).

  The wait and progress results hold whichever of the two is the case.
* **Snapshots move if and only if a log may spill.** More than 254 log records or 512 KB go out in a
  block before commit (dbcore/sm-tx-log.cpp:195-207, dbcore/sm-tx-log.cpp:277-306,
  dbcore/sm-log-recover.h:43-44), a very large payload at once (dbcore/sm-tx-log.cpp:160-188). Its
  versions keep those addresses, so the commit puts them into snapshots taken after the spill. `Walk`
  and `Overwrite` are such runs: a transaction sees another version of a record than before, a
  suspended walk returns it, and an update goes over a concurrent committed one.
  `SnapshotStableExactly`, `SuspendedWalkExactly`, `SeesCommittedExactly` and
  `FirstUpdaterWinsExactly` prove that each guarantee holds of all runs if and only if every
  transaction's log fits one block.
* **SSI is serializable if and only if logs fit one block** (`SsiSpill.SerializableExactly`). In the
  run of `ReadNew` a transaction that writes nothing reads both versions of one record; it can be no
  pivot, so no check refuses it. `NoDangerousStructure` holds in either case.
* **An abort after a failing second update takes off a committed version.** With the early tests of
  the SSN builds (CMakeLists.txt:90-105), the second update of a record replaces the transaction's own
  version and then tests the exclusion window; if the test fails, txn.cc:1239-1246 unlinks the new
  version although the write set lists the record, and `Abort` (txn.cc:137-156) unlinks the version
  below. `SecondUpdateExactly` proves that a committed version can be lost this way if and only if
  the access stamp of the transaction's own version has reached its high watermark;
  `SecondUpdateLoses` is a run that comes to it, in which another reader raises the access stamp
  between the two loads of txn.cc:1237 and txn.cc:1251. The results about `Run` are about runs without
  such an update.

## Where code and comments differ

* dbcore/adler.cpp:297-307 calls 64 four-chunk steps the largest safe block. `MaxSafeSteps` proves
  that for the sum of a block read as a signed number. `MaxExactSteps` proves that the result of a
  block stays right exactly up to 86 steps, because the sums are cut to 32 unsigned bits before they
  are reduced and the lanes are right modulo 2^32 (`ReduceBlock`).
* The inlined update of corobase.cc:762-770 installs over a committed holder without comparing
  stamps, unlike dbcore/sm-oid.cpp:732-736. At coroutine granularity the compare-and-swap makes the
  difference invisible: `FirstUpdaterWins` holds with the inlined branch as it is.
* RFC 1950 returns an unchanged sum for an empty buffer; the code reduces it. The two agree on every
  sum that Adler-32 can produce.

## Model

| member | source | states |
|---|---|---|
| SsnTheorems.Serializable | txn.cc:210-645 | with positions in the readers bitmaps and versions that carry their writers' commit stamps, in every thread-granularity run under SSN the dependency graph (read, overwrite and anti-dependencies) of the committed transactions has no cycle |
| SsnAnomaly.SerializableExactly | dbcore/sm-object.cpp:138-153 | all runs under SSN are acyclic if and only if workers hold positions and versions carry the commit stamps of their writers |
| SsnAnomaly.HandshakesExactly | dbcore/serial.cpp:224-236 | all reachable states keep the reader/writer handshake if and only if workers hold positions |
| SsnAnomaly.NoReaderMissedExactly | txn.cc:338-537 | no certified writer ever misses an earlier reader if and only if workers hold positions |
| SsnAnomaly.WriterCommits | txn.cc:600-636 | without positions a run ends with a writer committed that missed a reader, which had committed and not yet raised the access stamp |
| SsnAnomaly.MissedIsCyclic | dbcore/serial.cpp:176-193 | its last state has a dependency cycle of two transactions, breaks the handshake and shows the missed reader |
| SsnAnomaly.ReaderSeesBoth | txn.cc:588-589 | with or without positions, if versions carry addresses below the commit stamp, a run ends with a reader committed that has seen a version and the version that overwrote it |
| SsnAnomaly.TwiceIsCyclic | dbcore/serial.h:16-26 | its last state has a dependency cycle of these two transactions |
| SsnWatermarks.WatermarksAttained | txn.cc:213-537 | in every reachable state, in every setup, the high watermark of a certifying or certified transaction is its own commit stamp, the high watermark of another certified transaction that overwrote something it read, or the stamp of an invisible version it met; its low watermark is 0, the stamp of the creator of something it read or overwrote, or the commit stamp of another certified reader of something it overwrote |
| SsnWatermarks.PassesExactly | txn.cc:543-550 | with positions, in every reachable state a transaction before the last test passes it exactly when none of those predecessor stamps reaches one of those successor stamps |
| SsnWatermarks.RefusedForCause | txn.cc:543-550 | in every setup, a transaction that the last test refuses has a predecessor stamp that reaches a successor stamp |
| SsnWatermarks.ExclusionExactly | dbcore/serial.h:16-26 | the last test is exact in all reachable states if and only if workers hold positions |
| SsnWatermarks.UnawarePasses | dbcore/serial.cpp:176-193 | the state of a run without positions in which a transaction passes although it is excluded |
| SsnWatermarks.HighIsLeast | txn.cc:231-336 | with positions the high watermark before the last test is at most every successor stamp, that of an overwriter with a larger commit stamp included |
| SsnWatermarks.LowIsGreatest | txn.cc:338-537 | with positions the low watermark before the last test is at least every predecessor stamp |
| SsnWatermarks.ReadAtCreator | txn.cc:588-589 | where versions carry the commit stamps of their writers, the stamp of a version that was read is the commit stamp of its creator |
| SsnWatermarks.ReaderFirst | txn.cc:283-313 | a certified reader of what a transaction overwrote drew its stamp before that transaction, as long as this one is not certified |
| SsnAttainedSteps.RunFrom | txn.cc:210-645 | in every state of every run watermarks, access stamps and reader bits come from the transactions they stand for |
| SsnAttainedSteps.StepFrom | txn.cc:210-645 | every step keeps that |
| SsnAttainedSteps.TakeSFrom | txn.cc:316-331 | what a reader takes from the context of an overwriter it waited for is the high watermark that this one left in the version read |
| SsnAttainedSteps.WaitedReader | txn.cc:426-440 | a reader that a writer waited for through the global table has read the overwritten version, although its position may have been handed on since the bitmap was loaded |
| SsnAttainedSteps.BitsStep | dbcore/serial.cpp:224-257 | a bit is always that of the present holder of its position, for a read not yet released |
| SsnAttained.OthersFrom | txn.cc:266-274 | steps of others leave the provenance of a transaction's watermarks, and of what its checks have in hand, as it is |
| ReaderEntries.AssignEntries | dbcore/serial.cpp:173-197 | the loop over copies claims bits and leaves every entry as it was |
| ReaderEntries.AssignInPlace | dbcore/serial.cpp:176-193 | the loop over references would give every entry a single bit of its own, disjoint from all others, unless all words are full |
| ReaderEntries.Register | dbcore/serial.cpp:224-236 | registering sets the bit of the entry, and nothing if the entry is 0 |
| ReaderEntries.RegisterAfterAssign | dbcore/serial.cpp:173-236 | after the loop as it is, registering leaves every bitmap as it was |
| SsnTheorems.EdgeRespectsWindow | txn.cc:543 | every dependency between committed transactions obeys the exclusion window: with positions and exact stamps an earlier predecessor is at most the low watermark; in every setup a later reader inherits the high watermark of an earlier overwriter, and low is below high |
| SsnTheorems.ReadWriteEdge | txn.cc:233-537 | for a reader and the overwriter of what it read: an overwriter that committed first passes its high watermark on, and with positions a reader that committed first is covered by the overwriter's low watermark, although the two check each other in parallel |
| SsnTheorems.WriteReadEdge | txn.cc:1416-1422 | the creator of a version that was read committed earlier; the reader's low watermark covers the stamp the version carries, and the creator's commit stamp if versions carry that |
| SsnTheorems.WriteWriteEdge | txn.cc:1230-1238 | the creator of an overwritten version committed earlier and is covered by the overwriter's low watermark, through the access stamp |
| SsnTheorems.Handshakes | txn.cc:602-643 | with positions, in every reachable state every committed tracked reader of a version is in its bitmap under a position that names it in the global table, or its stamp is covered by the version's access stamp |
| SsnTheorems.NoReaderMissed | txn.cc:338-537 | with positions, in every reachable state every writer that passed certification has a low watermark at least the stamp of every earlier committed reader of what it overwrote |
| SsnSteps.RunInvariant | txn.cc:210-645 | in every setup the engine invariant and the facts behind every program point, and with positions the handshake, hold in every state of every run |
| SsnSteps.StepKeeps | txn.cc:210-645 | each of the steps of each transaction, whatever address a version is stamped with, the unlink of a failing early test included, keeps that invariant for all transactions and changes for others no more than they allow for |
| SsnSteps.MeetInvisibleOwn | dbcore/sm-oid.h:231-276 | a high watermark lowered by the stamp of an invisible version keeps every fact about the transaction |
| SsnSecondUpdate.SecondUpdateExactly | txn.cc:1230-1259 | after a second update of a record some continuation of the run loses a committed version if and only if the access stamp of the transaction's own version has reached its high watermark |
| SsnSecondUpdate.SecondUpdateLoses | txn.cc:1239-1246 | in every setup a run that comes to such an update although every earlier test passed |
| SsnSecondUpdate.DoomedLoses | txn.cc:137-156 | the abort of a transaction that lists a record whose head is committed takes that version off |
| SsnSecondUpdate.NothingLost | txn.cc:122-158 | no steps of any run lose a committed version |
| SsnSecondUpdate.RunClean | txn.cc:1333-1365 | the version of a transaction's own insert has access stamp 0, so its second update never fails the test |
| SsnInvariant.OthersKeep | txn.cc:266-274 | what a transaction has found out during its checks stays true under any step of any other transaction |
| SsnInvariant.LoadSettledOwn | txn.cc:239-247 | a read whose overwriter left a stamp is covered once that stamp is taken |
| SsnInvariant.CheckSuccessorOwn | txn.cc:299-334 | waiting for an overwriter with a smaller stamp and taking its high watermark covers the read, or the check restarts; that nothing smaller is taken is `TakeSFrom` |
| SsnInvariant.ProbeOwn | txn.cc:248-307 | a read passed over because its overwriter is active, aborted or later has no earlier overwriter, also in the gap between drawing and publishing a stamp |
| SsnInvariant.AllListed | txn.cc:355-367 | when the scan of a bitmap starts, every earlier reader with a position that is not yet covered by a stamp is in the bitmap and in the global table |
| SsnInvariant.LoadWordStep | txn.cc:362-365 | loading the bitmap word by word loses no reader that still has to be covered |
| SsnInvariant.VerifyReaderStep | txn.cc:384-440 | passing over a reader, or waiting for it and taking its stamp, leaves no uncovered earlier reader behind |
| SsnInvariant.LoadAccessStep | txn.cc:533-536 | after the access stamp is taken every earlier reader of the overwritten version is covered |
| SsnInvariant.PassExclusionOwn | txn.cc:543-550 | a transaction that passes the final test has all reads and writes covered and its low watermark below its high one |
| SsnSteps.ReadStampOwn | txn.cc:1424-1434 | a read that is not tracked is one whose overwriter was decided, with its stamp taken, or one overwritten by the reader itself |
| SsnSteps.ReadRegisterOwn | txn.cc:1457-1459 | listing a read before registering it, which sets a bit only for a worker with a position, keeps the handshake |
| SsnSteps.PostSetXOwn | txn.cc:636 | raising the access stamp before leaving the bitmap keeps the handshake |
| SsnSteps.PostClearOwn | txn.cc:642 | leaving the bitmap keeps the handshake, because the access stamp covers the reader by then |
| SsnProgress.WaitsOnSmaller | txn.cc:283-313 | a transaction waits only for one with a strictly smaller commit stamp, or for one that is about to publish its stamp and itself waits for nobody |
| SsnProgress.WaitsAcyclic | txn.cc:426-438 | in every reachable state the waits form no cycle |
| SsnProgress.WaitChainEnds | txn.cc:492-512 | following waits from any committing transaction ends at a committing transaction that waits for nobody |
| SsnProgress.Progress | txn.cc:616-626 | every step of a transaction that is ending and waits for nobody brings it strictly closer to giving its context back, by a lexicographic measure over its remaining work |
| SsnProgress.NoDeadlock | txn.cc:283-626 | whenever some transaction is committing, one of them waits for nobody, can take its next step, and every step it takes is progress |
| SsnProgress.NotSetBack | txn.cc:266-334 | a step of another running transaction leaves the distance as it is, unless it frees a context or publishes a stamp, of which finitely many are left |
| SsnProgress.FinitelyManySteps | txn.cc:283-626 | in any infinite continuation without new transactions, fair or not, a transaction on its way to the end makes only finitely many steps other than waiting ones |
| SsnProgress.EveryCommitEnds | txn.cc:210-645 | fairness: in every infinite continuation of a run in which nobody begins any more and every transaction in commit or abort is scheduled again and again, every such transaction gives its context back |
| Fairness.EverybodyEnds | txn.cc:283-626 | if waits go down a fixed order, steps that do not wait come closer and set-backs are bounded, then under fair scheduling everybody ends |
| Fairness.FinitelyMany | txn.cc:283-626 | whoever comes closer with every move, between bounded set-backs, makes finitely many moves |
| EngineProgress.ProbeMoves | txn.cc:252-307 | a step of the read check that does not wait moves on to the next read or closer within this one |
| MvoccProgress.WaitsOnPublisher | txn.cc:1040-1056 | under MVOCC a transaction waits only for one that is about to publish its stamp and waits for nobody |
| MvoccProgress.WaitsAcyclic | txn.cc:1040-1056 | in every reachable state these waits form no cycle |
| MvoccProgress.Progress | txn.cc:988-1100 | if new versions are clean, every step of a transaction that is ending and waits for nobody brings it strictly closer to its end |
| MvoccProgress.CheckMoves | txn.cc:1007-1063 | the read check always has a next step, and gives up exactly at a back edge |
| MvoccProgress.NoDeadlock | txn.cc:988-1100 | whenever some transaction is committing, one of them waits for nobody and can take its next step, and if new versions are clean every step it takes is progress |
| MvoccProgress.NotSetBack | txn.cc:1026-1058 | a step of another running transaction leaves the distance as it is, unless it frees a context or publishes a stamp |
| MvoccProgress.FinitelyManySteps | txn.cc:988-1100 | without new transactions a transaction on its way to the end makes only finitely many steps other than waiting ones |
| MvoccProgress.EveryCommitEnds | txn.cc:988-1100 | fairness, if new versions are clean: scheduled again and again, every transaction in commit or abort gives its context back |
| SsnProgress.Moves | txn.cc:210-645 | no program point of commit or abort is stuck: the next step of the code is enabled |
| Serializability.ExclusionIsAcyclic | dbcore/serial.h:16-20 | stamps and watermarks that obey the exclusion window admit no cycle |
| Serializability.ForwardIsAcyclic | txn.cc:1020-1025 | edges that all go to larger stamps admit no cycle |
| Serializability.CycleHasPivot | txn.cc:1471-1474 | under snapshot rules every dependency cycle contains T1 rw T2 rw T3 with T3 first to commit |
| Serializability.NoPivotIsAcyclic | txn.cc:1471-1474 | a graph under snapshot rules without that structure has no cycle |
| Engine.CommittedVersion | txn.cc:588-589 | every version of a committed transaction carries a stamp that is at most its commit stamp: equal to it, in the block drawn at commit, or anywhere below, as the setup says |
| Engine.LoadedStamp | txn.cc:239-252 | what the `sstamp` of a version says about its overwriter: null means no earlier live one, an XID names the only candidate, a log offset is what a decided one left, its high watermark under SSN, else an address up to its commit stamp |
| Engine.ProbeAdvances | txn.cc:252-307 | the loads and tests of the read check keep what they have learned, and moving on to the next read means this one is safe |
| Engine.InstallKeeps | dbcore/sm-oid.cpp:777-791 | installing a version over a stamped head keeps the chain invariant and what others rely on |
| Engine.StampSuccessorKeeps | txn.cc:577-586 | stamping the overwritten version keeps the chain invariant |
| Engine.StampClsnKeeps | dbcore/sm-object.cpp:138-153 | stamping the new version with its commit stamp or with any address the setup admits keeps the chain invariant |
| Engine.UnlinkKeeps | dbcore/sm-oid.h:292-297 | unlinking an aborted head keeps the chain invariant |
| Engine.TakeBackKeeps | txn.cc:1239-1246 | so does unlinking a version that was just installed and is neither marked nor listed |
| Mvocc.EdgesGoForward | txn.cc:1007-1063 | whatever addresses versions carry and whatever a new version's `sstamp` holds, every dependency between committed transactions goes from the smaller to the larger commit stamp, so no overwriter with a smaller stamp is missed between drawing and storing `end` |
| Mvocc.Serializable | txn.cc:988-1100 | in every thread-granularity run under MVOCC, in every setup, the dependency graph of the committed transactions has no cycle |
| Mvocc.RunInvariant | txn.cc:988-1100 | in every reachable state the reads checked so far have no live overwriter with a smaller stamp |
| Mvocc.LoadStampedOwn | txn.cc:1018-1025 | an overwriter whose address is not below the checker's own stamp makes the read safe |
| Mvocc.ProbeOwn | txn.cc:1026-1058 | the check of an unstamped overwriter validates the read or starts over |
| SnapshotTheorems.SuspendedWalk | corobase.cc:285-391 | if logs fit one block, a walk that suspends at every hop while others install, commit and abort returns what an atomic walk would have returned at any moment since it began |
| SnapshotSpill.SuspendedWalkExactly | dbcore/sm-tx-log.cpp:277-306 | all walks of all runs do so if and only if logs fit one block |
| SnapshotTheorems.VisibleIsNewest | corobase.cc:323-375 | in every run what is seen is the reader's own write (with the value of `SeesOwnValue`), else the committed version of the record with the largest stamp not above the snapshot, else nothing |
| SnapshotTheorems.SeesCommitted | corobase.cc:323-375 | if logs fit one block, that is the newest version whose writer committed before the snapshot |
| SnapshotValues.SeesOwnValue | corobase.cc:783-800 | what a running transaction sees of a record it has written holds the value of its last insert or update of that record |
| SnapshotValues.CommittedValue | txn.cc:1102-1151 | every committed version of every run holds the value of its writer's last insert or update of the record |
| SnapshotValues.ReadsLastValue | corobase.cc:285-391 | if logs fit one block, a suspended walk hands back the last value asked for by the newest transaction that committed the record before the snapshot |
| SnapshotValues.UpdateExactly | corobase.cc:724-818 | an update installs its version exactly if the head is its own or was committed within the snapshot and is still the head, starts over exactly if the head it loaded is dead or was replaced, and dooms the transaction otherwise |
| SnapshotValues.RunValues | corobase.cc:285-827 | versions and requests agree in every state of every run |
| SnapshotSpill.SeesCommittedExactly | dbcore/sm-tx-log.cpp:195-207 | all transactions of all runs see exactly that if and only if logs fit one block |
| SnapshotTheorems.SnapshotStable | corobase.cc:285-391 | if logs fit one block, as long as a transaction runs and has not written a record, it sees the same version of it |
| SnapshotTheorems.BeginsUpToDate | txn.cc:72-89 | what a transaction sees when it begins is the last committed version of every record, spilled or not |
| SnapshotSpill.SnapshotStableExactly | dbcore/sm-tx-log.cpp:195-207 | snapshots do not move in any run if and only if logs fit one block |
| SnapshotSpill.Walk | dbcore/sm-tx-log.cpp:277-306 | a run in which the log of an updater spills, another transaction begins and starts a read, and the updater commits below its snapshot |
| SnapshotTheorems.ReturnsVisible | corobase.cc:376-388 | if logs fit one block, the object a suspended walk is about to return is the one an atomic walk would return now |
| SnapshotTheorems.VisibleStable | corobase.cc:285-391 | no step of another transaction, and no hop or suspension of its own, changes what a transaction sees, except a commit if logs may spill |
| SnapshotTheorems.FirstUpdaterWins | corobase.cc:704-827 | of any two committed versions of a record the later writer began above the stamp of the earlier one, and if logs fit one block after the commit of the earlier writer |
| SnapshotSpill.FirstUpdaterWinsExactly | dbcore/sm-oid.cpp:738-760 | committed writers of a record overlap in no run if and only if logs fit one block |
| SnapshotSpill.Overwrite | dbcore/sm-oid.cpp:738-760 | a run in which a transaction updates over a version whose writer committed after it had begun |
| SnapshotTheorems.ChainShape | txn.h:24-49 | below the head everything is committed with strictly falling stamps; an uncommitted head belongs to a running transaction that lists the record exactly once or is about to |
| SnapshotTheorems.AbortRestores | txn.cc:122-158 | abort takes exactly the uncommitted head off every record written, leaves every other chain as it was, and changes no version that stays linked |
| SnapshotInvariant.RunInvariant | corobase.cc:285-827 | chain, entry and write-set invariants, and with one block the walk invariants, hold in every state of every run, and no committed version is ever lost from its chain |
| SnapshotInvariant.StepKeeps | corobase.cc:285-827 | every step of every transaction keeps them, whatever addresses a commit stamps |
| SnapshotInvariant.InstallLinks | corobase.cc:776-818 | a version is installed in place of one's own head or above a head committed within the snapshot, despite the suspensions before the compare-and-swap; its value is the subject of `SeesOwnValue` |
| SnapshotInvariant.HopPoint | corobase.cc:307-391 | after a hop the walk stands at a version of its record, and with one block at a dead one or sees from there what it would see from the head |
| SnapshotInvariant.EndVisible | txn.cc:1102-1151 | an abort, and a commit if logs fit one block, changes nothing that another transaction sees |
| SnapshotDb.Db.SiCommit | txn.cc:1102-1151 | the loop over the write set stamps the head of every written record with its address in the log and nothing else, and is the commit step of the model |
| SnapshotDb.Db.Abort | txn.cc:122-158 | the loop over the write set unlinks the head of every written record and marks it dead and nothing else, and is the abort step of the model |
| SnapshotDb.Db.GetVersion | dbcore/sm-oid.cpp:1030-1180 | a walk that does not suspend never meets a dead version and returns the visible version |
| SnapshotDb.RunningIsReady | txn.h:138-147 | a running transaction's write set lists records once, each with a head |
| SsiTheorems.NoDangerousStructure | txn.cc:647-986 | with and without positions in the bitmaps, and whether or not logs spill, no committed run contains T1 rw T2 rw T3 in which T3 committed first, T1 = T3 included |
| SsiTheorems.Serializable | txn.cc:647-986 | with and without positions, if logs fit one block, in every coroutine-granularity run under SSI the dependency graph of the committed transactions has no cycle |
| SsiSpill.SerializableExactly | dbcore/sm-tx-log.cpp:195-207 | all runs under SSI are acyclic if and only if logs fit one block |
| SsiSpill.ReadNew | txn.cc:907-932 | a run in which a transaction that writes nothing reads a version and the one that overwrote it, and commits |
| SsiSpill.BothIsCyclic | txn.cc:907-932 | its last state has a dependency cycle, and the writer committed after the reader had begun |
| SsiTheorems.PivotIsSafe | txn.cc:794-897 | if the last of two consecutive anti-dependencies ends before the pivot, the first one ended before both |
| SsiTheorems.FollowsLater | txn.cc:1167-1170 | if logs fit one block, whoever reads or overwrites a version began after its writer committed |
| SsiSpill.FollowsLaterExactly | dbcore/sm-tx-log.cpp:277-306 | that holds in all runs if and only if logs fit one block |
| SsiTheorems.AntiOverlaps | txn.cc:1471-1507 | whoever overwrites what was read commits after the reader began |
| SsiTheorems.BeginsUpToDate | txn.cc:72-89 | the snapshot of a transaction that begins holds the last committed version of every record |
| SsiRefusals.CommitExactly | txn.cc:647-986 | in every reachable state the commit of a running transaction is refused exactly when something it listed as read was overwritten by a committed pivot, or something it has seen was overwritten by a committed transaction and somebody who created or read what it overwrote ended at or above the smallest such stamp or is listed and still running |
| SsiRefusals.ReadExactly | txn.cc:1470-1507 | a read within the snapshot is refused exactly if a committed pivot has overwritten the version |
| SsiRefusals.UpdateExactly | txn.cc:1172-1228 | an update over a head within the snapshot is refused exactly if the transaction knows of an outgoing anti-dependency and somebody else is in the way of it |
| SsiRefusals.FinalIsLeast | txn.cc:710-784 | the `ct3` that commit computes is the smallest stamp of a committed overwriter of something seen or of an invisible version met, and 0 exactly if there is none |
| SsiRefusals.MarkedExactly | txn.cc:909-925 | `s2` of a version is set exactly if a committed transaction overwrote it that has itself an earlier committed overwriter of something it had seen |
| SsiExact.RunExact | txn.cc:647-986 | in every state of every run access stamps and `ct3` are stamps of the transactions they stand for |
| SsiInvariant.RunInvariant | txn.cc:647-986 | stamps, bitmaps, watermarks and snapshots are consistent in every state of every run, whatever addresses versions carry |
| SsiInvariant.CommitHarmless | txn.cc:794-897 | when a commit marks a version as overwritten by a pivot, every other reader of it that did not overwrite it has committed before the pivot's `ct3`, or is running and has listed the version |
| SsiInvariant.CommitSeen | txn.cc:710-784 | after commit every read is covered by the access stamp or by `ct3`, and the final `ct3` is at most the stamp of every overwriter of a read that committed before |
| SsiInvariant.ReadOwn | txn.cc:1470-1507 | after a read every version read is stamped within the snapshot, its successor was not committed before the snapshot, the reader has listed it or holds the overwriter's stamp, and only a listed one can have been overwritten by a pivot |
| SsiInvariant.MeetKeeps | dbcore/sm-oid.h:231-276 | a `ct3` lowered by an invisible version keeps the invariant for everybody |
| SsiInvariant.AbortKeeps | txn.cc:122-158 | abort keeps the invariant for everybody |
| SsiDb.Db.CheckReads | txn.cc:710-792 | the loop finds the smallest stamp of a committed overwriter and fails exactly when a read was overwritten by a pivot |
| SsiDb.Db.CheckWrite | txn.cc:797-897 | the loop over the readers and the access stamp passes exactly as the test of one write in the model, whose meaning is `CommitExactly` |
| SsiDb.Db.CheckWrites | txn.cc:794-898 | the same over the whole write set, only for a transaction with a `ct3` |
| SsiDb.Db.StampWrites | txn.cc:907-932 | the loop stamps every new head and the version under it with the address of the new one, sets `s2` of the lower and `xstamp` of the upper one, and nothing else |
| SsiDb.Db.ReleaseReads | txn.cc:940-984 | the loop raises the access stamp of every read version and takes the reader out of its bitmap |
| SsiDb.Db.Commit | txn.cc:647-986 | commit succeeds exactly when reads and writes pass, which in reachable states is exactly when it would not complete a dangerous structure, and is then the commit step of the model |
| SsiDb.RunningSetsExist | txn.h:138-147 | everything a running transaction lists as read or written exists, and it lists no record twice |
| Adler.ReferenceIsExact | dbcore/adler.cpp:42-66 | the byte-by-byte modular reference equals the exact sums reduced once |
| Adler.Streaming | dbcore/adler.h:39-44 | continuing from a previous sum gives the sum of the concatenation, for every start |
| AdlerScalar.Finish | dbcore/adler.cpp:51-66 | the loop computes the exact sums modulo 2^64, reduces them once, and hands every byte on in order |
| AdlerScalar.Vanilla | dbcore/adler.cpp:85-105 | the scalar form from any starting value, with its copy |
| AdlerScalar.ScalarIsExactUpToLimit | dbcore/adler.cpp:61-65 | the single final reduction is exact for all buffers of up to n bytes if and only if n is at most 380368439 |
| AdlerScalar.OneMoreWraps | dbcore/adler.cpp:61-65 | a buffer one byte longer for which the scalar form is wrong |
| AdlerScalar.Merge | dbcore/adler.cpp:68-83 | the straight-line merge computes the merged sums modulo 2^64 |
| AdlerScalar.MergeIsConcatenation | dbcore/adler.cpp:68-83 | merging the sums of two buffers gives the sum of their concatenation if and only if the number of 64-bit wraps of the product is a multiple of 65521 |
| AdlerScalar.MergeDoesNotWrap | dbcore/adler.cpp:75-82 | it does for every right buffer below 2^46 bytes |
| AdlerSse.Chunk4Lanes | dbcore/adler.cpp:180-204 | over four chunks no byte product saturates, no 16-bit lane of `s1` or `s2x` wraps, and `s2y` read as unsigned is exact |
| AdlerSse.WidenedTotals | dbcore/adler.cpp:218-232 | the widened lanes add up to the plain and the weighted sum of the 64 bytes |
| AdlerSse.AccumulateMod | dbcore/adler.cpp:218-236 | adding the sums of more bytes keeps the lanes right modulo 2^32, whether or not one wraps |
| AdlerSse.Chunk4 | dbcore/adler.cpp:122-237 | four chunks advance the accumulators by the sums of their bytes modulo 2^32, and exactly as long as the weighted sum fits a signed lane |
| AdlerSse.Chunk1 | dbcore/adler.cpp:239-258 | the same for one chunk |
| AdlerSseSum.ReduceSums | dbcore/adler.cpp:260-271 | folding the accumulators gives the folded sums cut to 32 bits and reduced, even when a lane is negative |
| AdlerSseSum.MaxSafeSteps | dbcore/adler.cpp:295-307 | the weighted sum of a block fits a signed 32-bit number for all data if and only if the block has at most 64 steps |
| AdlerSseSum.MaxExactSteps | dbcore/adler.cpp:260-271 | the sums after a block, cut to 32 bits and reduced, are right for all data and all reduced starts if and only if the block has at most 86 steps |
| AdlerSseSum.ReduceBlock | dbcore/adler.cpp:306-320 | a block of any number of steps and its reduction compute exactly those sums |
| AdlerSseSum.AlignedPrefix | dbcore/adler.cpp:288-293 | single bytes up to the next aligned address, at most 15 of them |
| AdlerSseSum.Steps | dbcore/adler.cpp:313-315 | the accumulators hold the sums of any number of steps modulo 2^32, and exactly up to 64 steps |
| AdlerSseSum.Block | dbcore/adler.cpp:313-315 | a block's accumulators hold its sums |
| AdlerSseSum.Chunks | dbcore/adler.cpp:322-325 | so do those of the remaining chunks |
| AdlerSseSum.FinishSums | dbcore/adler.cpp:273-284 | the tail completes the reference |
| AdlerSseSum.Sse | dbcore/adler.cpp:286-345 | the vector form equals the reference for every buffer, alignment and starting value, and copies every byte once and in order |
| TradeResult.ConsumeInOrder | benchmarks/tpce.cc:2448-2515 | the lots taken are a prefix of the order, all but possibly the last are consumed in full, the rest is untouched |
| TradeResult.ConsumeConserves | benchmarks/tpce.cc:2591-2666 | lots and history rows change by exactly the quantity met |
| TradeResult.ConsumeLots | benchmarks/tpce.cc:2438-2515 | the loop over the scanned lots, in date order or its reverse, with updates and removals by key, leaves a sorted table and computes that outcome |
| TradeResult.TakeForSell | benchmarks/tpce.cc:2423-2515 | the summary row and the lots a sell takes |
| TradeResult.TakeForBuy | benchmarks/tpce.cc:2567-2666 | the same for a buy |
| TradeResult.SettleTrade | benchmarks/tpce.cc:2402-2716 | frame 2 with its branches for buy and sell computes the settlement |
| TradeResult.SettleKeeps | benchmarks/tpce.cc:2402-2716 | a trade keeps summary = sum of lots, one sign, summary row exactly when the sum is not zero; holdings and history change by its signed quantity, and a new lot carries the date and the number of the trade |
| TradeResult.RemoveAll | benchmarks/tpce.cc:2545-2565 | the cascading delete empties the table |
| TradeResult.HeldSide | benchmarks/tpce.cc:2386-2399 | the summary read by frame 1 tells the sign of all lots |
| TradeResult.ResultKeeps | benchmarks/tpce.cc:2361-2716 | a trade on one account and security keeps every book valid: each is consistent, its history rows add up to its holdings, and every lot has the date and the number of the settled trade of that account and security that opened it |
| TradeResult.AlwaysConsistent | benchmarks/tpce.cc:2361-2716 | over every sequence of trades all books are consistent and their history rows add up to their holdings (clause 7.3.1) |
| TradeOrder.ConsumedInTradeOrder | benchmarks/tpce.cc:2438-2515 | over every sequence of trades, when a trade touches a lot, every held lot opened by an earlier (for last in first out: later) dated trade has been used up by it, with a history row that says so |
| TradeOrder.HoldingsAreNet | benchmarks/tpce.cc:2402-2716 | over every sequence of trades holdings and summary of every account and security are what was bought minus what was sold |
| TradeOrder.HistoryIsAudit | benchmarks/tpce.cc:2448-2537 | over every sequence of trades every history row starts from what the rows before it left of the lot, and what the last row says of a lot is what is held of it |
| Tpcc.AlwaysConsistent | benchmarks/tpcc.cc:98-494 | over every serial run from the loaded state balance + payments of every customer = line amounts of delivered orders, carrier unset exactly when a new-order row exists, warehouse takings = district takings, stock within 10..100 |
| Tpcc.LoadedIsConsistent | benchmarks/tpcc-common.h:908-992 | the loaders establish all of that |
| Tpcc.PlaceOrderKeeps | benchmarks/tpcc.cc:98-134 | a new order keeps its district consistent |
| Tpcc.StockStays | benchmarks/tpcc.cc:158-166 | for ordered quantities of 1 to 10 the reorder rule keeps every stock level within 10..100 and adds or drops no stock row |
| Tpcc.PaymentKeeps | benchmarks/tpcc.cc:234-357 | a payment, also to a customer of another district, keeps everything consistent; the sums it moves are `CustomerLedger` and `TakingsLedger` |
| Tpcc.DeliverOrderKeeps | benchmarks/tpcc.cc:420-487 | delivering the order of a new-order row keeps its district consistent |
| Tpcc.DeliveryKeeps | benchmarks/tpcc.cc:405-489 | so does a delivery, wherever the scans start, and on consistent tables it fails in no district |
| TpccLedger.CustomerLedger | benchmarks/tpcc.cc:340-370 | after every run a customer has paid 1000 and the sum of the run's payments, has made one more payment than the run has, and has as balance what was delivered less 1000 and that sum (clause 3.3.2.10) |
| TpccLedger.TakingsLedger | benchmarks/tpcc.cc:234-262 | after every run each district and each warehouse has taken in the loaded amount and the payments made there (clause 3.3.2.8) |
| TpccLedger.OrderLedger | benchmarks/tpcc.cc:98-185 | after every run the orders of a district are those placed in the run, numbered from 3001 in order, with the customer, items, suppliers and quantities asked for, each line at quantity times price |
| TpccLedger.DeliveryShips | benchmarks/tpcc.cc:405-489 | every delivery ships in each district exactly the oldest undelivered order from where the scan starts, with carrier and date on the order and its lines and the amount on its customer's account |
| TpccLedger.StockLedger | benchmarks/tpcc.cc:158-166 | after every run a stock level is the one number within 10..100 that differs from the loaded level less everything ordered by whole units of 91 |
| TpccStore.Store.NewOrderTx | benchmarks/tpcc.cc:98-185 | the loop over the items inserts the lines and reorders stock, and aborts exactly on a missing row |
| TpccStore.Store.PaymentTx | benchmarks/tpcc.cc:216-370 | the three rows are read and written back one after another, as the payment of the model, whose sums over runs are `CustomerLedger` and `TakingsLedger` |
| TpccStore.Store.StampLines | benchmarks/tpcc.cc:436-463 | the loop over at most 15 lines adds up the amounts and sets the delivery dates |
| TpccStore.FindFirst | benchmarks/tpcc-common.h:1169-1190 | the scan finds the smallest new-order number from where it starts |
| TpccStore.Store.DeliverOne | benchmarks/tpcc.cc:406-488 | one district of a delivery on any tables: it fails exactly if the first new-order row has no order or no customer, and the next scan starts after that row either way |
| TpccStore.Store.DeliveryTx | benchmarks/tpcc.cc:377-494 | the loop over the districts delivers everywhere or, if a district fails, nowhere, and moves the scan starts of exactly the districts visited |
| Phantom.NoPhantom | txn.cc:1155-1161 | if a node still has the version on record, only the transaction itself has changed it since it was first observed, and every key that came in since is its own, for any interleaving |
| Phantom.RunInvariant | ermia.cc:206-230 | in every reachable state the version on record was reached from the first observed one by the transaction's own inserts only |
| Phantom.MovesOn | ermia.cc:217-227 | moving the record over an own insert keeps that |
| Phantom.ReadFailsExactly | ermia.cc:321-333 | observing a node again fails exactly if another transaction has changed it since the first observation |
| Phantom.InsertFailsExactly | ermia.cc:206-230 | recording an own insert into an observed node fails exactly if another transaction has changed the node between the first observation and the insert |
| Phantom.CheckPassesExactly | txn.cc:1155-1161 | the comparison at commit passes exactly if no other transaction has changed any node since it was first observed |
| Phantom.AbsentSet.DoNodeRead | ermia.cc:321-333 | a node is recorded once, and a different version later fails |
| Phantom.AbsentSet.InsertIfAbsent | ermia.cc:206-230 | an insert into a recorded node moves the record exactly when nobody came in between |
| Phantom.AbsentSet.CheckPhantom | txn.cc:1155-1161 | the loop succeeds exactly when every recorded version is current |
| Scheduler.RunBatch | benchmarks/bench.cc:746-782 | every transaction runs its own stretches in the order it would alone, is finished exactly once with its own return code, and a batch that is not empty takes max(resumes) + 1 rounds |
| Scheduler.Round | benchmarks/bench.cc:763-778 | one round visits every live slot once and gives up exactly the finished ones |
| Scheduler.ResumeAdvances | dbcore/sm-coroutine.h:152-168 | resuming the callee, or the caller once the callee is done, is the next stretch of the transaction run alone |
| KeyOrder.SliceOrder | varstr.h:57-75 | comparing eight-byte slices as numbers, ties decided by length, orders all keys as `operator<` does |
| KeyOrder.Less | varstr.h:38-41 | `operator<` is the lexicographic order of unsigned bytes |
| KeyOrder.Slice | varstr.h:57-62 | a slice is the big-endian number of the first eight bytes, filled up with zeros |
| KeyOrder.SliceBytes | varstr.h:57-62 | a slice fits 64 bits, and its bytes from the most significant on are the first eight bytes of the key, zeros where the key has ended |
| KeyOrder.LtTotal | varstr.h:38-50 | the order is total and irreflexive |
| KeyOrder.LtTransitive | varstr.h:38-41 | and transitive |

## Left out

- SsnTheorems.Serializable: is about runs without a failing second update; what such an update does is `SecondUpdateExactly`.
- The `g_new_order_fast_id_gen` mode of TPC-C (benchmarks/tpcc.cc:94-112), which takes order numbers elsewhere and leaves `d_next_o_id` alone.
- A missing customer row in Delivery stops the process in the code; the model aborts.
- Bitmap positions shared by some workers only: positions are assigned to all or to none.
- SSN read-mostly optimisation, safe snapshots, read-only transactions, the SSI read-only optimisation: optional modes that rest on other helpers.
- SSI and snapshot isolation at thread granularity: there the read path passes over a committing holder, so the strong claims are made for coroutines only.
- The 256-entry limit of a write set: the code stops the process there.
- An update of a record whose insert was aborted finds a null head; the code asserts against it, the model has no such step.
- Masstree descent, splits and scans: the index is a map from keys to records, or nodes with version counters.
- Log manager, recovery, replication, checkpoints, memory reclamation, epochs, fences. Which records share a spilled block, and where in a block a record lies, is left open: addresses are any that the setup admits.
- Payload bytes of records: a snapshot object carries one integer.
- TPC-E prices, tax and commission, and all other TPC-E frames; TPC-C credit check, order status and stock level.
- Retries of aborted TPC-C transactions, and the clock values written into rows.
- `amac_MultiGet`, the pipeline and batch schedulers, YCSB, option parsing, statistics, random generators.
