# PerPay: verified protocols of a payment ledger

PerPay is a self-hosted payment ledger. Its hard logic sits in a few stateful protocols and in
the queries that certify them. This project models those in Dafny, one module per component, and
proves what they promise over every input, every run and every crash.

| file | what it models |
|---|---|
| `Spool.dfy` | The activity spool as interleaved steps of one producer, any number of cleaners and the importer over a shared directory, with a crash possible between any two steps. |
| `SpoolImporter.dfy` | The loops of one importer pass over one source, and what repeated passes achieve. |
| `SpoolPolling.dfy` | The polls of the importer over all sources, which take turns and share one budget. |
| `SpoolCleanup.dfy` | The budgeted batches that inspect and delete expired spool files, and whole sweeps of them. |
| `BackupLock.dfy` | The backup lock, one event per system call: acquirers, repairs that help, releases, any number of clearing commands, and crashes of any of them. |
| `AuditPaging.dfy` | Keyset paging over the merge of two audit sources. |
| `AuditCatalog.dfy` | The incremental catalog of audit actions and sites, and its cache. |
| `BackupRetention.dfy` | Which backup files a prune keeps and removes. |
| `BackupRunner.dfy` | The backup cycle, retention recovery, restore and deletion, as the disks they leave behind. |
| `AmountSlots.dfy` | The triggers that lend an amount to one order at a time, the query that checks them, and the attribution of credits. |
| `SegmentTiling.dfy` | The split tree of a ledger scan, the query that checks it, the scans that write it, and the cursors that lead them from window to window. |
| `Settlement.dfy` | The match and effective-state queries, and the money they account for. |
| `ActivityRecorder.dfy` | The activity buffer, its upserts and its counters. |
| `AuditChain.dfy` | The hash chain of audit events, its inspection and its appends. |
| `PasswordBudget.dfy` | The persistent budget of anonymous password attempts. |
| `KeyHistory.dfy` | The key rotation of API clients and the query that checks its history. |
| `Options.dfy`, `Numbers.dfy`, `Sets.dfy` | The option type, the safe integers and a fact about set sizes that the other modules share. |

Protocols that several processes run together are state machines over single steps (`Next`, `Run`).
Code that changes fields step by step is a class whose methods are proved equal to a
specification function; the promises are then lemmas about that function and about all runs of it.

## What the code does not promise

Eight statements turned out to hold only under a condition, and are proved with it.

- The comment in `src/backup/lock.ts:374-376` says that no unrelated lock is removed if the owner
  releases while its lock is being cleared. A live owner can still release, and another process can
  acquire, between the last check (line 395) and the unlink (line 398); and two clears of one lock
  can pass all their checks, since a repair by the second takes the tombstone of the first away.
  `BackupLock.ClearSafeExactly` proves that clearing a lock can break mutual exclusion exactly when
  its owner is still running or another clear of it is in flight (`BackupLock.TwoClearsBreak`). The
  command's confirmation asks for the first only, and it takes no lock that would rule out the second
  (`src/backup/runner.ts:376-400`).
- A repair does not get past a lock with three names (`src/backup/lock.ts:425-429`). Unless somebody is about
  to remove one of them, no clear or acquisition ever succeeds again (`BackupLock.StuckForever`).
  A clear comes to that when its `linkSync` (line 383, forced: line 515) meets the lock of a process that
  has not unlinked its temporary name yet, and both stop: because the owner has released meanwhile
  (`BackupLock.LiveOwnerSticks`), or because another clear took the lock away (`BackupLock.OverlapSticks`);
  or when two clears stop after their `linkSync` (`BackupLock.TwoClearsStick`). `BackupLock.RepairableExactly`
  proves that a clear can leave such a directory exactly under the condition of
  `BackupLock.ClearSafeExactly`.
- A poll need not make progress. Every file at or below the watermark that is unreadable or foreign is
  queued first on every poll (`src/audit/spool.ts:402-406`), so as many of them as the budget (256 by
  default) keep every later event of the source from being imported. `SpoolImporter.ProgressExactly` gives
  the exact condition for one pass, and `SpoolImporter.ImportsAllExactly` that for any number of passes.
  As the sources share the budget of a poll, such files of one source can keep out another one's events,
  too (`SpoolPolling.CrowdedForever`); `SpoolPolling.PollsImportAll` needs all of them together to be fewer.
- A cycle that fails or is cut short is made up for within five minutes unless the recorded times hide
  it: a success recorded later than the failure, or in the same millisecond as the start of the cycle,
  which `src/backup/runner.ts:755-758` accepts (`BackupRunner.MissedBackupIsRetried`,
  `BackupRunner.EqualTimesWait`).
- The spool's account is balanced over runs in which each file at or below the watermark is
  readable, belongs to the instance and survives until it is imported.
  `Spool.FileStepBalancesExactly` gives the exact condition of a single read: an unreadable file
  held under the watermark is counted again by every poll.
- `isBackupState` accepts a record that has all of a backup except its count, and no success. The
  retention recovery makes such a record whole, without a success, and its own write is then
  refused. `BackupRunner.ReconcileValidExactly` proves that this is the only such case; no command
  ever writes that record (`BackupRunner.EveryCrashIsUsable`).
- Attribution is unique for cooldowns of c seconds exactly when the time precision is at most
  1000 c + 1 milliseconds (`AmountSlots.UniqueExactly`). The row checks demand a cooldown of at
  least 60 seconds and a precision of at most 1000 milliseconds.
- The payload of an audit row is injective on rows that the validation lets through.
  `AuditChain.ValidationIsNeeded` shows two families on which it is not: an empty text in place of
  an absent one, which the table's row checks refuse (`src/database/migrations.ts:172-177`), and a NUL
  that moves from one field to the next.

## Assumptions

- A completed rename, link or unlink is durable and atomic, and a directory listing is atomic.
- The hash is injective and yields non-empty texts without NUL, where a result needs it.
- Audit sequence numbers are never used again, and a row that survives keeps its projected fields.
- UUIDs are new when they are made: the number of an acquisition names both its token and its
  temporary file, and backup names are not used twice.
- Clocks are parameters and may do anything unless a contract says otherwise.
- A SQL condition that evaluates to NULL is no violation. A confirmed order has a received amount
  (`src/database/migrations.ts:460-470`), and an ended order keeps its status, times and cooldown.

## Model

| member | source | states |
|---|---|---|
| Spool.RunKeepsInv | src/audit/spool.ts:97-128 | Every interleaving of producer, cleaners and importer keeps the directory, the cleaners, the importer's pass, its database row and the audit chain consistent. |
| Spool.NoFalseGaps | src/audit/spool.ts:403-456 | After any run, a sequence was counted as missing only if it was never published, is covered by a durable retention marker, or its file is unreadable or foreign; and if its file is still there, it is unreadable or foreign. |
| Spool.JustifiedForever | src/audit/spool.ts:246-258 | The reason for which a sequence was counted stays true in every continuation: what was never published never will be, and a marker is never taken back. |
| Spool.PermanentExactlyOnce | src/audit/spool.ts:461-482 | Over any polls, re-imports and pruning of receipts the audit chain holds no permanent event twice, and every imported one is in it. |
| Spool.SpoolAccounting | src/audit/spool.ts:395-458 | At every point of an orderly run the cursor equals the distinct imported sequences plus the gap count plus the retained files still waiting under the watermark. |
| Spool.FileStepBalancesExactly | src/audit/spool.ts:486-498 | Reading one file keeps that account if and only if the file is readable and ours, or is new and not also held under the watermark. |
| SpoolImporter.Source.Collect | src/audit/spool.ts:395-458 | One pass writes exactly the row that the transactions of the protocol give for the queue of the listing and the budget, and reports how many files it processed. |
| SpoolImporter.QueueOfIsQueue | src/audit/spool.ts:395-402 | Filtering the sorted listing yields an ascending queue of all and only the files that are due. |
| SpoolImporter.ReadAllImports | src/audit/spool.ts:408-447 | Reading a queue adds receipts for exactly its readable files. |
| SpoolImporter.PassMakesProgress | src/audit/spool.ts:354-459 | A pass takes exactly the readable pending events that its budget reaches out of the pending ones. |
| SpoolImporter.ProgressExactly | src/audit/spool.ts:402-410 | A pass leaves fewer events pending if and only if fewer than `budget` other due files are queued before some due pending one. |
| SpoolImporter.StarvedForever | src/audit/spool.ts:402-433 | Behind as many unreadable or foreign files under the watermark as the budget, a due event is imported by no number of passes. |
| SpoolImporter.ImportsAllExactly | src/audit/spool.ts:354-459 | Repeated passes over a directory at rest import everything that is due if and only if no due event has as many such files before it as the budget. |
| SpoolImporter.FullPassImportsAll | src/audit/spool.ts:410-447 | A pass whose budget reaches the end of its queue leaves nothing pending that was due. |
| SpoolPolling.Importer.Collect | src/audit/spool.ts:332-352 | One poll gives turns to at most 128 sources from its position on, in rotation, until the budget they share is used up, and leaves its position after the last of them. |
| SpoolPolling.Rotation | src/audit/spool.ts:345-350 | Over any polls the sources have their turns strictly in rotation, whatever a turn costs, and every poll gives one at least. |
| SpoolPolling.OneTurnEach | src/audit/spool.ts:345-350 | Among any n turns in a row each of n sources has exactly one. |
| SpoolPolling.EveryoneHasATurn | src/audit/spool.ts:345-350 | So after n polls every one of n sources has had a turn. |
| SpoolPolling.PollsImportAll | src/audit/spool.ts:332-459 | Polls over sources at rest import everything that is due in any of them when the unreadable or foreign files under their watermarks, and one for each unusable source, are together fewer than the budget. |
| SpoolPolling.CrowdedForever | src/audit/spool.ts:345-350 | When the files of that kind in one source take all but one of the budget, a due event of a second source with one such file before it is imported by no number of polls. |
| SpoolCleanup.PruneSource | src/audit/spool.ts:217-261 | At most the budget of files is inspected, in order, each after the cursor and none left out up to the file that is returned. |
| SpoolCleanup.PruneBatch | src/audit/spool.ts:182-215 | A batch inspects at most 500 files of at most 128 sources, covers everything between its cursor and the next, and either has covered all the rest, or advances the cursor strictly to a source that is there, within it only after the whole budget of files. |
| SpoolCleanup.VisitSource | src/audit/spool.ts:193-212 | Going through one more source extends the covered stretch and advances the cursor past it. |
| SpoolCleanup.SweepExactly | src/audit/spool.ts:171-215 | When a batch completes a chain of batches, a file was inspected if and only if the batch that moved the cursor past its position listed it, whatever others have added or removed meanwhile; none was inspected twice. |
| SpoolCleanup.SweepIsComplete | src/audit/spool.ts:171-215 | So if nobody else removes files, every file that the first batch listed was inspected. |
| SpoolCleanup.StaysListed | src/audit/spool.ts:246-260 | A file that nobody else removes stays listed until it is inspected itself. |
| SpoolCleanup.BatchAdvances | src/audit/spool.ts:193-212 | Each batch that does not complete the sweep leaves fewer unfinished sources and unpassed files, counting the retention marker that it may have written ahead of its cursor. |
| SpoolCleanup.CleanedThins | src/audit/spool.ts:234-260 | Cleaning after a batch removes exactly the inspected files that have expired, and adds nothing but a marker where more than temporary files have. |
| SpoolCleanup.Sweep | src/audit/spool.ts:171-261 | Repeated batches over a directory from which they delete come to an end; every listed file of every source that may be cleaned was inspected exactly once, exactly the expired ones are gone, and only markers were added, where an event has expired. |
| BackupLock.RunKeepsInv | src/backup/lock.ts:283-363 | Every interleaving of system calls, with any number of clears at once, keeps names, link counts, records and the phases of all processes consistent, when each clear is started for a lock whose owner has stopped and of which no other clear is in flight. |
| BackupLock.MutualExclusion | src/backup/lock.ts:283-342 | In such runs at most one process owns the lock, and the public name always is a fully written record, that of its owner if one lives. |
| BackupLock.PublishedChecksPass | src/backup/lock.ts:484-506 | In such runs, once `link()` has succeeded no check of the acquisition or the release fails, whoever helped to remove the temporary name. |
| BackupLock.RepairIsHarmless | src/backup/lock.ts:415-464 | A repair never removes or replaces the public name, nor the temporary file of a live process that has not published yet. |
| BackupLock.ClearIsExact | src/backup/lock.ts:365-413 | In such runs a clear, forced or not, takes away only the record it found, whose owner has stopped, and leaves every other process's lock in place. |
| BackupLock.ClearOfLiveOwner | src/backup/lock.ts:373-398 | From any consistent state with a live owner, some interleaving with one clear of its lock ends with two owners. |
| BackupLock.OverlapBreaks | src/backup/lock.ts:365-431 | If a clear in flight can still unlink the lock, some interleaving with a second clear of it ends with two owners, whatever either has checked. |
| BackupLock.ClearSafeExactly | src/backup/lock.ts:120-166 | From any state of such a run, one more clear of the present lock can break mutual exclusion if and only if the lock's owner is still running or another clear of it is in flight. |
| BackupLock.TwoClearsBreak | src/backup/lock.ts:365-431 | So two overlapping clears of a lock whose owner has stopped can end with two owners. |
| BackupLock.TwoClearsStick | src/backup/lock.ts:381-398 | Two clears of a stopped owner's lock that stop after their `linkSync` leave it stuck with three names. |
| BackupLock.LiveOwnerSticks | src/backup/lock.ts:383-398 | From any consistent state with a live owner, some interleaving with one clear of its lock leaves the next owner's lock stuck with three names. |
| BackupLock.OverlapSticks | src/backup/lock.ts:383-398 | So does one more clear of a lock of which another clear is in flight. |
| BackupLock.RepairableExactly | src/backup/lock.ts:415-464 | From any state of a run as above, one more clear of the present lock can leave a directory on which some repair fails, even one on which every repair fails, and even a stuck lock, if and only if the lock's owner is still running or another clear of it is in flight. |
| BackupLock.StuckForever | src/backup/lock.ts:415-464 | Over any run of any processes a stuck lock keeps its three names and nobody ever gets the lock. |
| BackupLock.EveryCrashIsRepairable | src/backup/lock.ts:415-464 | In such runs, each clear started for a lock whose owner has stopped and of which no other clear is in flight, stopping everything at any step leaves a directory that a repair turns into the lock free or one complete single-link record, and otherwise only unpublished creation files. |
| BackupLock.LockDirectory.Recover | src/backup/lock.ts:415-464 | The loop over one listing never touches the public name, ends in the repaired directory if it ends without an error, and does so if and only if no inode has three names, two creation files, or a creation file and a tombstone listed after it. |
| BackupLock.LockDirectory.Acquire | src/backup/lock.ts:77-112 | One undisturbed acquisition succeeds exactly when the lock was free, leaving one single-link record of its own, and otherwise leaves only the repaired directory. |
| BackupLock.LockDirectory.Release | src/backup/lock.ts:341-361 | A release removes the lock exactly when it is still this inode with this token. |
| BackupLock.LockDirectory.Clear | src/backup/lock.ts:365-413 | One undisturbed clear removes the lock exactly when it is a single-link record with the token, and leaves no tombstone. |
| BackupLock.LockDirectory.ForceClear | src/backup/lock.ts:508-545 | One undisturbed forced clear removes the lock exactly when it is a single-link file, whatever it holds, and leaves no tombstone. |
| AuditPaging.TopIsUnique | src/audit/query.ts:202-206 | An ordered, limited selection of rows is unique, so the database has no choice. |
| AuditPaging.MergedTop | src/audit/query.ts:196-206 | Limiting each source to one page before merging gives the same page as limiting the union. |
| AuditPaging.KeysetIsOrder | src/audit/query.ts:187-194 | The three spellings of the cursor condition are one: the row comes after the cursor in (time, source, sequence) descending order. |
| AuditPaging.SelectRowsIsTop | src/audit/query.ts:164-207 | The selected rows are the first visible rows of both sources after the cursor, in order. |
| AuditPaging.PagingIsExact | src/audit/query.ts:222-232 | Following the cursor from page one, for any page size and any appends in between, yields rows of the captured snapshot only, each once, in order, and all of them except activity that expired or was deleted meanwhile. |
| AuditCatalog.CatalogDetermined | src/audit/query.ts:413-441 | Two catalogs of the same log agree on the head, on the action keys and their latest times, and on every site's fact. |
| AuditCatalog.FewerRowsSamePick | src/audit/query.ts:406-411 | Evicting by time commutes with taking the latest, as long as the representative row is still there. |
| AuditCatalog.ReusedPicks | src/audit/query.ts:401-411 | What the head check, the eviction and the witness check leave of a kept catalog represents exactly the old rows that survive. |
| AuditCatalog.SameAnswerAsColdRebuild | src/audit/query.ts:445-473 | The answered action keys, site facts and site choices do not depend on whether the catalogs were kept or rebuilt cold. |
| AuditCatalog.AnswerIsLatest | src/audit/query.ts:461-465 | The fact answered for a site is a retained one of either log, and none of them is later. |
| AuditCatalog.MetadataCache.Remember | src/audit/query.ts:370-376 | Merging grouped rows into known facts leaves a representative of every key of both. |
| AuditCatalog.MetadataCache.ReadSource | src/audit/query.ts:398-444 | An incremental read after any appends and, for activity, any deletions returns a catalog that a cold scan of the log could return. |
| AuditCatalog.MetadataCache.Query | src/audit/query.ts:445-473 | A query answers from such catalogs of both logs and the present site names, and keeps the catalogs only outside of a transaction, so that the next query may start from them. |
| BackupRetention.SelectionIsRight | src/backup/repository.ts:358-371 | As many verified backups are kept as are wanted and there, the protected one always, otherwise none that is older than a removed one, and already in the order the sort asks for. |
| BackupRetention.SelectionIsUnique | src/backup/repository.ts:358-371 | No other selection keeps that promise. |
| BackupRetention.PlanIsSound | src/backup/repository.ts:324-398 | A prune removes verified files only, never the protected one and never an unverifiable one, and the count it reports is the number of files left, from 1 to 4096. |
| BackupRetention.Classify | src/backup/repository.ts:329-356 | The loop splits the listing into verified and blocked files, in order. |
| BackupRetention.ListingIsSorted | src/backup/repository.ts:269-291 | The listing holds each name once, newest first. |
| BackupRunner.EveryCrashIsUsable | src/backup/runner.ts:742-896 | Over any sequence of cycles, recoveries, restores and deletions, each cut short anywhere, every disk has a valid state whose named backup is there and is the one recorded. |
| BackupRunner.NamedStays | src/backup/runner.ts:841-869 | No single step of any run removes or changes a file while the state names it. |
| BackupRunner.RestoreIsFollowedUp | src/backup/runner.ts:435-438 | After a restore a backup stays required, over any run and any crash, until the state names one that was not there at the restore. |
| BackupRunner.CycleSuccess | src/backup/runner.ts:818-883 | A cycle that ends without an error has recorded the file it created, as verified, and the number of backups that are really there. |
| BackupRunner.ReconcileValidExactly | src/backup/runner.ts:1113-1147 | The writes of the retention recovery are refused if and only if it counts the files of a state that has all of a backup but the count; whatever it leaves is a valid state. |
| BackupRunner.DelayBounded | src/backup/runner.ts:686-725 | The next cycle is never scheduled more than one interval ahead. |
| BackupRunner.MissedBackupIsRetried | src/backup/runner.ts:698-724 | Wherever a cycle fails or is cut short, its backup is recorded or the next cycle is due within five minutes, if and only if a backup is required or no recorded time hides the attempt: a success later than the failure, or a success or, with the interval still running, a retention error at the very time of the start. |
| BackupRunner.EqualTimesWait | src/backup/runner.ts:698-724 | A cycle cut short that starts in the millisecond of the last success is followed by the next one only after a whole interval. |
| BackupRunner.BackupDirectory.WriteState | src/backup/runner.ts:1088-1111 | A state is renamed into place exactly when it is a valid one. |
| BackupRunner.BackupDirectory.Prune | src/backup/repository.ts:324-398 | The prune unlinks the planned files one by one, up to the one that fails, and touches nothing else. |
| BackupRunner.BackupDirectory.RunCycle | src/backup/runner.ts:742-896 | A cycle passes through exactly the disks of the specification, none of its writes is refused, and it succeeds exactly when the state ends without an error. |
| BackupRunner.BackupDirectory.RunReconcile | src/backup/runner.ts:590-684 | From any accepted state the retention recovery passes through exactly the disks of the specification, and even its failure is refused exactly in the case above. |
| BackupRunner.BackupDirectory.RunRestore | src/backup/runner.ts:411-481 | A restore refuses damaged, foreign or mismatching selections without a write, and else protects the selected backup before and after the database is replaced. |
| BackupRunner.BackupDirectory.RunDelete | src/backup/repository.ts:215-267 | A deletion removes exactly the named file, when its digest matches and the state does not name it. |
| AmountSlots.RunKeepsInv | src/alipay-accounts/schema.ts:88-116 | Under any run that the triggers allow, the slots of an amount bear the generations 1 to n, and an earlier slot and its cooldown are over when a later one begins. |
| AmountSlots.QueryExact | src/database/database.ts:1288-1314 | Comparing neighbours is enough: the query is silent if and only if the generations are 1 to n and every earlier interval ends before every later one. |
| AmountSlots.RunsPassQuery | src/database/database.ts:1288-1314 | The query reports no table that the triggers let through. |
| AmountSlots.UniqueAttribution | src/database/database.ts:1954-1957 | A credit satisfies the candidate time test for at most one slot of its amount, across all generations. |
| AmountSlots.UniqueExactly | src/database/database.ts:1954-1957 | With cooldowns of c seconds this holds over every run if and only if the precision is at most 1000 c + 1 milliseconds. |
| AmountSlots.FreeByLatest | src/alipay-accounts/schema.ts:96-107 | Looking at the latest slot only decides for all slots of the amount. |
| AmountSlots.Store.FindLatest | src/alipay-accounts/schema.ts:93-95 | The scan finds the row of the highest generation of an amount. |
| AmountSlots.Store.OpenOrder | src/database/order-store.ts:595-613 | An order and its slot are written, together or not at all, exactly when every slot of the amount is released and cooled down; the slot gets the next generation. |
| AmountSlots.Store.End | src/database/migrations.ts:700-713 | Ending an open order releases its one slot at the same time and for the same reason, or changes nothing. |
| SegmentTiling.Halves | src/database/database.ts:1741-1755 | A split segment's children are exactly its two halves. |
| SegmentTiling.WindowTiled | src/database/database.ts:1704-1762 | When the check is silent, the leaves of a run cover every instant of its window once and nothing else, if and only if the run has a segment; on a completed run each leaf was accepted on a last page over exactly its window. |
| SegmentTiling.ScanKeepsInv | src/ledger/store.ts:367-700 | The check reports no segment and no run that scans write, whatever they split, accept or fail, whichever pages they share and however runs begin: a running run has its lane's cursor at its window and something left to scan, and no other run of the lane is running. |
| SegmentTiling.CompletedScanTiles | src/database/database.ts:1840-1849 | After any scans the accepted leaves of a completed run tile its window. |
| SegmentTiling.NoWindowSkipped | src/ledger/store.ts:408-470 | After any scans, each window that a lane has begun was tiled by the accepted leaves of a completed run of the lane, except the one at which its cursor still is. |
| Settlement.OrdersPaired | src/database/database.ts:2150-2163 | When the check is silent, settled matches pair one to one with confirmed orders. |
| Settlement.EntriesPaired | src/database/database.ts:2012-2021 | On schema 10 or later they pair one to one with allocated entries that have no refund. |
| Settlement.LegacyExactly | src/database/database.ts:1903-1918 | On any schema the settled matches whose entry was not left in conflict pair one to one with the allocated entries without a refund; in each currency what was received exceeds what was settled by the cents of the other settled matches; and the pairing and the equation of schema 10 hold if and only if there are none of those. |
| Settlement.MoneyConserved | src/database/database.ts:2116-2167 | In each currency the cents received over confirmed orders are the cents of the entries settled for them, and all allocated cents are either received or refunded; a match never joins two currencies. |
| ActivityRecorder.MergeInBuffer | src/audit/activity.ts:165-173 | Merging an event into the buffer and flushing later is flushing first and upserting it then. |
| ActivityRecorder.UpsertMerged | src/audit/activity.ts:312-325 | Two upserts of a group are the upsert of the two merged: saturating addition is associative. |
| ActivityRecorder.BufferRefines | src/audit/activity.ts:163-207 | Over any accepted events and any mix of successful and failed flushes and the prunes that follow them, the table ends with the same rows as if each event had been persisted at once and alone. |
| ActivityRecorder.PruneIsOldest | src/audit/activity.ts:209-223 | A prune of rows or receipts deletes at most its batch, only what is from before the cutoff and not exempt, nothing younger than what it keeps, and all of it unless the batch is used up. |
| ActivityRecorder.RunConserves | src/audit/activity.ts:227-232 | Below saturation every accepted weight is in the table or in the buffer, or was deleted by a prune. |
| ActivityRecorder.FlushTotal | src/audit/activity.ts:186-196 | Below saturation a flush adds to the table exactly what the buffer counted. |
| ActivityRecorder.CreateEvent | src/audit/activity.ts:275-310 | An event that is made weighs what its call offered, and its numbers are safe integers. |
| ActivityRecorder.Recorder.constructor | src/audit/activity.ts:127-148 | A new recorder goes on counting from the status that the last committed flush of the one before it saved. |
| ActivityRecorder.Recorder.Record | src/audit/activity.ts:163-184 | A call is accepted exactly when it is valid and its group or the buffer has room; an accepted one counts as persisted at once, a refused one as dropped with its weight and its error code. |
| ActivityRecorder.Recorder.Flush | src/audit/activity.ts:186-207 | A flush writes the whole buffer and the capture status or nothing, and loses no accepted event either way; after a write it prunes exactly when a batch was left over, nothing was pruned yet or an hour has passed. |
| ActivityRecorder.Recorder.Prune | src/audit/activity.ts:209-229 | A prune after a flush deletes one batch of the oldest expired rows and one of the receipts without a core event, and notes whether the former was a full one; if not, no expired row is left. |
| ActivityRecorder.Recorder.Stop | src/audit/activity.ts:156-161 | Stopping flushes once and refuses later calls. |
| AuditChain.PayloadInjective | src/database/audit-chain.ts:45-62 | Two rows of valid fields have the same payload only if they are the same. |
| AuditChain.ValidationIsNeeded | src/database/audit-chain.ts:45-62 | Without the validation it is not so: a NUL can move between fields, and an empty text stands for an absent one. |
| AuditChain.InspectChain | src/database/audit-chain.ts:64-131 | The inspection with running counters computes the link, hash, context and anchor violations of the specification, whichever tables are missing. |
| AuditChain.CleanExactly | src/database/audit-chain.ts:86-116 | No violation is counted if and only if every row carries its number, the hash of the row before it and its own hash. |
| AuditChain.ContextsCleanExactly | src/database/audit-chain.ts:133-157 | No context violation is counted if and only if each event has the context that its details claim, and each context has such an event. |
| AuditChain.ContextsDetermined | src/database/audit-chain.ts:133-157 | Beside the same events only one table of contexts passes: the chain fixes the contexts, too. |
| AuditChain.AppendKeepsContexts | src/database/identity-store.ts:734-783 | An append that writes the context it claims keeps the contexts clean. |
| AuditChain.AppendsAccepted | src/database/identity-store.ts:722-785 | Appends of valid inputs keep the inspection and the anchor at zero violations. |
| AuditChain.TamperEvident | src/database/audit-chain.ts:172-194 | Two chains of valid rows that the inspection accepts under one anchor are the same chain. |
| AuditChain.WrittenIsTheOnlyOne | src/database/audit-chain.ts:172-194 | The inspection accepts another chain of valid rows under the written chain's anchor if and only if it is the written chain. |
| AuditChain.Chain.Append | src/database/identity-store.ts:722-785 | An append refuses an invalid input, and else adds one linked row and advances the anchor, so that the chain stays accepted. |
| PasswordBudget.RateBound | src/database/identity-store.ts:268-294 | Whatever the clock does, any k admitted calls with effective times t1 to tk satisfy k <= 10 + (tk - t1) / 5000. |
| PasswordBudget.DecidesExactly | src/database/identity-store.ts:281-285 | A call has to wait if and only if admitting it would break the rate over some of the admitted calls. |
| PasswordBudget.WaitIsLeast | src/database/identity-store.ts:283-292 | The returned wait is the least whole number of seconds, from one, after which an undisturbed retry is admitted, unless its arrival no longer is a safe integer. |
| PasswordBudget.Store.Take | src/database/identity-store.ts:268-294 | A call answers from the two stored numbers and changes them only when it is admitted. |
| KeyHistory.HistoryCleanExactly | src/database/database.ts:1199-1230 | The query's comparisons are silent if and only if the versions are consecutive and the times of use are apart. |
| KeyHistory.CleanHistory | src/database/database.ts:1215-1230 | In a clean history at most one key of a client is in use at any time, and only the newest is unretired. |
| KeyHistory.RunKeepsInv | src/database/identity-store.ts:536-658 | Any sequence of identities and rotations, with any clock, keeps versions 1 to n, only the newest unretired, each retirement no later than the next activation, and no fingerprint twice. |
| KeyHistory.RunsPassQuery | src/database/database.ts:1179-1234 | The query never reports what the operations write. |
| KeyHistory.RetiredForever | src/database/identity-store.ts:614-619 | A secret that was retired once is refused for every client at every later time. |
| KeyHistory.Store.SyncClient | src/database/identity-store.ts:552-658 | A synchronisation issues the first key, confirms the present one or rotates to a new one, or changes nothing. |
| KeyHistory.Store.EnsureIdentity | src/database/identity-store.ts:536-550 | A client without a row gets a disabled one without a key; any other keeps its row. |

## Left out

- HTTP, command-line parsing, the user interface and configuration parsing: plumbing without a deep invariant.
- SQLite, encryption, SHA-256, JSON, file permissions, `fsync`, Windows fallbacks: foreign calls; see the assumptions.
- The ledger, reconciliation, order and webhook stores beyond the lines cited: only what the checks and triggers state is used.
- Schema migrations and fingerprint backfills, refund marks, list queries, health and the maintenance lock: simpler versions of what is proved here.
- The provider key rotation of the Alipay account store: its pending-key binding needs a further precondition.
- BackupLock.ClearIsExact: whether a lock is old enough to be cleared is decided from outside; a refusal is the same step as a stop before the tombstone exists.
- Spool.RunKeepsInv: `prunedThrough` in source.json is always zero in the code and is not modelled, nor is the importer's rollback after a restore of the database. Which files are expired is the cleaner's free choice.
- SpoolImporter.Source.Collect: one pass without interference; the interference is in `Spool`. The budget is what the sources before this one have left of it.
- SpoolCleanup.Sweep: which sources may be cleaned stays as it is during a sweep, and which files have expired is decided from outside. Others that add or remove files or add sources meanwhile are in SweepExactly.
- AuditPaging.SelectRowsIsTop: the loops that build the SQL text are modelled by the selection they describe, with filters as functions of a row.
- AuditCatalog.MetadataCache.Query: the final sorting for display; an action stands for its category and name together.
- BackupRetention.PlanIsSound: files do not change while a prune looks at them; the second identity check before an unlink appears as a failing unlink.
- BackupRunner.BackupDirectory.RunRestore: the database file and its quarantine, and the recovery of temporary files, are outcomes chosen from outside.
- SegmentTiling.ScanKeepsInv: page sizes, overlaps and times of a cursor, which only make a scan refuse more often, and the compensation deadlines; whether an answer is a variant is chosen from outside.
- Settlement.MoneyConserved: the candidate, match-event, posting and exception queries are not part of the model.
- ActivityRecorder.Recorder.Flush: the spool's counters in the capture status, the warnings, and the one prune at start-up, which follows no flush.
- SpoolPolling.PollsImportAll: the sources are the same on every poll; one that is closed and read to its end is not listed again.
- AuditChain.InspectChain: JSON texts are read by functions from outside.
- PasswordBudget.WaitIsLeast: the division is exact here; the code's floating-point division is exact too as long as the wait is below 2^43 milliseconds.
- KeyHistory.Store.SyncClient: a refused write appears as the error that rolls the transaction back.
