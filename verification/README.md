# Verified model of the deduplication daemon

The daemon watches the shares of a NAS, keeps one row per file in a small database, and finds
files with equal contents: first by size, then by a sparse hash, and only then byte by byte.
This project models that work in Dafny and proves what it promises.

`dafny verify dfyconfig.toml` checks the whole project.

## How the model is laid out

- **Tables.** `Model` holds rows, groups and identities; `Selection` is `ORDER BY … LIMIT`;
  `StoreSpec`, `Rules` and `OpsSpec` say what each database operation does, as functions from
  tables to tables. `Store` is the repository as a class whose methods perform those operations.
- **Pipeline and worker.** `Pipeline` is the pure step of a queued row against an arbitrary file
  system (`Env`: any answers to `statx`, `open` and the dedupe backend, differently in every round).
  `Worker` is the round and the loop. `Outcomes` and `Twins` say what a round writes for every answer it can
  get; `Sound`, `Grouping`, `Sums`, `Drain`, `Reachable`, `Canonical`, `Filed`, `History`, `Unique`, `Spins`
  and `StateTable` prove what holds of single rounds, of whole runs, and of every interleaving with the other
  operations (`Operations`). `MarkedTables` and `Orphan` follow a run from empty tables to a false alarm.
- **Scan.** `Tree`, `Walk` and `Scanner`: the sorted depth-first walk, its stack of open directories, batches,
  and the cursor a later run resumes from. `Resume` proves that no file is lost by resuming, `Progress` which
  cursor a run stores, `Skipping` what the next run leaves out, `ScannedRows` what is written.
- **Watcher.** `Handler` says what an event does, `EventHandler` is the class that does it,
  `Marking` and `Arrival` prove what each event must do, `Evidence` and `LivePath` what none may do; `Pairing`
  pairs the halves of renames, `Coalesce` merges repeated events; `PathText` and `RenameBack` treat paths as
  the text SQL compares.
- **SQL.** `SqlUpsert` evaluates the upsert statement over nullable columns with three-valued logic,
  `SqlTransition` the update that a transition's patch is turned into.
- **The rest.** `Presence` and `Returns` (the presence session), `Upkeep` (the maintenance jobs), `Compare`
  (byte comparison), `Sampling` and `Spacing` (the sparse hash and its windows), `Throttle` (token bucket),
  `Rescan` (the rescan flag between two threads), `Decimal` and `Units` (the configuration's units).

Code that changes state in place is a class or a method with loops; each such method is proved equal
to a function, and the theorems are about those functions.

## Where the code and its own text disagree

The model follows the code.

- A directory is to be left out when it lies wholly before the cursor (`crates/core/src/scan.rs:24-31`), yet what a
  run skipped is not skipped for good: the stored cursor can move up to a directory that holds the old one, and the
  next run walks that directory again. `Skipping.CursorGoesBackIff` says exactly when a run does that, and
  `Skipping.CursorCanGoBack` is a history in which two runs do.
- A backend error that rules out the pair is described as making the file the origin of a new group
  (`crates/core/src/pipeline/errno.rs:53`, `crates/core/src/pipeline/verify.rs:316`). The code sends the
  row back to `sized` with its hash. On its next turn it never founds a group, and
  `Spins.RefusedPairRejoins` says exactly when it joins the very group it left.
- Different sizes of two files about to be compared are taken for a fault of a lower layer
  (`crates/core/src/pipeline/verify.rs:126-128`). The tables alone can lead there: a canonical row that is
  missing already is marked missing again, so it later settles anew with its old group and hash.
  `Filed.RoundFiledIffNotOrphaned` says exactly when a round does that, and `Orphan.AlarmIsReachable`
  is a run from empty tables, on files that are never damaged, that ends in the alarm.
- The transition table calls itself complete (`crates/core/src/state.rs:67-68`). `StateTable.UnlistedPairs`
  gives exactly the eleven pairs that worker rounds go through and the table does not list, among them
  `distinct` to `hashed`, `hashed` to `sized`, `sized` to `failed` and `gone` to `settling`.
- A group's new canonical file is chosen by a transition whose other rows are best effort
  (`crates/db/src/apply.rs:31-34`). That is sound when a round is one atomic step;
  `Canonical.StaleCreatePointer` gives the exact condition when it is not.
- `format_duration` accepts any `i64`, but its output parses back exactly for those not negative:
  `Units.DurationRoundTrip`.

## Model

| member | source | states |
|---|---|---|
| Drain.RoundLowers | crates/core/src/worker.rs:58-84 | Every processed round strictly lowers a lexicographic measure of the tables (how far rows are from rest, then groups still to try), for arbitrary answers of the file system, unless the backend is asked in it and is interrupted or rules the pair out; deferrals land after now |
| Worker.WorkerDrains | crates/core/src/worker.rs:86-110 | At a fixed time a worker whose limit exceeds a bound known from the tables stops because its queue is empty, within that bound, and no row is due any more, on all tables with sound pointers and references whose rows that rely on a group have one, if no answer of the backend interrupts or rules a pair out |
| Worker.RoundBoundInNumbers | crates/core/src/worker.rs:86-110 | With n rows and g groups the bound on rounds is at most 12n(1 + n(g + 12n)) + ng |
| Worker.WorkOnce | crates/core/src/worker.rs:58-147 | Taking the next row, stepping it and writing the outcome changes the repository exactly as one atomic round, including deferral, backoff and giving up |
| Worker.RunWorker | crates/core/src/worker.rs:93-110 | The loop's final tables, its count and its reason to stop are those of the run of rounds |
| Spins.DrainsIffAnswersStop | crates/core/src/worker.rs:86-110 | At a fixed time an unlimited run empties its queue if and only if from some round on no answer of the backend interrupts or rules a pair out |
| Spins.EintrSpins | crates/core/src/pipeline/verify.rs:270-272 | If the backend is interrupted every time, a row that stays next once it is deferred is all the loop ever works on, up to whatever limit it was given |
| Spins.RefusedPairRejoins | crates/core/src/pipeline/verify.rs:316-326 | Whatever error rules a pair out, the row goes back to sized with its hash and without its group; its next turn, whatever the file system answers then, founds no group, and puts it back into the group it left if and only if the file is seen as stored, that group is the first of its key, and its canonical row is on disk |
| Spins.RefusedPairSpins | crates/core/src/pipeline/verify.rs:316-326 | A pair that is ruled out every time and rejoins sends its row round and round: after any number of rounds the worker is still at work on it |
| Spins.SizedRejoinsIff | crates/core/src/pipeline/group.rs:30-82 | A sized row for whose key there are groups joins a group if and only if it is seen as stored, the group is the first of the key and its canonical row is another live one; it never founds one |
| Orphan.SpinsAreReachable | crates/core/src/pipeline/verify.rs:270-326 | There are reachable tables on which either backend keeps the worker busy for ever |
| Sound.StepSound | crates/core/src/pipeline/mod.rs:104-113 | Whatever the file system answers, a step's transition names rows that hold, each once, refers to existing groups, verifies only together with marking its group, and repoints only the group whose canonical row it takes out |
| StoreSpec.CasAllHit | crates/db/src/apply.rs:29-34 | Among the best-effort updates of a transition, a row named once and still in the expected state gets exactly its patch |
| StoreSpec.ApplyCreate | crates/db/src/apply.rs:160-173 | Creating a group gives it a new id, names the chosen origin, and puts the acting row and the origin in it, on top of all other updates |
| Pipeline.ChooseCanonical | crates/core/src/pipeline/group.rs:245-255 | The origin chosen is the row itself or a twin, and is before every other one by modification time, first sighting, inode and id |
| Twins.CandidatesExact | crates/db/src/lookup.rs:40-80 | The candidate query answers exactly the first `limit` rows, each once and in order, of those of the size, sized or distinct, singly linked, old enough and in scope; rows with a hash come first, then by modification time, first sighting and id |
| Twins.SearchWaits | crates/core/src/pipeline/group.rs:83-131 | While a file of the size is due to settle later, a row without a group waits for the latest of them |
| Twins.SearchReads | crates/core/src/pipeline/group.rs:83-131 | Otherwise, if one of the first candidates has no hash, the first such one is read next, or the row waits for the heavy window |
| Twins.DistinctIffNoTwin | crates/core/src/pipeline/group.rs:83-131 | With all its candidates hashed and none settling, a row without a group becomes distinct if and only if none of the first `limit` admissible rows has its hash |
| Twins.TwinsAreGrouped | crates/core/src/pipeline/group.rs:203-258 | With a twin among them, the row founds a group of exactly the twins, each taken along once, and the oldest of all is the origin |
| Outcomes.SizedIffEligible | crates/core/src/pipeline/settle.rs:43-99 | A settled row becomes sized in its round if and only if its open file has one link, no set-id bit, the magic number of a video and no hole |
| Outcomes.HashIsStored | crates/core/src/pipeline/sized.rs:55-130 | A file that is as stored before it is read and after gets its digest and version, and is due at once |
| Outcomes.JoinsRepresented | crates/core/src/pipeline/group.rs:30-66 | A hashed file whose key has groups is put before the live representative of the first of them, or is that representative |
| Outcomes.CandidateIsHashed | crates/core/src/pipeline/group.rs:132-200 | A candidate that is read gets its digest and keeps its state and date, while the row that asked is due again at once |
| Outcomes.DifferentTriesNext | crates/core/src/pipeline/verify.rs:190-244 | After a difference the row is compared next with the representative of the next group of its key in order of id, if there is one |
| Outcomes.DifferentFounds | crates/core/src/pipeline/verify.rs:190-244 | Without a later group it represents a new one of its key |
| Outcomes.RepresentativeIsGone | crates/core/src/pipeline/verify.rs:378-400 | A representative whose file is gone is marked missing, and the row that was to be compared represents the group |
| Outcomes.ErrorHasItsConsequence | crates/core/src/pipeline/verify.rs:246-341 | For every error of the backend, by its number: the row waits, is retried at once, is tried later and counted, settles anew, rests with its domain, leaves its group, or fails; nothing else changes |
| Outcomes.FailingStep | crates/core/src/worker.rs:127-147 | A failing step is counted and retried after a doubling delay, and the eighth failure gives the row up |
| StoreSpec.NextReady | crates/db/src/queue.rs:299-330 | The row taken is due and before every other due row by priority, date and id; none is taken only if no row is due |
| StoreSpec.FindByPath | crates/db/src/lookup.rs:24-36 | Of the rows of the path a live one is preferred, and among those equally alive the one with the smallest id; none is answered only if the path has no row |
| Store.Repository.ApplyTransition | crates/db/src/apply.rs:13-51 | The transaction is refused whole, lost to a changed state with no effect, or taken with its other rows and its group operation together |
| SqlTransition.UpdateRefinesCas | crates/db/src/apply.rs:56-137 | The update put together from a patch changes a stored row if and only if the row is in the expected state, and to exactly the columns of the patched row |
| SqlTransition.GroupOpWrites | crates/db/src/apply.rs:160-207 | Joining, leaving, repointing and verifying a group write the group column of the one row and the pointer, date or hash of the one group; a date and a hash are written once |
| Store.Repository.UpsertPending | crates/db/src/queue.rs:120-206 | An unknown root is refused; otherwise the row of the inode is inserted or updated by the pure rule, and a canonical row that leaves its group takes the pointer with it |
| Store.Repository.InsertScanned | crates/db/src/queue.rs:215-260 | A batch with a row of an unknown root changes nothing; any other inserts exactly the inodes that have no row yet, and the count returned is the number of rows added |
| Store.Repository.ClosePhaseB | crates/db/src/queue.rs:269-291 | Of the parked rows of the root, those with a live peer of their size become due and all others become distinct |
| Store.Repository.RenameFile | crates/db/src/watch.rs:38-71 | Without a row for the inode nothing changes; otherwise its row moves and a live row of another inode at the target becomes missing |
| Store.Repository.RequeueVerified | crates/db/src/store.rs:227-257 | Exactly the verified rows below one of the allowed directories go back to verification, once, however the directories overlap |
| Reachable.RunsStayWellFormed | crates/db/src/apply.rs:13-51 | Over every interleaving of worker rounds and the other operations, pointers and references are sound, every row that relies on a group has a hash and a group of its key, and a row with the undo mark stays out of groups and of the states beyond settling |
| Reachable.RoundTablesOk | crates/core/src/worker.rs:58-84 | On tables with sound pointers and references whose rows that rely on a group have one, a round's transaction is never refused and leaves such tables |
| Reachable.RoundWellFormed | crates/core/src/worker.rs:58-84 | A round also keeps every row with the undo mark out |
| Reachable.ReachableWellFormed | crates/core/src/worker.rs:58-84 | Every state the tables reach from empty has sound pointers and references, and rows that rely on a group have one: what the drain starts from |
| Canonical.PointersNeverDangle | crates/db/src/apply.rs:160-207 | Over any interleaving of rounds, upserts, renames, missing marks, restores, scans, presence, parking, requeueing and purging, a group's canonical id names an existing row of that group that is canonical, gone, or missing since it was canonical |
| Canonical.OperationKept | crates/db/src/queue.rs:187-201 | Each single operation keeps every canonical pointer and every group reference sound |
| Canonical.StaleCreatePointer | crates/db/src/apply.rs:29-37 | Applied to tables that changed since they were read, a new group's pointer is sound if and only if its origin is still in the state that was read or has come into the role meanwhile |
| Filed.MembersCarryTheKey | crates/core/src/pipeline/group.rs:30-238 | Over any interleaving of operations in which no round takes an orphaned row, every row in a group carries the group's domain, size and hash, and rows that settle, are sized or are distinct belong to none |
| Filed.RoundFiledIffNotOrphaned | crates/core/src/pipeline/verify.rs:378-400 | A round keeps this if and only if the row it takes is not waiting for a canonical file that is off disk already and is not found: that file's row is marked missing once more and forgets that it was canonical |
| Filed.SizesAgree | crates/core/src/pipeline/verify.rs:126-134 | While members carry their group's key, two files about to be compared have equal domain, size and hash, so the alarm about different sizes cannot be raised |
| Orphan.OrphanIsReachable | crates/core/src/pipeline/verify.rs:378-400 | Reachable tables whose members all carry their group's key can hold such a row, next in the queue |
| Orphan.AlarmIsReachable | crates/core/src/pipeline/verify.rs:126-134 | A run from empty tables over three equal files, of which two are lost, found again and grow, ends in tables on which the next round raises the alarm about different sizes, though every file is as its row says |
| Unique.KeysStayUnique | crates/db/src/schema.rs:98 | Over every interleaving of operations each inode has at most one row |
| StateTable.UnlistedPairs | crates/core/src/state.rs:68-124 | Of all pairs of states, exactly eleven are gone through by some worker round on well-formed tables and are not in the table of transitions |
| StateTable.RoundsStayInPairs | crates/core/src/pipeline/mod.rs:104-113 | Whatever the file system answers, the moves of a round's own row and of the rows beside it are among a fixed set of pairs of states |
| StateTable.OtherOperationsListed | crates/core/src/state.rs:68-124 | Every other operation moves a row only as the table lists, apart from an upsert that makes a gone row settle |
| History.VerifiedMeansCompared | crates/core/src/pipeline/verify.rs:74-184 | In report mode and over any interleaving of all operations, a row that is verified, or was when it vanished, was so at the start, or some round of the run compared all bytes of its open file with those of a different inode that was then the canonical file of its group, both fingerprints matching their rows; the row still names that inode and fingerprint |
| History.ReportModeOnlyVerifies | crates/core/src/pipeline/verify.rs:160-163 | From empty tables in report mode, every verified row was compared in the run and no row is ever marked as sharing extents |
| History.RoundCredit | crates/core/src/pipeline/verify.rs:136-149 | In one round a row becomes verified only by that round's own byte comparison |
| Outcomes.VerifiedIffEqual | crates/core/src/pipeline/verify.rs:74-184 | In report mode, when nothing disturbs the comparison and both files are as their rows say, the round leaves the row verified if and only if the files hold the same bytes |
| Compare.CompareBytes | crates/core/src/dedupe.rs:150-174 | Same means both files have and agree on all asked bytes, Differs names the first offset at which they differ, and an error means a pause or a failed read |
| Compare.SameIffEqual | crates/core/src/dedupe.rs:150-174 | Undisturbed, the answer is Same exactly when the first len bytes are equal |
| Compare.FirstDiff | crates/core/src/dedupe.rs:176-178 | The position found differs and everything before it agrees |
| Sampling.WindowsAreSound | crates/core/src/hash.rs:101-124 | For every u64 size, saturation included: the windows start at 0, strictly increase, stay inside the file, end exactly at its end, are at most `chunks` many, and all but the last are 4096-aligned and full |
| Spacing.WindowsAreSpread | crates/core/src/hash.rs:112-118 | In a file larger than its sample, as long as no product saturates: before each of the evenly spread starting points but the last a window starts at most 4095 bytes away |
| Spacing.NoWideGap | crates/core/src/hash.rs:112-123 | Neighbouring windows start at most the even distance and 4096 bytes apart |
| Spacing.AllWindowsRemain | crates/core/src/hash.rs:112-123 | No window is lost as a repeat once the even distance is 4096 bytes |
| Spacing.SomeWindowNear | crates/core/src/hash.rs:112-118 | Where the product saturates, a window starts just before what the saturated product gives |
| Sampling.PreimageInjective | crates/core/src/hash.rs:133-165 | Two runs feed the digest the same bytes exactly when parameters, size and every sampled window agree |
| Sampling.SmallFilesIdentical | crates/core/src/hash.rs:105-108 | For a file no larger than the sample, equal digest inputs mean equal files |
| Sampling.CutWindows | crates/core/src/hash.rs:101-124 | The loops that spread the windows and drop repeated offsets yield those windows |
| Sampling.FeedHasher | crates/core/src/hash.rs:133-165 | The hasher is fed exactly that byte string, unless a window is paused or cannot be read or the file is shorter than the size asked for |
| SqlUpsert.TransactionRefinesUpsert | crates/db/src/queue.rs:140-206 | Evaluated column by column with NULLs, three-valued logic and 64-bit wrap-around, the upsert transaction does to the stored tables exactly what the pure rule does, for every table, sighting and kind of root |
| SqlUpsert.UpdateRefinesRule | crates/db/src/queue.rs:30-97 | Every CASE of the statement writes exactly the column of the rule's decision |
| SqlUpsert.EncodeInjective | crates/db/src/row.rs:125-167 | Stored columns determine the row, so equal columns mean equal rows |
| SqlUpsert.RestorableText | crates/db/src/queue.rs:95-97 | The states the statement restores are all but missing and gone |
| SqlUpsert.NextReadyWhereIsDue | crates/db/src/queue.rs:306-316 | The queue's WHERE holds of a stored row exactly when the row is due |
| SqlUpsert.NotMissingIsLive | crates/db/src/watch.rs:111-132 | The guard of every missing mark holds of a stored row exactly when the row is live |
| Tree.PrunableIffParts | crates/core/src/scan.rs:20-31 | A directory is pruned exactly when it parts from the cursor at some component, towards an earlier name |
| Tree.LeftOutIffPrunedAbove | crates/core/src/scan.rs:29-31 | A file is left out by a resumed walk exactly when some directory above it is pruned |
| Resume.ResumeLosesNothing | crates/linux/src/walk/mod.rs:148-326 | Over any history of runs on one tree that finish, are cut, are killed between any two entries, end in an error or meet unreadable directories, and of other writers in between that delete no row, every filter-passing file that the stored cursor prunes has a row already |
| Resume.CompleteMeansListed | crates/linux/src/daemon/khoi_dau.rs:118-170 | After any such history from nothing, a run that reports completion leaves a row for every filter-passing file whose statx works |
| Progress.UndisturbedRunCompletes | crates/linux/src/daemon/khoi_dau.rs:118-170 | A run that is not stopped and reads everything takes in the whole root from whatever cursor: no cursor is left, and every filter-passing file has a row |
| Progress.RunStoresLastDone | crates/linux/src/daemon/khoi_dau.rs:158-170 | A cut run, or one that met something unreadable, stores the directory it left last of those it walked to their end before anything was unreadable, and keeps the old cursor if there is none; a complete run forgets the cursor, one whose root changed keeps it |
| Progress.LessThanABatchIsLost | crates/core/src/walk/hangdoi.rs:72-99 | Wherever a run is killed, fewer rows than a batch holds were not yet written |
| Skipping.ResumedRunSkips | crates/linux/src/walk/mod.rs:179-266 | A run resumed at a cursor takes no entry of a directory that the cursor prunes |
| Skipping.DoneIsLeftOutIff | crates/core/src/scan.rs:20-31 | Everything in a directory that a cut run got done is left out by the next one if and only if the directory is not the stored cursor or inside it |
| Skipping.NextRunSkipsDone | crates/linux/src/walk/mod.rs:179-266 | The next run takes nothing from such a directory, whatever it meets and whoever wrote rows in between |
| Skipping.CursorGoesBackIff | crates/core/src/scan.rs:20-31 | A run never stores a cursor that the old one prunes; the cursor moves back in the order of paths, and what is left out shrinks, if and only if the directory done last holds the old cursor |
| Skipping.CursorCanGoBack | crates/linux/src/daemon/khoi_dau.rs:158-170 | A history of two cut runs, from nothing, whose second one moves the cursor back |
| ScannedRows.RunWritesFound | crates/core/src/scan.rs:44-62 | However a run ends, old rows are as they were and each new one is that of a filter-passing file of the tree, sized if the file is old enough and settling until it is otherwise |
| ScannedRows.NoneLeftWaiting | crates/db/src/queue.rs:269-291 | The end of a scan leaves no row of its root waiting for a peer: with one it is due, without one it is distinct |
| Resume.RunAddsOnlyFiles | crates/core/src/walk/hangdoi.rs:72-99 | A run adds no row but those of filter-passing files of the tree |
| Resume.TurnKeeps | crates/linux/src/walk/mod.rs:179-266 | One turn of the loop keeps: open directories nest and nothing ahead lies before them; without an error so far every file is noted or still ahead; both cursors cover only what is noted or written |
| Resume.CloseKeeps | crates/linux/src/walk/mod.rs:313-326 | Closing directories moves the waiting cursor only past files that are noted, and never past an unreadable place |
| Resume.FlushKeeps | crates/core/src/walk/hangdoi.rs:59-69 | Writing the batch makes every noted file a row before the cursor becomes safe |
| Scanner.BatchInserter.WalkRoot | crates/linux/src/walk/mod.rs:95-290 | The loop with its own stack, flags and batch ends in exactly the state of the modelled walk, and reports completion only for a walk without errors of an unchanged root |
| Scanner.ScanRoot | crates/linux/src/daemon/khoi_dau.rs:118-170 | One run changes the rows and the stored cursor exactly as modelled: cleared when complete, moved only to a safe directory when cut, kept after an error |
| PathText.SqlUnderIsUnder | crates/db/src/watch.rs:19-36 | The range test of the statements holds exactly for the directory and everything component-wise below it |
| PathText.MovedKeepsRemainder | crates/db/src/watch.rs:84-99 | A moved path is the new directory followed by the components that lay below the old one |
| RenameBack.MovesExactlyTheSubtree | crates/db/src/watch.rs:73-109 | A directory rename moves exactly the component-wise subtree of its root and leaves every other path alone |
| RenameBack.RenameBackRestores | crates/db/src/watch.rs:73-109 | Renaming a directory and back restores every row but its date, if and only if nothing outside it lay under the target and no row's path collapses into the root |
| RenameBack.DirRenameTidyIff | crates/db/src/watch.rs:73-109 | A directory rename keeps at most one live row a path if and only if no moved live row lands on a live row that stays |
| Evidence.NoMissingWithoutEvidence | crates/core/src/handler/mod.rs:112-141 | For every event but the two in which the kernel reports a deletion, on any tree-consistent file system, each row newly marked missing is one whose inode is not at its recorded path |
| Evidence.MarkGoneEvident | crates/core/src/handler/rename.rs:196-200 | Marking a path and everything below it after ENOENT marks only rows whose file is not there |
| Marking.GoneIsMarked | crates/core/src/handler/rename.rs:161-200 | When something left a path and nothing is there, exactly the live rows at it and component-wise below it are missing, with their old state remembered, and the number of those below is reported; every other row and the groups are as before |
| Marking.RenamedAwayIsMarked | crates/core/src/handler/rename.rs:25-53 | A rename into an excluded directory, to a name that is filtered, or to a path that is empty again does the same to its source |
| Marking.RemovedMarks | crates/core/src/handler/mod.rs:125-128 | A reported deletion of a file marks exactly the live rows at its path |
| Marking.RemovedDirMarks | crates/core/src/handler/mod.rs:129-132 | A reported deletion of a directory marks and counts exactly the live rows at it and component-wise below it |
| Arrival.ArrivalSettles | crates/core/src/handler/mod.rs:273-369 | A file found where an event says, if it is watched and there is room: its row is at the path, restored, kept or settling anew as its fingerprint says, and other live rows of the path are missing |
| Arrival.NewArrivalSettles | crates/core/src/handler/mod.rs:354-369 | A file without a row gets one that settles, other live rows of the path are missing, and nothing else changes |
| Arrival.WriteIsPushed | crates/core/src/handler/mod.rs:306-324 | A write pushes the date of a row that settles at that very path |
| Arrival.KnownIsRenamed | crates/core/src/handler/rename.rs:56-84 | A rename of a known file out of where it was: its row is at the target with its progress, or restored if it was missing; live rows at the target, and at or below an empty source, are missing; those below are counted |
| Arrival.StrangerIsRenamed | crates/core/src/handler/rename.rs:73-84 | A rename of an unknown file clears the source and queues the file at the target, or asks for a rescan when there is no room |
| Arrival.DirIsRenamed | crates/core/src/handler/rename.rs:95-130 | A directory rename moves every row at or below it, and walks the target if there was none |
| Arrival.PassingErrorRetries | crates/core/src/handler/mod.rs:194-230 | An error number that may pass writes nothing and brings the whole event back a second later |
| LivePath.OneLiveRowPerPath | crates/core/src/handler/mod.rs:306-369 | Any sequence of file-level events, with or without back-pressure and on any file systems, keeps at most one live row for each path |
| EventHandler.Watcher.Dispatch | crates/core/src/handler/mod.rs:112-141 | Handling an event leaves the repository, and answers the follow-up work, exactly as the model of that event says |
| EventHandler.Watcher.RenameFile | crates/core/src/handler/rename.rs:56-84 | A known inode's row moves and a missing one is restored before the source is cleared; an unknown one is inserted after it |
| EventHandler.Watcher.Leave | crates/core/src/handler/rename.rs:166-187 | A path that something left is marked only after ENOENT; a file found there is upserted, a directory is walked, a temporary failure is retried |
| EventHandler.Watcher.MakeWay | crates/core/src/handler/mod.rs:335-348 | Another inode's row at the path gives way, by moving the inode's own row there or by being marked |
| Presence.FinishMarksExactly | crates/db/src/watch.rs:257-283 | Whatever happens between an accepted begin and the finish of the same root, the finish is accepted and marks exactly the root's live rows of the beginning that nobody wrote since and no accepted batch saw; every other row stays as it is |
| Presence.RefusedChangesNothing | crates/db/src/watch.rs:182-270 | A begin is accepted if and only if no session is open, a sighting if and only if one is and all of it can be written, a finish if and only if it is of the session's root; a refused act changes neither rows nor session |
| Presence.AbortMarksNothing | crates/db/src/watch.rs:197-200 | An abort changes no row and makes a later finish fail |
| Presence.SeeAllMarksNothing | crates/db/src/watch.rs:202-254 | Reporting files as seen never marks a row missing |
| Returns.SightedReturns | crates/db/src/watch.rs:202-254 | A missing row whose file an accepted batch names once is at the sighted path again, with its old state and findings if the file is unchanged, to be settled anew if not |
| Returns.RefusedIffUnknownRoot | crates/db/src/watch.rs:202-254 | A batch of distinct files is refused if and only if it would bring a file back below an unknown root |
| Presence.PresenceStore.SeeBatch | crates/db/src/watch.rs:202-254 | A batch restores its missing files and notes its keys, or is undone as a whole |
| Presence.PresenceStore.FinishSession | crates/db/src/watch.rs:257-283 | Finishing another root's session, or none, is refused; otherwise the session ends with its marks |
| Upkeep.ExpiresExactly | crates/db/src/watch.rs:286-298 | Exactly the root's missing rows last written before the cutoff are gone |
| Upkeep.PurgesExactly | crates/db/src/store.rs:365-380 | Exactly the rows that are gone longer than the retention are deleted, and exactly the pointers to them are cleared |
| Upkeep.ParkedDomainRests | crates/db/src/store.rs:203-215 | While a domain is parked no round takes a hashed row of it |
| Upkeep.ParkedDomainWakes | crates/db/src/store.rs:203-225 | Waking it makes every hashed row of it due and keeps the error it was parked for |
| Upkeep.RequeuesExactly | crates/db/src/store.rs:227-254 | Exactly the verified rows at or component-wise below one of the directories are due as hashed ones |
| Pairing.HalvesConserved | crates/core/src/handler/ghep.rs:33-116 | The order list always names each waiting half once; what a tracker's From brought in has left exactly once or still waits |
| Pairing.LeavingIsSaid | crates/core/src/handler/ghep.rs:49-116 | Each half that leaves is announced: as a rename by its own To within the window, as the rename of a Both, or as removed |
| Pairing.ToPairsWithinWindow | crates/core/src/handler/ghep.rs:127-133 | A To becomes a rename exactly when its half waits and is not too old; otherwise nothing changes and it is a file moved in |
| Pairing.HalvesJoin | crates/core/src/handler/ghep.rs:33-82 | Whatever happens in between, two halves within the window are one rename, said once even if the kernel repeats it; a later second half is a file moved in |
| Pairing.HalfExpires | crates/core/src/handler/ghep.rs:85-116 | A half whose other one does not come is reported as removed by the first tick after the window, or at the stop |
| Pairing.Pairer.ExpireOld | crates/core/src/handler/ghep.rs:85-104 | Expiry emits exactly the halves that are too old, in order of arrival, and keeps the others in order |
| Pairing.Pairer.TakeTo | crates/core/src/handler/ghep.rs:49-61 | Pairing takes the half out of the table and the list and remembers the match |
| Coalesce.EventsConserved | crates/core/src/handler/gom.rs:88-149 | In every run, events received are events emitted, counted as merged, or still held |
| Coalesce.OutputIsSubsequence | crates/core/src/handler/gom.rs:88-149 | On each path what comes out, followed by what is held, is an in-order subsequence of what went in |
| Coalesce.DroppedOnlyWhenFull | crates/core/src/handler/gom.rs:181-204 | Until eight events are held about a path none is lost but a mere write that is the last; a full slot loses at most its last one; a newcomer is dropped only if it is a mere write |
| Coalesce.LeavesOnTime | crates/core/src/handler/gom.rs:120-137 | Over any run without a stop, nothing about a path comes out before the first tick one period after its first event; that tick emits exactly what is held about it and frees its slot |
| Coalesce.BurstBecomesOne | crates/core/src/handler/gom.rs:88-117 | However many writes and closes come about a path before its tick, and whatever comes about others, one event is held for them: the close if there was one |
| Coalesce.PathsLeaveInOrder | crates/core/src/handler/gom.rs:120-137 | Of two due paths the one that came first leaves first |
| Coalesce.HeldUntilDue | crates/core/src/handler/gom.rs:88-137 | Over any events and any ticks within its period a path stays held with the time it was first seen |
| Coalesce.Coalescer.Add | crates/core/src/handler/gom.rs:88-117 | Adding an event updates the slot, the order and the counter as modelled and answers whether to flush |
| Coalesce.Coalescer.Flush | crates/core/src/handler/gom.rs:120-137 | Flushing emits urgent events, then the due paths in order of arrival |
| Throttle.RateBound | crates/core/src/throttle.rs:119-158 | From any bucket, for any attempts at any clock readings, the bytes granted, each request counted up to the burst, are at most one burst plus the rate times the time passed, and tokens stay between 0 and the burst |
| Throttle.RateBoundInSettings | crates/core/src/throttle.rs:86-158 | In bytes: over any attempts the sum of what each granted one asked for, cut to the burst, is at most the burst plus the configured rate times the time passed |
| Throttle.GrantedIffCovered | crates/core/src/throttle.rs:119-142 | An attempt is granted, and pays the bytes asked for, cut to the burst, if and only if the refilled tokens cover them; a refused one pays nothing |
| Throttle.WaitIsExact | crates/core/src/throttle.rs:129-142 | A refused attempt waits the least number of milliseconds, from one up to a second, in which the missing tokens come in |
| Throttle.TokenBucket.Acquire | crates/core/src/throttle.rs:146-158 | Every request is eventually granted, the bytes granted grow by exactly the request cut to the burst, and the bound holds over the bucket's life |
| Throttle.TokenBucket.TakeOnce | crates/core/src/throttle.rs:129-142 | An attempt takes exactly the bytes asked for, cut to the burst, or nothing, and is refused if and only if the refilled tokens are fewer |
| Rescan.SignalSurvives | crates/linux/src/lich/khoi_dong.rs:96-107 | In every run from any stored value, legacy or garbled, wherever raises land: after the conditional clear the flag is set if and only if raises landed after the snapshot and before the second read and did not go exactly round all generations; later ones are lost exactly otherwise |
| Rescan.GivingUpKeepsSignal | crates/linux/src/lich/viec.rs:64-93 | A reconcile that gives up leaves the flag set if and only if it was set at the snapshot or raised since |
| Rescan.FewRaisesSurvive | crates/linux/src/lich/viec.rs:64-93 | A reconcile in which at least one raise, and fewer than there are generations, lands before its second read never loses the signal |
| Rescan.LateRaiseIsLost | crates/linux/src/lich/khoi_dong.rs:96-107 | A run in which the only raise lands between the second read and the clear, and is lost |
| Rescan.Meta.Raise | crates/linux/src/lich/khoi_dong.rs:72-88 | A raise sets the flag to a generation different from the one it found, through wrap-around and unreadable values |
| Units.BytesRoundTrip | crates/core/src/config/parse.rs:98-112 | Every u64 number of bytes survives printing and parsing |
| Units.DurationRoundTrip | crates/core/src/config/parse.rs:115-124 | A duration survives printing and parsing exactly when it is not negative; a negative one does not parse |
| Units.SplitPrinted | crates/core/src/config/parse.rs:23-35 | A printed number with a unit name splits into that number and that name |
| Decimal.ParsePrinted | crates/linux/src/lich/khoi_dong.rs:82-84 | A printed u64 parses back |

## Left out

- System calls, watches, mounts and capability probing: the file system is an arbitrary function from paths to answers.
- SQLite itself, migrations, the actor channel: each operation is one atomic change of two maps; database errors do not occur, apart from the constraint errors the code raises itself.
- `dedup_events` and `dedup_journal`, and with them `recovery.rs`: no row or group depends on them.
- BLAKE3, glob patterns, magic bytes and temporary names: arbitrary functions; of the hash only its input is modelled.
- Overflow of `i64` times and of the `u32` attempt counter: those are unbounded, apart from the saturating operations, which are written out.
- The columns `duration_ms` and `probe_status`, and `priority` as a patch column: no step modelled here writes them.
- `admin` commands, `undo` and `unskip`: no operation sets the undo mark. Tables may hold rows that carry it: the upsert rule and its SQL form treat it in full, the drain does not care, and `Reachable` asks only that such a row is in no group and in no state beyond settling.
- `bau_lai_canonical`, `remote` and `reconcile` walks, time windows and the command line: they would add members of the kinds proved here.
- Resume.ResumeLosesNothing: assumes one file system without mount boundaries, and a tree, filter and statx answers that do not change between the runs; a file whose statx fails in one run only may be left out by the next.
- Drain.RoundLowers: holds the clock still during a drain, as the worker's context does.
- StateTable.UnlistedPairs: takes its rounds on well-formed tables, not only on reachable ones.
- Orphan.AlarmIsReachable: one run, on three shares in one domain; it says that the alarm can be raised, not when.
- Throttle.RateBound: uses reals for the source's floating point, and one thread.
- Rescan.SignalSurvives: assumes one raising thread and successful reads and writes of the flag.
- LivePath.OneLiveRowPerPath: excludes renames of directories, for which RenameBack.DirRenameTidyIff gives the exact condition.
- EventHandler.Watcher.RenameFile: requires one row an inode, the table's constraint, which Unique.KeysStayUnique keeps.
- Arrival.KnownIsRenamed: excludes a target at or below an empty source, which a rename cannot leave behind.
- Returns.SightedReturns: takes a batch that names the file once.
- Spacing.WindowsAreSpread: excludes sizes for which a product leaves the `u64`; for those Spacing.SomeWindowNear says where windows start.
- Outcomes.VerifiedIffEqual: takes a comparison that nothing disturbs; Outcomes.ErrorHasItsConsequence covers the others.
- Back-pressure counts (`DemHangDoi`) are an arbitrary answer per owner: whether a queue has room is not derived from the rows.
- Counters kept for reports only (files added, rejected, directories walked) and log output.
