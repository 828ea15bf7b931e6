# A verified model of vcache

vcache is a compilation cache. A daemon keeps build results on disk and in S3,
lets one process compile a key while others wait, and admits compilers by
memory. A client decides from hashes and traces whether a cached result may
stand for a real run. This project models those parts in Dafny and proves what
they promise, over every input, every run or every interleaving.

`dafny verify dfyconfig.toml` checks the whole project.

## How it is laid out

State that the source updates in place is a class, and each method of the class
is proved to compute a step of a pure model. The model has the state as a
datatype, the steps as functions, an invariant, and theorems about whole runs.
Each critical section under the daemon's lock is one step. Loops that build
strings or lists are methods proved against specification functions.

| files | subject |
|---|---|
| `UploadQueueModel`, `UploadQueue`, `UploadRuns`, `UploadRaces`, `UploadCrashes` | the upload queue, the store path that drives it, S3 as a map, the disk journal, crashes |
| `UploadAttempts`, `UploadOrder`, `UploadMemory`, `UploadWatches` | more about its runs: when an upload is given up, which one is taken next, what memory it takes, what a refused store waits for |
| `Leases`, `LeaseOutcomes`, `LeaseTables`, `Admission`, `AdmissionOutcomes`, `Jobserver` | single-flight leases, memory admission, make jobserver tokens |
| `TraceLog`, `HitSoundness`, `FileTrees`, `TreeHits`, `ManifestCheck`, `AbsentCollapse`, `FileMemo` | why a hit is sound: the tracer's log, what an entry pins in a file tree, how it is checked, the digest memo |
| `Preprocessed`, `Linemarker`, `PreprocessedRelocation`, `PatternScan` | streaming forms that equal a definition on the whole input, and what they hide of a tree's place |
| `Sha256`, `Sha256Words`, `Sha256Constants`, `Sha256Example` | the digest as a stream, its word functions bit by bit, its constants as roots of primes, its published example |
| `Roots`, `Depfile`, `DepfileLayout`, `Trim`, `Paths` | path mapping, dependency files and their grammar, eviction |
| `Text`, `Common` | lines, substrings, sums and concatenations |

## What turned out not to hold as promised

- A store refused while its key is idle holds no refusal record, so nothing
  tells it that a later store of the key has been accepted
  (`AcceptOvertakesExactly`), and it starts its own upload all the same. If that
  later store has drained, S3 ends with the older one
  (`StaleRunOverwritesTheNewest`); if it is still waiting, the counters stop
  balancing (`WaitingRunUnbalances`). The upload keeps everything if and only if
  the key is not waiting and no store that arrived later has been accepted
  (`SyncKeepsExactly`); from any state of a run, a resume against that can do one
  of the two kinds of harm (`UndisciplinedResumeHarms`). The run theorems are for
  runs that keep to it, and in those the newest store wins (`NewestWins`).
- A crash can undo an upload. A store that the disk did not take is queued in
  memory, and the marker of an older store of its key, which did go to disk,
  stays. After a crash, recovery sends what is on disk, so S3 ends with the
  older store, even where the newer had reached it
  (`RecoveredRunOverwritesTheNewest`). From any state of a run, a crash and the
  recovery of a key keep its newest accepted store if and only if the key has a
  marker and that store went to disk, or the key has none and the store is in S3
  (`CrashKeepsExactly`, `RecoveryExactly`). With crashes only where that holds, the newest store wins
  (`NewestWinsSafely`).
- A store is not always tried three times. Failed sends are counted per key: a
  store accepted while a retry of its key waits takes over that retry's count, and
  one accepted after two failures is given up after a single send
  (`MergedStoreGivenUp`). A store whose sends fail is given up at the third,
  counting those it inherited (`GivenUpAtTheThird`), so after three of its own if
  and only if no retry of its key was waiting when it was accepted
  (`OwnSendsExactly`).
- A manifest entry pins what a run found only where a probe found a regular
  file or got ENOENT. In a file tree that settles more: a directory above a
  file that a hit demands, and anything below such a file or an absence. For
  every run, of programs that write as well, a hit gives the same answers in
  every file tree if and only if every probe that matters is settled so, or the
  entry demands what no tree can have (`TreeSoundExactly`). A directory in which
  nothing was found, an ENOTDIR below a file that was not read, and a refused
  path are not settled (`DirectoryProbeIsNotPinned`).
- Moving a tree keeps canonical forms, and the linemarkers made of them,
  exactly for the paths under a root (`RelocationExactly`, `RelocatedMarker`). Of a
  whole preprocessed text, what is hashed stays the same exactly when every path in
  the tree is under a root and, in a pragma, is looked at (`RelocatedText`).
- A dependency file is read back as it was printed exactly when it is well
  formed (`RoundTripExactly`).
- A tear in the trace log that is never announced is believed: the torn read
  and the record after it are taken for one path (`SilentTearIsBelieved`).
- The digest memo agrees with hashing if and only if timestamps lag by less than
  the settled window (`WindowIsExact`).

The promise that metered grants fit in MemAvailable does hold. A grant keeps the
sum within it exactly when its estimate is not zero or the sum was within it
before (`GrantFitsExactly`), and no estimate is zero: a request without one takes
the default, and the configuration accepts only positive defaults
(`src/daemon/server.cc:1111-1115`, `src/core/config.cc:158-163`).

## Model

| member | source | states |
|---|---|---|
| UploadQueueClass.UploadQueue.DropHeld | src/daemon/upload_queue.cc:44-56 | a held blob is let go and its bytes stop counting, unless a flight pins the same blob, which then counts them itself |
| UploadQueueClass.UploadQueue.ReleaseFlightPin | src/daemon/upload_queue.cc:58-65 | a flight's pin goes, and its bytes with it if they were counted outside the held blobs |
| UploadQueueClass.UploadQueue.ForgetQueued | src/daemon/upload_queue.cc:67-77 | a waiting key leaves the queue, its order, the held blobs, the generations and the journal, and nothing else changes |
| UploadQueueClass.UploadQueue.OvertakeRefusals | src/daemon/upload_queue.cc:79-83 | the loop marks every refusal of the key overtaken and no other |
| UploadQueueClass.UploadQueue.SupersedeInFlight | src/daemon/upload_queue.cc:85-96 | a refused store behind a flight gets a new refusal, supersedes the flight and overtakes older refusals |
| UploadQueueClass.UploadQueue.BeginSync | src/daemon/upload_queue.cc:124-130 | zero exactly when the key is already in flight; otherwise the next generation goes into flight |
| UploadQueueClass.UploadQueue.WatchFlight | src/daemon/upload_queue.cc:132-138 | a refusal record for the flight the key has, or none |
| UploadQueueClass.UploadQueue.RefusalStillInFlight | src/daemon/upload_queue.cc:104-110 | whether the refusal is there and its key's flight is the one it names |
| UploadQueueClass.UploadQueue.TakeRefusal | src/daemon/upload_queue.cc:140-146 | the record is removed, and the answer is whether something newer overtook the store |
| UploadQueueClass.UploadQueue.Enqueue | src/daemon/upload_queue.cc:148-211 | refused exactly when the blob, with those held and those in flight, would exceed the cap; otherwise the newest store is queued, or held behind the flight, at a new generation |
| UploadQueueClass.UploadQueue.TakeReady | src/daemon/upload_queue.cc:213-235 | the loop takes the first item in order whose time has come, and puts its key in flight with its blob pinned |
| UploadQueueClass.UploadQueue.Finish | src/daemon/upload_queue.cc:237-270 | a flight overtaken by a newer accepted store puts that store back; any other leaves nothing behind |
| UploadQueueClass.UploadQueue.Requeue | src/daemon/upload_queue.cc:272-294 | a failed flight waits again, with the newest value if it was rewritten, or is dropped if a refused store superseded it |
| UploadQueueModel.HoldFits | src/daemon/upload_queue.cc:156-198 | a store that passes the cap check leaves the counter at exactly the figure checked |
| UploadQueueModel.RefusesExactly | src/daemon/upload_queue.cc:156-176 | with the accounts right, a store is refused if and only if taking it would put more bytes in memory than the cap; one to be read from disk never is |
| UploadQueueModel.CallsKeepAccounts | src/daemon/upload_queue.cc:44-294 | any sequence of calls with any arguments keeps the accounts exact and within the cap |
| UploadQueueModel.HeldBytesExactAndCapped | src/daemon/upload_queue.cc:44-294 | after any sequence of calls on a queue that started empty the counter equals held sizes plus sizes pinned outside held, is never negative and never above the cap |
| UploadRuns.NoLostUpdate | src/daemon/upload_queue.cc:79-294 | in every run the newest accepted store of a key, by arrival and whatever is recovered, is waiting at the current generation with its own value, in flight, in S3 as the last thing sent, given up, taken over by a refused store nothing has overtaken, left to its own marker by a crash, or lost in one |
| UploadRuns.LastArrivalStands | src/daemon/upload_queue.cc:79-96 | in every run the store that arrived last for a key, recovery being no arrival, has been accepted, or was refused and nothing has overtaken it, or was refused and ended by a crash |
| UploadRuns.NewestWins | src/daemon/server.cc:684-754 | when everything has drained by successful uploads, S3 holds for every key whose newest accepted store no crash has lost that store, which is the one that arrived last unless a crash ended that one before it was accepted |
| UploadRuns.LostExactly | src/daemon/server.cc:625-645 | a newest accepted store is lost by exactly one kind of step, a crash that finds it in memory beside a marker, or with no marker and not in S3, and until a newer store is accepted |
| UploadRuns.CrashKeepsExactly | src/daemon/server.cc:1403-1411 | from every state of a run, after a crash and recovery the newest accepted store of a key is on its way or safe in S3 if and only if the key has a marker and the store went to disk, or the key has none and the store is in S3 |
| UploadRuns.SafeCrashesLoseNothing | src/daemon/server.cc:625-645 | a run whose crashes all meet that condition loses no store |
| UploadRuns.NewestWinsSafely | src/daemon/server.cc:684-754 | in such a run, when everything has drained, S3 holds the newest accepted store of every key |
| UploadCrashes.RecoveryExactly | src/daemon/server.cc:701-707 | from every state of a run, a crash, the recovery of a marked key and its upload leave the newest accepted store in S3 if and only if it went to disk, and otherwise the older one for good |
| UploadCrashes.RecoveredRunOverwritesTheNewest | src/daemon/upload_queue.cc:181-210 | for every key, cap and two values: a run in which the newer has reached S3, and crash and recovery put the older back |
| UploadRuns.RewriteGoesBack | src/daemon/upload_queue.cc:237-294 | a flight of an older generation puts the current value back when it ends, however it ends |
| UploadRuns.AcceptOvertakesExactly | src/daemon/upload_queue.cc:79-83 | an accepted store overtakes a refused store of its key if and only if that one holds a refusal record; one without is left stale |
| UploadRuns.OvertakenStays | src/daemon/upload_queue.cc:140-146 | being overtaken lasts through every step until the refused store resumes |
| UploadRuns.OvertakenGivesUp | src/daemon/server.cc:1413-1446 | an overtaken store drops its record and uploads nothing |
| UploadRuns.SyncKeepsExactly | src/daemon/server.cc:1413-1446 | a refused store that starts its own upload keeps everything a run keeps if and only if its key is not waiting and no store of it that arrived later has been accepted |
| UploadRaces.WaitingSyncUnbalances | src/daemon/server.cc:1413-1446 | from any state of a run, an upload beside a waiting store of its key can be followed by steps after which the counters do not balance |
| UploadRaces.StaleSyncOverwrites | src/daemon/server.cc:1413-1446 | from any state of a run, the upload of a stale store can land last, with its older bytes in S3 and nothing left to repair it |
| UploadRaces.UndisciplinedResumeHarms | src/daemon/server.cc:1413-1446 | from any state of a run, a resume against the condition can be followed by steps that do one or the other |
| UploadRaces.StaleRunOverwritesTheNewest | src/daemon/server.cc:1413-1446 | for every key, cap and two stores of which only the older is too big: a run in which the newer has been sent when the older resumes, everything drains, and S3 holds the older |
| UploadRaces.WaitingRunUnbalances | src/daemon/server.cc:1413-1446 | for all such, a run in which the newer store is waiting when the older resumes: the counters do not balance |
| UploadRuns.CountersConserved | src/daemon/server.cc:1558-1559 | in every run queued uploads equal done, failed, skipped, waiting and in flight together, and the pending figure shown is not negative |
| UploadRuns.JournalCrashSafety | src/daemon/server.cc:625-645 | in every run with crashes, a key whose newest accepted store is on disk and whose generation has not finished has its marker, and recovery after a crash queues that same store again from disk |
| UploadRuns.MarkerRemoval | src/daemon/upload_queue.cc:148-294 | a marker goes only when the current generation finishes or a refused store takes the upload over |
| UploadRuns.UnmarkingTakesOver | src/daemon/server.cc:1409-1472 | a refused store that unmarks a waiting key has taken its upload over, with its own bytes |
| UploadRuns.StepKeeps | src/daemon/server.cc:647-754 | every step of the store path, a worker, the disk or a crash keeps the whole invariant |
| UploadAttempts.GivesUpExactly | src/daemon/server.cc:709-747 | the end of a flight gives its key up if and only if it did not land, is of the newest accepted store, and was an upload by the storing thread, or found its disk entry gone, or has no attempt left |
| UploadAttempts.GivenUpAtTheThird | src/daemon/server.cc:709-747 | in every run a worker's failed send gives its key up if and only if it is the third, counting the failed sends that the store inherited from the retry it replaced |
| UploadAttempts.OwnSendsExactly | src/daemon/upload_queue.cc:203-210 | in every run a store whose send failed waits again with fewer than three failures, inherited ones included, and is given up with three: after three of its own if and only if it inherited none |
| UploadAttempts.MergedStoreGivenUp | src/daemon/upload_queue.cc:203-210 | for every key, cap and two values: a run in which the second store is given up after the one send it got |
| UploadAttempts.RetryWaitsItsTime | src/daemon/server.cc:717-722 | in every run no upload is taken before the time its last failed send set, even when a newer store has taken its place |
| UploadOrder.LongestWaitFirst | src/daemon/upload_queue.cc:213-235 | in every run, while any upload's time has come a worker gets one: of those whose time has come, the one whose present wait began first |
| UploadMemory.MemoryIsCapped | src/daemon/upload_queue.cc:44-65 | in every run all blobs in memory, held for later or only in a worker's hands, are within the counter, and that within the cap |
| UploadMemory.StepCovers | src/daemon/upload_queue.cc:44-65 | every step keeps every blob a worker has counted, where it is held or on its pin |
| UploadWatches.RefusalWaitsForOneFlight | src/daemon/upload_queue.cc:104-122 | in every run a refused store waits exactly while the flight it found is going on, and for no later flight of its key |
| LeaseServerClass.LeaseServer.CompleteLease | src/daemon/server.cc:790-804 | the outcome of the key's lease is set once, and an entry with nothing left in it goes |
| LeaseServerClass.LeaseServer.ExpireLeases | src/daemon/server.cc:806-820 | the loop decides exactly the leases the session holds that have no store in progress |
| LeaseServerClass.LeaseServer.Acquire | src/daemon/server.cc:822-903 | a key without a lease gets one; the holder is granted, anyone else waits on it |
| LeaseServerClass.LeaseServer.EndWait | src/daemon/server.cc:860-903 | a waiter is told the outcome of the lease it waited on, if there is one |
| LeaseServerClass.LeaseServer.Release | src/daemon/server.cc:905-926 | only the holder's release completes the lease |
| LeaseServerClass.LeaseServer.PutBegin | src/daemon/server.cc:1384-1395 | a store is credited to the key's lease when its process is the holder's as far as either is known |
| LeaseServerClass.LeaseServer.PutEnd | src/daemon/server.cc:1478-1487 | the credit is returned, and if the lease is still the key's it is decided: stored if the store stored, and otherwise compile, because the holder failed |
| LeaseServerClass.LeaseServer.OpenSession | src/daemon/server.cc:1646-1667 | a session opens unless the daemon stops or the process has one |
| LeaseServerClass.LeaseServer.CloseSession | src/daemon/server.cc:1695-1722 | a session's end expires its leases |
| LeaseServerClass.LeaseServer.Shutdown | src/daemon/server.cc:1763-1804 | every undecided lease is decided as compile and the table emptied |
| LeaseModel.LeaseProtocol | src/daemon/server.cc:790-926 | in every run: one holder per key, every lease in the table backed by an open session or a store, and "stored" told only if a credited store stored or the holder said so |
| LeaseModel.RunEvolves | src/daemon/server.cc:790-926 | over every run a decided lease keeps its outcome and reason, and leases keep key and holder |
| LeaseModel.StepKeeps | src/daemon/server.cc:790-926 | every step keeps the invariant, and a lease is decided only by its own credited store, its holder's release or end, or shutdown |
| LeaseOutcomes.StepDecidesExactly | src/daemon/server.cc:790-926 | an undecided lease is decided by a step if and only if that is its own credited store's end, its holder's release or end, or shutdown, and with the outcome and reason that step gives |
| LeaseOutcomes.OutcomeIsTheFirstWord | src/daemon/server.cc:790-926 | in every run a lease that neither its holder's end nor shutdown decided has the outcome of the first word of anyone entitled to speak, and none before it; every waiter told anything was told that |
| LeaseOutcomes.WaiterIsTold | src/daemon/server.cc:860-903 | a wait that ends on a decided lease tells its outcome, and one on an undecided lease nothing |
| LeaseOutcomes.AcquireAnswers | src/daemon/server.cc:822-860 | a session that asks has the key's lease or waits on it, and a key without a lease gets one that the session holds |
| LeaseOutcomes.StoreIsCredited | src/daemon/server.cc:1384-1395 | a store goes without credit if and only if its key has no lease or both processes are known and differ |
| LeaseTables.TableIsExact | src/daemon/server.cc:1236-1281 | in every run a key is in the table exactly while it has an undecided lease or a fetch, with the first fetch to begin while none was going on; and no two open sessions are of one process |
| LeaseTables.OpensExactly | src/daemon/server.cc:1646-1667 | a session opens if and only if the daemon is not stopping and no open session is of its process |
| AdmissionClass.Admission.UnrealisedKb | src/daemon/server.cc:928-935 | the loop computes the saturating sum of estimates not yet realised, whatever the order |
| AdmissionClass.Admission.AvailableKb | src/daemon/server.cc:937-940 | MemAvailable less that sum, and never below zero |
| AdmissionClass.Admission.GrantMemoryWaiters | src/daemon/server.cc:1053-1088 | the loop drops waiters gone or expired and grants from the head until one does not fit |
| AdmissionClass.Admission.UpdateAdmission | src/daemon/server.cc:942-1039 | samples move realised sizes and peaks, and granting follows |
| AdmissionClass.Admission.RememberTreePeak | src/daemon/server.cc:1090-1094 | a cost key remembers the largest peak seen |
| AdmissionClass.Admission.Reserve | src/daemon/server.cc:1121-1155 | a session with a reservation is granted at once; another joins the end of the queue and granting follows |
| AdmissionClass.Admission.TimeOut | src/daemon/server.cc:1144-1155 | a waiter whose bound passed leaves the queue and granting follows |
| AdmissionClass.Admission.CompilerSpawned | src/daemon/server.cc:1166-1203 | a spawned compiler resets what its reservation has realised |
| AdmissionModel.GrantFitsExactly | src/daemon/server.cc:1053-1088 | a grant beside others leaves the sum within MemAvailable if and only if its estimate is not zero or the sum was within it before |
| AdmissionModel.GrantsArePrefix | src/daemon/server.cc:1053-1088 | granting takes a prefix of the queue and grants exactly those of it neither gone nor expired, in order |
| AdmissionModel.GrantsLeaveRest | src/daemon/server.cc:1053-1088 | what is left is the rest of the queue, in order, with at most its head's estimate raised |
| AdmissionModel.SpawnedKeeps | src/daemon/server.cc:1166-1203 | announcing a compiler can only lower what is available, so a blocked head stays blocked |
| AdmissionModel.MemoryAdmission | src/daemon/server.cc:942-1164 | in every run grants are in arrival order, every metered grant beside others fits, and a queue stalls only behind reservations that leave too little for its head |
| AdmissionOutcomes.RoundSettles | src/daemon/server.cc:1053-1088 | of the waiters a round takes, one gets a reservation if and only if it has not hung up and its deadline has not come, for its estimate or the peak of its cost key if that is higher; the others get none |
| AdmissionOutcomes.PeaksAreMeasured | src/daemon/server.cc:1003-1094 | in every run the peak of a cost key is the highest figure measured, while its compiler could be seen, of a reservation of that key that has ended, and every waiter is a request as made, with its deadline |
| AdmissionOutcomes.SampleMovesSum | src/daemon/server.cc:1014-1027 | a measurement changes the sum of unrealised estimates only with a fresh MemAvailable, before the first one, or where the compiler cannot be seen |
| AdmissionOutcomes.StaleSamplesFreeNothing | src/daemon/server.cc:1014-1027 | samples of running, visible compilers leave what is available as it was until MemAvailable is read again |
| JobserverModel.SignedTokenChange | src/daemon/jobserver.cc:56-65 | tokens are withdrawn exactly when compiles wait, bytes are there and the floor allows, as many as the least of the three; one is restored exactly when none wait, some are withdrawn and memory is there |
| JobserverClass.JobserverPool.Withdraw | src/daemon/jobserver.cc:204-217 | the read loop, interrupted, cut short or interleaved with clients, takes what the model says |
| JobserverClass.JobserverPool.Restore | src/daemon/jobserver.cc:219-231 | the write loop returns what the model says |
| JobserverClass.JobserverPool.TickJobserver | src/daemon/server.cc:1214-1230 | a tick applies the signed change |
| JobserverModel.TokensConserved | src/daemon/jobserver.cc:168-231 | in every interleaving fifo bytes, withdrawn and client-held tokens add up to slots - 1, and slots less withdrawn stays at the floor or above |
| JobserverModel.TicksRestoreAll | src/daemon/server.cc:1214-1230 | ticks with nobody waiting and memory to spare give back one token each, until none is withdrawn |
| JobserverModel.WithdrawsAll | src/daemon/jobserver.cc:204-217 | however short its reads, a withdrawal that nothing disturbs takes all that is wanted or all there is |
| JobserverModel.TickWithdraws | src/daemon/server.cc:1214-1230 | a tick while compiles wait withdraws as many tokens as wait, are there and the floor allows, whichever is least |
| JobserverModel.OpenOk | src/daemon/jobserver.cc:168-179 | a new pool starts with slots - 1 tokens and the invariant |
| Tracer.BuildRecord | src/trace/fstrace.c:149-188 | filling the buffer gives the record of the absolute path exactly when the directory is known, the path fits and has no newline or tab; otherwise nothing |
| TracerClass.Log.Emit | src/trace/fstrace.c:149-202 | one call is a run of the protocol: one whole record, or a loss that is then announced |
| TracerClass.Log.MarkIncomplete | src/trace/fstrace.c:96-127 | the marker file, or the sentinel in the log if that fails |
| TraceFormat.SentinelRefused | src/trace/fstrace.c:96-105 | wherever a whole sentinel lands, even after a torn record, no reader trusts the log |
| TraceFormat.ReadTraceRecords | src/core/link_trace.cc:60-89 | refuses a cut-off log or any bad line; otherwise returns every record by kind and in order |
| TraceFormat.WholeLogReadsBack | src/core/link_trace.cc:60-89 | a log of whole records is trusted and read back exactly |
| Tracer.AllOrNothing | src/core/link_trace.cc:60-94 | in every interleaving of appends by any number of processes, once each loss is announced the reader refuses a log that lost a record, and otherwise returns exactly the records emitted |
| Tracer.SilentTearIsBelieved | src/trace/fstrace.c:96-105 | without the announcement, any read torn before its newline and any record after it are accepted and read as one path, which no record attempted, or that a tracer can make, names |
| TraceClasses.ParseTraceLog | src/core/link_trace.cc:182-236 | reads, loads and writes are inputs; a path also read is not an absence; nothing else is lost but outputs and ignored paths |
| TraceClasses.IgnoredExactly | src/core/link_trace.cc:24-58 | a path is ignored if and only if it is not absolute, is /proc, /sys or below, is one of four devices, is below /dev/pts, or ends in a dot component: whole components, not prefixes of names |
| TraceClasses.KeptExactly | src/core/link_trace.cc:182-236 | every traced path is kept, in normal form, unless it is ignored by that rule or is an output |
| ProbingProgram.RunIsUnique | src/core/link.cc:109-131 | a deterministic adaptive program has one run in one file system |
| ProbingProgram.SameAnswersSameRun | src/core/link.cc:109-131 | if a file system answers every probe of a run alike, the rerun is that run, output included, and no other exists |
| LinkManifest.HitIsSound | src/core/link.cc:109-131 | if the pre-key is the same and the entry holds, a rerun of a pinned run makes the same probes, gets the same answers and gives the same output |
| LinkManifest.SoundExactly | src/core/link.cc:507-553 | over all functions from paths to nodes: a hit gives the same answers if and only if every probe that matters was pinned, or the entry can never hold |
| LinkManifest.ProbesPinnedExactly | src/trace/fstrace.c:204-210 | for a program that only probes: every probe outside outputs and ignored paths found a regular file, or got ENOENT at a path that was not loaded later |
| TreeHits.TreeHitIsSound | src/core/manifest.cc:39-43 | in file systems closed under parents, a hit on a run whose probes are settled stands for a rerun: directories above a demanded file and anything below one or below an absence need no record of their own |
| TreeHits.PinnedIsSettled | src/core/link.cc:524-543 | what an entry pins by itself is settled in every file tree |
| TreeHits.HitMeets | src/core/link.cc:109-131 | a hit holds exactly where the files demanded have their contents, the absences are shown and named paths that were no file are none |
| TreeHits.TreeSoundExactly | src/core/link.cc:524-553 | over file systems closed under parents, for every run of programs that probe, write and remove: a hit gives the same answers if and only if every probe of what the run had not made itself is settled, or what is demanded fits in no tree |
| TreeHits.ProbesSoundExactly | src/core/link.cc:524-553 | for a program that only probes, in a closed file system: if and only if every probe that matters is settled |
| TreeHits.DirectoryProbeIsNotPinned | src/core/link.cc:524-543 | a directory probed with no demanded file below it can be gone in a closed file system in which the entry still holds |
| ManifestCheck.FindStaleManifestFile | src/core/manifest.cc:20-31 | nothing exactly when every recorded file hashes as recorded; otherwise the first that does not, and whether it is gone or changed |
| ManifestCheck.FindAppearedPath | src/core/manifest.cc:33-46 | nothing exactly when every recorded absence gives ENOENT or ENOTDIR; otherwise the first that does not |
| ManifestCheck.LinkManifestStillHolds | src/core/link.cc:109-131 | true exactly when every recorded input hashes the same and every recorded absence is still shown |
| ManifestCheck.RecordLink | src/core/link.cc:507-553 | tools, unnamed hashable inputs and absences, in canonical paths |
| ManifestCheck.EntryMeans | src/core/link.cc:109-131 | an entry in canonical paths holds exactly when the local files and absences it stands for do |
| ManifestCheck.MappedPathsComeBack | src/core/roots.cc:424-435 | paths the root mapping covers, or that no canonical prefix covers, survive being stored in canonical form |
| LinkHit.CheckIsStillHolds | src/core/link.cc:109-180 | the check of a recorded link decides exactly what its trace pinned, and that the tools are what they were |
| LinkHit.LinkHitIsSound | src/core/link.cc:109-180 | same pre-key and a passed check, in a file system closed under parents: the tools are the same, and a rerun of a run whose probes are settled is the recorded run |
| LinkHit.OthersBetween | src/core/link_trace.cc:75-86 | records of tools, loaded objects and listings, wherever they stand, change nothing of what was read, missing or written |
| LinkHit.TracedHitIsSound | src/core/link.cc:482-553 | the same from the log on: through any interleaving of appends, with the records of tools, loaded objects and listings among the run's, a log that is accepted and names a tool yields an entry whose hits are sound |
| AbsentCollapse.FindHighest | src/core/cxx_manifest.cc:670-681 | the walk, with its cache of directories, finds the highest missing ancestor below a stop |
| AbsentCollapse.AddAbsent | src/core/cxx_manifest.cc:653-683 | every absent path is recorded as its highest missing ancestor, in canonical form |
| AbsentCollapse.AbsentBelow | src/core/cxx_manifest.cc:653-660 | in any file system closed under parents, where the recorded ancestor is absent so is the path |
| AbsentCollapse.HighestIsAbsent | src/core/cxx_manifest.cc:653-683 | the recorded ancestor is absent where the path was |
| AbsentCollapse.HighestIsHighest | src/core/cxx_manifest.cc:670-681 | the recorded path is the path or above it, everything from it down was missing and no stop was passed, and it is a stop, or at the top, or its parent is there |
| AbsentCollapse.CoveredStaysCovered | src/core/cxx_manifest.cc:656-661 | a path under a root is recorded as one under a root |
| CollapsedHit.CollapsedHitIsSound | src/core/cxx_manifest.cc:653-683 | in a file system closed under parents, a hit on the collapsed entry of a run whose probes are settled stands for a rerun |
| CollapsedHit.CollapsedHoldsAtHome | src/core/cxx_manifest.cc:653-683 | the collapsed entry still holds where it was recorded |
| CollapsedHit.CollapseNeedsClosure | src/core/cxx_manifest.cc:653-683 | without closure under parents the collapse can hide a file that appeared |
| FileMemoClass.Host.HashFileMemoizedAt | src/hash/file_memo.cc:72-103 | a lookup interleaved with anything keeps every memo right, and with nothing interleaved answers what hashing answers |
| FileMemo.StampKeeps | src/hash/file_memo.cc:16-19 | a write or replacement that stamps ctime within the window leaves every sealed identity and running lookup right |
| FileMemo.MemoAgreesWithHashing | src/hash/file_memo.cc:72-103 | with timestamps that lag by less than the window, in every interleaving a memo's digest is the content digest of every file that has, or later has, its identity |
| FileMemo.SealLasts | src/hash/file_memo.cc:72-103 | once settled and checked, an identity keeps its digest whatever happens |
| FileMemo.QuietLookup | src/hash/file_memo.cc:72-103 | a lookup that nobody disturbs answers the file's digest, does not open a memoised file, and memoises any other if and only if both its timestamps are older than the window |
| FileMemo.WholeWindowLagBreaksMemo | src/hash/file_memo.cc:16-19 | for every lag of the window or more, a lookup and a rewrite after which a memo gives the digest of other bytes |
| FileMemo.WindowIsExact | src/hash/file_memo.cc:16-19 | the memo agrees with hashing in every interleaving if and only if timestamps lag by less than the window |
| Linemarker.Unescape | src/core/preprocessed.cc:16-27 | the loop drops each escaping backslash |
| Linemarker.Escape | src/core/preprocessed.cc:29-37 | the loop escapes quotes and backslashes |
| Linemarker.EscapeRoundTrip | src/core/preprocessed.cc:13-37 | unescaping undoes escaping, and an escaped body can be closed by a quote |
| Linemarker.NormalizeLinemarker | src/core/preprocessed.cc:52-86 | the index loops compute the normal form of a line |
| Linemarker.NormalizedMeans | src/core/preprocessed.cc:52-86 | a line of the shape has its path, read without escapes, mapped and nothing else changed; any other line is left alone |
| LinemarkerRelocation.RelocatedMarker | src/core/preprocessed.h:3-16 | moving a tree and its roots keeps the normal form of a marker if and only if its path is under a root, or nothing moved |
| PreprocessedRelocation.RelocatedPragma | src/core/preprocessed.cc:138-155 | the same for the pragma of a precompiled header: if and only if pragmas are collected and its path is under a root, or nothing moved |
| PreprocessedRelocation.RelocatedText | src/core/preprocessed.cc:88-215 | for every text of linemarkers, pragmas and other lines, what is hashed of it is the same after moving the tree if and only if every path in the tree is hidden so |
| PreprocessedRelocation.HeadersCollected | src/core/preprocessed.cc:138-155 | the headers collected are those of the pragmas, unescaped and in order, and no linemarker's |
| PreprocessedLines.IncbinInRun | src/core/preprocessed.cc:126-133 | a run of lines has the directive exactly when one of them does |
| PreprocessedLines.PlainRun | src/core/preprocessed.cc:124-137 | a run of whole lines none of which starts with a hash sign is its own normal form |
| PreprocessedStream.Normalizer.Emit | src/core/preprocessed.cc:107-122 | batching changes no byte of what is hashed |
| PreprocessedStream.Normalizer.FeedLine | src/core/preprocessed.cc:138-159 | a line adds its normal form, its directive or its pragma path, or fails the pass |
| PreprocessedStream.Normalizer.TakeChunk | src/core/preprocessed.cc:161-207 | a read, however it cuts lines, is taken whole: the lines done and the partial one together are the text read |
| PreprocessedStream.HashNormalizedPreprocessedOutput | src/core/preprocessed.cc:88-215 | for every file and every slicing into reads, success gives the concatenated normal forms, the directive flag and the pragma paths of the lines, and it succeeds exactly when reading did and no pragma is malformed |
| Sha256Class.Schedule | src/hash/sha256.cc:65-75 | the loops compute the message schedule of section 6.2.2 of FIPS 180-4, whose word functions and constants are pinned below |
| Sha256Class.RunRounds | src/hash/sha256.cc:77-95 | the round loop with its shifting variables computes the rounds of that section |
| Sha256Class.Sha256.CompressBlock | src/hash/sha256.cc:65-105 | one block is compressed into the state in place |
| Sha256Class.Sha256.Update | src/hash/sha256.cc:107-134 | whatever is buffered, the object then stands for everything fed so far |
| Sha256Class.Sha256.Final | src/hash/sha256.cc:136-162 | the digest of FIPS 180-4 of everything fed, including when the length needs another block; its word functions, constants and published example are pinned below |
| Sha256Words.ChooseBits | src/hash/sha256.cc:77-95 | bit by bit, the second word where the first has a one and the third elsewhere |
| Sha256Words.MajorityBits | src/hash/sha256.cc:77-95 | bit by bit, what most of the three words have |
| Sha256Words.BigSigma0Bits | src/hash/sha256.cc:77-95 | each bit is the parity of the bits 2, 13 and 22 places up, around the end |
| Sha256Words.BigSigma1Bits | src/hash/sha256.cc:77-95 | each bit is the parity of the bits 6, 11 and 25 places up, around the end |
| Sha256Words.SmallSigma0Bits | src/hash/sha256.cc:65-75 | each bit is the parity of the bits 7 and 18 places up around the end, and 3 places up if there is one |
| Sha256Words.SmallSigma1Bits | src/hash/sha256.cc:65-75 | each bit is the parity of the bits 17 and 19 places up around the end, and 10 places up if there is one |
| Sha256Words.BytesReadBack | src/hash/sha256.cc:33-43 | the bytes of words, most significant first, read back as the words |
| Sha256Constants.PrimesInOrder | src/hash/sha256.cc:13-27 | the numbers used are primes, each the next after the one before |
| Sha256Constants.RoundConstants | src/hash/sha256.cc:13-27 | each round constant is the first 32 bits of the fraction of the cube root of its prime |
| Sha256Constants.InitialHash | src/hash/sha256.cc:49-63 | each initial word is the first 32 bits of the fraction of the square root of its prime |
| Sha256Example.DigestOfAbc | src/hash/sha256.cc:65-162 | the digest of the one-block message of the standard's example is the published one |
| Sha256Class.DigestOfPieces | src/hash/sha256.cc:107-162 | however a message is cut up, the digest is that of the whole |
| Sha256Class.HmacSha256 | src/hash/sha256.cc:176-202 | section 2 of RFC 2104, long keys replaced by their hash |
| PatternScan.CarriedBytes | src/rust/rust_compile.cc:536-550 | what is carried between reads is one byte less than the longest pattern |
| PatternScan.TailSuffices | src/rust/rust_compile.cc:551-575 | searching the carried tail with the new bytes finds exactly what searching everything would |
| PatternScan.HashAndScanFile | src/rust/rust_compile.cc:536-582 | for every content, patterns and reads: digest and size of the whole, and a pattern reported exactly when a non-empty one occurs in the whole |
| Roots.SortRoots | src/core/roots.cc:159-166 | sorted by length then bytes, and the same roots |
| Roots.CanonicalizePath | src/core/roots.cc:206-228 | the reverse loop maps by the last covering root |
| Roots.LocalizePath | src/core/roots.cc:424-435 | the loop maps back by the first longest canonical prefix |
| Roots.BestIsFirstLongest | src/core/roots.cc:424-435 | of the canonical prefixes that the path is under the one taken is the longest, and the first of those |
| Roots.UnderExactly | src/core/roots.cc:206-228 | a path is under a root exactly when it is the root or the root, a slash and more; a name that only begins alike is not |
| Roots.PicksLongest | src/core/roots.cc:206-228 | in sorted roots the one picked is the longest that covers the path |
| Roots.OrderDoesNotMatter | src/core/roots.cc:159-166 | with distinct root paths the order of the specification does not change a canonical form |
| Roots.RelocationExactly | src/core/roots.cc:206-228 | moving path and roots keeps the canonical form if and only if the path is covered, or nothing moved |
| Roots.MovedStaySorted | src/core/roots.cc:159-166 | roots moved together are sorted if and only if they were |
| Roots.LocalizeUndoesCanonicalize | src/core/roots.cc:424-435 | with distinct canonical prefixes, none under another, and no root "/", localising undoes canonicalising for covered paths and those under no canonical prefix |
| DepfileIO.Escape | src/core/depfile.cc:55-75 | the loop escapes blanks, hash signs and backslashes and doubles dollars |
| DepfileIO.RenderDepFile | src/core/depfile.cc:124-159 | the loops print rules on one line each, then the env deps |
| DepfileIO.ExtractEnvDeps | src/core/depfile.cc:80-105 | the loop lifts env-dep lines out and leaves every other line as it was |
| DepfileIO.ParseDepFile | src/core/depfile.cc:109-122 | the env deps are those of the prefixed lines and the rules those the grammar reads from the rest; the shortcut for text without the prefix changes nothing |
| Depfile.RulesReadBack | src/core/depfile.cc:25-52 | printed well-formed rules are read back by the grammar |
| DepfileLayout.GrammarExactly | src/core/depfile.cc:25-52 | a text is read as some rules if and only if it lays them out: paths spelled plain, escaped or with doubled dollars, between any blanks and continued lines, one rule a line, among any empty lines |
| DepfileLayout.LayoutReads | src/core/depfile.cc:25-52 | every such layout is read, and as its own rules |
| Depfile.ParsedRulesGood | src/core/depfile.cc:25-52 | whatever the grammar reads from text in which backslashes stand as printed is well formed |
| Depfile.NoRuleLineIsEnvLine | src/core/depfile.cc:77-105 | no printed rule line, of any rules at all, can be taken for an env-dep line |
| Depfile.RoundTripExactly | src/core/depfile.cc:109-159 | printing and reading back gives the same file if and only if rules have targets, paths are non-empty with no colon and no whitespace but blanks, and env fields have no newline and names no equals sign |
| Trim.TrimGlobal | src/storage/disk_storage.cc:227-292 | above the high-water mark the loop removes exactly the planned entries of an oldest-first order and keeps an exact total; below it nothing; what is pinned or cannot be unlinked stays, and while a daemon lives every entry with a marker |
| Trim.EvictsOldestJustEnough | src/storage/disk_storage.cc:250-292 | the plan is a prefix of the evictable entries, enough or all, and no shorter prefix would do |
| Trim.EvictableExactly | src/storage/disk_storage.cc:250-292 | the evictable entries are those neither pinned nor stuck, as often as they are listed |
| Trim.EvictedAreFree | src/storage/disk_storage.cc:250-292 | nothing pinned or stuck is freed |
| Trim.MarkedEntryStays | src/storage/disk_storage.cc:56-70 | with a daemon alive, the entry of a key that has a marker stays, whatever is trimmed |
| Trim.ConcurrentTrimming | src/storage/disk_storage.cc:227-292 | any number of trimmers that took the same listing with the same pins, interleaved unlink by unlink, remove nothing outside one trimmer's plan, nothing pinned or stuck, and exactly that plan once any has finished |
| Trim.PinsJournalledKeys | src/storage/disk_storage.cc:56-70 | an entry is pinned exactly when the journal has a marker for its key |
| Paths.JoinedNames | src/util/fs.cc:421-432 | the directory and base name of a joined path are its parts |

## Left out

- S3 requests, signing and retries inside one upload: S3 is a map that an upload writes, and an upload may land without being reported.
- Sockets, frames, processes, signals and condition variables: only the state changes under the lock, with time as a number.
- Command-line and configuration parsing, logging, status text and test gates.
- The pre-key is its parts, not their digest; driver fingerprints, arguments and environment variables are taken as equal, because they do not touch the file system.
- Sorted vectors without duplicates are sets.
- Symbolic links and RealPath: a path names one node; `lstat` and `stat` agree.
- CanonicalizeText and LocalizeText, which are heuristics over free text; Fingerprint of a root map; RemapDepFile, which maps each path by the functions proved here.
- SelectCxxTraceInputs, WithoutDotSegments and LexicalNormal: traced paths are taken in normal form.
- The file half of AddCxxTraceInputs, which declines a trace: a declined trace stores nothing.
- Codecs, merges and counters of manifests, protocol messages, costs and statistics.
- BLAKE3: the content hash is any function, injective where the proof needs it; the digest of a stream is that of its concatenation.
- The second hasher that is fed the same text, and the null forms of optional results in the streaming normaliser.
- The tracer's interposition on libc and its reading of /proc: which call makes which record is a parameter.
- Failures of the file system while a journal marker is created or removed.
- An upload under way at a crash does not land after it; markers that no writable S3 layer lets a daemon queue stay as they are.
- UploadRuns.NewestWins: of a store on disk, what is uploaded is what the disk entry has held since the store reached the queue; two processes that write one entry at once may reach the queue in the other order.
- The 64-bit wrap-around of the held-byte counter, which is proved never to leave 0 to the cap.
- The order in which entries of equal LRU time are evicted; whether a daemon is alive to honour pins is a parameter.
- LeaseServerClass.LeaseServer.EndWait: the reply's timing fields and the wait bound itself are not modelled, only which outcome is told.
- UploadQueueClass.UploadQueue.TakeReady: the time at which the next item becomes ready is returned as the source does, and nothing is proved about waking up then.
- Directory listings: a probe answers for one path, and the tracer's listing records are read and ignored, as the source does.
- LinkManifest.HitIsSound: outputs and ignored paths are ones the program does not depend on, as the source assumes when it leaves them out of every set.
