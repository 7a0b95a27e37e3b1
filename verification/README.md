# rudder-server: a verified model of its job pipeline

Events enter through the gateway, are kept in a jobs database built on Postgres tables, are grouped into
sessions and transformed by the processor, and are delivered by one router per destination. This project
models the parts of that pipeline whose correctness spans several goroutines, several tables or a crash.

## The parts

**Router** (`Router`, `RouterUser`, `RouterInvariant`, `RouterWorkers`, `RouterGenerator`, `RouterStatus`,
`RouterOrder`, `RouterRestart`, `RouterAttempts`, `RouterProgress`). The generator, the workers and the status loop
share FIFO queues, a per-worker map of blocking jobs and a deferred clear list. Each statement that touches shared
data is one action, and a run is any interleaving. One inductive invariant, stated per user over the user's jobs in
flight from the oldest place (the status buffer) to the newest (the generator's buffer), gives per-user order, safe
clearing of `failedJobIDMap`, and both assertions. From a fresh start order holds in all runs exactly when
`maxFailedCountForJob` is at least 1: with 0 a first failure is given up at once, its entry can be cleared while a
later job is still on its way to waiting, and a third job overtakes it. A crash at any moment, followed by
`crashRecover`, leaves what `Restarted` says. From there order holds in all runs and for every batch size if each
user's failed jobs come before the waiting ones and those before the unprocessed ones, no user has more than two
failed jobs, and no open job has used up its attempts. Each of the three is needed, the second at least with a batch
of two: runs show it. From every start and with any limit, a job's attempt is told by its history: it counts the
refused posts decided with at most five users blocked, and the job is given up at exactly the one of them that comes
after the limit is used up. And from wherever a run has got to, the router can go on so that every job it has comes
to its end.

**Jobs database** (`Tables`, `Cache`, `CacheRaces`, `Layout`, `Batches`, `Migration`, `Compaction`, `Storing`,
`Reading`, `Updating`, `Maintenance`, `Rounds`, `JobsDB`). `JobsDB.HandleT` is the handle with its lists and
empty-result cache; its field `tables` stands for Postgres. Datasets stand for one flat table of rows (job, latest
status); every method is stated against that table: reads return the n smallest matching ids, updates reach exactly
the jobs named, `Store` adds unprocessed rows under new ids and reports each job, whether its bulk copy is committed
or rolled back and followed by single inserts, and a round of the check loop changes no unfinished job and brings
none back. `Rounds` says which datasets a round adds, takes away and leaves. `Valid()` holds the layout of indices
(one head k or k_j, then consecutive plain numbers), the paired tables, ascending disjoint ids, the cached ranges,
the soundness of the cache, and that no index is ever given out twice. `CacheRaces` takes the steps of reads and
writers apart: any number of them on one dataset, in any interleaving, and exactly when a mark of the cache is then
false.

**Crashes** (`Journal`, `JournalInvariant`, `JournalRecovery`, `JournalSteps`, `JournalClients`, `JournalRuns`,
`JournalWindows`, `JournalBackups`, `JournalRounds`). Every SQL statement of adding, migrating, retiring and backing
up a dataset is one step, a crash may come between any two, and recovery works from the open journal entry alone.
Over every run all unfinished jobs stay on disk with payload and latest status, none comes back, and recovery may be
interrupted at will. Two points are not covered by the journal: ADD_DS done and MIGRATE_COPY not started, and
MIGRATE_COPY done and POST_MIGRATE_DS_OP not started. Nothing is lost there, but the assertions of `getDSRangeList`
fail at the next start; they fail after a crash at one of these points and after no other, and ordinary runs lead
there. With backups on, both tables of a dataset that left the list have been uploaded before either is gone. A
round or a backup that no crash interrupts comes to its end after a known number of statements, each of which can be
made.

**Locks** (`Locks`, `LockedStore`, `LockedInvariant`, `LockedClients`, `LockedSteps`, `LockedRound`, `LockedRuns`,
`LockedWindows`). `Locks` is `dsMigrationLock` and `dsListLock` with waiting writers. `LockedStore` puts the store
of `Journal` under them: the check loop and any number of clients take and release the locks step by step, the lists
in memory are separate from the disk, an update writes one dataset after the other and a read queries one after the
other. What a client may do depends on the locks it holds alone; that the guards of `Journal` follow is proved, so
every run with locks is a run of `Journal` and all that holds there holds here. Whoever holds both locks finds each
unfinished job in exactly one listed dataset, nothing moves meanwhile, a read returns rows as they were while it ran
and misses no job that matched throughout, an update writes all its statuses, a `Store` in the middle of a migration
is kept (and there are runs in which one comes then), and somebody can always go on.

**Processor** (`Transformer`, `PriorityQueue`, `Sessions`, `Processor`, `ProcessorProgress`). `Transform` gives the
same events whichever channel operation comes first and in whatever order answers arrive, each at a known place and
with a known source id. The session buffers hold, per user and in order, exactly the jobs accepted and not handed
on, and the queue holds when each user was last seen. Across crashes a job is marked succeeded only after its
derived jobs are in both stores; without a crash they are stored once, and a crash in between can store them twice.

**Gateway and recovery** (`Gateway`, `CrashRecovery`). Both are methods over `JobsDB.HandleT`: each request gets one
message, empty exactly if its job is in the store once; `crashRecover` ends, with nothing left executing and each
executing job failed once.

## Where code and comments differ

- `checkIfMigrateDS` counts `DISTINCT(id)`, which are status rows, under a comment that speaks of jobs
  (jobsdb/jobsdb.go:490-500). That is right exactly when every terminal row is the last one of its job
  (`Migration.RemCountIff`); a second terminal row breaks it, and so does a job that goes on after one. Whenever the
  count comes to 0 too early a round drops the dataset with the unfinished jobs in it
  (`Maintenance.MiscountLosesJob`).
- `getBackupDS` says that the status table is renamed last and looks at the jobs table (jobsdb/jobsdb.go:1467-1475);
  `renameDS` renames the jobs table last, and the model follows the code.
- An empty answer is cached even when it is empty only because the matching jobs are postponed
  (jobsdb/jobsdb.go:1113, 1138-1140). `Cache.MarkingIff` gives the condition under which the mark is true,
  `Cache.PostponedIsMarked` an input for which it is not.
- A read sets its mark after its query, under locks for reading only, so a `Store` or an update can commit and clear
  in between (jobsdb/jobsdb.go:1186-1204, 1138-1140, 908-918, 1233-1248), and the mark then hides the job: one just
  stored from `GetUnprocessed`, or one just failed from `GetToRetry`. `CacheRaces.FalseIff` and
  `CacheRaces.AtRestIff` say exactly when a mark is false, `CacheRaces.OverlapHides` that every such pair of a read
  and a write has an interleaving that makes it so.
- `priorityqueue.go` calls the last slot `Top`. `PriorityQueue.TopIsOldestIff` says when it is the oldest. So a user
  who has been quiet long enough waits while the one in the last slot has not (processor/processor.go:291-324):
  `Sessions.EveryDueIff`, with a queue in `Sessions.DueUserWaits`.
- `Transform` reads `clientEvents[0]` of an empty list when `batchSize` is not positive
  (processor/transformer.go:146); `Transformer.Transform` returns an index out of range as an outcome of its own.
- `Transform` says where an element comes from by `sourceIDList[idx]` (processor/transformer.go:201, 208), in which
  `idx` is the number of the batch and the list is one of events. With batches of more than one event the derived
  job can then be stored with the source id of another event (processor/processor.go:500-504): `Transformer.WrongSource`
  has three events in batches of two. `Transformer.SourcesIff` and `Transformer.EveryServiceIff` say exactly when
  the source ids are right. With no event at all the index is out of range as soon as the empty batch is answered
  with anything.
- With sessions on, a job whose payload does not parse is marked executing and then left out
  (processor/processor.go:150-159, 566-582); only a crash makes it fetched again, to the same end.
  `ProcessorProgress.FinishedIff`: all other jobs can be finished from anywhere, and such a job never is.
- The last assertion of `Transform` (processor/transformer.go:211) holds for a one-to-one transformation only if
  every batch has one event: `Transformer.OneToOneIff`. The one call there is asks for one-to-many
  (processor/processor.go:482), for which the assertion always holds.

## Model

| member | source | states |
|---|---|---|
| RouterOrder.OrderingTheorem | router/router.go:79-503 | over every run from a fresh start a job is posted only when all smaller ids of its user are completed, completions per user ascend, a user is cleared only with nothing in flight, and both assertions on blocking jobs hold |
| RouterOrder.ResumedTheorem | router/router.go:79-531 | the same from every restart in which, per user, failed jobs come before waiting and these before unprocessed ones, at most two jobs have failed, and no open job has used up its attempts, for every batch size |
| RouterOrder.ResumedIff | router/router.go:203-233 | such restarts with jobs tried less than m times keep the order in all runs if and only if maxFailedCountForJob is at least m |
| RouterRestart.CrashRestarts | router/router.go:505-531 | after a crash at any moment of a run from a fresh start or such a restart, what crashRecover leaves is a restart again: the same jobs with the same attempts, what was executing has failed and nothing else has changed, nothing is under way, and for every user what is done comes before what is not |
| RouterRestart.OutOfTurnOvertakes | router/router.go:443-463 | for every batch size and every pair of states out of turn there is a restart, without other fault, and a run in which the later job is posted with the earlier one still to be done |
| RouterRestart.ThirdFailedOvertakes | router/router.go:443-463 | with a batch of 2 there is a restart with three failed jobs of a user, without other fault, and a run in which the third is posted while the second waits |
| RouterOrder.OrderingIff | router/router.go:203-233 | posting in order holds in all runs if and only if maxFailedCountForJob is at least 1 |
| RouterOrder.ThirdOvertakes | router/router.go:220-228 | when the first job has been tried maxFailedCountForJob times or more already, as with 0 every job has, there is a run in which job 3 is posted before job 2 |
| RouterOrder.StepKeeps | router/router.go:79-503 | every action of the three loops and of the store keeps the protocol's invariant |
| RouterOrder.InvPosts | router/router.go:116-142 | a worker about to post a job has all earlier jobs of that user behind it |
| RouterOrder.InvClears | router/router.go:387-441 | when an entry is on the clear list no job of that user is in the generator buffer, a channel, a worker, responseQ or the status buffer |
| RouterOrder.InvAssertions | router/router.go:137-139 | in findWorker and in the worker the blocking job is never larger than the job at hand, and the one let through is the blocking job |
| RouterWorkers.GateAssertion | router/router.go:116-139 | the job at hand is never smaller than the blocking one; the gate lets a job of a blocked user through exactly if it is the blocking job, and sends every other one back to waiting |
| RouterWorkers.MoveKeeps | router/router.go:94-132 | taking a job, checking the gate, posting and answering keep the invariant |
| RouterWorkers.RetagKeeps | router/router.go:182-239 | deciding an outcome, blocking the user included, keeps the invariant of the order; what it makes of the attempts is `RouterAttempts.DecidedIff` |
| RouterAttempts.AttemptsTheorem | router/router.go:182-239 | over every run from a fresh start or any restart, with any limit, a job's attempt, in the store and with every item of it under way, is what it was at the start plus its refused posts decided with at most five users blocked that did not give it up; it is given up at exactly the one of them that comes after the attempts the limit leaves it, and never twice |
| RouterAttempts.DecidedIff | router/router.go:220-234 | a refused post decided with at most five users blocked gives the job up exactly when the refusals held against it have used up its attempts, and else raises its attempt by one; with more users blocked the job fails with its attempt as it was |
| RouterAttempts.GivenUpAfter | router/router.go:220-234 | a job never tried before is given up after exactly maxFailedCountForJob + 1 such refusals |
| RouterAttempts.ExecutingIff | router/router.go:338-498 | in every run a job is executing in the store exactly while one marked item of it is in a queue or with a worker, and there is only one |
| RouterProgress.NoJobStuck | router/router.go:79-503 | from wherever a run has got to there is a way on, with every post answered well, after which every job is delivered or given up and written so and every queue is empty |
| RouterProgress.Settle | router/router.go:79-376 | from every state everything under way comes to its end, and a job whose user no other job blocks is completed by then |
| RouterProgress.Turn | router/router.go:427-463 | with nothing under way and a job to be done, one turn of the generator clears, reads and puts a job on its way whose user no other job blocks |
| RouterGenerator.ClearKeeps | router/router.go:427-441 | deleting the listed entries keeps the invariant: each user so freed has nothing in flight and nothing failed |
| RouterGenerator.ReadUnprocessedKeeps | router/router.go:443-458 | the three reads with their shared limit, sorted by id, skip no job of an unblocked user that would have to go first |
| RouterGenerator.DecideKeeps | router/router.go:267-296 | choosing the next job, or leaving it out because its user is blocked, keeps the invariant |
| RouterGenerator.SendKeeps | router/router.go:495-498 | sending chosen jobs to their workers' channels keeps the invariant |
| RouterStatus.MarkKeeps | router/router.go:476-493 | marking all chosen jobs executing in one batch keeps the invariant |
| RouterStatus.FlushKeeps | router/router.go:338-353 | writing the buffered statuses keeps the invariant |
| RouterStatus.ScanKeeps | router/router.go:355-376 | listing a user for clearing after a final status of the blocking job keeps the invariant |
| RouterUser.Cleared | router/router.go:430-438 | a user whose blocking job is done and who has nothing in flight is free again |
| RouterUser.Flushed | router/router.go:338-353 | what a written batch of statuses does to one user's rows and flow, in every stage of blocking |
| Tables.LatestFrom | jobsdb/jobsdb.go:1091-1096 | the latest status of a job is the one with the largest row id, and there is none if no row names the job |
| Tables.LimitIsFirstN | jobsdb/jobsdb.go:1108-1115 | ORDER BY job_id LIMIT n returns the n smallest selected ids in ascending order |
| Tables.FirstNExtends | jobsdb/jobsdb.go:1817-1830 | reading a later dataset for what is still missing gives the n smallest ids of both |
| Cache.EmptyAnswer | jobsdb/jobsdb.go:1043-1045 | with a sound cache a query it answers has no matching job |
| Cache.MarkingIff | jobsdb/jobsdb.go:1113-1140 | marking after an empty answer is true if and only if no matching job is merely postponed by its retry time |
| Cache.PostponedIsMarked | jobsdb/jobsdb.go:1113-1140 | a failed job whose retry time has not come gives an empty answer though a failed job is there |
| CacheRaces.FalseIff | jobsdb/jobsdb.go:1038-1250 | at every moment of every run of any number of reads, Stores and updates a mark of a custom value and state is false if and only if some read has set it since it was last cleared, and after that read's query a commit has put such a job there, or the query passed over one |
| CacheRaces.AtRestIff | jobsdb/jobsdb.go:1038-1250 | with no writer under way, a mark is false if and only if both steps of a writer fell between the query and the mark of a read that set it, or its query passed over a job |
| CacheRaces.OverlapHides | jobsdb/jobsdb.go:1138-1140 | every read that finds nothing and every write that then makes a job match have an interleaving after which the cache answers the read with nothing although the job matches |
| CacheRaces.HiddenJobs | jobsdb/jobsdb.go:1838-1840 | a stored job is hidden from GetUnprocessed, and a failed one from GetToRetry |
| Layout.BeforeTransitive | jobsdb/jobsdb.go:321-353 | the comparison of indices is transitive |
| Layout.BeforeTotal | jobsdb/jobsdb.go:321-353 | of two different indices exactly one comes first |
| Layout.SortNamesSorts | jobsdb/jobsdb.go:321-353 | sorting the names orders them and keeps their set |
| Layout.NamesSortToList | jobsdb/jobsdb.go:385-439 | whatever order Postgres lists the tables in, sorting gives the list of datasets |
| Layout.NextIndexBetween | jobsdb/jobsdb.go:588-615 | the index made for a place sorts between its neighbours |
| Layout.NextIndexFresh | jobsdb/jobsdb.go:547-560 | an index made for a place has never been used before |
| Batches.SortSorts | jobsdb/jobsdb.go:1669-1672 | a batch that names each job once is sorted strictly by id, with the same statuses |
| Batches.BelongingSlice | jobsdb/jobsdb.go:1692-1703 | the run of the batch that falls in a dataset's range is what belongs to the dataset |
| Batches.ExtendedOK | jobsdb/jobsdb.go:1209-1236 | appending statuses of unfinished jobs keeps a terminal status the last of its job |
| Migration.CopiesLive | jobsdb/jobsdb.go:812-821 | the two queries of migrateJobs select exactly the unfinished jobs |
| Migration.MigratedRows | jobsdb/jobsdb.go:810-843 | after both transactions the destination holds what it held and the unfinished rows of the source, with their latest statuses |
| Migration.RemCountIff | jobsdb/jobsdb.go:482-531 | totalCount - delCount is the number of unfinished jobs if and only if every terminal row is the last row of its job, and too small otherwise |
| Compaction.GatherStep | jobsdb/jobsdb.go:1335-1338 | after the k-th source the destination holds exactly the unfinished rows of the first k |
| Compaction.RoundKeeps | jobsdb/jobsdb.go:1298-1356 | replacing the first m datasets by one that gathered them, or by none if nothing is unfinished, keeps the store well formed and every unfinished row, and adds none |
| Maintenance.FreshIndex | jobsdb/jobsdb.go:588-619 | the index of a new dataset is neither listed nor was ever used |
| Maintenance.RemCountLive | jobsdb/jobsdb.go:482-531 | in a dataset of the store the remaining count is the number of unfinished jobs, and positive exactly if there is one |
| Maintenance.MiscountLosesJob | jobsdb/jobsdb.go:1301-1356 | whenever the remaining count of the first of two datasets is 0 the round takes it, makes no destination, and every unfinished job in it is gone |
| Maintenance.MiscountedInputs | jobsdb/jobsdb.go:482-531 | two terminal rows of one job, or a failed row after a succeeded one, bring the count to 0 with an unfinished job in the dataset |
| Maintenance.BothQueries | jobsdb/jobsdb.go:813-840 | the rows and statuses migrateJobs writes, query result by query result, are those of CopyJobs and CopyStatuses |
| JobsDB.HandleT.constructor | jobsdb/jobsdb.go:589-592 | an empty database gets dataset 1 and is a valid, empty store |
| JobsDB.HandleT.MarkClearEmptyResult | jobsdb/jobsdb.go:969-1003 | which marks are set or gone afterwards, for lists and for "all" |
| JobsDB.HandleT.IsEmptyResult | jobsdb/jobsdb.go:1005-1034 | yes exactly if both lists are given and every pair is marked |
| JobsDB.HandleT.GetJobsDS | jobsdb/jobsdb.go:1038-1207 | the answer is that of the query whether or not the cache gave it, the cache stays sound, and an empty answer, and no other, is remembered for every custom value and state asked for |
| JobsDB.HandleT.GetJobs | jobsdb/jobsdb.go:1762-1832 | the n smallest ids matching in the flat table, or all of them if fewer, ascending, each with its row |
| JobsDB.HandleT.UpdateJobStatusDS | jobsdb/jobsdb.go:1209-1251 | the statuses are appended to the dataset and the cache stays sound |
| JobsDB.HandleT.UpdateJobStatus | jobsdb/jobsdb.go:1663-1727 | every job named has its status as the latest one, every other row of the flat table is as before, and the store stays valid |
| JobsDB.HandleT.Distribute | jobsdb/jobsdb.go:1683-1725 | the sorted batch is cut into one slice per dataset that holds exactly its jobs, and the assertions on minID and on the last dataset hold |
| JobsDB.HandleT.DnumLess | jobsdb/jobsdb.go:322-352 | the loop decides the order of indices, and its assertions hold |
| JobsDB.HandleT.GetDSList | jobsdb/jobsdb.go:385-439 | the refreshed list is the ordered list of all datasets |
| JobsDB.HandleT.GetDSRangeList | jobsdb/jobsdb.go:442-474 | the ranges of all datasets but the last, and the assertions on empty and overlapping ranges hold |
| JobsDB.HandleT.Store | jobsdb/jobsdb.go:1732-1740 | the accepted jobs are new unprocessed rows under consecutive ids in order, after the ids a rolled back bulk copy used up; every job has one message, and the store stays valid |
| JobsDB.HandleT.StoreJobsDS | jobsdb/jobsdb.go:868-920 | whether the bulk copy is committed or rolled back and followed by single inserts, the last dataset gains the accepted jobs in order, the messages are those of the jobs, and the cached marks are forgotten |
| JobsDB.HandleT.CopyIn | jobsdb/jobsdb.go:874-906 | the transaction is refused exactly if some row is; then the table is untouched and the ids of the rows before it are used up; otherwise it holds all rows, with empty messages |
| JobsDB.HandleT.StoreEach | jobsdb/jobsdb.go:909-912 | single inserts give the same rows as one pass over the accepted jobs, and every empty message is replaced by the job's own |
| JobsDB.HandleT.AddNewDS | jobsdb/jobsdb.go:584-684 | a new empty dataset under an index never used before; appended, it is the last one and continues the ids; inserted, it follows the named place; all assertions hold |
| JobsDB.HandleT.IndexBefore | jobsdb/jobsdb.go:598-617 | the loop over the list finds the place and its level checks hold |
| JobsDB.HandleT.CheckIfMigrateDS | jobsdb/jobsdb.go:482-531 | a dataset is ripe exactly if it is not recent and its finished jobs or its status rows, counted as sets and rows and per job, exceed their threshold; the count returned is the number of its unfinished jobs |
| JobsDB.HandleT.MigrateJobs | jobsdb/jobsdb.go:810-843 | the destination is the source's unfinished rows added to it; the cache stays sound |
| JobsDB.HandleT.PostMigrateHandleDS | jobsdb/jobsdb.go:845-861 | exactly the sources are gone and the refreshed lists are those of the rest |
| JobsDB.HandleT.Choose | jobsdb/jobsdb.go:1301-1317 | the datasets taken are the longest prefix of ripe datasets before the last one, within maxMigrateOnce and with fewer than maxDSSize unfinished jobs in front of each; the count is positive exactly if something in them is unfinished |
| Rounds.LongestIsOne | jobsdb/jobsdb.go:1301-1317 | there is only one such prefix |
| JobsDB.HandleT.MainCheck | jobsdb/jobsdb.go:1279-1359 | a round ends with a new empty dataset last exactly if the last one held more than maxDSSize jobs; exactly the longest prefix of ripe datasets is gone, with one dataset in its place if something in it was unfinished and none otherwise; every other dataset is as it was; the store stays valid, with the same unfinished rows, no new row, and no index given out twice |
| JournalRuns.NoLoss | jobsdb/jobsdb.go:1546-1656 | at every moment of every run with crashes each unfinished job is on disk with its payload and latest status, before and after recovery, and recovery leaves no other job looking unfinished |
| JournalRuns.RestartIff | jobsdb/jobsdb.go:1321-1347 | after a crash and a recovery interrupted any number of times the restart gives the same list and rows unless the crash came at one of the two uncovered points; then, and only then, an assertion fails |
| JournalRuns.Interrupted | jobsdb/jobsdb.go:1546-1656 | crashing again and again while recovering changes nothing about the disk recovery arrives at |
| JournalRuns.StatementsSucceed | jobsdb/jobsdb.go:1579-1588 | at most one entry of each goroutine is ever open, and no statement lacks its tables or finds a name taken |
| JournalBackups.UploadedBeforeGone | jobsdb/jobsdb.go:1376-1391 | in every run with backups on, crashes included, a dataset listed at some moment is later listed with both tables, or what is left of it is as it was when it left the list, and before either table has gone both have been uploaded as they were |
| JournalBackups.BackupFinishes | jobsdb/jobsdb.go:1376-1391 | a backup no crash interrupts takes seven statements, whatever else is done in between; its next statement can always be made, and after the last it rests, neither old table is left, and both have been uploaded as they were when it began |
| JournalRounds.RoundFinishes | jobsdb/jobsdb.go:1279-1359 | a round no crash interrupts goes on, whatever clients and the backup do in between, for a number of statements that is known from where it stands; its next statement can always be made, and the last one leaves the list that was to come, nothing else on disk and no journal entry open |
| JournalRounds.RoundBegins | jobsdb/jobsdb.go:1292-1347 | adding a dataset takes five statements and puts it last; migrating m datasets takes 4 m + 8 and puts one in their place, or 2 m + 1 and none when nothing in them is unfinished |
| JournalBackups.PicksWhole | jobsdb/jobsdb.go:1461-1488 | a dataset picked for backup has both its tables renamed |
| JournalRecovery.RecoveryIdempotent | jobsdb/jobsdb.go:1601-1645 | recovery started again after any of its statements arrives at the same disk |
| JournalClients.StepKeeps | jobsdb/jobsdb.go:1279-1393 | every step of the check loop, the backup loop, the clients, a crash, recovery and restart keeps the invariant of the disk |
| JournalClients.StoreKeeps | jobsdb/jobsdb.go:1732-1740 | a Store during a migration is kept, under an id no job has had |
| JournalClients.UpdateKeeps | jobsdb/jobsdb.go:1209-1236 | the transaction that writes the statuses of one dataset's jobs changes exactly these jobs of the store and keeps the invariant of the disk |
| JournalClients.RestartsWell | jobsdb/jobsdb.go:442-474 | with only the listed datasets on disk the names sort into the list and all assertions hold |
| JournalClients.RestartsBadly | jobsdb/jobsdb.go:465-466 | with the destination next to its sources an assertion on the ranges fails |
| JournalSteps.AppendKeeps | jobsdb/jobsdb.go:658-678 | the appended dataset becomes the last one, and its id sequence starts behind every id there is |
| JournalSteps.StartPostingKeeps | jobsdb/jobsdb.go:1341-1347 | from the POST_MIGRATE_DS_OP entry on the new list counts, with the same unfinished rows |
| JournalWindows.AddedReached | jobsdb/jobsdb.go:1321-1333 | a run with one job reaches the point after ADD_DS and before MIGRATE_COPY |
| JournalWindows.CopiedReached | jobsdb/jobsdb.go:1339-1347 | the same run reaches the point after MIGRATE_COPY and before POST_MIGRATE_DS_OP |
| JournalWindows.StuckReached | jobsdb/jobsdb.go:442-474 | from either point, however it was reached, a crash, a whole recovery and a restart are a run that ends in the failed assertion |
| Locks.ProgramsOrdered | jobsdb/jobsdb.go:1253-1276 | updates, reads, stores and every kind of round take the migration lock first and no lock while holding the list lock |
| Locks.NeverStuck | jobsdb/jobsdb.go:1253-1276 | in every run of any number of threads a writer is alone with its lock and some unfinished thread can go on |
| LockedRuns.LocksSay | jobsdb/jobsdb.go:1253-1276 | in every run, whoever holds the list lock for reading excludes that a dataset is being added or a source half deleted, and finds in memory the last dataset of the store; whoever holds both locks excludes any round under way and finds the list of the store |
| LockedRuns.ExactlyOne | jobsdb/jobsdb.go:1253-1276 | in every run, whoever holds both locks for reading finds on disk the datasets in memory and no others, and each unfinished job in exactly one of them with its latest status |
| LockedRuns.NothingMoves | jobsdb/jobsdb.go:1253-1276 | whatever any thread does while a client keeps both locks, the lists in memory stay and no job leaves its dataset or changes its contents |
| LockedRuns.SliceLands | jobsdb/jobsdb.go:1683-1725 | each slice of an update goes to the one dataset that holds its jobs, each of these gets its status as the latest one, no other job changes, and the assertions hold, whatever other clients do between the slices |
| LockedRuns.UpdateWritesAll | jobsdb/jobsdb.go:1663-1727 | over every run from the beginning of an update to its end, each of its statuses has been the latest one of its job at some moment, whatever others do in between |
| LockedRuns.QueryReturns | jobsdb/jobsdb.go:1091-1136 | each query of a read adds the first rows that match of its dataset, as many as are missing, each as it is stored there at that moment, job and latest status |
| LockedRuns.ReadsOnce | jobsdb/jobsdb.go:1762-1832 | a read among concurrent stores and updates returns ascending ids, no more than wanted, each with the job stored under it and a row that matched and was the job's row since the read began, and every job that matched throughout unless there are enough smaller ones |
| LockedRuns.ReadRowsWereThere | jobsdb/jobsdb.go:1762-1832 | over every run, each row a read has come back with was a row of the store at some moment since the read began |
| LockedRuns.ReadsAll | jobsdb/jobsdb.go:1762-1832 | over every run from the beginning of a read to its end, a job that is in the store and matches at every moment is returned, or as many as were asked for are, all with smaller ids |
| LockedRuns.StoreNeverLost | jobsdb/jobsdb.go:1732-1740 | a Store at any moment its lock allows, during a migration too, adds its job under a new id, and no unfinished job is lost on disk or after recovery |
| LockedRuns.NeverStuck | jobsdb/jobsdb.go:1279-1359 | in every run in which some thread is not through with its program somebody can take or release a lock or do what is due before it |
| LockedWindows.StoreWhileCopying | jobsdb/jobsdb.go:1318-1339 | a run with one job and one round comes to the middle of the copy with a client holding the list lock, who may store there |
| LockedRound.RefreshFinds | jobsdb/jobsdb.go:385-474 | whenever the lists are read again they are the datasets of the store, and the assertions on pairs, empty and overlapping ranges hold |
| LockedRound.Refines | jobsdb/jobsdb.go:1279-1359 | what any thread does under its locks is a step of the store without locks or leaves it alone |
| LockedRound.ActionKeeps | jobsdb/jobsdb.go:1279-1359 | every lock operation, statement, refresh, slice, query, crash and restart keeps the invariant of disk, memory, locks and clients |
| LockedSteps.SliceAllowed | jobsdb/jobsdb.go:1683-1725 | under both locks the next slice names jobs of its dataset that exist and are not done |
| LockedClients.SliceFits | jobsdb/jobsdb.go:1686-1712 | the statuses up to the end of a dataset's cached range are those of its jobs, and the rest lie behind it |
| Transformer.PlanPartitions | processor/transformer.go:132-149 | the batches are the events in order, none larger than batchSize, with strictly increasing indices up to the number of events |
| Transformer.NextBatch | processor/transformer.go:133-149 | the inner loop takes the next batch |
| Transformer.Collect | processor/transformer.go:129-172 | for every choice of select and every order of answers the loop ends, with one answer to each batch |
| Transformer.Transform | processor/transformer.go:110-219 | for every input the outcome: an index out of range exactly without an event if that is sent alone or answered with anything, the failed last assertion exactly for one-to-one with a batch of several events; else, one-to-many, each element of a batch's array stands at its number plus the lengths of the arrays answered for the batches before, and there is nothing else; one-to-one, the k-th event is the answer to the k-th batch or nothing; beside each stands the source of the event with the number of its batch |
| Transformer.SourcesIff | processor/transformer.go:184-209 | every element of a one-to-many transformation is said to come from the source of an event of its batch if and only if, for each batch answered with anything, the event with the batch's number has the source of one of the batch's events |
| Transformer.EveryServiceIff | processor/transformer.go:184-209 | that is so whatever the service answers if and only if it holds for every batch |
| Transformer.RightIf | processor/transformer.go:184-209 | it holds with batches of one event and with events of one source |
| Transformer.WrongSource | processor/transformer.go:184-209 | of three events in batches of two the third comes back with the source of the second |
| Transformer.OneToOneIff | processor/transformer.go:211 | the last assertion holds for a one-to-one transformation if and only if every batch has one event |
| Transformer.TwoInOneBatch | processor/transformer.go:211 | two events in one batch of a one-to-one transformation make the assertion fail |
| PriorityQueue.PQT.Add | processor/priorityqueue.go:62-64 | the item joins, heap order and slots are kept |
| PriorityQueue.PQT.Update | processor/priorityqueue.go:57-60 | the same items with the new time, heap order and slots kept |
| PriorityQueue.PQT.Remove | processor/priorityqueue.go:53-55 | exactly this item leaves, its index is -1, heap order and slots kept; when it is the last one the others stay where they are |
| PriorityQueue.TopIsOldestIff | processor/priorityqueue.go:48-51 | with distinct times the last slot is the oldest if and only if there is one item |
| Sessions.HandleT.Touch | processor/processor.go:172-184 | the user is in the queue, once, with the time of this event, and all others as they were |
| Sessions.HandleT.AddJobsToSessions | processor/processor.go:141-211 | exactly the users of the batch whose buffered events exceed the threshold are handed on, each with all jobs; all others keep what they had and what came; per user the accepted jobs are those handed on followed by those buffered; each user left was last seen when the last usable job of the batch came, or as before |
| Sessions.GrownTells | processor/processor.go:160-184 | after a batch each user's buffer is what it was followed by that user's usable jobs of the batch in order |
| Sessions.HandleT.CreateSessions | processor/processor.go:280-331 | for every clock, the pass hands on the users in the last slots of the queue, as many as are found quiet one after the other, each with all jobs, and leaves all others, their order and their times alone; no user seen within the threshold of every reading is handed on |
| Sessions.AddThenCreate | processor/processor.go:141-331 | after a batch and a pass, a user with a job in the batch that is within the threshold of every reading, and with no more events than allowed, is still there with all jobs |
| Sessions.RemainingTells | processor/processor.go:303-324 | every slot taken was due at its reading of the clock, and the last one left was not |
| Sessions.EveryDueIff | processor/processor.go:291-324 | with the clock standing still only due users are handed on, and all of them if and only if all users are due or none is |
| Sessions.DueUserWaits | processor/processor.go:291-324 | of two users the one who is due stays because the last slot is not |
| Sessions.ProcessUserJobs | processor/processor.go:213-250 | for every order of ranging over the maps all checks hold and every job is handed on with its user's events |
| Sessions.CreateUserTransformedJobsFromEvents | processor/processor.go:256-278 | the jobs of the users one after the other, all events of a user with the first job |
| Sessions.EventsPaired | processor/processor.go:266-275 | in what is handed on, the first job of each user carries the events of all jobs of that user and the others none |
| Sessions.AnyOrder | processor/processor.go:217-224 | the number of jobs does not depend on the order of the users |
| Processor.AtLeastOnce | processor/processor.go:517-585 | a job marked succeeded has its derived jobs in both stores and is marked once; every other job can be fetched, is under way, or has a payload that cannot be parsed |
| ProcessorProgress.FinishedIff | processor/processor.go:536-585 | from wherever a run has got to a stored job can be brought to succeeded, in at most twelve steps without a crash, if sessions are off or its payload parses; otherwise no continuation ever does |
| Processor.BufferedComesBack | processor/processor.go:590-616 | a job that was only in a session buffer at a crash can be fetched after crashRecover |
| Processor.ExactlyOnceWithoutCrash | processor/processor.go:519-524 | in every run without a crash no job's derived jobs are stored twice |
| Processor.CrashStoresTwice | processor/processor.go:519-524 | a crash between the stores and the update makes a run that stores them twice |
| CrashRecovery.CrashRecover | router/router.go:505-531 | the loop ends; then no job of the custom value is executing, each one that was is failed once, and no other row has changed |
| CrashRecovery.FewerExecuting | processor/processor.go:592-615 | each batch lowers the number of executing jobs |
| Gateway.WebRequestBatcher | gateway/gateway.go:247-269 | the batches and the buffer are the requests in order; a batch is what arrived since the one before and is cut by the request that fills it or by the first timeout behind its first request, and by nothing else |
| Gateway.Check | gateway/gateway.go:138-210 | each refused request is answered once before the store is asked, the others become jobs in order |
| Gateway.StoreBatch | jobsdb/jobsdb.go:868-941 | when the bulk copy is committed and when it is rolled back, a job's message is empty if it is in the store exactly once among the new rows, and not empty if it is not there |
| Gateway.WebRequestBatchDBWriter | gateway/gateway.go:124-222 | every request gets exactly one message, that of the first check that fails, the store's included; it is empty if and only if its job was stored, once |

## Premises

- Router: the router enabled, `keepOrderOnFailure` on and `randomWorkerAssign` off, at least one worker, a query batch
  of at least 1, and retry times never in the future.
- Jobs database: a job named in an update exists, once in the batch, is not done yet, and has one of the custom
  values given; nobody else updates that job at the same time; a query that the cache may remember postpones
  nothing; in `JobsDB` a query and its mark, and a commit and its clear, are each one step (`CacheRaces` does
  without this and without that on postponing); uuids in a batch differ; `maxDSSize` is not negative.
- Crashes: `toBackup` does not change between starts.
- Sessions: no id is received twice while it is buffered, which the store's marking as executing sees to.

## Left out

- Router: written as transitions on values, since its three loops interleave; channel capacities are taken as
  unbounded, which allows more runs than the code has.
- Router: writing the buffered statuses, marking the chosen jobs and each read are one step each, while the store
  writes and reads one dataset after the other; `LockedStore` has those steps. A crash between them is left out here.
- Router: the disabled path, which sends jobs to waiting without blocking later ones, sleep and back-off.
- JobsDB.HandleT.Store: of the database's refusals only "Invalid JSON" is modelled; other errors panic in the code.
- JobsDB.HandleT.GetJobs: source-id filters are left out, because cache keys do not contain them.
- JobsDB.HandleT.CheckIfMigrateDS: the shares are compared as reals, not as float64.
- JobsDB.HandleT.MainCheck: the journal is not part of the class; `Journal` has the same statements with crashes.
- Journal: table contents are values, a statement is atomic, and a panic is an abrupt stop, deferred calls
  included; the first start on an empty database and DROP_DS, which no code starts, are not steps.
- Journal: what to migrate is chosen freely instead of by the thresholds, and stores and updates are allowed
  wherever `LockedStore` can allow them and in some places more; both only add runs.
- LockedStore: a Store of several jobs is one row at a time, and a round chooses from the list as it is and not
  from the copy it made when it began; both only add runs. The cache is not part of it, and the time a read
  compares retry times with is the same for all its datasets.
- Transformer.Transform: the service is a function of the batch; HTTP retries and status codes are not modelled.
- Sessions.HandleT.AddJobsToSessions: the lock is held throughout, so the method is one step.
- Gateway: parsing, write keys, sizes and headers are one refusal message per request; statistics and the
  event debugger are not modelled.
- Processor: destinations and payloads of derived jobs are left to the batch they come from.
- The batch router, the backend configuration, database recovery modes, S3 and gzip handling, HTTP servers
  and clients, statistics and logging.
