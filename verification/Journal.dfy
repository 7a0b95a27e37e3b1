/** The store on disk under crashes: every SQL statement is one step, the journal says what was under way,
    and recovery undoes or finishes it. Clients store jobs and update statuses in between, at the points of the check
    loop at which the two locks let them (`LockedRound.Refines`). The backup loop uploads and drops the tables that
    migration has renamed. */
module Journal {
  import opened Common
  import opened Tables
  import opened Layout
  import opened Batches
  import opened Migration
  import opened Compaction

  /** A jobs table with its id sequence. */
  datatype JobsTable = JobsTable(rows: map<JobID, Job>, next: JobID)

  datatype Entry =
    | AddDS(to: Index)
    | MigrateCopy(from: seq<Index>, to: Index)
    | PostMigrate(from: seq<Index>)
    | BackupDS(ds: Index)
    | BackupDropDS(ds: Index)

  /** `oldJobs` and `oldStatuses` are the tables renamed to pre_drop_...; `open` and `backupOpen` are the journal
      entries of the two goroutines that are not done; `upJobs` and `upStatuses` is what has been uploaded. */
  datatype Disk = Disk(
    jobs: map<Index, JobsTable>,
    statuses: map<Index, seq<Status>>,
    oldJobs: map<Index, JobsTable>,
    oldStatuses: map<Index, seq<Status>>,
    open: seq<Entry>,
    backupOpen: seq<Entry>,
    upJobs: map<Index, JobsTable>,
    upStatuses: map<Index, seq<Status>>)

  // ---------- the statements of recovery, all of them with IF EXISTS ----------

  datatype Stmt =
    | DropStatuses(x: Index)
    | DropJobs(x: Index)
    | RetireStatuses(x: Index)     // rename or drop, as configured
    | RetireJobs(x: Index)
    | Close
    | DropOldStatuses(x: Index)
    | DropOldJobs(x: Index)
    | CloseBackup

  function Exec1(d: Disk, st: Stmt, toBackup: bool): Disk {
    match st
    case DropStatuses(x) => if x !in d.statuses then d else d.(statuses := d.statuses - {x})
    case DropJobs(x) => if x !in d.jobs then d else d.(jobs := d.jobs - {x})
    case RetireStatuses(x) =>
      if x !in d.statuses then d
      else d.(statuses := d.statuses - {x},
          oldStatuses := if toBackup then d.oldStatuses[x := d.statuses[x]] else d.oldStatuses)
    case RetireJobs(x) =>
      if x !in d.jobs then d
      else d.(jobs := d.jobs - {x}, oldJobs := if toBackup then d.oldJobs[x := d.jobs[x]] else d.oldJobs)
    case Close => d.(open := [])
    case DropOldStatuses(x) => if x !in d.oldStatuses then d else d.(oldStatuses := d.oldStatuses - {x})
    case DropOldJobs(x) => if x !in d.oldJobs then d else d.(oldJobs := d.oldJobs - {x})
    case CloseBackup => d.(backupOpen := [])
  }

  function Exec(d: Disk, script: seq<Stmt>, toBackup: bool): Disk
    decreases |script|
  {
    if script == [] then d else Exec(Exec1(d, script[0], toBackup), script[1..], toBackup)
  }

  /** Status table first, then jobs table, for one dataset after the other. */
  function Retire(from: seq<Index>): seq<Stmt> {
    if from == [] then [] else [RetireStatuses(from[0]), RetireJobs(from[0])] + Retire(from[1..])
  }

  /** recoverFromCrash for the main goroutine. */
  function MainScript(open: seq<Entry>): seq<Stmt> {
    if open == [] then []
    else match open[|open| - 1]
      case AddDS(x) => [DropStatuses(x), DropJobs(x), Close]
      case MigrateCopy(_, x) => [DropStatuses(x), DropJobs(x), Close]
      case PostMigrate(from) => Retire(from) + [Close]
      case _ => [Close]
  }

  /** recoverFromCrash for the backup goroutine. */
  function BackupScript(open: seq<Entry>): seq<Stmt> {
    if open == [] then []
    else match open[|open| - 1]
      case BackupDropDS(x) => [DropOldStatuses(x), DropOldJobs(x), CloseBackup]
      case _ => [CloseBackup]
  }

  /** recoverFromJournal. */
  function RecoveryScript(d: Disk): seq<Stmt> {
    MainScript(d.open) + BackupScript(d.backupOpen)
  }

  function Recovered(d: Disk, toBackup: bool): Disk {
    Exec(d, RecoveryScript(d), toBackup)
  }

  // ---------- control points ----------

  datatype Goal = Append | Migrate(m: nat)     // m datasets are to be migrated

  /** Where the main goroutine stands; for a migration, `m` is the number of source datasets. */
  datatype Point =
    | Idle
    | Adding(x: Index, goal: Goal, stage: nat)             // statements of addNewDS done so far
    | Added(x: Index, m: nat)                              // ADD_DS is done, MIGRATE_COPY not started
    | Copying(x: Index, m: nat, k: nat, half: bool)        // k sources copied; half: and the next one's jobs
    | Copied(x: Index, m: nat)                             // MIGRATE_COPY is done, POST_MIGRATE not started
    | Posting(from: seq<Index>, script: seq<Stmt>)         // what is left to retire
    | Down
    | Recovering(script: seq<Stmt>)
    | Rereading                                           // about to read the lists again
    | Stuck                                                // an assertion on the lists has failed

  /** Where the backup goroutine stands. */
  datatype BackupPoint =
    | Resting
    | Uploading(x: Index, n: nat)      // tables uploaded so far
    | Uploaded(x: Index)               // BACKUP_DS is done, BACKUP_DROP_DS not started
    | Dropping(x: Index, n: nat)       // tables dropped so far

  /** `list` is the list of datasets that counts: the one a restart finds. What is in memory can lag behind it while the
      list lock is held (`LockedStore`). `rows` is the history of all jobs ever stored with their latest statuses. */
  datatype System = System(disk: Disk, list: seq<Index>, point: Point, backup: BackupPoint, rows: map<JobID, Row>)

  predicate Up(p: Point) {
    p.Idle? || p.Adding? || p.Added? || p.Copying? || p.Copied? || p.Posting?
  }

  /** A point the journal does not cover. */
  predicate Window(p: Point) {
    p.Added? || p.Copied?
  }

  // ---------- the listed datasets ----------

  ghost function Core(d: Disk, list: seq<Index>): Tables {
    map ds | ds in d.jobs && ds in d.statuses && ds in list :: Dataset(d.jobs[ds].rows, d.statuses[ds])
  }

  ghost predicate AllThere(d: Disk, list: seq<Index>) {
    list != [] && forall ds :: ds in list ==> ds in d.jobs && ds in d.statuses
  }

  function Last(list: seq<Index>): Index
    requires list != []
  {
    list[|list| - 1]
  }

  function Pair(d: Disk, x: Index): Dataset
    requires x in d.jobs && x in d.statuses
  {
    Dataset(d.jobs[x].rows, d.statuses[x])
  }

  // ---------- steps ----------

  datatype Step =
    | Store(job: Job, burnt: nat)
    | Update(ds: Index, q: seq<Status>)  // one transaction of updateJobStatusDS
    | BeginAppend
    | BeginMigrate(m: nat, live: bool)
    | Main(ids: seq<JobID>)              // the next statement of the main goroutine; ids is the order of a status copy
    | BeginBackup(x: Index)
    | Backup                             // the next statement of the backup goroutine
    | Crash
    | Recover                            // the next statement of recovery
    | Restart(names: seq<Index>)         // getDSRangeList; names is what sortDnumList makes of the table names

  ghost predicate IdsBefore(t: JobsTable, u: JobsTable) {
    forall a, b :: a in t.rows && b in u.rows ==> a < b
  }

  /** The assertions of getDSList and getDSRangeList on the tables found. */
  ghost predicate RestartOK(d: Disk, names: seq<Index>) {
    && (forall i :: 0 <= i < |names| ==> names[i] in d.jobs && names[i] in d.statuses)
    && (forall i :: 0 <= i < |names| - 1 ==> d.jobs[names[i]].rows != map[])
    && (forall i :: 0 < i < |names| - 1 ==> IdsBefore(d.jobs[names[i - 1]], d.jobs[names[i]]))
  }

  ghost predicate Enabled(s: System, step: Step, toBackup: bool) {
    match step
    case Store(_, _) => Up(s.point) && !s.point.Adding? && s.list != [] && Last(s.list) in s.disk.jobs
    case Update(ds, q) =>
      && s.point == Idle && ds in s.list && ds in s.disk.jobs && ds in s.disk.statuses && DistinctJobs(q)
      && forall k :: 0 <= k < |q| ==>
        && q[k].jobID in s.disk.jobs[ds].rows && q[k].state != NP
        && q[k].jobID in s.rows && IsLive(s.rows[q[k].jobID])
    case BeginAppend =>
      && s.point == Idle && s.list != [] && 1 <= |Last(s.list)| <= 2
      && Last(s.list) in s.disk.jobs && s.disk.jobs[Last(s.list)].rows != map[]
    case BeginMigrate(m, live) =>
      && s.point == Idle && 0 < m < |s.list| && 1 <= |s.list[m - 1]| <= 2
      && AllThere(s.disk, s.list) && (live <==> SomeLive(Core(s.disk, s.list), s.list, m))
    case Main(ids) =>
      && Up(s.point) && !s.point.Idle? && SqlOK(s)
      && (s.point.Copying? && s.point.half ==> RetryIds(Pair(s.disk, s.list[s.point.k]), ids))
    case BeginBackup(x) => Up(s.point) && s.backup == Resting && x in s.disk.oldJobs
    case Backup => Up(s.point) && s.backup != Resting && BackupSqlOK(s)
    case Crash => true
    case Recover => s.point == Down || s.point.Recovering?
    case Restart(names) =>
      && s.point == Rereading && SortedIndices(names) && forall ds :: ds in names <==> ds in s.disk.jobs
  }

  /** The tables the next statement of the main goroutine needs are there, those it creates are not. */
  ghost predicate SqlOK(s: System) {
    var d := s.disk;
    match s.point
    case Adding(x, goal, stage) =>
      && (stage == 1 ==> x !in d.jobs)
      && (stage == 2 ==> x !in d.statuses)
      && (stage == 3 && goal.Append? ==> x in d.jobs && s.list != [] && Last(s.list) in d.jobs)
    case Copying(x, m, k, half) =>
      && x in d.jobs && x in d.statuses && m <= |s.list|
      && (k < m ==> s.list[k] in d.jobs && s.list[k] in d.statuses)
      && (half ==> k < m)
    case Posting(from, script) =>
      script != [] ==> RetireOK(d, script[0])
    case Copied(x, m) => m <= |s.list|
    case Added(x, m) => m <= |s.list|
    case _ => true
  }

  ghost predicate RetireOK(d: Disk, st: Stmt) {
    match st
    case RetireStatuses(x) => x in d.statuses && x !in d.oldStatuses
    case RetireJobs(x) => x in d.jobs && x !in d.oldJobs
    case _ => false
  }

  ghost predicate BackupSqlOK(s: System) {
    match s.backup
    case Uploading(x, n) => (n == 0 ==> x in s.disk.oldJobs) && (n == 1 ==> x in s.disk.oldStatuses)
    case Dropping(x, n) => (n == 0 ==> x in s.disk.oldStatuses) && (n == 1 ==> x in s.disk.oldJobs)
    case _ => true
  }

  ghost function Do(s: System, step: Step, toBackup: bool): System
    requires Enabled(s, step, toBackup)
  {
    var d := s.disk;
    match step
    case Store(job, burnt) => StoreIn(s, Last(s.list), job, burnt)
    case Update(ds, q) => WriteTo(s, ds, q)
    case BeginAppend => s.(point := Adding(NextIndex(true, Last(s.list)), Append, 0))
    case BeginMigrate(m, live) =>
      if live then s.(point := Adding(NextIndex(false, s.list[m - 1]), Migrate(m), 0))
      else StartPosting(s, m, [])
    case Main(ids) => MainStep(s, ids, toBackup)
    case BeginBackup(x) => s.(disk := d.(backupOpen := d.backupOpen + [BackupDS(x)]), backup := Uploading(x, 0))
    case Backup => BackupStep(s)
    case Crash => s.(point := Down, backup := Resting)
    case Recover =>
      if s.point == Down then s.(point := Recovering(RecoveryScript(d)))
      else if s.point.script == [] then s.(point := Rereading)
      else s.(disk := Exec1(d, s.point.script[0], toBackup), point := Recovering(s.point.script[1..]))
    case Restart(names) =>
      if RestartOK(d, names) then s.(list := names, point := Idle) else s.(point := Stuck)
  }

  /** One row of a Store; `burnt` ids were drawn by transactions that were rolled back. */
  ghost function StoreIn(s: System, ds: Index, job: Job, burnt: nat): System
    requires ds in s.disk.jobs
  {
    var d, t := s.disk, s.disk.jobs[ds];
    var id := t.next + burnt;
    s.(disk := d.(jobs := d.jobs[ds := JobsTable(t.rows[id := job], id + 1)]), rows := s.rows[id := Row(job, None)])
  }

  /** One transaction of updateJobStatusDS. */
  ghost function WriteTo(s: System, ds: Index, q: seq<Status>): System
    requires ds in s.disk.statuses
  {
    var d := s.disk;
    s.(disk := d.(statuses := d.statuses[ds := d.statuses[ds] + q]), rows := Applied(s.rows, q))
  }

  /** The journal entry for deleting the first m datasets; from here on the list is the new one. */
  ghost function StartPosting(s: System, m: nat, head: seq<Index>): System
    requires m <= |s.list|
  {
    var from := s.list[..m];
    s.(disk := s.disk.(open := s.disk.open + [PostMigrate(from)]), list := head + s.list[m..],
        point := Posting(from, Retire(from)))
  }

  ghost function MainStep(s: System, ids: seq<JobID>, toBackup: bool): System
    requires Enabled(s, Main(ids), toBackup)
  {
    var d := s.disk;
    match s.point
    case Adding(x, goal, stage) =>
      if stage == 0 then s.(disk := d.(open := d.open + [AddDS(x)]), point := Adding(x, goal, 1))
      else if stage == 1 then s.(disk := d.(jobs := d.jobs[x := JobsTable(map[], 1)]), point := Adding(x, goal, 2))
      else if stage == 2 then s.(disk := d.(statuses := d.statuses[x := []]), point := Adding(x, goal, 3))
      else if stage == 3 && goal.Append? then
        s.(disk := d.(jobs := d.jobs[x := d.jobs[x].(next := MaxID(d.jobs[Last(s.list)]) + 1)]),
            point := Adding(x, goal, 4))
      else if goal.Append? then s.(disk := d.(open := []), list := s.list + [x], point := Idle)
      else s.(disk := d.(open := []), point := Added(x, goal.m))
    case Added(x, m) =>
      s.(disk := d.(open := d.open + [MigrateCopy(s.list[..m], x)]), point := Copying(x, m, 0, false))
    case Copying(x, m, k, half) =>
      if half then
        s.(disk := d.(statuses := d.statuses[x := CopyStatuses(Pair(d, s.list[k]), Pair(d, x), ids).statuses]),
           point := Copying(x, m, k + 1, false))
      else if k < m then
        s.(disk := d.(jobs := d.jobs[x := d.jobs[x].(rows := CopyJobs(Pair(d, s.list[k]), Pair(d, x)).jobs)]),
           point := Copying(x, m, k, true))
      else s.(disk := d.(open := []), point := Copied(x, m))
    case Copied(x, m) => StartPosting(s, m, [x])
    case Posting(from, script) =>
      if script == [] then s.(disk := d.(open := []), point := Idle)
      else s.(disk := Exec1(d, script[0], toBackup), point := Posting(from, script[1..]))
    case _ => s
  }

  /** MAX(job_id). */
  function MaxID(t: JobsTable): JobID {
    var ids := InOrder(set id | id in t.rows, 1, if t.next < 1 then 1 else t.next);
    if ids == [] then 0 else ids[|ids| - 1]
  }

  ghost function BackupStep(s: System): System
    requires s.backup != Resting && BackupSqlOK(s)
  {
    var d := s.disk;
    match s.backup
    case Uploading(x, n) =>
      if n == 0 then s.(disk := d.(upJobs := d.upJobs[x := d.oldJobs[x]]), backup := Uploading(x, 1))
      else if n == 1 then s.(disk := d.(upStatuses := d.upStatuses[x := d.oldStatuses[x]]), backup := Uploading(x, 2))
      else s.(disk := d.(backupOpen := []), backup := Uploaded(x))
    case Uploaded(x) => s.(disk := d.(backupOpen := d.backupOpen + [BackupDropDS(x)]), backup := Dropping(x, 0))
    case Dropping(x, n) =>
      if n == 0 then s.(disk := d.(oldStatuses := d.oldStatuses - {x}), backup := Dropping(x, 1))
      else if n == 1 then s.(disk := d.(oldJobs := d.oldJobs - {x}), backup := Dropping(x, 2))
      else s.(disk := d.(backupOpen := []), backup := Resting)
    case Resting => s
  }
}
