/** What holds on disk and in memory at every step of every run, crashes included. */
module JournalInvariant {
  import opened Tables
  import opened Layout
  import opened Migration
  import opened Compaction
  import opened Journal

  // ---------- the listed datasets form a well-formed store ----------

  ghost predicate CoreOK(d: Disk, list: seq<Index>) {
    AllThere(d, list) && WellFormed(Core(d, list), list, d.jobs[Last(list)].next)
  }

  /** The unfinished jobs of the listed datasets are those of the history. */
  ghost predicate LiveSame(d: Disk, list: seq<Index>, rows: map<JobID, Row>) {
    AllThere(d, list) && LiveRows(Flat(Core(d, list), list)) == LiveRows(rows)
  }

  /** Ids still to be given out are new. */
  ghost predicate RowsBelow(d: Disk, list: seq<Index>, rows: map<JobID, Row>) {
    && AllThere(d, list)
    && var t := d.jobs[Last(list)];
      forall id :: id in rows ==> id < t.next && (id in t.rows || forall b :: b in t.rows ==> id < b)
  }

  // ---------- what else is on disk ----------

  /** Besides the listed datasets there are at most the jobs tables of xs and the status tables of ys. */
  ghost predicate Only(d: Disk, list: seq<Index>, xs: seq<Index>, ys: seq<Index>) {
    && (forall ds :: ds in d.jobs ==> ds in list || ds in xs)
    && (forall ds :: ds in d.statuses ==> ds in list || ds in ys)
  }

  /** An uncovered point: the destination is complete, empty or filled, and the sources are still there. */
  ghost predicate WindowDisk(d: Disk, list: seq<Index>, x: Index, m: int) {
    && AllThere(d, list) && Consecutive(list) && 0 < m < |list| && x == NextIndex(false, list[m - 1])
    && Only(d, list, [x], [x]) && x in d.jobs && x in d.statuses
    && (Pair(d, x) == NO_ROWS || (Gathered(Pair(d, x), Core(d, list), list, m) && Pair(d, x).jobs != map[]))
  }

  ghost predicate Behind(from: seq<Index>, list: seq<Index>) {
    list != [] && forall y :: y in from ==> Before(y, list[0])
  }

  /** What a crash at any moment leaves behind, told by the open journal entry. */
  ghost predicate Durable(d: Disk, list: seq<Index>, toBackup: bool) {
    && |d.open| <= 1
    && if d.open == [] then Only(d, list, [], []) || exists x, m :: WindowDisk(d, list, x, m)
       else match d.open[0]
         case AddDS(x) => x !in list && Only(d, list, [x], [x])
         case MigrateCopy(_, x) => x !in list && Only(d, list, [x], [x])
         case PostMigrate(from) => Behind(from, list) && Only(d, list, from, from) && HalfRetired(d, from, toBackup)
         case _ => false
  }

  ghost predicate HalfRetired(d: Disk, from: seq<Index>, toBackup: bool) {
    toBackup ==> forall y :: y in from && y in d.jobs && y !in d.statuses ==> y in d.oldStatuses
  }

  // ---------- the renamed tables ----------

  ghost predicate OldOK(d: Disk, list: seq<Index>) {
    && list != []
    && (forall x :: x in d.oldJobs ==> Before(x, list[0]) && x !in d.jobs && x !in d.statuses)
    && (forall x :: x in d.oldStatuses ==> Before(x, list[0]) && x !in d.statuses)
    && (forall x :: x in d.oldJobs ==> x in d.oldStatuses || d.backupOpen == [BackupDropDS(x)])
  }

  /** Whatever is still there of x is what has been uploaded. */
  ghost predicate UploadedBoth(d: Disk, x: Index) {
    && x in d.upJobs && x in d.upStatuses
    && (x in d.oldJobs ==> d.upJobs[x] == d.oldJobs[x])
    && (x in d.oldStatuses ==> d.upStatuses[x] == d.oldStatuses[x])
  }

  ghost predicate BackupOK(d: Disk, list: seq<Index>) {
    && list != [] && |d.backupOpen| <= 1
    && (d.backupOpen != [] ==> match d.backupOpen[0]
        case BackupDS(x) => true
        case BackupDropDS(x) => UploadedBoth(d, x) && Before(x, list[0]) && x !in d.jobs && x !in d.statuses
        case _ => false)
  }

  ghost predicate BackupPointOK(d: Disk, b: BackupPoint) {
    match b
    case Resting => true
    case Uploading(x, n) =>
      && d.backupOpen == [BackupDS(x)] && n <= 2 && x in d.oldJobs && x in d.oldStatuses
      && (n >= 1 ==> x in d.upJobs && d.upJobs[x] == d.oldJobs[x])
      && (n >= 2 ==> x in d.upStatuses && d.upStatuses[x] == d.oldStatuses[x])
    case Uploaded(x) => d.backupOpen == [] && x in d.oldJobs && x in d.oldStatuses && UploadedBoth(d, x)
    case Dropping(x, n) =>
      && d.backupOpen == [BackupDropDS(x)] && n <= 2
      && (n == 0 ==> x in d.oldStatuses && x in d.oldJobs)
      && (n >= 1 ==> x !in d.oldStatuses) && (n == 1 ==> x in d.oldJobs) && (n == 2 ==> x !in d.oldJobs)
  }

  // ---------- control points ----------

  ghost predicate GoalOK(d: Disk, list: seq<Index>, x: Index, goal: Goal) {
    && AllThere(d, list) && Consecutive(list)
    && match goal
       case Append => x == NextIndex(true, Last(list)) && d.jobs[Last(list)].rows != map[]
       case Migrate(m) => 0 < m < |list| && x == NextIndex(false, list[m - 1]) && SomeLive(Core(d, list), list, m)
  }

  ghost predicate AddingOK(d: Disk, list: seq<Index>, x: Index, goal: Goal, stage: nat) {
    && GoalOK(d, list, x, goal) && stage <= (if goal.Append? then 4 else 3)
    && d.open == (if stage == 0 then [] else [AddDS(x)])
    && Only(d, list, if stage >= 2 then [x] else [], if stage >= 3 then [x] else [])
    && (stage >= 2 ==> x in d.jobs && d.jobs[x].rows == map[])
    && (stage >= 3 ==> x in d.statuses && d.statuses[x] == [])
    && (stage == 4 ==> d.jobs[x].next == MaxID(d.jobs[Last(list)]) + 1)
  }

  ghost predicate DestOK(d: Disk, list: seq<Index>, x: Index, m: nat) {
    GoalOK(d, list, x, Migrate(m)) && Only(d, list, [x], [x]) && x in d.jobs && x in d.statuses
  }

  /** The jobs of the k-th source are copied, their statuses are not. */
  ghost predicate HalfWay(d: Disk, list: seq<Index>, x: Index, k: nat, d0: Dataset)
    requires AllThere(d, list) && k < |list| && x in d.jobs && x in d.statuses
  {
    Gathered(d0, Core(d, list), list, k) && Pair(d, x) == CopyJobs(Core(d, list)[list[k]], d0)
  }

  ghost predicate CopyingOK(d: Disk, list: seq<Index>, x: Index, m: nat, k: nat, half: bool) {
    && DestOK(d, list, x, m) && d.open == [MigrateCopy(list[..m], x)] && k <= m
    && (!half ==> Gathered(Pair(d, x), Core(d, list), list, k))
    && (half ==> k < m && exists d0 :: HalfWay(d, list, x, k, d0))
  }

  /** The first k statements of Retire(from) are done. */
  ghost predicate PostingOK(d: Disk, list: seq<Index>, from: seq<Index>, script: seq<Stmt>) {
    var k := |Retire(from)| - |script|;
    && d.open == [PostMigrate(from)] && Behind(from, list) && NoRepeats(from) && Only(d, list, from, from)
    && 0 <= k && script == Retire(from)[k..]
    && forall j :: 0 <= j < |from| ==>
      (from[j] in d.statuses <==> 2 * j >= k) && (from[j] in d.jobs <==> 2 * j + 1 >= k)
  }

  ghost predicate Missing(d: Disk, st: Stmt) {
    match st
    case DropStatuses(x) => x !in d.statuses
    case DropJobs(x) => x !in d.jobs
    case RetireStatuses(x) => x !in d.statuses
    case RetireJobs(x) => x !in d.jobs
    case DropOldStatuses(x) => x !in d.oldStatuses
    case DropOldJobs(x) => x !in d.oldJobs
    case _ => false
  }

  /** Recovery goes on with `script`, and what it has done already need not be done again. */
  ghost predicate RecoveringOK(d: Disk, script: seq<Stmt>) {
    var r := RecoveryScript(d);
    var k := |r| - |script|;
    0 <= k && script == r[k..] && forall j :: 0 <= j < k ==> Missing(d, r[j])
  }

  ghost predicate PointOK(s: System) {
    var d, list := s.disk, s.list;
    match s.point
    case Idle => d.open == [] && Only(d, list, [], [])
    case Adding(x, goal, stage) => AddingOK(d, list, x, goal, stage)
    case Added(x, m) => d.open == [] && DestOK(d, list, x, m) && Pair(d, x) == NO_ROWS
    case Copying(x, m, k, half) => CopyingOK(d, list, x, m, k, half)
    case Copied(x, m) => d.open == [] && DestOK(d, list, x, m) && Gathered(Pair(d, x), Core(d, list), list, m)
    case Posting(from, script) => PostingOK(d, list, from, script)
    case Down => s.backup == Resting
    case Recovering(script) => s.backup == Resting && RecoveringOK(d, script)
    case Rereading => s.backup == Resting && d.open == [] && d.backupOpen == []
    case Stuck => s.backup == Resting && d.open == [] && d.backupOpen == [] && !Only(d, list, [], [])
  }

  ghost predicate Inv(s: System, toBackup: bool) {
    && CoreOK(s.disk, s.list) && LiveSame(s.disk, s.list, s.rows) && RowsBelow(s.disk, s.list, s.rows)
    && Durable(s.disk, s.list, toBackup) && OldOK(s.disk, s.list)
    && BackupOK(s.disk, s.list) && BackupPointOK(s.disk, s.backup) && PointOK(s)
    && (Up(s.point) && s.backup == Resting ==> s.disk.backupOpen == [])
  }

  // ---------- the listed datasets stay as they are ----------

  /** d' has the same listed tables. */
  ghost predicate Kept(d: Disk, d': Disk, list: seq<Index>) {
    forall ds :: ds in list ==>
      && (ds in d.jobs <==> ds in d'.jobs) && (ds in d.jobs ==> d.jobs[ds] == d'.jobs[ds])
      && (ds in d.statuses <==> ds in d'.statuses) && (ds in d.statuses ==> d.statuses[ds] == d'.statuses[ds])
  }

  lemma CoreKept(d: Disk, d': Disk, list: seq<Index>, rows: map<JobID, Row>)
    requires Kept(d, d', list) && CoreOK(d, list) && LiveSame(d, list, rows) && RowsBelow(d, list, rows)
    ensures AllThere(d', list) && Core(d', list) == Core(d, list)
    ensures CoreOK(d', list) && LiveSame(d', list, rows) && RowsBelow(d', list, rows)
  {
    hide WellFormed, LiveRows, Flat;
    var a, b := Core(d, list), Core(d', list);
    forall ds ensures ds in a <==> ds in b {}
    forall ds | ds in a ensures a[ds] == b[ds] {}
  }

  lemma ListFacts(d: Disk, list: seq<Index>)
    requires CoreOK(d, list)
    ensures Consecutive(list) && SortedIndices(list) && NoRepeats(list) && AllThere(d, list)
    ensures forall ds :: ds in list ==> !Before(ds, list[0])
    ensures forall ds :: ds in Core(d, list) <==> ds in list
    ensures forall i :: 0 <= i < |list| - 1 ==> d.jobs[list[i]].rows != map[]
  {
    ConsecutiveSorted(list);
    SortedDistinct(list);
    forall ds | ds in list ensures !Before(ds, list[0]) {
      var i :| 0 <= i < |list| && list[i] == ds;
      BeforeTotal(list[0], ds);
      BeforeIrreflexive(ds);
    }
    forall i | 0 <= i < |list| - 1 ensures d.jobs[list[i]].rows != map[] {
      assert Core(d, list)[list[i]].jobs != map[];
    }
  }

  /** The index of a dataset to come is that of no table there is, renamed or not. */
  lemma NewIndexFree(d: Disk, list: seq<Index>, x: Index, goal: Goal)
    requires GoalOK(d, list, x, goal) && OldOK(d, list) && BackupOK(d, list)
    ensures x !in list && !Before(x, list[0]) && x !in d.oldJobs && x !in d.oldStatuses
    ensures forall e :: e in d.backupOpen && e.BackupDropDS? ==> e.ds != x
  {
  }
}
