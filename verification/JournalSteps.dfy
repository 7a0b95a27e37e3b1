/** Every step of the main goroutine, of the backup loop and of the clients keeps the invariant. */
module JournalSteps {
  import opened Tables
  import opened Layout
  import opened Migration
  import opened Compaction
  import opened Maintenance
  import opened Journal
  import opened JournalInvariant
  import opened JournalRecovery

  // ---------- tables of an unfinished dataset ----------

  /** d' differs from d at most in the tables of x and in the open entry. */
  ghost predicate OnlyAt(d: Disk, d': Disk, x: Index) {
    && d' == d.(jobs := d'.jobs, statuses := d'.statuses, open := d'.open)
    && (forall ds :: ds != x ==> (ds in d'.jobs <==> ds in d.jobs) && (ds in d'.statuses <==> ds in d.statuses))
    && (forall ds :: ds != x && ds in d.jobs ==> d'.jobs[ds] == d.jobs[ds])
    && (forall ds :: ds != x && ds in d.statuses ==> d'.statuses[ds] == d.statuses[ds])
  }

  lemma WorkKept(d: Disk, d': Disk, list: seq<Index>, x: Index)
    requires OnlyAt(d, d', x) && x !in list
    ensures Kept(d, d', list)
  {
  }

  lemma WorkOld(d: Disk, d': Disk, list: seq<Index>, x: Index, b: BackupPoint)
    requires OldOK(d, list) && BackupOK(d, list) && BackupPointOK(d, b)
    requires OnlyAt(d, d', x) && x !in d.oldJobs && x !in d.oldStatuses
    requires forall e :: e in d.backupOpen && e.BackupDropDS? ==> e.ds != x
    ensures OldOK(d', list) && BackupOK(d', list) && BackupPointOK(d', b)
  {
    hide Before;
  }

  /** Work on a dataset that is not listed disturbs nothing else. */
  lemma WorkKeeps(d: Disk, d': Disk, list: seq<Index>, rows: map<JobID, Row>, x: Index, b: BackupPoint)
    requires CoreOK(d, list) && LiveSame(d, list, rows) && RowsBelow(d, list, rows) && OldOK(d, list)
    requires BackupOK(d, list) && BackupPointOK(d, b)
    requires OnlyAt(d, d', x) && x !in list && x !in d.oldJobs && x !in d.oldStatuses
    requires forall e :: e in d.backupOpen && e.BackupDropDS? ==> e.ds != x
    ensures AllThere(d', list) && Core(d', list) == Core(d, list)
    ensures CoreOK(d', list) && LiveSame(d', list, rows) && RowsBelow(d', list, rows)
    ensures OldOK(d', list) && BackupOK(d', list) && BackupPointOK(d', b)
  {
    hide CoreOK, LiveSame, RowsBelow, Core, OldOK, BackupOK, BackupPointOK, OnlyAt, AllThere;
    WorkKept(d, d', list, x);
    CoreKept(d, d', list, rows);
    WorkOld(d, d', list, x, b);

  }

  ghost predicate AtWork(s: System, toBackup: bool, x: Index) {
    && Inv(s, toBackup)
    && x !in s.list && x !in s.disk.oldJobs && x !in s.disk.oldStatuses
    && (forall e :: e in s.disk.backupOpen && e.BackupDropDS? ==> e.ds != x)
  }

  /** A step that only works on x keeps all of the invariant but what it says about x itself. */
  lemma WorkInv(s: System, s': System, toBackup: bool, x: Index)
    requires AtWork(s, toBackup, x) && Up(s.point)
    requires s' == s.(disk := s'.disk, point := s'.point) && Up(s'.point) && OnlyAt(s.disk, s'.disk, x)
    requires Durable(s'.disk, s.list, toBackup) && PointOK(s')
    ensures Inv(s', toBackup)
  {
    hide CoreOK, LiveSame, RowsBelow, OldOK, BackupOK, BackupPointOK, PointOK, Durable, Core, AllThere;
    WorkKeeps(s.disk, s'.disk, s.list, s.rows, x, s.backup);
  }

  lemma AddingAtWork(s: System, toBackup: bool)
    requires Inv(s, toBackup) && s.point.Adding?
    ensures AtWork(s, toBackup, s.point.x)
  {
    hide CoreOK, LiveSame, RowsBelow, OldOK, BackupOK, BackupPointOK, Durable;
    NewIndexFree(s.disk, s.list, s.point.x, s.point.goal);
  }

  lemma DestAtWork(s: System, toBackup: bool, x: Index, m: nat)
    requires Inv(s, toBackup) && DestOK(s.disk, s.list, x, m)
    ensures AtWork(s, toBackup, x)
  {
    hide CoreOK, LiveSame, RowsBelow, OldOK, BackupOK, BackupPointOK, Durable;
    NewIndexFree(s.disk, s.list, x, Migrate(m));
  }

  lemma AtDest(s: System, toBackup: bool)
    requires Inv(s, toBackup) && (s.point.Added? || s.point.Copying? || s.point.Copied?)
    ensures AtWork(s, toBackup, s.point.x)
  {
    hide CoreOK, LiveSame, RowsBelow, OldOK, BackupOK, BackupPointOK, Durable;
    NewIndexFree(s.disk, s.list, s.point.x, Migrate(s.point.m));
  }

  lemma WorkedOn(s: System, toBackup: bool)
    requires s.point.Adding? || s.point.Added? || s.point.Copying? || s.point.Copied?
    requires AtWork(s, toBackup, s.point.x)
    ensures Up(s.point) && s.point.x !in s.list
  {
    hide Inv;
  }

  lemma CoreSame(d: Disk, d': Disk, list: seq<Index>)
    requires Kept(d, d', list)
    ensures Core(d', list) == Core(d, list) && (AllThere(d', list) <==> AllThere(d, list))
  {
  }

  /** The statements of addNewDS up to the last but one. */
  lemma AddingKeeps(s: System, ids: seq<JobID>, toBackup: bool)
    requires Inv(s, toBackup) && s.point.Adding? && Enabled(s, Main(ids), toBackup)
    requires s.point.stage < if s.point.goal.Append? then 4 else 3
    ensures Inv(Do(s, Main(ids), toBackup), toBackup)
  {
    hide Inv, AtWork, OnlyAt;
    AddingAtWork(s, toBackup);
    AddingPoint(s, ids, toBackup);
    WorkInv(s, Do(s, Main(ids), toBackup), toBackup, s.point.x);
  }

  lemma AddingPoint(s: System, ids: seq<JobID>, toBackup: bool)
    requires s.point.Adding? && AtWork(s, toBackup, s.point.x) && Enabled(s, Main(ids), toBackup)
    requires s.point.stage < if s.point.goal.Append? then 4 else 3
    ensures var s' := Do(s, Main(ids), toBackup);
      && s' == s.(disk := s'.disk, point := s'.point) && Up(s'.point) && OnlyAt(s.disk, s'.disk, s.point.x)
      && Durable(s'.disk, s.list, toBackup) && PointOK(s')
  {
    hide Durable, CoreOK, LiveSame, RowsBelow, OldOK, BackupOK, BackupPointOK, AddingOK, OnlyAt, MaxID;
    var d, list, x, goal, stage := s.disk, s.list, s.point.x, s.point.goal, s.point.stage;
    if stage == 0 {
      Stage0(d, list, x, goal, toBackup);
    } else if stage == 1 {
      Stage1(d, list, x, goal, toBackup);
    } else if stage == 2 {
      Stage2(d, list, x, goal, toBackup);
    } else {
      Stage3(d, list, x, goal, MaxID(d.jobs[Last(list)]) + 1, toBackup);
    }
  }

  /** The journal entry. */
  lemma Stage0(d: Disk, list: seq<Index>, x: Index, goal: Goal, toBackup: bool)
    requires AddingOK(d, list, x, goal, 0) && x !in list
    ensures var d' := d.(open := d.open + [AddDS(x)]);
      OnlyAt(d, d', x) && AddingOK(d', list, x, goal, 1) && Durable(d', list, toBackup)
  {
    hide SomeLive, Core, Consecutive, WindowDisk, NextIndex;
    GoalSame(d, d.(open := d.open + [AddDS(x)]), list, x, goal);
  }

  /** The jobs table. */
  lemma Stage1(d: Disk, list: seq<Index>, x: Index, goal: Goal, toBackup: bool)
    requires AddingOK(d, list, x, goal, 1) && x !in list
    ensures var d' := d.(jobs := d.jobs[x := JobsTable(map[], 1)]);
      OnlyAt(d, d', x) && AddingOK(d', list, x, goal, 2) && Durable(d', list, toBackup)
  {
    hide SomeLive, Core, Consecutive, WindowDisk, NextIndex;
    GoalSame(d, d.(jobs := d.jobs[x := JobsTable(map[], 1)]), list, x, goal);
  }

  /** The status table. */
  lemma Stage2(d: Disk, list: seq<Index>, x: Index, goal: Goal, toBackup: bool)
    requires AddingOK(d, list, x, goal, 2) && x !in list
    ensures var d' := d.(statuses := d.statuses[x := []]);
      OnlyAt(d, d', x) && AddingOK(d', list, x, goal, 3) && Durable(d', list, toBackup)
  {
    hide SomeLive, Core, Consecutive, WindowDisk, NextIndex;
    GoalSame(d, d.(statuses := d.statuses[x := []]), list, x, goal);
  }

  /** The id sequence. */
  lemma Stage3(d: Disk, list: seq<Index>, x: Index, goal: Goal, next: JobID, toBackup: bool)
    requires AddingOK(d, list, x, goal, 3) && x !in list && goal.Append? && next == MaxID(d.jobs[Last(list)]) + 1
    ensures x in d.jobs
    ensures var d' := d.(jobs := d.jobs[x := d.jobs[x].(next := next)]);
      OnlyAt(d, d', x) && AddingOK(d', list, x, goal, 4) && Durable(d', list, toBackup)
  {
    hide SomeLive, Core, Consecutive, WindowDisk, NextIndex, MaxID;
    GoalSame(d, d.(jobs := d.jobs[x := d.jobs[x].(next := next)]), list, x, goal);
  }

  lemma GoalSame(d: Disk, d': Disk, list: seq<Index>, x: Index, goal: Goal)
    requires GoalOK(d, list, x, goal) && Kept(d, d', list)
    ensures GoalOK(d', list, x, goal)
  {
    CoreSame(d, d', list);
  }

  /** The new dataset is there but empty, and no entry is open. */
  lemma AddedKeeps(s: System, ids: seq<JobID>, toBackup: bool)
    requires Inv(s, toBackup) && s.point.Adding? && Enabled(s, Main(ids), toBackup)
    requires s.point.goal.Migrate? && s.point.stage == 3
    ensures Inv(Do(s, Main(ids), toBackup), toBackup)
  {
    hide *;
    AddingAtWork(s, toBackup);
    WorkedOn(s, toBackup);
    AddedPoint(s, ids, toBackup);
    WorkInv(s, Do(s, Main(ids), toBackup), toBackup, s.point.x);
  }

  lemma AddedPoint(s: System, ids: seq<JobID>, toBackup: bool)
    requires Inv(s, toBackup) && s.point.Adding? && Enabled(s, Main(ids), toBackup)
    requires s.point.goal.Migrate? && s.point.stage == 3
    requires s.point.x !in s.list
    ensures var s' := Do(s, Main(ids), toBackup);
      && s' == s.(disk := s'.disk, point := s'.point) && Up(s'.point) && OnlyAt(s.disk, s'.disk, s.point.x)
      && Durable(s'.disk, s.list, toBackup) && PointOK(s')
  {
    hide CoreOK, LiveSame, RowsBelow, OldOK, BackupOK, BackupPointOK, SomeLive;
    var s' := Do(s, Main(ids), toBackup);
    CoreSame(s.disk, s'.disk, s.list);
    assert Pair(s'.disk, s.point.x) == NO_ROWS;
    assert WindowDisk(s'.disk, s.list, s.point.x, s.point.goal.m);
  }

  lemma CopyStarts(s: System, ids: seq<JobID>, toBackup: bool)
    requires Inv(s, toBackup) && s.point.Added? && Enabled(s, Main(ids), toBackup)
    ensures Inv(Do(s, Main(ids), toBackup), toBackup)
  {
    hide *;
    AtDest(s, toBackup);
    WorkedOn(s, toBackup);
    CopyStartsPoint(s, ids, toBackup);
    WorkInv(s, Do(s, Main(ids), toBackup), toBackup, s.point.x);
  }

  lemma CopyStartsDisk(d: Disk, list: seq<Index>, x: Index, m: nat, toBackup: bool)
    requires CoreOK(d, list) && DestOK(d, list, x, m) && d.open == [] && Pair(d, x) == NO_ROWS && x !in list
    requires m <= |list|
    ensures var d' := d.(open := d.open + [MigrateCopy(list[..m], x)]);
      CopyingOK(d', list, x, m, 0, false) && Durable(d', list, toBackup)
  {
    hide SomeLive, WindowDisk, Consecutive, NextIndex, WellFormed;
    var d' := d.(open := d.open + [MigrateCopy(list[..m], x)]);
    CoreSame(d, d', list);
    NothingGathered(Core(d, list), list);
    assert Pair(d', x) == NO_ROWS;
  }

  lemma CopyStartsPoint(s: System, ids: seq<JobID>, toBackup: bool)
    requires Inv(s, toBackup) && s.point.Added? && Enabled(s, Main(ids), toBackup)
    requires s.point.x !in s.list
    ensures var s' := Do(s, Main(ids), toBackup);
      && s' == s.(disk := s'.disk, point := s'.point) && Up(s'.point) && OnlyAt(s.disk, s'.disk, s.point.x)
      && Durable(s'.disk, s.list, toBackup) && PointOK(s')
  {
    hide CoreOK, LiveSame, RowsBelow, OldOK, BackupOK, BackupPointOK, CopyingOK, DestOK, Durable, OnlyAt, AllThere;
    hide Core, CopyStatuses, CopyJobs, Pair;
    WorksAt(s, ids, toBackup);
    var d, list, x, m := s.disk, s.list, s.point.x, s.point.m;
    CopyStartsDisk(d, list, x, m, toBackup);

  }

  lemma CopyJobsKeeps(s: System, ids: seq<JobID>, toBackup: bool)
    requires Inv(s, toBackup) && s.point.Copying? && !s.point.half && s.point.k < s.point.m
    requires Enabled(s, Main(ids), toBackup)
    ensures Inv(Do(s, Main(ids), toBackup), toBackup)
  {
    hide *;
    AtDest(s, toBackup);
    WorkedOn(s, toBackup);
    CopyJobsPoint(s, ids, toBackup);
    WorkInv(s, Do(s, Main(ids), toBackup), toBackup, s.point.x);
  }

  lemma CopyJobsDisk(d: Disk, list: seq<Index>, x: Index, m: nat, k: nat, toBackup: bool)
    requires CoreOK(d, list) && CopyingOK(d, list, x, m, k, false) && k < m && x !in list && x in d.jobs
    requires x in d.statuses
    requires k < |list| && list[k] in d.jobs && list[k] in d.statuses
    ensures var d' := d.(jobs := d.jobs[x := d.jobs[x].(rows := CopyJobs(Pair(d, list[k]), Pair(d, x)).jobs)]);
      CopyingOK(d', list, x, m, k, true) && Durable(d', list, toBackup)
  {
    hide SomeLive, Gathered, WindowDisk, Consecutive, NextIndex, WellFormed, CopyJobs;
    var d' := d.(jobs := d.jobs[x := d.jobs[x].(rows := CopyJobs(Pair(d, list[k]), Pair(d, x)).jobs)]);
    CoreSame(d, d', list);
    assert list[k] in list && Pair(d, list[k]) == Core(d, list)[list[k]];
    JobsCopied(d, d', x, list[k]);
    assert HalfWay(d', list, x, k, Pair(d, x));
  }

  lemma JobsCopied(d: Disk, d': Disk, x: Index, y: Index)
    requires x in d.jobs && x in d.statuses && y in d.jobs && y in d.statuses
    requires d' == d.(jobs := d.jobs[x := d.jobs[x].(rows := CopyJobs(Pair(d, y), Pair(d, x)).jobs)])
    ensures Pair(d', x) == CopyJobs(Pair(d, y), Pair(d, x))
  {
  }

  lemma CopyJobsPoint(s: System, ids: seq<JobID>, toBackup: bool)
    requires Inv(s, toBackup) && s.point.Copying? && !s.point.half && s.point.k < s.point.m
    requires Enabled(s, Main(ids), toBackup)
    requires s.point.x !in s.list
    ensures var s' := Do(s, Main(ids), toBackup);
      && s' == s.(disk := s'.disk, point := s'.point) && Up(s'.point) && OnlyAt(s.disk, s'.disk, s.point.x)
      && Durable(s'.disk, s.list, toBackup) && PointOK(s')
  {
    hide CoreOK, LiveSame, RowsBelow, OldOK, BackupOK, BackupPointOK, CopyingOK, DestOK, Durable, OnlyAt, AllThere;
    hide Core, CopyStatuses, CopyJobs, Pair;
    WorksAt(s, ids, toBackup);
    var d, list, x, m := s.disk, s.list, s.point.x, s.point.m;
    CopyJobsDisk(d, list, x, m, s.point.k, toBackup);

  }

  lemma CopyStatusesKeeps(s: System, ids: seq<JobID>, toBackup: bool)
    requires Inv(s, toBackup) && s.point.Copying? && s.point.half && Enabled(s, Main(ids), toBackup)
    ensures Inv(Do(s, Main(ids), toBackup), toBackup)
  {
    hide *;
    AtDest(s, toBackup);
    WorkedOn(s, toBackup);
    CopyStatusesPoint(s, ids, toBackup);
    WorkInv(s, Do(s, Main(ids), toBackup), toBackup, s.point.x);
  }

  lemma CopyStatusesDisk(d: Disk, list: seq<Index>, x: Index, m: nat, k: nat, ids: seq<JobID>, toBackup: bool)
    requires CoreOK(d, list) && CopyingOK(d, list, x, m, k, true) && x !in list && x in d.jobs && x in d.statuses
    requires k < |list| && list[k] in d.jobs && list[k] in d.statuses && RetryIds(Pair(d, list[k]), ids)
    ensures var d' := d.(statuses := d.statuses[x := CopyStatuses(Pair(d, list[k]), Pair(d, x), ids).statuses]);
      CopyingOK(d', list, x, m, k + 1, false) && Durable(d', list, toBackup)
  {
    hide SomeLive, Gathered, DatasetOK, WindowDisk, NextIndex, Before, Flat, CopyStatuses, CopyJobs, IdsBelow;
    var d' := d.(statuses := d.statuses[x := CopyStatuses(Pair(d, list[k]), Pair(d, x), ids).statuses]);
    CoreSame(d, d', list);
    var core := Core(d, list);
    assert list[k] in list && Pair(d, list[k]) == core[list[k]];
    var d0 :| HalfWay(d, list, x, k, d0);
    GatherStep(d0, core, list, k, ids);
    CopiedPair(d, d', x, core[list[k]], d0, ids);
  }

  lemma CopiedPair(d: Disk, d': Disk, x: Index, src: Dataset, d0: Dataset, ids: seq<JobID>)
    requires x in d.jobs && x in d.statuses && Pair(d, x) == CopyJobs(src, d0)
    requires d' == d.(statuses := d.statuses[x := CopyStatuses(src, Pair(d, x), ids).statuses])
    ensures x in d'.jobs && x in d'.statuses && Pair(d', x) == CopyStatuses(src, CopyJobs(src, d0), ids)
  {
  }

  lemma CopyStatusesPoint(s: System, ids: seq<JobID>, toBackup: bool)
    requires Inv(s, toBackup) && s.point.Copying? && s.point.half && Enabled(s, Main(ids), toBackup)
    requires s.point.x !in s.list
    ensures var s' := Do(s, Main(ids), toBackup);
      && s' == s.(disk := s'.disk, point := s'.point) && Up(s'.point) && OnlyAt(s.disk, s'.disk, s.point.x)
      && Durable(s'.disk, s.list, toBackup) && PointOK(s')
  {
    hide CoreOK, LiveSame, RowsBelow, OldOK, BackupOK, BackupPointOK, CopyingOK, DestOK, Durable, OnlyAt, AllThere;
    hide Core, CopyStatuses, Pair, RetryIds;
    WorksAt(s, ids, toBackup);
    var d, list, x, m, k := s.disk, s.list, s.point.x, s.point.m, s.point.k;
    CopyStatusesDisk(d, list, x, m, k, ids, toBackup);

  }

  lemma CopyEnds(s: System, ids: seq<JobID>, toBackup: bool)
    requires Inv(s, toBackup) && s.point.Copying? && !s.point.half && s.point.k == s.point.m
    requires Enabled(s, Main(ids), toBackup)
    ensures Inv(Do(s, Main(ids), toBackup), toBackup)
  {
    hide *;
    AtDest(s, toBackup);
    WorkedOn(s, toBackup);
    CopyEndsPoint(s, ids, toBackup);
    WorkInv(s, Do(s, Main(ids), toBackup), toBackup, s.point.x);
  }

  lemma CopyEndsDisk(d: Disk, list: seq<Index>, x: Index, m: nat, toBackup: bool)
    requires CoreOK(d, list) && CopyingOK(d, list, x, m, m, false) && x !in list
    ensures var d' := d.(open := []);
      DestOK(d', list, x, m) && Gathered(Pair(d', x), Core(d', list), list, m) && Durable(d', list, toBackup)
  {
    hide SomeLive, Gathered, DatasetOK, Before, Flat, IdsBelow, NextIndex;
    var d' := d.(open := []);
    CoreSame(d, d', list);
    assert Pair(d', x) == Pair(d, x);
    SomeGathered(Core(d, list), list, m, Pair(d, x));
    assert WindowDisk(d', list, x, m);
  }

  lemma CopyEndsPoint(s: System, ids: seq<JobID>, toBackup: bool)
    requires Inv(s, toBackup) && s.point.Copying? && !s.point.half && s.point.k == s.point.m
    requires Enabled(s, Main(ids), toBackup)
    requires s.point.x !in s.list
    ensures var s' := Do(s, Main(ids), toBackup);
      && s' == s.(disk := s'.disk, point := s'.point) && Up(s'.point) && OnlyAt(s.disk, s'.disk, s.point.x)
      && Durable(s'.disk, s.list, toBackup) && PointOK(s')
  {
    hide CoreOK, LiveSame, RowsBelow, OldOK, BackupOK, BackupPointOK, CopyingOK, DestOK, Durable, OnlyAt, AllThere;
    hide Core, CopyStatuses, CopyJobs, Pair;
    WorksAt(s, ids, toBackup);
    var d, list, x, m := s.disk, s.list, s.point.x, s.point.m;
    CopyEndsDisk(d, list, x, m, toBackup);

  }

  // ---------- the list changes ----------

  /** A dataset is appended. */
  lemma AppendKeeps(s: System, ids: seq<JobID>, toBackup: bool)
    requires Inv(s, toBackup) && s.point.Adding? && Enabled(s, Main(ids), toBackup)
    requires s.point.goal.Append? && s.point.stage == 4
    ensures Inv(Do(s, Main(ids), toBackup), toBackup)
  {
    hide WellFormed, Flat, LiveRows, OldOK, BackupOK, BackupPointOK, Before, NextIndex, MaxID;
    var d, list, x, s' := s.disk, s.list, s.point.x, Do(s, Main(ids), toBackup);
    AddingAtWork(s, toBackup);
    AppendedCore(d, s'.disk, list, x);
    assert (list + [x])[0] == list[0] && Last(list + [x]) == x;
    AppendedRows(d, list, x, s.rows);
    OldSameHead(d, s'.disk, list, s'.list);
  }

  lemma OldSameHead(d: Disk, d': Disk, list: seq<Index>, list': seq<Index>)
    requires OldOK(d, list) && d' == d.(open := d'.open) && list' != [] && list'[0] == list[0]
    ensures OldOK(d', list') && (BackupOK(d, list) ==> BackupOK(d', list'))
    ensures forall b :: BackupPointOK(d, b) ==> BackupPointOK(d', b)
  {
  }

  lemma AppendedCore(d: Disk, d': Disk, list: seq<Index>, x: Index)
    requires CoreOK(d, list) && AddingOK(d, list, x, Append, 4) && x !in list && d' == d.(open := [])
    ensures AllThere(d', list + [x]) && Core(d', list + [x]) == Core(d, list)[x := NO_ROWS]
    ensures CoreOK(d', list + [x]) && Flat(Core(d', list + [x]), list + [x]) == Flat(Core(d, list), list)
  {
    hide Flat, Before, MaxID, LiveRows, Consecutive, DatasetOK, IdsAscend;
    var core := Core(d, list);
    var a, b := Core(d', list + [x]), core[x := NO_ROWS];
    assert Pair(d, x) == NO_ROWS;
    forall ds ensures ds in a <==> ds in b {}
    forall ds | ds in a ensures a[ds] == b[ds] {}
    assert core[Last(list)].jobs == d.jobs[Last(list)].rows;
    AppendedWellFormed(core, list, d.jobs[Last(list)].next, x);
    Lowered(b, list + [x], d.jobs[Last(list)].next, d.jobs[Last(list)]);
  }

  /** The largest id of the last non-empty dataset bounds all ids. */
  lemma Lowered(tables: Tables, list: seq<Index>, nextID: JobID, t: JobsTable)
    requires WellFormed(tables, list, nextID) && |list| > 1 && tables[Last(list)] == NO_ROWS
    requires tables[list[|list| - 2]].jobs == t.rows && t.next == nextID
    ensures WellFormed(tables, list, MaxID(t) + 1)
  {
    var n := |list| - 2;
    MaxIDBounds(t);
    assert tables[list[n]].jobs != map[];
    forall ds, id | ds in tables && id in tables[ds].jobs ensures 1 <= id < MaxID(t) + 1 {
      var i :| 0 <= i < |list| && list[i] == ds;
      assert IdsBelow(tables[ds], nextID) && At(tables, list, i, id);
      assert MaxID(t) in t.rows ==> At(tables, list, n, MaxID(t));
    }
  }

  lemma MaxIDBounds(t: JobsTable)
    requires t.next >= 1 && t.rows != map[] && forall id :: id in t.rows ==> 1 <= id < t.next
    ensures MaxID(t) in t.rows && forall id :: id in t.rows ==> id <= MaxID(t)
  {
    var s := set id | id in t.rows;
    var q := InOrder(s, 1, t.next);
    InOrderAscends(s, 1, t.next);
    forall id | id in t.rows ensures id in q {
      InOrderHas(s, 1, t.next, id);
    }
    NotEmpty(Dataset(t.rows, []), q);
  }

  lemma AppendedRows(d: Disk, list: seq<Index>, x: Index, rows: map<JobID, Row>)
    requires CoreOK(d, list) && AddingOK(d, list, x, Append, 4) && RowsBelow(d, list, rows)
    ensures forall id :: id in rows ==> id < d.jobs[x].next
  {
    hide Flat, MaxID;
    var t := d.jobs[Last(list)];
    assert Core(d, list)[Last(list)].jobs == t.rows && IdsBelow(Core(d, list)[Last(list)], t.next);
    MaxIDBounds(t);
  }

  // ---------- the sources go ----------

  ghost predicate RoundHead(list: seq<Index>, m: nat, head: seq<Index>)
    requires 0 < m <= |list|
  {
    head == [] || (1 <= |list[m - 1]| <= 2 && head == [NextIndex(false, list[m - 1])])
  }

  lemma TailThere(d: Disk, list: seq<Index>, m: nat, head: seq<Index>)
    requires AllThere(d, list) && 0 < m < |list|
    requires head == [] || (head == [head[0]] && head[0] in d.jobs && head[0] in d.statuses)
    ensures AllThere(d, head + list[m..]) && Last(head + list[m..]) == Last(list)
    ensures forall i :: m <= i < |list| ==> list[i] in list && list[i] in head + list[m..]
  {
  }

  lemma CoreAt(d: Disk, list: seq<Index>)
    requires AllThere(d, list)
    ensures forall ds :: ds in Core(d, list) <==> ds in list
    ensures forall ds :: ds in list ==> Core(d, list)[ds] == Pair(d, ds)
  {
  }

  lemma SameDataset(d: Disk, d': Disk, list: seq<Index>, list': seq<Index>, x: Index)
    requires AllThere(d, list) && AllThere(d', list') && d'.jobs == d.jobs && d'.statuses == d.statuses && x in list
    requires x in list'
    ensures x in Core(d, list) && x in Core(d', list') && Core(d', list')[x] == Core(d, list)[x]
  {
  }

  lemma TailSame(d: Disk, d': Disk, list: seq<Index>, list': seq<Index>, m: nat)
    requires AllThere(d, list) && AllThere(d', list') && d'.jobs == d.jobs && d'.statuses == d.statuses
    requires m <= |list| && forall i :: m <= i < |list| ==> list[i] in list && list[i] in list'
    ensures forall ds :: ds in Core(d', list') <==> ds in list'
    ensures forall ds :: ds in Core(d, list) <==> ds in list
    ensures forall i :: m <= i < |list| ==> Core(d', list')[list[i]] == Core(d, list)[list[i]]
  {
    hide AllThere, Core;
    CoreAt(d', list');
    CoreAt(d, list);
    forall i | m <= i < |list| ensures Core(d', list')[list[i]] == Core(d, list)[list[i]] {
      SameDataset(d, d', list, list', list[i]);
    }
  }

  lemma HeadSame(d: Disk, d': Disk, list': seq<Index>, x: Index)
    requires AllThere(d', list') && d'.jobs == d.jobs && d'.statuses == d.statuses && x in list'
    requires x in d.jobs && x in d.statuses
    ensures x in Core(d', list') && Core(d', list')[x] == Pair(d, x)
  {
    CoreAt(d', list');
    SamePair(d, d', x);
  }

  /** The listed datasets after the round are those `Replaced` speaks of. */
  lemma RoundCore(d: Disk, d': Disk, list: seq<Index>, m: nat, head: seq<Index>)
    requires CoreOK(d, list) && 0 < m < |list| && RoundHead(list, m, head)
    requires d'.jobs == d.jobs && d'.statuses == d.statuses
    requires head != [] ==> head[0] !in list && head[0] in d.jobs && head[0] in d.statuses
    ensures AllThere(d', head + list[m..]) && Last(head + list[m..]) == Last(list)
    ensures var p := if head == [] then NO_ROWS else Pair(d, head[0]);
      Replaced(Core(d, list), list, m, head, p, Core(d', head + list[m..]), head + list[m..])
  {
    hide CoreOK, Before, NextIndex, Consecutive, SortedIndices, NoRepeats, Core, Pair, AllThere, Last;
    ListFacts(d, list);
    ThereAlso(d, d', list);
    TailThere(d', list, m, head);
    TailSame(d, d', list, head + list[m..], m);
    if head != [] {
      assert (head + list[m..])[0] == head[0];
      HeadSame(d, d', head + list[m..], head[0]);
    }
  }

  lemma ThereAlso(d: Disk, d': Disk, list: seq<Index>)
    requires AllThere(d, list) && d'.jobs == d.jobs && d'.statuses == d.statuses
    ensures AllThere(d', list)
  {
  }

  lemma SamePair(d: Disk, d': Disk, x: Index)
    requires d'.jobs == d.jobs && d'.statuses == d.statuses && x in d.jobs && x in d.statuses
    ensures Pair(d', x) == Pair(d, x)
  {
  }

  /** From the moment POST_MIGRATE is in the journal the new list counts; the unfinished jobs are the same. */
  lemma RoundListKeeps(d: Disk, list: seq<Index>, rows: map<JobID, Row>, m: nat, head: seq<Index>)
    requires CoreOK(d, list) && LiveSame(d, list, rows) && RowsBelow(d, list, rows) && 0 < m < |list|
    requires RoundHead(list, m, head)
    requires head != [] ==>
      head[0] !in list && head[0] in d.jobs && head[0] in d.statuses
        && Gathered(Pair(d, head[0]), Core(d, list), list, m)
    requires head == [] <==> !SomeLive(Core(d, list), list, m)
    ensures var d', list' := d.(open := [PostMigrate(list[..m])]), head + list[m..];
      CoreOK(d', list') && LiveSame(d', list', rows) && RowsBelow(d', list', rows)
  {
    hide WellFormed, Flat, LiveRows, Gathered, SomeLive, Before, NextIndex, Replaced;
    var d', list' := d.(open := [PostMigrate(list[..m])]), head + list[m..];
    var core, next := Core(d, list), d.jobs[Last(list)].next;
    RoundCore(d, d', list, m, head);
    if head == [] {
      StoreShape(core, list, next);
      NoneGathered(core, list, m);
      RoundKeeps(core, list, next, m, head, NO_ROWS, Core(d', list'), list');
    } else {
      RoundKeeps(core, list, next, m, head, Pair(d, head[0]), Core(d', list'), list');
    }
  }

  /** Old indices and sources come before the new list. */
  lemma BeforeNewList(list: seq<Index>, m: nat, head: seq<Index>, y: Index)
    requires Consecutive(list) && 0 < m < |list| && RoundHead(list, m, head)
    requires Before(y, list[0]) || y in list[..m]
    ensures Before(y, (head + list[m..])[0])
  {
  }

  lemma StartPostingKeeps(s: System, m: nat, head: seq<Index>, toBackup: bool)
    requires Inv(s, toBackup) && Up(s.point) && s.disk.open == [] && 0 < m < |s.list| && RoundHead(s.list, m, head)
    requires Only(s.disk, s.list, head, head)
    requires head != [] ==> head[0] !in s.list && head[0] in s.disk.jobs && head[0] in s.disk.statuses
    requires head != [] ==> Gathered(Pair(s.disk, head[0]), Core(s.disk, s.list), s.list, m)
    requires head == [] <==> !SomeLive(Core(s.disk, s.list), s.list, m)
    ensures Inv(StartPosting(s, m, head), toBackup)
  {
    hide CoreOK, LiveSame, RowsBelow, OldOK, BackupOK, BackupPointOK, Gathered, SomeLive, Durable, PostingOK, Core;
    hide PointOK;
    var s', from := StartPosting(s, m, head), s.list[..m];
    assert s'.disk == s.disk.(open := [PostMigrate(from)]);
    ListFacts(s.disk, s.list);
    RoundListKeeps(s.disk, s.list, s.rows, m, head);
    forall y | Before(y, s.list[0]) || y in from ensures Before(y, s'.list[0]) {
      BeforeNewList(s.list, m, head, y);
    }
    OldMoves(s.disk, s'.disk, s.list, s'.list, s.backup);
    SourcesLeft(s.disk, s'.disk, s.list, m, head, toBackup);
    assert PointOK(s') by { PointOfPosting(s'); }
  }

  lemma PointOfPosting(s: System)
    requires s.point.Posting? && PostingOK(s.disk, s.list, s.point.from, s.point.script)
    ensures PointOK(s)
  {
  }

  lemma OldMoves(d: Disk, d': Disk, list: seq<Index>, list': seq<Index>, b: BackupPoint)
    requires OldOK(d, list) && BackupOK(d, list) && BackupPointOK(d, b) && d' == d.(open := d'.open) && list' != []
    requires forall y :: Before(y, list[0]) ==> Before(y, list'[0])
    ensures OldOK(d', list') && BackupOK(d', list') && BackupPointOK(d', b)
  {
    hide Before;
  }

  lemma SourcesLeft(d: Disk, d': Disk, list: seq<Index>, m: nat, head: seq<Index>, toBackup: bool)
    requires CoreOK(d, list) && 0 < m < |list| && Only(d, list, head, head) && NoRepeats(list)
    requires d' == d.(open := [PostMigrate(list[..m])])
    requires forall y :: y in list[..m] ==> Before(y, (head + list[m..])[0])
    ensures Durable(d', head + list[m..], toBackup) && PostingOK(d', head + list[m..], list[..m], Retire(list[..m]))
  {
    hide WellFormed, Before, Core, WindowDisk;
    var from, list' := list[..m], head + list[m..];
    forall ds | ds in list ensures ds in from || ds in list' {
      var i :| 0 <= i < |list| && list[i] == ds;
      if i < m {
        assert from[i] == ds;
      } else {
        assert list[m..][i - m] == ds;
      }
    }
    forall j | 0 <= j < m ensures from[j] in d.jobs && from[j] in d.statuses {
      assert from[j] in list;
    }
    var r := Retire(from);
    assert r[0..] == r;
  }

  /** Renaming or dropping goes on. */
  lemma PostingKeeps(s: System, ids: seq<JobID>, toBackup: bool)
    requires Inv(s, toBackup) && s.point.Posting? && s.point.script != [] && Enabled(s, Main(ids), toBackup)
    ensures Inv(Do(s, Main(ids), toBackup), toBackup)
  {
    hide CoreOK, LiveSame, RowsBelow, Retire, PostingOK, Durable, OldOK, BackupOK, BackupPointOK, Kept, Before;
    var d, list, from, script, s' := s.disk, s.list, s.point.from, s.point.script, Do(s, Main(ids), toBackup);
    ListFacts(d, list);
    assert DiskOK(d, list, toBackup, s.backup);
    NextRetired(d, list, from, script, toBackup);
    RetireKeeps(d, list, from, script[0], toBackup, s.backup);
    CoreKept(d, s'.disk, list, s.rows);
    assert s'.disk.backupOpen == d.backupOpen;
    assert DiskOK(s'.disk, list, toBackup, s'.backup);
  }

  lemma NextRetired(d: Disk, list: seq<Index>, from: seq<Index>, script: seq<Stmt>, toBackup: bool)
    requires PostingOK(d, list, from, script) && script != []
    ensures d.open == [PostMigrate(from)] && !script[0].Close? && !script[0].CloseBackup?
    ensures match script[0] case RetireStatuses(y) => y in from case RetireJobs(y) => y in from
      && y !in d.statuses case _ => false
    ensures PostingOK(Exec1(d, script[0], toBackup), list, from, script[1..])
  {
    hide Before, Retire;
    var r := Retire(from);
    var k := |r| - |script|;
    var i := RetireNth(from, k);
    assert script[0] == r[k];
    assert script[1..] == r[k + 1..];
    var d' := Exec1(d, script[0], toBackup);
    forall j | 0 <= j < |from|
      ensures (from[j] in d'.statuses <==> 2 * j >= k + 1) && (from[j] in d'.jobs <==> 2 * j + 1 >= k + 1)
    {
      assert j != i ==> from[j] != from[i];
    }
  }

  lemma PostingEndsDisk(d: Disk, list: seq<Index>, from: seq<Index>, b: BackupPoint, toBackup: bool)
    requires PostingOK(d, list, from, []) && OldOK(d, list) && BackupOK(d, list) && BackupPointOK(d, b)
    ensures var d' := d.(open := []);
      && Only(d', list, [], []) && Durable(d', list, toBackup) && OldOK(d', list) && BackupOK(d', list)
        && BackupPointOK(d', b)
      && Kept(d, d', list)
  {
    hide WindowDisk, Before, Retire;
    RetireAt(from);
    forall y | y in from ensures y !in d.jobs && y !in d.statuses {
      var j :| 0 <= j < |from| && from[j] == y;
    }
  }

  lemma PostingEnds(s: System, ids: seq<JobID>, toBackup: bool)
    requires Inv(s, toBackup) && s.point.Posting? && s.point.script == [] && Enabled(s, Main(ids), toBackup)
    ensures Inv(Do(s, Main(ids), toBackup), toBackup)
  {
    hide CoreOK, LiveSame, RowsBelow, OldOK, BackupOK, BackupPointOK, Durable, PostingOK, Only, Retire, Before;
    var d, list, from, s' := s.disk, s.list, s.point.from, Do(s, Main(ids), toBackup);
    assert s'.disk == d.(open := []);
    PostingEndsDisk(d, list, from, s.backup, toBackup);
    CoreKept(d, s'.disk, list, s.rows);

  }

  lemma CopiedKeeps(s: System, ids: seq<JobID>, toBackup: bool)
    requires Inv(s, toBackup) && s.point.Copied? && Enabled(s, Main(ids), toBackup)
    ensures Inv(Do(s, Main(ids), toBackup), toBackup)
  {
    hide CoreOK, LiveSame, RowsBelow, OldOK, BackupOK, BackupPointOK, Gathered, SomeLive, Durable, Core;
    DestAtWork(s, toBackup, s.point.x, s.point.m);
    StartPostingKeeps(s, s.point.m, [s.point.x], toBackup);
  }

  lemma RoundStarts(s: System, m: nat, toBackup: bool)
    requires Inv(s, toBackup) && Enabled(s, BeginMigrate(m, false), toBackup)
    ensures Inv(StartPosting(s, m, []), toBackup)
  {
    hide CoreOK, LiveSame, RowsBelow, OldOK, BackupOK, BackupPointOK, Gathered, SomeLive, Durable, Core, Consecutive;
    hide Only, NextIndex;
    StartPostingKeeps(s, m, [], toBackup);
  }

  lemma BeginMigrateKeeps(s: System, m: nat, live: bool, toBackup: bool)
    requires Inv(s, toBackup) && Enabled(s, BeginMigrate(m, live), toBackup)
    ensures Inv(Do(s, BeginMigrate(m, live), toBackup), toBackup)
  {
    hide LiveSame, RowsBelow, OldOK, BackupOK, BackupPointOK, Gathered, SomeLive, Durable, Core, CoreOK, StartPosting;
    hide Consecutive, Only;
    ListFacts(s.disk, s.list);
    if !live {
      RoundStarts(s, m, toBackup);
    }
  }

  lemma MainKeeps(s: System, ids: seq<JobID>, toBackup: bool)
    requires Inv(s, toBackup) && Enabled(s, Main(ids), toBackup)
    ensures Inv(Do(s, Main(ids), toBackup), toBackup)
  {
    hide Inv, Do;
    StageBound(s, toBackup);
    match s.point
    case Adding(x, goal, stage) =>
      if stage < (if goal.Append? then 4 else 3) { AddingKeeps(s, ids, toBackup); }
      else if goal.Append? { AppendKeeps(s, ids, toBackup); }
      else { AddedKeeps(s, ids, toBackup); }
    case Added(_, _) => CopyStarts(s, ids, toBackup);
    case Copying(_, m, k, half) =>
      if half { CopyStatusesKeeps(s, ids, toBackup); }
      else if k < m { CopyJobsKeeps(s, ids, toBackup); }
      else { CopyEnds(s, ids, toBackup); }
    case Copied(_, _) => CopiedKeeps(s, ids, toBackup);
    case Posting(_, script) =>
      if script == [] { PostingEnds(s, ids, toBackup); } else { PostingKeeps(s, ids, toBackup); }
    case _ =>
  }

  lemma StageBound(s: System, toBackup: bool)
    requires Inv(s, toBackup)
    ensures s.point.Adding? ==> s.point.stage <= if s.point.goal.Append? then 4 else 3
    ensures s.point.Copying? ==> s.point.k <= s.point.m
  {
  }

  // ---------- what a statement changes ----------

  ghost predicate NoneGone(d: Disk, d': Disk) {
    (forall ds :: ds in d.jobs ==> ds in d'.jobs) && forall ds :: ds in d.statuses ==> ds in d'.statuses
  }

  lemma JobsAt(d: Disk, x: Index, t: JobsTable)
    ensures OnlyAt(d, d.(jobs := d.jobs[x := t]), x)
  {
  }

  lemma StatusesAt(d: Disk, x: Index, q: seq<Status>)
    ensures OnlyAt(d, d.(statuses := d.statuses[x := q]), x)
  {
  }

  lemma OpenAt(d: Disk, open: seq<Entry>, x: Index)
    ensures OnlyAt(d, d.(open := open), x)
  {
  }

  /** Before deleting begins, statements only touch the dataset under construction. */
  lemma WorksAt(s: System, ids: seq<JobID>, toBackup: bool)
    requires Enabled(s, Main(ids), toBackup) && (s.point.Adding? || s.point.Added? || s.point.Copying?)
    ensures var d' := Do(s, Main(ids), toBackup).disk; OnlyAt(s.disk, d', s.point.x) && NoneGone(s.disk, d')
  {
    hide MaxID, CopyJobs, CopyStatuses, Pair, RetryIds, Retire, OnlyAt;
    var d, d', x := s.disk, Do(s, Main(ids), toBackup).disk, s.point.x;
    OpenAt(d, d'.open, x);
    match s.point
    case Adding(_, goal, stage) =>
      if stage == 1 || (stage == 3 && goal.Append?) {
        JobsAt(d, x, d'.jobs[x]);
      } else if stage == 2 {
        StatusesAt(d, x, d'.statuses[x]);
      }
    case Copying(_, m, k, half) =>
      if half {
        StatusesAt(d, x, d'.statuses[x]);
      } else if k < m {
        JobsAt(d, x, d'.jobs[x]);
      }
    case _ =>
  }

  lemma Unlisted(s: System, toBackup: bool)
    requires Inv(s, toBackup) && (s.point.Adding? || s.point.Added? || s.point.Copying? || s.point.Copied?)
    ensures s.point.x !in s.list
    ensures s.point.Adding? ==> s.point.stage <= if s.point.goal.Append? then 4 else 3
    ensures s.point.Copied? ==> 0 < s.point.m < |s.list|
  {
    hide CoreOK, LiveSame, RowsBelow, OldOK, BackupOK, BackupPointOK, Durable, AtWork, Consecutive, SomeLive, Gathered;
    StageBound(s, toBackup);
    if s.point.Adding? {
      AddingAtWork(s, toBackup);
    } else {
      AtDest(s, toBackup);
    }
    assert AtWork(s, toBackup, s.point.x);
    AtWorkUnlisted(s, toBackup, s.point.x);
  }

  lemma AtWorkUnlisted(s: System, toBackup: bool, x: Index)
    requires AtWork(s, toBackup, x)
    ensures x !in s.list
  {
    hide Inv;
  }

  /** Where a statement leads. */
  lemma StatementPoint(s: System, ids: seq<JobID>, toBackup: bool)
    requires Enabled(s, Main(ids), toBackup)
    ensures var s' := Do(s, Main(ids), toBackup);
      match s.point
      case Adding(x, goal, stage) =>
        if stage < 3 || (stage == 3 && goal.Append?) then s'.point == Adding(x, goal, stage + 1) && s'.list == s.list
        else if goal.Append? then s'.point == Idle && s'.list == s.list + [x] && s'.disk == s.disk.(open := [])
        else s'.point.Added? && s'.list == s.list
      case Added(_, _) => s'.point.Copying? && s'.list == s.list
      case Copying(_, _, _, _) => (s'.point.Copying? || s'.point.Copied?) && s'.list == s.list
      case Copied(x, m) => m <= |s.list| && s' == StartPosting(s, m, [x]) && s'.point.Posting?
        && s'.point.script == Retire(s'.point.from)
      case Posting(from, script) =>
        && s'.list == s.list
        && if script == [] then s'.point == Idle && s'.disk == s.disk.(open := [])
           else s'.point == Posting(from, script[1..])
      case _ => false
  {
    hide MaxID, CopyJobs, CopyStatuses, Pair, RetryIds, Retire, Exec1;
  }
}
