/** The statements of the check loop, the backup loop, crashes and restarts under the locks; every action is a step
    of the store without locks, so every run of the one is a run of the other. */
module LockedRound {
  import opened Common
  import opened Tables
  import opened Layout
  import opened Migration
  import opened Compaction
  import opened Maintenance
  import opened Journal
  import opened JournalInvariant
  import opened JournalRecovery
  import opened JournalSteps
  import opened JournalClients
  import opened LockedStore
  import opened LockedInvariant
  import opened LockedSteps
  import L = Locks

  /** With nobody at work the clients are fine whatever happens. */
  lemma NobodyKeeps(s: World, s': World)
    requires |s.work| == |s.threads| && |s'.work| == |s'.threads| && s'.work == s.work
    requires forall i :: 0 <= i < |s.work| ==> s.work[i] == NoWork
    ensures ClientsOK(s')
  {
  }

  // ---------- where a round begins ----------

  /** A list that lost its first datasets is another list. */
  lemma HeadGone(s: System, list: seq<Index>, toBackup: bool)
    requires Inv(s, toBackup) && s.point.Posting? && s.point.from != [] && list != [] && s.point.from[0] == list[0]
    ensures s.list != [] && s.list != list
  {
    hide CoreOK, LiveSame, RowsBelow, OldOK, BackupOK, BackupPointOK, Durable, Retire, Before;
    assert Before(list[0], s.list[0]);
    BeforeIrreflexive(list[0]);
  }

  /** Deleting begins with the old list still in memory. */
  lemma PostingMem(s: World, m: nat, head: seq<Index>, toBackup: bool)
    requires 0 < m < |s.sys.list| && s.mem == s.sys.list
    requires Inv(StartPosting(s.sys, m, head), toBackup)
    ensures MemOK(s.(sys := StartPosting(s.sys, m, head)))
  {
    hide Inv, RangesOK, Retire;
    HeadGone(StartPosting(s.sys, m, head), s.sys.list, toBackup);
  }

  lemma BeginCore(s: World, toBackup: bool)
    requires Allowed(s, Begin, toBackup) && Safe(s, toBackup)
    ensures s.plan != NoPlan && Enabled(s.sys, Planned(s.plan), toBackup)
    ensures Inv(Do(s.sys, Planned(s.plan), toBackup), toBackup)
  {
    hide Inv, ThreadsOK, RoundOK, ClientsOK, Enabled, Do;
    StepKeeps(s.sys, Planned(s.plan), toBackup);
  }

  lemma BeginPoint(s: System, plan: Plan, toBackup: bool)
    requires plan != NoPlan && Enabled(s, Planned(plan), toBackup)
    ensures var s' := Do(s, Planned(plan), toBackup);
      match plan
      case Extend => s'.point.Adding? && s'.point.goal.Append? && s'.point.stage == 0 && s'.disk == s.disk
        && s'.list == s.list
      case Move(m, live) =>
        && 0 < m < |s.list|
        && if live then s'.point.Adding? && s'.point.goal.Migrate? && s'.disk == s.disk && s'.list == s.list
           else s' == StartPosting(s, m, []) && s'.point.Posting? && s'.point.script == Retire(s'.point.from)
  {
    hide Retire, SomeLive, Core;
  }

  lemma BeginKeeps(s: World, toBackup: bool)
    requires Allowed(s, Begin, toBackup) && Safe(s, toBackup)
    ensures Safe(Next(s, Begin, toBackup), toBackup)
  {
    hide Inv, L.Inv, MainThread, Enabled, Do, Retire, RangesOK, ClientsOK, PlanOK;
    var s' := Next(s, Begin, toBackup);
    BeginCore(s, toBackup);
    BeginPoint(s.sys, s.plan, toBackup);
    NobodyAtWork(s, toBackup);
    NobodyKeeps(s, s');
    NoPlanOK(s', toBackup);
    if s.plan.Move? && !s.plan.live {
      PostingMem(s, s.plan.m, [], toBackup);
    }
  }

  lemma NoPlanOK(s: World, toBackup: bool)
    requires s.plan == NoPlan
    ensures PlanOK(s, toBackup)
  {
  }

  // ---------- its statements ----------

  /** Working on an unlisted dataset leaves the ranges alone, and so does working on the last one's sequence. */
  lemma RangesWork(d: Disk, d': Disk, list: seq<Index>, x: Index, ranges: seq<Range>)
    requires OnlyAt(d, d', x) && NoneGone(d, d') && RangesOK(d, list, ranges)
    requires forall i :: 0 <= i < |list| - 1 ==> list[i] != x
    ensures RangesOK(d', list, ranges)
  {
    hide RangesOK;
    RangesThere(d, list, ranges);
    RangesStay(d, d', list, ranges);
  }

  lemma RangesThere(d: Disk, list: seq<Index>, ranges: seq<Range>)
    requires RangesOK(d, list, ranges)
    ensures AllThere(d, list)
  {
  }

  lemma AddingMem(s: World, sys': System, ids: seq<JobID>, toBackup: bool)
    requires s.threads != [] && InPlace(s) && s.sys.point.Adding? && Enabled(s.sys, Main(ids), toBackup)
    requires sys' == Do(s.sys, Main(ids), toBackup) && MemOK(s) && Inv(s.sys, toBackup)
    requires Left(s) == (if s.sys.point.goal.Append? then 7 else 4)
    ensures MemOK(s.(sys := sys'))
  {
    hide Inv, Do, RangesOK, OnlyAt, Enabled, NoneGone;
    var d, list, x := s.sys.disk, s.sys.list, s.sys.point.x;
    StatementPoint(s.sys, ids, toBackup);
    WorksAt(s.sys, ids, toBackup);
    Unlisted(s.sys, toBackup);
    if RangesOK(d, list, s.ranges) {
      RangesWork(d, sys'.disk, list, x, s.ranges);
    }
    if RangesOK(d, list + [x], s.ranges) {
      RangesWork(d, sys'.disk, list + [x], x, s.ranges);
    }
  }

  lemma CopyingMem(s: World, sys': System, ids: seq<JobID>, toBackup: bool)
    requires (s.sys.point.Added? || s.sys.point.Copying?) && Enabled(s.sys, Main(ids), toBackup)
    requires sys' == Do(s.sys, Main(ids), toBackup) && MemOK(s) && Inv(s.sys, toBackup)
    ensures MemOK(s.(sys := sys'))
  {
    hide Inv, Do, RangesOK, OnlyAt, Enabled, NoneGone;
    StatementPoint(s.sys, ids, toBackup);
    WorksAt(s.sys, ids, toBackup);
    Unlisted(s.sys, toBackup);
    RangesWork(s.sys.disk, sys'.disk, s.sys.list, s.sys.point.x, s.ranges);
  }

  lemma CopiedMem(s: World, sys': System, ids: seq<JobID>, toBackup: bool)
    requires s.sys.point.Copied? && Enabled(s.sys, Main(ids), toBackup)
    requires sys' == Do(s.sys, Main(ids), toBackup) && MemOK(s) && Inv(s.sys, toBackup) && Inv(sys', toBackup)
    ensures MemOK(s.(sys := sys'))
  {
    hide Inv, Do, RangesOK, Enabled, Retire;
    StatementPoint(s.sys, ids, toBackup);
    Unlisted(s.sys, toBackup);
    PostingMem(s, s.sys.point.m, [s.sys.point.x], toBackup);
  }

  lemma PostedMem(s: World, sys': System, ids: seq<JobID>, toBackup: bool)
    requires s.sys.point.Posting? && Enabled(s.sys, Main(ids), toBackup)
    requires sys' == Do(s.sys, Main(ids), toBackup) && MemOK(s)
    requires s.sys.point.script == [] ==> s.mem == s.sys.list
    ensures MemOK(s.(sys := sys'))
  {
    hide Do, RangesOK, Enabled, OnlyAt, Retire;
    StatementPoint(s.sys, ids, toBackup);
    if s.sys.point.script == [] {
      OpenAt(s.sys.disk, [], []);
      RangesOpen(s.sys.disk, sys'.disk, s.sys.list, s.ranges);
    }
  }

  lemma RangesOpen(d: Disk, d': Disk, list: seq<Index>, ranges: seq<Range>)
    requires RangesOK(d, list, ranges) && d'.jobs == d.jobs && d'.statuses == d.statuses
    ensures RangesOK(d', list, ranges)
  {
    hide RangesOK;
    RangesThere(d, list, ranges);
    RangesStay(d, d', list, ranges);
  }

  lemma StatementControl(s: World, sys': System, ids: seq<JobID>, toBackup: bool)
    requires s.threads != [] && InPlace(s) && ControlOK(s) && Enabled(s.sys, Main(ids), toBackup)
    requires sys' == Do(s.sys, Main(ids), toBackup)
    requires s.sys.point.Adding? ==> s.sys.point.stage <= if s.sys.point.goal.Append? then 4 else 3
    ensures s.plan == NoPlan && Up(sys'.point) && ControlOK(s.(sys := sys')) && Left(s) !in {0, 6, 8, 9, 10}
    ensures s.sys.point.Adding? ==> Left(s) == if s.sys.point.goal.Append? then 7 else 4
    ensures s.sys.point.Posting? && s.sys.point.script == [] ==> s.mem == s.sys.list
  {
    hide Do, Enabled, Retire;
    StatementPoint(s.sys, ids, toBackup);
  }

  lemma StatementMem(s: World, sys': System, ids: seq<JobID>, toBackup: bool)
    requires s.threads != [] && InPlace(s) && Enabled(s.sys, Main(ids), toBackup) && MemOK(s)
    requires sys' == Do(s.sys, Main(ids), toBackup) && Inv(s.sys, toBackup) && Inv(sys', toBackup)
    requires s.sys.point.Adding? ==> Left(s) == if s.sys.point.goal.Append? then 7 else 4
    requires s.sys.point.Posting? && s.sys.point.script == [] ==> s.mem == s.sys.list
    ensures MemOK(s.(sys := sys'))
  {
    hide Inv, Do, Enabled, MemOK;
    match s.sys.point
    case Adding(_, _, _) => AddingMem(s, sys', ids, toBackup);
    case Added(_, _) => CopyingMem(s, sys', ids, toBackup);
    case Copying(_, _, _, _) => CopyingMem(s, sys', ids, toBackup);
    case Copied(_, _) => CopiedMem(s, sys', ids, toBackup);
    case Posting(_, _) => PostedMem(s, sys', ids, toBackup);
    case _ =>
  }

  lemma StatementKeeps(s: World, ids: seq<JobID>, toBackup: bool)
    requires Allowed(s, Statement(ids), toBackup) && Safe(s, toBackup)
    ensures Safe(Next(s, Statement(ids), toBackup), toBackup)
  {
    hide Inv, L.Inv, MainThread, Enabled, Do, MemOK, ClientsOK, PlanOK, ControlOK, InPlace;
    var s' := Next(s, Statement(ids), toBackup);
    StepKeeps(s.sys, Main(ids), toBackup);
    StageBound(s.sys, toBackup);
    InPlaceUp(s);
    StatementControl(s, s'.sys, ids, toBackup);
    StatementMem(s, s'.sys, ids, toBackup);
    NobodyAtWork(s, toBackup);
    NobodyKeeps(s, s');
    NoPlanOK(s', toBackup);
  }

  lemma InPlaceUp(s: World)
    requires s.threads != [] && InPlace(s)
    ensures Up(s.sys.point)
  {
  }

  // ---------- reading the lists again ----------

  lemma RangeRead(t: JobsTable, ds: Index, p: Dataset, bound: JobID)
    requires t.rows != map[] && p.jobs == t.rows && bound >= 1 && IdsBelow(p, bound)
    ensures RangeOf(RangeFor(t, ds), ds, p)
  {
    var s := set id | id in t.rows;
    var q := InOrder(s, 1, bound);
    InOrderAscends(s, 1, bound);
    forall x | x in s ensures x in q {
      InOrderHas(s, 1, bound, x);
    }
    NotEmpty(p, q);
    assert LeastOf(s, q[0]) && LargestOf(s, q[|q| - 1]);
  }

  /** The ranges of datasets that are there and, but for the last one, not empty. */
  lemma RangesRead(d: Disk, list: seq<Index>, bound: JobID)
    requires AllThere(d, list) && bound >= 1 && forall i :: 0 <= i < |list| ==> IdsBelow(Pair(d, list[i]), bound)
    requires forall i :: 0 <= i < |list| - 1 ==> d.jobs[list[i]].rows != map[]
    ensures RangesOK(d, list, ReadRanges(d, list))
  {
    hide RangeFor, RangeOf, IdsBelow;
    forall i | 0 <= i < |list| - 1 ensures RangeOf(ReadRanges(d, list)[i], list[i], Core(d, list)[list[i]]) {
      assert list[i] in list;
      RangeRead(d.jobs[list[i]], list[i], Pair(d, list[i]), bound);
    }
  }

  lemma CoreRanges(d: Disk, list: seq<Index>)
    requires CoreOK(d, list)
    ensures RangesOK(d, list, ReadRanges(d, list))
  {
    hide DatasetOK, Consecutive, IdsAscend, RangesOK;
    ListFacts(d, list);
    forall i | 0 <= i < |list| ensures IdsBelow(Pair(d, list[i]), d.jobs[Last(list)].next) {
      assert list[i] in list && Core(d, list)[list[i]] == Pair(d, list[i]);
    }
    RangesRead(d, list, d.jobs[Last(list)].next);
  }

  /** While a dataset is being appended it is already on disk, behind all the others. */
  ghost predicate ExtendedBy(d: Disk, list: seq<Index>, x: Index) {
    && CoreOK(d, list) && x == NextIndex(true, Last(list)) && Only(d, list, [x], [x])
    && x !in list && x in d.jobs && x in d.statuses && d.jobs[x].rows == map[] && d.jobs[Last(list)].rows != map[]
  }

  lemma ExtendedSorted(d: Disk, list: seq<Index>, x: Index, names: seq<Index>)
    requires ExtendedBy(d, list, x) && NamesOf(d, names)
    ensures names == list + [x]
  {
    hide WellFormed, Before, IdsBelow, Core;
    ListFacts(d, list);
    AppendedShape(list, x);
    ConsecutiveSorted(list + [x]);
    SortedUnique(names, list + [x]);
  }

  lemma ExtendedFilled(d: Disk, list: seq<Index>, x: Index)
    requires ExtendedBy(d, list, x)
    ensures AllThere(d, list + [x]) && forall i :: 0 <= i < |list| ==> d.jobs[list[i]].rows != map[]
  {
    hide WellFormed, Before, Core;
    ListFacts(d, list);
    forall i | 0 <= i < |list| ensures d.jobs[list[i]].rows != map[] {
      assert i == |list| - 1 ==> list[i] == Last(list);
    }
  }

  lemma ExtendedLast(d: Disk, list: seq<Index>, x: Index)
    requires ExtendedBy(d, list, x)
    ensures list != [] && Last(list) in d.jobs && d.jobs[Last(list)].next >= 1
  {
    hide DatasetOK, Consecutive, IdsAscend, Core;
  }

  lemma ExtendedNames(d: Disk, list: seq<Index>, x: Index, names: seq<Index>)
    requires ExtendedBy(d, list, x) && NamesOf(d, names)
    ensures names == list + [x] && RestartOK(d, names) && RangesOK(d, names, ReadRanges(d, names))
  {
    hide CoreOK, RangesOK, IdsBelow, IdsBefore, NextIndex, Only, Pair;
    ExtendedSorted(d, list, x, names);
    ExtendedFilled(d, list, x);
    ExtendedLast(d, list, x);
    var bound := d.jobs[Last(list)].next;
    forall i | 0 <= i < |list + [x]| ensures IdsBelow(Pair(d, (list + [x])[i]), bound) {
      BelowAll(d, list, x, i);
    }
    RangesRead(d, list + [x], bound);
    forall i | 0 < i < |names| - 1 ensures IdsBefore(d.jobs[names[i - 1]], d.jobs[names[i]]) {
      Neighbours(d, list, i);
    }
  }

  lemma BelowAll(d: Disk, list: seq<Index>, x: Index, i: int)
    requires ExtendedBy(d, list, x) && 0 <= i < |list + [x]|
    ensures (list + [x])[i] in d.jobs && (list + [x])[i] in d.statuses && d.jobs[Last(list)].next >= 1
    ensures IdsBelow(Pair(d, (list + [x])[i]), d.jobs[Last(list)].next)
  {
    hide DatasetOK, Consecutive, IdsAscend;
    if i < |list| {
      assert list[i] in list && Core(d, list)[list[i]] == Pair(d, list[i]);
    }
  }

  lemma ListedNames(d: Disk, list: seq<Index>, names: seq<Index>)
    requires CoreOK(d, list) && Only(d, list, [], []) && NamesOf(d, names)
    ensures names == list && RestartOK(d, names) && RangesOK(d, names, ReadRanges(d, names))
  {
    hide CoreOK, RangesOK, RestartOK;
    RestartsWell(d, list, names);
    CoreRanges(d, list);
  }

  /** When all sources are deleted only the listed datasets are on disk. */
  lemma AllRetired(d: Disk, list: seq<Index>, from: seq<Index>)
    requires PostingOK(d, list, from, [])
    ensures Only(d, list, [], [])
  {
    hide Before, Retire;
    RetireAt(from);
    forall y | y in from ensures y !in d.jobs && y !in d.statuses {
      var j :| 0 <= j < |from| && from[j] == y;
    }
  }

  lemma OnlyListed(s: System, toBackup: bool)
    requires Inv(s, toBackup) && ((s.point.Adding? && s.point.stage == 0) || (s.point.Posting? && s.point.script == []))
    ensures Only(s.disk, s.list, [], [])
  {
    hide CoreOK, LiveSame, RowsBelow, OldOK, BackupOK, BackupPointOK, Durable, Only, PostingOK, GoalOK;
    if s.point.Posting? {
      AllRetired(s.disk, s.list, s.point.from);
    }
  }

  lemma AppendedLast(s: System, toBackup: bool)
    requires Inv(s, toBackup) && s.point.Adding? && s.point.goal.Append? && s.point.stage == 3
    ensures ExtendedBy(s.disk, s.list, s.point.x)
  {
    hide CoreOK, LiveSame, RowsBelow, OldOK, BackupOK, BackupPointOK, Durable, Only, NextIndex, Consecutive;
    Unlisted(s, toBackup);
    ListThere(s, toBackup);
  }

  /** Whenever the lists are read again they are what is on disk, and the assertions of getDSList and getDSRangeList
      hold. */
  lemma RefreshFinds(s: World, names: seq<Index>, toBackup: bool)
    requires Allowed(s, Refresh(names), toBackup) && Safe(s, toBackup)
    ensures names ==
      if s.sys.point.Adding? && s.sys.point.stage == 3 then s.sys.list + [s.sys.point.x] else s.sys.list
    ensures RestartOK(s.sys.disk, names) && RangesOK(s.sys.disk, names, ReadRanges(s.sys.disk, names))
  {
    hide Inv, ThreadsOK, ClientsOK, RestartOK, RangesOK, CoreOK, Only, NamesOf, MemOK, PlanOK, ExtendedBy, Retire;
    ListThere(s.sys, toBackup);
    if s.sys.point.Adding? && s.sys.point.stage == 3 {
      AppendedLast(s.sys, toBackup);
      ExtendedNames(s.sys.disk, s.sys.list, s.sys.point.x, names);
    } else {
      OnlyListed(s.sys, toBackup);
      ListedNames(s.sys.disk, s.sys.list, names);
    }
  }

  lemma RefreshKeeps(s: World, names: seq<Index>, toBackup: bool)
    requires Allowed(s, Refresh(names), toBackup) && Safe(s, toBackup)
    ensures Safe(Next(s, Refresh(names), toBackup), toBackup)
  {
    hide Inv, L.Inv, MainThread, ClientsOK, RestartOK, RangesOK, CoreOK, NamesOf, PlanOK, ReadRanges, Retire;
    var s' := Next(s, Refresh(names), toBackup);
    RefreshFinds(s, names, toBackup);
    ListThere(s.sys, toBackup);
    NobodyAtWork(s, toBackup);
    NobodyKeeps(s, s');
    NoPlanOK(s', toBackup);
  }

  // ---------- the backup loop, crashes, restarts ----------

  ghost predicate MainLeft(s: System, s': System) {
    && s'.disk.jobs == s.disk.jobs && s'.disk.statuses == s.disk.statuses
    && s'.list == s.list && s'.point == s.point && s'.rows == s.rows
  }

  lemma BackupStepLeaves(s: System)
    requires s.backup != Resting && BackupSqlOK(s)
    ensures MainLeft(s, BackupStep(s))
  {
  }

  lemma BackupLeaves(s: System, step: Step, toBackup: bool)
    requires (step.BeginBackup? || step.Backup?) && Enabled(s, step, toBackup)
    ensures MainLeft(s, Do(s, step, toBackup)) && Up(s.point)
  {
    hide BackupSqlOK, BackupStep, MainStep, StartPosting, StoreIn, WriteTo, RecoveryScript, Exec1, RestartOK;
    if step.Backup? {
      BackupStepLeaves(s);
    }
  }

  lemma SameCore(d: Disk, d': Disk, list: seq<Index>)
    requires AllThere(d, list) && d'.jobs == d.jobs && d'.statuses == d.statuses
    ensures AllThere(d', list) && SameJobs(d, d', list) && Core(d', list) == Core(d, list)
  {
    CoreSame(d, d', list);
  }

  lemma BackupMem(s: World, s': World)
    requires MemOK(s) && s'.sys.list == s.sys.list && s'.sys.point == s.sys.point && s'.mem == s.mem
    requires s'.ranges == s.ranges
    requires s'.sys.disk.jobs == s.sys.disk.jobs && s'.sys.disk.statuses == s.sys.disk.statuses
    ensures MemOK(s')
  {
    hide RangesOK;
    if RangesOK(s.sys.disk, s.mem, s.ranges) {
      RangesOpen(s.sys.disk, s'.sys.disk, s.mem, s.ranges);
    }
  }

  lemma BackupClients(s: World, s': World)
    requires |s.work| == |s.threads| && ClientsOK(s) && s'.threads == s.threads && s'.work == s.work && s'.mem == s.mem
    requires s'.sys.disk.jobs == s.sys.disk.jobs && s'.sys.disk.statuses == s.sys.disk.statuses
    requires s'.sys.rows == s.sys.rows
    ensures ClientsOK(s')
  {
    hide Selects, Selected, Ascending, IdsOf;
    forall i | 0 <= i < |s.work| ensures WorkOK(s'.sys.disk, s.mem, s.sys.rows, s.work[i]) {
      assert WorkOK(s.sys.disk, s.mem, s.sys.rows, s.work[i]);
      WorkSame(s.sys.disk, s'.sys.disk, s.mem, s.sys.rows, s.work[i]);
    }
  }

  lemma WorkSame(d: Disk, d': Disk, mem: seq<Index>, rows: map<JobID, Row>, w: Work)
    requires WorkOK(d, mem, rows, w) && d'.jobs == d.jobs && d'.statuses == d.statuses
    ensures WorkOK(d', mem, rows, w)
  {
    hide Selects, Selected, Ascending, IdsOf, RowsRead;
    InSame(d, d', mem);
    if w.Reading? {
      forall id ensures id in Matching(d', mem, w.f, w.customVals) <==> id in Matching(d, mem, w.f, w.customVals) {
        assert forall ds :: ds in d.jobs && ds in d.statuses ==> Pair(d', ds) == Pair(d, ds);
      }
      RowsSame(d, d', mem, w);
    }
  }

  lemma RowsSame(d: Disk, d': Disk, mem: seq<Index>, w: Work)
    requires w.Reading? && RowsRead(d, mem, w) && d'.jobs == d.jobs && d'.statuses == d.statuses
    ensures RowsRead(d', mem, w)
  {
    assert forall ds :: ds in d.jobs && ds in d.statuses ==> Pair(d', ds) == Pair(d, ds);
    forall t ensures t in RowsOn(d', mem) <==> t in RowsOn(d, mem) {}
    assert forall j, t :: HasJob(d', mem, j, t) <==> HasJob(d, mem, j, t);
  }

  lemma InSame(d: Disk, d': Disk, mem: seq<Index>)
    requires d'.jobs == d.jobs
    ensures forall i, id :: In(d', mem, i, id) <==> In(d, mem, i, id)
    ensures forall k, id :: LiesFrom(d', mem, k, id) <==> LiesFrom(d, mem, k, id)
  {
  }

  lemma BackupPlan(s: World, s': World, toBackup: bool)
    requires PlanOK(s, toBackup) && s'.plan == s.plan && s'.sys.point == s.sys.point && s'.sys.list == s.sys.list
    requires s'.sys.disk.jobs == s.sys.disk.jobs && s'.sys.disk.statuses == s.sys.disk.statuses
    requires AllThere(s.sys.disk, s.sys.list)
    ensures PlanOK(s', toBackup)
  {
    hide SomeLive, Core;
    SameCore(s.sys.disk, s'.sys.disk, s.sys.list);
    if s.plan != NoPlan {
      assert Enabled(s.sys, Planned(s.plan), toBackup);
      PlanStays(s.sys, s'.sys, s.plan, toBackup);
    }
  }

  lemma BackupGoesOn(s: World, step: Step, toBackup: bool)
    requires Allowed(s, Other(step), toBackup) && (step.BeginBackup? || step.Backup?) && Safe(s, toBackup)
    ensures Safe(Next(s, Other(step), toBackup), toBackup)
  {
    hide Inv, L.Inv, MainThread, Enabled, Do, MemOK, ClientsOK, PlanOK, ControlOK, AllThere;
    var s' := Next(s, Other(step), toBackup);
    StepKeeps(s.sys, step, toBackup);
    BackupLeaves(s.sys, step, toBackup);
    ListThere(s.sys, toBackup);
    ControlStays(s, s');
    BackupMem(s, s');
    BackupPlan(s, s', toBackup);
    BackupClients(s, s');
  }

  lemma AllAtRest(threads: seq<L.Thread>)
    requires forall i :: 0 <= i < |threads| ==> threads[i] == AT_REST
    ensures L.Inv(threads)
  {
  }

  lemma CrashKeepsLocks(s: World, toBackup: bool)
    requires Allowed(s, Other(Crash), toBackup) && Safe(s, toBackup)
    ensures Safe(Next(s, Other(Crash), toBackup), toBackup)
  {
    hide Inv, L.Inv, RoundOK, ClientsOK;
    StepKeeps(s.sys, Crash, toBackup);
    AllAtRest(seq(|s.threads|, _ => AT_REST));
  }

  lemma RecoverLeaves(s: System, step: Step, toBackup: bool)
    requires (step.Recover? || step.Restart?) && Enabled(s, step, toBackup)
    ensures !Up(s.point)
    ensures var p := Do(s, step, toBackup).point; if step.Recover? then !Up(p) else p == Idle || p == Stuck
    ensures step.Restart? && Do(s, step, toBackup).point == Idle ==> Do(s, step, toBackup).list == step.names
    ensures step.Restart? ==> Do(s, step, toBackup).disk == s.disk
  {
  }

  lemma RecoverKeepsLocks(s: World, toBackup: bool)
    requires Allowed(s, Other(Recover), toBackup) && Safe(s, toBackup)
    ensures Safe(Next(s, Other(Recover), toBackup), toBackup)
  {
    hide Inv, L.Inv, Enabled, Do, RoundOK, ClientsOK;
    StepKeeps(s.sys, Recover, toBackup);
    RecoverLeaves(s.sys, Recover, toBackup);
  }

  /** A restart begins with nobody in the middle of anything and with lists just read. */
  lemma Restarted(s: World, toBackup: bool)
    requires s.threads != [] && s.threads[0] == AT_REST && s.plan == NoPlan && s.sys.point == Idle
    requires s.mem == s.sys.list && RangesOK(s.sys.disk, s.sys.list, s.ranges)
    ensures RoundOK(s, toBackup)
  {
    hide RangesOK;
    assert MainThread(AT_REST);
  }

  lemma RestartKeepsLocks(s: World, names: seq<Index>, toBackup: bool)
    requires Allowed(s, Other(Restart(names)), toBackup) && Safe(s, toBackup)
    ensures Safe(Next(s, Other(Restart(names)), toBackup), toBackup)
  {
    hide Inv, L.Inv, Enabled, Do, RoundOK, ClientsOK, CoreOK, ReadRanges;
    var s' := Next(s, Other(Restart(names)), toBackup);
    StepKeeps(s.sys, Restart(names), toBackup);
    RecoverLeaves(s.sys, Restart(names), toBackup);
    if s'.sys.point == Idle {
      ListThere(s'.sys, toBackup);
      CoreRanges(s'.sys.disk, s'.sys.list);
      NobodyKeeps(s, s');
      Restarted(s', toBackup);
    }
  }

  // ---------- every action ----------

  lemma ActionKeeps(s: World, a: Action, toBackup: bool)
    requires Allowed(s, a, toBackup) && Safe(s, toBackup)
    ensures Safe(Next(s, a, toBackup), toBackup)
  {
    hide Safe, Next, Enabled;
    match a
    case Lock(i) => LockKeeps(s, i, toBackup);
    case StartRound => StartRoundKeeps(s, toBackup);
    case Skip => SkipKeeps(s, toBackup);
    case Decide(plan) => DecideKeeps(s, plan, toBackup);
    case Begin => BeginKeeps(s, toBackup);
    case Statement(ids) => StatementKeeps(s, ids, toBackup);
    case Refresh(names) => RefreshKeeps(s, names, toBackup);
    case StartClient(i, storer) => StartClientKeeps(s, i, storer, toBackup);
    case StoreJob(i, job, burnt) => StoreJobKeeps(s, i, job, burnt, toBackup);
    case BeginUpdate(i, q) => BeginUpdateKeeps(s, i, q, toBackup);
    case WriteSlice(i) => WriteSliceKeeps(s, i, toBackup);
    case BeginRead(i, f, customVals, count) => BeginReadKeeps(s, i, f, customVals, count, toBackup);
    case ReadDS(i) => ReadDSKeeps(s, i, toBackup);
    case Other(step) =>
      if step.BeginBackup? || step.Backup? { BackupGoesOn(s, step, toBackup); }
      else if step == Crash { CrashKeepsLocks(s, toBackup); }
      else if step == Recover { RecoverKeepsLocks(s, toBackup); }
      else { RestartKeepsLocks(s, step.names, toBackup); }
  }

  /** What an action does to the disk and the list is a step of the store without locks, whose guards on the point of
      the check loop follow from the locks, or nothing. */
  lemma Refines(s: World, a: Action, toBackup: bool) returns (step: Option<Step>)
    requires Allowed(s, a, toBackup) && Safe(s, toBackup)
    ensures step == None ==> Next(s, a, toBackup).sys == s.sys
    ensures step.Some? ==>
      Enabled(s.sys, step.value, toBackup) && Next(s, a, toBackup).sys == Do(s.sys, step.value, toBackup)
  {
    hide Safe, Enabled, Do, WatchedAll, StoreIn, WriteTo, Share, Target;
    match a
    case Begin =>
      BeginCore(s, toBackup);
      step := Some(Planned(s.plan));
    case Statement(ids) => step := Some(Main(ids));
    case StoreJob(i, job, burnt) =>
      StoreAllowed(s, i, job, burnt, toBackup);
      step := Some(Store(job, burnt));
    case WriteSlice(i) =>
      var w := s.work[i];
      var ds, q := Target(s, w.k), w.todo[..Share(s, w.todo, w.k)];
      SliceAllowed(s, i, w, ds, q, toBackup);
      SliceIs(s, i, w, ds, q, toBackup);
      step := Some(Update(ds, q));
    case Other(other) => step := Some(other);
    case _ => step := None;
  }
}
