/** What holds of the store with its locks in every run, and what the locks mean for where the check loop can be. */
module LockedInvariant {
  import opened Common
  import opened Tables
  import opened Layout
  import opened Batches
  import opened Journal
  import opened JournalInvariant
  import opened LockedStore
  import L = Locks

  // ---------- the check loop ----------

  const ROUND: seq<L.Op> := [
    L.Acquire(L.ListLock, L.Read), L.Release(L.ListLock),
    L.Acquire(L.ListLock, L.Write), L.Release(L.ListLock),
    L.Acquire(L.MigrationLock, L.Write),
    L.Acquire(L.ListLock, L.Write), L.Release(L.ListLock),
    L.Acquire(L.ListLock, L.Write), L.Release(L.ListLock),
    L.Release(L.MigrationLock)]

  lemma WholeRound()
    ensures L.Round(true, true, true) == ROUND
  {
  }

  /** What is left of the round tells which locks the check loop holds. */
  ghost predicate MainThread(t: L.Thread) {
    var k := |t.rest|;
    && k <= 10 && t.rest == ROUND[10 - k..]
    && t.migration == (if 1 <= k <= 5 then L.Write else L.No)
    && t.list == (if k == 9 then L.Read else if k == 7 || k == 4 || k == 2 then L.Write else L.No)
  }

  ghost predicate ControlOK(s: World)
    requires s.threads != []
  {
    var p, plan, waiting := s.sys.point, s.plan, s.threads[0].waiting;
    match Left(s)
    case 8 => p == Idle && (plan == NoPlan || plan == Extend) && (waiting ==> plan == Extend)
    case 7 => (p == Idle && (plan == NoPlan || plan == Extend)) || (plan == NoPlan && p.Adding? && p.goal.Append?)
    case 5 => p == Idle && plan != Extend && (waiting ==> plan.Move? && plan.live)
    case 4 => (p == Idle && plan.Move? && plan.live) || (plan == NoPlan && (p.Added? || (p.Adding? && p.goal.Migrate?)))
    case 3 =>
      || (p == Idle && !waiting && (plan == NoPlan || (plan.Move? && !plan.live)))
      || (plan == NoPlan && !waiting && (p.Added? || p.Copying? || p.Copied?))
      || (plan == NoPlan && p.Posting? && p.script == Retire(p.from))
    case 2 => plan == NoPlan && p.Posting?
    case 1 => plan == NoPlan && (p == Idle || (p.Posting? && p.script == [] && s.mem == s.sys.list))
    case _ => p == Idle && plan == NoPlan
  }

  /** What was decided can still be done. */
  ghost predicate PlanOK(s: World, toBackup: bool) {
    s.plan != NoPlan ==> Enabled(s.sys, Planned(s.plan), toBackup)
  }

  // ---------- the lists in memory ----------

  ghost predicate RangesOK(d: Disk, list: seq<Index>, ranges: seq<Range>) {
    AllThere(d, list) && RangesOf(ranges, Core(d, list), list)
  }

  ghost predicate MemOK(s: World) {
    var d, list, mem := s.sys.disk, s.sys.list, s.mem;
    match s.sys.point
    case Adding(x, Append, stage) =>
      if stage < 3 || (stage == 3 && mem == list) then mem == list && RangesOK(d, list, s.ranges)
      else mem == list + [x] && RangesOK(d, list + [x], s.ranges)
    case Posting(_, script) =>
      && mem != [] && list != [] && Last(mem) == Last(list)
      && (mem == list ==> script == [] && RangesOK(d, list, s.ranges))
    case _ => mem == list && RangesOK(d, list, s.ranges)
  }

  // ---------- the clients ----------

  ghost predicate In(d: Disk, list: seq<Index>, i: int, id: JobID) {
    0 <= i < |list| && list[i] in d.jobs && id in d.jobs[list[i]].rows
  }

  ghost predicate LiesFrom(d: Disk, list: seq<Index>, k: int, id: JobID) {
    exists j :: k <= j && In(d, list, j, id)
  }

  /** Whatever is left to write lies in this dataset or a later one. */
  ghost predicate TodoOK(d: Disk, mem: seq<Index>, rows: map<JobID, Row>, todo: seq<Status>, k: nat) {
    && ByJob(todo) && k <= |mem|
    && forall t :: t in todo ==>
      && t.state != NP && t.jobID in rows && IsLive(rows[t.jobID])
      && LiesFrom(d, mem, k, t.jobID)
  }

  /** The job of a row is the one that the j-th dataset has under its id. */
  ghost predicate HasJob(d: Disk, list: seq<Index>, j: int, t: JobT) {
    In(d, list, j, t.id) && d.jobs[list[j]].rows[t.id] == t.row.job
  }

  /** Every row that has been read was there, and its job still is. */
  ghost predicate RowsRead(d: Disk, mem: seq<Index>, w: Work)
    requires w.Reading?
  {
    && RowsOn(d, mem) <= w.seen
    && forall t :: t in w.out ==> t in w.seen && exists j :: j < w.k && HasJob(d, mem, j, t)
  }

  /** `out` is ascending and no longer than wanted, every row in it matched, and it has every job of the datasets read
      that has matched all the time, unless it is full of smaller ones. */
  ghost predicate ReadOK(d: Disk, mem: seq<Index>, w: Work)
    requires w.Reading?
  {
    var ids := IdsOf(w.out);
    && w.k <= |mem| && Ascending(ids) && |ids| <= w.count
    && (forall t :: t in w.out ==> Selects(w.f, w.customVals, t.row)) && RowsRead(d, mem, w)
    && (forall id :: id in ids ==> exists j :: j < w.k && In(d, mem, j, id))
    && w.steady <= Matching(d, mem, w.f, w.customVals)
    && forall id, j :: id in w.steady && id !in ids && j < w.k && In(d, mem, j, id) ==>
      |ids| == w.count && forall y :: y in ids ==> y < id
  }

  ghost predicate WorkOK(d: Disk, mem: seq<Index>, rows: map<JobID, Row>, w: Work) {
    match w
    case NoWork => true
    case Updating(todo, k) => TodoOK(d, mem, rows, todo, k)
    case Reading(_, _, _, _, _, _, _) => ReadOK(d, mem, w)
  }

  ghost predicate NoneShared(a: Work, b: Work) {
    a.Updating? && b.Updating? ==> forall x, y :: x in a.todo && y in b.todo ==> x.jobID != y.jobID
  }

  ghost predicate ClientsOK(s: World)
    requires |s.work| == |s.threads|
  {
    && (forall i :: 0 <= i < |s.work| && s.work[i] != NoWork ==> Both(s.threads[i]))
    && (forall i :: 0 <= i < |s.work| ==> WorkOK(s.sys.disk, s.mem, s.sys.rows, s.work[i]))
    && (forall i, j :: 0 <= i < j < |s.work| ==> NoneShared(s.work[i], s.work[j]))
  }

  // ---------- all of it ----------

  ghost predicate ThreadsOK(s: World) {
    s.threads != [] && |s.work| == |s.threads| && s.work[0] == NoWork && L.Inv(s.threads)
  }

  ghost predicate RoundOK(s: World, toBackup: bool)
    requires s.threads != []
  {
    MainThread(s.threads[0]) && ControlOK(s) && PlanOK(s, toBackup) && MemOK(s)
  }

  ghost predicate AtRest(s: World)
    requires |s.work| == |s.threads|
  {
    s.plan == NoPlan && forall i :: 0 <= i < |s.threads| ==> s.threads[i] == AT_REST && s.work[i] == NoWork
  }

  ghost predicate Safe(s: World, toBackup: bool) {
    && Inv(s.sys, toBackup) && ThreadsOK(s)
    && if Up(s.sys.point) then RoundOK(s, toBackup) && ClientsOK(s) else AtRest(s)
  }

  // ---------- what a lock is worth ----------

  lemma NoWriter(threads: seq<L.Thread>, i: int, l: L.Lock)
    requires L.Exclusive(threads, l) && 0 <= i < |threads| && L.Held(threads[i], l) == L.Read
    ensures L.Held(threads[0], l) != L.Write
  {
  }

  lemma ListThere(s: System, toBackup: bool)
    requires Inv(s, toBackup)
    ensures CoreOK(s.disk, s.list) && s.list != [] && AllThere(s.disk, s.list)
  {
  }

  lemma ControlRead(s: World)
    requires s.threads != [] && MainThread(s.threads[0]) && ControlOK(s) && s.threads[0].list != L.Write
    ensures !s.sys.point.Adding?
    ensures s.sys.point.Posting? ==>
      s.sys.point.script == Retire(s.sys.point.from) || (s.sys.point.script == [] && s.mem == s.sys.list)
    ensures s.threads[0].migration != L.Write ==> s.sys.point == Idle && !s.plan.Move? && Left(s) in {0, 6, 8, 9, 10}
  {
    hide Retire;
  }

  lemma MemLast(s: World)
    requires MemOK(s) && !s.sys.point.Adding?
    ensures s.mem != [] && s.sys.list != [] && Last(s.mem) == Last(s.sys.list)
    ensures s.sys.point == Idle ==> s.mem == s.sys.list && RangesOK(s.sys.disk, s.mem, s.ranges)
  {
    hide RangesOf, Core;
  }

  /** Whoever holds the list lock for reading keeps the check loop from adding a dataset and from deleting the sources
      of a migration: the sources are all there, or gone and forgotten. */
  lemma ListLockMeans(s: World, i: nat, toBackup: bool)
    requires Safe(s, toBackup) && Up(s.sys.point) && i < |s.threads| && s.threads[i].list == L.Read
    ensures !s.sys.point.Adding?
    ensures s.sys.point.Posting? ==>
      s.sys.point.script == Retire(s.sys.point.from) || (s.sys.point.script == [] && s.mem == s.sys.list)
    ensures s.mem != [] && s.sys.list != [] && Last(s.mem) == Last(s.sys.list)
  {
    hide Inv, ClientsOK, RangesOK, PlanOK, ControlOK, MemOK, MainThread, L.Exclusive;
    NoWriter(s.threads, i, L.ListLock);
    ControlRead(s);
    MemLast(s);
  }

  /** Whoever holds both locks for reading meets no round under way, and lists in memory that are those of the disk. */
  lemma BothLocksMean(s: World, i: nat, toBackup: bool)
    requires Safe(s, toBackup) && Up(s.sys.point) && 1 <= i < |s.threads| && Both(s.threads[i])
    ensures s.sys.point == Idle && !s.plan.Move? && s.mem == s.sys.list && RangesOK(s.sys.disk, s.mem, s.ranges)
    ensures Left(s) in {0, 6, 8, 9, 10}
  {
    hide Inv, ClientsOK, RangesOK, PlanOK, ControlOK, MemOK, MainThread, L.Exclusive;
    NoWriter(s.threads, i, L.ListLock);
    NoWriter(s.threads, i, L.MigrationLock);
    ControlRead(s);
    MemLast(s);
  }

  /** While the check loop holds a lock for writing no client is reading or updating. */
  lemma NobodyAtWork(s: World, toBackup: bool)
    requires Safe(s, toBackup) && Up(s.sys.point) && Left(s) !in {0, 6, 8, 9, 10}
    ensures forall i :: 0 <= i < |s.work| ==> s.work[i] == NoWork
  {
    hide Inv, RoundOK;
    forall i | 0 <= i < |s.work| ensures s.work[i] == NoWork {
      if s.work[i] != NoWork {
        BothLocksMean(s, i, toBackup);
      }
    }
  }
}
