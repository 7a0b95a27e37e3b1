/** The store of `Journal` with its two locks: the check loop and any number of clients are threads that take and
    give back dsMigrationLock and dsListLock step by step, as `Locks` says. What a client may do depends on the locks it
    holds and on what is in memory, and on nothing else. */
module LockedStore {
  import opened Tables
  import opened Layout
  import opened Batches
  import opened Reading
  import opened Journal
  import L = Locks

  // ---------- states ----------

  /** What a round has decided to do but not begun. */
  datatype Plan = NoPlan | Extend | Move(m: nat, live: bool)

  /** What a client that holds both locks is at: `k` datasets are behind it. `steady` is the history of the jobs that
      have matched the query at every moment since it began, `seen` that of all rows the datasets have had since. */
  datatype Work =
    | NoWork
    | Updating(todo: seq<Status>, k: nat)
    | Reading(f: Filter, customVals: seq<string>, count: nat, k: nat, out: seq<JobT>, steady: set<JobID>,
        seen: set<JobT>)

  /** `mem` and `ranges` are datasetList and datasetRangeList. Thread 0 is the check loop, the others are clients. */
  datatype World = World(
    sys: System,
    mem: seq<Index>,
    ranges: seq<Range>,
    threads: seq<L.Thread>,
    work: seq<Work>,
    plan: Plan)

  ghost predicate Both(t: L.Thread) {
    t.migration == L.Read && t.list == L.Read
  }

  const AT_REST: L.Thread := L.Thread([], L.No, L.No, false)

  /** How many lock operations are left of the round. */
  ghost function Left(s: World): nat
    requires s.threads != []
  {
    |s.threads[0].rest|
  }

  // ---------- what is read from the database ----------

  ghost predicate LeastOf(s: set<int>, m: int) {
    m in s && forall x :: x in s ==> m <= x
  }

  ghost predicate LargestOf(s: set<int>, m: int) {
    m in s && forall x :: x in s ==> x <= m
  }

  /** SELECT MIN(job_id), MAX(job_id). */
  ghost function RangeFor(t: JobsTable, ds: Index): Range {
    var s := set id | id in t.rows;
    Range(if exists m :: LeastOf(s, m) then var m :| LeastOf(s, m); m else 0,
          if exists m :: LargestOf(s, m) then var m :| LargestOf(s, m); m else 0,
          ds)
  }

  /** The ranges of all datasets but the last. */
  ghost function ReadRanges(d: Disk, names: seq<Index>): seq<Range>
    requires forall ds :: ds in names ==> ds in d.jobs
  {
    seq(if names == [] then 0 else |names| - 1, i requires 0 <= i < |names| => RangeFor(d.jobs[names[i]], names[i]))
  }

  ghost predicate NamesOf(d: Disk, names: seq<Index>) {
    SortedIndices(names) && forall ds :: ds in names <==> ds in d.jobs
  }

  /** How many statuses at the front of a sorted batch lie in a range. */
  function Cut(q: seq<Status>, max: JobID): (n: nat)
    ensures n <= |q|
  {
    if q == [] || q[0].jobID > max then 0 else 1 + Cut(q[1..], max)
  }

  lemma {:induction false} CutTells(q: seq<Status>, max: JobID)
    ensures Cut(q, max) < |q| ==> q[Cut(q, max)].jobID > max
    ensures forall i :: 0 <= i < Cut(q, max) ==> q[i].jobID <= max
  {
    if q != [] && q[0].jobID <= max {
      CutTells(q[1..], max);
      forall i | 0 <= i < Cut(q, max) ensures q[i].jobID <= max {
        if i > 0 {
          assert q[i] == q[1..][i - 1];
        }
      }
    }
  }

  /** The dataset an update has come to. */
  ghost function Target(s: World, k: nat): Index
    requires s.mem != []
  {
    if k < |s.ranges| then s.ranges[k].ds else Last(s.mem)
  }

  /** How much of the batch goes there: what lies in its range, or all that is left. */
  ghost function Share(s: World, todo: seq<Status>, k: nat): (n: nat)
    ensures n <= |todo|
  {
    if k < |s.ranges| then Cut(todo, s.ranges[k].maxJobID) else |todo|
  }

  /** The jobs in the datasets of a list that match a query. */
  ghost function Matching(d: Disk, list: seq<Index>, f: Filter, customVals: seq<string>): set<JobID> {
    set ds, id | ds in list && ds in d.jobs && ds in d.statuses && id in Selected(Pair(d, ds), f, customVals) :: id
  }

  /** All rows of the datasets of a list: each job with its latest status. */
  ghost function RowsOn(d: Disk, list: seq<Index>): set<JobT> {
    set ds, id | ds in list && ds in d.jobs && ds in d.statuses && id in d.jobs[ds].rows ::
      JobT(id, RowOf(Pair(d, ds), id))
  }

  /** What has matched throughout and what has been there, after a change of the disk. */
  ghost function Watched(w: Work, d: Disk, list: seq<Index>): Work {
    if w.Reading? then
      w.(steady := w.steady * Matching(d, list, w.f, w.customVals), seen := w.seen + RowsOn(d, list))
    else w
  }

  ghost function WatchedAll(work: seq<Work>, d: Disk, list: seq<Index>): seq<Work> {
    seq(|work|, i requires 0 <= i < |work| => Watched(work[i], d, list))
  }

  /** UpdateJobStatus has nothing left to write, or the reading loop has come to its end. */
  ghost predicate Finished(w: Work, mem: seq<Index>) {
    match w
    case NoWork => true
    case Updating(todo, _) => todo == []
    case Reading(_, _, count, k, out, _, _) => |out| == count || k >= |mem|
  }

  /** What the callers of UpdateJobStatus see to: the jobs exist and are not done, each is named once, and nobody else
      is updating one of them. */
  ghost predicate MayUpdate(s: World, q: seq<Status>) {
    && DistinctJobs(q)
    && (forall x :: x in q ==> x.state != NP && x.jobID in s.sys.rows && IsLive(s.sys.rows[x.jobID]))
    && forall j :: 0 <= j < |s.work| && s.work[j].Updating? ==> forall x, y :: x in q && y in s.work[j].todo ==>
      x.jobID != y.jobID
  }

  // ---------- steps ----------

  datatype Action =
    | Lock(i: nat)                                  // the next lock operation of a thread
    | StartRound
    | Skip                                          // the round leaves out a part that needs the list lock
    | Decide(plan: Plan)
    | Begin                                         // what was decided begins
    | Statement(ids: seq<JobID>)                    // the next statement of the check loop
    | Refresh(names: seq<Index>)                    // getDSList(true) and getDSRangeList(true)
    | StartClient(i: nat, storer: bool)
    | StoreJob(i: nat, job: Job, burnt: nat)
    | BeginUpdate(i: nat, q: seq<Status>)
    | WriteSlice(i: nat)                            // the next updateJobStatusDS of an update
    | BeginRead(i: nat, f: Filter, customVals: seq<string>, count: nat)
    | ReadDS(i: nat)                                // the next query of a read
    | Other(step: Step)                             // the backup loop, a crash, recovery, the restart

  ghost predicate Client(s: World, i: nat) {
    Up(s.sys.point) && 1 <= i < |s.threads| && |s.work| == |s.threads|
  }

  /** The check loop has done what it does before its next lock operation. */
  ghost predicate PartDone(s: World)
    requires s.threads != []
  {
    var p := s.sys.point;
    match Left(s)
    case 8 => s.plan == Extend
    case 7 => s.plan == NoPlan && p == Idle
    case 5 => s.plan.Move? && s.plan.live
    case 4 => s.plan == NoPlan && p.Added?
    case 3 => p.Posting?
    case 2 => p.Posting? && p.script == [] && s.mem == s.sys.list
    case 1 => p == Idle
    case _ => true
  }

  /** A round without a full dataset goes from 8 to 6, one without live jobs from 5 to 3, one without migration from 5
      over 3 to 1. */
  ghost predicate MaySkip(s: World)
    requires s.threads != []
  {
    && !s.threads[0].waiting
    && match Left(s)
       case 8 => s.plan == NoPlan
       case 5 => s.plan == NoPlan || (s.plan.Move? && !s.plan.live)
       case 3 => s.plan == NoPlan && s.sys.point == Idle
       case _ => false
  }

  ghost predicate MayDecide(s: World, plan: Plan, toBackup: bool)
    requires s.threads != []
  {
    && s.plan == NoPlan && !s.threads[0].waiting
    && match plan
       case NoPlan => false
       case Extend => Left(s) == 8 && Enabled(s.sys, BeginAppend, toBackup)
       case Move(m, live) => Left(s) == 5 && Enabled(s.sys, BeginMigrate(m, live), toBackup)
  }

  ghost predicate MayBegin(s: World, toBackup: bool)
    requires s.threads != []
  {
    match s.plan
    case NoPlan => false
    case Extend => Left(s) == 7 && Enabled(s.sys, BeginAppend, toBackup)
    case Move(m, live) => Left(s) == (if live then 4 else 3) && Enabled(s.sys, BeginMigrate(m, live), toBackup)
  }

  /** Where in the round a statement belongs. */
  ghost predicate InPlace(s: World)
    requires s.threads != []
  {
    var p := s.sys.point;
    match Left(s)
    case 7 => p.Adding? && (p.stage == 3 ==> s.mem == s.sys.list + [p.x])
    case 4 => p.Adding?
    case 3 => p.Added? || p.Copying? || p.Copied?
    case 2 => p.Posting? && p.script != []
    case 1 => p.Posting?
    case _ => false
  }

  /** addNewDS reads the list when it begins and, when it appends, before it sets the sequence; postMigrateHandleDS
      does when the sources are gone. */
  ghost predicate MayRefresh(s: World)
    requires s.threads != []
  {
    var p := s.sys.point;
    match Left(s)
    case 7 => p.Adding? && (p.stage == 0 || (p.stage == 3 && s.mem == s.sys.list))
    case 4 => p.Adding? && p.stage == 0
    case 2 => p.Posting? && p.script == []
    case _ => false
  }

  ghost predicate Allowed(s: World, a: Action, toBackup: bool) {
    && s.threads != []
    && match a
       case Lock(i) =>
         && Up(s.sys.point) && L.Enabled(s.threads, i) && |s.work| == |s.threads|
         && if i == 0 then PartDone(s) else Finished(s.work[i], s.mem)
       case StartRound => Up(s.sys.point) && Left(s) == 0
       case Skip => Up(s.sys.point) && MaySkip(s)
       case Decide(plan) => Up(s.sys.point) && MayDecide(s, plan, toBackup)
       case Begin => Up(s.sys.point) && MayBegin(s, toBackup)
       case Statement(ids) => InPlace(s) && Enabled(s.sys, Main(ids), toBackup)
       case Refresh(names) => Up(s.sys.point) && MayRefresh(s) && NamesOf(s.sys.disk, names)
       case StartClient(i, _) => Client(s, i) && s.threads[i].rest == []
       case StoreJob(i, _, _) => Client(s, i) && s.threads[i].list == L.Read && s.mem != []
         && Last(s.mem) in s.sys.disk.jobs
       case BeginUpdate(i, q) => Client(s, i) && Both(s.threads[i]) && s.work[i] == NoWork && MayUpdate(s, q)
       case WriteSlice(i) =>
         && Client(s, i) && Both(s.threads[i]) && s.work[i].Updating? && s.work[i].todo != [] && s.mem != []
         && Target(s, s.work[i].k) in s.sys.disk.statuses
       case BeginRead(i, _, _, _) => Client(s, i) && Both(s.threads[i]) && s.work[i] == NoWork
       case ReadDS(i) =>
         && Client(s, i) && Both(s.threads[i]) && s.work[i].Reading? && !Finished(s.work[i], s.mem)
         && var ds := s.mem[s.work[i].k]; ds in s.sys.disk.jobs && ds in s.sys.disk.statuses
       case Other(step) =>
         && (step.BeginBackup? || step.Backup? || step.Crash? || step.Recover? || step.Restart?)
         && Enabled(s.sys, step, toBackup)
  }

  /** An id larger than all there are, to order query results by. */
  ghost function Bound(d: Disk, mem: seq<Index>): JobID {
    if mem != [] && Last(mem) in d.jobs && d.jobs[Last(mem)].next >= 1 then d.jobs[Last(mem)].next else 1
  }

  /** A query asks for what is still missing. */
  ghost function Answer(d: Disk, mem: seq<Index>, w: Work): seq<JobT>
    requires w.Reading? && !Finished(w, mem) && mem[w.k] in d.jobs && mem[w.k] in d.statuses
  {
    QueryDS(Pair(d, mem[w.k]), w.f, w.customVals, if |w.out| < w.count then w.count - |w.out| else 0, Bound(d, mem))
  }

  function Planned(plan: Plan): Step
    requires plan != NoPlan
  {
    match plan
    case Extend => BeginAppend
    case Move(m, live) => BeginMigrate(m, live)
  }

  ghost function Next(s: World, a: Action, toBackup: bool): World
    requires Allowed(s, a, toBackup)
  {
    var d := s.sys.disk;
    match a
    case Lock(i) => s.(threads := L.Do(s.threads, i), work := s.work[i := NoWork])
    case StartRound => s.(threads := s.threads[0 := s.threads[0].(rest := L.Round(true, true, true))])
    case Skip => s.(threads := s.threads[0 := s.threads[0].(rest := s.threads[0].rest[2..])])
    case Decide(plan) => s.(plan := plan)
    case Begin => s.(sys := Do(s.sys, Planned(s.plan), toBackup), plan := NoPlan)
    case Statement(ids) => s.(sys := Do(s.sys, Main(ids), toBackup))
    case Refresh(names) => s.(mem := names, ranges := ReadRanges(d, names))
    case StartClient(i, storer) =>
      s.(threads := s.threads[i := s.threads[i].(rest := if storer then L.STORER else L.READER)])
    case StoreJob(i, job, burnt) =>
      var sys' := StoreIn(s.sys, Last(s.mem), job, burnt);
      s.(sys := sys', work := WatchedAll(s.work, sys'.disk, s.mem))
    case BeginUpdate(i, q) => s.(work := s.work[i := Updating(Sort(q), 0)])
    case WriteSlice(i) =>
      var w := s.work[i];
      var n := Share(s, w.todo, w.k);
      var sys' := WriteTo(s.sys, Target(s, w.k), w.todo[..n]);
      s.(sys := sys', work := WatchedAll(s.work[i := Updating(w.todo[n..], w.k + 1)], sys'.disk, s.mem))
    case BeginRead(i, f, customVals, count) =>
      s.(work := s.work[i := Reading(f, customVals, count, 0, [], Matching(d, s.mem, f, customVals),
          RowsOn(d, s.mem))])
    case ReadDS(i) =>
      var w := s.work[i];
      s.(work := s.work[i := w.(k := w.k + 1, out := w.out + Answer(d, s.mem, w))])
    case Other(step) =>
      var sys' := Do(s.sys, step, toBackup);
      match step
      case Crash => World(sys', s.mem, s.ranges, seq(|s.threads|, _ => AT_REST), seq(|s.work|, _ => NoWork), NoPlan)
      case Restart(names) => if sys'.point == Idle then s.(sys := sys', mem := names,
          ranges := ReadRanges(d, names)) else s.(sys := sys')
      case _ => s.(sys := sys')
  }
}
