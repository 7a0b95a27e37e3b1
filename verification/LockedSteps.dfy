/** Every action of the store with its locks keeps what holds of it, and is a step of the store without them. */
module LockedSteps {
  import opened Common
  import opened Tables
  import opened Layout
  import opened Batches
  import opened Compaction
  import opened Journal
  import opened JournalInvariant
  import opened JournalClients
  import opened LockedStore
  import opened LockedInvariant
  import opened LockedClients
  import L = Locks

  // ---------- lock operations ----------

  /** A lock operation of one thread: an announcement, or one step of its program. */
  function Moved(t: L.Thread): L.Thread
    requires t.rest != []
  {
    match t.rest[0]
    case Release(l) => L.SetHeld(t, l, L.No).(rest := t.rest[1..])
    case Acquire(l, m) =>
      if m != L.Read && !t.waiting then t.(waiting := true)
      else L.SetHeld(t, l, m).(rest := t.rest[1..], waiting := false)
  }

  lemma DoMoves(threads: seq<L.Thread>, i: nat)
    requires L.Enabled(threads, i)
    ensures threads[i].rest != [] && L.Do(threads, i) == threads[i := Moved(threads[i])]
  {
  }

  lemma MainMoves(t: L.Thread)
    requires MainThread(t) && L.ThreadOK(t) && t.rest != []
    ensures MainThread(Moved(t))
    ensures if |t.rest| in {8, 6, 5, 3} && !t.waiting then |Moved(t).rest| == |t.rest| && Moved(t).waiting
            else |Moved(t).rest| == |t.rest| - 1 && !Moved(t).waiting
  {
    hide L.Ordered, ROUND;
    MainOp(t);
    MainRest(t);
  }

  lemma ControlMoves(s: World, t: L.Thread)
    requires s.threads != [] && ControlOK(s) && PartDone(s) && s.threads[0].rest != [] && Left(s) <= 10
    requires if Left(s) in {8, 6, 5, 3} && !s.threads[0].waiting then |t.rest| == Left(s) && t.waiting
             else |t.rest| == Left(s) - 1 && !t.waiting
    ensures ControlOK(s.(threads := s.threads[0 := t]))
  {
    hide Retire;
  }

  lemma MainLock(s: World)
    requires s.threads != [] && MainThread(s.threads[0]) && ControlOK(s) && PartDone(s)
    requires L.Enabled(s.threads, 0) && L.ThreadOK(s.threads[0])
    ensures var t := s.(threads := L.Do(s.threads, 0)); MainThread(t.threads[0]) && ControlOK(t)
  {
    hide L.ThreadOK, L.Enabled, L.Do, ControlOK, PartDone, Moved;
    DoMoves(s.threads, 0);
    MainMoves(s.threads[0]);
    AtMostTen(s.threads[0]);
    ControlMoves(s, Moved(s.threads[0]));
  }

  lemma AtMostTen(t: L.Thread)
    requires MainThread(t)
    ensures |t.rest| <= 10
  {
  }

  /** The next lock operation of the check loop. */
  lemma MainOp(t: L.Thread)
    requires MainThread(t) && t.rest != []
    ensures t.rest[0] == match |t.rest|
      case 10 => L.Acquire(L.ListLock, L.Read)
      case 8 => L.Acquire(L.ListLock, L.Write)
      case 6 => L.Acquire(L.MigrationLock, L.Write)
      case 5 => L.Acquire(L.ListLock, L.Write)
      case 3 => L.Acquire(L.ListLock, L.Write)
      case 1 => L.Release(L.MigrationLock)
      case _ => L.Release(L.ListLock)
  {
  }

  lemma MainRest(t: L.Thread)
    requires MainThread(t) && t.rest != []
    ensures t.rest[1..] == ROUND[11 - |t.rest|..]
    ensures |t.rest| >= 2 ==> t.rest[2..] == ROUND[12 - |t.rest|..]
  {
  }

  /** A thread's program may be set anew as long as it keeps the order of the locks. */
  lemma Reprogrammed(threads: seq<L.Thread>, i: nat, rest: seq<L.Op>)
    requires L.Inv(threads) && i < |threads| && !threads[i].waiting
    requires L.Ordered(rest, threads[i].migration, threads[i].list)
    ensures L.Inv(threads[i := threads[i].(rest := rest)])
  {
    hide L.Ordered;
  }

  lemma LockKeeps(s: World, i: nat, toBackup: bool)
    requires Allowed(s, Lock(i), toBackup) && Safe(s, toBackup)
    ensures Safe(Next(s, Lock(i), toBackup), toBackup)
  {
    hide Inv, L.Enabled, L.Do, L.Inv, PlanOK, MemOK, MainThread, ControlOK, PartDone, WorkOK;
    var s' := Next(s, Lock(i), toBackup);
    L.StepKeeps(s.threads, i);
    LockOne(s.threads, i);
    if i == 0 {
      MainOK(s);
      MainLock(s);
      SameControl(s.(threads := s'.threads), s');
    } else {
      SameControl(s, s');
    }
    assert PlanOK(s', toBackup) && MemOK(s') by { SameLists(s, s', toBackup); }
    LockClients(s, s', i);
  }

  lemma LockOne(threads: seq<L.Thread>, i: nat)
    requires L.Enabled(threads, i)
    ensures i < |threads| && |L.Do(threads, i)| == |threads|
    ensures forall j :: 0 <= j < |threads| && j != i ==> L.Do(threads, i)[j] == threads[j]
  {
  }

  lemma MainOK(s: World)
    requires s.threads != [] && L.Inv(s.threads)
    ensures L.ThreadOK(s.threads[0])
  {
  }

  lemma SameControl(s: World, s': World)
    requires s.threads != [] && s'.threads != [] && s'.threads[0] == s.threads[0] && s'.sys == s.sys && s'.mem == s.mem
    requires s'.plan == s.plan
    ensures ControlOK(s') == ControlOK(s)
  {
    hide Retire;
  }

  lemma SameLists(s: World, s': World, toBackup: bool)
    requires s'.sys == s.sys && s'.mem == s.mem && s'.ranges == s.ranges && s'.plan == s.plan
    ensures PlanOK(s', toBackup) == PlanOK(s, toBackup) && MemOK(s') == MemOK(s)
  {
    hide RangesOK;
  }

  lemma LockClients(s: World, s': World, i: nat)
    requires |s.work| == |s.threads| == |s'.threads| && i < |s.work| && ClientsOK(s)
    requires s'.work == s.work[i := NoWork] && s'.sys == s.sys && s'.mem == s.mem
    requires forall j :: 0 <= j < |s.threads| && j != i ==> s'.threads[j] == s.threads[j]
    ensures ClientsOK(s')
  {
    hide TodoOK, ReadOK;
  }

  // ---------- the course of a round ----------

  lemma StartRoundKeeps(s: World, toBackup: bool)
    requires Allowed(s, StartRound, toBackup) && Safe(s, toBackup)
    ensures Safe(Next(s, StartRound, toBackup), toBackup)
  {
    hide Inv, L.Inv, PlanOK, MemOK, ClientsOK, L.Ordered;
    var s' := Next(s, StartRound, toBackup);
    MainOK(s);
    L.RoundOrdered(true, true, true);
    WholeRound();
    Reprogrammed(s.threads, 0, L.Round(true, true, true));
    SameLists(s, s', toBackup);
    SameClients(s, s', 0);
  }

  lemma SameClients(s: World, s': World, i: nat)
    requires |s.work| == |s.threads| == |s'.threads| && i < |s.work| && ClientsOK(s) && s.work[i] == NoWork
    requires s'.work == s.work && s'.sys == s.sys && s'.mem == s.mem
    requires forall j :: 0 <= j < |s.threads| && j != i ==> s'.threads[j] == s.threads[j]
    ensures ClientsOK(s')
  {
    hide WorkOK, NoneShared;
  }

  lemma SkipKeeps(s: World, toBackup: bool)
    requires Allowed(s, Skip, toBackup) && Safe(s, toBackup)
    ensures Safe(Next(s, Skip, toBackup), toBackup)
  {
    hide Inv, L.Inv, PlanOK, MemOK, ClientsOK, L.Ordered, MainThread, ControlOK;
    var s' := Next(s, Skip, toBackup);
    MainOK(s);
    Skipped(s);
    Reprogrammed(s.threads, 0, s.threads[0].rest[2..]);
    SameLists(s, s', toBackup);
    SameClients(s, s', 0);
  }

  lemma PairAhead(t: L.Thread)
    requires MainThread(t) && |t.rest| in {8, 5, 3} && L.Ordered(t.rest, t.migration, t.list)
    ensures MainThread(t.(rest := t.rest[2..])) && L.Ordered(t.rest[2..], t.migration, t.list)
  {
    MainOp(t);
    var r := t.rest[1..];
    assert r[0] == ROUND[11 - |t.rest|] == L.Release(L.ListLock);
    assert L.Ordered(r, t.migration, L.Write);
    assert r[1..] == t.rest[2..];
  }

  lemma Skipped(s: World)
    requires s.threads != [] && MainThread(s.threads[0]) && ControlOK(s) && MaySkip(s) && L.ThreadOK(s.threads[0])
    ensures var t := s.threads[0];
      && MainThread(t.(rest := t.rest[2..])) && L.Ordered(t.rest[2..], t.migration, t.list)
      && ControlOK(s.(threads := s.threads[0 := t.(rest := t.rest[2..])]))
  {
    hide Retire, MainThread, L.Ordered;
    PairAhead(s.threads[0]);
  }

  lemma DecideKeeps(s: World, plan: Plan, toBackup: bool)
    requires Allowed(s, Decide(plan), toBackup) && Safe(s, toBackup)
    ensures Safe(Next(s, Decide(plan), toBackup), toBackup)
  {
    hide Inv, L.Inv, MemOK, ClientsOK, Enabled, Retire;
    var s' := Next(s, Decide(plan), toBackup);
    SameMem(s, s');
    SameClients(s, s', 0);
  }

  lemma SameMem(s: World, s': World)
    requires s'.sys == s.sys && s'.mem == s.mem && s'.ranges == s.ranges
    ensures MemOK(s') == MemOK(s)
  {
    hide RangesOK;
  }

  lemma StartClientKeeps(s: World, i: nat, storer: bool, toBackup: bool)
    requires Allowed(s, StartClient(i, storer), toBackup) && Safe(s, toBackup)
    ensures Safe(Next(s, StartClient(i, storer), toBackup), toBackup)
  {
    hide Inv, L.Inv, PlanOK, MemOK, ControlOK, WorkOK, NoneShared, L.Ordered;
    var s' := Next(s, StartClient(i, storer), toBackup);
    Resting(s.threads, i);
    L.ReaderOrdered();
    L.StorerOrdered();
    Reprogrammed(s.threads, i, if storer then L.STORER else L.READER);
    SameControl(s, s');
    SameLists(s, s', toBackup);
    assert ClientsOK(s');
  }

  lemma Resting(threads: seq<L.Thread>, i: nat)
    requires L.Inv(threads) && i < |threads| && threads[i].rest == []
    ensures threads[i] == AT_REST
  {
    assert L.ThreadOK(threads[i]);
  }

  // ---------- clients ----------

  /** Only the work of one client has changed. */
  lemma OneWorks(s: World, i: nat, w: Work, toBackup: bool)
    requires Safe(s, toBackup) && Up(s.sys.point) && 1 <= i < |s.work| && Both(s.threads[i])
    requires WorkOK(s.sys.disk, s.mem, s.sys.rows, w)
    requires forall j :: 0 <= j < |s.work| && j != i ==> NoneShared(w, s.work[j]) && NoneShared(s.work[j], w)
    ensures Safe(s.(work := s.work[i := w]), toBackup)
  {
    hide Inv, L.Inv, PlanOK, MemOK, ControlOK, MainThread, WorkOK, NoneShared;
    var s' := s.(work := s.work[i := w]);
    SameControl(s, s');
    SameLists(s, s', toBackup);
    assert ClientsOK(s');
  }

  lemma BeginUpdateKeeps(s: World, i: nat, q: seq<Status>, toBackup: bool)
    requires Allowed(s, BeginUpdate(i, q), toBackup) && Safe(s, toBackup)
    ensures Safe(Next(s, BeginUpdate(i, q), toBackup), toBackup)
  {
    hide Inv, L.Inv, ThreadsOK, RoundOK, CoreOK, LiveSame, In;
    BothLocksMean(s, i, toBackup);
    ListThere(s.sys, toBackup);
    LiveThere(s.sys, toBackup);
    SortSorts(q);
    forall t | t in Sort(q) ensures LiesFrom(s.sys.disk, s.mem, 0, t.jobID) {
      var j := LiveSomewhere(s.sys.disk, s.mem, s.sys.rows, t.jobID);
      InAt(s.sys.disk, s.mem, j, t.jobID);
    }
    assert WorkOK(s.sys.disk, s.mem, s.sys.rows, Updating(Sort(q), 0));
    OneWorks(s, i, Updating(Sort(q), 0), toBackup);
  }

  lemma InAt(d: Disk, list: seq<Index>, j: int, id: JobID)
    requires In(d, list, j, id)
    ensures j >= 0
  {
  }

  lemma LiveThere(s: System, toBackup: bool)
    requires Inv(s, toBackup)
    ensures LiveSame(s.disk, s.list, s.rows) && RowsBelow(s.disk, s.list, s.rows)
  {
  }

  lemma BeginReadKeeps(s: World, i: nat, f: Filter, customVals: seq<string>, count: nat, toBackup: bool)
    requires Allowed(s, BeginRead(i, f, customVals, count), toBackup) && Safe(s, toBackup)
    ensures Safe(Next(s, BeginRead(i, f, customVals, count), toBackup), toBackup)
  {
    hide Inv, L.Inv, ThreadsOK, RoundOK, ClientsOK, Matching;
    OneWorks(s, i, Reading(f, customVals, count, 0, [], Matching(s.sys.disk, s.mem, f, customVals),
        RowsOn(s.sys.disk, s.mem)), toBackup);
  }

  lemma ReadDSKeeps(s: World, i: nat, toBackup: bool)
    requires Allowed(s, ReadDS(i), toBackup) && Safe(s, toBackup)
    ensures Safe(Next(s, ReadDS(i), toBackup), toBackup)
  {
    hide Inv, L.Inv, ThreadsOK, RoundOK, CoreOK, ReadOK, RangesOK, Answer;
    BothLocksMean(s, i, toBackup);
    ListThere(s.sys, toBackup);
    var w := s.work[i];
    assert WorkOK(s.sys.disk, s.mem, s.sys.rows, w);
    QueryFits(s.sys.disk, s.mem, w);
    OneWorks(s, i, w.(k := w.k + 1, out := w.out + Answer(s.sys.disk, s.mem, w)), toBackup);
  }

  /** The tables of all listed datasets but the last have the same jobs. */
  ghost predicate SameJobs(d: Disk, d': Disk, list: seq<Index>) {
    && AllThere(d, list) && AllThere(d', list)
    && forall i :: 0 <= i < |list| - 1 ==> d'.jobs[list[i]].rows == d.jobs[list[i]].rows
  }

  lemma RangesStay(d: Disk, d': Disk, list: seq<Index>, ranges: seq<Range>)
    requires RangesOK(d, list, ranges) && SameJobs(d, d', list)
    ensures RangesOK(d', list, ranges)
  {
    forall i | 0 <= i < |ranges| ensures RangeOf(ranges[i], list[i], Core(d', list)[list[i]]) {
      assert RangeOf(ranges[i], list[i], Core(d, list)[list[i]]);
    }
  }

  lemma MemStays(s: World, s': World)
    requires MemOK(s) && s'.sys.list == s.sys.list && s'.sys.point == s.sys.point && s'.mem == s.mem
    requires s'.ranges == s.ranges
    requires !s.sys.point.Adding? && SameJobs(s.sys.disk, s'.sys.disk, s.sys.list)
    ensures MemOK(s')
  {
    hide RangesOK;
    if s.mem == s.sys.list && RangesOK(s.sys.disk, s.sys.list, s.ranges) {
      RangesStay(s.sys.disk, s'.sys.disk, s.sys.list, s.ranges);
    }
  }

  lemma StoreAllowed(s: World, i: nat, job: Job, burnt: nat, toBackup: bool)
    requires Allowed(s, StoreJob(i, job, burnt), toBackup) && Safe(s, toBackup)
    ensures s.mem != [] && s.sys.list != [] && Last(s.mem) == Last(s.sys.list) && Last(s.mem) in s.sys.disk.jobs
    ensures Enabled(s.sys, Store(job, burnt), toBackup)
    ensures Do(s.sys, Store(job, burnt), toBackup) == Next(s, StoreJob(i, job, burnt), toBackup).sys
  {
    hide Inv, ThreadsOK, RoundOK, ClientsOK, CoreOK, WatchedAll, StoreIn;
    ListLockMeans(s, i, toBackup);
    ListThere(s.sys, toBackup);
  }

  /** What a Store changes in the listed datasets. */
  lemma StoredInto(s: System, job: Job, burnt: nat, toBackup: bool)
    requires Inv(s, toBackup) && Enabled(s, Store(job, burnt), toBackup)
    ensures var d, d' := s.disk, Do(s, Store(job, burnt), toBackup).disk;
      && AllThere(d', s.list) && SameJobs(d, d', s.list) && Grown(d, d', s.list)
      && (forall m :: 0 <= m < |s.list| ==>
          (SomeLive(Core(d', s.list), s.list, m) <==> SomeLive(Core(d, s.list), s.list, m)))
  {
    hide Inv, CoreOK, LiveSame, RowsBelow, SomeLive, Gathered, Core, WellFormed, Spread;
    var d, list, s' := s.disk, s.list, Do(s, Store(job, burnt), toBackup);
    ListThere(s, toBackup);
    LiveThere(s, toBackup);
    assert s'.disk == Stored(d, list, job, burnt);
    StoredCore(d, list, s.rows, job, burnt);
    LastUnseen(d, s'.disk, list);
    ListFacts(d, list);
    CoreSpread(d, list);
    StoredJobs(d, list, job, burnt);
  }

  lemma StoredJobs(d: Disk, list: seq<Index>, job: Job, burnt: nat)
    requires AllThere(d, list) && NoRepeats(list)
    requires forall i, id :: In(d, list, i, id) ==> id < d.jobs[Last(list)].next
    ensures SameJobs(d, Stored(d, list, job, burnt), list) && Grown(d, Stored(d, list, job, burnt), list)
  {
  }

  lemma StoreEffect(s: System, job: Job, burnt: nat, toBackup: bool)
    requires Enabled(s, Store(job, burnt), toBackup)
    ensures Up(s.point) && !s.point.Adding?
    ensures var s' := Do(s, Store(job, burnt), toBackup);
      && s'.point == s.point && s'.list == s.list
      && (forall id :: id in s.rows && id < s.disk.jobs[Last(s.list)].next ==>
          id in s'.rows && s'.rows[id] == s.rows[id])
      && (forall ds :: ds in s.disk.jobs ==>
          ds in s'.disk.jobs && (s.disk.jobs[ds].rows != map[] ==> s'.disk.jobs[ds].rows != map[]))
  {
  }

  /** A decision stays right while the jobs and the live datasets are those it was made on. */
  lemma PlanStays(s: System, s': System, plan: Plan, toBackup: bool)
    requires plan != NoPlan && Enabled(s, Planned(plan), toBackup)
    requires s'.point == s.point && s'.list == s.list && AllThere(s'.disk, s.list)
    requires forall ds :: ds in s.disk.jobs ==>
      ds in s'.disk.jobs && (s.disk.jobs[ds].rows != map[] ==> s'.disk.jobs[ds].rows != map[])
    requires plan.Move? ==>
      (SomeLive(Core(s'.disk, s.list), s.list, plan.m) <==> SomeLive(Core(s.disk, s.list), s.list, plan.m))
    ensures Enabled(s', Planned(plan), toBackup)
  {
    hide SomeLive, Core;
  }

  lemma WatchedShape(work: seq<Work>, d: Disk, list: seq<Index>)
    ensures |WatchedAll(work, d, list)| == |work|
    ensures forall i :: 0 <= i < |work| ==> WatchedAll(work, d, list)[i] == Watched(work[i], d, list)
    ensures forall i :: 0 <= i < |work| ==> (WatchedAll(work, d, list)[i] == NoWork <==> work[i] == NoWork)
    ensures forall i :: 0 <= i < |work| && (work[i].Updating? || WatchedAll(work, d, list)[i].Updating?) ==>
      WatchedAll(work, d, list)[i] == work[i]
  {
  }

  lemma ControlStays(s: World, s': World)
    requires s.threads != [] && s'.threads == s.threads && s'.sys.point == s.sys.point && s'.sys.list == s.sys.list
    requires s'.mem == s.mem && s'.plan == s.plan
    ensures ControlOK(s') == ControlOK(s)
  {
    hide Retire;
  }

  /** The clients after a change of the disk that only adds jobs and does not touch what they are updating. */
  lemma ClientsStay(s: World, s': World)
    requires |s.work| == |s.threads| && ClientsOK(s) && s'.threads == s.threads && s'.mem == s.mem
    requires s'.work == WatchedAll(s.work, s'.sys.disk, s.mem)
    requires (exists i :: 0 <= i < |s.work| && s.work[i] != NoWork) ==> Grown(s.sys.disk, s'.sys.disk, s.mem)
    requires forall i, t :: 0 <= i < |s.work| && s.work[i].Updating? && t in s.work[i].todo ==>
      t.jobID in s.sys.rows && t.jobID in s'.sys.rows && s'.sys.rows[t.jobID] == s.sys.rows[t.jobID]
    ensures |s'.work| == |s'.threads| && ClientsOK(s')
  {
    hide WatchedAll, Grown, WorkOK, Watched;
    WatchedShape(s.work, s'.sys.disk, s.mem);
    forall i | 0 <= i < |s.work| ensures WorkOK(s'.sys.disk, s.mem, s'.sys.rows, s'.work[i]) {
      if s.work[i] == NoWork {
        NothingToDo(s'.sys.disk, s.mem, s'.sys.rows);
      } else {
        WorkStays(s.sys.disk, s'.sys.disk, s.mem, s.sys.rows, s'.sys.rows, s.work[i]);
      }
    }
  }

  lemma NothingToDo(d: Disk, mem: seq<Index>, rows: map<JobID, Row>)
    ensures WorkOK(d, mem, rows, NoWork)
  {
  }

  /** A job being updated is in the store, under an id below those to come. */
  lemma TodoBelow(s: World, i: nat, t: Status, toBackup: bool)
    requires Safe(s, toBackup) && Up(s.sys.point) && i < |s.work| && s.work[i].Updating? && t in s.work[i].todo
    ensures t.jobID in s.sys.rows && IsLive(s.sys.rows[t.jobID]) && s.sys.list != []
    ensures Last(s.sys.list) in s.sys.disk.jobs
    ensures t.jobID < s.sys.disk.jobs[Last(s.sys.list)].next
  {
    hide Inv, ThreadsOK, RoundOK, CoreOK, LiveSame, In, NoneShared;
    ListThere(s.sys, toBackup);
    assert WorkOK(s.sys.disk, s.mem, s.sys.rows, s.work[i]);
    LiveThere(s.sys, toBackup);
  }

  lemma StoreJobKeeps(s: World, i: nat, job: Job, burnt: nat, toBackup: bool)
    requires Allowed(s, StoreJob(i, job, burnt), toBackup) && Safe(s, toBackup)
    ensures Safe(Next(s, StoreJob(i, job, burnt), toBackup), toBackup)
  {
    hide Inv, L.Inv, MainThread, ControlOK, MemOK, PlanOK, ClientsOK, SameJobs, Grown, SomeLive, Do, Enabled;
    hide WatchedAll, Core;
    var s' := Next(s, StoreJob(i, job, burnt), toBackup);
    StoreAllowed(s, i, job, burnt, toBackup);
    StoreKeeps(s.sys, job, burnt, toBackup);
    StoredInto(s.sys, job, burnt, toBackup);
    StoreEffect(s.sys, job, burnt, toBackup);
    WatchedShape(s.work, s'.sys.disk, s.mem);
    MemStays(s, s');
    ControlStays(s, s');
    StoredPlan(s, s', toBackup);
    StoredClients(s, s', toBackup);
  }

  lemma StoredPlan(s: World, s': World, toBackup: bool)
    requires PlanOK(s, toBackup) && s'.plan == s.plan && s'.sys.point == s.sys.point && s'.sys.list == s.sys.list
    requires AllThere(s'.sys.disk, s.sys.list)
    requires forall ds :: ds in s.sys.disk.jobs ==>
      ds in s'.sys.disk.jobs && (s.sys.disk.jobs[ds].rows != map[] ==> s'.sys.disk.jobs[ds].rows != map[])
    requires forall m :: 0 <= m < |s.sys.list| ==>
      (SomeLive(Core(s'.sys.disk, s.sys.list), s.sys.list, m) <==>
          SomeLive(Core(s.sys.disk, s.sys.list), s.sys.list, m))
    ensures PlanOK(s', toBackup)
  {
    hide SomeLive, Core;
    if s.plan != NoPlan {
      assert Enabled(s.sys, Planned(s.plan), toBackup);
      PlanStays(s.sys, s'.sys, s.plan, toBackup);
    }
  }

  lemma StoredClients(s: World, s': World, toBackup: bool)
    requires Safe(s, toBackup) && Up(s.sys.point) && s'.threads == s.threads && s'.mem == s.mem
    requires s'.work == WatchedAll(s.work, s'.sys.disk, s.mem) && Grown(s.sys.disk, s'.sys.disk, s.sys.list)
    requires s.sys.list != [] && Last(s.sys.list) in s.sys.disk.jobs
    requires forall id :: id in s.sys.rows && id < s.sys.disk.jobs[Last(s.sys.list)].next ==>
      id in s'.sys.rows && s'.sys.rows[id] == s.sys.rows[id]
    ensures |s'.work| == |s'.threads| && ClientsOK(s')
  {
    hide Inv, L.Inv, RoundOK, Grown, WorkOK, NoneShared, WatchedAll;
    if w :| 0 <= w < |s.work| && s.work[w] != NoWork {
      BothLocksMean(s, w, toBackup);
    }
    forall k, t | 0 <= k < |s.work| && s.work[k].Updating? && t in s.work[k].todo
      ensures t.jobID in s.sys.rows && t.jobID in s'.sys.rows && s'.sys.rows[t.jobID] == s.sys.rows[t.jobID]
    {
      TodoBelow(s, k, t, toBackup);
    }
    ClientsStay(s, s');
  }

  // ---------- a slice of an update ----------

  lemma SliceReady(s: World, w: Work, toBackup: bool)
    requires s.sys.point == Idle && s.mem == s.sys.list && CoreOK(s.sys.disk, s.mem)
    requires RangesOK(s.sys.disk, s.mem, s.ranges)
    requires w.Updating? && w.todo != [] && TodoOK(s.sys.disk, s.mem, s.sys.rows, w.todo, w.k)
    ensures Enabled(s.sys, Update(Target(s, w.k), w.todo[..Share(s, w.todo, w.k)]), toBackup)
  {
    hide CoreOK, RangesOK, Share, Target, LiesFrom, AllThere;
    SliceFits(s, w.todo, w.k);
    var ds, q := Target(s, w.k), w.todo[..Share(s, w.todo, w.k)];
    TablesThere(s.sys.disk, s.mem, w.k);
    forall k | 0 <= k < |q|
      ensures q[k].jobID in s.sys.disk.jobs[ds].rows && q[k].state != NP && q[k].jobID in s.sys.rows
      ensures IsLive(s.sys.rows[q[k].jobID])
    {
      assert q[k] == w.todo[k] && w.todo[k] in w.todo;
      assert In(s.sys.disk, s.mem, w.k, w.todo[k].jobID);
    }
  }

  lemma TablesThere(d: Disk, list: seq<Index>, k: nat)
    requires CoreOK(d, list) && k < |list|
    ensures list[k] in list && list[k] in d.jobs && list[k] in d.statuses
  {
  }

  /** The work of a client, and what it writes next. */
  ghost predicate NextSlice(s: World, i: nat, w: Work, ds: Index, q: seq<Status>) {
    && i < |s.work| && s.work[i] == w && w.Updating? && s.mem != []
    && ds == Target(s, w.k) && q == w.todo[..Share(s, w.todo, w.k)]
  }

  /** The slice belongs to one listed dataset, and its jobs are there and not done. */
  lemma SliceAllowed(s: World, i: nat, w: Work, ds: Index, q: seq<Status>, toBackup: bool)
    requires Allowed(s, WriteSlice(i), toBackup) && NextSlice(s, i, w, ds, q) && Safe(s, toBackup)
    ensures Enabled(s.sys, Update(ds, q), toBackup)
  {
    hide Inv, L.Inv, RoundOK, CoreOK, RangesOK, NoneShared, Share, Target, TodoOK, Enabled;
    BothLocksMean(s, i, toBackup);
    ListThere(s.sys, toBackup);
    assert WorkOK(s.sys.disk, s.mem, s.sys.rows, s.work[i]);
    SliceReady(s, w, toBackup);
  }

  lemma SliceIs(s: World, i: nat, w: Work, ds: Index, q: seq<Status>, toBackup: bool)
    requires Allowed(s, WriteSlice(i), toBackup) && NextSlice(s, i, w, ds, q) && Enabled(s.sys, Update(ds, q), toBackup)
    ensures Do(s.sys, Update(ds, q), toBackup) == Next(s, WriteSlice(i), toBackup).sys
  {
    hide WatchedAll, WriteTo, Share, Target, Enabled, Core;
  }

  lemma WriteEffect(s: System, ds: Index, q: seq<Status>)
    requires ds in s.disk.statuses && AllThere(s.disk, s.list)
    ensures var s' := WriteTo(s, ds, q);
      && s'.point == s.point && s'.list == s.list && s'.disk.jobs == s.disk.jobs
      && AllThere(s'.disk, s.list) && SameJobs(s.disk, s'.disk, s.list) && Grown(s.disk, s'.disk, s.list)
      && (forall id :: id in s.rows && (forall t :: t in q ==> t.jobID != id) ==>
          id in s'.rows && s'.rows[id] == s.rows[id])
  {
    forall id | id in s.rows && (forall t :: t in q ==> t.jobID != id) ensures Latest(q, id) == None {
      LatestFrom(q, id);
    }
  }

  lemma SlicePlan(s: World, s': World, toBackup: bool)
    requires PlanOK(s, toBackup) && !s.plan.Move? && s'.plan == s.plan && s'.sys.point == s.sys.point
    requires s'.sys.list == s.sys.list
    requires AllThere(s'.sys.disk, s.sys.list) && s'.sys.disk.jobs == s.sys.disk.jobs
    ensures PlanOK(s', toBackup)
  {
    if s.plan != NoPlan {
      PlanStays(s.sys, s'.sys, s.plan, toBackup);
    }
  }

  lemma TailIn(todo: seq<Status>, n: nat)
    requires n <= |todo|
    ensures forall t :: t in todo[n..] || t in todo[..n] ==> t in todo
  {
  }

  lemma RestWritten(s: World, todo: seq<Status>, k: nat)
    requires s.mem == s.sys.list && s.mem != [] && Target(s, k) in s.sys.disk.statuses && todo != []
    requires CoreOK(s.sys.disk, s.mem) && RangesOK(s.sys.disk, s.mem, s.ranges)
    requires TodoOK(s.sys.disk, s.mem, s.sys.rows, todo, k)
    ensures var n := Share(s, todo, k);
      var sys' := WriteTo(s.sys, Target(s, k), todo[..n]);
      TodoOK(sys'.disk, s.mem, sys'.rows, todo[n..], k + 1)
  {
    hide Grown, Share, Target, RangesOK, Applied, SameJobs, LiesFrom, WellFormed, Core;
    var n := Share(s, todo, k);
    var sys' := WriteTo(s.sys, Target(s, k), todo[..n]);
    WriteEffect(s.sys, Target(s, k), todo[..n]);
    RestFits(s, todo, k);
    TodoStays(s.sys.disk, sys'.disk, s.mem, Applied(s.sys.rows, todo[..n]), sys'.rows, todo[n..], k + 1);
  }

  lemma SliceRest(s: World, s': World, i: nat, w: Work, toBackup: bool)
    requires Allowed(s, WriteSlice(i), toBackup) && s' == Next(s, WriteSlice(i), toBackup)
    requires i < |s.work| && s.work[i] == w && w.Updating? && Safe(s, toBackup)
    ensures TodoOK(s'.sys.disk, s.mem, s'.sys.rows, w.todo[Share(s, w.todo, w.k)..], w.k + 1)
  {
    hide Inv, ThreadsOK, RoundOK, TodoOK, WatchedAll, Share, Target, CoreOK, RangesOK, WriteTo, NoneShared;
    BothLocksMean(s, i, toBackup);
    ListThere(s.sys, toBackup);
    assert WorkOK(s.sys.disk, s.mem, s.sys.rows, w);
    RestWritten(s, w.todo, w.k);
  }

  lemma SliceOthers(s: World, s': World, i: nat, j: nat, toBackup: bool)
    requires Allowed(s, WriteSlice(i), toBackup) && s' == Next(s, WriteSlice(i), toBackup)
    requires i < |s.work| && j < |s.work| && j != i && Safe(s, toBackup)
    ensures WorkOK(s'.sys.disk, s.mem, s'.sys.rows, Watched(s.work[j], s'.sys.disk, s.mem))
  {
    hide Inv, L.Inv, RoundOK, Grown, WorkOK, WatchedAll, Share, Target, CoreOK, RangesOK, Applied, SameJobs, WriteTo;
    hide Watched;
    var w := s.work[i];
    var q := w.todo[..Share(s, w.todo, w.k)];
    BothLocksMean(s, i, toBackup);
    ListThere(s.sys, toBackup);
    WriteEffect(s.sys, Target(s, w.k), q);
    if s.work[j].Updating? {
      assert NoneShared(s.work[if i < j then i else j], s.work[if i < j then j else i]);
      forall t | t in s.work[j].todo ensures t.jobID in s.sys.rows && forall x :: x in q ==> x.jobID != t.jobID {
        TodoBelow(s, j, t, toBackup);
        TailIn(w.todo, |q|);
      }
    }
    WorkStays(s.sys.disk, s'.sys.disk, s.mem, s.sys.rows, s'.sys.rows, s.work[j]);
  }

  lemma SliceClients(s: World, s': World, i: nat, w: Work, toBackup: bool)
    requires Allowed(s, WriteSlice(i), toBackup) && s' == Next(s, WriteSlice(i), toBackup)
    requires i < |s.work| && s.work[i] == w && w.Updating? && Safe(s, toBackup)
    ensures |s'.work| == |s'.threads| && ClientsOK(s')
  {
    hide Inv, L.Inv, RoundOK, Grown, TodoOK, ReadOK, WatchedAll, WriteTo, Share, Target, CoreOK, RangesOK, Applied;
    var n := Share(s, w.todo, w.k);
    var rest := Updating(w.todo[n..], w.k + 1);
    WatchedShape(s.work[i := rest], s'.sys.disk, s.mem);
    SliceRest(s, s', i, w, toBackup);
    forall j | 0 <= j < |s.work| ensures WorkOK(s'.sys.disk, s.mem, s'.sys.rows, s'.work[j]) {
      if j != i {
        SliceOthers(s, s', i, j, toBackup);
      }
    }
    forall j, k | 0 <= j < k < |s.work| ensures NoneShared(s'.work[j], s'.work[k]) {
      assert NoneShared(s.work[j], s.work[k]);
      TailIn(w.todo, n);
    }
    forall j | 0 <= j < |s.work| && s'.work[j] != NoWork ensures Both(s'.threads[j]) {
      assert s.work[i := rest][j] != NoWork;
    }
    assert |s'.work| == |s'.threads|;
  }

  lemma SliceCore(s: World, s': World, i: nat, toBackup: bool)
    requires Allowed(s, WriteSlice(i), toBackup) && s' == Next(s, WriteSlice(i), toBackup) && Safe(s, toBackup)
    ensures Inv(s'.sys, toBackup)
  {
    hide Inv, ThreadsOK, RoundOK, ClientsOK, Do, WriteTo, Share, Target, Enabled, WatchedAll;
    var w := s.work[i];
    var ds, q := Target(s, w.k), w.todo[..Share(s, w.todo, w.k)];
    SliceAllowed(s, i, w, ds, q, toBackup);
    SliceIs(s, i, w, ds, q, toBackup);
    UpdateKeeps(s.sys, ds, q, toBackup);
  }

  lemma SliceRound(s: World, s': World, i: nat, toBackup: bool)
    requires Allowed(s, WriteSlice(i), toBackup) && s' == Next(s, WriteSlice(i), toBackup) && Safe(s, toBackup)
    ensures s'.threads == s.threads && Up(s'.sys.point) && RoundOK(s', toBackup)
  {
    hide Inv, L.Inv, MainThread, ControlOK, MemOK, PlanOK, ClientsOK, SameJobs, Grown, WatchedAll, Core, WriteTo, Share;
    hide Target, RangesOK, CoreOK;
    var w := s.work[i];
    BothLocksMean(s, i, toBackup);
    ListThere(s.sys, toBackup);
    WriteEffect(s.sys, Target(s, w.k), w.todo[..Share(s, w.todo, w.k)]);
    MemStays(s, s');
    ControlStays(s, s');
    SlicePlan(s, s', toBackup);
  }

  lemma SliceThreads(s: World, s': World, i: nat, toBackup: bool)
    requires Allowed(s, WriteSlice(i), toBackup) && s' == Next(s, WriteSlice(i), toBackup) && ThreadsOK(s)
    ensures ThreadsOK(s')
  {
    hide L.Inv, WatchedAll, WriteTo, Share, Target;
    WatchedShape(s.work[i := Updating(s.work[i].todo[Share(s, s.work[i].todo, s.work[i].k)..], s.work[i].k + 1)],
        s'.sys.disk, s.mem);
  }

  lemma WriteSliceKeeps(s: World, i: nat, toBackup: bool)
    requires Allowed(s, WriteSlice(i), toBackup) && Safe(s, toBackup)
    ensures Safe(Next(s, WriteSlice(i), toBackup), toBackup)
  {
    hide Inv, RoundOK, ClientsOK, Next, ThreadsOK;
    var s' := Next(s, WriteSlice(i), toBackup);
    SliceCore(s, s', i, toBackup);
    SliceRound(s, s', i, toBackup);
    SliceThreads(s, s', i, toBackup);
    SliceClients(s, s', i, s.work[i], toBackup);
  }
}
