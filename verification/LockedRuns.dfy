/** What the two locks give in every run of the check loop, the backup loop and any number of clients, with crashes:
    where an update or a read finds each job, what a read returns, that nothing is lost, and that nobody gets stuck. */
module LockedRuns {
  import opened Common
  import opened Tables
  import opened Layout
  import opened Batches
  import Maintenance
  import opened Migration
  import opened Journal
  import opened JournalInvariant
  import opened JournalClients
  import Runs = JournalRuns
  import Turns = JournalRounds
  import opened LockedStore
  import opened LockedInvariant
  import opened LockedClients
  import opened LockedSteps
  import opened LockedRound
  import L = Locks

  /** A new database, and threads that have not begun. */
  ghost predicate Init(s: World) {
    && Runs.Init(s.sys) && s.mem == [[1]] && s.ranges == [] && s.plan == NoPlan
    && s.threads != [] && |s.work| == |s.threads|
    && forall i :: 0 <= i < |s.threads| ==> s.threads[i] == AT_REST && s.work[i] == NoWork
  }

  ghost predicate Run(s: World, actions: seq<Action>, toBackup: bool)
    decreases |actions|
  {
    actions == [] || (Allowed(s, actions[0], toBackup) && Run(Next(s, actions[0], toBackup), actions[1..], toBackup))
  }

  ghost function Final(s: World, actions: seq<Action>, toBackup: bool): World
    requires Run(s, actions, toBackup)
    decreases |actions|
  {
    if actions == [] then s else Final(Next(s, actions[0], toBackup), actions[1..], toBackup)
  }

  ghost predicate Reachable(s: World, toBackup: bool) {
    exists s0, actions :: Init(s0) && Run(s0, actions, toBackup) && Final(s0, actions, toBackup) == s
  }

  lemma InitSafe(s: World, toBackup: bool)
    requires Init(s)
    ensures Safe(s, toBackup) && Runs.Reachable(s.sys, toBackup)
  {
    hide Inv, L.Inv, RangesOK, CoreOK, ReadRanges;
    Runs.InitHolds(s.sys, toBackup);
    AllAtRest(s.threads);
    ListThere(s.sys, toBackup);
    CoreRanges(s.sys.disk, s.sys.list);
    NothingRanged(s.sys.disk, s.sys.list);
    Restarted(s, toBackup);
    assert Runs.Run(s.sys, [], toBackup) && Runs.Final(s.sys, [], toBackup) == s.sys;
  }

  lemma NothingRanged(d: Disk, list: seq<Index>)
    requires |list| == 1 && AllThere(d, list)
    ensures ReadRanges(d, list) == []
  {
  }

  /** Every run with locks is a run of the store without them. */
  lemma {:induction false} RunKeeps(s: World, actions: seq<Action>, toBackup: bool)
    requires Safe(s, toBackup) && Run(s, actions, toBackup) && Runs.Reachable(s.sys, toBackup)
    ensures var t := Final(s, actions, toBackup); Safe(t, toBackup) && Runs.Reachable(t.sys, toBackup)
    decreases |actions|
  {
    hide Safe, Allowed, Next, Runs.Reachable, Enabled, Do;
    if actions != [] {
      ActionKeeps(s, actions[0], toBackup);
      var step := Refines(s, actions[0], toBackup);
      if step.Some? {
        Runs.ReachStep(s.sys, step.value, toBackup);
      }
      RunKeeps(Next(s, actions[0], toBackup), actions[1..], toBackup);
    }
  }

  lemma ReachableSafe(s: World, toBackup: bool)
    requires Reachable(s, toBackup)
    ensures Safe(s, toBackup) && Runs.Reachable(s.sys, toBackup)
  {
    hide Safe, Allowed, Next, Runs.Reachable, Init;
    var s0, actions :| Init(s0) && Run(s0, actions, toBackup) && Final(s0, actions, toBackup) == s;
    InitSafe(s0, toBackup);
    RunKeeps(s0, actions, toBackup);
  }

  lemma {:induction false} RunOneMore(s: World, actions: seq<Action>, a: Action, toBackup: bool)
    requires Run(s, actions, toBackup) && Allowed(Final(s, actions, toBackup), a, toBackup)
    ensures Run(s, actions + [a], toBackup)
    ensures Final(s, actions + [a], toBackup) == Next(Final(s, actions, toBackup), a, toBackup)
    decreases |actions|
  {
    hide Allowed, Next;
    if actions == [] {
      assert [a][1..] == [] && [] + [a] == [a];
      assert Run(Next(s, a, toBackup), [], toBackup);
    } else {
      assert (actions + [a])[0] == actions[0] && (actions + [a])[1..] == actions[1..] + [a];
      RunOneMore(Next(s, actions[0], toBackup), actions[1..], a, toBackup);
    }
  }

  lemma ReachNext(s: World, a: Action, toBackup: bool)
    requires Reachable(s, toBackup) && Allowed(s, a, toBackup)
    ensures Reachable(Next(s, a, toBackup), toBackup)
  {
    hide Allowed, Next, Init;
    var s0, actions :| Init(s0) && Run(s0, actions, toBackup) && Final(s0, actions, toBackup) == s;
    RunOneMore(s0, actions, a, toBackup);
  }

  lemma {:induction false} StaysReachable(s: World, actions: seq<Action>, toBackup: bool)
    requires Reachable(s, toBackup) && Run(s, actions, toBackup)
    ensures Reachable(Final(s, actions, toBackup), toBackup)
    decreases |actions|
  {
    hide Reachable, Allowed, Next;
    if actions != [] {
      ReachNext(s, actions[0], toBackup);
      StaysReachable(Next(s, actions[0], toBackup), actions[1..], toBackup);
    }
  }

  // ---------- what the locks say ----------

  /** With both locks for reading no round is under way; with the list lock alone no dataset is being added and no
      source is half deleted. */
  lemma LocksSay(s: World, i: nat, toBackup: bool)
    requires Reachable(s, toBackup) && Up(s.sys.point) && 1 <= i < |s.threads| && s.threads[i].list == L.Read
    ensures !s.sys.point.Adding?
    ensures s.sys.point.Posting? ==>
      s.sys.point.script == Retire(s.sys.point.from) || (s.sys.point.script == [] && s.mem == s.sys.list)
    ensures s.mem != [] && s.sys.list != [] && Last(s.mem) == Last(s.sys.list)
    ensures s.threads[i].migration == L.Read ==> s.sys.point == Idle && s.mem == s.sys.list
  {
    hide Safe, Retire;
    ReachableSafe(s, toBackup);
    ListLockMeans(s, i, toBackup);
    if s.threads[i].migration == L.Read {
      BothLocksMean(s, i, toBackup);
    }
  }

  /** The k-th dataset of the list, and no other, holds the job, with this row. */
  ghost predicate HeldOnce(d: Disk, list: seq<Index>, k: int, id: JobID, r: Row) {
    0 <= k < |list| && Runs.HasRow(d, list[k], id, r) && forall j :: In(d, list, j, id) ==> j == k
  }

  /** Whoever holds both locks finds on disk the datasets of the list and no others, and every unfinished job in
      exactly one of them, with its latest status. */
  lemma ExactlyOne(s: World, i: nat, toBackup: bool)
    requires Reachable(s, toBackup) && Up(s.sys.point) && 1 <= i < |s.threads| && Both(s.threads[i])
    ensures forall ds :: ds in s.sys.disk.jobs <==> ds in s.mem
    ensures forall ds :: ds in s.sys.disk.statuses <==> ds in s.mem
    ensures forall id :: id in s.sys.rows && IsLive(s.sys.rows[id]) ==>
      exists k :: HeldOnce(s.sys.disk, s.mem, k, id, s.sys.rows[id])
  {
    hide Safe, Runs.Reachable, LiveRows, Flat, CoreOK;
    ReachableSafe(s, toBackup);
    BothLocksMean(s, i, toBackup);
    Runs.AtRest(s.sys, toBackup);
    var core := Core(s.sys.disk, s.mem);
    forall id | id in s.sys.rows && IsLive(s.sys.rows[id])
      ensures exists k :: HeldOnce(s.sys.disk, s.mem, k, id, s.sys.rows[id])
    {
      var k :| At(core, s.mem, k, id) && RowOf(core[s.mem[k]], id) == s.sys.rows[id] && forall j ::
        At(core, s.mem, j, id) ==> j == k;
      forall j | In(s.sys.disk, s.mem, j, id) ensures j == k {
        assert s.mem[j] in s.mem && At(core, s.mem, j, id);
      }
      assert HeldOnce(s.sys.disk, s.mem, k, id, s.sys.rows[id]);
    }
  }

  // ---------- updates ----------

  /** The status is the latest one of its job, in the dataset and in the history. */
  ghost predicate Lands(s: System, list: seq<Index>, k: int, t: Status) {
    && In(s.disk, list, k, t.jobID) && list[k] in s.disk.statuses
    && Latest(s.disk.statuses[list[k]], t.jobID) == Some(t)
    && t.jobID in s.rows && s.rows[t.jobID].latest == Some(t)
  }

  lemma SliceLatest(s: System, list: seq<Index>, k: int, q: seq<Status>)
    requires 0 <= k < |list| && list[k] in s.disk.statuses && DistinctJobs(q)
    requires forall n :: 0 <= n < |q| ==> In(s.disk, list, k, q[n].jobID) && q[n].jobID in s.rows
    ensures forall n :: 0 <= n < |q| ==> Lands(WriteTo(s, list[k], q), list, k, q[n])
  {
    forall n | 0 <= n < |q| ensures Lands(WriteTo(s, list[k], q), list, k, q[n]) {
      LatestDistinct(q, n);
      LatestAppend(s.disk.statuses[list[k]], q, q[n].jobID);
    }
  }

  lemma SliceReaches(s: World, w: Work)
    requires s.mem == s.sys.list && CoreOK(s.sys.disk, s.mem) && RangesOK(s.sys.disk, s.mem, s.ranges)
    requires w.Updating? && w.todo != [] && TodoOK(s.sys.disk, s.mem, s.sys.rows, w.todo, w.k)
    ensures w.k < |s.mem| && Target(s, w.k) == s.mem[w.k] && Target(s, w.k) in s.sys.disk.statuses
    ensures |s.ranges| == |s.mem| - 1 && (w.k < |s.ranges| ==> w.todo[0].jobID >= s.ranges[w.k].minJobID)
    ensures var q := w.todo[..Share(s, w.todo, w.k)];
      var sys' := WriteTo(s.sys, Target(s, w.k), q);
      && (forall n :: 0 <= n < |q| ==> Lands(sys', s.mem, w.k, q[n]))
      && (forall id :: id in s.sys.rows && (forall t :: t in q ==> t.jobID != id) ==>
          id in sys'.rows && sys'.rows[id] == s.sys.rows[id])
  {
    hide CoreOK, RangesOK, Share, Target, LiesFrom, In, WriteTo, Lands, SameJobs, Grown, IsLive;
    RangesAll(s.sys.disk, s.mem, s.ranges);
    SliceFits(s, w.todo, w.k);
    TablesThere(s.sys.disk, s.mem, w.k);
    var q := w.todo[..Share(s, w.todo, w.k)];
    assert AllThere(s.sys.disk, s.mem) by { ThereAll(s.sys.disk, s.mem); }
    WriteEffect(s.sys, Target(s, w.k), q);
    forall n | 0 <= n < |q| ensures In(s.sys.disk, s.mem, w.k, q[n].jobID) && q[n].jobID in s.sys.rows {
      assert q[n] == w.todo[n] && w.todo[n] in w.todo;
    }
    SliceLatest(s.sys, s.mem, w.k, q);
  }

  lemma ThereAll(d: Disk, list: seq<Index>)
    requires CoreOK(d, list)
    ensures AllThere(d, list)
  {
  }

  /** A slice of an update goes to the dataset of the list that holds its jobs, where each gets its status as the latest
      one; the assertions of UpdateJobStatus hold, and no other job of the store changes. */
  lemma SliceLands(s: World, s': World, i: nat, w: Work, toBackup: bool)
    requires Allowed(s, WriteSlice(i), toBackup) && s' == Next(s, WriteSlice(i), toBackup)
    requires i < |s.work| && s.work[i] == w && w.Updating? && Reachable(s, toBackup)
    ensures w.k < |s.mem| && Target(s, w.k) == s.mem[w.k]
    ensures |s.ranges| == |s.mem| - 1 && (w.k < |s.ranges| ==> w.todo[0].jobID >= s.ranges[w.k].minJobID)
    ensures var q := w.todo[..Share(s, w.todo, w.k)];
      && (forall n :: 0 <= n < |q| ==> Lands(s'.sys, s.mem, w.k, q[n]))
      && (forall id :: id in s.sys.rows && (forall t :: t in q ==> t.jobID != id) ==>
          id in s'.sys.rows && s'.sys.rows[id] == s.sys.rows[id])
  {
    hide Inv, ThreadsOK, RoundOK, CoreOK, RangesOK, NoneShared, WatchedAll, Share, Target, TodoOK, WriteTo, Lands;
    ReachableSafe(s, toBackup);
    BothLocksMean(s, i, toBackup);
    ListThere(s.sys, toBackup);
    assert WorkOK(s.sys.disk, s.mem, s.sys.rows, w);
    SliceReaches(s, w);
  }

  ghost predicate UpdatesNone(actions: seq<Action>, i: nat) {
    forall k :: 0 <= k < |actions| ==> !(actions[k].BeginUpdate? && actions[k].i == i)
  }

  /** There is a moment of the run at which the status is the latest one of its job. */
  ghost predicate LandsAlong(s: World, actions: seq<Action>, t: Status, toBackup: bool)
    requires Run(s, actions, toBackup)
    decreases |actions|
  {
    || (exists k :: Lands(s.sys, s.mem, k, t))
    || (actions != [] && LandsAlong(Next(s, actions[0], toBackup), actions[1..], t, toBackup))
  }

  /** What others do leaves an update as it is, or the process dies. */
  lemma OthersUpdate(s: World, a: Action, i: nat, toBackup: bool)
    requires Allowed(s, a, toBackup) && i < |s.work| && !(a.BeginUpdate? && a.i == i) && a != WriteSlice(i)
    requires s.work[i].Updating? ==> s.work[i].todo != []
    ensures var s' := Next(s, a, toBackup); i < |s'.work| && s'.work[i].Updating? ==> s'.work[i] == s.work[i]
  {
    hide Enabled, Do, StoreIn, WriteTo, RowsOn, Matching, Share, Target, Answer, ReadRanges, NamesOf;
    hide L.Do, PartDone, MaySkip, MayDecide, MayBegin, InPlace, MayRefresh, MayUpdate;
  }

  lemma SliceRest(s: World, i: nat, toBackup: bool)
    requires Allowed(s, WriteSlice(i), toBackup)
    ensures var w, s' := s.work[i], Next(s, WriteSlice(i), toBackup);
      && i < |s'.work| && s'.mem == s.mem
      && s'.work[i] == Updating(w.todo[Share(s, w.todo, w.k)..], w.k + 1)
  {
    hide WriteTo, Share, Target, Matching, RowsOn;
  }

  lemma {:induction false} NotUpdating(s: World, actions: seq<Action>, i: nat, toBackup: bool)
    requires Run(s, actions, toBackup) && UpdatesNone(actions, i)
    requires i < |s.work| ==> !s.work[i].Updating?
    ensures var t := Final(s, actions, toBackup); i < |t.work| ==> !t.work[i].Updating?
    decreases |actions|
  {
    hide Allowed, Next;
    if actions != [] {
      assert !(actions[0].BeginUpdate? && actions[0].i == i);
      StaysFree(s, actions[0], i, toBackup);
      UpdatesTail(actions, i);
      NotUpdating(Next(s, actions[0], toBackup), actions[1..], i, toBackup);
    }
  }

  lemma StaysFree(s: World, a: Action, i: nat, toBackup: bool)
    requires Allowed(s, a, toBackup) && !(a.BeginUpdate? && a.i == i)
    requires i < |s.work| ==> !s.work[i].Updating?
    ensures var s' := Next(s, a, toBackup); i < |s'.work| ==> !s'.work[i].Updating?
  {
    hide Enabled, Do, StoreIn, WriteTo, RowsOn, Matching, Share, Target, Answer, ReadRanges, NamesOf;
    hide L.Do, Finished, PartDone, MaySkip, MayDecide, MayBegin, InPlace, MayRefresh, MayUpdate;
  }

  lemma UpdatesTail(actions: seq<Action>, i: nat)
    requires actions != [] && UpdatesNone(actions, i)
    ensures UpdatesNone(actions[1..], i)
  {
    forall k | 0 <= k < |actions[1..]| ensures !(actions[1..][k].BeginUpdate? && actions[1..][k].i == i) {
      assert actions[k + 1] == actions[1..][k];
    }
  }

  lemma {:induction false} TodoLands(s: World, actions: seq<Action>, i: nat, t: Status, toBackup: bool)
    requires Reachable(s, toBackup) && Run(s, actions, toBackup) && UpdatesNone(actions, i)
    requires i < |s.work| && s.work[i].Updating? && t in s.work[i].todo
    requires var u := Final(s, actions, toBackup); i < |u.work| && u.work[i].Updating? && u.work[i].todo == []
    ensures LandsAlong(s, actions, t, toBackup)
    decreases |actions|
  {
    hide Reachable, Allowed, Next, Lands, Share;
    assert actions != [];
    var a, s' := actions[0], Next(s, actions[0], toBackup);
    assert !(a.BeginUpdate? && a.i == i);
    UpdatesTail(actions, i);
    ReachNext(s, a, toBackup);
    if a == WriteSlice(i) {
      var w := s.work[i];
      SliceLands(s, s', i, w, toBackup);
      SliceRest(s, i, toBackup);
      var n := Share(s, w.todo, w.k);
      var k :| 0 <= k < |w.todo| && w.todo[k] == t;
      if k < n {
        assert w.todo[..n][k] == t;
        assert Lands(s'.sys, s'.mem, w.k, t);
      } else {
        assert w.todo[n..][k - n] == t;
        TodoLands(s', actions[1..], i, t, toBackup);
      }
    } else {
      OthersUpdate(s, a, i, toBackup);
      if i < |s'.work| && s'.work[i].Updating? {
        TodoLands(s', actions[1..], i, t, toBackup);
      } else {
        NotUpdating(s', actions[1..], i, toBackup);
      }
    }
  }

  /** An update leaves nothing out: when it has come to its end, each of its statuses has been the latest one of its job
      at some moment, whatever the others have done in between. */
  lemma UpdateWritesAll(s: World, i: nat, q: seq<Status>, actions: seq<Action>, toBackup: bool)
    requires Reachable(s, toBackup) && Allowed(s, BeginUpdate(i, q), toBackup)
    requires Run(Next(s, BeginUpdate(i, q), toBackup), actions, toBackup) && UpdatesNone(actions, i)
    requires var u := Final(Next(s, BeginUpdate(i, q), toBackup), actions, toBackup);
      i < |u.work| && u.work[i].Updating? && u.work[i].todo == []
    ensures forall t :: t in q ==> LandsAlong(Next(s, BeginUpdate(i, q), toBackup), actions, t, toBackup)
  {
    hide Reachable, Lands, LandsAlong, Sort, Final, Run;
    var s1 := Next(s, BeginUpdate(i, q), toBackup);
    ReachNext(s, BeginUpdate(i, q), toBackup);
    SortSorts(q);
    forall t | t in q ensures LandsAlong(s1, actions, t, toBackup) {
      TodoLands(s1, actions, i, t, toBackup);
    }
  }

  // ---------- reads ----------

  lemma SteadyFound(d: Disk, mem: seq<Index>, w: Work)
    requires CoreOK(d, mem) && w.Reading? && ReadOK(d, mem, w) && Finished(w, mem)
    ensures forall x :: x in w.steady && x !in IdsOf(w.out) ==> |w.out| == w.count && forall y :: y in IdsOf(w.out) ==>
      y < x
  {
    hide CoreOK, Selects, Selected, Matching;
    CoreSpread(d, mem);
    forall x | x in w.steady && x !in IdsOf(w.out)
      ensures |w.out| == w.count && forall y :: y in IdsOf(w.out) ==> y < x
    {
      var j := MatchedIn(d, mem, w.f, w.customVals, x);
      if j >= w.k {
        forall y | y in IdsOf(w.out) ensures y < x {
          var i :| i < w.k && In(d, mem, i, y);
        }
      }
    }
  }

  /** What the next query of a read adds: the first rows that match of its dataset, as many as are still missing, each
      as it is there at this moment, with job and latest status. */
  lemma QueryReturns(s: World, s': World, i: nat, toBackup: bool)
    requires Allowed(s, ReadDS(i), toBackup) && s' == Next(s, ReadDS(i), toBackup) && Reachable(s, toBackup)
    ensures i < |s.work| == |s'.work| && s.work[i].Reading? && s'.work[i].Reading?
    ensures var w, w' := s.work[i], s'.work[i];
      && w.k < |s.mem| && s.mem[w.k] in s.sys.disk.jobs && s.mem[w.k] in s.sys.disk.statuses
      && w'.k == w.k + 1 && w.out <= w'.out && |w.out| <= w.count
      && var more := w'.out[|w.out|..];
      && FirstN(IdsOf(more), Selected(Pair(s.sys.disk, s.mem[w.k]), w.f, w.customVals), w.count - |w.out|)
      && forall t :: t in more ==> Runs.HasRow(s.sys.disk, s.mem[w.k], t.id, t.row)
  {
    hide Inv, L.Inv, RoundOK, CoreOK, RangesOK, NoneShared, Matching, Selects, Selected, FirstN, RowOf;
    ReachableSafe(s, toBackup);
    var w := s.work[i];
    assert WorkOK(s.sys.disk, s.mem, s.sys.rows, w) && Both(s.threads[i]);
    BothLocksMean(s, i, toBackup);
    ListThere(s.sys, toBackup);
    AnswerTells(s.sys.disk, s.mem, w);
    assert s'.work[i].out[|w.out|..] == Answer(s.sys.disk, s.mem, w);
  }

  /** What GetUnprocessed or GetProcessed returns, whatever the other clients do while it goes from dataset to dataset:
      ascending ids, so no job twice, each with a row that matched and that was the job's row, latest status included,
      at some moment since the read began, and with the job that is stored under its id; and every job that matched all
      the time, unless there are `count` smaller ones. */
  lemma ReadsOnce(s: World, i: nat, toBackup: bool)
    requires Reachable(s, toBackup) && Up(s.sys.point) && i < |s.work| && s.work[i].Reading?
    requires Finished(s.work[i], s.mem)
    ensures var w := s.work[i];
      && Ascending(IdsOf(w.out)) && |w.out| <= w.count
      && (forall t :: t in w.out ==>
        Selects(w.f, w.customVals, t.row) && t in w.seen && exists j :: HasJob(s.sys.disk, s.mem, j, t))
      && forall x :: x in w.steady && x !in IdsOf(w.out) ==> |w.out| == w.count && forall y :: y in IdsOf(w.out) ==>
        y < x
  {
    hide Inv, L.Inv, RoundOK, CoreOK, RangesOK, NoneShared, Matching, Selects;
    ReachableSafe(s, toBackup);
    var w := s.work[i];
    assert WorkOK(s.sys.disk, s.mem, s.sys.rows, w) && Both(s.threads[i]);
    BothLocksMean(s, i, toBackup);
    ListThere(s.sys, toBackup);
    SteadyFound(s.sys.disk, s.mem, w);
  }

  /** A dataset in memory has this row. */
  ghost predicate OnDisk(s: World, t: JobT) {
    exists k :: 0 <= k < |s.mem| && Runs.HasRow(s.sys.disk, s.mem[k], t.id, t.row)
  }

  ghost predicate BeginsNone(actions: seq<Action>, i: nat) {
    forall k :: 0 <= k < |actions| ==> !(actions[k].BeginRead? && actions[k].i == i)
  }

  /** There is a moment of the run, after which client i begins no read, at which this was a row of the store. */
  ghost predicate WasThere(s: World, actions: seq<Action>, i: nat, t: JobT, toBackup: bool)
    requires Run(s, actions, toBackup)
    decreases |actions|
  {
    || (OnDisk(s, t) && BeginsNone(actions, i))
    || (actions != [] && WasThere(Next(s, actions[0], toBackup), actions[1..], i, t, toBackup))
  }

  lemma RowsOnDisk(s: World, t: JobT)
    requires t in RowsOn(s.sys.disk, s.mem)
    ensures OnDisk(s, t)
  {
    var ds :| ds in s.mem && ds in s.sys.disk.jobs && ds in s.sys.disk.statuses
      && t.id in s.sys.disk.jobs[ds].rows && t == JobT(t.id, RowOf(Pair(s.sys.disk, ds), t.id));
    var k :| 0 <= k < |s.mem| && s.mem[k] == ds;
    assert Runs.HasRow(s.sys.disk, s.mem[k], t.id, t.row);
  }

  /** Where what a client has seen comes from. */
  lemma SeenStep(s: World, a: Action, i: nat, t: JobT, toBackup: bool)
    requires Allowed(s, a, toBackup)
    requires var s' := Next(s, a, toBackup); i < |s'.work| && s'.work[i].Reading? && t in s'.work[i].seen
    ensures OnDisk(Next(s, a, toBackup), t)
      || (i < |s.work| && s.work[i].Reading? && t in s.work[i].seen && BeginsNone([a], i))
  {
    hide Enabled, Do, StoreIn, WriteTo, RowsOn, Matching, OnDisk, Share, Target, Answer, ReadRanges, NamesOf;
    hide L.Do, Finished, PartDone, MaySkip, MayDecide, MayBegin, InPlace, MayRefresh, MayUpdate;
    var s' := Next(s, a, toBackup);
    if t in RowsOn(s'.sys.disk, s'.mem) {
      RowsOnDisk(s', t);
    } else {
      match a
      case StoreJob(_, _, _) => assert s'.work[i] == Watched(s.work[i], s'.sys.disk, s.mem);
      case WriteSlice(j) => assert j != i && s'.work[i] == Watched(s.work[i], s'.sys.disk, s.mem);
      case BeginRead(j, _, _, _) => assert j != i;
      case ReadDS(_) =>
      case Other(_) =>
      case _ =>
    }
  }

  lemma {:induction false} SeenWasThere(s: World, actions: seq<Action>, i: nat, t: JobT, toBackup: bool)
    requires Run(s, actions, toBackup)
    requires var s' := Final(s, actions, toBackup); i < |s'.work| && s'.work[i].Reading? && t in s'.work[i].seen
    ensures WasThere(s, actions, i, t, toBackup)
      || (i < |s.work| && s.work[i].Reading? && t in s.work[i].seen && BeginsNone(actions, i))
    decreases |actions|
  {
    hide Allowed, Next, OnDisk;
    if actions != [] {
      var s1 := Next(s, actions[0], toBackup);
      SeenWasThere(s1, actions[1..], i, t, toBackup);
      if !WasThere(s1, actions[1..], i, t, toBackup) {
        SeenStep(s, actions[0], i, t, toBackup);
        assert actions == [actions[0]] + actions[1..];
      }
    }
  }

  /** Every row a read has come back with, its latest status included, was a row of the store at some moment of the run
      since the read began. */
  lemma ReadRowsWereThere(s: World, actions: seq<Action>, i: nat, toBackup: bool)
    requires Init(s) && Run(s, actions, toBackup)
    requires var s' := Final(s, actions, toBackup); Up(s'.sys.point) && i < |s'.work| && s'.work[i].Reading?
    ensures forall t :: t in Final(s, actions, toBackup).work[i].out ==> WasThere(s, actions, i, t, toBackup)
  {
    hide Inv, L.Inv, RoundOK, CoreOK, RangesOK, NoneShared, Matching, Selects, WasThere, HasJob, RowsOn, Runs.Init;
    var s' := Final(s, actions, toBackup);
    ReachableSafe(s', toBackup);
    assert WorkOK(s'.sys.disk, s'.mem, s'.sys.rows, s'.work[i]);
    forall t | t in s'.work[i].out ensures WasThere(s, actions, i, t, toBackup) {
      SeenWasThere(s, actions, i, t, toBackup);
    }
  }

  /** At every moment of the run the job is in the store and matches. */
  ghost predicate MatchesAllAlong(s: World, actions: seq<Action>, f: Filter, customVals: seq<string>, x: JobID,
                                  toBackup: bool)
    requires Run(s, actions, toBackup)
    decreases |actions|
  {
    && x in Matching(s.sys.disk, s.mem, f, customVals)
    && (actions != [] ==> MatchesAllAlong(Next(s, actions[0], toBackup), actions[1..], f, customVals, x, toBackup))
  }

  ghost predicate ReadsFor(w: Work, f: Filter, customVals: seq<string>, count: nat) {
    w.Reading? && w.f == f && w.customVals == customVals && w.count == count
  }

  /** A read that goes on is the same read, and a job that goes on matching stays among those that always did. */
  lemma SteadyStep(s: World, a: Action, i: nat, f: Filter, customVals: seq<string>, count: nat, x: JobID,
                   toBackup: bool)
    requires Allowed(s, a, toBackup) && !(a.BeginRead? && a.i == i)
    requires i < |s.work| && ReadsFor(s.work[i], f, customVals, count) && x in s.work[i].steady
    requires var s' := Next(s, a, toBackup);
      i < |s'.work| && s'.work[i].Reading? && x in Matching(s'.sys.disk, s'.mem, f, customVals)
    ensures var s' := Next(s, a, toBackup); ReadsFor(s'.work[i], f, customVals, count) && x in s'.work[i].steady
  {
    hide Enabled, Do, StoreIn, WriteTo, RowsOn, Matching, OnDisk, Share, Target, Answer, ReadRanges, NamesOf;
    hide L.Do, Finished, PartDone, MaySkip, MayDecide, MayBegin, InPlace, MayRefresh, MayUpdate;
    var s' := Next(s, a, toBackup);
    match a
    case StoreJob(_, _, _) => assert s'.work[i] == Watched(s.work[i], s'.sys.disk, s.mem);
    case WriteSlice(j) => assert j != i && s'.work[i] == Watched(s.work[i], s'.sys.disk, s.mem);
    case _ =>
  }

  /** A client that is not reading does not read before it begins. */
  lemma StaysIdle(s: World, a: Action, i: nat, toBackup: bool)
    requires Allowed(s, a, toBackup) && !(a.BeginRead? && a.i == i)
    requires i < |s.work| ==> !s.work[i].Reading?
    ensures var s' := Next(s, a, toBackup); i < |s'.work| ==> !s'.work[i].Reading?
  {
    hide Enabled, Do, StoreIn, WriteTo, RowsOn, Matching, OnDisk, Share, Target, Answer, ReadRanges, NamesOf;
    hide L.Do, Finished, PartDone, MaySkip, MayDecide, MayBegin, InPlace, MayRefresh, MayUpdate;
  }

  lemma {:induction false} NotReading(s: World, actions: seq<Action>, i: nat, toBackup: bool)
    requires Run(s, actions, toBackup) && BeginsNone(actions, i)
    requires i < |s.work| ==> !s.work[i].Reading?
    ensures var t := Final(s, actions, toBackup); i < |t.work| ==> !t.work[i].Reading?
    decreases |actions|
  {
    hide Allowed, Next;
    if actions != [] {
      assert !(actions[0].BeginRead? && actions[0].i == i);
      StaysIdle(s, actions[0], i, toBackup);
      BeginsTail(actions, i);
      NotReading(Next(s, actions[0], toBackup), actions[1..], i, toBackup);
    }
  }

  lemma BeginsTail(actions: seq<Action>, i: nat)
    requires actions != [] && BeginsNone(actions, i)
    ensures BeginsNone(actions[1..], i)
  {
    forall k | 0 <= k < |actions[1..]| ensures !(actions[1..][k].BeginRead? && actions[1..][k].i == i) {
      assert actions[k + 1] == actions[1..][k];
    }
  }

  lemma {:induction false} StaysSteady(s: World, actions: seq<Action>, i: nat, f: Filter, customVals: seq<string>,
                                       count: nat, x: JobID, toBackup: bool)
    requires Run(s, actions, toBackup) && BeginsNone(actions, i)
    requires i < |s.work| && ReadsFor(s.work[i], f, customVals, count) && x in s.work[i].steady
    requires MatchesAllAlong(s, actions, f, customVals, x, toBackup)
    requires var t := Final(s, actions, toBackup); i < |t.work| && t.work[i].Reading?
    ensures var t := Final(s, actions, toBackup); ReadsFor(t.work[i], f, customVals, count) && x in t.work[i].steady
    decreases |actions|
  {
    hide Allowed, Next, Matching;
    if actions != [] {
      var s' := Next(s, actions[0], toBackup);
      assert !(actions[0].BeginRead? && actions[0].i == i);
      BeginsTail(actions, i);
      if i < |s'.work| && s'.work[i].Reading? {
        SteadyStep(s, actions[0], i, f, customVals, count, x, toBackup);
        StaysSteady(s', actions[1..], i, f, customVals, count, x, toBackup);
      } else {
        NotReading(s', actions[1..], i, toBackup);
      }
    }
  }

  /** A read misses nothing: a job that is in the store and matches from the moment the read begins until it ends, over
      whatever datasets the others store and update in between, is returned, or as many as were asked for are, all with
      smaller ids. */
  lemma ReadsAll(s: World, i: nat, f: Filter, customVals: seq<string>, count: nat, actions: seq<Action>, x: JobID,
                 toBackup: bool)
    requires Reachable(s, toBackup) && Allowed(s, BeginRead(i, f, customVals, count), toBackup)
    requires Run(Next(s, BeginRead(i, f, customVals, count), toBackup), actions, toBackup) && BeginsNone(actions, i)
    requires var t := Final(Next(s, BeginRead(i, f, customVals, count), toBackup), actions, toBackup);
      Up(t.sys.point) && i < |t.work| && t.work[i].Reading? && Finished(t.work[i], t.mem)
    requires MatchesAllAlong(Next(s, BeginRead(i, f, customVals, count), toBackup), actions, f, customVals, x, toBackup)
    ensures var out := Final(Next(s, BeginRead(i, f, customVals, count), toBackup), actions, toBackup).work[i].out;
      x in IdsOf(out) || (|out| == count && forall y :: y in IdsOf(out) ==> y < x)
  {
    hide Matching, Finished, Reachable, Allowed, RowsOn, Selects, HasJob;
    var a := BeginRead(i, f, customVals, count);
    var s1 := Next(s, a, toBackup);
    BeginsWith(s, i, f, customVals, count, toBackup);
    StaysSteady(s1, actions, i, f, customVals, count, x, toBackup);
    ReachNext(s, a, toBackup);
    StaysReachable(s1, actions, toBackup);
    ReadsOnce(Final(s1, actions, toBackup), i, toBackup);
  }

  lemma BeginsWith(s: World, i: nat, f: Filter, customVals: seq<string>, count: nat, toBackup: bool)
    requires Allowed(s, BeginRead(i, f, customVals, count), toBackup)
    ensures var s1 := Next(s, BeginRead(i, f, customVals, count), toBackup);
      && i < |s1.work| && ReadsFor(s1.work[i], f, customVals, count)
      && s1.work[i].steady == Matching(s1.sys.disk, s1.mem, f, customVals)
  {
    hide Matching, RowsOn;
  }

  // ---------- stores ----------

  /** A Store that runs at any time its lock lets it, in the middle of a migration too, adds its job under a new id, and
      from then on the job is on disk like all others, before and after recovery from a crash. */
  lemma StoreNeverLost(s: World, s': World, i: nat, job: Job, burnt: nat, toBackup: bool)
    requires Allowed(s, StoreJob(i, job, burnt), toBackup) && s' == Next(s, StoreJob(i, job, burnt), toBackup)
    requires Reachable(s, toBackup)
    ensures s.mem != [] && Last(s.mem) in s.sys.disk.jobs && !s.sys.point.Adding?
    ensures var id := s.sys.disk.jobs[Last(s.mem)].next + burnt;
      id !in s.sys.rows && s'.sys.rows == s.sys.rows[id := Row(job, None)]
    ensures Runs.NothingLost(s'.sys.disk, s'.sys.rows)
    ensures Runs.NothingLost(Recovered(s'.sys.disk, toBackup), s'.sys.rows)
  {
    hide *;
    ReachableSafe(s, toBackup);
    StoreAllowed(s, i, job, burnt, toBackup);
    StoreWhere(s, job, burnt, toBackup);
    StoreKeeps(s.sys, job, burnt, toBackup);
    Runs.ReachStep(s.sys, Store(job, burnt), toBackup);
    Runs.NoLoss(s'.sys, toBackup);
  }

  lemma StoreWhere(s: World, job: Job, burnt: nat, toBackup: bool)
    requires Safe(s, toBackup) && Enabled(s.sys, Store(job, burnt), toBackup)
    ensures !s.sys.point.Adding? && Inv(s.sys, toBackup)
  {
    hide Inv, ThreadsOK, RoundOK, ClientsOK;
  }

  // ---------- nothing moves under both locks ----------

  /** As long as a client keeps both locks, whatever anybody does: the lists in memory stay, and no job leaves its
      dataset. */
  lemma NothingMoves(s: World, s': World, a: Action, i: nat, toBackup: bool)
    requires Allowed(s, a, toBackup) && s' == Next(s, a, toBackup)
    requires Up(s.sys.point) && 1 <= i < |s.threads| && Both(s.threads[i]) && Reachable(s, toBackup)
    requires i < |s'.threads| && Both(s'.threads[i])
    ensures s'.mem == s.mem && s'.ranges == s.ranges && s'.sys.list == s.sys.list
    ensures Grown(s.sys.disk, s'.sys.disk, s.mem)
  {
    hide Inv, L.Inv, ThreadsOK, RoundOK, ClientsOK, CoreOK, RangesOK, Enabled, Do, WatchedAll, StoreIn, WriteTo;
    hide L.Enabled, L.Do, Reachable, Grown, In, Target, Share;
    ReachableSafe(s, toBackup);
    BothLocksMean(s, i, toBackup);
    ListThere(s.sys, toBackup);
    GrownSame(s.sys.disk, s'.sys.disk, s.mem);
    match a
    case StoreJob(k, job, burnt) =>
      StoreAllowed(s, k, job, burnt, toBackup);
      StoredInto(s.sys, job, burnt, toBackup);
      StoreEffect(s.sys, job, burnt, toBackup);
    case WriteSlice(k) =>
      var w := s.work[k];
      WriteEffect(s.sys, Target(s, w.k), w.todo[..Share(s, w.todo, w.k)]);
    case Other(step) =>
      if step.BeginBackup? || step.Backup? {
        BackupLeaves(s.sys, step, toBackup);
      } else if step.Recover? || step.Restart? {
        RecoverLeaves(s.sys, step, toBackup);
      }
    case _ =>
  }

  lemma GrownSame(d: Disk, d': Disk, list: seq<Index>)
    ensures d'.jobs == d.jobs ==> Grown(d, d', list)
  {
    if d'.jobs == d.jobs {
      InSame(d, d', list);
    }
  }

  // ---------- nobody gets stuck ----------

  /** A statement that is in place can be executed. */
  lemma StatementReady(s: World, toBackup: bool) returns (ids: seq<JobID>)
    requires s.threads != [] && InPlace(s) && Safe(s, toBackup) && Runs.Reachable(s.sys, toBackup)
    ensures Allowed(s, Statement(ids), toBackup)
  {
    hide Inv, L.Inv, ThreadsOK, RoundOK, ClientsOK, Runs.Reachable, CoreOK, SqlOK, BackupSqlOK, RetryIds;
    Runs.StatementsSucceed(s.sys, toBackup);
    InPlaceUp(s);
    ListThere(s.sys, toBackup);
    ids := [];
    if s.sys.point.Copying? && s.sys.point.half {
      Turns.HalfBounds(s.sys);
      var k := s.sys.point.k;
      Turns.SourceBelow(s.sys.disk, s.sys.list, k);
      ids := Turns.SomeRetryIds(Pair(s.sys.disk, s.sys.list[k]), s.sys.disk.jobs[Last(s.sys.list)].next);
    }
  }

  lemma NamesThere(d: Disk, list: seq<Index>)
    requires CoreOK(d, list) && Only(d, list, [], [])
    ensures NamesOf(d, list)
  {
    hide Before, Core;
    ListFacts(d, list);
  }

  lemma ExtendedThere(d: Disk, list: seq<Index>, x: Index)
    requires ExtendedBy(d, list, x)
    ensures NamesOf(d, list + [x])
  {
    hide Before, WellFormed, Core;
    ListFacts(d, list);
    Maintenance.AppendedShape(list, x);
    ConsecutiveSorted(list + [x]);
  }

  /** The lists can be read where they are due. */
  lemma RefreshReady(s: World, toBackup: bool) returns (names: seq<Index>)
    requires s.threads != [] && Up(s.sys.point) && MayRefresh(s) && Safe(s, toBackup)
    requires s.sys.point.Adding? && s.sys.point.stage == 3 ==> s.sys.point.goal.Append?
    ensures Allowed(s, Refresh(names), toBackup)
  {
    hide Inv, ThreadsOK, RoundOK, ClientsOK, CoreOK, Only, NamesOf, ExtendedBy;
    ListThere(s.sys, toBackup);
    if s.sys.point.Adding? && s.sys.point.stage == 3 {
      AppendedLast(s.sys, toBackup);
      ExtendedThere(s.sys.disk, s.sys.list, s.sys.point.x);
      names := s.sys.list + [s.sys.point.x];
    } else {
      OnlyListed(s.sys, toBackup);
      NamesThere(s.sys.disk, s.sys.list);
      names := s.sys.list;
    }
  }

  /** Where the check loop may not go on with its next lock, it has something else to do. */
  lemma MainHasWork(s: World, toBackup: bool)
    requires s.threads != [] && Up(s.sys.point) && MainThread(s.threads[0]) && ControlOK(s) && MemOK(s)
    requires PlanOK(s, toBackup)
    requires !PartDone(s)
    ensures MaySkip(s) || MayBegin(s, toBackup) || InPlace(s) || MayRefresh(s)
    ensures !MaySkip(s) && !MayBegin(s, toBackup) && !InPlace(s) && s.sys.point.Adding? && s.sys.point.stage == 3 ==>
      s.sys.point.goal.Append?
  {
    hide RangesOK, Retire, Enabled;
  }

  lemma MainGoesOn(s: World, toBackup: bool) returns (a: Action)
    requires Safe(s, toBackup) && Up(s.sys.point) && Runs.Reachable(s.sys, toBackup) && !PartDone(s)
    ensures Allowed(s, a, toBackup) && (a.Skip? || a.Begin? || a.Statement? || a.Refresh?)
  {
    hide Inv, L.Inv, ClientsOK, Runs.Reachable, MaySkip, MayBegin, InPlace, MayRefresh, PartDone, ControlOK, MemOK;
    hide PlanOK, MainThread;
    MainHasWork(s, toBackup);
    if MaySkip(s) {
      a := Skip;
    } else if MayBegin(s, toBackup) {
      a := Begin;
    } else if InPlace(s) {
      var ids := StatementReady(s, toBackup);
      a := Statement(ids);
    } else {
      var names := RefreshReady(s, toBackup);
      a := Refresh(names);
    }
  }

  lemma ClientGoesOn(s: World, i: nat, toBackup: bool) returns (a: Action)
    requires Safe(s, toBackup) && Up(s.sys.point) && 1 <= i < |s.threads| && L.Enabled(s.threads, i)
    ensures Allowed(s, a, toBackup) && (a.Lock? || a.WriteSlice? || a.ReadDS?)
  {
    hide Inv, L.Inv, L.Enabled, RoundOK, CoreOK, RangesOK, NoneShared, TodoOK, ReadOK, Target;
    if Finished(s.work[i], s.mem) {
      a := Lock(i);
    } else {
      BothLocksMean(s, i, toBackup);
      ListThere(s.sys, toBackup);
      assert WorkOK(s.sys.disk, s.mem, s.sys.rows, s.work[i]);
      if s.work[i].Updating? {
        SliceReaches(s, s.work[i]);
        a := WriteSlice(i);
      } else {
        AnswerTells(s.sys.disk, s.mem, s.work[i]);
        a := ReadDS(i);
      }
    }
  }

  /** As long as any thread is not through with its program, somebody can take a lock, give one back, or do what is to
      be done before: the locks and the work under them never block each other. */
  lemma NeverStuck(s: World, i: nat, toBackup: bool) returns (a: Action)
    requires Reachable(s, toBackup) && Up(s.sys.point) && i < |s.threads| && s.threads[i].rest != []
    ensures Allowed(s, a, toBackup)
    ensures a.Lock? || a.Skip? || a.Begin? || a.Statement? || a.Refresh? || a.WriteSlice? || a.ReadDS?
  {
    hide Inv, L.Inv, L.Enabled, RoundOK, ClientsOK, Runs.Reachable, Reachable, PartDone;
    ReachableSafe(s, toBackup);
    var k := L.NoDeadlock(s.threads, i);
    EnabledIn(s.threads, k);
    if k != 0 {
      a := ClientGoesOn(s, k, toBackup);
    } else if PartDone(s) {
      a := Lock(0);
    } else {
      a := MainGoesOn(s, toBackup);
    }
  }

  lemma EnabledIn(threads: seq<L.Thread>, k: int)
    requires L.Enabled(threads, k)
    ensures 0 <= k < |threads|
  {
  }
}
