/** A run with locks that leads into the middle of a migration, where a client then holds the list lock: one job, one
    round that adds a dataset and migrates the first one. */
module LockedWindows {
  import opened Tables
  import opened Migration
  import opened Compaction
  import opened Journal
  import opened JournalInvariant
  import Runs = JournalRuns
  import Windows = JournalWindows
  import opened LockedStore
  import opened LockedInvariant
  import opened LockedRound
  import opened LockedRuns
  import L = Locks

  // ---------- the check loop and one client at rest ----------

  /** `k` lock operations are left of the round, and the client has none. */
  ghost predicate Alone(s: World, k: nat, waiting: bool) {
    && Up(s.sys.point) && |s.threads| == 2 && s.threads[1] == AT_REST && s.work == [NoWork, NoWork]
    && Left(s) == k && s.threads[0].waiting == waiting && MainThread(s.threads[0])
  }

  predicate TakesForWriting(k: nat) {
    k == 8 || k == 6 || k == 5 || k == 3
  }

  lemma MainOp(t: L.Thread)
    requires MainThread(t) && t.rest != []
    ensures t.rest[0].Acquire? ==> L.Held(t, t.rest[0].lock) == L.No
    ensures (t.rest[0].Acquire? && t.rest[0].mode == L.Write) <==> TakesForWriting(|t.rest|)
    ensures t.rest[0].Acquire? && t.rest[0].mode != L.Write ==> t.rest[0].mode == L.Read
  {
    assert t.rest[0] == ROUND[10 - |t.rest|];
  }

  /** Nobody is in the way of the check loop. */
  lemma MainFree(threads: seq<L.Thread>)
    requires |threads| == 2 && threads[1] == AT_REST && MainThread(threads[0]) && threads[0].rest != []
    requires threads[0].waiting ==> TakesForWriting(|threads[0].rest|)
    ensures L.Enabled(threads, 0)
    ensures var t := L.Do(threads, 0)[0];
      && L.Do(threads, 0) == [t, AT_REST]
      && if TakesForWriting(|threads[0].rest|) && !threads[0].waiting then t == threads[0].(waiting := true)
         else t.rest == threads[0].rest[1..] && !t.waiting
  {
    hide MainThread, TakesForWriting;
    MainOp(threads[0]);
    assert L.Enabled(threads, 0);
    var s := L.Do(threads, 0);
    assert |s| == 2 && s[1] == AT_REST;
  }

  /** The next lock operation of the check loop; a writer announces itself first. */
  lemma Turn(s: World, k: nat, waiting: bool, toBackup: bool) returns (t: World)
    requires Reachable(s, toBackup) && Alone(s, k, waiting) && 0 < k && PartDone(s)
    requires waiting ==> TakesForWriting(k)
    ensures Reachable(t, toBackup) && t == s.(threads := t.threads)
    ensures if TakesForWriting(k) && !waiting then Alone(t, k, true) else Alone(t, k - 1, false)
  {
    hide Safe, Reachable, PartDone, MainThread;
    MainFree(s.threads);
    ReachNext(s, Lock(0), toBackup);
    t := Next(s, Lock(0), toBackup);
    assert t.work == s.work;
    ReachableSafe(t, toBackup);
    SafeMain(t, toBackup);
  }

  lemma SafeMain(s: World, toBackup: bool)
    requires Safe(s, toBackup) && Up(s.sys.point)
    ensures s.threads != [] && MainThread(s.threads[0])
  {
    hide Inv, L.Inv, ClientsOK, MainThread, ControlOK, PlanOK, MemOK;
  }

  /** The next statement of the check loop, outside a status copy. */
  lemma Executed(s: World, k: nat, toBackup: bool) returns (t: World)
    requires Reachable(s, toBackup) && Alone(s, k, false) && InPlace(s)
    requires s.sys.point != Idle && !(s.sys.point.Copying? && s.sys.point.half)
    ensures Enabled(s.sys, Main([]), toBackup) && t == s.(sys := Do(s.sys, Main([]), toBackup))
    ensures Reachable(t, toBackup) && Alone(t, k, false)
  {
    hide Safe, Reachable, InPlace, MainThread, Do, SqlOK, BackupSqlOK;
    ReachableSafe(s, toBackup);
    Runs.StatementsSucceed(s.sys, toBackup);
    ReachNext(s, Statement([]), toBackup);
    t := Next(s, Statement([]), toBackup);
    StaysUp(s.sys, toBackup);
  }

  lemma StaysUp(s: System, toBackup: bool)
    requires Enabled(s, Main([]), toBackup)
    ensures Up(Do(s, Main([]), toBackup).point)
  {
    hide SqlOK, MaxID, CopyJobs, CopyStatuses;
  }

  /** What was decided begins. */
  lemma Begun(s: World, k: nat, toBackup: bool) returns (t: World)
    requires Reachable(s, toBackup) && Alone(s, k, false) && MayBegin(s, toBackup)
    ensures s.plan != NoPlan && Enabled(s.sys, Planned(s.plan), toBackup)
    ensures t == s.(sys := Do(s.sys, Planned(s.plan), toBackup), plan := NoPlan)
    ensures Reachable(t, toBackup) && Alone(t, k, false)
  {
    hide Reachable, MainThread, Core, SomeLive;
    ReachNext(s, Begin, toBackup);
    t := Next(s, Begin, toBackup);
  }

  lemma SafeThere(s: World, toBackup: bool)
    requires Safe(s, toBackup)
    ensures s.sys.list != [] && AllThere(s.sys.disk, s.sys.list) && Last(s.sys.list) in s.sys.disk.jobs
  {
    hide ThreadsOK, RoundOK, ClientsOK, Inv;
    ListThere(s.sys, toBackup);
    assert Last(s.sys.list) in s.sys.list;
  }

  // ---------- the run ----------

  lemma Fresh(toBackup: bool) returns (s: World)
    ensures Reachable(s, toBackup) && Alone(s, 0, false) && s.plan == NoPlan && s.mem == s.sys.list == [[1]]
    ensures s.sys.point == Idle && s.sys.disk.jobs == map[[1] := JobsTable(map[], 1)]
    ensures s.sys.disk.statuses == map[[1] := []] && s.threads == [AT_REST, AT_REST]
  {
    s := World(System(Disk(map[[1] := JobsTable(map[], 1)], map[[1] := []], map[], map[], [], [], map[], map[]), [[1]],
        Idle, Resting, map[]), [[1]], [], [AT_REST, AT_REST], [NoWork, NoWork], NoPlan);
    assert Init(s) && Run(s, [], toBackup) && Final(s, [], toBackup) == s;
  }

  /** The client takes the list lock for a Store. */
  lemma TakenByClient(s: World, toBackup: bool) returns (t: World)
    requires Reachable(s, toBackup) && Up(s.sys.point) && |s.threads| == 2 && s.threads[1] == AT_REST
    requires s.work == [NoWork, NoWork] && s.threads[0].list == L.No && !s.threads[0].waiting
    ensures Reachable(t, toBackup) && |t.threads| == 2 && t == s.(threads := [s.threads[0], t.threads[1]])
    ensures t.threads[1] == L.Thread([L.Release(L.ListLock)], L.No, L.Read, false)
  {
    hide Reachable;
    ReachNext(s, StartClient(1, true), toBackup);
    t := Next(s, StartClient(1, true), toBackup);
    assert t.threads == [s.threads[0], AT_REST.(rest := L.STORER)];
    assert L.Enabled(t.threads, 1);
    ReachNext(t, Lock(1), toBackup);
    t := Next(t, Lock(1), toBackup);
    assert t.work == s.work;
    assert L.STORER[1..] == [L.Release(L.ListLock)];
  }

  lemma Stored(job: Job, toBackup: bool) returns (s: World)
    ensures Reachable(s, toBackup) && Alone(s, 0, false) && s.plan == NoPlan
    ensures s.sys.point == Idle && s.sys.list == s.mem == [[1]] && Windows.OneJob(s.sys.disk, job)
  {
    hide Reachable, MainThread;
    var s0 := Fresh(toBackup);
    var s1 := TakenByClient(s0, toBackup);
    ReachNext(s1, StoreJob(1, job, 0), toBackup);
    var s2 := Next(s1, StoreJob(1, job, 0), toBackup);
    assert s2.work == [NoWork, NoWork];
    assert L.Enabled(s2.threads, 1) && s2.threads[1].rest[1..] == [];
    ReachNext(s2, Lock(1), toBackup);
    s := Next(s2, Lock(1), toBackup);
    assert s.threads == [s0.threads[0], AT_REST] && s.work == [NoWork, NoWork];
  }

  /** The round has found the last dataset full and is about to add one. */
  lemma Filled(job: Job, toBackup: bool) returns (s: World)
    ensures Reachable(s, toBackup) && Alone(s, 7, false) && s.plan == NoPlan
    ensures s.sys.point == Adding([2], Append, 0) && s.sys.list == s.mem == [[1]]
    ensures Windows.OneJob(s.sys.disk, job)
  {
    hide Reachable, MainThread, Core, SomeLive;
    var s0 := Stored(job, toBackup);
    ReachNext(s0, StartRound, toBackup);
    s := Next(s0, StartRound, toBackup);
    WholeRound();
    RoundStarts(s0, s);
    s := Turn(s, 10, false, toBackup);
    s := Turn(s, 9, false, toBackup);
    assert 1 in s.sys.disk.jobs[[1]].rows;
    ReachNext(s, Decide(Extend), toBackup);
    s := Next(s, Decide(Extend), toBackup);
    s := Turn(s, 8, false, toBackup);
    s := Turn(s, 8, true, toBackup);
    s := Begun(s, 7, toBackup);
  }

  lemma RoundStarts(s: World, t: World)
    requires Alone(s, 0, false) && t == s.(threads := s.threads[0 := s.threads[0].(rest := ROUND)])
    ensures Alone(t, 10, false)
  {
    assert ROUND[0..] == ROUND;
  }

  /** Its tables are there. */
  lemma Made(job: Job, toBackup: bool) returns (s: World)
    ensures Reachable(s, toBackup) && Alone(s, 7, false) && s.plan == NoPlan
    ensures s.sys.point == Adding([2], Append, 3) && s.sys.list == s.mem == [[1]]
    ensures Windows.OneJob(s.sys.disk, job)
  {
    hide Reachable, MainThread, Enabled, MaxID, Safe;
    s := Filled(job, toBackup);
    s := Executed(s, 7, toBackup);
    s := Executed(s, 7, toBackup);
    s := Executed(s, 7, toBackup);
  }

  /** The lists are read again. */
  lemma Reread(job: Job, toBackup: bool) returns (s: World)
    ensures Reachable(s, toBackup) && Alone(s, 7, false) && s.plan == NoPlan && s.mem == [[1], [2]]
    ensures s.sys.point == Adding([2], Append, 3) && s.sys.list == [[1]] && Windows.OneJob(s.sys.disk, job)
  {
    hide Reachable, MainThread, Safe, NamesOf, ReadRanges, RestartOK, RangesOK, InPlace;
    var r := Made(job, toBackup);
    ReachableSafe(r, toBackup);
    var names := RefreshReady(r, toBackup);
    RefreshFinds(r, names, toBackup);
    ReachNext(r, Refresh(names), toBackup);
    s := Next(r, Refresh(names), toBackup);
    SameThreads(r, s, 7);
  }

  /** The round goes on to the migration. */
  lemma Extended(job: Job, toBackup: bool) returns (s: World)
    ensures Reachable(s, toBackup) && Alone(s, 5, false) && s.plan == NoPlan
    ensures s.sys.point == Idle && s.sys.list == s.mem == [[1], [2]] && Windows.OneJob(s.sys.disk, job)
  {
    hide Reachable, MainThread, Enabled, MaxID;
    s := Reread(job, toBackup);
    s := Executed(s, 7, toBackup);
    s := Executed(s, 7, toBackup);
    s := Turn(s, 7, false, toBackup);
    s := Turn(s, 6, false, toBackup);
    s := Turn(s, 6, true, toBackup);
  }

  lemma SameThreads(s: World, t: World, k: nat)
    requires Alone(s, k, false) && t.threads == s.threads && t.work == s.work && Up(t.sys.point)
    ensures Alone(t, k, false)
  {
  }

  /** The first dataset is to be migrated, and its destination is being made. */
  lemma Moved(job: Job, toBackup: bool) returns (s: World)
    ensures Reachable(s, toBackup) && Alone(s, 4, false) && s.plan == NoPlan && s.mem == s.sys.list == [[1], [2]]
    ensures s.sys.point == Adding([1, 1], Migrate(1), 0)
  {
    hide Reachable, MainThread, Core, SomeLive, MaxID, Safe, CoreOK;
    s := Extended(job, toBackup);
    Windows.OneLive(s.sys.disk, s.sys.list, job);
    ReachableSafe(s, toBackup);
    SafeThere(s, toBackup);
    assert Left(s) == 5 && !s.threads[0].waiting;
    ReachNext(s, Decide(Move(1, true)), toBackup);
    var r := Next(s, Decide(Move(1, true)), toBackup);
    SameThreads(s, r, 5);
    s := Turn(r, 5, false, toBackup);
    s := Turn(s, 5, true, toBackup);
    s := Begun(s, 4, toBackup);
  }

  /** The destination is there. */
  lemma Placed(job: Job, toBackup: bool) returns (s: World)
    ensures Reachable(s, toBackup) && Alone(s, 4, false) && s.plan == NoPlan && s.mem == s.sys.list == [[1], [2]]
    ensures s.sys.point == Added([1, 1], 1)
  {
    hide Reachable, Enabled, MaxID, Safe, MainThread;
    s := Moved(job, toBackup);
    s := Executed(s, 4, toBackup);
    s := Executed(s, 4, toBackup);
    s := Executed(s, 4, toBackup);
    s := Executed(s, 4, toBackup);
  }

  /** In the middle of the copy a client holds the list lock and may store a job. */
  lemma StoreWhileCopying(job: Job, toBackup: bool) returns (s: World)
    ensures Reachable(s, toBackup) && s.sys.point == Copying([1, 1], 1, 0, false) && |s.threads| == 2
    ensures s.threads[1].list == L.Read && Allowed(s, StoreJob(1, job, 0), toBackup)
  {
    hide Reachable, Enabled, Safe, MainThread;
    s := Placed(job, toBackup);
    s := Turn(s, 4, false, toBackup);
    s := Executed(s, 3, toBackup);
    ThirdFree(s.threads[0]);
    s := TakenByClient(s, toBackup);
    ReachableSafe(s, toBackup);
    SafeThere(s, toBackup);
  }

  lemma ThirdFree(t: L.Thread)
    requires MainThread(t) && |t.rest| == 3
    ensures t.list == L.No
  {
  }
}
