/** The two points the journal does not cover are reached by ordinary runs: one job, one append, one migration. */
module JournalWindows {
  import opened Tables
  import opened Layout
  import opened Migration
  import opened Compaction
  import opened Journal
  import opened JournalInvariant
  import opened JournalClients
  import opened JournalRuns

  /** Outside a status copy the next statement needs no choice. */
  lemma NextStatement(s: System, toBackup: bool) returns (t: System)
    requires Reachable(s, toBackup) && Up(s.point) && s.point != Idle && !(s.point.Copying? && s.point.half)
    ensures Enabled(s, Main([]), toBackup) && t == Do(s, Main([]), toBackup) && Reachable(t, toBackup)
  {
    hide SqlOK, BackupSqlOK, Do;
    StatementsSucceed(s, toBackup);
    ReachStep(s, Main([]), toBackup);
    t := Do(s, Main([]), toBackup);
  }

  /** Dataset 1 holds the one job there is, unprocessed. */
  ghost predicate OneJob(d: Disk, job: Job) {
    [1] in d.jobs && d.jobs[[1]].rows == map[1 := job] && [1] in d.statuses && d.statuses[[1]] == []
  }

  lemma Started(job: Job, toBackup: bool) returns (s: System)
    ensures Reachable(s, toBackup) && s.point == Idle && s.list == [[1]] && OneJob(s.disk, job)
  {
    var s0 := System(Disk(map[[1] := JobsTable(map[], 1)], map[[1] := []], map[], map[], [], [], map[], map[]), [[1]],
        Idle, Resting, map[]);
    assert Init(s0) && Run(s0, [], toBackup) && Final(s0, [], toBackup) == s0;
    assert Reachable(s0, toBackup);
    ReachStep(s0, Store(job, 0), toBackup);
    s := Do(s0, Store(job, 0), toBackup);
  }

  lemma Full(job: Job, toBackup: bool) returns (s: System)
    ensures Reachable(s, toBackup) && s.point == Adding([2], Append, 0) && s.list == [[1]] && OneJob(s.disk, job)
  {
    hide Reachable, MaxID, SomeLive, Core;
    var s0 := Started(job, toBackup);
    assert 1 in s0.disk.jobs[[1]].rows;
    ReachStep(s0, BeginAppend, toBackup);
    s := Do(s0, BeginAppend, toBackup);
  }

  lemma Appended(job: Job, toBackup: bool) returns (s: System)
    ensures Reachable(s, toBackup) && s.point == Idle && s.list == [[1], [2]] && OneJob(s.disk, job)
  {
    hide Reachable, MaxID, SomeLive, Core, Enabled;
    s := Full(job, toBackup);
    s := NextStatement(s, toBackup);
    s := NextStatement(s, toBackup);
    s := NextStatement(s, toBackup);
    s := NextStatement(s, toBackup);
    assert s.point == Adding([2], Append, 4) && OneJob(s.disk, job);
    s := NextStatement(s, toBackup);
  }

  lemma OneLive(d: Disk, list: seq<Index>, job: Job)
    requires OneJob(d, job) && list == [[1], [2]]
    ensures SomeLive(Core(d, list), list, 1)
  {
    var core := Core(d, list);
    assert At(core, list, 0, 1) && IsLive(RowOf(core[list[0]], 1));
  }

  lemma Chosen(s: System, toBackup: bool) returns (t: System)
    requires Reachable(s, toBackup) && s.point == Idle && s.list == [[1], [2]]
    requires SomeLive(Core(s.disk, s.list), s.list, 1)
    ensures Reachable(t, toBackup) && t.point == Adding([1, 1], Migrate(1), 0) && t.list == s.list && t.disk == s.disk
  {
    hide Reachable, SomeLive, Core, CoreOK;
    AtRest(s, toBackup);
    ThereAtRest(s.disk, s.list);
    ReachStep(s, BeginMigrate(1, true), toBackup);
    t := Do(s, BeginMigrate(1, true), toBackup);
  }

  lemma ThereAtRest(d: Disk, list: seq<Index>)
    requires CoreOK(d, list)
    ensures AllThere(d, list)
  {
  }

  /** A crash right here leaves an empty dataset in the middle of the list. */
  lemma AddedReached(job: Job, toBackup: bool) returns (s: System)
    ensures Reachable(s, toBackup) && s.point == Added([1, 1], 1) && s.list == [[1], [2]] && OneJob(s.disk, job)
  {
    hide Reachable, SomeLive, Core;
    s := Appended(job, toBackup);
    OneLive(s.disk, s.list, job);
    s := Chosen(s, toBackup);
    s := Created(s, job, toBackup);
  }

  lemma Created(s0: System, job: Job, toBackup: bool) returns (s: System)
    requires Reachable(s0, toBackup) && s0.point == Adding([1, 1], Migrate(1), 0) && s0.list == [[1], [2]]
    requires OneJob(s0.disk, job)
    ensures Reachable(s, toBackup) && s.point == Added([1, 1], 1) && s.list == [[1], [2]] && OneJob(s.disk, job)
  {
    hide Reachable, MaxID, SomeLive, Core;
    s := NextStatement(s0, toBackup);
    s := NextStatement(s, toBackup);
    s := NextStatement(s, toBackup);
    s := NextStatement(s, toBackup);
  }

  /** A crash right here leaves the job in two datasets whose ranges overlap. */
  lemma CopiedReached(job: Job, toBackup: bool) returns (s: System)
    ensures Reachable(s, toBackup) && s.point == Copied([1, 1], 1)
  {
    hide Reachable, MaxID, SomeLive, Core, CopyJobs, CopyStatuses;
    s := AddedReached(job, toBackup);
    s := NextStatement(s, toBackup);
    s := NextStatement(s, toBackup);
    assert s.point == Copying([1, 1], 1, 0, true) && OneJob(s.disk, job);
    NothingToRetry(Pair(s.disk, [1]));
    StatementsSucceed(s, toBackup);
    ReachStep(s, Main([]), toBackup);
    s := Do(s, Main([]), toBackup);
    s := NextStatement(s, toBackup);
  }

  lemma NothingToRetry(d: Dataset)
    requires d.statuses == []
    ensures RetryIds(d, [])
  {
  }

  // ---------- what a crash there leads to ----------

  /** Recovery, left alone, comes to its end. */
  lemma {:induction false} RecoverAll(s: System, toBackup: bool) returns (steps: seq<Step>)
    requires s.point == Down || s.point.Recovering?
    ensures (forall k :: 0 <= k < |steps| ==> steps[k] == Recover)
    ensures Run(s, steps, toBackup) && Final(s, steps, toBackup).point == Rereading
    decreases if s.point == Down then 1 else 0, if s.point.Recovering? then |s.point.script| else 0
  {
    hide Exec1, RecoveryScript;
    var s' := Do(s, Recover, toBackup);
    var rest := [];
    if s'.point == Rereading {
      assert Run(s', rest, toBackup) && Final(s', rest, toBackup) == s';
    } else {
      rest := RecoverAll(s', toBackup);
    }
    steps := [Recover] + rest;
    assert steps[1..] == rest;
  }

  lemma {:induction false} RunReaches(s: System, steps: seq<Step>, toBackup: bool)
    requires Reachable(s, toBackup) && Run(s, steps, toBackup)
    ensures Reachable(Final(s, steps, toBackup), toBackup)
    decreases |steps|
  {
    hide Enabled, Do, Reachable;
    if steps != [] {
      ReachStep(s, steps[0], toBackup);
      RunReaches(Do(s, steps[0], toBackup), steps[1..], toBackup);
    }
  }

  /** The names a restart would find. */
  lemma WindowTables(s: System, e: Disk, toBackup: bool) returns (names: seq<Index>)
    requires Inv(s, toBackup) && Window(s.point) && e.jobs == s.disk.jobs
    ensures SortedIndices(names) && forall ds :: ds in names <==> ds in e.jobs
  {
    hide LiveSame, RowsBelow, OldOK, BackupOK, BackupPointOK, Durable, CoreOK, SomeLive, Gathered, Core, Consecutive;
    hide NextIndex, SortedIndices;
    var x, m := s.point.x, s.point.m;
    DestBounds(s.disk, s.list, x, m);
    ListFacts(s.disk, s.list);
    InsertedSorted(s.list, x, m);
    InsertedHas(s.list, x, m);
    names := s.list[..m] + [x] + s.list[m..];
  }

  lemma OpenInWindow(s: System, toBackup: bool)
    requires Inv(s, toBackup) && Window(s.point)
    ensures s.disk.open == []
  {
  }

  /** A crash and a whole recovery. */
  lemma CrashAndRecover(s: System, toBackup: bool) returns (steps: seq<Step>, u: System)
    requires Reachable(s, toBackup) && Window(s.point)
    ensures (forall k :: 0 <= k < |steps| ==> steps[k] == Recover)
    ensures Run(s, [Crash] + steps, toBackup) && Final(s, [Crash] + steps, toBackup) == u && Reachable(u, toBackup)
    ensures u.point == Rereading && u.list == s.list && u.rows == s.rows
    ensures u.disk == Recovered(s.disk, toBackup) && u.disk.jobs == s.disk.jobs
  {
    hide Inv, Reachable, Recovered, Do, Enabled, Core, CoreOK, LiveSame, Durable, Only;
    ReachableInv(s, toBackup);
    OpenInWindow(s, toBackup);
    CrashDoes(s, toBackup);
    StepKeeps(s, Crash, toBackup);
    var c := Do(s, Crash, toBackup);
    steps := RecoverAll(c, toBackup);
    assert ([Crash] + steps)[0] == Crash && ([Crash] + steps)[1..] == steps;
    Interrupted(c, steps, toBackup);
    RunReaches(s, [Crash] + steps, toBackup);
    u := Final(s, [Crash] + steps, toBackup);
    NothingOpen(u, toBackup);
    NothingToRecover(u.disk, toBackup);
    RecoveredCore(s, toBackup);
  }

  /** From either of the two points a crash, a whole recovery and a restart lead to the failed assertion. */
  lemma StuckReached(s: System, toBackup: bool) returns (t: System)
    requires Reachable(s, toBackup) && Window(s.point)
    ensures Reachable(t, toBackup) && t.point == Stuck && t.list == s.list && t.rows == s.rows
    ensures t.disk == Recovered(s.disk, toBackup)
  {
    hide Inv, Reachable, Recovered, Core, Do, Enabled, Run, Final;
    ReachableInv(s, toBackup);
    var steps, u := CrashAndRecover(s, toBackup);
    var names := WindowTables(s, u.disk, toBackup);
    RestartDoes(u, names, toBackup);
    RestartIff(s, steps, names, toBackup);
    ReachStep(u, Restart(names), toBackup);
    t := Do(u, Restart(names), toBackup);
  }
}
