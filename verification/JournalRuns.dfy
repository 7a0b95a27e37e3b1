/** What follows for every run: no unfinished job is lost or changed, none comes back, recovery can be
    interrupted at will, and a restart fails exactly after a crash at one of two points. */
module JournalRuns {
  import opened Tables
  import opened Layout
  import opened Compaction
  import opened Maintenance
  import opened Journal
  import opened JournalInvariant
  import opened JournalRecovery
  import opened JournalSteps
  import opened JournalClients

  /** A new database with its first dataset. */
  ghost predicate Init(s: System) {
    && s.disk == Disk(map[[1] := JobsTable(map[], 1)], map[[1] := []], map[], map[], [], [], map[], map[])
    && s.list == [[1]] && s.point == Idle && s.backup == Resting && s.rows == map[]
  }

  ghost predicate Run(s: System, steps: seq<Step>, toBackup: bool)
    decreases |steps|
  {
    steps == [] || (Enabled(s, steps[0], toBackup) && Run(Do(s, steps[0], toBackup), steps[1..], toBackup))
  }

  ghost function Final(s: System, steps: seq<Step>, toBackup: bool): System
    requires Run(s, steps, toBackup)
    decreases |steps|
  {
    if steps == [] then s else Final(Do(s, steps[0], toBackup), steps[1..], toBackup)
  }

  ghost predicate Reachable(s: System, toBackup: bool) {
    exists s0, steps :: Init(s0) && Run(s0, steps, toBackup) && Final(s0, steps, toBackup) == s
  }

  lemma {:induction false} RunAppend(s: System, a: seq<Step>, step: Step, toBackup: bool)
    requires Run(s, a, toBackup) && Enabled(Final(s, a, toBackup), step, toBackup)
    ensures Run(s, a + [step], toBackup) && Final(s, a + [step], toBackup) == Do(Final(s, a, toBackup), step, toBackup)
    decreases |a|
  {
    hide Enabled, Do;
    if a == [] {
      assert [step][1..] == [] && [] + [step] == [step];
      assert Run(Do(s, step, toBackup), [], toBackup);
    } else {
      assert (a + [step])[0] == a[0] && (a + [step])[1..] == a[1..] + [step];
      RunAppend(Do(s, a[0], toBackup), a[1..], step, toBackup);
    }
  }

  lemma ReachStep(s: System, step: Step, toBackup: bool)
    requires Reachable(s, toBackup) && Enabled(s, step, toBackup)
    ensures Reachable(Do(s, step, toBackup), toBackup)
  {
    hide Enabled, Do, Init;
    var s0, steps :| Init(s0) && Run(s0, steps, toBackup) && Final(s0, steps, toBackup) == s;
    RunAppend(s0, steps, step, toBackup);
  }

  lemma InitHolds(s: System, toBackup: bool)
    requires Init(s)
    ensures Inv(s, toBackup)
  {
  }

  lemma {:induction false} RunKeeps(s: System, steps: seq<Step>, toBackup: bool)
    requires Inv(s, toBackup) && Run(s, steps, toBackup)
    ensures Inv(Final(s, steps, toBackup), toBackup)
    decreases |steps|
  {
    hide Inv, Enabled, Do;
    if steps != [] {
      StepKeeps(s, steps[0], toBackup);
      RunKeeps(Do(s, steps[0], toBackup), steps[1..], toBackup);
    }
  }

  lemma ReachableInv(s: System, toBackup: bool)
    requires Reachable(s, toBackup)
    ensures Inv(s, toBackup)
  {
    hide Inv, Enabled, Do;
    var s0, steps :| Init(s0) && Run(s0, steps, toBackup) && Final(s0, steps, toBackup) == s;
    InitHolds(s0, toBackup);
    RunKeeps(s0, steps, toBackup);
  }

  // ---------- what recovery makes of the disk ----------

  lemma {:induction false} ExecKeeps(d: Disk, list: seq<Index>, script: seq<Stmt>, toBackup: bool)
    requires DiskOK(d, list, toBackup, Resting) && CoreOK(d, list) && RecoveringOK(d, script)
    ensures var e := Exec(d, script, toBackup);
      && Kept(d, e, list) && DiskOK(e, list, toBackup, Resting) && e.open == [] && e.backupOpen == []
      && (d.open == [] ==> e.jobs == d.jobs && e.statuses == d.statuses)
      && (d.open != [] ==> Only(e, list, [], []))
    decreases |script|
  {
    hide DiskOK, RecoveringOK, Only, WellFormed;
    if script == [] {
      NothingLeft(d);
    } else {
      var d' := Exec1(d, script[0], toBackup);
      StatementKeeps(d, list, script, toBackup);
      CoreSame(d, d', list);
      ListFacts(d, list);
      ExecKeeps(d', list, script[1..], toBackup);
      if d.open != [] && d'.open == [] {
        OnlySame(d', Exec(d', script[1..], toBackup), list);
      }
    }
  }

  lemma RecoveredCore(s: System, toBackup: bool)
    requires Inv(s, toBackup)
    ensures var d, e := s.disk, Recovered(s.disk, toBackup);
      && CoreOK(e, s.list) && LiveSame(e, s.list, s.rows) && Durable(e, s.list, toBackup)
      && e.open == [] && e.backupOpen == [] && Core(e, s.list) == Core(d, s.list)
      && (d.open == [] ==> e.jobs == d.jobs && e.statuses == d.statuses)
      && (d.open != [] ==> Only(e, s.list, [], []))
  {
    hide CoreOK, LiveSame, RowsBelow, Durable, OldOK, BackupOK, Core, PointOK, RecoveryScript, RecoveringOK;
    var d, list := s.disk, s.list;
    assert DiskOK(d, list, toBackup, Resting);
    StartsOK(d);
    ExecKeeps(d, list, RecoveryScript(d), toBackup);
    CoreKept(d, Recovered(d, toBackup), list, s.rows);
  }

  /** The datasets a restart would find after recovery, at whatever moment the crash comes. */
  lemma RecoveredDisk(s: System, toBackup: bool)
    requires Inv(s, toBackup)
    ensures var e := Recovered(s.disk, toBackup);
      && CoreOK(e, s.list) && LiveSame(e, s.list, s.rows) && Durable(e, s.list, toBackup)
      && e.open == [] && e.backupOpen == [] && Core(e, s.list) == Core(s.disk, s.list)
      && (Up(s.point) ==> (Only(e, s.list, [], []) <==> !Window(s.point)))
  {
    hide CoreOK, LiveSame, Durable, Core, Recovered, Inv;
    RecoveredCore(s, toBackup);
    if Up(s.point) {
      if s.disk.open == [] {
        OpenAtPoint(s, toBackup);
      } else {
        ClosedInWindow(s, toBackup);
      }
    }
  }

  lemma ClosedInWindow(s: System, toBackup: bool)
    requires Inv(s, toBackup)
    ensures Window(s.point) ==> s.disk.open == []
  {
  }

  /** Without an open entry the disk holds exactly the listed datasets, but for the two points. */
  lemma OpenAtPoint(s: System, toBackup: bool)
    requires Inv(s, toBackup) && Up(s.point) && s.disk.open == []
    ensures Only(s.disk, s.list, [], []) <==> !Window(s.point)
  {
    hide CoreOK, LiveSame, RowsBelow, Durable, OldOK, BackupOK, Core, Before, Gathered, SomeLive, Consecutive, DestOK;
    if Window(s.point) {
      DestUnlisted(s, toBackup);
      DestBounds(s.disk, s.list, s.point.x, s.point.m);
      assert s.point.x in s.disk.jobs && s.point.x !in s.list;
    }
  }

  // ---------- no unfinished job is lost, none comes back ----------

  ghost predicate HasRow(d: Disk, ds: Index, id: JobID, r: Row) {
    ds in d.jobs && ds in d.statuses && id in d.jobs[ds].rows && RowOf(Pair(d, ds), id) == r
  }

  /** Every unfinished job ever stored is in some dataset, with its payload and latest status. */
  ghost predicate NothingLost(d: Disk, rows: map<JobID, Row>) {
    forall id :: id in rows && IsLive(rows[id]) ==> exists ds :: HasRow(d, ds, id, rows[id])
  }

  /** A job that looks unfinished is unfinished. */
  ghost predicate NothingRevived(d: Disk, rows: map<JobID, Row>) {
    forall ds, id, r :: HasRow(d, ds, id, r) && IsLive(r) ==> id in rows && rows[id] == r
  }

  lemma ListedRows(d: Disk, list: seq<Index>, rows: map<JobID, Row>)
    requires CoreOK(d, list) && LiveSame(d, list, rows)
    ensures NothingLost(d, rows)
    ensures forall ds, id, r :: ds in list && HasRow(d, ds, id, r) && IsLive(r) ==> id in rows && rows[id] == r
  {
    hide Flat;
    var core := Core(d, list);
    FlatRows(core, list);
    forall id | id in rows && IsLive(rows[id]) ensures exists ds :: HasRow(d, ds, id, rows[id]) {
      assert id in LiveRows(rows) && LiveRows(rows)[id] == rows[id];
      assert id in LiveRows(Flat(core, list));
      assert InSome(core, list, id);
      var i :| At(core, list, i, id);
      assert HasRow(d, list[i], id, rows[id]);
    }
    forall ds, id, r | ds in list && HasRow(d, ds, id, r) && IsLive(r) ensures id in rows && rows[id] == r {
      var i :| 0 <= i < |list| && list[i] == ds;
      assert At(core, list, i, id);
      assert id in LiveRows(Flat(core, list)) && LiveRows(Flat(core, list))[id] == r;
      assert id in LiveRows(rows) && LiveRows(rows)[id] == r;
    }
  }

  /** The destination of an interrupted migration repeats rows of its sources. */
  lemma WindowRows(d: Disk, list: seq<Index>, rows: map<JobID, Row>, x: Index, m: int)
    requires CoreOK(d, list) && LiveSame(d, list, rows) && WindowDisk(d, list, x, m)
    ensures NothingRevived(d, rows)
  {
    hide Flat, NextIndex, Consecutive, DatasetOK;
    var core := Core(d, list);
    ListedRows(d, list, rows);
    StoreShape(core, list, d.jobs[Last(list)].next);
    CoreAt(d, list);
    forall ds, id, r | HasRow(d, ds, id, r) && IsLive(r) ensures id in rows && rows[id] == r {
      if ds !in list {
        assert ds == x && id in Pair(d, x).jobs;
        var k := GatheredAt(Pair(d, x), core, list, m, id);
        assert list[k] in list && HasRow(d, list[k], id, r);
      }
    }
  }

  /** At every moment of every run all unfinished jobs are on disk as they should be, and a crash at that moment
      followed by recovery brings none of the others back. */
  lemma NoLoss(s: System, toBackup: bool)
    requires Reachable(s, toBackup)
    ensures NothingLost(s.disk, s.rows)
    ensures NothingLost(Recovered(s.disk, toBackup), s.rows) && NothingRevived(Recovered(s.disk, toBackup), s.rows)
  {
    hide CoreOK, LiveSame, RowsBelow, OldOK, BackupOK, Core, NothingLost, WindowDisk, Recovered;
    ReachableInv(s, toBackup);
    RecoveredDisk(s, toBackup);
    ListedRows(s.disk, s.list, s.rows);
    var e := Recovered(s.disk, toBackup);
    ListedRows(e, s.list, s.rows);
    if !Only(e, s.list, [], []) {
      var x, m :| WindowDisk(e, s.list, x, m);
      WindowRows(e, s.list, s.rows, x, m);
    }
  }

  /** While nothing is under way every unfinished job is in exactly one listed dataset, with its latest status, and
      nothing else is on disk. */
  lemma AtRest(s: System, toBackup: bool)
    requires Reachable(s, toBackup) && s.point == Idle
    ensures forall ds :: ds in s.disk.jobs <==> ds in s.list
    ensures forall ds :: ds in s.disk.statuses <==> ds in s.list
    ensures CoreOK(s.disk, s.list)
    ensures var core := Core(s.disk, s.list);
      forall id :: id in s.rows && IsLive(s.rows[id]) ==>
        exists i :: At(core, s.list, i, id) && RowOf(core[s.list[i]], id) == s.rows[id] && forall j ::
          At(core, s.list, j, id) ==> j == i
  {
    hide Flat, OldOK, BackupOK, RowsBelow, Durable, Consecutive, DatasetOK;
    ReachableInv(s, toBackup);
    var core := Core(s.disk, s.list);
    FlatRows(core, s.list);
    forall id | id in s.rows && IsLive(s.rows[id])
      ensures exists i :: At(core, s.list, i, id) && RowOf(core[s.list[i]], id) == s.rows[id] && forall j ::
        At(core, s.list, j, id) ==> j == i
    {
      assert id in LiveRows(s.rows) && id in LiveRows(Flat(core, s.list)) && LiveRows(Flat(core, s.list))[id] ==
        s.rows[id];
      assert InSome(core, s.list, id);
      var i :| At(core, s.list, i, id);
      forall j | At(core, s.list, j, id) ensures j == i {
        assert j < i ==> id < id;
        assert i < j ==> id < id;
      }
    }
  }

  // ---------- crashes and restarts ----------

  ghost predicate Recovery(step: Step) {
    step == Crash || step == Recover
  }

  /** Crashing again and again while recovering changes nothing about the outcome. */
  lemma {:induction false} Interrupted(s: System, steps: seq<Step>, toBackup: bool)
    requires Inv(s, toBackup) && (s.point == Down || s.point.Recovering? || s.point == Rereading)
    requires Run(s, steps, toBackup) && forall k :: 0 <= k < |steps| ==> Recovery(steps[k])
    ensures var t := Final(s, steps, toBackup);
      && Inv(t, toBackup) && t.list == s.list && t.rows == s.rows
      && Recovered(t.disk, toBackup) == Recovered(s.disk, toBackup)
      && (t.point == Down || t.point.Recovering? || t.point == Rereading)
    decreases |steps|
  {
    hide CoreOK, LiveSame, RowsBelow, Durable, OldOK, BackupOK, RecoveryScript, Recovered, RecoveringOK;
    if steps != [] {
      var s' := Do(s, steps[0], toBackup);
      assert Recovery(steps[0]);
      StepKeeps(s, steps[0], toBackup);
      if steps[0] == Recover && s.point.Recovering? && s.point.script != [] {
        assert DiskOK(s.disk, s.list, toBackup, Resting);
        RecoveryIdempotent(s.disk, s.list, s.point.script, toBackup);
      }
      forall k | 0 <= k < |steps[1..]| ensures Recovery(steps[1..][k]) {
        assert Recovery(steps[k + 1]);
      }
      Interrupted(s', steps[1..], toBackup);
    }
  }

  lemma CrashDoes(s: System, toBackup: bool)
    ensures Enabled(s, Crash, toBackup)
    ensures var c := Do(s, Crash, toBackup); c.point == Down && c.list == s.list && c.rows == s.rows && c.disk == s.disk
  {
  }

  lemma RestartDoes(s: System, names: seq<Index>, toBackup: bool)
    requires s.point == Rereading && SortedIndices(names) && forall ds :: ds in names <==> ds in s.disk.jobs
    ensures Enabled(s, Restart(names), toBackup)
    ensures var u := Do(s, Restart(names), toBackup);
      && u.disk == s.disk && u.rows == s.rows && u.list == (if RestartOK(s.disk, names) then names else s.list)
      && u.point == if RestartOK(s.disk, names) then Idle else Stuck
  {
    hide RestartOK;
  }

  lemma NothingOpen(s: System, toBackup: bool)
    requires Inv(s, toBackup) && s.point == Rereading
    ensures s.disk.open == [] && s.disk.backupOpen == []
  {
  }

  lemma Enters(s: System, names: seq<Index>, toBackup: bool)
    requires Enabled(s, Restart(names), toBackup)
    ensures SortedIndices(names) && forall ds :: ds in names <==> ds in s.disk.jobs
  {
    hide SortedIndices;
  }

  /** A crash and a recovery, interrupted or not, that has come to its end. */
  lemma CrashedRun(s: System, steps: seq<Step>, t: System, toBackup: bool)
    requires Reachable(s, toBackup)
    requires Run(s, [Crash] + steps, toBackup) && forall k :: 0 <= k < |steps| ==> Recovery(steps[k])
    requires t == Final(s, [Crash] + steps, toBackup) && t.point == Rereading
    ensures t.disk == Recovered(s.disk, toBackup) && t.list == s.list
  {
    hide Inv, Do, Enabled, Recovered, Reachable;
    ReachableInv(s, toBackup);
    CrashDoes(s, toBackup);
    StepKeeps(s, Crash, toBackup);
    assert ([Crash] + steps)[1..] == steps && ([Crash] + steps)[0] == Crash;
    var c := Do(s, Crash, toBackup);
    Interrupted(c, steps, toBackup);
    NothingOpen(t, toBackup);
    NothingToRecover(t.disk, toBackup);
  }

  /** After a crash at any moment and a recovery interrupted any number of times, the store restarts with the same
      datasets and the same unfinished jobs, unless the crash came between ADD_DS and MIGRATE_COPY or between
      MIGRATE_COPY and POST_MIGRATE; then, and only then, an assertion on the lists fails. */
  lemma RestartIff(s: System, steps: seq<Step>, names: seq<Index>, toBackup: bool)
    requires Reachable(s, toBackup) && Up(s.point)
    requires Run(s, [Crash] + steps, toBackup) && forall k :: 0 <= k < |steps| ==> Recovery(steps[k])
    requires var t := Final(s, [Crash] + steps, toBackup); t.point == Rereading && Enabled(t, Restart(names), toBackup)
    ensures var t := Final(s, [Crash] + steps, toBackup);
      var u := Do(t, Restart(names), toBackup);
      && t.disk == Recovered(s.disk, toBackup)
      && (u.point == Idle <==> !Window(s.point)) && (u.point == Stuck <==> Window(s.point))
      && (!Window(s.point) ==> u.list == s.list && Core(u.disk, u.list) == Core(s.disk, s.list))
  {
    hide Inv, Do, Enabled, Reachable, Run, Final, CoreOK, LiveSame, Durable, Core, RestartOK, Recovered, Only;
    hide SortedIndices;
    ReachableInv(s, toBackup);
    var t := Final(s, [Crash] + steps, toBackup);
    CrashedRun(s, steps, t, toBackup);
    RecoveredDisk(s, toBackup);
    Enters(t, names, toBackup);
    RestartDoes(t, names, toBackup);
    if Window(s.point) {
      StuckInWindow(t.disk, s.list, names, toBackup);
    } else {
      RestartsWell(t.disk, s.list, names);
    }
  }

  lemma NothingToRecover(d: Disk, toBackup: bool)
    requires d.open == [] && d.backupOpen == []
    ensures Recovered(d, toBackup) == d
  {
  }

  lemma StuckInWindow(d: Disk, list: seq<Index>, names: seq<Index>, toBackup: bool)
    requires CoreOK(d, list) && Durable(d, list, toBackup) && d.open == [] && !Only(d, list, [], [])
    requires SortedIndices(names) && forall ds :: ds in names <==> ds in d.jobs
    ensures !RestartOK(d, names)
  {
    hide CoreOK, WindowDisk, RestartOK;
    var x, m :| WindowDisk(d, list, x, m);
    RestartsBadly(d, list, names, x, m);
  }

  // ---------- the journal and the statements ----------

  /** recoverFromCrash never finds two open entries of one goroutine, and no statement lacks its tables or finds
      a name taken. */
  lemma StatementsSucceed(s: System, toBackup: bool)
    requires Reachable(s, toBackup)
    ensures |s.disk.open| <= 1 && |s.disk.backupOpen| <= 1
    ensures Up(s.point) ==> SqlOK(s)
    ensures Up(s.point) ==> BackupSqlOK(s)
  {
    hide CoreOK, LiveSame, RowsBelow, Core, Before, Gathered, SomeLive, NextIndex, PostingOK;
    ReachableInv(s, toBackup);
    match s.point
    case Adding(x, goal, stage) => AddingAtWork(s, toBackup);
    case Posting(from, script) => NextRetireOK(s.disk, s.list, from, script);
    case _ =>
  }

  lemma NextRetireOK(d: Disk, list: seq<Index>, from: seq<Index>, script: seq<Stmt>)
    requires PostingOK(d, list, from, script) && OldOK(d, list)
    ensures script != [] ==> RetireOK(d, script[0])
  {
    hide Before, Retire;
    if script != [] {
      var k := |Retire(from)| - |script|;
      var i := RetireNth(from, k);
      assert script[0] == Retire(from)[k];
    }
  }

  // ---------- statements of recovery ----------

  lemma NextInScript(d: Disk, script: seq<Stmt>)
    requires RecoveringOK(d, script) && script != []
    ensures script[0] in RecoveryScript(d)
  {
  }

  lemma DropsUploaded(d: Disk, list: seq<Index>, st: Stmt)
    requires BackupOK(d, list) && st in RecoveryScript(d) && (st.DropOldStatuses? || st.DropOldJobs?) && |d.open| <= 1
    ensures UploadedBoth(d, st.x) && st.x !in d.jobs && st.x !in d.statuses
  {
    hide UploadedBoth, Before;
    if st in MainScript(d.open) {
      NoOldInMain(d.open, st);
    }
  }

  lemma NoOldInMain(open: seq<Entry>, st: Stmt)
    requires |open| <= 1 && st in MainScript(open)
    ensures !st.DropOldStatuses? && !st.DropOldJobs?
  {
    if open != [] && open[0].PostMigrate? {
      var from := open[0].from;
      if st in Retire(from) {
        var j :| 0 <= j < |Retire(from)| && Retire(from)[j] == st;
        var i := RetireNth(from, j);
      }
    }
  }
}
