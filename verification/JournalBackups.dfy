/** With backups on, whatever leaves the list of datasets is still on disk or has been uploaded, with the contents it
    had when it left. */
module JournalBackups {
  import opened Tables
  import opened Layout
  import opened Compaction
  import opened Migration
  import opened Journal
  import opened JournalInvariant
  import opened JournalRecovery
  import opened JournalSteps
  import opened JournalClients
  import opened JournalRuns

  datatype Contents = Contents(jobs: JobsTable, statuses: seq<Status>)

  /** What a step takes off the list. */
  ghost function Leaving(s: System, s': System): map<Index, Contents> {
    map x | x in s.list && x !in s'.list && x in s.disk.jobs && x in s.disk.statuses ::
      Contents(s.disk.jobs[x], s.disk.statuses[x])
  }

  /** All that has left the list in a run, as it was then. */
  ghost function Left(s: System, steps: seq<Step>, gone: map<Index, Contents>): map<Index, Contents>
    requires Run(s, steps, true)
    decreases |steps|
  {
    if steps == [] then gone
    else var s' := Do(s, steps[0], true); Left(s', steps[1..], gone + Leaving(s, s'))
  }

  /** Whatever is still there of a dataset, under its own name or the new one, is as it was. */
  ghost predicate AsItWas(d: Disk, x: Index, c: Contents) {
    && (x in d.jobs ==> d.jobs[x] == c.jobs) && (x in d.oldJobs ==> d.oldJobs[x] == c.jobs)
    && (x in d.statuses ==> d.statuses[x] == c.statuses) && (x in d.oldStatuses ==> d.oldStatuses[x] == c.statuses)
  }

  ghost predicate TableGone(d: Disk, x: Index) {
    (x !in d.jobs && x !in d.oldJobs) || (x !in d.statuses && x !in d.oldStatuses)
  }

  ghost predicate BothUploaded(d: Disk, x: Index, c: Contents) {
    x in d.upJobs && d.upJobs[x] == c.jobs && x in d.upStatuses && d.upStatuses[x] == c.statuses
  }

  ghost predicate KeptAs(d: Disk, x: Index, c: Contents) {
    AsItWas(d, x, c) && (TableGone(d, x) ==> BothUploaded(d, x, c)) && !Unfinished(d, x)
  }

  ghost predicate GoneOK(s: System, gone: map<Index, Contents>) {
    s.list != [] && forall x :: x in gone ==> Before(x, s.list[0]) && KeptAs(s.disk, x, gone[x])
  }

  // ---------- a dataset that has left the list ----------

  ghost predicate SameAt(d: Disk, d': Disk, x: Index) {
    && (x in d.jobs <==> x in d'.jobs) && (x in d.jobs ==> d'.jobs[x] == d.jobs[x])
    && (x in d.statuses <==> x in d'.statuses) && (x in d.statuses ==> d'.statuses[x] == d.statuses[x])
    && d'.oldJobs == d.oldJobs && d'.oldStatuses == d.oldStatuses && d'.upJobs == d.upJobs
      && d'.upStatuses == d.upStatuses
  }

  lemma SameKept(d: Disk, d': Disk, x: Index, c: Contents)
    requires KeptAs(d, x, c) && SameAt(d, d', x) && !Unfinished(d', x)
    ensures KeptAs(d', x, c)
  {
  }

  lemma NotListed(s: System, x: Index)
    requires CoreOK(s.disk, s.list) && Before(x, s.list[0])
    ensures x !in s.list
  {
    hide CoreOK;
    ListFacts(s.disk, s.list);
  }

  lemma ClientsLeave(s: System, step: Step, x: Index)
    requires (step.Store? || step.Update?) && Enabled(s, step, true) && x !in s.list
    ensures var s' := Do(s, step, true); SameAt(s.disk, s'.disk, x) && s'.list == s.list && s'.disk.open == s.disk.open
  {
  }

  lemma WorkedAt(d: Disk, d': Disk, y: Index, x: Index)
    requires OnlyAt(d, d', y) && x != y
    ensures SameAt(d, d', x)
  {
  }

  /** Statements before deleting begins work on an index that was never used before. */
  lemma WorkLeaves(s: System, ids: seq<JobID>, x: Index)
    requires Inv(s, true) && Enabled(s, Main(ids), true) && (s.point.Adding? || s.point.Added? || s.point.Copying?)
    requires Before(x, s.list[0]) && !Unfinished(s.disk, x)
    ensures var s' := Do(s, Main(ids), true);
      SameAt(s.disk, s'.disk, x) && s'.list != [] && s'.list[0] == s.list[0] && !Unfinished(s'.disk, x)
  {
    hide Inv, Do, Enabled, OnlyAt, SameAt, Unfinished, Before;
    ListNotEmpty(s);
    NeverUsed(s, x);
    WorksAt(s, ids, true);
    StatementPoint(s, ids, true);
    WorkedAt(s.disk, Do(s, Main(ids), true).disk, s.point.x, x);
    WorkOpens(s, ids, x);
  }

  lemma ListNotEmpty(s: System)
    requires Inv(s, true)
    ensures s.list != []
  {
    hide LiveSame, RowsBelow, BackupOK, BackupPointOK, PointOK, Durable, CoreOK;
  }

  lemma NeverUsed(s: System, x: Index)
    requires Inv(s, true) && (s.point.Adding? || s.point.Added? || s.point.Copying?) && s.list != []
    requires Before(x, s.list[0])
    ensures x != s.point.x
  {
    hide CoreOK, LiveSame, RowsBelow, OldOK, BackupOK, BackupPointOK, Durable, Before;
    NewIndexFree(s.disk, s.list, s.point.x, if s.point.Adding? then s.point.goal else Migrate(s.point.m));
  }

  /** The journal entry after a statement. */
  lemma AddingOpens(s: System, ids: seq<JobID>)
    requires Enabled(s, Main(ids), true) && s.point.Adding?
    ensures var o, o' := s.disk.open, Do(s, Main(ids), true).disk.open;
      o' == o || o' == [] || o' == o + [AddDS(s.point.x)]
  {
    hide MaxID, Retire, Exec1, AllThere, Core, SqlOK, StartPosting, StoreIn, WriteTo, BackupStep, RecoveryScript;
    hide RestartOK;
    var e := s.disk.open + [AddDS(s.point.x)];
    var o' := Do(s, Main(ids), true).disk.open;
    if s.point.stage == 0 {
      assert o' == e;
    } else if s.point.stage < 3 || (s.point.stage == 3 && s.point.goal.Append?) {
      assert o' == s.disk.open;
    } else {
      assert o' == [];
    }
  }

  lemma CopyingOpens(s: System, ids: seq<JobID>)
    requires Enabled(s, Main(ids), true) && s.point.Copying?
    ensures var o, o' := s.disk.open, Do(s, Main(ids), true).disk.open; o' == o || o' == []
  {
    hide CopyJobs, CopyStatuses, RetryIds, Retire, AllThere, Core;
    var o' := Do(s, Main(ids), true).disk.open;
    if s.point.half || s.point.k < s.point.m {
      assert o' == s.disk.open;
    } else {
      assert o' == [];
    }
  }

  lemma AddedOpens(s: System, ids: seq<JobID>)
    requires Enabled(s, Main(ids), true) && s.point.Added?
    ensures s.point.m <= |s.list|
    ensures Do(s, Main(ids), true).disk.open == s.disk.open + [MigrateCopy(s.list[..s.point.m], s.point.x)]
  {
    hide Retire, Exec1, AllThere, Core;
  }

  /** The only dataset an entry calls unfinished is the one under construction. */
  lemma WorkOpens(s: System, ids: seq<JobID>, x: Index)
    requires Enabled(s, Main(ids), true) && (s.point.Adding? || s.point.Added? || s.point.Copying?)
    requires !Unfinished(s.disk, x) && x != s.point.x
    ensures !Unfinished(Do(s, Main(ids), true).disk, x)
  {
    hide Enabled, Do, Unfinished;
    if s.point.Adding? {
      AddingOpens(s, ids);
    } else if s.point.Added? {
      AddedOpens(s, ids);
    } else {
      CopyingOpens(s, ids);
    }
    var d, d', y := s.disk, Do(s, Main(ids), true).disk, s.point.x;
    if d'.open == d.open {
      ClientsOpen(d, d', x);
    } else if d'.open == [] {
      NothingOpen(d', x);
    } else if s.point.Adding? {
      OneMoreOpen(d, d', AddDS(y), y, x);
    } else {
      OneMoreOpen(d, d', MigrateCopy(s.list[..s.point.m], y), y, x);
    }
  }

  lemma ClientsOpen(d: Disk, d': Disk, x: Index)
    requires d'.open == d.open
    ensures Unfinished(d', x) == Unfinished(d, x)
  {
  }

  lemma NothingOpen(d: Disk, x: Index)
    requires d.open == []
    ensures !Unfinished(d, x)
  {
  }

  lemma OneMoreOpen(d: Disk, d': Disk, e: Entry, y: Index, x: Index)
    requires d'.open == d.open + [e] && (e == AddDS(y) || (e.MigrateCopy? && e.to == y)) && x != y
    ensures !Unfinished(d', x)
  {
    assert d'.open[|d.open|] == e;
    if |d'.open| == 1 {
      assert d'.open[0] == e;
    }
  }

  lemma RetireLeaves(d: Disk, st: Stmt, x: Index, c: Contents)
    requires KeptAs(d, x, c) && (st.RetireStatuses? || st.RetireJobs?)
    ensures KeptAs(Exec1(d, st, true), x, c)
  {
  }

  lemma DropLeaves(d: Disk, st: Stmt, x: Index, c: Contents)
    requires KeptAs(d, x, c) && (st.DropStatuses? || st.DropJobs?) && Unfinished(d, st.x)
    ensures KeptAs(Exec1(d, st, true), x, c)
  {
  }

  lemma DropOldLeaves(d: Disk, st: Stmt, x: Index, c: Contents)
    requires KeptAs(d, x, c) && (st.DropOldStatuses? || st.DropOldJobs?)
    requires UploadedBoth(d, st.x) && st.x !in d.jobs && st.x !in d.statuses
    ensures KeptAs(Exec1(d, st, true), x, c)
  {
  }

  lemma CloseLeaves(d: Disk, st: Stmt, x: Index, c: Contents)
    requires KeptAs(d, x, c) && (st.Close? || st.CloseBackup?)
    ensures KeptAs(Exec1(d, st, true), x, c)
  {
  }

  lemma DropsUnfinished(d: Disk, st: Stmt)
    requires |d.open| <= 1 && st in RecoveryScript(d) && (st.DropStatuses? || st.DropJobs?)
    ensures Unfinished(d, st.x)
  {
    if d.open != [] && d.open[0].PostMigrate? {
      var from := d.open[0].from;
      if st in Retire(from) {
        var j :| 0 <= j < |Retire(from)| && Retire(from)[j] == st;
        var i := RetireNth(from, j);
      }
    }
  }

  lemma RecoverLeaves(s: System, x: Index, c: Contents)
    requires Inv(s, true) && s.point.Recovering? && s.point.script != [] && KeptAs(s.disk, x, c)
    ensures KeptAs(Exec1(s.disk, s.point.script[0], true), x, c)
  {
    hide CoreOK, LiveSame, RowsBelow, OldOK, BackupOK, BackupPointOK, KeptAs, Exec1, RecoveryScript, UploadedBoth;
    hide Unfinished;
    var d, st := s.disk, s.point.script[0];
    NextInScript(d, s.point.script);
    if st.RetireStatuses? || st.RetireJobs? {
      RetireLeaves(d, st, x, c);
    } else if st.DropStatuses? || st.DropJobs? {
      DropsUnfinished(d, st);
      DropLeaves(d, st, x, c);
    } else if st.DropOldStatuses? || st.DropOldJobs? {
      DropsUploaded(d, s.list, st);
      DropOldLeaves(d, st, x, c);
    } else {
      CloseLeaves(d, st, x, c);
    }
  }

  lemma UploadLeaves(d: Disk, list: seq<Index>, y: Index, x: Index, c: Contents)
    requires OldOK(d, list) && y in d.oldJobs && y in d.oldStatuses && KeptAs(d, x, c)
    ensures KeptAs(d.(upJobs := d.upJobs[y := d.oldJobs[y]]), x, c)
    ensures KeptAs(d.(upStatuses := d.upStatuses[y := d.oldStatuses[y]]), x, c)
  {
    hide Before;
  }

  lemma BackupEntry(d: Disk, open: seq<Entry>, x: Index, c: Contents)
    requires KeptAs(d, x, c)
    ensures KeptAs(d.(backupOpen := open), x, c)
  {
  }

  lemma DroppingLeaves(d: Disk, y: Index, x: Index, c: Contents)
    requires UploadedBoth(d, y) && y !in d.jobs && y !in d.statuses && KeptAs(d, x, c)
    ensures KeptAs(d.(oldStatuses := d.oldStatuses - {y}), x, c) && KeptAs(d.(oldJobs := d.oldJobs - {y}), x, c)
  {
  }

  lemma BackupLeaves(s: System, x: Index, c: Contents)
    requires Inv(s, true) && Enabled(s, Backup, true) && KeptAs(s.disk, x, c)
    ensures KeptAs(Do(s, Backup, true).disk, x, c)
  {
    hide CoreOK, LiveSame, RowsBelow, PointOK, Durable, OldOK, KeptAs, UploadedBoth;
    BackupEntry(s.disk, Do(s, Backup, true).disk.backupOpen, x, c);
    match s.backup
    case Uploading(y, n) => UploadLeaves(s.disk, s.list, y, x, c);
    case Dropping(y, n) => DroppingLeaves(s.disk, y, x, c);
    case _ =>
  }

  // ---------- every step ----------

  lemma MainLeaves(s: System, ids: seq<JobID>, x: Index, c: Contents)
    requires Inv(s, true) && Enabled(s, Main(ids), true)
    requires s.list != [] && Before(x, s.list[0]) && KeptAs(s.disk, x, c)
    ensures var s' := Do(s, Main(ids), true); s'.list != [] && Before(x, s'.list[0]) && KeptAs(s'.disk, x, c)
  {
    hide Inv, Do, Enabled, KeptAs, Before, SameAt, Unfinished, OldOK;
    assert !Unfinished(s.disk, x) by { NotUnfinished(s.disk, x, c); }
    var s' := Do(s, Main(ids), true);
    StatementPoint(s, ids, true);
    match s.point
    case Copied(_, m) =>
      CopiedFacts(s);
      MovedOn(s, m, [s.point.x], x, c);
    case Posting(from, script) => PostingLeaves(s, ids, x, c);
    case _ =>
      WorkLeaves(s, ids, x);
      SameKept(s.disk, s'.disk, x, c);
  }

  lemma CopiedFacts(s: System)
    requires Inv(s, true) && s.point.Copied? && s.list != []
    ensures 0 < s.point.m < |s.list| && Consecutive(s.list) && RoundHead(s.list, s.point.m, [s.point.x])
    ensures s.disk.open == []
    ensures OldOK(s.disk, s.list)
  {
    hide CoreOK, LiveSame, RowsBelow, OldOK, BackupOK, BackupPointOK, Durable, Gathered, SomeLive, Core, Consecutive;
    AtDest(s, true);
    DestBounds(s.disk, s.list, s.point.x, s.point.m);
    Levels(s.disk, s.list, s.point.m);
  }

  lemma Levels(d: Disk, list: seq<Index>, m: nat)
    requires CoreOK(d, list) && 0 < m < |list|
    ensures Consecutive(list) && 1 <= |list[m - 1]| <= 2
  {
    hide IdsAscend, DatasetOK, IdsBelow;
    ListFacts(d, list);
  }

  lemma NotUnfinished(d: Disk, x: Index, c: Contents)
    requires KeptAs(d, x, c)
    ensures !Unfinished(d, x)
  {
  }

  lemma PostingLeaves(s: System, ids: seq<JobID>, x: Index, c: Contents)
    requires Enabled(s, Main(ids), true) && s.point.Posting? && KeptAs(s.disk, x, c)
    ensures KeptAs(Do(s, Main(ids), true).disk, x, c)
  {
    hide KeptAs, Retire, Exec1, Core;
    if s.point.script == [] {
      assert Exec1(s.disk, Close, true) == s.disk.(open := []) by { ClosedMain(s.disk); }
      CloseLeaves(s.disk, Close, x, c);
    } else {
      RetireLeaves(s.disk, s.point.script[0], x, c);
    }
  }

  lemma ClosedMain(d: Disk)
    ensures Exec1(d, Close, true) == d.(open := [])
  {
  }

  /** The first datasets leave the list as they are; those that left before lie further back still. */
  lemma MovedOn(s: System, m: nat, head: seq<Index>, x: Index, c: Contents)
    requires 0 < m < |s.list| && Consecutive(s.list) && RoundHead(s.list, m, head) && s.disk.open == []
    requires OldOK(s.disk, s.list)
    requires (Before(x, s.list[0]) && KeptAs(s.disk, x, c)) ||
      (x in s.list[..m] && x in s.disk.jobs && x in s.disk.statuses &&
       c == Contents(s.disk.jobs[x], s.disk.statuses[x]))
    ensures var s' := StartPosting(s, m, head); s'.list != [] && Before(x, s'.list[0]) && KeptAs(s'.disk, x, c)
  {
    hide Before, NextIndex, Consecutive, Retire;
    BeforeNewList(s.list, m, head, x);
    assert StartPosting(s, m, head).disk.open == [PostMigrate(s.list[..m])];
  }

  lemma MigrateFacts(s: System, m: nat, live: bool)
    requires Inv(s, true) && Enabled(s, BeginMigrate(m, live), true)
    ensures 0 < m < |s.list| && Consecutive(s.list) && RoundHead(s.list, m, []) && s.disk.open == []
    ensures OldOK(s.disk, s.list)
  {
    hide LiveSame, RowsBelow, OldOK, BackupOK, BackupPointOK, Durable, CoreOK, Core, Consecutive, SomeLive, Only;
    Levels(s.disk, s.list, m);
  }

  /** The disk is as before, or as one statement of recovery makes it. */
  lemma RecoverDoes(s: System)
    requires Enabled(s, Recover, true)
    ensures var s' := Do(s, Recover, true);
      && s'.list == s.list
      && if s.point.Recovering?
        && s.point.script != [] then s'.disk == Exec1(s.disk, s.point.script[0], true) else s'.disk == s.disk
  {
    hide RecoveryScript, Exec1;
  }

  lemma RestartDoes(s: System, names: seq<Index>)
    requires Inv(s, true) && Enabled(s, Restart(names), true)
    ensures var s' := Do(s, Restart(names), true); s'.disk == s.disk && s'.list == s.list
  {
    hide LiveSame, RowsBelow, OldOK, BackupOK, BackupPointOK, CoreOK, Before, RestartOK, WindowDisk, Only;
    if Only(s.disk, s.list, [], []) {
      RestartsWell(s.disk, s.list, names);
    } else {
      var x, m :| WindowDisk(s.disk, s.list, x, m);
      RestartsBadly(s.disk, s.list, names, x, m);
    }
  }

  lemma StepLeaves(s: System, step: Step, x: Index, c: Contents)
    requires Inv(s, true) && Enabled(s, step, true)
    requires s.list != [] && Before(x, s.list[0]) && KeptAs(s.disk, x, c)
    ensures var s' := Do(s, step, true); s'.list != [] && Before(x, s'.list[0]) && KeptAs(s'.disk, x, c)
  {
    hide Inv, Do, Enabled, KeptAs, Before, SameAt, Unfinished, Exec1, OldOK;
    match step
    case Main(ids) => MainLeaves(s, ids, x, c);
    case Recover =>
      RecoverDoes(s);
      if s.point.Recovering? && s.point.script != [] {
        RecoverLeaves(s, x, c);
      }
    case Restart(names) => RestartDoes(s, names);
    case Backup =>
      BackupLeaves(s, x, c);
      QuietSteps(s, step);
    case BeginMigrate(m, live) =>
      MigrateFacts(s, m, live);
      BeginDoes(s, m, live);
      if !live {
        MovedOn(s, m, [], x, c);
      }
    case BeginBackup(y) =>
      QuietSteps(s, step);
      BackupEntry(s.disk, Do(s, step, true).disk.backupOpen, x, c);
    case BeginAppend => QuietSteps(s, step);
    case Crash => QuietSteps(s, step);
    case _ =>
      ListSound(s);
      NotListed(s, x);
      NotUnfinished(s.disk, x, c);
      ClientsLeave(s, step, x);
      ClientsOpen(s.disk, Do(s, step, true).disk, x);
      SameKept(s.disk, Do(s, step, true).disk, x, c);
  }

  lemma ListSound(s: System)
    requires Inv(s, true)
    ensures CoreOK(s.disk, s.list)
  {
  }

  lemma BeginDoes(s: System, m: nat, live: bool)
    requires Enabled(s, BeginMigrate(m, live), true)
    ensures var s' := Do(s, BeginMigrate(m, live), true);
      if live then s'.disk == s.disk && s'.list == s.list else s' == StartPosting(s, m, [])
  {
    hide SomeLive, Core;
  }

  lemma QuietSteps(s: System, step: Step)
    requires Enabled(s, step, true) && (step.Backup? || step.BeginBackup? || step.BeginAppend? || step.Crash?)
    ensures var s' := Do(s, step, true);
      && s'.list == s.list
      && (step.BeginAppend? || step.Crash? ==> s'.disk == s.disk)
      && (step.BeginBackup? ==> s'.disk == s.disk.(backupOpen := s'.disk.backupOpen))
  {
    hide BackupSqlOK, Core, NextIndex;
    if step.Backup? {
      BackupList(s);
    }
  }

  lemma BackupList(s: System)
    requires s.backup != Resting && BackupSqlOK(s)
    ensures BackupStep(s).list == s.list
  {
  }

  // ---------- runs ----------

  /** Only the first datasets of a round leave the list. */
  lemma LeavesBy(s: System, step: Step, x: Index)
    requires Inv(s, true) && Enabled(s, step, true) && x in s.list && x !in Do(s, step, true).list
    ensures (step.Main? && s.point.Copied?) || (step.BeginMigrate? && !step.live)
  {
    hide Inv, Do, Enabled;
    match step
    case Main(ids) => StatementPoint(s, ids, true);
    case Recover => RecoverDoes(s);
    case Restart(names) => RestartDoes(s, names);
    case BeginMigrate(m, live) => BeginDoes(s, m, live);
    case Store(_, _) => ClientsList(s, step);
    case Update(_, _) => ClientsList(s, step);
    case _ => QuietSteps(s, step);
  }

  lemma ClientsList(s: System, step: Step)
    requires (step.Store? || step.Update?) && Enabled(s, step, true)
    ensures Do(s, step, true).list == s.list
  {
  }

  lemma InFront(list: seq<Index>, m: nat, head: seq<Index>, x: Index)
    requires m <= |list| && x in list && x !in head + list[m..]
    ensures x in list[..m]
  {
    assert list == list[..m] + list[m..];
  }

  /** What a step takes off the list it leaves in place. */
  lemma LeavingKept(s: System, step: Step, x: Index)
    requires Inv(s, true) && Enabled(s, step, true) && x in Leaving(s, Do(s, step, true))
    ensures var s' := Do(s, step, true); s'.list != [] && Before(x, s'.list[0]) && KeptAs(s'.disk, x, Leaving(s, s')[x])
  {
    hide Inv, Do, Enabled, KeptAs, Before, Retire, Consecutive, RoundHead, NextIndex, OldOK;
    LeavesBy(s, step, x);
    ListNotEmpty(s);
    var c := Contents(s.disk.jobs[x], s.disk.statuses[x]);
    match step
    case Main(ids) =>
      StatementPoint(s, ids, true);
      CopiedFacts(s);
      InFront(s.list, s.point.m, [s.point.x], x);
      MovedOn(s, s.point.m, [s.point.x], x, c);
    case BeginMigrate(m, live) =>
      BeginDoes(s, m, live);
      MigrateFacts(s, m, live);
      InFront(s.list, m, [], x);
      MovedOn(s, m, [], x, c);
    case _ =>
  }

  lemma GoneKeeps(s: System, step: Step, gone: map<Index, Contents>)
    requires Inv(s, true) && Enabled(s, step, true) && GoneOK(s, gone)
    ensures var s' := Do(s, step, true); GoneOK(s', gone + Leaving(s, s'))
  {
    hide Inv, Do, Enabled, KeptAs, Before, Leaving;
    var s' := Do(s, step, true);
    StepKeeps(s, step, true);
    ListNotEmpty(s');
    var all := gone + Leaving(s, s');
    forall x | x in all ensures Before(x, s'.list[0]) && KeptAs(s'.disk, x, all[x]) {
      if x in Leaving(s, s') {
        LeavingKept(s, step, x);
      } else {
        StepLeaves(s, step, x, gone[x]);
      }
    }
  }

  /** Whatever is listed stays listed or joins what has left. */
  lemma ListedOrLeft(s: System, step: Step, x: Index)
    requires Inv(s, true) && Enabled(s, step, true) && x in s.list
    ensures var s' := Do(s, step, true); x in s'.list || x in Leaving(s, s')
  {
    hide Inv, Do, Enabled;
    ListSound(s);
    TablesOf(s.disk, s.list, x);
  }

  lemma TablesOf(d: Disk, list: seq<Index>, x: Index)
    requires CoreOK(d, list) && x in list
    ensures x in d.jobs && x in d.statuses
  {
  }

  lemma {:induction false} LeftKeeps(s: System, steps: seq<Step>, gone: map<Index, Contents>, x: Index)
    requires Inv(s, true) && Run(s, steps, true) && GoneOK(s, gone) && (x in s.list || x in gone)
    ensures var t := Final(s, steps, true);
      Inv(t, true) && GoneOK(t, Left(s, steps, gone)) && (x in t.list || x in Left(s, steps, gone))
    decreases |steps|
  {
    hide Inv, Do, Enabled, GoneOK, Leaving;
    if steps != [] {
      var s' := Do(s, steps[0], true);
      StepKeeps(s, steps[0], true);
      GoneKeeps(s, steps[0], gone);
      if x in s.list {
        ListedOrLeft(s, steps[0], x);
      }
      LeftKeeps(s', steps[1..], gone + Leaving(s, s'), x);
    }
  }

  /** At every later moment of a run, crashes and recoveries included, a dataset that is listed now is listed with both
      its tables, or has left the list. Then what is still on disk of it, under its own name or the new one, is as it
      was when it left, and before either table has gone both have been uploaded as they were. */
  lemma UploadedBeforeGone(s: System, steps: seq<Step>, x: Index)
    requires Reachable(s, true) && x in s.list && Run(s, steps, true)
    ensures var t, gone := Final(s, steps, true), Left(s, steps, map[]);
      if x in t.list then x in t.disk.jobs && x in t.disk.statuses
      else x in gone && AsItWas(t.disk, x, gone[x]) && (TableGone(t.disk, x) ==> BothUploaded(t.disk, x, gone[x]))
  {
    hide Inv, Left, Final, Run, Reachable;
    ReachableInv(s, true);
    ListNotEmpty(s);
    LeftKeeps(s, steps, map[], x);
    var t := Final(s, steps, true);
    ListSound(t);
    if x in t.list {
      TablesOf(t.disk, t.list, x);
    }
  }

  /** getBackupDS looks at renamed jobs tables only, and that is enough: what it picks has both tables renamed. */
  lemma PicksWhole(s: System, x: Index)
    requires Reachable(s, true) && Enabled(s, BeginBackup(x), true)
    ensures x in s.disk.oldJobs && x in s.disk.oldStatuses && x !in s.disk.jobs && x !in s.disk.statuses
  {
    hide Reachable, CoreOK, LiveSame, RowsBelow, BackupOK, BackupPointOK, PointOK, Durable, Before;
    ReachableInv(s, true);
  }

  // ---------- a backup that is not interrupted ----------

  /** The statements a backup of x still has to make. */
  ghost function StatementsLeft(b: BackupPoint, x: Index): int {
    match b
    case Uploading(y, n) => if x == y then 7 - n else 0
    case Uploaded(y) => if x == y then 4 else 0
    case Dropping(y, n) => if x == y then 3 - n else 0
    case Resting => 0
  }

  ghost function Backups(steps: seq<Step>): nat {
    if steps == [] then 0 else (if steps[0] == Backup then 1 else 0) + Backups(steps[1..])
  }

  ghost predicate NoCrash(steps: seq<Step>) {
    forall k :: 0 <= k < |steps| ==> steps[k] != Crash
  }

  /** What is renamed is not under construction. */
  lemma RenamedFinished(s: System, x: Index)
    requires Inv(s, true) && Up(s.point) && x in s.disk.oldJobs
    ensures !Unfinished(s.disk, x)
  {
    hide CoreOK, LiveSame, RowsBelow, OldOK, BackupOK, BackupPointOK, Durable, Only, Gathered, SomeLive, Consecutive;
    match s.point
    case Adding(y, goal, stage) => NewIndexFree(s.disk, s.list, y, goal);
    case Copying(y, m, k, half) => NewIndexFree(s.disk, s.list, y, Migrate(m));
    case _ =>
  }

  lemma BeginKept(s: System, x: Index)
    requires Inv(s, true) && Enabled(s, BeginBackup(x), true)
    ensures x in s.disk.oldJobs && x in s.disk.oldStatuses && s.list != [] && Before(x, s.list[0])
    ensures KeptAs(Do(s, BeginBackup(x), true).disk, x, Contents(s.disk.oldJobs[x], s.disk.oldStatuses[x]))
  {
    hide CoreOK, LiveSame, RowsBelow, BackupOK, BackupPointOK, PointOK, Durable, Before, Unfinished;
    RenamedFinished(s, x);
    var c := Contents(s.disk.oldJobs[x], s.disk.oldStatuses[x]);
    assert KeptAs(s.disk, x, c);
    BackupEntry(s.disk, Do(s, BeginBackup(x), true).disk.backupOpen, x, c);
  }

  lemma OthersStay(s: System, step: Step)
    requires Enabled(s, step, true) && step != Crash && step != Backup && s.backup != Resting
    ensures Do(s, step, true).backup == s.backup
  {
    hide RecoveryScript, Exec1, RestartOK, SqlOK, MaxID, CopyJobs, CopyStatuses, Retire, NextIndex, Core;
  }

  /** Every statement of the backup is one less. */
  lemma OneStatement(s: System, x: Index)
    requires Inv(s, true) && Enabled(s, Backup, true) && StatementsLeft(s.backup, x) > 0
    ensures var s' := Do(s, Backup, true); StatementsLeft(s'.backup, x) == StatementsLeft(s.backup, x) - 1
    ensures StatementsLeft(s.backup, x) == 1 ==>
      var s' := Do(s, Backup, true);
      && s'.backup == Resting && x !in s'.disk.oldJobs && x !in s'.disk.oldStatuses
      && x !in s'.disk.jobs && x !in s'.disk.statuses
  {
    hide CoreOK, LiveSame, RowsBelow, PointOK, Durable, OldOK, Before, UploadedBoth;
  }

  /** While a backup is under way its next statement can be made. */
  lemma CanGoOn(s: System)
    requires Inv(s, true) && s.backup != Resting
    ensures Enabled(s, Backup, true)
  {
    hide CoreOK, LiveSame, RowsBelow, BackupOK, Durable, OldOK, Only, AddingOK, DestOK, CopyingOK, PostingOK;
  }

  lemma {:induction false} WorksOn(s: System, steps: seq<Step>, x: Index, c: Contents)
    requires Inv(s, true) && s.list != [] && Before(x, s.list[0]) && KeptAs(s.disk, x, c)
    requires Run(s, steps, true) && NoCrash(steps) && Backups(steps) < StatementsLeft(s.backup, x)
    ensures var t := Final(s, steps, true);
      && Inv(t, true) && t.list != [] && Before(x, t.list[0]) && KeptAs(t.disk, x, c)
      && StatementsLeft(t.backup, x) == StatementsLeft(s.backup, x) - Backups(steps)
    decreases |steps|
  {
    hide Inv, Do, Enabled, KeptAs, Before;
    if steps != [] {
      var s' := Do(s, steps[0], true);
      StepKeeps(s, steps[0], true);
      StepLeaves(s, steps[0], x, c);
      if steps[0] == Backup {
        OneStatement(s, x);
      } else {
        OthersStay(s, steps[0]);
      }
      forall k | 0 <= k < |steps[1..]| ensures steps[1..][k] != Crash {
        assert steps[k + 1] != Crash;
      }
      WorksOn(s', steps[1..], x, c);
    }
  }

  /** A backup that no crash interrupts takes seven statements, whatever else is done in between. Its next statement can
      always be made, and when all seven are made it rests, neither table is left, and both have been uploaded as they
      were when it began. */
  lemma BackupFinishes(s: System, x: Index, steps: seq<Step>)
    requires Reachable(s, true) && Enabled(s, BeginBackup(x), true)
    requires Run(Do(s, BeginBackup(x), true), steps, true) && NoCrash(steps) && Backups(steps) <= 6
    ensures x in s.disk.oldJobs && x in s.disk.oldStatuses
    ensures var t := Final(Do(s, BeginBackup(x), true), steps, true);
      && t.backup != Resting && Enabled(t, Backup, true)
      && (Backups(steps) == 6 ==>
        var t' := Do(t, Backup, true);
        && t'.backup == Resting && x !in t'.disk.oldJobs && x !in t'.disk.oldStatuses
        && BothUploaded(t'.disk, x, Contents(s.disk.oldJobs[x], s.disk.oldStatuses[x])))
  {
    hide Inv, Reachable, Run, Final, KeptAs, Before, BothUploaded;
    PicksWhole(s, x);
    ReachableInv(s, true);
    BeginKept(s, x);
    var s', c := Do(s, BeginBackup(x), true), Contents(s.disk.oldJobs[x], s.disk.oldStatuses[x]);
    BeginsSeven(s, x);
    StepKeeps(s, BeginBackup(x), true);
    WorksOn(s', steps, x, c);
    var t := Final(s', steps, true);
    CanGoOn(t);
    if Backups(steps) == 6 {
      OneStatement(t, x);
      StepKeeps(t, Backup, true);
      StepLeaves(t, Backup, x, c);
      GoneMeansUploaded(Do(t, Backup, true).disk, x, c);
    }
  }

  lemma BeginsSeven(s: System, x: Index)
    requires Enabled(s, BeginBackup(x), true)
    ensures var s' := Do(s, BeginBackup(x), true); StatementsLeft(s'.backup, x) == 7 && s'.list == s.list
  {
  }

  lemma GoneMeansUploaded(d: Disk, x: Index, c: Contents)
    requires KeptAs(d, x, c) && x !in d.oldJobs && x !in d.jobs
    ensures BothUploaded(d, x, c)
  {
  }
}
