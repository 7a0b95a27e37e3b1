/** Recovery keeps the invariant statement by statement, and it does not matter how often it is interrupted. */
module JournalRecovery {
  import opened Tables
  import opened Layout
  import opened Journal
  import opened JournalInvariant

  lemma {:induction false} RetireAt(from: seq<Index>)
    ensures |Retire(from)| == 2 * |from|
    ensures forall j :: 0 <= j < |from| ==>
      Retire(from)[2 * j] == RetireStatuses(from[j]) && Retire(from)[2 * j + 1] == RetireJobs(from[j])
  {
    if from != [] {
      RetireAt(from[1..]);
      forall j | 0 <= j < |from|
        ensures Retire(from)[2 * j] == RetireStatuses(from[j]) && Retire(from)[2 * j + 1] == RetireJobs(from[j])
      {
        if j > 0 {
          assert from[j] == from[1..][j - 1];
          assert Retire(from)[2 * j] == Retire(from[1..])[2 * (j - 1)];
          assert Retire(from)[2 * j + 1] == Retire(from[1..])[2 * (j - 1) + 1];
        }
      }
    }
  }

  /** The k-th statement of a retirement. */
  lemma {:induction false} RetireNth(from: seq<Index>, k: int) returns (i: int)
    requires 0 <= k < |Retire(from)|
    ensures 0 <= i < |from|
    ensures (k == 2 * i && Retire(from)[k] == RetireStatuses(from[i]))
      || (k == 2 * i + 1 && Retire(from)[k] == RetireJobs(from[i]))
    decreases |from|
  {
    if k < 2 {
      i := 0;
    } else {
      var n := RetireNth(from[1..], k - 2);
      i := n + 1;
      assert Retire(from)[k] == Retire(from[1..])[k - 2];
    }
  }

  ghost predicate DiskOK(d: Disk, list: seq<Index>, toBackup: bool, b: BackupPoint) {
    Durable(d, list, toBackup) && OldOK(d, list) && BackupOK(d, list) && BackupPointOK(d, b)
  }

  /** Renaming or dropping a source leaves the listed datasets and what the journal says. */
  lemma RetiredDurable(d: Disk, list: seq<Index>, from: seq<Index>, st: Stmt, toBackup: bool)
    requires Durable(d, list, toBackup) && d.open == [PostMigrate(from)]
    requires (forall ds :: ds in list ==> !Before(ds, list[0]))
    requires (st.RetireStatuses? && st.x in from && st.x in d.statuses)
      || (st.RetireJobs? && st.x in from && st.x in d.jobs && st.x !in d.statuses)
    ensures var d' := Exec1(d, st, toBackup); Kept(d, d', list) && Durable(d', list, toBackup)
    ensures Before(st.x, list[0])
  {
    hide WindowDisk, Before;
    assert Behind(from, list) && st.x !in list;
  }

  lemma RetiredStatusesOld(d: Disk, list: seq<Index>, y: Index, toBackup: bool)
    requires OldOK(d, list) && y in d.statuses && Before(y, list[0])
    ensures OldOK(Exec1(d, RetireStatuses(y), toBackup), list)
    ensures y !in d.oldStatuses && y !in d.oldJobs
  {
    hide Before;
  }

  lemma RetiredStatusesBackup(d: Disk, list: seq<Index>, y: Index, toBackup: bool, b: BackupPoint)
    requires BackupOK(d, list) && BackupPointOK(d, b) && y in d.statuses && y !in d.oldStatuses && y !in d.oldJobs
    ensures var d' := Exec1(d, RetireStatuses(y), toBackup); BackupOK(d', list) && BackupPointOK(d', b)
  {
    hide Before;
  }

  lemma RetiredStatuses(d: Disk, list: seq<Index>, y: Index, toBackup: bool, b: BackupPoint)
    requires OldOK(d, list) && BackupOK(d, list) && BackupPointOK(d, b) && y in d.statuses && Before(y, list[0])
    ensures var d' := Exec1(d, RetireStatuses(y), toBackup);
      OldOK(d', list) && BackupOK(d', list) && BackupPointOK(d', b)
  {
    hide OldOK, BackupOK, BackupPointOK;
    RetiredStatusesOld(d, list, y, toBackup);
    RetiredStatusesBackup(d, list, y, toBackup, b);
  }

  lemma RetiredJobsOld(d: Disk, list: seq<Index>, from: seq<Index>, y: Index, toBackup: bool)
    requires OldOK(d, list) && y in d.jobs && y !in d.statuses && Before(y, list[0])
    requires HalfRetired(d, from, toBackup) && y in from
    ensures OldOK(Exec1(d, RetireJobs(y), toBackup), list)
    ensures y !in d.oldJobs
  {
    hide Before;
  }

  lemma RetiredJobsBackup(d: Disk, list: seq<Index>, y: Index, toBackup: bool, b: BackupPoint)
    requires BackupOK(d, list) && BackupPointOK(d, b) && y in d.jobs && y !in d.oldJobs
    ensures var d' := Exec1(d, RetireJobs(y), toBackup); BackupOK(d', list) && BackupPointOK(d', b)
  {
    hide Before;
  }

  lemma RetiredJobs(d: Disk, list: seq<Index>, from: seq<Index>, y: Index, toBackup: bool, b: BackupPoint)
    requires OldOK(d, list) && BackupOK(d, list) && BackupPointOK(d, b) && y in d.jobs && y !in d.statuses
    requires Before(y, list[0])
    requires HalfRetired(d, from, toBackup) && y in from
    ensures var d' := Exec1(d, RetireJobs(y), toBackup); OldOK(d', list) && BackupOK(d', list) && BackupPointOK(d', b)
  {
    hide OldOK, BackupOK, BackupPointOK;
    RetiredJobsOld(d, list, from, y, toBackup);
    RetiredJobsBackup(d, list, y, toBackup, b);
  }

  lemma StillHalf(d: Disk, list: seq<Index>, from: seq<Index>, toBackup: bool)
    requires Durable(d, list, toBackup) && d.open == [PostMigrate(from)]
    ensures HalfRetired(d, from, toBackup)
  {
    hide HalfRetired, Behind, Only, WindowDisk;
  }

  /** Renaming or dropping the status table of a dataset that has been migrated away. */
  lemma RetireStatusesKeeps(d: Disk, list: seq<Index>, from: seq<Index>, y: Index, toBackup: bool, b: BackupPoint)
    requires DiskOK(d, list, toBackup, b) && d.open == [PostMigrate(from)] && y in from && y in d.statuses
    requires forall ds :: ds in list ==> !Before(ds, list[0])
    ensures var d' := Exec1(d, RetireStatuses(y), toBackup); Kept(d, d', list) && DiskOK(d', list, toBackup, b)
  {
    hide Durable, OldOK, BackupOK, BackupPointOK;
    RetiredDurable(d, list, from, RetireStatuses(y), toBackup);
    RetiredStatuses(d, list, y, toBackup, b);
  }

  /** The same for the jobs table, which goes second. */
  lemma RetireJobsKeeps(d: Disk, list: seq<Index>, from: seq<Index>, y: Index, toBackup: bool, b: BackupPoint)
    requires DiskOK(d, list, toBackup, b) && d.open == [PostMigrate(from)] && y in from && y in d.jobs
    requires y !in d.statuses
    requires forall ds :: ds in list ==> !Before(ds, list[0])
    ensures var d' := Exec1(d, RetireJobs(y), toBackup); Kept(d, d', list) && DiskOK(d', list, toBackup, b)
  {
    hide Durable, OldOK, BackupOK, BackupPointOK, HalfRetired;
    StillHalf(d, list, from, toBackup);
    RetiredDurable(d, list, from, RetireJobs(y), toBackup);
    RetiredJobs(d, list, from, y, toBackup, b);
  }

  lemma RetireKeeps(d: Disk, list: seq<Index>, from: seq<Index>, st: Stmt, toBackup: bool, b: BackupPoint)
    requires DiskOK(d, list, toBackup, b) && d.open == [PostMigrate(from)]
    requires (forall ds :: ds in list ==> !Before(ds, list[0]))
    requires match st case RetireStatuses(y) => y in from case RetireJobs(y) => y in from
      && y !in d.statuses case _ => false
    ensures var d' := Exec1(d, st, toBackup); Kept(d, d', list) && DiskOK(d', list, toBackup, b)
  {
    hide DiskOK;
    match st
    case RetireStatuses(y) => if y in d.statuses { RetireStatusesKeeps(d, list, from, y, toBackup, b); }
    case RetireJobs(y) => if y in d.jobs { RetireJobsKeeps(d, list, from, y, toBackup, b); }
    case _ =>
  }

  /** The dataset under construction that an open entry names. */
  ghost predicate Unfinished(d: Disk, x: Index) {
    d.open == [AddDS(x)] || (|d.open| == 1 && d.open[0].MigrateCopy? && d.open[0].to == x)
  }

  lemma DropDurable(d: Disk, list: seq<Index>, x: Index, st: Stmt, toBackup: bool)
    requires Durable(d, list, toBackup) && Unfinished(d, x) && (st == DropStatuses(x) || st == DropJobs(x))
    ensures var d' := Exec1(d, st, toBackup); Kept(d, d', list) && Durable(d', list, toBackup)
  {
    hide WindowDisk;
  }

  lemma DropRest(d: Disk, list: seq<Index>, x: Index, st: Stmt, toBackup: bool, b: BackupPoint)
    requires OldOK(d, list) && BackupOK(d, list) && BackupPointOK(d, b) && (st == DropStatuses(x) || st == DropJobs(x))
    ensures var d' := Exec1(d, st, toBackup); OldOK(d', list) && BackupOK(d', list) && BackupPointOK(d', b)
  {
    hide Before;
  }

  lemma DropKeeps(d: Disk, list: seq<Index>, x: Index, st: Stmt, toBackup: bool, b: BackupPoint)
    requires DiskOK(d, list, toBackup, b) && Unfinished(d, x) && (st == DropStatuses(x) || st == DropJobs(x))
    ensures var d' := Exec1(d, st, toBackup); Kept(d, d', list) && DiskOK(d', list, toBackup, b)
  {
    hide Durable, OldOK, BackupOK, BackupPointOK;
    DropDurable(d, list, x, st, toBackup);
    DropRest(d, list, x, st, toBackup, b);
  }

  lemma DropOldRest(d: Disk, list: seq<Index>, x: Index, st: Stmt, toBackup: bool)
    requires OldOK(d, list) && BackupOK(d, list) && d.backupOpen == [BackupDropDS(x)]
    requires (st == DropOldStatuses(x) || st == DropOldJobs(x))
    ensures var d' := Exec1(d, st, toBackup); OldOK(d', list) && BackupOK(d', list) && BackupPointOK(d', Resting)
  {
    hide Before;
  }

  lemma DropOldKeeps(d: Disk, list: seq<Index>, x: Index, st: Stmt, toBackup: bool)
    requires DiskOK(d, list, toBackup, Resting) && d.backupOpen == [BackupDropDS(x)] && d.open == []
    requires st == DropOldStatuses(x) || st == DropOldJobs(x)
    ensures var d' := Exec1(d, st, toBackup);
      && Kept(d, d', list) && DiskOK(d', list, toBackup, Resting) && d'.jobs == d.jobs && d'.statuses == d.statuses
  {
    hide Durable, OldOK, BackupOK, BackupPointOK;
    WindowSame(d, Exec1(d, st, toBackup), list);
    DropOldRest(d, list, x, st, toBackup);
  }

  /** Whether a disk is at an uncovered point is told by its listed and extra tables alone. */
  lemma WindowSame(d: Disk, d': Disk, list: seq<Index>)
    requires d'.jobs == d.jobs && d'.statuses == d.statuses && d'.open == d.open == []
    ensures forall toBackup :: Durable(d', list, toBackup) <==> Durable(d, list, toBackup)
  {
    assert Core(d', list) == Core(d, list);
    forall x, m ensures WindowDisk(d', list, x, m) <==> WindowDisk(d, list, x, m) {
      if AllThere(d, list) && x in d.jobs && x in d.statuses {
        assert Pair(d', x) == Pair(d, x);
      }
    }
  }

  lemma OnlySame(d: Disk, e: Disk, list: seq<Index>)
    requires Only(d, list, [], []) && e.jobs == d.jobs && e.statuses == d.statuses
    ensures Only(e, list, [], [])
  {
  }

  lemma OneOpen(d: Disk, list: seq<Index>, toBackup: bool)
    requires Durable(d, list, toBackup) && d.open != []
    ensures |d.open| == 1
  {
    hide WindowDisk, Only, Behind, HalfRetired;
  }

  lemma ClosedRest(d: Disk, list: seq<Index>, toBackup: bool)
    requires OldOK(d, list) && BackupOK(d, list) && Only(d, list, [], [])
    ensures Kept(d, d.(open := []), list) && DiskOK(d.(open := []), list, toBackup, Resting)
  {
    hide Before, WindowDisk;
  }

  lemma AllDone(d: Disk, list: seq<Index>, e: Entry, toBackup: bool)
    requires Durable(d, list, toBackup) && d.open == [e]
    requires forall j :: 0 <= j < |MainScript([e])| - 1 ==> Missing(d, MainScript([e])[j])
    ensures Only(d, list, [], [])
  {
    hide WindowDisk, Before, Retire, HalfRetired;
    var r := MainScript([e]);
    match e
    case AddDS(x) => assert r[0] == DropStatuses(x) && r[1] == DropJobs(x);
    case MigrateCopy(_, x) => assert r[0] == DropStatuses(x) && r[1] == DropJobs(x);
    case PostMigrate(from) =>
      RetireAt(from);
      forall y | y in from ensures y !in d.jobs && y !in d.statuses {
        var j :| 0 <= j < |from| && from[j] == y;
        assert r[2 * j] == RetireStatuses(y) && r[2 * j + 1] == RetireJobs(y);
        assert Missing(d, r[2 * j]) && Missing(d, r[2 * j + 1]);
      }
    case _ =>
  }

  /** When everything before the closing statement is done, nothing is left over. */
  lemma CloseKeeps(d: Disk, list: seq<Index>, toBackup: bool)
    requires DiskOK(d, list, toBackup, Resting) && d.open != []
    requires forall j :: 0 <= j < |MainScript(d.open)| - 1 ==> Missing(d, MainScript(d.open)[j])
    ensures Kept(d, d.(open := []), list) && DiskOK(d.(open := []), list, toBackup, Resting)
    ensures Only(d, list, [], [])
  {
    hide Durable, OldOK, BackupOK, BackupPointOK, Only, Kept, WindowDisk;
    var e := d.open[0];
    assert d.open == [e] by { OneOpen(d, list, toBackup); }
    AllDone(d, list, e, toBackup);
    ClosedRest(d, list, toBackup);
  }

  /** What is missing stays missing; only retiring fills the renamed tables. */
  lemma StaysMissing(d: Disk, st: Stmt, t: Stmt, toBackup: bool)
    requires Missing(d, t) && (t.DropOldStatuses? ==> !st.RetireStatuses?) && (t.DropOldJobs? ==> !st.RetireJobs?)
    ensures Missing(Exec1(d, st, toBackup), t)
  {
  }

  lemma NowMissing(d: Disk, st: Stmt, toBackup: bool)
    requires !st.Close? && !st.CloseBackup?
    ensures Missing(Exec1(d, st, toBackup), st)
    ensures Exec1(d, st, toBackup).open == d.open && Exec1(d, st, toBackup).backupOpen == d.backupOpen
  {
  }

  /** One more statement of the main part. */
  lemma MainStatement(d: Disk, list: seq<Index>, k: int, toBackup: bool)
    requires DiskOK(d, list, toBackup, Resting) && CoreOK(d, list)
    requires 0 <= k < |MainScript(d.open)| && forall j :: 0 <= j < k ==> Missing(d, MainScript(d.open)[j])
    ensures var d' := Exec1(d, MainScript(d.open)[k], toBackup);
      && Kept(d, d', list) && DiskOK(d', list, toBackup, Resting)
      && d'.backupOpen == d.backupOpen
      && if k == |MainScript(d.open)| - 1 then d'.open == [] && Only(d', list, [], [])
         else d'.open == d.open && forall j :: 0 <= j <= k ==> Missing(d', MainScript(d.open)[j])
  {
    hide Kept, CoreOK, Before, Only, HalfRetired, OldOK, BackupOK, WindowDisk, Missing;
    var r := MainScript(d.open);
    var d' := Exec1(d, r[k], toBackup);
    if k == |r| - 1 {
      CloseKeeps(d, list, toBackup);
      OnlySame(d, d', list);
    } else {
      ListFacts(d, list);
      match d.open[0]
      case PostMigrate(from) =>
        assert r[..|r| - 1] == Retire(from);
        forall j | 0 <= j <= k ensures Retire(from)[j] == r[j] {}
        RetireStatement(d, list, from, k, toBackup);
      case AddDS(x) => UnfinishedStatement(d, list, x, k, toBackup);
      case MigrateCopy(_, x) => UnfinishedStatement(d, list, x, k, toBackup);
      case _ =>
    }
  }

  lemma UnfinishedStatement(d: Disk, list: seq<Index>, x: Index, k: int, toBackup: bool)
    requires DiskOK(d, list, toBackup, Resting) && Unfinished(d, x)
    requires 0 <= k < 2 && forall j :: 0 <= j < k ==> Missing(d, MainScript(d.open)[j])
    ensures var d' := Exec1(d, MainScript(d.open)[k], toBackup);
      && Kept(d, d', list) && DiskOK(d', list, toBackup, Resting)
      && d'.open == d.open && d'.backupOpen == d.backupOpen
      && forall j :: 0 <= j <= k ==> Missing(d', MainScript(d.open)[j])
  {
    hide Kept, DiskOK, Missing;
    var r := MainScript(d.open);
    DropKeeps(d, list, x, r[k], toBackup, Resting);
    NowMissing(d, r[k], toBackup);
    forall j | 0 <= j < k ensures Missing(Exec1(d, r[k], toBackup), r[j]) {
      StaysMissing(d, r[k], r[j], toBackup);
    }
  }

  lemma RetireStatement(d: Disk, list: seq<Index>, from: seq<Index>, k: int, toBackup: bool)
    requires DiskOK(d, list, toBackup, Resting) && d.open == [PostMigrate(from)]
    requires (forall ds :: ds in list ==> !Before(ds, list[0]))
    requires 0 <= k < |Retire(from)| && forall j :: 0 <= j < k ==> Missing(d, Retire(from)[j])
    ensures var d' := Exec1(d, Retire(from)[k], toBackup);
      && Kept(d, d', list) && DiskOK(d', list, toBackup, Resting)
      && d'.open == d.open && d'.backupOpen == d.backupOpen
      && forall j :: 0 <= j <= k ==> Missing(d', Retire(from)[j])
  {
    hide DiskOK, Kept, Retire, Before, Exec1;
    var r := Retire(from);
    var i := RetireNth(from, k);
    if k == 2 * i + 1 {
      RetireAt(from);
      assert r[k - 1] == RetireStatuses(from[i]) && Missing(d, r[k - 1]);
    }
    RetireKeeps(d, list, from, r[k], toBackup, Resting);
    NowMissing(d, r[k], toBackup);
    forall j | 0 <= j < k ensures Missing(Exec1(d, r[k], toBackup), r[j]) {
      var n := RetireNth(from, j);
      StaysMissing(d, r[k], r[j], toBackup);
    }
  }

  /** The backup entry is closed. */
  lemma CloseBackupKeeps(d: Disk, list: seq<Index>, toBackup: bool)
    requires DiskOK(d, list, toBackup, Resting) && d.open == [] && d.backupOpen != []
    requires d.backupOpen[0].BackupDropDS? ==> d.backupOpen[0].ds !in d.oldJobs
    ensures var d' := d.(backupOpen := []); Kept(d, d', list) && DiskOK(d', list, toBackup, Resting)
  {
    hide WindowDisk, Before;
    WindowSame(d, d.(backupOpen := []), list);
  }

  lemma BackupStatement(d: Disk, list: seq<Index>, k: int, toBackup: bool)
    requires DiskOK(d, list, toBackup, Resting) && d.open == []
    requires 0 <= k < |BackupScript(d.backupOpen)| && forall j :: 0 <= j < k ==>
      Missing(d, BackupScript(d.backupOpen)[j])
    ensures var d' := Exec1(d, BackupScript(d.backupOpen)[k], toBackup);
      && Kept(d, d', list) && DiskOK(d', list, toBackup, Resting)
      && d'.open == [] && d'.jobs == d.jobs && d'.statuses == d.statuses
      && if k == |BackupScript(d.backupOpen)| - 1 then d'.backupOpen == []
         else d'.backupOpen == d.backupOpen && forall j :: 0 <= j <= k ==> Missing(d', BackupScript(d.backupOpen)[j])
  {
    hide DiskOK, Kept, Missing, Exec1;
    DiskCounts(d, list, toBackup);
    var r, e := BackupScript(d.backupOpen), d.backupOpen[0];
    if k == |r| - 1 {
      assert r[k] == CloseBackup;
      OldGone(d, e);
      CloseBackupKeeps(d, list, toBackup);
      Closed(d, toBackup);
    } else {
      DropOldKeeps(d, list, e.ds, r[k], toBackup);
      NowMissing(d, r[k], toBackup);
      forall j | 0 <= j < k ensures Missing(Exec1(d, r[k], toBackup), r[j]) {
        StaysMissing(d, r[k], r[j], toBackup);
      }
    }
  }

  lemma Closed(d: Disk, toBackup: bool)
    ensures Exec1(d, CloseBackup, toBackup) == d.(backupOpen := [])
  {
  }

  lemma OldGone(d: Disk, e: Entry)
    requires d.backupOpen == [e] && forall j :: 0 <= j < |BackupScript([e])| - 1 ==> Missing(d, BackupScript([e])[j])
    ensures e.BackupDropDS? ==> e.ds !in d.oldJobs
  {
    assert e.BackupDropDS? ==> Missing(d, BackupScript([e])[1]);
  }

  lemma RecoverKeeps(s: System, toBackup: bool)
    requires Inv(s, toBackup) && Enabled(s, Recover, toBackup)
    ensures Inv(Do(s, Recover, toBackup), toBackup)
  {
    hide Durable, OldOK, BackupOK, CoreOK, LiveSame, RowsBelow, RecoveringOK, RecoveryScript;
    var d, s' := s.disk, Do(s, Recover, toBackup);
    if s.point == Down {
      StartsOK(d);
    } else if s.point.script != [] && s.point.script != [] {
      assert DiskOK(d, s.list, toBackup, Resting);
      StatementKeeps(d, s.list, s.point.script, toBackup);
      CoreKept(d, s'.disk, s.list, s.rows);
    } else {
      NothingLeft(d);
    }
  }

  lemma StartsOK(d: Disk)
    ensures RecoveringOK(d, RecoveryScript(d))
  {
  }

  /** A script that has run out closes whatever was open. */
  lemma NothingLeft(d: Disk)
    requires RecoveringOK(d, [])
    ensures d.open == [] && d.backupOpen == []
  {
    var r := RecoveryScript(d);
    if r != [] {
      assert Missing(d, r[|r| - 1]);
    }
  }

  /** The script of the disk after one more statement. */
  lemma StatementKeeps(d: Disk, list: seq<Index>, script: seq<Stmt>, toBackup: bool)
    requires DiskOK(d, list, toBackup, Resting) && CoreOK(d, list) && RecoveringOK(d, script) && script != []
    ensures var d' := Exec1(d, script[0], toBackup);
      && Kept(d, d', list) && DiskOK(d', list, toBackup, Resting) && RecoveringOK(d', script[1..])
      && (d.open == [] ==> d'.open == [] && d'.jobs == d.jobs && d'.statuses == d.statuses)
      && (d.open != [] && d'.open == [] ==> Only(d', list, [], []))
  {
    hide DiskOK, Kept, CoreOK, MainScript, BackupScript, Exec1, Missing, Only;
    DiskCounts(d, list, toBackup);
    var ms, bs, r := MainScript(d.open), BackupScript(d.backupOpen), RecoveryScript(d);
    var k := |r| - |script|;
    var d' := Exec1(d, script[0], toBackup);
    if k < |ms| {
      forall j | 0 <= j < k ensures Missing(d, ms[j]) {
        assert r[j] == ms[j];
      }
      MainStatement(d, list, k, toBackup);
      assert script[0] == ms[k];
      MainScriptEmpty(d');
      if k == |ms| - 1 {
        assert RecoveryScript(d') == bs == script[1..];
      } else {
        assert RecoveryScript(d') == r && script[1..] == r[k + 1..];
      }
    } else {
      MainDone(d, k);
      assert r == bs;
      BackupStatement(d, list, k, toBackup);
      MainScriptEmpty(d');
      assert script[1..] == r[k + 1..];
    }
  }

  lemma MainScriptEmpty(d: Disk)
    ensures d.open == [] ==> MainScript(d.open) == []
    ensures d.backupOpen == [] ==> BackupScript(d.backupOpen) == []
  {
  }

  lemma DiskCounts(d: Disk, list: seq<Index>, toBackup: bool)
    requires DiskOK(d, list, toBackup, Resting)
    ensures |d.open| <= 1 && |d.backupOpen| <= 1
  {
  }

  lemma EndsWithClose(d: Disk)
    requires d.open != []
    ensures |MainScript(d.open)| > 0 && RecoveryScript(d)[|MainScript(d.open)| - 1] == Close
  {
  }

  /** The main part ends with Close, which is never missing. */
  lemma MainDone(d: Disk, k: int)
    requires |d.open| <= 1
    requires |MainScript(d.open)| <= k <= |RecoveryScript(d)| && forall j :: 0 <= j < k ==>
      Missing(d, RecoveryScript(d)[j])
    ensures d.open == [] && MainScript(d.open) == []
  {
    if d.open != [] {
      EndsWithClose(d);
    }
  }

  // ---------- interruptions ----------

  lemma {:induction false} ExecAppend(d: Disk, a: seq<Stmt>, b: seq<Stmt>, toBackup: bool)
    ensures Exec(d, a + b, toBackup) == Exec(Exec(d, a, toBackup), b, toBackup)
    decreases |a|
  {
    if a == [] {
      assert a + b == b;
    } else {
      assert (a + b)[0] == a[0] && (a + b)[1..] == a[1..] + b;
      ExecAppend(Exec1(d, a[0], toBackup), a[1..], b, toBackup);
    }
  }

  lemma {:induction false} ExecMissing(d: Disk, a: seq<Stmt>, toBackup: bool)
    requires forall j :: 0 <= j < |a| ==> Missing(d, a[j])
    ensures Exec(d, a, toBackup) == d
    decreases |a|
  {
    if a != [] {
      assert Missing(d, a[0]);
      forall j | 0 <= j < |a[1..]| ensures Missing(d, a[1..][j]) {
        assert Missing(d, a[j + 1]);
      }
      ExecMissing(d, a[1..], toBackup);
    }
  }

  /** What is left of the script does all that a recovery from scratch would do. */
  lemma RestIsAll(d: Disk, script: seq<Stmt>, toBackup: bool)
    requires RecoveringOK(d, script)
    ensures Exec(d, script, toBackup) == Recovered(d, toBackup)
  {
    var r := RecoveryScript(d);
    var k := |r| - |script|;
    assert r == r[..k] + script;
    ExecAppend(d, r[..k], script, toBackup);
    ExecMissing(d, r[..k], toBackup);
  }

  /** A recovery that is interrupted anywhere and started again from the journal ends up with the same disk. */
  lemma RecoveryIdempotent(d: Disk, list: seq<Index>, script: seq<Stmt>, toBackup: bool)
    requires DiskOK(d, list, toBackup, Resting) && CoreOK(d, list) && RecoveringOK(d, script) && script != []
    ensures Recovered(Exec1(d, script[0], toBackup), toBackup) == Recovered(d, toBackup)
  {
    StatementKeeps(d, list, script, toBackup);
    RestIsAll(d, script, toBackup);
    RestIsAll(Exec1(d, script[0], toBackup), script[1..], toBackup);
  }
}
