/** A round of the check loop that no crash interrupts comes to its end: after a known number of statements the main
    goroutine is idle, the list is the new one, and no table is left that is not listed. */
module JournalRounds {
  import opened Common
  import opened Tables
  import opened Layout
  import opened Migration
  import opened Compaction
  import opened Journal
  import opened JournalInvariant
  import opened JournalRecovery
  import opened JournalSteps
  import opened JournalClients
  import Runs = JournalRuns
  import Backups = JournalBackups

  // ---------- the next statement can be made ----------

  lemma SomeRetryIds(d: Dataset, bound: JobID) returns (ids: seq<JobID>)
    requires bound >= 1 && IdsBelow(d, bound)
    ensures RetryIds(d, ids)
  {
    var sel := Selected(d, Processed(UNFINISHED, None), []);
    ids := InOrder(sel, 1, bound);
    InOrderAscends(sel, 1, bound);
    forall id | id in sel ensures id in ids {
      InOrderHas(sel, 1, bound, id);
    }
  }

  lemma HalfBounds(s: System)
    requires SqlOK(s) && s.point.Copying? && s.point.half
    ensures s.point.k < |s.list|
  {
  }

  lemma SourceBelow(d: Disk, list: seq<Index>, k: nat)
    requires CoreOK(d, list) && k < |list|
    ensures list[k] in d.jobs && list[k] in d.statuses && list != [] && Last(list) in d.jobs
    ensures d.jobs[Last(list)].next >= 1
    ensures IdsBelow(Pair(d, list[k]), d.jobs[Last(list)].next)
  {
    hide DatasetOK, Consecutive, IdsAscend;
    assert list[k] in list && Core(d, list)[list[k]] == Pair(d, list[k]);
  }

  /** Wherever the main goroutine stands in a round, its next statement can be made. */
  lemma NextStatement(s: System, toBackup: bool) returns (ids: seq<JobID>)
    requires Runs.Reachable(s, toBackup) && Up(s.point) && s.point != Idle
    ensures Enabled(s, Main(ids), toBackup)
  {
    hide Inv, Runs.Reachable, CoreOK, SqlOK, BackupSqlOK, RetryIds;
    Runs.StatementsSucceed(s, toBackup);
    ids := [];
    if s.point.Copying? && s.point.half {
      HalfBounds(s);
      Runs.ReachableInv(s, toBackup);
      ListThere(s, toBackup);
      SourceBelow(s.disk, s.list, s.point.k);
      ids := SomeRetryIds(Pair(s.disk, s.list[s.point.k]), s.disk.jobs[Last(s.list)].next);
    }
  }

  lemma ListThere(s: System, toBackup: bool)
    requires Inv(s, toBackup)
    ensures CoreOK(s.disk, s.list)
  {
  }

  // ---------- how many are left ----------

  /** The statements the main goroutine still has to make in this round. */
  ghost function ToGo(p: Point): int {
    match p
    case Adding(x, goal, stage) => (match goal case Append => 5 - stage case Migrate(m) => 4 - stage + 4 * m + 4)
    case Added(x, m) => 4 * m + 4
    case Copying(x, m, k, half) => 2 * (m - k) - (if half then 1 else 0) + 1 + 2 * m + 2
    case Copied(x, m) => 2 * m + 2
    case Posting(from, script) => |script| + 1
    case _ => 0
  }

  /** The list when the round is done. */
  ghost function Coming(s: System): seq<Index> {
    match s.point
    case Adding(x, goal, stage) => (match goal
      case Append => s.list + [x]
      case Migrate(m) => if m <= |s.list| then [x] + s.list[m..] else s.list)
    case Added(x, m) => if m <= |s.list| then [x] + s.list[m..] else s.list
    case Copying(x, m, k, half) => if m <= |s.list| then [x] + s.list[m..] else s.list
    case Copied(x, m) => if m <= |s.list| then [x] + s.list[m..] else s.list
    case _ => s.list
  }

  ghost function Mains(steps: seq<Step>): nat {
    if steps == [] then 0 else (if steps[0].Main? then 1 else 0) + Mains(steps[1..])
  }

  lemma {:induction false} RetireLength(from: seq<Index>)
    ensures |Retire(from)| == 2 * |from|
  {
    if from != [] {
      RetireLength(from[1..]);
    }
  }

  ghost predicate OneLess(s: System, s': System) {
    ToGo(s'.point) == ToGo(s.point) - 1 && Coming(s') == Coming(s) && (ToGo(s.point) == 1 ==> s'.point == Idle)
  }

  /** The stage lies in its range, and so does what is to be migrated. */
  ghost predicate InRange(s: System) {
    match s.point
    case Adding(x, goal, stage) =>
      (match goal case Append => stage <= 4 case Migrate(m) => stage <= 3 && m <= |s.list|)
    case Added(x, m) => m <= |s.list|
    case Copying(x, m, k, half) => m <= |s.list| && k <= m && (half ==> k < m)
    case Copied(x, m) => m <= |s.list|
    case _ => true
  }

  lemma Ranges(s: System, toBackup: bool)
    requires Inv(s, toBackup)
    ensures InRange(s)
  {
    hide CoreOK, LiveSame, RowsBelow, OldOK, BackupOK, BackupPointOK, Durable, Only, Gathered, SomeLive, Consecutive;
    hide HalfWay, Core, NextIndex, PostingOK;
  }

  lemma AddingOne(s: System, ids: seq<JobID>, toBackup: bool)
    requires Enabled(s, Main(ids), toBackup) && (s.point.Adding? || s.point.Added?) && InRange(s)
    ensures OneLess(s, Do(s, Main(ids), toBackup))
  {
    hide MaxID, SqlOK, RetryIds, Retire;
  }

  lemma CopyingOne(s: System, ids: seq<JobID>, toBackup: bool)
    requires Enabled(s, Main(ids), toBackup) && s.point.Copying? && InRange(s)
    ensures OneLess(s, Do(s, Main(ids), toBackup))
  {
    hide CopyJobs, CopyStatuses, RetryIds, Pair;
  }

  lemma PostingOne(s: System, ids: seq<JobID>, toBackup: bool)
    requires Enabled(s, Main(ids), toBackup) && (s.point.Copied? || s.point.Posting?) && InRange(s)
    ensures OneLess(s, Do(s, Main(ids), toBackup))
  {
    hide Exec1, Retire, SqlOK;
    if s.point.Copied? {
      RetireLength(s.list[..s.point.m]);
    }
  }

  /** Every statement is one less, and the list to come stays the same. */
  lemma OneStatement(s: System, ids: seq<JobID>, toBackup: bool)
    requires Inv(s, toBackup) && Enabled(s, Main(ids), toBackup)
    ensures OneLess(s, Do(s, Main(ids), toBackup))
  {
    hide Inv, Do, OneLess, InRange, SqlOK;
    Ranges(s, toBackup);
    if s.point.Adding? || s.point.Added? {
      AddingOne(s, ids, toBackup);
    } else if s.point.Copying? {
      CopyingOne(s, ids, toBackup);
    } else {
      PostingOne(s, ids, toBackup);
    }
  }

  lemma OthersLeave(s: System, step: Step, toBackup: bool)
    requires Enabled(s, step, toBackup) && !step.Main? && step != Crash && ToGo(s.point) > 0
    ensures var s' := Do(s, step, toBackup); s'.point == s.point && s'.list == s.list
  {
    hide RecoveryScript, Exec1, RestartOK, SqlOK, Core;
  }

  lemma {:induction false} GoesOn(s: System, steps: seq<Step>, toBackup: bool)
    requires Inv(s, toBackup) && Runs.Run(s, steps, toBackup) && Backups.NoCrash(steps) && Mains(steps) < ToGo(s.point)
    ensures var t := Runs.Final(s, steps, toBackup);
      Inv(t, toBackup) && ToGo(t.point) == ToGo(s.point) - Mains(steps) && Coming(t) == Coming(s)
    decreases |steps|
  {
    hide Inv, Do, Enabled;
    if steps != [] {
      var s' := Do(s, steps[0], toBackup);
      StepKeeps(s, steps[0], toBackup);
      if steps[0].Main? {
        OneStatement(s, steps[0].ids, toBackup);
      } else {
        OthersLeave(s, steps[0], toBackup);
      }
      forall k | 0 <= k < |steps[1..]| ensures steps[1..][k] != Crash {
        assert steps[k + 1] != Crash;
      }
      GoesOn(s', steps[1..], toBackup);
    }
  }

  /** Nothing is on disk but the listed datasets, which form a well-formed store, and no journal entry is open. */
  ghost predicate OnlyListed(s: System) {
    && CoreOK(s.disk, s.list) && s.disk.open == []
    && (forall x :: x in s.disk.jobs <==> x in s.list) && forall x :: x in s.disk.statuses <==> x in s.list
  }

  lemma IdleOnlyListed(s: System, toBackup: bool)
    requires Inv(s, toBackup) && s.point == Idle
    ensures OnlyListed(s)
  {
    hide LiveSame, RowsBelow, Durable, OldOK, BackupOK, BackupPointOK;
    ThereIsListed(s.disk, s.list);
  }

  lemma ThereIsListed(d: Disk, list: seq<Index>)
    requires CoreOK(d, list) && Only(d, list, [], [])
    ensures (forall x :: x in d.jobs <==> x in list) && forall x :: x in d.statuses <==> x in list
  {
    hide WellFormed, Core;
  }

  /** A round that no crash interrupts takes `ToGo` statements, whatever clients and the backup do in between: as long
      as fewer are made it goes on, its next statement can be made, and the last one leaves the main goroutine idle with
      the list that was to come and nothing else on disk. */
  lemma RoundFinishes(s: System, steps: seq<Step>, toBackup: bool)
    requires Runs.Reachable(s, toBackup) && Up(s.point) && s.point != Idle
    requires Runs.Run(s, steps, toBackup) && Backups.NoCrash(steps) && Mains(steps) < ToGo(s.point)
    ensures var t := Runs.Final(s, steps, toBackup);
      && ToGo(t.point) == ToGo(s.point) - Mains(steps)
      && (exists ids :: Enabled(t, Main(ids), toBackup))
      && forall ids :: Enabled(t, Main(ids), toBackup) && ToGo(t.point) == 1 ==>
        var t' := Do(t, Main(ids), toBackup); t'.point == Idle && t'.list == Coming(s) && OnlyListed(t')
  {
    hide Inv, Runs.Reachable, Do, Enabled, OnlyListed;
    Runs.ReachableInv(s, toBackup);
    GoesOn(s, steps, toBackup);
    var t := Runs.Final(s, steps, toBackup);
    StaysReachable(s, steps, toBackup);
    AtWork(t);
    var ids := NextStatement(t, toBackup);
    forall ids | Enabled(t, Main(ids), toBackup) && ToGo(t.point) == 1
      ensures var t' := Do(t, Main(ids), toBackup); t'.point == Idle && t'.list == Coming(s) && OnlyListed(t')
    {
      OneStatement(t, ids, toBackup);
      StepKeeps(t, Main(ids), toBackup);
      IdleOnlyListed(Do(t, Main(ids), toBackup), toBackup);
    }
  }

  lemma AtWork(t: System)
    requires ToGo(t.point) > 0
    ensures Up(t.point) && t.point != Idle
  {
  }

  lemma {:induction false} StaysReachable(s: System, steps: seq<Step>, toBackup: bool)
    requires Runs.Reachable(s, toBackup) && Runs.Run(s, steps, toBackup)
    ensures Runs.Reachable(Runs.Final(s, steps, toBackup), toBackup)
    decreases |steps|
  {
    hide Runs.Reachable, Do, Enabled;
    if steps != [] {
      Runs.ReachStep(s, steps[0], toBackup);
      StaysReachable(Do(s, steps[0], toBackup), steps[1..], toBackup);
    }
  }

  /** Adding a dataset takes five statements; migrating m datasets takes 4 m + 8, or 2 m + 1 when nothing in them is
      unfinished. The list to come has the new dataset at the end, or in place of the m. */
  lemma RoundBegins(s: System, step: Step, toBackup: bool)
    requires Enabled(s, step, toBackup) && (step.BeginAppend? || step.BeginMigrate?)
    ensures var s' := Do(s, step, toBackup);
      match step
      case BeginAppend => ToGo(s'.point) == 5 && Coming(s') == s.list + [NextIndex(true, Last(s.list))]
      case BeginMigrate(m, live) =>
        && 0 < m < |s.list|
        && if live then ToGo(s'.point) == 4 * m + 8 && Coming(s') == [NextIndex(false, s.list[m - 1])] + s.list[m..]
           else ToGo(s'.point) == 2 * m + 1 && Coming(s') == s.list[m..]
      case _ => true
  {
    hide NextIndex, Core, SomeLive, Retire;
    if step.BeginMigrate? {
      RetireLength(s.list[..step.m]);
      assert [] + s.list[step.m..] == s.list[step.m..];
    }
  }
}
