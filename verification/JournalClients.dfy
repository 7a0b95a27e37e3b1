/** Clients, the backup loop, crashes and restarts keep the invariant too. */
module JournalClients {
  import opened Common
  import opened Tables
  import opened Layout
  import opened Batches
  import opened Compaction
  import opened Storing
  import opened Updating
  import opened Maintenance
  import opened Journal
  import opened JournalInvariant
  import opened JournalRecovery
  import opened JournalSteps

  lemma StoreKeeps(s: System, job: Job, burnt: nat, toBackup: bool)
    requires Inv(s, toBackup) && Enabled(s, Store(job, burnt), toBackup)
    ensures Inv(Do(s, Store(job, burnt), toBackup), toBackup)
    ensures var id := s.disk.jobs[Last(s.list)].next + burnt;
      id !in s.rows && Do(s, Store(job, burnt), toBackup).rows == s.rows[id := Row(job, None)]
  {
    hide CoreOK, LiveSame, RowsBelow, OldOK, BackupOK, BackupPointOK, PointOK, Durable, Core, DestOK;
    var s', d := Do(s, Store(job, burnt), toBackup), s.disk;
    assert s'.disk == Stored(d, s.list, job, burnt);
    StoredCore(d, s.list, s.rows, job, burnt);
    DestUnlisted(s, toBackup);
    StoredRest(s, s', toBackup);
    StoredOld(d, s.list, job, burnt, s.backup);
  }

  lemma DestUnlisted(s: System, toBackup: bool)
    requires Inv(s, toBackup) && !s.point.Adding?
    ensures (s.point.Added? || s.point.Copying? || s.point.Copied?) ==> s.point.x !in s.list
  {
    hide CoreOK, LiveSame, RowsBelow, OldOK, BackupOK, BackupPointOK, Durable, Core, DestOK;
    if s.point.Added? || s.point.Copying? || s.point.Copied? {
      DestAtWork(s, toBackup, s.point.x, s.point.m);
    }
  }

  lemma StoredOld(d: Disk, list: seq<Index>, job: Job, burnt: nat, b: BackupPoint)
    requires list != [] && Last(list) in d.jobs && OldOK(d, list) && BackupOK(d, list) && BackupPointOK(d, b)
    ensures var d' := Stored(d, list, job, burnt); OldOK(d', list) && BackupOK(d', list) && BackupPointOK(d', b)
  {
    hide Before;
  }

  // ---------- storing ----------

  lemma {:induction false} FlatPrefixSame(tables: Tables, tables': Tables, list: seq<Index>, k: int)
    requires Listed(tables, list) && Listed(tables', list) && 0 <= k <= |list|
    requires forall i :: 0 <= i < k ==> tables'[list[i]] == tables[list[i]]
    ensures Flat(tables', list[..k]) == Flat(tables, list[..k])
    decreases k
  {
    hide View;
    if k > 0 {
      FlatPrefixSame(tables, tables', list, k - 1);
      FlatStep(tables, list, k - 1);
      FlatStep(tables', list, k - 1);
    }
  }

  /** Gathering does not look at the last dataset. */
  lemma PrefixKeeps(tables: Tables, tables': Tables, list: seq<Index>, m: int)
    requires Listed(tables, list) && Listed(tables', list) && 0 <= m <= |list|
    requires forall i :: 0 <= i < m ==> tables'[list[i]] == tables[list[i]]
    ensures forall d, k :: 0 <= k <= m ==> (Gathered(d, tables', list, k) <==> Gathered(d, tables, list, k))
    ensures SomeLive(tables', list, m) <==> SomeLive(tables, list, m)
  {
    forall k | 0 <= k <= m ensures Flat(tables', list[..k]) == Flat(tables, list[..k]) {
      FlatPrefixSame(tables, tables', list, k);
    }
    forall i, id | i < m && At(tables, list, i, id) && IsLive(RowOf(tables[list[i]], id))
      ensures SomeLive(tables', list, m)
    {
      assert At(tables', list, i, id);
    }
    forall i, id | i < m && At(tables', list, i, id) && IsLive(RowOf(tables'[list[i]], id))
      ensures SomeLive(tables, list, m)
    {
      assert At(tables, list, i, id);
    }
  }

  lemma SomeSame(tables: Tables, tables': Tables, list: seq<Index>)
    requires Listed(tables, list) && Listed(tables', list) && list != []
    requires forall i :: 0 <= i < |list| - 1 ==> tables'[list[i]] == tables[list[i]]
    ensures forall m :: 0 <= m < |list| ==> (SomeLive(tables', list, m) <==> SomeLive(tables, list, m))
  {
  }

  ghost function Stored(d: Disk, list: seq<Index>, job: Job, burnt: nat): Disk
    requires list != [] && Last(list) in d.jobs
  {
    var t := d.jobs[Last(list)];
    d.(jobs := d.jobs[Last(list) := JobsTable(t.rows[t.next + burnt := job], t.next + burnt + 1)])
  }

  /** The listed tables after the insert. */
  lemma StoredTables(d: Disk, list: seq<Index>, job: Job, burnt: nat)
    requires AllThere(d, list) && NoRepeats(list)
    ensures var d', last, id := Stored(d, list, job, burnt), Last(list), d.jobs[Last(list)].next + burnt;
      && AllThere(d', list) && d'.jobs[last].next == id + 1
      && last in Core(d, list)
      && Core(d', list) == Core(d, list)[last := Core(d, list)[last].(jobs := Core(d, list)[last].jobs[id := job])]
      && forall i :: 0 <= i < |list| - 1 ==> Core(d', list)[list[i]] == Core(d, list)[list[i]]
  {
  }

  /** The job is a new row of the store. */
  lemma StoredCore(d: Disk, list: seq<Index>, rows: map<JobID, Row>, job: Job, burnt: nat)
    requires CoreOK(d, list) && LiveSame(d, list, rows) && RowsBelow(d, list, rows)
    ensures var d', id := Stored(d, list, job, burnt), d.jobs[Last(list)].next + burnt;
      && id !in rows
      && CoreOK(d', list) && LiveSame(d', list, rows[id := Row(job, None)])
        && RowsBelow(d', list, rows[id := Row(job, None)])
      && forall i :: 0 <= i < |list| - 1 ==> Core(d', list)[list[i]] == Core(d, list)[list[i]]
  {
    hide WellFormed, Flat, LiveRows, Core, Consecutive, SortedIndices, NoRepeats;
    var core, last, id := Core(d, list), Last(list), d.jobs[Last(list)].next + burnt;
    ListFacts(d, list);
    StoredTables(d, list, job, burnt);
    StoreShape(core, list, d.jobs[last].next);
    RaisedNextID(core, list, d.jobs[last].next, id);
    JobAdded(core, list, id, job, Core(Stored(d, list, job, burnt), list));
    NewRowLive(Flat(core, list), rows, id, Row(job, None));
  }

  lemma NewRowLive(a: map<JobID, Row>, b: map<JobID, Row>, id: JobID, r: Row)
    requires LiveRows(a) == LiveRows(b) && IsLive(r)
    ensures LiveRows(a[id := r]) == LiveRows(b[id := r])
  {
    var x, y := LiveRows(a[id := r]), LiveRows(b[id := r]);
    forall i ensures i in x <==> i in y {
      assert i in LiveRows(a) <==> i in LiveRows(b);
    }
    forall i | i in x ensures x[i] == y[i] {
      if i != id {
        assert LiveRows(a)[i] == LiveRows(b)[i];
      }
    }
  }

  /** What is said about unfinished datasets and open entries does not depend on the last dataset. */
  lemma StoredRest(s: System, s': System, toBackup: bool)
    requires Inv(s, toBackup) && Up(s.point) && !s.point.Adding?
    requires (s.point.Added? || s.point.Copying? || s.point.Copied?) ==> s.point.x !in s.list
    requires CoreOK(s'.disk, s.list) && s' == s.(disk := s'.disk, rows := s'.rows)
    requires var d, d', last := s.disk, s'.disk, Last(s.list);
      && d' == d.(jobs := d'.jobs)
      && (forall ds :: ds in d'.jobs <==> ds in d.jobs)
      && (forall ds :: ds in d.jobs && ds != last ==> d'.jobs[ds] == d.jobs[ds])
      && forall i :: 0 <= i < |s.list| - 1 ==> Core(d', s.list)[s.list[i]] == Core(d, s.list)[s.list[i]]
    ensures PointOK(s') && Durable(s'.disk, s.list, toBackup)
  {
    hide LiveSame, RowsBelow, OldOK, BackupOK, BackupPointOK, CoreOK, Before, Core, DestOK, Gathered, PostingOK;
    hide HalfWay, SomeLive;
    var d, d', list := s.disk, s'.disk, s.list;
    LastUnseen(d, d', list);
    match s.point
    case Idle =>
    case Posting(from, script) => PostingStays(d, d', list, from, script);
    case Added(x, m) => WindowStays(d, d', list, x, m);
    case Copied(x, m) =>
      DestBounds(d, list, x, m);
      WindowStays(d, d', list, x, m);
    case Copying(x, m, k, half) =>
      DestBounds(d, list, x, m);
      DestStays(d, d', list, x, m);
      if half {
        var d0 :| HalfWay(d, list, x, k, d0);
        HalfStays(d, d', list, x, m, k, d0);
      }
    case _ =>
  }

  lemma LastUnseen(d: Disk, d': Disk, list: seq<Index>)
    requires CoreOK(d, list) && CoreOK(d', list)
    requires forall i :: 0 <= i < |list| - 1 ==> Core(d', list)[list[i]] == Core(d, list)[list[i]]
    ensures AllThere(d, list) && AllThere(d', list)
    ensures forall p, k :: 0 <= k < |list| ==>
      (Gathered(p, Core(d', list), list, k) <==> Gathered(p, Core(d, list), list, k))
    ensures forall k :: 0 <= k < |list| ==> (SomeLive(Core(d', list), list, k) <==> SomeLive(Core(d, list), list, k))
  {
    hide Gathered, SomeLive;
    CoreAt(d, list);
    CoreAt(d', list);
    PrefixKeeps(Core(d, list), Core(d', list), list, |list| - 1);
    SomeSame(Core(d, list), Core(d', list), list);
  }

  lemma WindowStays(d: Disk, d': Disk, list: seq<Index>, x: Index, m: nat)
    requires DestOK(d, list, x, m) && CoreOK(d, list) && CoreOK(d', list) && x !in list && d'.open == []
    requires d' == d.(jobs := d'.jobs) && (forall ds :: ds in d'.jobs <==> ds in d.jobs)
    requires forall ds :: ds in d.jobs && ds != Last(list) ==> d'.jobs[ds] == d.jobs[ds]
    requires forall k :: 0 <= k < |list| ==> (SomeLive(Core(d', list), list, k) <==> SomeLive(Core(d, list), list, k))
    requires Pair(d, x) ==
      NO_ROWS || (Gathered(Pair(d, x), Core(d, list), list, m) && Gathered(Pair(d, x), Core(d', list), list, m))
    ensures DestOK(d', list, x, m) && Pair(d', x) == Pair(d, x) && forall toBackup :: Durable(d', list, toBackup)
  {
    hide Gathered, SomeLive, Core, Consecutive, NextIndex;
    DestStays(d, d', list, x, m);
    if Pair(d, x) != NO_ROWS {
      StoreShape(Core(d, list), list, d.jobs[Last(list)].next);
      SomeGathered(Core(d, list), list, m, Pair(d, x));
    }
    assert WindowDisk(d', list, x, m);
  }

  lemma DestBounds(d: Disk, list: seq<Index>, x: Index, m: nat)
    requires DestOK(d, list, x, m)
    ensures 0 < m < |list| && x in d.jobs && x in d.statuses
  {
  }

  lemma PostingStays(d: Disk, d': Disk, list: seq<Index>, from: seq<Index>, script: seq<Stmt>)
    requires PostingOK(d, list, from, script) && d' == d.(jobs := d'.jobs) && forall ds :: ds in d'.jobs <==>
      ds in d.jobs
    ensures PostingOK(d', list, from, script)
  {
  }

  lemma HalfStays(d: Disk, d': Disk, list: seq<Index>, x: Index, m: nat, k: nat, d0: Dataset)
    requires DestOK(d, list, x, m) && DestOK(d', list, x, m) && k < m && HalfWay(d, list, x, k, d0)
    requires Pair(d', x) == Pair(d, x)
    requires Gathered(d0, Core(d, list), list, k) ==> Gathered(d0, Core(d', list), list, k)
    requires forall i :: 0 <= i < |list| - 1 ==> Core(d', list)[list[i]] == Core(d, list)[list[i]]
    ensures exists d1 :: HalfWay(d', list, x, k, d1)
  {
    hide Gathered, SomeLive, Core, Consecutive, NextIndex;
    CoreAt(d, list);
    CoreAt(d', list);
    assert HalfWay(d', list, x, k, d0);
  }

  lemma DestStays(d: Disk, d': Disk, list: seq<Index>, x: Index, m: nat)
    requires DestOK(d, list, x, m) && CoreOK(d, list) && CoreOK(d', list) && x !in list
    requires d' == d.(jobs := d'.jobs) && (forall ds :: ds in d'.jobs <==> ds in d.jobs)
    requires forall ds :: ds in d.jobs && ds != Last(list) ==> d'.jobs[ds] == d.jobs[ds]
    requires forall k :: 0 <= k < |list| ==> (SomeLive(Core(d', list), list, k) <==> SomeLive(Core(d, list), list, k))
    ensures DestOK(d', list, x, m) && Pair(d', x) == Pair(d, x)
  {
  }

  // ---------- updating ----------

  ghost function Updated(d: Disk, list: seq<Index>, q: seq<Status>): Disk {
    d.(statuses := map ds | ds in d.statuses ::
      if ds in list && ds in d.jobs then d.statuses[ds] + Belonging(q, d.jobs[ds].rows) else d.statuses[ds])
  }

  /** A batch names, once each, jobs that are not done yet. */
  ghost predicate Batch(rows: map<JobID, Row>, q: seq<Status>) {
    && DistinctJobs(q)
    && forall k :: 0 <= k < |q| ==> q[k].state != NP && q[k].jobID in rows && IsLive(rows[q[k].jobID])
  }

  lemma BatchInStore(flat: map<JobID, Row>, rows: map<JobID, Row>, q: seq<Status>)
    requires LiveRows(flat) == LiveRows(rows) && Batch(rows, q)
    ensures Batch(flat, q) && LiveRows(Applied(flat, q)) == LiveRows(Applied(rows, q))
  {
    forall k | 0 <= k < |q| ensures q[k].jobID in flat && IsLive(flat[q[k].jobID]) {
      assert q[k].jobID in LiveRows(rows);
      assert q[k].jobID in LiveRows(flat);
    }
    var a, b := LiveRows(Applied(flat, q)), LiveRows(Applied(rows, q));
    forall id | id in flat || id in rows ensures (id in a <==> id in b) && (id in a ==> a[id] == b[id]) {
      LatestFrom(q, id);
      if Latest(q, id).Some? {
        var p :| LastAt(q, id, p);
        assert id in LiveRows(flat) && LiveRows(flat)[id] == LiveRows(rows)[id];
      } else {
        assert id in LiveRows(flat) <==> id in LiveRows(rows);
        assert id in LiveRows(flat) ==> LiveRows(flat)[id] == LiveRows(rows)[id];
      }
    }
    forall id ensures id in a <==> id in b {}
  }

  /** Every listed dataset receives its part of the batch. */
  lemma UpdatedTables(d: Disk, list: seq<Index>, q: seq<Status>)
    requires AllThere(d, list)
    ensures var core, core' := Core(d, list), Core(Updated(d, list, q), list);
      && AllThere(Updated(d, list, q), list)
      && (forall ds :: ds in core' <==> ds in core)
      && forall ds :: ds in core ==> core'[ds] == Extended(core[ds], q)
  {
  }

  lemma ExtendedAll(core: Tables, core': Tables, list: seq<Index>, q: seq<Status>)
    requires SameNames(core, list) && IdsAscend(core, list) && Batch(Flat(core, list), q)
    requires forall ds :: ds in core ==> DatasetOK(core[ds])
    requires forall ds :: ds in core' <==> ds in core
    requires forall ds :: ds in core ==> core'[ds] == Extended(core[ds], q)
    ensures forall ds :: ds in core' ==> core'[ds].jobs == core[ds].jobs && DatasetOK(core'[ds])
  {
    hide Flat, DatasetOK;
    FlatRows(core, list);
    forall ds | ds in core' ensures DatasetOK(core'[ds]) {
      var i :| 0 <= i < |list| && list[i] == ds;
      forall k | 0 <= k < |q| && q[k].jobID in core[ds].jobs
        ensures !Terminal(StateOf(Latest(core[ds].statuses, q[k].jobID)))
      {
        assert At(core, list, i, q[k].jobID);
      }
      ExtendedOK(core[ds], q);
    }
  }

  lemma UpdatedCore(d: Disk, list: seq<Index>, rows: map<JobID, Row>, q: seq<Status>)
    requires CoreOK(d, list) && LiveSame(d, list, rows) && RowsBelow(d, list, rows) && Batch(rows, q)
    ensures var d' := Updated(d, list, q);
      CoreOK(d', list) && LiveSame(d', list, Applied(rows, q)) && RowsBelow(d', list, Applied(rows, q))
  {
    hide LiveRows, Flat, Core, Before, Consecutive, IdsBelow, DatasetOK, Batch, Applied;
    var core, d', next := Core(d, list), Updated(d, list, q), d.jobs[Last(list)].next;
    BatchInStore(Flat(core, list), rows, q);
    UpdatedTables(d, list, q);
    ExtendedAll(core, Core(d', list), list, q);
    OnlyStatuses(core, Core(d', list), list, next);
    BatchFlat(core, Core(d', list), list, q);
    AppliedIds(rows, q);
  }

  lemma AppliedIds(rows: map<JobID, Row>, q: seq<Status>)
    ensures forall id :: id in Applied(rows, q) <==> id in rows
  {
  }

  lemma BatchFlat(core: Tables, core': Tables, list: seq<Index>, q: seq<Status>)
    requires Listed(core, list) && IdsAscend(core, list) && Listed(core', list) && IdsAscend(core', list)
    requires forall ds :: ds in core ==> ds in core' && core'[ds] == Extended(core[ds], q)
    requires Batch(Flat(core, list), q)
    ensures Flat(core', list) == Applied(Flat(core, list), q)
  {
    hide Flat;
    FlatApplied(core, core', list, q, q);
  }

  /** No other listed dataset holds a job of this one. */
  lemma SliceOnly(core: Tables, list: seq<Index>, i: int, q: seq<Status>)
    requires Listed(core, list) && IdsAscend(core, list) && 0 <= i < |list|
    requires forall k :: 0 <= k < |q| ==> q[k].jobID in core[list[i]].jobs
    ensures forall j :: 0 <= j < |list| ==> Belonging(q, core[list[j]].jobs) == if list[j] == list[i] then q else []
  {
    forall j | 0 <= j < |list| ensures Belonging(q, core[list[j]].jobs) == if list[j] == list[i] then q else [] {
      if list[j] == list[i] {
        BelongingAll(q, core[list[i]].jobs);
      } else {
        forall k | 0 <= k < |q| ensures q[k].jobID !in core[list[j]].jobs {
          assert At(core, list, i, q[k].jobID);
          assert At(core, list, j, q[k].jobID) ==> i < j || j < i;
        }
        BelongingNone(q, core[list[j]].jobs);
      }
    }
  }

  /** Writing the statuses of one dataset's jobs to it gives every listed dataset its part. */
  lemma SliceUpdated(d: Disk, list: seq<Index>, ds: Index, q: seq<Status>)
    requires CoreOK(d, list) && ds in list && ds in d.jobs && ds in d.statuses
    requires forall k :: 0 <= k < |q| ==> q[k].jobID in d.jobs[ds].rows
    ensures d.(statuses := d.statuses[ds := d.statuses[ds] + q]) == Updated(d, list, q)
  {
    hide Before, Consecutive, DatasetOK, Belonging, Core;
    CoreAt(d, list);
    var i :| 0 <= i < |list| && list[i] == ds;
    SliceOnly(Core(d, list), list, i, q);
    forall x | x in list ensures Belonging(q, d.jobs[x].rows) == if x == ds then q else [] {
      var j :| 0 <= j < |list| && list[j] == x;
      assert Belonging(q, Core(d, list)[list[j]].jobs) == if x == ds then q else [];
    }
    SliceWritten(d, list, ds, q);
  }

  lemma SliceWritten(d: Disk, list: seq<Index>, ds: Index, q: seq<Status>)
    requires AllThere(d, list) && ds in list
    requires forall x :: x in list ==> Belonging(q, d.jobs[x].rows) == if x == ds then q else []
    ensures d.(statuses := d.statuses[ds := d.statuses[ds] + q]) == Updated(d, list, q)
  {
    hide Belonging;
    var a, b := d.statuses[ds := d.statuses[ds] + q], Updated(d, list, q).statuses;
    forall x ensures x in a <==> x in b {}
    forall x | x in a ensures a[x] == b[x] {}
  }

  lemma UpdatesBatch(s: System, ds: Index, q: seq<Status>, toBackup: bool)
    requires Enabled(s, Update(ds, q), toBackup)
    ensures Batch(s.rows, q)
  {
  }

  lemma UpdatedRest(d: Disk, list: seq<Index>, ds: Index, q: seq<Status>, b: BackupPoint, toBackup: bool)
    requires ds in d.statuses && OldOK(d, list) && BackupOK(d, list) && BackupPointOK(d, b) && d.open == []
    requires Only(d, list, [], [])
    ensures var d' := d.(statuses := d.statuses[ds := d.statuses[ds] + q]);
      OldOK(d', list) && BackupOK(d', list) && BackupPointOK(d', b) && Only(d', list, [], [])
        && Durable(d', list, toBackup)
  {
    hide Before;
  }

  lemma UpdateKeeps(s: System, ds: Index, q: seq<Status>, toBackup: bool)
    requires Inv(s, toBackup) && Enabled(s, Update(ds, q), toBackup)
    ensures Inv(Do(s, Update(ds, q), toBackup), toBackup)
  {
    hide CoreOK, LiveSame, RowsBelow, BackupPointOK, Core, Belonging, Applied, Before, OldOK, BackupOK, Batch, Updated;
    var s' := Do(s, Update(ds, q), toBackup);
    assert Batch(s.rows, q) by { UpdatesBatch(s, ds, q, toBackup); }
    SliceUpdated(s.disk, s.list, ds, q);
    UpdatedCore(s.disk, s.list, s.rows, q);
    UpdatedRest(s.disk, s.list, ds, q, s.backup, toBackup);
  }

  // ---------- the backup loop ----------

  /** The main goroutine's tables and journal entry are as they were. */
  ghost predicate MainSame(s: System, s': System) {
    && s' == s.(disk := s'.disk, backup := s'.backup)
    && s'.disk.jobs == s.disk.jobs && s'.disk.statuses == s.disk.statuses && s'.disk.open == s.disk.open
  }

  lemma PointStays(s: System, s': System)
    requires PointOK(s) && Up(s.point) && MainSame(s, s')
    ensures PointOK(s')
  {
    hide Gathered, SomeLive, Consecutive, NextIndex, MaxID;
    CoreSame(s.disk, s'.disk, s.list);
    if s.point.Copying? && s.point.half {
      var d0 :| HalfWay(s.disk, s.list, s.point.x, s.point.k, d0);
      assert HalfWay(s'.disk, s.list, s.point.x, s.point.k, d0);
    }
  }

  lemma DurableStays(d: Disk, d': Disk, list: seq<Index>, toBackup: bool)
    requires Durable(d, list, toBackup) && d'.jobs == d.jobs && d'.statuses == d.statuses && d'.open == d.open
    requires forall y :: y in d.oldStatuses && y in d.jobs ==> y in d'.oldStatuses
    ensures Durable(d', list, toBackup)
  {
    hide WindowDisk;
    if d.open == [] {
      WindowSame(d, d', list);
    }
  }

  lemma BackupMainSame(s: System)
    requires s.backup != Resting && BackupSqlOK(s)
    ensures MainSame(s, BackupStep(s))
  {
  }

  lemma MainKept(d: Disk, d': Disk, list: seq<Index>)
    requires d'.jobs == d.jobs && d'.statuses == d.statuses
    ensures Kept(d, d', list)
  {
  }

  lemma BackupKeeps(s: System, toBackup: bool)
    requires Inv(s, toBackup) && Enabled(s, Backup, toBackup)
    ensures Inv(Do(s, Backup, toBackup), toBackup)
  {
    hide CoreOK, LiveSame, RowsBelow, PointOK, Durable, OldOK, BackupOK, BackupPointOK, BackupStep, BackupSqlOK;
    var s' := Do(s, Backup, toBackup);
    BackupMainSame(s);
    BackupDisk(s, toBackup);
    MainKept(s.disk, s'.disk, s.list);
    CoreKept(s.disk, s'.disk, s.list, s.rows);
    PointStays(s, s');
    DurableStays(s.disk, s'.disk, s.list, toBackup);

  }

  lemma BackupDisk(s: System, toBackup: bool)
    requires Inv(s, toBackup) && Enabled(s, Backup, toBackup)
    ensures var s' := Do(s, Backup, toBackup);
      && OldOK(s'.disk, s.list) && BackupOK(s'.disk, s.list) && BackupPointOK(s'.disk, s'.backup)
      && (s'.backup == Resting ==> s'.disk.backupOpen == [])
      && forall y :: y in s.disk.oldStatuses && y in s.disk.jobs ==> y in s'.disk.oldStatuses
  {
    hide CoreOK, LiveSame, RowsBelow, PointOK, Durable, Before, OldOK, BackupOK, BackupPointOK;
    match s.backup
    case Uploading(x, n) => UploadDisk(s.disk, s.list, x, n);
    case Uploaded(x) => DropStarts(s.disk, s.list, x);
    case Dropping(x, n) => DropDisk(s.disk, s.list, x, n);
    case Resting =>
  }

  lemma UploadDisk(d: Disk, list: seq<Index>, x: Index, n: nat)
    requires OldOK(d, list) && BackupOK(d, list) && BackupPointOK(d, Uploading(x, n))
    ensures x in d.oldJobs && x in d.oldStatuses && n <= 2
    ensures n == 0 ==> var d' := d.(upJobs := d.upJobs[x := d.oldJobs[x]]);
      OldOK(d', list) && BackupOK(d', list) && BackupPointOK(d', Uploading(x, 1))
    ensures n == 1 ==> var d' := d.(upStatuses := d.upStatuses[x := d.oldStatuses[x]]);
      OldOK(d', list) && BackupOK(d', list) && BackupPointOK(d', Uploading(x, 2))
    ensures n == 2 ==> var d' := d.(backupOpen := []);
      OldOK(d', list) && BackupOK(d', list) && BackupPointOK(d', Uploaded(x))
  {
    hide Before;
  }

  lemma DropStarts(d: Disk, list: seq<Index>, x: Index)
    requires OldOK(d, list) && BackupOK(d, list) && BackupPointOK(d, Uploaded(x))
    ensures var d' := d.(backupOpen := d.backupOpen + [BackupDropDS(x)]);
      OldOK(d', list) && BackupOK(d', list) && BackupPointOK(d', Dropping(x, 0))
  {
    hide Before;
  }

  lemma DropDisk(d: Disk, list: seq<Index>, x: Index, n: nat)
    requires OldOK(d, list) && BackupOK(d, list) && BackupPointOK(d, Dropping(x, n))
    ensures n <= 2 && x !in d.jobs
    ensures n == 0 ==> var d' := d.(oldStatuses := d.oldStatuses - {x});
      OldOK(d', list) && BackupOK(d', list) && BackupPointOK(d', Dropping(x, 1))
    ensures n == 1 ==> var d' := d.(oldJobs := d.oldJobs - {x});
      OldOK(d', list) && BackupOK(d', list) && BackupPointOK(d', Dropping(x, 2))
    ensures n == 2 ==> var d' := d.(backupOpen := []);
      OldOK(d', list) && BackupOK(d', list) && BackupPointOK(d', Resting)
  {
    hide Before;
  }

  lemma BeginBackupKeeps(s: System, x: Index, toBackup: bool)
    requires Inv(s, toBackup) && Enabled(s, BeginBackup(x), toBackup)
    ensures Inv(Do(s, BeginBackup(x), toBackup), toBackup)
  {
    hide CoreOK, LiveSame, RowsBelow, PointOK, Durable, Before;
    var s' := Do(s, BeginBackup(x), toBackup);
    CoreKept(s.disk, s'.disk, s.list, s.rows);
    PointStays(s, s');
    DurableStays(s.disk, s'.disk, s.list, toBackup);
  }

  // ---------- starting rounds, crashing, restarting ----------

  lemma BeginAppendKeeps(s: System, toBackup: bool)
    requires Inv(s, toBackup) && Enabled(s, BeginAppend, toBackup)
    ensures Inv(Do(s, BeginAppend, toBackup), toBackup)
  {
    hide CoreOK, LiveSame, RowsBelow, OldOK, BackupOK, BackupPointOK, Durable, Core, NextIndex, Only;
    ListFacts(s.disk, s.list);
  }

  lemma CrashKeeps(s: System, toBackup: bool)
    requires Enabled(s, Crash, toBackup) && Inv(s, toBackup)
    ensures Inv(Do(s, Crash, toBackup), toBackup)
  {
    hide CoreOK, LiveSame, RowsBelow, OldOK, BackupOK, Durable, Core;
  }

  lemma NamesAre(d: Disk, list: seq<Index>, names: seq<Index>)
    requires AllThere(d, list) && SortedIndices(list) && Only(d, list, [], [])
    requires SortedIndices(names) && forall ds :: ds in names <==> ds in d.jobs
    ensures names == list
  {
    hide Before, SortedIndices;
    SortedUnique(names, list);
  }

  /** Well-formed datasets pass the checks on empty and overlapping ranges. */
  lemma ListRestarts(d: Disk, list: seq<Index>)
    requires CoreOK(d, list)
    ensures RestartOK(d, list)
  {
    hide CoreOK, IdsBefore, Consecutive, SortedIndices, NoRepeats;
    ListFacts(d, list);
    forall i | 0 < i < |list| - 1 ensures IdsBefore(d.jobs[list[i - 1]], d.jobs[list[i]]) {
      Neighbours(d, list, i);
    }
  }

  /** With nothing but the listed datasets on disk, the names sort into the list, and all assertions hold. */
  lemma RestartsWell(d: Disk, list: seq<Index>, names: seq<Index>)
    requires CoreOK(d, list) && Only(d, list, [], []) && SortedIndices(names) && forall ds :: ds in names <==>
      ds in d.jobs
    ensures names == list && RestartOK(d, names)
  {
    hide CoreOK, RestartOK, Only;
    ListFacts(d, list);
    NamesAre(d, list, names);
    ListRestarts(d, list);
  }

  lemma Neighbours(d: Disk, list: seq<Index>, i: int)
    requires CoreOK(d, list) && 0 < i < |list|
    ensures IdsBefore(d.jobs[list[i - 1]], d.jobs[list[i]])
  {
    var core, t, u := Core(d, list), d.jobs[list[i - 1]], d.jobs[list[i]];
    assert list[i - 1] in list && list[i] in list;
    forall a, b | a in t.rows && b in u.rows ensures a < b {
      assert At(core, list, i - 1, a) && At(core, list, i, b);
    }
  }

  /** With the destination still next to its sources an assertion fails. */
  lemma RestartsBadly(d: Disk, list: seq<Index>, names: seq<Index>, x: Index, m: int)
    requires CoreOK(d, list) && WindowDisk(d, list, x, m) && SortedIndices(names) && forall ds :: ds in names <==>
      ds in d.jobs
    ensures x !in list && !RestartOK(d, names)
  {
    hide WellFormed, Gathered, NextIndex;
    ListFacts(d, list);
    WindowNames(d, list, names, x, m);
    assert names[m] == x && m < |names| - 1 && names[m - 1] == list[m - 1];
    if Pair(d, x) == NO_ROWS {
      assert d.jobs[names[m]].rows == map[];
    } else {
      GatheredBehind(d, list, x, m);
    }
  }

  lemma InsertedSorted(list: seq<Index>, x: Index, m: int)
    requires Consecutive(list) && 0 < m < |list| && x == NextIndex(false, list[m - 1])
    ensures SortedIndices(list[..m] + [x] + list[m..])
  {
  }

  lemma InsertedHas(list: seq<Index>, x: Index, m: int)
    requires 0 < m < |list|
    ensures forall ds :: ds in list[..m] + [x] + list[m..] <==> ds in list || ds == x
  {
  }

  /** The destination sorts in right after its last source. */
  lemma WindowNames(d: Disk, list: seq<Index>, names: seq<Index>, x: Index, m: int)
    requires CoreOK(d, list) && WindowDisk(d, list, x, m) && SortedIndices(names) && forall ds :: ds in names <==>
      ds in d.jobs
    ensures x !in list && names == list[..m] + [x] + list[m..]
  {
    hide WellFormed, Gathered, Before, SortedIndices, NextIndex;
    ListFacts(d, list);
    InsertedSorted(list, x, m);
    InsertedHas(list, x, m);
    SortedUnique(names, list[..m] + [x] + list[m..]);
    FreshIndex(list, {}, m - 1, false);
  }

  /** What was gathered does not lie behind the last source. */
  lemma GatheredBehind(d: Disk, list: seq<Index>, x: Index, m: int)
    requires CoreOK(d, list) && WindowDisk(d, list, x, m) && Pair(d, x) != NO_ROWS && d.jobs[list[m - 1]].rows != map[]
    ensures !IdsBefore(d.jobs[list[m - 1]], d.jobs[x])
  {
    hide Flat, Before, NextIndex, LiveRows, DatasetOK, Gathered, MaxID, RowOf;
    var core, next := Core(d, list), d.jobs[Last(list)].next;
    var t, p := core[list[m - 1]], Pair(d, x);
    StoreShape(core, list, next);
    GatheredBelow(core, list, next, m, p);
    assert IdsBelow(t, next);
    MaxIDBounds(JobsTable(t.jobs, next));
    MaxIDBounds(JobsTable(p.jobs, next));
    var a, b := MaxID(JobsTable(t.jobs, next)), MaxID(JobsTable(p.jobs, next));
    var k := GatheredAt(p, core, list, m, b);
    assert At(core, list, m - 1, a);
    assert k < m - 1 ==> b < a;
    assert k == m - 1 ==> b in t.jobs;
  }

  lemma RestartKeeps(s: System, names: seq<Index>, toBackup: bool)
    requires Inv(s, toBackup) && Enabled(s, Restart(names), toBackup)
    ensures Inv(Do(s, Restart(names), toBackup), toBackup)
  {
    hide CoreOK, LiveSame, RowsBelow, OldOK, BackupOK, RestartOK, WindowDisk;
    if Only(s.disk, s.list, [], []) {
      RestartsWell(s.disk, s.list, names);
    } else {
      var x, m :| WindowDisk(s.disk, s.list, x, m);
      RestartsBadly(s.disk, s.list, names, x, m);
    }
  }

  lemma StepKeeps(s: System, step: Step, toBackup: bool)
    requires Inv(s, toBackup) && Enabled(s, step, toBackup)
    ensures Inv(Do(s, step, toBackup), toBackup)
  {
    hide *;
    match step
    case Store(job, burnt) => StoreKeeps(s, job, burnt, toBackup);
    case Update(ds, q) => UpdateKeeps(s, ds, q, toBackup);
    case BeginAppend => BeginAppendKeeps(s, toBackup);
    case BeginMigrate(m, live) => BeginMigrateKeeps(s, m, live, toBackup);
    case Main(ids) => MainKeeps(s, ids, toBackup);
    case BeginBackup(x) => BeginBackupKeeps(s, x, toBackup);
    case Backup => BackupKeeps(s, toBackup);
    case Crash => CrashKeeps(s, toBackup);
    case Recover => RecoverKeeps(s, toBackup);
    case Restart(names) => RestartKeeps(s, names, toBackup);
  }
}
