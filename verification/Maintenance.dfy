/** What the check loop does to the store: adding datasets, choosing what to migrate, dropping the sources. */
module Maintenance {
  import opened Common
  import opened Tables
  import opened Cache
  import opened Layout
  import opened Migration
  import opened Compaction
  import opened Reading

  // ---------- adding a dataset ----------

  lemma FreshIndex(list: seq<Index>, used: set<Index>, i: int, appendLast: bool)
    requires Consecutive(list) && 0 <= i < |list| && (appendLast ==> i == |list| - 1)
    requires forall ds :: ds in used ==> Seen(list, ds)
    ensures NextIndex(appendLast, list[i]) !in used
    ensures NextIndex(appendLast, list[i]) !in list
  {
    var x := NextIndex(appendLast, list[i]);
    forall ds | ds in used ensures ds != x {
      NextIndexFresh(list, i, appendLast, ds);
    }
    if x in list {
      NextIndexFresh(list, i, appendLast, x);
    }
  }

  lemma AppendedAt(tables: Tables, list: seq<Index>, x: Index)
    requires Listed(tables, list) && x !in tables
    ensures var tables', list' := tables[x := NO_ROWS], list + [x];
      && Listed(tables', list')
      && (forall i, id :: At(tables', list', i, id) <==> At(tables, list, i, id))
      && (forall i :: 0 <= i < |list| ==> tables'[list'[i]] == tables[list[i]])
  {
  }

  lemma AppendedFlat(tables: Tables, list: seq<Index>, x: Index)
    requires Listed(tables, list) && IdsAscend(tables, list) && x !in tables
    ensures Listed(tables[x := NO_ROWS], list + [x]) && IdsAscend(tables[x := NO_ROWS], list + [x])
    ensures Flat(tables[x := NO_ROWS], list + [x]) == Flat(tables, list)
  {
    hide Flat;
    AppendedAt(tables, list, x);
    FlatRows(tables, list);
    forall id | InSome(tables, list, id) ensures InSome(tables[x := NO_ROWS], list + [x], id) {
      var i :| At(tables, list, i, id);
      assert At(tables[x := NO_ROWS], list + [x], i, id);
    }
    FlatEquals(tables[x := NO_ROWS], list + [x], Flat(tables, list));
  }

  lemma AppendedWellFormed(tables: Tables, list: seq<Index>, nextID: JobID, x: Index)
    requires WellFormed(tables, list, nextID) && tables[list[|list| - 1]].jobs != map[]
    requires x == NextIndex(true, list[|list| - 1]) && x !in tables
    ensures WellFormed(tables[x := NO_ROWS], list + [x], nextID)
    ensures Flat(tables[x := NO_ROWS], list + [x]) == Flat(tables, list)
  {
    hide Flat, IdsAscend, Consecutive;
    AppendedFlat(tables, list, x);
    AppendedAt(tables, list, x);
    AppendedShape(list, x);
    assert DatasetOK(NO_ROWS) && IdsBelow(NO_ROWS, nextID);
  }

  lemma AppendedShape(list: seq<Index>, x: Index)
    requires Consecutive(list) && x == NextIndex(true, list[|list| - 1])
    ensures Consecutive(list + [x])
    ensures forall ds :: Seen(list, ds) || ds == x ==> Seen(list + [x], ds)
  {
  }

  /** The sequence of the new dataset continues after the largest id there is. */
  lemma Continued(tables: Tables, list: seq<Index>, nextID: JobID, ranges: seq<Range>)
    requires WellFormed(tables, list, nextID) && RangesOf(ranges, tables, list) && |list| > 1
    requires tables[list[|list| - 1]] == NO_ROWS
    ensures ranges[|ranges| - 1].maxJobID > 0
    ensures WellFormed(tables, list, ranges[|ranges| - 1].maxJobID + 1)
  {
    var n := |list| - 2;
    var r := ranges[n];
    assert At(tables, list, n, r.maxJobID);
    forall ds, id | ds in tables && id in tables[ds].jobs ensures 1 <= id < r.maxJobID + 1 {
      var i :| 0 <= i < |list| && list[i] == ds;
      assert IdsBelow(tables[ds], nextID) && At(tables, list, i, id);
    }
  }

  lemma EmptySound(tables: Tables, cache: EmptyCache, x: Index)
    requires CacheSound(tables, cache)
    ensures CacheSound(tables[x := NO_ROWS], cache)
  {
  }

  // ---------- choosing what to migrate ----------

  lemma NoStatusWithoutJobs(d: Dataset, bound: JobID)
    requires DatasetOK(d) && bound >= 1 && IdsBelow(d, bound) && Count(JobIds(d), bound) == 0
    ensures d.statuses == []
  {
    if d.statuses != [] {
      var id := d.statuses[0].jobID;
      assert id in JobIds(d);
      InOrderHas(JobIds(d), 1, bound, id);
    }
  }

  lemma HasJobs(d: Dataset, bound: JobID)
    requires bound >= 1 && Count(JobIds(d), bound) > 0
    ensures d.jobs != map[]
  {
    var q := InOrder(JobIds(d), 1, bound);
    InOrderAscends(JobIds(d), 1, bound);
    assert q[0] in d.jobs;
  }

  ghost predicate AnyLive(d: Dataset) {
    exists id :: id in d.jobs && IsLive(RowOf(d, id))
  }

  /** The thresholds of the configuration. */
  datatype Limits = Limits(maxDSSize: int, maxMigrateOnce: int, jobDoneMigrateThres: real, jobStatusMigrateThres: real)

  /** Whether a dataset is ripe for migration, and what counts as left in it. */
  function MigrateCheck(d: Dataset, bound: JobID, recent: bool, limits: Limits): (bool, int)
    requires bound >= 1
  {
    var total, done := Count(JobIds(d), bound), CountTerminal(d.statuses);
    if total == 0 then (false, 0)
    else
      (!recent && (done as real / total as real > limits.jobDoneMigrateThres
                   || |d.statuses| as real / total as real > limits.jobStatusMigrateThres),
       total - done)
  }

  /** How many datasets a round takes, from the idx-th on, and how much of them counts as left. */
  function Chosen(tables: Tables, list: seq<Index>, bound: JobID, recent: set<Index>, limits: Limits, idx: nat,
          liveCount: int): (nat, int)
    requires bound >= 1 && idx <= |list| && forall i :: 0 <= i < |list| ==> list[i] in tables
    decreases |list| - idx
  {
    if idx == |list| then (idx, liveCount)
    else
      var (ripe, remCount) := MigrateCheck(tables[list[idx]], bound, list[idx] in recent, limits);
      if idx < |list| - 1 && ripe && idx < limits.maxMigrateOnce && liveCount < limits.maxDSSize
      then Chosen(tables, list, bound, recent, limits, idx + 1, liveCount + remCount)
      else (idx, liveCount)
  }

  /** One more turn of the loop. */
  lemma ChosenTurn(tables: Tables, list: seq<Index>, bound: JobID, recent: set<Index>, limits: Limits, idx: nat,
          liveCount: int)
    requires bound >= 1 && idx < |list| && forall i :: 0 <= i < |list| ==> list[i] in tables
    ensures var (ripe, remCount) := MigrateCheck(tables[list[idx]], bound, list[idx] in recent, limits);
      Chosen(tables, list, bound, recent, limits, idx, liveCount) ==
        if idx < |list| - 1 && ripe && idx < limits.maxMigrateOnce && liveCount < limits.maxDSSize
        then Chosen(tables, list, bound, recent, limits, idx + 1, liveCount + remCount)
        else (idx, liveCount)
  {
  }

  lemma ChosenEnd(tables: Tables, list: seq<Index>, bound: JobID, recent: set<Index>, limits: Limits, liveCount: int)
    requires bound >= 1 && forall i :: 0 <= i < |list| ==> list[i] in tables
    ensures Chosen(tables, list, bound, recent, limits, |list|, liveCount) == (|list|, liveCount)
  {
  }

  lemma DatasetAt(tables: Tables, list: seq<Index>, nextID: JobID)
    requires WellFormed(tables, list, nextID)
    ensures nextID >= 1 && Listed(tables, list) && IdsAscend(tables, list)
    ensures forall i :: 0 <= i < |list| ==>
      list[i] in tables && DatasetOK(tables[list[i]]) && IdsBelow(tables[list[i]], nextID)
  {
    hide IdsAscend, DatasetOK, IdsBelow, Consecutive;
  }

  const TWICE_DONE: Dataset :=
    Dataset(map[1 := Job(1, "GW", ""), 2 := Job(2, "GW", "")], [Status(1, Succeeded, 1, 0), Status(1, Succeeded, 1, 0)])

  const REOPENED: Dataset :=
    Dataset(map[1 := Job(1, "GW", "")], [Status(1, Succeeded, 1, 0), Status(1, Failed, 2, 0)])

  const TWO_DATASETS: seq<Index> := [[1], [2]]

  /** Whenever the first of two datasets counts as finished, the round takes it, makes no destination, and what is
      unfinished in it is gone. */
  lemma MiscountLosesJob(d: Dataset, last: Dataset, id: JobID, bound: JobID, limits: Limits)
    requires bound >= 1 && id in d.jobs && IsLive(RowOf(d, id)) && RemCount(d, bound) == 0
    requires (forall x :: x in d.jobs ==> 1 <= x < bound) && forall x, y :: x in d.jobs && y in last.jobs ==> x < y
    requires limits.jobDoneMigrateThres < 1.0 && limits.maxMigrateOnce >= 1 && limits.maxDSSize > 0
    ensures var list := TWO_DATASETS;
      var tables: Tables := map[list[0] := d, list[1] := last];
      && Chosen(tables, list, bound, {}, limits, 0, 0) == (1, 0)
      && id in LiveRows(Flat(tables, list)) && id !in Flat(Without(tables, list[..1]), list[1..])
  {
    var list := TWO_DATASETS;
    var tables: Tables := map[list[0] := d, list[1] := last];
    assert id in JobIds(d);
    InOrderHas(JobIds(d), 1, bound, id);
    assert MigrateCheck(d, bound, false, limits) == (true, 0);
    assert list[..1] == [list[0]] && list[1..] == [list[1]];
    assert list[1..][..0] == list[..0];
    assert At(tables, list, 0, id);
    FlatStep(tables, list, 0);
    FlatStep(tables, list, 1);
    assert list[..2] == list;
  }

  /** Two ways to be miscounted: a second terminal row, and a row that is not terminal after one that is. */
  lemma MiscountedInputs(bound: JobID)
    requires bound >= 3
    ensures RemCount(TWICE_DONE, bound) == 0 && IsLive(RowOf(TWICE_DONE, 2))
    ensures RemCount(REOPENED, bound) == 0 && IsLive(RowOf(REOPENED, 1))
  {
    var a, b := TWICE_DONE.statuses, REOPENED.statuses;
    assert a[..1] == [a[0]] && b[..1] == [b[0]] && a[..1][..0] == b[..1][..0] == [];
    assert CountTerminal(a[..1]) == CountTerminal(b[..1]) == 1;
    assert Latest(a[..1], 2) == None;
    TwoJobs(TWICE_DONE, bound);
    forall id ensures id in JobIds(REOPENED) <==> id in {1} {}
    assert JobIds(REOPENED) == {1};
    CountOne(1, 1, bound);
  }

  lemma TwoJobs(d: Dataset, bound: JobID)
    requires bound >= 3 && forall id :: id in d.jobs <==> id == 1 || id == 2
    ensures Count(JobIds(d), bound) == 2
  {
    forall id ensures id in JobIds(d) <==> id in {1} + {2} {}
    assert JobIds(d) == {1} + {2};
    CountSplit({1}, {2}, 1, bound);
    CountOne(1, 1, bound);
    CountOne(2, 1, bound);
  }

  /** In a dataset without a second terminal row for any job, the count of what remains is the number of live jobs. */
  lemma RemCountLive(d: Dataset, bound: JobID)
    requires DatasetOK(d) && bound >= 1 && IdsBelow(d, bound)
    ensures RemCount(d, bound) == Count(LiveIds(d), bound) >= 0
    ensures RemCount(d, bound) > 0 <==> AnyLive(d)
  {
    RemCountIff(d, bound);
    var q := InOrder(LiveIds(d), 1, bound);
    InOrderAscends(LiveIds(d), 1, bound);
    if q != [] {
      assert q[0] in LiveIds(d);
    }
    if id :| id in d.jobs && IsLive(RowOf(d, id)) {
      InOrderHas(LiveIds(d), 1, bound, id);
    }
  }

  lemma NothingLive(tables: Tables, list: seq<Index>)
    ensures !SomeLive(tables, list, 0)
  {
  }

  lemma SomeLiveStep(tables: Tables, list: seq<Index>, m: int)
    requires Listed(tables, list) && 0 <= m < |list|
    ensures SomeLive(tables, list, m + 1) <==> SomeLive(tables, list, m) || AnyLive(tables[list[m]])
  {
  }

  lemma NoneGathered(tables: Tables, list: seq<Index>, m: int)
    requires Listed(tables, list) && IdsAscend(tables, list) && 0 <= m <= |list| && !SomeLive(tables, list, m)
    ensures Gathered(NO_ROWS, tables, list, m)
  {
    PrefixAt(tables, list, m);
    FlatRows(tables, list[..m]);
    forall id ensures id !in LiveRows(Flat(tables, list[..m])) {
      if id in Flat(tables, list[..m]) {
        var i :| At(tables, list[..m], i, id);
        assert At(tables, list, i, id);
      }
    }
  }

  // ---------- copying ----------

  /** The job rows of a query result, inserted one after the other. */
  function Copied(jobs: map<JobID, Job>, q: seq<JobT>): map<JobID, Job> {
    if q == [] then jobs else Copied(jobs, q[..|q| - 1])[q[|q| - 1].id := q[|q| - 1].row.job]
  }

  lemma {:induction false} CopiedHas(jobs: map<JobID, Job>, q: seq<JobT>, src: Dataset)
    requires forall k :: 0 <= k < |q| ==> q[k].id in src.jobs && q[k].row.job == src.jobs[q[k].id]
    ensures forall id :: id in Copied(jobs, q) <==> id in jobs || id in IdsOf(q)
    ensures forall id :: id in IdsOf(q) ==> id in src.jobs && Copied(jobs, q)[id] == src.jobs[id]
    ensures forall id :: id in jobs && id !in IdsOf(q) ==> Copied(jobs, q)[id] == jobs[id]
  {
    if q != [] {
      var n := |q| - 1;
      CopiedHas(jobs, q[..n], src);
      assert IdsOf(q) == IdsOf(q[..n]) + [q[n].id];
    }
  }

  /** The statuses of a query result. */
  function StatusesOf(q: seq<JobT>): seq<Status>
    requires forall k :: 0 <= k < |q| ==> q[k].row.latest.Some?
  {
    seq(|q|, k requires 0 <= k < |q| => q[k].row.latest.value)
  }

  lemma {:induction false} StatusesAreLatest(src: Dataset, q: seq<JobT>)
    requires forall k :: 0 <= k < |q| ==> q[k].row.latest.Some? && q[k].row.latest == Latest(src.statuses, q[k].id)
    ensures StatusesOf(q) == LatestOf(src, IdsOf(q))
    decreases |q|
  {
    if q != [] {
      StatusesAreLatest(src, q[1..]);
      assert IdsOf(q)[1..] == IdsOf(q[1..]);
      assert StatusesOf(q) == [q[0].row.latest.value] + StatusesOf(q[1..]);
    }
  }

  /** A query without limit returns every selected job once, each with its row. */
  lemma WholeQuery(d: Dataset, f: Filter, bound: JobID)
    requires bound >= 1 && IdsBelow(d, bound)
    ensures var q := QueryDS(d, f, [], 0, bound);
      && (forall i, j :: 0 <= i < j < |IdsOf(q)| ==> IdsOf(q)[i] != IdsOf(q)[j])
      && (forall id :: id in IdsOf(q) <==> id in Selected(d, f, []))
      && (forall k :: 0 <= k < |q| ==> q[k].id in d.jobs && q[k].row == RowOf(d, q[k].id) && Selects(f, [], q[k].row))
  {
    var s := Selected(d, f, []);
    var ids := InOrder(s, 1, bound);
    InOrderAscends(s, 1, bound);
    assert IdsOf(QueryDS(d, f, [], 0, bound)) == ids;
    forall id | id in s ensures id in ids {
      InOrderHas(s, 1, bound, id);
    }
  }

  /** All that is copied are the jobs to copy. */
  lemma CopiedAll(src: Dataset, dst: Dataset, q: seq<JobT>)
    requires forall k :: 0 <= k < |q| ==> q[k].id in src.jobs && q[k].row.job == src.jobs[q[k].id]
    requires forall id :: id in IdsOf(q) <==> id in ToCopy(src)
    ensures Copied(dst.jobs, q) == CopyJobs(src, dst).jobs
  {
    hide ToCopy;
    CopiedHas(dst.jobs, q, src);
    var a, b := Copied(dst.jobs, q), CopyJobs(src, dst).jobs;
    forall id ensures id in a <==> id in b {}
    forall id | id in a ensures a[id] == b[id] {}
  }

  /** Both queries of migrateJobs together, copied, are what CopyJobs and CopyStatuses say. */
  lemma BothQueries(src: Dataset, dst: Dataset, bound: JobID)
    requires bound >= 1 && IdsBelow(src, bound)
    ensures var u, r := QueryDS(src, Unprocessed, [], 0, bound), QueryDS(src, Processed(UNFINISHED, None), [], 0,
        bound);
      && RetryIds(src, IdsOf(r))
      && Copied(dst.jobs, u + r) == CopyJobs(src, dst).jobs
      && (forall k :: 0 <= k < |r| ==> r[k].row.latest.Some? && r[k].row.latest.value.jobID in Copied(dst.jobs, u + r))
      && CopyStatuses(src, CopyJobs(src, dst), IdsOf(r)).statuses == dst.statuses + StatusesOf(r)
  {
    hide QueryDS, Selected, IdsBelow;
    var u, r := QueryDS(src, Unprocessed, [], 0, bound), QueryDS(src, Processed(UNFINISHED, None), [], 0, bound);
    WholeQuery(src, Unprocessed, bound);
    WholeQuery(src, Processed(UNFINISHED, None), bound);
    assert IdsOf(u + r) == IdsOf(u) + IdsOf(r);
    CopiedAll(src, dst, u + r);
    StatusesAreLatest(src, r);
    forall k | 0 <= k < |r| ensures r[k].row.latest.value.jobID in Copied(dst.jobs, u + r) {
      LatestFrom(src.statuses, r[k].id);
      assert IdsOf(r)[k] == r[k].id;
    }
  }

  // ---------- dropping the sources ----------

  function WithoutName(names: seq<Index>, x: Index): seq<Index> {
    if names == [] then []
    else WithoutName(names[..|names| - 1], x) + if names[|names| - 1] == x then [] else [names[|names| - 1]]
  }

  lemma {:induction false} WithoutNameTells(names: seq<Index>, x: Index)
    ensures forall ds :: ds in WithoutName(names, x) <==> ds in names && ds != x
    ensures NoRepeats(names) ==> NoRepeats(WithoutName(names, x))
  {
    if names != [] {
      var init, y := names[..|names| - 1], names[|names| - 1];
      WithoutNameTells(init, x);
      assert names == init + [y];
      if NoRepeats(names) {
        forall i, j | 0 <= i < j < |init| ensures init[i] != init[j] {
          assert names[i] != names[j];
        }
        var q := WithoutName(init, x);
        forall i | 0 <= i < |q| ensures q[i] != y {
          assert q[i] in init;
          var k :| 0 <= k < |init| && init[k] == q[i];
          assert names[k] != names[|names| - 1];
        }
      }
    }
  }

  /** The tables that are left when the sources are gone. */
  ghost function Without(tables: Tables, sources: seq<Index>): Tables {
    map ds | ds in tables && ds !in sources :: tables[ds]
  }

  ghost function WithHead(tables: Tables, head: seq<Index>, d: Dataset): Tables {
    if head == [] then tables else tables[head[0] := d]
  }

  lemma SourcesThere(tables: Tables, list: seq<Index>, sources: seq<Index>, head: seq<Index>, d: Dataset)
    requires Listed(tables, list) && NoRepeats(list) && sources <= list
    ensures NoRepeats(sources) && forall i :: 0 <= i < |sources| ==> sources[i] in WithHead(tables, head, d)
  {
  }

  lemma SourcesGone(tables: Tables, sources: seq<Index>, head: seq<Index>, d: Dataset)
    ensures forall ds :: ds in Without(WithHead(tables, head, d), sources) && ds !in tables ==>
      head != [] && ds == head[0]
  {
  }

  lemma NoneDropped(tables: Tables)
    ensures Without(tables, []) == tables
  {
  }

  lemma OneDropped(tables: Tables, sources: seq<Index>, x: Index)
    ensures Without(tables, sources + [x]) == Without(tables, sources) - {x}
  {
  }

  /** Every index used so far stays behind the list or in it. */
  lemma SeenAfter(list: seq<Index>, m: int, head: seq<Index>, ds: Index)
    requires Consecutive(list) && 0 < m < |list|
    requires head == [] || head == [NextIndex(false, list[m - 1])]
    requires Seen(list, ds) || ds in head
    ensures Seen(head + list[m..], ds)
  {
    var l := head + list[m..];
    var first := l[0];
    NextIndexBetween(list, m - 1);
    ConsecutiveSorted(list);
    if ds in head {
      assert l[0] == ds;
    } else if ds in list {
      var i :| 0 <= i < |list| && list[i] == ds;
      if i >= m {
        assert l[|head| + i - m] == ds;
      } else {
        if head != [] && i < m - 1 {
          BeforeTransitive(ds, list[m - 1], first);
        }
      }
    } else {
      BeforeTransitive(ds, list[0], list[m]);
      if m > 1 {
        BeforeTransitive(ds, list[0], list[m - 1]);
      }
      if head != [] {
        BeforeTransitive(ds, list[m - 1], first);
      }
    }
  }

  lemma AllSeenAfter(list: seq<Index>, m: int, head: seq<Index>, used: set<Index>, used': set<Index>)
    requires Consecutive(list) && 0 < m < |list|
    requires head == [] || head == [NextIndex(false, list[m - 1])]
    requires (forall ds :: ds in used ==> Seen(list, ds)) && used' == if head == [] then used else used + {head[0]}
    ensures forall ds :: ds in used' ==> Seen(head + list[m..], ds)
  {
    forall ds | ds in used' ensures Seen(head + list[m..], ds) {
      SeenAfter(list, m, head, ds);
    }
  }

  lemma RoundReplaced(tables: Tables, list: seq<Index>, nextID: JobID, m: int, head: seq<Index>, d: Dataset,
          tables': Tables)
    requires WellFormed(tables, list, nextID) && 0 < m < |list|
    requires head == [] || (head == [NextIndex(false, list[m - 1])] && head[0] !in tables)
    requires tables' == Without(WithHead(tables, head, d), list[..m])
    ensures Replaced(tables, list, m, head, d, tables', head + list[m..])
  {
  }

  lemma RoundDropped(tables: Tables, list: seq<Index>, nextID: JobID, m: int, head: seq<Index>, d: Dataset)
    requires WellFormed(tables, list, nextID) && 0 < m < |list|
    requires head == [] || (head == [NextIndex(false, list[m - 1])] && head[0] !in tables)
    requires Gathered(d, tables, list, m) && (head == [] <==> !SomeLive(tables, list, m))
    ensures var tables', list' := Without(WithHead(tables, head, d), list[..m]), head + list[m..];
      && WellFormed(tables', list', nextID)
      && LiveRows(Flat(tables', list')) == LiveRows(Flat(tables, list))
      && forall id :: id in Flat(tables', list') ==>
        id in Flat(tables, list) && Flat(tables', list')[id] == Flat(tables, list)[id]
  {
    var tables' := Without(WithHead(tables, head, d), list[..m]);
    RoundReplaced(tables, list, nextID, m, head, d, tables');
    RoundKeeps(tables, list, nextID, m, head, d, tables', head + list[m..]);
  }

  lemma NothingGathered(tables: Tables, list: seq<Index>)
    requires Listed(tables, list)
    ensures Gathered(NO_ROWS, tables, list, 0)
  {
  }

  lemma NoJobs(d: Dataset, bound: JobID)
    requires bound >= 1 && IdsBelow(d, bound) && Count(JobIds(d), bound) == 0
    ensures d.jobs == map[]
  {
    forall id ensures id !in d.jobs {
      if id in JobIds(d) {
        InOrderHas(JobIds(d), 1, bound, id);
      }
    }
  }

  lemma EmptyStore(tables: Tables, list: seq<Index>)
    requires tables == map[[1] := NO_ROWS] && list == [[1]]
    ensures WellFormed(tables, list, 1) && Flat(tables, list) == map[]
  {
  }

  lemma StoreShape(tables: Tables, list: seq<Index>, nextID: JobID)
    requires WellFormed(tables, list, nextID)
    ensures Consecutive(list) && SameNames(tables, list) && IdsAscend(tables, list) && NoRepeats(list)
  {
  }

  lemma RangesCount(tables: Tables, list: seq<Index>, ranges: seq<Range>)
    requires Listed(tables, list) && RangesOf(ranges, tables, list)
    ensures |ranges| == |list| - 1
  {
  }

  lemma LessSound(tables: Tables, tables': Tables, sources: seq<Index>, cache: EmptyCache)
    requires CacheSound(tables, cache) && tables' == Without(tables, sources)
    ensures CacheSound(tables', cache)
  {
  }
}
