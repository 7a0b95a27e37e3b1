/** Cutting a sorted batch of statuses into one slice for each dataset. */
module Updating {
  import opened Tables
  import opened Cache
  import opened Layout
  import opened Batches

  /** The jobs of a batch are in the dataset and their custom values among the filters. */
  ghost predicate Covered(d: Dataset, q: seq<Status>, customVals: seq<string>) {
    forall k :: 0 <= k < |q| ==>
      && q[k].jobID in d.jobs
      && (customVals == [] || d.jobs[q[k].jobID].customVal in customVals)
  }

  ghost predicate AllCovered(tables: Tables, list: seq<Index>, q: seq<Status>, customVals: seq<string>) {
    forall p, i :: 0 <= p < |q| && At(tables, list, i, q[p].jobID) ==>
      customVals == [] || tables[list[i]].jobs[q[p].jobID].customVal in customVals
  }

  ghost function Appended(tables: Tables, ds: Index, q: seq<Status>): Tables
    requires ds in tables
  {
    if q == [] then tables else tables[ds := tables[ds].(statuses := tables[ds].statuses + q)]
  }

  /** What callers of UpdateJobStatus must see to: every job named exists, once, is not done yet,
      and is covered by the filters. */
  ghost predicate Updatable(rows: map<JobID, Row>, q: seq<Status>, customVals: seq<string>) {
    && DistinctJobs(q)
    && forall k :: 0 <= k < |q| ==>
      && q[k].jobID in rows && q[k].state != NP && IsLive(rows[q[k].jobID])
      && (customVals == [] || rows[q[k].jobID].job.customVal in customVals)
  }

  lemma ClearedIsSound(tables: Tables, cache: EmptyCache, ds: Index, q: seq<Status>, states: seq<State>,
          customVals: seq<string>, cache': EmptyCache)
    requires ds in tables && CacheSound(tables, cache) && q != []
    requires Covered(tables[ds], q, customVals)
    requires forall st :: st in states <==> exists k :: 0 <= k < |q| && q[k].state == st
    requires forall d, cv, st :: Marked(cache', d, cv, st) ==>
      Marked(cache, d, cv, st) && !(d == ds && (customVals == [] || cv in customVals) && st in states)
    requires customVals == [] ==> forall d, cv, st :: Marked(cache', d, cv, st) ==> d != ds
    ensures CacheSound(tables[ds := tables[ds].(statuses := tables[ds].statuses + q)], cache')
  {
    var d' := tables[ds].(statuses := tables[ds].statuses + q);
    var tables' := tables[ds := d'];
    forall cv, st | Marked(cache', ds, cv, st) ensures NoneIn(d', cv, st) {
      assert NoneIn(tables[ds], cv, st);
      forall id | id in d'.jobs ensures !(d'.jobs[id].customVal == cv && StateOf(Latest(d'.statuses, id)) == st) {
        LatestAppend(tables[ds].statuses, q, id);
        LatestFrom(q, id);
      }
    }
    forall d, cv, st | Marked(cache', d, cv, st) && d in tables' ensures NoneIn(tables'[d], cv, st) {
      assert Marked(cache, d, cv, st);
    }
  }

  lemma NothingApplied(tables: Tables, list: seq<Index>, q: seq<Status>)
    requires Listed(tables, list) && q == []
    ensures Applied(Flat(tables, list), q) == Flat(tables, list)
    ensures forall ds :: ds in tables ==> Extended(tables[ds], Sort(q)) == tables[ds]
  {
  }

  /** Every status of the sorted batch names a job of some dataset. */
  ghost predicate Placed(tables: Tables, list: seq<Index>, q: seq<Status>) {
    forall p :: 0 <= p < |q| ==> InSome(tables, list, q[p].jobID)
  }

  /** The batch up to `pos` is what the first k datasets hold of it. */
  ghost predicate Sliced(tables: Tables, list: seq<Index>, q: seq<Status>, k: int, pos: int) {
    && 0 <= pos <= |q|
    && forall p, i :: 0 <= p < |q| && At(tables, list, i, q[p].jobID) ==> (p < pos <==> i < k)
  }

  /** The first k datasets have received their part of the batch. */
  ghost predicate Partly(tables0: Tables, tables: Tables, list: seq<Index>, q: seq<Status>, k: int) {
    && (forall ds :: ds in tables <==> ds in tables0)
    && Listed(tables0, list)
    && (forall i :: 0 <= i < |list| && list[i] in tables0 ==>
      tables[list[i]] == if i < k then Extended(tables0[list[i]], q) else tables0[list[i]])
  }

  lemma NothingWritten(tables: Tables, list: seq<Index>, q: seq<Status>)
    requires Listed(tables, list)
    ensures Sliced(tables, list, q, 0, 0) && Partly(tables, tables, list, q, 0)
  {
  }

  lemma ReadyToDistribute(tables: Tables, list: seq<Index>, nextID: JobID, statusList: seq<Status>,
          customVals: seq<string>)
    requires WellFormed(tables, list, nextID) && Updatable(Flat(tables, list), statusList, customVals)
    requires statusList != []
    ensures var q := Sort(statusList);
      q != [] && ByJob(q) && SortedIndices(list) && Placed(tables, list, q) && AllCovered(tables, list, q, customVals)
  {
    SortSorts(statusList);
    InRange(tables, list, statusList, customVals, Sort(statusList));
    ConsecutiveSorted(list);
    assert statusList[0] in Sort(statusList);
  }

  lemma InRange(tables: Tables, list: seq<Index>, statusList: seq<Status>, customVals: seq<string>, q: seq<Status>)
    requires Listed(tables, list) && IdsAscend(tables, list) && Updatable(Flat(tables, list), statusList, customVals)
    requires forall x :: x in q <==> x in statusList
    ensures Placed(tables, list, q)
    ensures Sliced(tables, list, q, 0, 0) && Partly(tables, tables, list, q, 0)
    ensures AllCovered(tables, list, q, customVals)
  {
    FlatRows(tables, list);
    forall p | 0 <= p < |q| ensures q[p].jobID in Flat(tables, list)
      && (customVals == [] || Flat(tables, list)[q[p].jobID].job.customVal in customVals)
    {
      assert q[p] in statusList;
      var k :| 0 <= k < |statusList| && statusList[k] == q[p];
    }
  }

  /** Whatever is left of the batch lies in this dataset or a later one. */
  lemma NextSlice(tables: Tables, list: seq<Index>, q: seq<Status>, k: int, pos: int, r: Range)
    requires Listed(tables, list) && IdsAscend(tables, list) && ByJob(q) && Placed(tables, list, q)
    requires 0 <= k < |list| && RangeOf(r, list[k], tables[list[k]]) && Sliced(tables, list, q, k, pos) && pos < |q|
    ensures q[pos].jobID >= r.minJobID
  {
    var i :| At(tables, list, i, q[pos].jobID);
    assert At(tables, list, k, r.minJobID);
  }

  lemma TakeSlice(tables0: Tables, tables: Tables, list: seq<Index>, q: seq<Status>, k: int, pos: int, i: int,
          r: Range, customVals: seq<string>)
    requires IdsAscend(tables0, list) && ByJob(q) && Placed(tables0, list, q)
    requires SortedIndices(list)
    requires Partly(tables0, tables, list, q, k)
    requires 0 <= k < |list| && RangeOf(r, list[k], tables0[list[k]]) && Sliced(tables0, list, q, k, pos)
    requires pos <= i <= |q| && (forall j :: pos <= j < i ==> q[j].jobID <= r.maxJobID)
    requires (i < |q| ==> q[i].jobID > r.maxJobID)
    requires AllCovered(tables0, list, q, customVals)
    ensures Sliced(tables0, list, q, k + 1, i)
    ensures r.ds in tables && Covered(tables[r.ds], q[pos..i], customVals)
    ensures Partly(tables0, Appended(tables, r.ds, q[pos..i]), list, q, k + 1)
  {
    hide Belonging, Before;
    forall p, n | 0 <= p < |q| && At(tables0, list, n, q[p].jobID) ensures p < i <==> n < k + 1 {
      assert At(tables0, list, k, r.maxJobID);
    }
    forall p | 0 <= p < |q| ensures q[p].jobID in tables0[list[k]].jobs <==> pos <= p < i {
      var n :| At(tables0, list, n, q[p].jobID);
      assert q[p].jobID in tables0[list[k]].jobs ==> At(tables0, list, k, q[p].jobID);
    }
    BelongingSlice(q, pos, i, tables0[list[k]].jobs);
    PartlyStep(tables0, tables, list, q, k, q[pos..i]);
  }

  lemma PartlyStep(tables0: Tables, tables: Tables, list: seq<Index>, q: seq<Status>, k: int, slice: seq<Status>)
    requires SortedIndices(list) && Partly(tables0, tables, list, q, k) && 0 <= k < |list|
    requires Belonging(q, tables0[list[k]].jobs) == slice
    ensures Partly(tables0, Appended(tables, list[k], slice), list, q, k + 1)
  {
    hide Belonging, Before;
    SortedDistinct(list);
    var d := tables0[list[k]];
    assert d.statuses + [] == d.statuses;
  }

  lemma LastSlice(tables0: Tables, tables: Tables, list: seq<Index>, q: seq<Status>, k: int, pos: int,
          customVals: seq<string>)
    requires SortedIndices(list) && Placed(tables0, list, q) && Partly(tables0, tables, list, q, k)
    requires k == |list| - 1 >= 0 && Sliced(tables0, list, q, k, pos)
    requires AllCovered(tables0, list, q, customVals)
    ensures Sliced(tables0, list, q, k + 1, |q|)
    ensures list[k] in tables && Covered(tables[list[k]], q[pos..], customVals)
    ensures Partly(tables0, Appended(tables, list[k], q[pos..]), list, q, k + 1)
  {
    forall p | 0 <= p < |q| ensures q[p].jobID in tables0[list[k]].jobs <==> pos <= p < |q| {
      var n :| At(tables0, list, n, q[p].jobID);
      assert q[p].jobID in tables0[list[k]].jobs ==> At(tables0, list, k, q[p].jobID);
    }
    BelongingSlice(q, pos, |q|, tables0[list[k]].jobs);
    PartlyStep(tables0, tables, list, q, k, q[pos..]);
  }

  /** A finished batch reaches nothing in the datasets it did not get to. */
  lemma FinishedPartly(tables0: Tables, tables: Tables, list: seq<Index>, q: seq<Status>, k: int)
    requires 0 <= k <= |list| && Partly(tables0, tables, list, q, k) && Sliced(tables0, list, q, k, |q|)
    ensures Partly(tables0, tables, list, q, |list|)
  {
    forall i | k <= i < |list| ensures tables0[list[i]] == Extended(tables0[list[i]], q) {
      forall p | 0 <= p < |q| ensures q[p].jobID !in tables0[list[i]].jobs {
        assert !At(tables0, list, i, q[p].jobID);
      }
      BelongingNone(q, tables0[list[i]].jobs);
      assert tables0[list[i]].statuses + [] == tables0[list[i]].statuses;
    }
  }

  lemma AllApplied(tables0: Tables, tables: Tables, list: seq<Index>, nextID: JobID, statusList: seq<Status>,
          customVals: seq<string>,
                   ranges: seq<Range>)
    requires WellFormed(tables0, list, nextID) && RangesOf(ranges, tables0, list)
    requires Updatable(Flat(tables0, list), statusList, customVals)
    requires Partly(tables0, tables, list, Sort(statusList), |list|)
    ensures WellFormed(tables, list, nextID) && RangesOf(ranges, tables, list)
    ensures forall ds :: ds in tables <==> ds in tables0
    ensures forall ds :: ds in tables ==> tables[ds] == Extended(tables0[ds], Sort(statusList))
    ensures Flat(tables, list) == Applied(Flat(tables0, list), statusList)
  {
    var q := Sort(statusList);
    SortSorts(statusList);
    forall ds | ds in tables ensures tables[ds] == Extended(tables0[ds], q) && DatasetOK(tables[ds]) {
      var i :| 0 <= i < |list| && list[i] == ds;
      AppliedOK(tables0, list, statusList, q, ds);
    }
    SameJobs(tables0, tables, list, nextID, ranges);
    FlatApplied(tables0, tables, list, statusList, q);
  }

  /** A store stays well formed when only statuses change. */
  lemma OnlyStatuses(tables0: Tables, tables: Tables, list: seq<Index>, nextID: JobID)
    requires WellFormed(tables0, list, nextID)
    requires forall ds :: ds in tables <==> ds in tables0
    requires forall ds :: ds in tables ==> tables[ds].jobs == tables0[ds].jobs && DatasetOK(tables[ds])
    ensures WellFormed(tables, list, nextID)
  {
    hide Before, Seen, Consecutive, DatasetOK;
    forall i, id ensures At(tables, list, i, id) <==> At(tables0, list, i, id) {}
  }

  lemma SameJobs(tables0: Tables, tables: Tables, list: seq<Index>, nextID: JobID, ranges: seq<Range>)
    requires WellFormed(tables0, list, nextID) && RangesOf(ranges, tables0, list)
    requires forall ds :: ds in tables <==> ds in tables0
    requires forall ds :: ds in tables ==> tables[ds].jobs == tables0[ds].jobs && DatasetOK(tables[ds])
    ensures WellFormed(tables, list, nextID) && RangesOf(ranges, tables, list)
  {
    hide Before, Seen, Consecutive, DatasetOK;
    OnlyStatuses(tables0, tables, list, nextID);
    forall i | 0 <= i < |ranges| ensures RangeOf(ranges[i], list[i], tables[list[i]]) {
      assert RangeOf(ranges[i], list[i], tables0[list[i]]);
    }
  }

  lemma AppliedOK(tables0: Tables, list: seq<Index>, statusList: seq<Status>, q: seq<Status>, ds: Index)
    requires SameNames(tables0, list) && IdsAscend(tables0, list) && ds in tables0 && DatasetOK(tables0[ds])
    requires Updatable(Flat(tables0, list), statusList, [])
    requires ByJob(q) && forall x :: x in q <==> x in statusList
    ensures DatasetOK(Extended(tables0[ds], q))
  {
    FlatRows(tables0, list);
    var i :| 0 <= i < |list| && list[i] == ds;
    forall p | 0 <= p < |q|
      ensures q[p].state != NP
      ensures q[p].jobID in tables0[ds].jobs ==> !Terminal(StateOf(Latest(tables0[ds].statuses, q[p].jobID)))
    {
      assert q[p] in statusList;
      var n :| 0 <= n < |statusList| && statusList[n] == q[p];
      assert q[p].jobID in tables0[ds].jobs ==> At(tables0, list, i, q[p].jobID);
    }
    ExtendedOK(tables0[ds], q);
  }

  lemma FlatApplied(tables0: Tables, tables: Tables, list: seq<Index>, statusList: seq<Status>, q: seq<Status>)
    requires Listed(tables0, list) && IdsAscend(tables0, list) && Listed(tables, list) && IdsAscend(tables, list)
    requires forall i :: 0 <= i < |list| ==> tables[list[i]] == Extended(tables0[list[i]], q)
    requires DistinctJobs(statusList) && DistinctJobs(q) && forall x :: x in q <==> x in statusList
    ensures Flat(tables, list) == Applied(Flat(tables0, list), statusList)
  {
    FlatRows(tables0, list);
    forall i, id ensures At(tables, list, i, id) <==> At(tables0, list, i, id) {}
    var rows := Applied(Flat(tables0, list), statusList);
    forall i, id | At(tables, list, i, id) ensures id in rows && rows[id] == RowOf(tables[list[i]], id) {
      assert At(tables0, list, i, id);
      ExtendedRow(tables0[list[i]], q, id);
      LatestSame(q, statusList, id);
    }
    forall id | id in rows ensures InSome(tables, list, id) {
      assert id in Flat(tables0, list);
      var i :| At(tables0, list, i, id);
      assert At(tables, list, i, id);
    }
    FlatEquals(tables, list, rows);
  }
}
