/** crashRecover of the router and of the processor: everything found executing is failed, batch by batch. */
module CrashRecovery {
  import opened Common
  import opened Tables
  import opened Cache
  import opened Layout
  import opened Batches
  import opened Migration
  import opened Updating
  import opened JobsDB

  ghost function ExecutingIn(rows: map<JobID, Row>, customVal: string): set<JobID> {
    set id | id in rows && IsExecuting(rows[id], customVal)
  }

  ghost predicate IsExecuting(r: Row, customVal: string) {
    r.job.customVal == customVal && r.latest.Some? && r.latest.value.state == Executing
  }

  /** Every job in the batch was executing and is failed, its attempt number raised by `bump`. */
  ghost predicate FailedFrom(rows: map<JobID, Row>, q: seq<Status>, customVal: string, bump: int) {
    && DistinctJobs(q)
    && forall k :: 0 <= k < |q| ==>
      && q[k].jobID in rows && IsExecuting(rows[q[k].jobID], customVal)
      && q[k].state == Failed && q[k].attempt == rows[q[k].jobID].latest.value.attempt + bump
  }

  /** Every retry time in the store lies in the past. */
  ghost predicate AllDue(tables: Tables, now: int) {
    forall ds :: ds in tables ==> RetriesDue(tables[ds], now)
  }

  // ---------- one batch ----------

  /** The statuses made of a query result. */
  method StatusList(execList: seq<JobT>, bump: int, now: int) returns (statusList: seq<Status>)
    requires forall k :: 0 <= k < |execList| ==> execList[k].row.latest.Some?
    ensures |statusList| == |execList|
    ensures forall k :: 0 <= k < |execList| ==>
      statusList[k] == Status(execList[k].id, Failed, execList[k].row.latest.value.attempt + bump, now)
  {
    statusList := [];
    for k := 0 to |execList|
      invariant |statusList| == k
      invariant forall j :: 0 <= j < k ==>
        statusList[j] == Status(execList[j].id, Failed, execList[j].row.latest.value.attempt + bump, now)
    {
      statusList := statusList + [Status(execList[k].id, Failed, execList[k].row.latest.value.attempt + bump, now)];
    }
  }

  /** What the query for executing jobs returns is just that. */
  lemma Selected1(rows: map<JobID, Row>, customVal: string, now: int, id: JobID)
    ensures id in SelectedFlat(rows, Processed([Executing], Some(now)), [customVal]) <==>
      id in rows && IsExecuting(rows[id], customVal) && rows[id].latest.value.retryTime < now
  {
  }

  lemma Batch1(rows: map<JobID, Row>, out: seq<JobT>, q: seq<Status>, customVal: string, bump: int, clock: int,
          now: int, batch: nat)
    requires FirstN(IdsOf(out), SelectedFlat(rows, Processed([Executing], Some(clock)), [customVal]), batch)
    requires forall k :: 0 <= k < |out| ==> out[k].id in rows && out[k].row == rows[out[k].id]
    requires |q| == |out|
    requires forall k :: 0 <= k < |out| ==>
      out[k].row.latest.Some? && q[k] == Status(out[k].id, Failed, out[k].row.latest.value.attempt + bump, now)
    ensures FailedFrom(rows, q, customVal, bump) && Updatable(rows, q, [customVal])
  {
    var ids := IdsOf(out);
    forall k | 0 <= k < |q| ensures q[k].jobID in rows && IsExecuting(rows[q[k].jobID], customVal) {
      assert ids[k] in ids;
      Selected1(rows, customVal, clock, ids[k]);
    }
    forall i, j | 0 <= i < j < |q| ensures q[i].jobID != q[j].jobID {
      assert ids[i] < ids[j];
    }
  }

  lemma OutIsExecuting(rows: map<JobID, Row>, out: seq<JobT>, customVal: string, clock: int, batch: nat)
    requires FirstN(IdsOf(out), SelectedFlat(rows, Processed([Executing], Some(clock)), [customVal]), batch)
    requires forall k :: 0 <= k < |out| ==> out[k].id in rows && out[k].row == rows[out[k].id]
    ensures forall k :: 0 <= k < |out| ==> out[k].row.latest.Some?
  {
    var ids := IdsOf(out);
    forall k | 0 <= k < |out| ensures out[k].row.latest.Some? {
      assert ids[k] in ids;
      Selected1(rows, customVal, clock, ids[k]);
    }
  }

  /** An empty answer means that nothing is executing any more. */
  lemma NoneExecuting(rows: map<JobID, Row>, customVal: string, now: int, batch: nat)
    requires batch > 0 && FirstN(IdsOf([]), SelectedFlat(rows, Processed([Executing], Some(now)), [customVal]), batch)
    requires forall id :: id in rows && rows[id].latest.Some? ==> rows[id].latest.value.retryTime < now
    ensures forall id :: id !in ExecutingIn(rows, customVal)
  {
    assert IdsOf([]) == [];
    forall id ensures id !in ExecutingIn(rows, customVal) {
      Selected1(rows, customVal, now, id);
    }
  }

  lemma DueRows(tables: Tables, list: seq<Index>, nextID: JobID, now: int)
    requires WellFormed(tables, list, nextID) && AllDue(tables, now)
    ensures forall id :: id in Flat(tables, list) && Flat(tables, list)[id].latest.Some? ==>
      Flat(tables, list)[id].latest.value.retryTime < now
    ensures forall id :: id in Flat(tables, list) ==> 1 <= id < nextID
  {
    hide Flat;
    FlatRows(tables, list);
    forall id | id in Flat(tables, list)
      ensures 1 <= id < nextID
      ensures (Flat(tables, list)[id].latest.Some? ==> Flat(tables, list)[id].latest.value.retryTime < now)
    {
      var i :| At(tables, list, i, id);
      assert IdsBelow(tables[list[i]], nextID);
      LatestFrom(tables[list[i]].statuses, id);
    }
  }

  /** New statuses carry the present time, which is past at the next query. */
  lemma StillDue(tables: Tables, tables': Tables, q: seq<Status>, sorted: seq<Status>, now: int, later: int)
    requires AllDue(tables, now) && now < later && (forall ds :: ds in tables' <==> ds in tables)
    requires forall ds :: ds in tables' ==> tables'[ds] == Extended(tables[ds], sorted)
    requires (forall x :: x in sorted <==> x in q) && forall k :: 0 <= k < |q| ==> q[k].retryTime == now
    ensures AllDue(tables', later)
  {
    forall ds | ds in tables' ensures RetriesDue(tables'[ds], later) {
      var b := Belonging(sorted, tables[ds].jobs);
      BelongingMembers(sorted, tables[ds].jobs);
      forall p | 0 <= p < |b| ensures b[p].retryTime < later {
        assert b[p] in sorted && b[p] in q;
      }
      assert RetriesDue(tables[ds], now);
    }
  }

  // ---------- all batches ----------

  /** One more batch after those already failed. */
  lemma FailedMore(rows: map<JobID, Row>, failed: seq<Status>, q: seq<Status>, customVal: string, bump: int)
    requires FailedFrom(rows, failed, customVal, bump) && FailedFrom(Applied(rows, failed), q, customVal, bump)
    ensures FailedFrom(rows, failed + q, customVal, bump)
    ensures Applied(rows, failed + q) == Applied(Applied(rows, failed), q)
  {
    forall k | 0 <= k < |q| ensures Latest(failed, q[k].jobID) == None {
      LatestFrom(failed, q[k].jobID);
    }
    forall i, k | 0 <= i < |failed| && 0 <= k < |q| ensures failed[i].jobID != q[k].jobID {
      LatestFrom(failed, q[k].jobID);
    }
    forall id | id in rows ensures Applied(rows, failed + q)[id] == Applied(Applied(rows, failed), q)[id] {
      LatestAppend(failed, q, id);
    }
    var a, b := Applied(rows, failed + q), Applied(Applied(rows, failed), q);
    forall id ensures id in a <==> id in b {}
  }

  /** Failing a batch takes its jobs out of the set of executing jobs. */
  lemma FewerExecuting(rows: map<JobID, Row>, q: seq<Status>, customVal: string, bump: int, bound: JobID)
    requires FailedFrom(rows, q, customVal, bump) && q != [] && bound >= 1 && forall id :: id in rows ==>
      1 <= id < bound
    ensures Count(ExecutingIn(Applied(rows, q), customVal), bound) < Count(ExecutingIn(rows, customVal), bound)
  {
    var s, s' := ExecutingIn(rows, customVal), ExecutingIn(Applied(rows, q), customVal);
    var gone := set id | id in s && id !in s';
    forall id | id in s' ensures id in s {
      LatestFrom(q, id);
    }
    forall id ensures id in s <==> id in s' + gone {}
    assert s == s' + gone;
    CountSplit(s', gone, 1, bound);
    LatestDistinct(q, 0);
    assert q[0].jobID in gone;
    InOrderHas(gone, 1, bound, q[0].jobID);
  }

  /** crashRecover: it comes to an end, and then no job of this kind is executing; each one that was has been failed
      exactly once, and no other job has changed. */
  method CrashRecover(jd: HandleT, customVal: string, batchSize: nat, bump: int, now0: int)
    returns (ghost failed: seq<Status>)
    requires jd.Valid() && batchSize > 0 && AllDue(jd.tables, now0)
    modifies jd`tables, jd`cache
    ensures jd.Valid()
    ensures FailedFrom(old(jd.Jobs()), failed, customVal, bump) && jd.Jobs() == Applied(old(jd.Jobs()), failed)
    ensures forall id :: id !in ExecutingIn(jd.Jobs(), customVal)
    ensures forall id :: id in ExecutingIn(old(jd.Jobs()), customVal) <==>
      exists k :: 0 <= k < |failed| && failed[k].jobID == id
  {
    hide Applied, Flat, FailedFrom, ExecutingIn, SelectedFlat, RangesOf, CacheSound, Seen, FirstN, Updatable, Sort;
    hide Extended, AllDue, Consecutive, IdsAscend;
    ghost var rows := jd.Jobs();
    failed := [];
    NothingFailed(rows, customVal, bump);
    var clock := now0;
    while true
      invariant jd.Valid() && jd.nextID == old(jd.nextID) && AllDue(jd.tables, clock)
      invariant FailedFrom(rows, failed, customVal, bump) && jd.Jobs() == Applied(rows, failed)
      decreases Executions(jd.Jobs(), customVal, jd.nextID)
    {
      StoreIsDue(jd, clock);
      ghost var before, tables := jd.Jobs(), jd.tables;
      var execList := jd.GetJobs(Processed([Executing], Some(clock)), [customVal], batchSize);
      if |execList| == 0 {
        NoneExecuting(before, customVal, clock, batchSize);
        break;
      }
      OutIsExecuting(before, execList, customVal, clock, batchSize);
      var statusList := StatusList(execList, bump, clock);
      Batch1(before, execList, statusList, customVal, bump, clock, clock, batchSize);
      jd.UpdateJobStatus(statusList, [customVal]);
      var now: int := *;
      var later := if now > clock then now else clock + 1;
      SortHas(statusList, before, customVal, bump);
      StillDue(tables, jd.tables, statusList, Sort(statusList), clock, later);
      FailedMore(rows, failed, statusList, customVal, bump);
      FewerExecuting(before, statusList, customVal, bump, jd.nextID);
      clock := later;
      failed := failed + statusList;
    }
    JustThose(rows, failed, customVal, bump);
  }

  ghost function Executions(rows: map<JobID, Row>, customVal: string, bound: JobID): nat {
    if bound >= 1 then Count(ExecutingIn(rows, customVal), bound) else 0
  }

  lemma NothingFailed(rows: map<JobID, Row>, customVal: string, bump: int)
    ensures FailedFrom(rows, [], customVal, bump) && Applied(rows, []) == rows
  {
  }

  lemma SortHas(q: seq<Status>, rows: map<JobID, Row>, customVal: string, bump: int)
    requires FailedFrom(rows, q, customVal, bump)
    ensures forall x :: x in Sort(q) <==> x in q
  {
    SortSorts(q);
  }

  lemma StoreIsDue(jd: HandleT, now: int)
    requires jd.Valid() && AllDue(jd.tables, now)
    ensures jd.nextID >= 1
    ensures forall ds :: ds in jd.tables ==> RetriesDue(jd.tables[ds], now)
    ensures forall id :: id in jd.Jobs() && jd.Jobs()[id].latest.Some? ==> jd.Jobs()[id].latest.value.retryTime < now
    ensures forall id :: id in jd.Jobs() ==> 1 <= id < jd.nextID
  {
    DueRows(jd.tables, jd.datasetList, jd.nextID, now);
  }

  /** What was executing and is so no longer is what has been failed. */
  lemma JustThose(rows: map<JobID, Row>, failed: seq<Status>, customVal: string, bump: int)
    requires FailedFrom(rows, failed, customVal, bump)
    requires forall id :: id !in ExecutingIn(Applied(rows, failed), customVal)
    ensures forall id :: id in ExecutingIn(rows, customVal) <==> exists k :: 0 <= k < |failed| && failed[k].jobID == id
  {
    forall id | id in ExecutingIn(rows, customVal) ensures exists k :: 0 <= k < |failed| && failed[k].jobID == id {
      LatestFrom(failed, id);
      assert id !in ExecutingIn(Applied(rows, failed), customVal);
    }
  }
}
