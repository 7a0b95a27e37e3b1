/** The jobs database: an ordered list of datasets behind one handle, with the empty-result cache.
    Postgres is the field `tables`; the lists and the cache are what the handle keeps in memory. */
module JobsDB {
  import opened Common
  import opened Tables
  import opened Cache
  import opened Layout
  import opened Batches
  import opened Migration
  import opened Compaction
  import opened Storing
  import opened Reading
  import opened Updating
  import opened Maintenance
  import opened Rounds

  class HandleT {
    var names: seq<Index>               // the datasets' names, in whatever order Postgres lists them
    var tables: Tables
    var nextID: JobID                   // the id sequence of the last dataset
    var datasetList: seq<Index>
    var datasetRangeList: seq<Range>
    var cache: EmptyCache
    ghost var used: set<Index>          // every index given out so far
    const maxDSSize: int
    const maxMigrateOnce: int
    const jobDoneMigrateThres: real
    const jobStatusMigrateThres: real

    /** Setup on an empty database, which adds dataset 1. */
    constructor (maxDSSize: int, maxMigrateOnce: int, jobDoneMigrateThres: real, jobStatusMigrateThres: real)
      ensures Valid() && datasetList == [[1]] && Jobs() == map[]
      ensures this.maxDSSize == maxDSSize && this.maxMigrateOnce == maxMigrateOnce
      ensures this.jobDoneMigrateThres == jobDoneMigrateThres && this.jobStatusMigrateThres == jobStatusMigrateThres
    {
      names, tables, nextID := [[1]], map[[1] := NO_ROWS], 1;
      datasetList, datasetRangeList, cache, used := [[1]], [], map[], {[1]};
      this.maxDSSize, this.maxMigrateOnce := maxDSSize, maxMigrateOnce;
      this.jobDoneMigrateThres, this.jobStatusMigrateThres := jobDoneMigrateThres, jobStatusMigrateThres;
      new;
      EmptyStore(tables, datasetList);
    }

    ghost predicate Valid()
      reads this
    {
      && Named() && WellFormed(tables, datasetList, nextID)
      && RangesOf(datasetRangeList, tables, datasetList)
      && CacheSound(tables, cache)
      && (forall ds :: ds in used ==> Seen(datasetList, ds))
    }

    ghost predicate Named()
      reads this
    {
      (forall ds :: ds in tables <==> ds in names) && NoRepeats(names)
    }

    /** The flat table the handle stands for. */
    ghost function Jobs(): map<JobID, Row>
      reads this
      requires Listed(tables, datasetList)
    {
      Flat(tables, datasetList)
    }

    // ---------- the cache ----------

    method MarkClearEmptyResult(ds: Index, states: seq<State>, customVals: seq<string>, mark: bool)
      modifies this`cache
      ensures (states == [] || customVals == []) && mark ==> cache == old(cache)
      ensures (states == [] || customVals == []) && !mark ==>
        forall d, cv, st :: Marked(cache, d, cv, st) <==> d != ds && Marked(old(cache), d, cv, st)
      ensures states != [] && customVals != [] ==>
        forall d, cv, st :: Marked(cache, d, cv, st) <==>
          if d == ds && cv in customVals && st in states then mark else Marked(old(cache), d, cv, st)
      ensures MarksOf(cache, ds) == if mark then Remember(MarksOf(old(cache), ds), states, customVals)
                                    else Forget(MarksOf(old(cache), ds), states, customVals)
    {
      if states == [] || customVals == [] {
        if !mark {
          cache := cache - {ds};
        }
        return;
      }
      if ds !in cache {
        cache := cache[ds := map[]];
      }
      for i := 0 to |customVals|
        invariant ds in cache
        invariant forall d, cv, st :: Marked(cache, d, cv, st) <==>
          if d == ds && cv in customVals[..i] && st in states then mark else Marked(old(cache), d, cv, st)
      {
        var cv := customVals[i];
        MarkStates(ds, cv, states, mark);
        assert customVals[..i + 1] == customVals[..i] + [cv];
      }
      assert customVals[..|customVals|] == customVals;
    }

    /** The inner loop: one custom value. */
    method MarkStates(ds: Index, cv: string, states: seq<State>, mark: bool)
      requires ds in cache
      modifies this`cache
      ensures ds in cache
      ensures forall d, c, st :: Marked(cache, d, c, st) <==>
        if d == ds && c == cv && st in states then mark else Marked(old(cache), d, c, st)
    {
      if cv !in cache[ds] {
        cache := cache[ds := cache[ds][cv := map[]]];
      }
      for j := 0 to |states|
        invariant ds in cache && cv in cache[ds]
        invariant forall d, c, st :: Marked(cache, d, c, st) <==>
          if d == ds && c == cv && st in states[..j] then mark else Marked(old(cache), d, c, st)
      {
        ghost var before := cache;
        cache := cache[ds := cache[ds][cv := cache[ds][cv][states[j] := mark]]];
        forall d, c, st
          ensures Marked(cache, d, c, st) <==>
            if d == ds && c == cv && st == states[j] then mark else Marked(before, d, c, st)
        {
        }
        assert states[..j + 1] == states[..j] + [states[j]];
      }
      assert states[..|states|] == states;
    }

    method IsEmptyResult(ds: Index, states: seq<State>, customVals: seq<string>) returns (empty: bool)
      ensures empty <==> ds in cache && AllMarked(cache, ds, states, customVals)
    {
      if ds !in cache {
        return false;
      }
      if states == [] || customVals == [] {
        return false;
      }
      for i := 0 to |customVals|
        invariant forall cv, st :: cv in customVals[..i] && st in states ==> Marked(cache, ds, cv, st)
      {
        var cv := customVals[i];
        if cv !in cache[ds] {
          assert !Marked(cache, ds, cv, states[0]);
          return false;
        }
        for j := 0 to |states|
          invariant forall c, st :: c in customVals[..i] && st in states ==> Marked(cache, ds, c, st)
          invariant forall st :: st in states[..j] ==> Marked(cache, ds, cv, st)
        {
          if states[j] !in cache[ds][cv] || !cache[ds][cv][states[j]] {
            assert !Marked(cache, ds, cv, states[j]);
            return false;
          }
          assert states[..j + 1] == states[..j] + [states[j]];
        }
        assert states[..|states|] == states;
        assert customVals[..i + 1] == customVals[..i] + [cv];
      }
      assert customVals[..|customVals|] == customVals;
      return true;
    }

    // ---------- reading one dataset ----------

    /** getProcessedJobsDS and getUnprocessedJobsDS: ask the cache, then the tables, and remember an empty answer. */
    method GetJobsDS(ds: Index, f: Filter, customVals: seq<string>, limit: nat) returns (out: seq<JobT>)
      requires ds in tables && nextID >= 1 && DatasetOK(tables[ds]) && IdsBelow(tables[ds], nextID)
      requires CacheSound(tables, cache)
      requires f.Processed? && f.before.Some? ==> RetriesDue(tables[ds], f.before.value)
      requires f.Processed? ==> NP !in f.states
      modifies this`cache
      ensures CacheSound(tables, cache)
      ensures out == QueryDS(tables[ds], f, customVals, limit, nextID)
      ensures forall d, cv, st :: Marked(cache, d, cv, st) <==>
        Marked(old(cache), d, cv, st) || (out == [] && d == ds && cv in customVals && st in CacheStates(f))
    {
      var empty := IsEmptyResult(ds, CacheStates(f), customVals);
      if empty {
        EmptyAnswer(tables, cache, ds, f, customVals);
        NothingInOrder(Selected(tables[ds], f, customVals), 1, nextID);
        return [];
      }
      out := QueryDS(tables[ds], f, customVals, limit, nextID);
      if out == [] {
        NothingSelected(tables[ds], f, customVals, nextID);
        NothingPostponed(tables[ds], f, customVals);
        if customVals != [] && CacheStates(f) != [] {
          MarkingIff(tables[ds], f, customVals);
        }
        MarkClearEmptyResult(ds, CacheStates(f), customVals, true);
      }
    }

    // ---------- reading across datasets ----------

    /** GetProcessed and GetUnprocessed: the first `count` matching jobs of the flat table. */
    method GetJobs(f: Filter, customVals: seq<string>, count: nat) returns (out: seq<JobT>)
      requires Valid()
      requires f.Processed? && f.before.Some? ==> forall ds :: ds in tables ==> RetriesDue(tables[ds], f.before.value)
      requires f.Processed? ==> NP !in f.states
      modifies this`cache
      ensures Valid()
      ensures FirstN(IdsOf(out), SelectedFlat(Jobs(), f, customVals), count)
      ensures forall k :: 0 <= k < |out| ==> out[k].id in Jobs() && out[k].row == Jobs()[out[k].id]
    {
      hide Before, Seen, Consecutive, QueryDS, Selects, RangesOf, ReadSoFar, FirstN, Flat, SelectedFlat, IdsAscend;
      var dsList := datasetList;
      out := [];
      var left := count;
      if left == 0 {
        NoneWanted(SelectedFlat(Jobs(), f, customVals));
        return;
      }
      var i := 0;
      NothingRead(tables, dsList, f, customVals, count);
      while i < |dsList|
        invariant 0 <= i <= |dsList| && left > 0 && |out| + left == count
        invariant CacheSound(tables, cache)
        invariant ReadSoFar(tables, dsList, i, f, customVals, count, out)
      {
        assert left > 0;
        ghost var before := out;
        var jobs := GetJobsDS(dsList[i], f, customVals, left);
        out := out + jobs;
        ReadOneMore(tables, dsList, i, f, customVals, count, before, jobs, nextID);
        assert left - |jobs| >= 0;
        left := left - |jobs|;
        i := i + 1;
        if left == 0 {
          break;
        }
      }
      ReadAll(tables, dsList, i, f, customVals, count, out);
    }

    // ---------- writing statuses ----------

    /** The distinct states of a batch. The code gathers them as the keys of a map, so they come in any order. */
    method StatesOf(q: seq<Status>) returns (states: seq<State>)
      ensures forall st :: st in states <==> exists k :: 0 <= k < |q| && q[k].state == st
      ensures q != [] ==> states != []
    {
      states := [];
      for i := 0 to |q|
        invariant forall st :: st in states <==> exists k :: 0 <= k < i && q[k].state == st
        invariant i > 0 ==> states != []
      {
        if q[i].state !in states {
          states := states + [q[i].state];
        }
      }
    }

    method UpdateJobStatusDS(ds: Index, q: seq<Status>, customVals: seq<string>)
      requires ds in tables && CacheSound(tables, cache)
      requires Covered(tables[ds], q, customVals)
      modifies this`tables, this`cache
      ensures tables == Appended(old(tables), ds, q)
      ensures CacheSound(tables, cache)
    {
      if q == [] {
        return;
      }
      tables := tables[ds := tables[ds].(statuses := tables[ds].statuses + q)];
      var states := StatesOf(q);
      MarkClearEmptyResult(ds, states, customVals, false);
      ClearedIsSound(old(tables), old(cache), ds, q, states, customVals, cache);
    }

    /** UpdateJobStatus: every status goes to the dataset that holds its job. */
    method UpdateJobStatus(statusList: seq<Status>, customVals: seq<string>)
      requires Valid() && Updatable(Jobs(), statusList, customVals)
      modifies this`tables, this`cache
      ensures Valid()
      ensures forall ds :: ds in tables <==> ds in old(tables)
      ensures forall ds :: ds in tables ==> tables[ds] == Extended(old(tables)[ds], Sort(statusList))
      ensures Jobs() == Applied(old(Jobs()), statusList)
    {
      hide Flat, Applied, Extended, Sort, Updatable, RangesOf, CacheSound, Seen, Before, Partly;
      if statusList == [] {
        NothingApplied(tables, datasetList, statusList);
        return;
      }
      ghost var tables0 := tables;
      UpdateSorted(statusList, Sort(statusList), customVals);
      AllApplied(tables0, tables, datasetList, nextID, statusList, customVals, datasetRangeList);
    }

    method UpdateSorted(ghost statusList: seq<Status>, q: seq<Status>, customVals: seq<string>)
      requires Valid() && Updatable(Jobs(), statusList, customVals) && statusList != [] && q == Sort(statusList)
      modifies this`tables, this`cache
      ensures CacheSound(tables, cache)
      ensures Partly(old(tables), tables, datasetList, q, |datasetList|)
    {
      ReadyToDistribute(tables, datasetList, nextID, statusList, customVals);
      Distribute(q, customVals);
    }

    /** Walks through the ranges and cuts the sorted batch into consecutive slices, one for each dataset. */
    method Distribute(q: seq<Status>, customVals: seq<string>)
      requires SortedIndices(datasetList) && datasetList != []
      requires Listed(tables, datasetList) && IdsAscend(tables, datasetList)
      requires RangesOf(datasetRangeList, tables, datasetList)
      requires CacheSound(tables, cache)
      requires q != [] && ByJob(q) && Placed(tables, datasetList, q) && AllCovered(tables, datasetList, q, customVals)
      modifies this`tables, this`cache
      ensures CacheSound(tables, cache)
      ensures Partly(old(tables), tables, datasetList, q, |datasetList|)
    {
      hide CacheSound, Partly, Sliced, AllCovered, Placed, IdsAscend, SortedIndices, RangeOf, Appended, Covered;
      ghost var tables0 := tables;
      var lastPos := 0;
      var k := 0;
      NothingWritten(tables, datasetList, q);
      while k < |datasetRangeList|
        invariant 0 <= k <= |datasetRangeList|
        invariant lastPos < |q|
        invariant Sliced(tables0, datasetList, q, k, lastPos) && Partly(tables0, tables, datasetList, q, k)
        invariant CacheSound(tables, cache)
      {
        var r := datasetRangeList[k];
        NextSlice(tables0, datasetList, q, k, lastPos, r);
        assert q[lastPos].jobID >= r.minJobID;
        var i := lastPos;
        while i < |q| && q[i].jobID <= r.maxJobID
          invariant lastPos <= i <= |q|
          invariant forall j :: lastPos <= j < i ==> q[j].jobID <= r.maxJobID
        {
          i := i + 1;
        }
        TakeSlice(tables0, tables, datasetList, q, k, lastPos, i, r, customVals);
        UpdateJobStatusDS(r.ds, q[lastPos..i], customVals);
        lastPos := i;
        k := k + 1;
        if i == |q| {
          break;
        }
      }
      if lastPos < |q| {
        assert |datasetRangeList| == |datasetList| - 1;
        LastSlice(tables0, tables, datasetList, q, k, lastPos, customVals);
        UpdateJobStatusDS(datasetList[|datasetList| - 1], q[lastPos..], customVals);
        k := k + 1;
      }
      FinishedPartly(tables0, tables, datasetList, q, k);
    }

    // ---------- the lists ----------

    /** The comparison of sortDnumList. */
    static method DnumLess(src: Index, dst: Index) returns (less: bool)
      requires src != dst && src != [] && dst != []
      ensures less == Before(src, dst)
    {
      var k := 0;
      while true
        invariant 0 <= k <= |src| && k <= |dst| && src[..k] == dst[..k]
        invariant Before(src, dst) == Before(src[k..], dst[k..])
        decreases |src| - k
      {
        if k >= |src| {
          assert k < |dst| && k > 0;
          return true;
        }
        if k >= |dst| {
          assert k > 0 && k < |src|;
          return false;
        }
        if src[k] == dst[k] {
          assert src[k..][1..] == src[k + 1..] && dst[k..][1..] == dst[k + 1..];
          k := k + 1;
          continue;
        }
        return src[k] < dst[k];
      }
    }

    method GetDSList(ghost list: seq<Index>)
      requires Named() && Consecutive(list) && SameNames(tables, list)
      modifies this`datasetList
      ensures datasetList == list
    {
      datasetList := SortNames(names);
      NamesSortToList(names, tables, list);
    }

    /** Refreshes both lists from the database; `list` is what the refresh must come to. */
    method GetDSRangeList(ghost list: seq<Index>)
      requires Named() && WellFormed(tables, list, nextID)
      modifies this`datasetList, this`datasetRangeList
      ensures datasetList == list && RangesOf(datasetRangeList, tables, list)
    {
      hide InOrder, RangeOf, IdsAscend, DatasetOK, IdsBelow;
      GetDSList(list);
      datasetRangeList := [];
      var prevMax := 0;
      for idx := 0 to |datasetList|
        invariant datasetList == list && Listed(tables, list)
        invariant |datasetRangeList| == if idx < |list| then idx else |list| - 1
        invariant forall i :: 0 <= i < |datasetRangeList| ==> RangeOf(datasetRangeList[i], list[i], tables[list[i]])
        invariant 0 < idx < |list| ==> prevMax == datasetRangeList[idx - 1].maxJobID
      {
        var ds := datasetList[idx];
        assert ds != [];
        var ids := InOrder(JobIds(tables[ds]), 1, nextID);
        if idx < |datasetList| - 1 {
          NextRange(tables, list, nextID, idx, datasetRangeList);
          assert ids != [];
          assert idx == 0 || prevMax < ids[0];
          datasetRangeList := datasetRangeList + [Range(ids[0], ids[|ids| - 1], ds)];
          prevMax := ids[|ids| - 1];
        }
      }
    }

    // ---------- storing jobs ----------

    /** Store; `errors` gives each job's message. */
    method Store(jobList: seq<NewJob>) returns (errors: map<int, string>)
      requires Valid() && DistinctUuids(jobList)
      modifies this`tables, this`nextID, this`cache
      ensures Valid()
      ensures forall k :: 0 <= k < |jobList| ==>
        jobList[k].job.uuid in errors
          && errors[jobList[k].job.uuid] == if jobList[k].validJSON then "" else "Invalid JSON"
      ensures forall u :: u in errors ==> exists k :: 0 <= k < |jobList| && jobList[k].job.uuid == u
      ensures nextID == old(nextID) + Burnt(jobList) + |Accepted(jobList)|
      ensures Jobs() == WithJobs(old(Jobs()), old(nextID) + Burnt(jobList), Accepted(jobList))
    {
      hide WellFormed, RangesOf, CacheSound, Seen, Flat, WithJobs, Accepted, Messages, Burnt;
      errors := StoreJobsDS(jobList);
      MessagesTell(jobList);
    }

    /** storeJobsDS: a bulk copy in a transaction, which is committed if no row is refused; otherwise it is rolled back,
        which gives no ids back, and the jobs are stored one by one, each with its own message. */
    method StoreJobsDS(jobList: seq<NewJob>) returns (errors: map<int, string>)
      requires WellFormed(tables, datasetList, nextID) && RangesOf(datasetRangeList, tables, datasetList)
      requires CacheSound(tables, cache)
      modifies this`tables, this`nextID, this`cache
      ensures errors == Messages(jobList)
      ensures StoredSome(tables, datasetList, datasetRangeList, Flat(old(tables), datasetList),
          old(nextID) + Burnt(jobList), Accepted(jobList))
      ensures nextID == old(nextID) + Burnt(jobList) + |Accepted(jobList)| && CacheSound(tables, cache)
      ensures forall ds :: ds in tables <==> ds in old(tables)
    {
      hide *;
      ghost var tables0, cache0 := tables, cache;
      StartStore(tables, datasetList, datasetRangeList, nextID, Burnt(jobList), jobList);
      var last := datasetList[|datasetList| - 1];
      var txn, refused;
      txn, errors, refused := CopyIn(last, jobList);
      if refused {
        errors := StoreEach(last, jobList, errors);
      } else {
        tables := tables[last := txn];
      }
      MarkClearEmptyResult(last, [], [], false);
      OthersSound(tables0, cache0, tables, cache, last);
    }

    /** The bulk copy, in a copy of the table: it stops at the first row that is refused. The sequence is not part of
        the transaction. */
    method CopyIn(ds: Index, jobList: seq<NewJob>) returns (txn: Dataset, errors: map<int, string>, refused: bool)
      requires ds in tables
      modifies this`nextID
      ensures refused <==> exists k :: 0 <= k < |jobList| && !jobList[k].validJSON
      ensures refused ==> errors == NoErrors(jobList) && nextID == old(nextID) + Burnt(jobList)
      ensures !refused ==> errors == Messages(jobList) && Burnt(jobList) == 0
      ensures !refused ==> (txn, nextID) == StoreAll(tables[ds], jobList, old(nextID))
    {
      txn, errors, refused := tables[ds], map[], false;
      assert jobList[..0] == [];
      for k := 0 to |jobList|
        invariant errors == NoErrors(jobList[..k])
        invariant refused <==> LeadingValid(jobList[..k]) < k
        invariant nextID == old(nextID) + LeadingValid(jobList[..k])
        invariant !refused ==> (txn, nextID) == StoreAll(tables[ds], jobList[..k], old(nextID))
      {
        assert jobList[..k + 1] == jobList[..k] + [jobList[k]];
        OneMoreRow(jobList[..k], jobList[k]);
        OneMoreJob(jobList[..k], jobList[k], tables[ds], old(nextID));
        errors := errors[jobList[k].job.uuid := ""];
        if !refused {
          if jobList[k].validJSON {
            txn := txn.(jobs := txn.jobs[nextID := jobList[k].job]);
            nextID := nextID + 1;
          } else {
            refused := true;
          }
        }
      }
      assert jobList[..|jobList|] == jobList;
      LeadingTells(jobList);
      if !refused {
        AllAccepted(jobList);
      }
    }

    /** One insert after the other, each overwriting its job's message. */
    method StoreEach(ds: Index, jobList: seq<NewJob>, errors0: map<int, string>) returns (errors: map<int, string>)
      requires ds in tables && errors0 == NoErrors(jobList)
      modifies this`tables, this`nextID
      ensures errors == Messages(jobList)
      ensures var (d, n) := StoreAll(old(tables)[ds], jobList, old(nextID));
        tables == old(tables)[ds := d] && nextID == n
    {
      hide Messages, NoErrors, StoreAll;
      errors := errors0;
      assert jobList[..0] == [];
      NoneStored(tables[ds], nextID);
      for k := 0 to |jobList|
        invariant errors == errors0 + Messages(jobList[..k])
        invariant ds in tables && tables == old(tables)[ds := tables[ds]]
        invariant (tables[ds], nextID) == StoreAll(old(tables)[ds], jobList[..k], old(nextID))
      {
        assert jobList[..k + 1] == jobList[..k] + [jobList[k]];
        OneMoreJob(jobList[..k], jobList[k], old(tables)[ds], old(nextID));
        OneMoreMessage(errors0, jobList[..k], jobList[k]);
        var errorMessage := StoreJobDS(ds, jobList[k]);
        errors := errors[jobList[k].job.uuid := errorMessage];
      }
      assert jobList[..|jobList|] == jobList;
      Overwritten(jobList);
    }

    /** A single insert, or the message of the database. */
    method StoreJobDS(ds: Index, job: NewJob) returns (errorMessage: string)
      requires ds in tables
      modifies this`tables, this`nextID
      ensures errorMessage == if job.validJSON then "" else "Invalid JSON"
      ensures if job.validJSON
        then nextID == old(nextID) + 1
          && tables == old(tables)[ds := old(tables)[ds].(jobs := old(tables)[ds].jobs[old(nextID) := job.job])]
        else nextID == old(nextID) && tables == old(tables)
    {
      if !job.validJSON {
        return "Invalid JSON";
      }
      tables := tables[ds := tables[ds].(jobs := tables[ds].jobs[nextID := job.job])];
      nextID := nextID + 1;
      return "";
    }

    // ---------- adding a dataset ----------

    /** addNewDS: at the end, or for a migration right before a listed dataset; then the lists in memory stay as they
        are. */
    method AddNewDS(appendLast: bool, insertBefore: Index) returns (newDS: Index)
      requires Valid()
      requires appendLast ==> tables[datasetList[|datasetList| - 1]].jobs != map[]
      requires !appendLast ==> exists i :: 1 <= i < |datasetList| && datasetList[i] == insertBefore
      modifies this`names, this`tables, this`nextID, this`datasetList, this`datasetRangeList, this`used
      ensures newDS !in old(used) && newDS !in old(tables) && used == old(used) + {newDS}
      ensures names == old(names) + [newDS] && tables == old(tables)[newDS := NO_ROWS]
      ensures appendLast ==> Valid() && datasetList == old(datasetList) + [newDS] && Jobs() == old(Jobs())
      ensures !appendLast ==>
        && datasetList == old(datasetList) && nextID == old(nextID)
        && forall i :: 1 <= i < |datasetList| && datasetList[i] == insertBefore ==>
          newDS == NextIndex(false, datasetList[i - 1])
    {
      hide WellFormed, CacheSound, Flat, RangesOf, NextIndex, Before, IdsAscend, Seen, Consecutive, NoRepeats;
      ghost var list := datasetList;
      StoreShape(tables, list, nextID);
      GetDSList(list);
      newDS := NewIndex(appendLast, insertBefore, list);
      CreateDS(newDS);
      EmptySound(old(tables), cache, newDS);
      if appendLast {
        AppendedWellFormed(old(tables), list, nextID, newDS);
        AppendedShape(list, newDS);
        GetDSRangeList(list + [newDS]);
        assert |datasetList| == |datasetRangeList| + 1 by { RangesCount(tables, datasetList, datasetRangeList); }
        if |datasetRangeList| > 0 {
          Continued(tables, datasetList, nextID, datasetRangeList);
          var newDSMin := datasetRangeList[|datasetRangeList| - 1].maxJobID;
          assert newDSMin > 0;
          nextID := newDSMin + 1;
        }
        newDS := datasetList[|datasetList| - 1];
      }
    }

    /** The index of the dataset to add. */
    method NewIndex(appendLast: bool, insertBefore: Index, ghost list: seq<Index>) returns (newDS: Index)
      requires datasetList == list && Consecutive(list) && forall ds :: ds in used ==> Seen(list, ds)
      requires !appendLast ==> exists i :: 1 <= i < |list| && list[i] == insertBefore
      ensures newDS !in used && newDS !in list
      ensures appendLast ==> newDS == NextIndex(true, list[|list| - 1])
      ensures !appendLast ==> forall i :: 1 <= i < |list| && list[i] == insertBefore ==>
        newDS == NextIndex(false, list[i - 1])
    {
      var dList := datasetList;
      if appendLast {
        assert |dList[|dList| - 1]| == 1;
        newDS := [dList[|dList| - 1][0] + 1];
        FreshIndex(list, used, |list| - 1, true);
      } else {
        newDS := IndexBefore(dList, insertBefore);
        ConsecutiveSorted(list);
        SortedDistinct(list);
        ghost var i :| 1 <= i < |list| && list[i] == insertBefore && newDS == NextIndex(false, list[i - 1]);
        FreshIndex(list, used, i - 1, false);
      }
    }

    /** The loop that finds the place, with its checks. */
    static method IndexBefore(dList: seq<Index>, insertBefore: Index) returns (newDS: Index)
      requires Consecutive(dList) && exists i :: 1 <= i < |dList| && dList[i] == insertBefore
      ensures exists i :: 1 <= i < |dList| && dList[i] == insertBefore && newDS == NextIndex(false, dList[i - 1])
    {
      newDS := [];
      ConsecutiveSorted(dList);
      SortedDistinct(dList);
      for idx := 0 to |dList|
        invariant newDS == [] ==> forall i :: 0 <= i < idx ==> dList[i] != insertBefore
        invariant newDS != [] ==>
          exists i :: 1 <= i < |dList| && dList[i] == insertBefore && newDS == NextIndex(false, dList[i - 1])
      {
        if dList[idx] == insertBefore {
          assert idx > 0;
          var ds, pre := dList[idx], dList[idx - 1];
          assert |ds| == 1;
          assert ds[0] == pre[0] + 1;
          if |pre| == 1 {
            newDS := [pre[0], 1];
          } else {
            assert |pre| == 2;
            newDS := [pre[0], pre[1] + 1];
          }
        }
      }
      assert newDS != [];
    }

    /** CREATE TABLE, twice. */
    method CreateDS(ds: Index)
      requires Named() && ds !in tables
      modifies this`names, this`tables, this`used
      ensures names == old(names) + [ds] && tables == old(tables)[ds := NO_ROWS] && used == old(used) + {ds}
      ensures Named()
    {
      names := names + [ds];
      tables := tables[ds := NO_ROWS];
      used := used + {ds};
    }

    // ---------- migrating ----------

    /** checkIfMigrateDS: whether a dataset is ripe, and how many live jobs it still holds. `recent` says that its
        newest job is younger than the retention period. */
    method CheckIfMigrateDS(ds: Index, recent: bool) returns (migrate: bool, remCount: int)
      requires ds in tables && nextID >= 1 && DatasetOK(tables[ds]) && IdsBelow(tables[ds], nextID)
      ensures (migrate, remCount) == MigrateCheck(tables[ds], nextID, recent, Thresholds())
      ensures migrate <==> Ripe(tables[ds], recent, Thresholds())
      ensures remCount == |LiveIds(tables[ds])|
      ensures remCount > 0 <==> AnyLive(tables[ds])
    {
      Sizes(tables[ds], nextID);
      var totalCount := Count(JobIds(tables[ds]), nextID);
      var delCount := CountTerminal(tables[ds].statuses);
      var statusCount := |tables[ds].statuses|;
      RemCountLive(tables[ds], nextID);
      if totalCount == 0 {
        NoStatusWithoutJobs(tables[ds], nextID);
        assert delCount == 0 && statusCount == 0;
        NoJobs(tables[ds], nextID);
        return false, 0;
      }
      HasJobs(tables[ds], nextID);
      if recent {
        return false, totalCount - delCount;
      }
      if delCount as real / totalCount as real > jobDoneMigrateThres
         || statusCount as real / totalCount as real > jobStatusMigrateThres {
        return true, totalCount - delCount;
      }
      return false, totalCount - delCount;
    }

    function Thresholds(): Limits {
      Limits(maxDSSize, maxMigrateOnce, jobDoneMigrateThres, jobStatusMigrateThres)
    }

    method CheckIfFullDS(ds: Index) returns (full: bool)
      requires ds in tables && nextID >= 1 && IdsBelow(tables[ds], nextID)
      ensures full <==> |tables[ds].jobs| > maxDSSize
    {
      Sizes(tables[ds], nextID);
      var totalCount := Count(JobIds(tables[ds]), nextID);
      return totalCount > maxDSSize;
    }

    /** migrateJobs: the live jobs of one dataset, with their latest statuses, are added to another. */
    method MigrateJobs(srcDS: Index, destDS: Index) returns (ghost ids: seq<JobID>)
      requires srcDS in tables && destDS in tables && srcDS != destDS && nextID >= 1
      requires DatasetOK(tables[srcDS]) && IdsBelow(tables[srcDS], nextID) && CacheSound(tables, cache)
      modifies this`tables, this`cache
      ensures RetryIds(old(tables)[srcDS], ids)
      ensures tables ==
        old(tables)[destDS := CopyStatuses(old(tables)[srcDS], CopyJobs(old(tables)[srcDS], old(tables)[destDS]), ids)]
      ensures CacheSound(tables, cache)
    {
      hide DatasetOK, IdsBelow, Selected, QueryDS, IdsOf;
      ghost var src, dst := tables[srcDS], tables[destDS];
      BothQueries(src, dst, nextID);
      var unprocessedList := GetJobsDS(srcDS, Unprocessed, [], 0);
      var retryList := GetJobsDS(srcDS, Processed(UNFINISHED, None), [], 0);
      StoreCopies(destDS, unprocessedList + retryList);
      var statusList := StatusesOf(retryList);
      UpdateJobStatusDS(destDS, statusList, []);
      assert dst.statuses + [] == dst.statuses;
      ids := IdsOf(retryList);
    }

    /** storeJobsDS with ids. */
    method StoreCopies(ds: Index, jobList: seq<JobT>)
      requires ds in tables && CacheSound(tables, cache)
      modifies this`tables, this`cache
      ensures tables == old(tables)[ds := old(tables)[ds].(jobs := Copied(old(tables)[ds].jobs, jobList))]
      ensures CacheSound(tables, cache)
    {
      ghost var tables0, cache0 := tables, cache;
      assert jobList[..0] == [];
      for k := 0 to |jobList|
        invariant ds in tables && cache == cache0
        invariant tables == tables0[ds := tables0[ds].(jobs := Copied(tables0[ds].jobs, jobList[..k]))]
      {
        assert jobList[..k + 1][..k] == jobList[..k];
        tables := tables[ds := tables[ds].(jobs := tables[ds].jobs[jobList[k].id := jobList[k].row.job])];
      }
      assert jobList[..|jobList|] == jobList;
      MarkClearEmptyResult(ds, [], [], false);
      OthersSound(tables0, cache0, tables, cache, ds);
    }

    /** postMigrateHandleDS: the sources go and the lists are read again; `list` is what they must come to. */
    method PostMigrateHandleDS(migrateFrom: seq<Index>, ghost list: seq<Index>)
      requires Named() && WellFormed(Without(tables, migrateFrom), list, nextID)
      requires forall i, j :: 0 <= i < j < |migrateFrom| ==> migrateFrom[i] != migrateFrom[j]
      requires forall i :: 0 <= i < |migrateFrom| ==> migrateFrom[i] in tables
      modifies this`names, this`tables, this`datasetList, this`datasetRangeList
      ensures Named() && tables == Without(old(tables), migrateFrom)
      ensures datasetList == list && RangesOf(datasetRangeList, tables, list)
    {
      ghost var tables0 := tables;
      NoneDropped(tables0);
      for k := 0 to |migrateFrom|
        invariant Named() && tables == Without(tables0, migrateFrom[..k])
      {
        forall j | 0 <= j < k ensures migrateFrom[..k][j] != migrateFrom[k] {}
        assert migrateFrom[..k + 1] == migrateFrom[..k] + [migrateFrom[k]];
        DropDS(migrateFrom[k]);
        OneDropped(tables0, migrateFrom[..k], migrateFrom[k]);
      }
      assert migrateFrom[..|migrateFrom|] == migrateFrom;
      GetDSRangeList(list);
    }

    /** The table must exist. */
    method DropDS(ds: Index)
      requires Named() && ds in tables
      modifies this`names, this`tables
      ensures Named() && tables == old(tables) - {ds}
    {
      tables := tables - {ds};
      names := WithoutName(names, ds);
      WithoutNameTells(old(names), ds);
    }

    /** One round of mainCheckLoop: what it does to the datasets, and that no live job changes and nothing comes
        back. */
    method MainCheck(recent: set<Index>)
      requires Valid() && maxDSSize >= 0
      modifies this`names, this`tables, this`nextID, this`datasetList, this`datasetRangeList, this`cache, this`used
      ensures Valid()
      ensures RoundDone(old(tables), old(datasetList), recent, Thresholds(), old(used), tables, datasetList)
      ensures LiveRows(Jobs()) == LiveRows(old(Jobs()))
      ensures forall id :: id in Jobs() ==> id in old(Jobs()) && Jobs()[id] == old(Jobs())[id]
      ensures old(used) <= used
    {
      hide WellFormed, CacheSound, Flat, RangesOf, LiveRows, Seen, Leaves, LongestPrefix;
      ghost var tables0, used0 := tables, used;
      StoreShape(tables, datasetList, nextID);
      var dsList := datasetList;
      var latestDS := dsList[|dsList| - 1];
      DatasetAt(tables, datasetList, nextID);
      var full := CheckIfFullDS(latestDS);
      ghost var added := [];
      if full {
        added := AddNewDS(true, []);
        assert forall i :: 0 <= i < |dsList| ==> tables[dsList[i]] == tables0[dsList[i]];
      }
      ghost var tables1 := tables;
      ghost var m := MigrateSome(dsList, recent);
      ExtendedLongest(tables0, dsList, tables1, recent, Thresholds(), m);
      if full {
        ExtendedLeaves(tables0, dsList, m, added, tables1, tables, datasetList, used0);
      }
    }

    method MigrateSome(dsList: seq<Index>, recent: set<Index>) returns (ghost m: nat)
      requires Valid() && dsList <= datasetList && dsList != []
      modifies this`names, this`tables, this`nextID, this`datasetList, this`datasetRangeList, this`cache, this`used
      ensures Valid()
      ensures m < |dsList| && Listed(old(tables), dsList)
      ensures LongestPrefix(old(tables), dsList, recent, Thresholds(), m)
      ensures Leaves(old(tables), old(datasetList), m, 0, tables, datasetList, old(used))
      ensures LiveRows(Jobs()) == LiveRows(old(Jobs()))
      ensures forall id :: id in Jobs() ==> id in old(Jobs()) && Jobs()[id] == old(Jobs())[id]
      ensures old(used) <= used
    {
      hide WellFormed, CacheSound, Flat, RangesOf, SomeLive, LiveRows, Gathered, Seen, NextIndex, Without, WithHead;
      hide NoRepeats, LongestPrefix, Leaves;
      DatasetAt(tables, datasetList, nextID);
      var migrateFrom, liveCount := Choose(dsList, recent);
      m := |migrateFrom|;
      if |migrateFrom| > 0 {
        ghost var list, tables0, used0 := datasetList, tables, used;
        StoreShape(tables0, list, nextID);
        assert list[..m] == migrateFrom && list[m] == dsList[m];
        ghost var head, d := CopyLive(migrateFrom, dsList[|migrateFrom|], liveCount);
        RoundDropped(tables0, list, nextID, m, head, d);
        SourcesThere(tables0, list, migrateFrom, head, d);
        PostMigrateHandleDS(migrateFrom, head + list[m..]);
        LessSound(WithHead(tables0, head, d), tables, migrateFrom, cache);
        AllSeenAfter(list, m, head, old(used), used);
        MovedLeaves(tables0, list, nextID, m, head, d, tables, used0);
      } else {
        NothingLeaves(tables, datasetList, nextID, used);
      }
    }

    /** The destination is added and filled, if there is anything to fill it with. */
    method CopyLive(migrateFrom: seq<Index>, insertBefore: Index, liveCount: int)
      returns (ghost head: seq<Index>, ghost d: Dataset)
      requires Valid() && migrateFrom != [] && migrateFrom < datasetList && insertBefore == datasetList[|migrateFrom|]
      requires liveCount > 0 <==> SomeLive(tables, datasetList, |migrateFrom|)
      modifies this`names, this`tables, this`nextID, this`datasetList, this`datasetRangeList, this`cache, this`used
      ensures Named() && CacheSound(tables, cache) && datasetList == old(datasetList) && nextID == old(nextID)
      ensures head == [] <==> !SomeLive(old(tables), datasetList, |migrateFrom|)
      ensures head != [] ==>
        head == [NextIndex(false, datasetList[|migrateFrom| - 1])] && head[0] !in old(tables) && head[0] !in old(used)
      ensures tables == WithHead(old(tables), head, d)
      ensures used == if head == [] then old(used) else old(used) + {head[0]}
      ensures Gathered(d, old(tables), datasetList, |migrateFrom|)
    {
      hide WellFormed, CacheSound, Flat, RangesOf, SomeLive, LiveRows, Gathered, Seen, NextIndex;
      ghost var list, m := datasetList, |migrateFrom|;
      head, d := [], NO_ROWS;
      StoreShape(tables, list, nextID);
      assert list[m] == insertBefore;
      if liveCount > 0 {
        var migrateTo := AddNewDS(false, insertBefore);
        head := [migrateTo];
        EmptySound(old(tables), cache, migrateTo);
        d := Gather(migrateFrom, migrateTo, old(tables), list);
      } else {
        NoneGathered(tables, list, m);
      }
    }

    /** How many datasets, from the oldest on, are migrated in this round. */
    method Choose(dsList: seq<Index>, recent: set<Index>) returns (migrateFrom: seq<Index>, liveCount: int)
      requires WellFormed(tables, datasetList, nextID) && dsList <= datasetList
      ensures migrateFrom <= dsList && (migrateFrom != [] ==> |migrateFrom| < |dsList|)
      ensures liveCount >= 0 && (liveCount > 0 <==> SomeLive(tables, datasetList, |migrateFrom|))
      ensures LongestPrefix(tables, dsList, recent, Thresholds(), |migrateFrom|)
      ensures (|migrateFrom|, liveCount) == Chosen(tables, dsList, nextID, recent, Thresholds(), 0, 0)
    {
      hide WellFormed, SomeLive, Chosen, MigrateCheck, IdsAscend, DatasetOK, IdsBelow, AnyLive, Count, Goes, Ripe;
      hide Moved;
      migrateFrom, liveCount := [], 0;
      var idx := 0;
      DatasetAt(tables, datasetList, nextID);
      NothingLive(tables, datasetList);
      PrefixAt(tables, datasetList, |dsList|);
      assert datasetList[..|dsList|] == dsList;
      NothingMoved(tables, dsList);
      while idx < |dsList|
        invariant 0 <= idx <= |dsList| && migrateFrom == dsList[..idx] && (idx > 0 ==> idx < |dsList|)
        invariant liveCount == |Moved(tables, dsList, idx)| && (liveCount > 0 <==> SomeLive(tables, datasetList, idx))
        invariant forall k: nat :: k < idx ==> Goes(tables, dsList, recent, Thresholds(), k)
        invariant Chosen(tables, dsList, nextID, recent, Thresholds(), 0, 0) ==
          Chosen(tables, dsList, nextID, recent, Thresholds(), idx, liveCount)
      {
        var ds := dsList[idx];
        assert ds == datasetList[idx];
        var ifMigrate, remCount := CheckIfMigrateDS(ds, ds in recent);
        ChosenTurn(tables, dsList, nextID, recent, Thresholds(), idx, liveCount);
        GoesTurn(tables, dsList, recent, Thresholds(), idx, liveCount, ifMigrate, nextID);
        if idx < |dsList| - 1 && ifMigrate && idx < maxMigrateOnce && liveCount < maxDSSize {
          SomeLiveStep(tables, datasetList, idx);
          LiveStep(tables, dsList, idx);
          migrateFrom := migrateFrom + [ds];
          liveCount := liveCount + remCount;
          idx := idx + 1;
        } else {
          break;
        }
      }
      ChosenEnd(tables, dsList, nextID, recent, Thresholds(), liveCount);
      LastStays(tables, dsList, recent, Thresholds());
      assert |migrateFrom| == idx && !Goes(tables, dsList, recent, Thresholds(), idx);
    }

    /** Copies the sources one after the other. */
    method Gather(migrateFrom: seq<Index>, migrateTo: Index, ghost tables0: Tables, ghost list: seq<Index>)
      returns (ghost d: Dataset)
      requires WellFormed(tables0, list, nextID) && migrateFrom <= list
      requires migrateTo !in tables0 && tables == tables0[migrateTo := NO_ROWS] && CacheSound(tables, cache)
      modifies this`tables, this`cache
      ensures tables == tables0[migrateTo := d] && Gathered(d, tables0, list, |migrateFrom|)
      ensures CacheSound(tables, cache)
    {
      d := NO_ROWS;
      NothingGathered(tables0, list);
      for k := 0 to |migrateFrom|
        invariant tables == tables0[migrateTo := d] && Gathered(d, tables0, list, k)
        invariant CacheSound(tables, cache)
      {
        assert migrateFrom[k] == list[k];
        ghost var ids := MigrateJobs(migrateFrom[k], migrateTo);
        GatherStep(d, tables0, list, k, ids);
        d := CopyStatuses(tables0[list[k]], CopyJobs(tables0[list[k]], d), ids);
      }
    }
  }

  lemma MinMax(d: Dataset, ds: Index, bound: JobID)
    requires bound >= 1 && IdsBelow(d, bound) && d.jobs != map[]
    ensures var ids := InOrder(JobIds(d), 1, bound);
      ids != [] && RangeOf(Range(ids[0], ids[|ids| - 1], ds), ds, d)
  {
    var ids := InOrder(JobIds(d), 1, bound);
    InOrderAscends(JobIds(d), 1, bound);
    forall id | id in d.jobs ensures id in ids {
      assert id in JobIds(d);
      InOrderHas(JobIds(d), 1, bound, id);
    }
    NotEmpty(d, ids);
  }

  /** The ids of a dataset give its range, which lies behind the previous one. */
  lemma NextRange(tables: Tables, list: seq<Index>, nextID: JobID, idx: int, ranges: seq<Range>)
    requires WellFormed(tables, list, nextID) && 0 <= idx < |list| - 1 && |ranges| == idx
    requires forall i :: 0 <= i < idx ==> RangeOf(ranges[i], list[i], tables[list[i]])
    ensures var ids := InOrder(JobIds(tables[list[idx]]), 1, nextID);
      && ids != [] && RangeOf(Range(ids[0], ids[|ids| - 1], list[idx]), list[idx], tables[list[idx]])
      && (idx > 0 ==> ranges[idx - 1].maxJobID < ids[0])
  {
    MinMax(tables[list[idx]], list[idx], nextID);
    var ids := InOrder(JobIds(tables[list[idx]]), 1, nextID);
    assert idx > 0 ==> At(tables, list, idx - 1, ranges[idx - 1].maxJobID) && At(tables, list, idx, ids[0]);
  }
}
