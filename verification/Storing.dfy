/** Inserting jobs into the last dataset. */
module Storing {
  import opened Common
  import opened Tables
  import opened Cache
  import opened Layout

  /** `validJSON` is whether the database accepts the payload. */
  datatype NewJob = NewJob(job: Job, validJSON: bool)

  ghost predicate DistinctUuids(q: seq<NewJob>) {
    forall i, j :: 0 <= i < j < |q| ==> q[i].job.uuid != q[j].job.uuid
  }

  ghost function Accepted(q: seq<NewJob>): seq<Job> {
    if q == [] then [] else Accepted(q[..|q| - 1]) + if q[|q| - 1].validJSON then [q[|q| - 1].job] else []
  }

  function Messages(q: seq<NewJob>): map<int, string> {
    if q == [] then map[]
    else Messages(q[..|q| - 1])[q[|q| - 1].job.uuid := if q[|q| - 1].validJSON then "" else "Invalid JSON"]
  }

  /** How many rows of a bulk copy are written before the database refuses one. */
  function LeadingValid(q: seq<NewJob>): (n: nat)
    ensures n <= |q|
  {
    if q == [] then 0
    else
      var n := LeadingValid(q[..|q| - 1]);
      if n == |q| - 1 && q[n].validJSON then n + 1 else n
  }

  /** The ids a batch uses up without keeping them: those of a bulk copy that is rolled back. */
  function Burnt(q: seq<NewJob>): nat {
    if LeadingValid(q) == |q| then 0 else LeadingValid(q)
  }

  /** An empty message for every job. */
  function NoErrors(q: seq<NewJob>): map<int, string> {
    if q == [] then map[] else NoErrors(q[..|q| - 1])[q[|q| - 1].job.uuid := ""]
  }

  lemma {:induction false} LeadingTells(q: seq<NewJob>)
    ensures forall k :: 0 <= k < LeadingValid(q) ==> q[k].validJSON
    ensures LeadingValid(q) < |q| ==> !q[LeadingValid(q)].validJSON
  {
    if q != [] {
      LeadingTells(q[..|q| - 1]);
    }
  }

  lemma {:induction false} AllAccepted(q: seq<NewJob>)
    requires LeadingValid(q) == |q|
    ensures Messages(q) == NoErrors(q)
  {
    if q != [] {
      AllAccepted(q[..|q| - 1]);
    }
  }

  lemma {:induction false} SameJobsTold(q: seq<NewJob>)
    ensures forall u :: u in NoErrors(q) <==> u in Messages(q)
  {
    if q != [] {
      SameJobsTold(q[..|q| - 1]);
    }
  }

  /** One message after the other replaces all the empty ones. */
  lemma Overwritten(q: seq<NewJob>)
    ensures NoErrors(q) + Messages(q) == Messages(q)
  {
    SameJobsTold(q);
  }

  lemma OneMoreRow(q: seq<NewJob>, x: NewJob)
    ensures LeadingValid(q + [x]) == if LeadingValid(q) == |q| && x.validJSON then |q| + 1 else LeadingValid(q)
    ensures NoErrors(q + [x]) == NoErrors(q)[x.job.uuid := ""]
  {
  }

  /** The last dataset and its sequence after the inserts. */
  function StoreAll(d: Dataset, q: seq<NewJob>, next: JobID): (Dataset, JobID) {
    if q == [] then (d, next)
    else
      var (d', n') := StoreAll(d, q[..|q| - 1], next);
      if q[|q| - 1].validJSON then (d'.(jobs := d'.jobs[n' := q[|q| - 1].job]), n' + 1) else (d', n')
  }

  lemma OneMoreJob(q: seq<NewJob>, x: NewJob, d: Dataset, next: JobID)
    ensures Messages(q + [x]) == Messages(q)[x.job.uuid := if x.validJSON then "" else "Invalid JSON"]
    ensures var (d', n') := StoreAll(d, q, next);
      StoreAll(d, q + [x], next) == if x.validJSON then (d'.(jobs := d'.jobs[n' := x.job]), n' + 1) else (d', n')
  {
  }

  lemma NoneStored(d: Dataset, next: JobID)
    ensures Messages([]) == map[] && StoreAll(d, [], next) == (d, next)
  {
  }

  lemma OneMoreMessage(errors0: map<int, string>, q: seq<NewJob>, x: NewJob)
    ensures errors0 + Messages(q + [x]) ==
      (errors0 + Messages(q))[x.job.uuid := if x.validJSON then "" else "Invalid JSON"]
  {
    hide StoreAll;
    OneMoreJob(q, x, NO_ROWS, 1);
  }

  lemma {:induction false} MessagesTell(q: seq<NewJob>)
    requires DistinctUuids(q)
    ensures forall k :: 0 <= k < |q| ==>
      q[k].job.uuid in Messages(q) && Messages(q)[q[k].job.uuid] == if q[k].validJSON then "" else "Invalid JSON"
    ensures forall u :: u in Messages(q) ==> exists k :: 0 <= k < |q| && q[k].job.uuid == u
  {
    if q != [] {
      var n := |q| - 1;
      MessagesTell(q[..n]);
      forall k | 0 <= k < n ensures q[..n][k] == q[k] {}
    }
  }

  /** The table with new, unprocessed jobs added under consecutive ids. */
  ghost function WithJobs(rows: map<JobID, Row>, first: JobID, jobs: seq<Job>): map<JobID, Row> {
    if jobs == [] then rows
    else WithJobs(rows, first, jobs[..|jobs| - 1])[first + |jobs| - 1 := Row(jobs[|jobs| - 1], None)]
  }

  /** The store after the first inserts of a batch. */
  ghost predicate StoredSome(tables: Tables, list: seq<Index>, ranges: seq<Range>, rows: map<JobID, Row>, first: JobID,
          accepted: seq<Job>) {
    && WellFormed(tables, list, first + |accepted|) && RangesOf(ranges, tables, list)
    && Flat(tables, list) == WithJobs(rows, first, accepted)
  }

  lemma AcceptOne(tables: Tables, list: seq<Index>, ranges: seq<Range>, rows: map<JobID, Row>, first: JobID,
          accepted: seq<Job>, job: Job)
    requires list != [] && list[|list| - 1] in tables && StoredSome(tables, list, ranges, rows, first, accepted)
    ensures var last, n := list[|list| - 1], first + |accepted|;
      StoredSome(tables[last := tables[last].(jobs := tables[last].jobs[n := job])], list, ranges, rows, first,
          accepted + [job])
  {
    hide WellFormed, RangesOf;
    var last, n := list[|list| - 1], first + |accepted|;
    JobInserted(tables, list, ranges, n, job, tables[last := tables[last].(jobs := tables[last].jobs[n := job])]);
    assert (accepted + [job])[..|accepted|] == accepted;
  }

  lemma StartStore(tables: Tables, list: seq<Index>, ranges: seq<Range>, nextID: JobID, burnt: nat, q: seq<NewJob>)
    requires WellFormed(tables, list, nextID) && RangesOf(ranges, tables, list)
    ensures list != [] && list[|list| - 1] in tables
    ensures var last := list[|list| - 1];
      var (d, n) := StoreAll(tables[last], q, nextID + burnt);
      n == nextID + burnt + |Accepted(q)|
      && StoredSome(tables[last := d], list, ranges, Flat(tables, list), nextID + burnt, Accepted(q))
  {
    RaisedNextID(tables, list, nextID, nextID + burnt);
    StoreAllKeeps(tables, list, ranges, Flat(tables, list), nextID + burnt, q);
  }

  lemma {:induction false} StoreAllKeeps(tables: Tables, list: seq<Index>, ranges: seq<Range>, rows: map<JobID, Row>,
          first: JobID, q: seq<NewJob>)
    requires list != [] && list[|list| - 1] in tables && StoredSome(tables, list, ranges, rows, first, [])
    ensures var last := list[|list| - 1];
      var (d, n) := StoreAll(tables[last], q, first);
      n == first + |Accepted(q)| && StoredSome(tables[last := d], list, ranges, rows, first, Accepted(q))
    decreases |q|
  {
    hide StoredSome;
    var last := list[|list| - 1];
    if q == [] {
      assert tables[last := tables[last]] == tables;
    } else {
      var init, x := q[..|q| - 1], q[|q| - 1];
      StoreAllKeeps(tables, list, ranges, rows, first, init);
      var (d, n) := StoreAll(tables[last], init, first);
      var accepted, tables' := Accepted(init), tables[last := d];
      AcceptOne(tables', list, ranges, rows, first, accepted, x.job);
      assert tables'[last := d.(jobs := d.jobs[n := x.job])] == tables[last := d.(jobs := d.jobs[n := x.job])];
      assert accepted + [] == accepted;
    }
  }

  /** Forgetting everything about one dataset makes up for any change to it. */
  lemma OthersSound(tables0: Tables, cache0: EmptyCache, tables: Tables, cache: EmptyCache, ds: Index)
    requires CacheSound(tables0, cache0)
    requires forall d, cv, st :: Marked(cache, d, cv, st) ==> d != ds && Marked(cache0, d, cv, st)
    requires forall d :: d in tables && d != ds ==> d in tables0 && tables[d] == tables0[d]
    ensures CacheSound(tables, cache)
  {
  }

  lemma RaisedNextID(tables: Tables, list: seq<Index>, nextID: JobID, nextID': JobID)
    requires WellFormed(tables, list, nextID) && nextID <= nextID'
    ensures WellFormed(tables, list, nextID')
  {
  }

  lemma JobInserted(tables0: Tables, list: seq<Index>, ranges: seq<Range>, id: JobID, job: Job, tables: Tables)
    requires WellFormed(tables0, list, id) && RangesOf(ranges, tables0, list)
    requires var last := list[|list| - 1];
      tables == tables0[last := tables0[last].(jobs := tables0[last].jobs[id := job])]
    ensures WellFormed(tables, list, id + 1) && RangesOf(ranges, tables, list)
    ensures Flat(tables, list) == Flat(tables0, list)[id := Row(job, None)]
  {
    JobAdded(tables0, list, id, job, tables);
    ConsecutiveSorted(list);
    SortedDistinct(list);
    forall i | 0 <= i < |ranges| ensures RangeOf(ranges[i], list[i], tables[list[i]]) {
      assert RangeOf(ranges[i], list[i], tables0[list[i]]);
    }
  }

  /** A job with a new id at the end of the last dataset is a new row of the flat table. */
  lemma JobAdded(tables0: Tables, list: seq<Index>, id: JobID, job: Job, tables: Tables)
    requires WellFormed(tables0, list, id)
    requires var last := list[|list| - 1];
      tables == tables0[last := tables0[last].(jobs := tables0[last].jobs[id := job])]
    ensures WellFormed(tables, list, id + 1)
    ensures Flat(tables, list) == Flat(tables0, list)[id := Row(job, None)]
  {
    hide Flat;
    var n := |list| - 1;
    ConsecutiveSorted(list);
    SortedDistinct(list);
    forall i, x ensures At(tables, list, i, x) <==> At(tables0, list, i, x) || (i == n && x == id) {}
    forall ds | ds in tables0 ensures IdsBelow(tables0[ds], id) && id !in tables0[ds].jobs {}
    InsertedWellFormed(tables0, list, id, job, tables);
    FlatRows(tables0, list);
    var rows := Flat(tables0, list)[id := Row(job, None)];
    LatestFrom(tables0[list[n]].statuses, id);
    forall i, x | At(tables, list, i, x) ensures x in rows && rows[x] == RowOf(tables[list[i]], x) {
      assert x != id ==> At(tables0, list, i, x);
    }
    forall x | x in rows ensures InSome(tables, list, x) {
      if x == id {
        assert At(tables, list, n, id);
      } else {
        var i :| At(tables0, list, i, x);
        assert At(tables, list, i, x);
      }
    }
    FlatEquals(tables, list, rows);
  }

  lemma InsertedWellFormed(tables0: Tables, list: seq<Index>, id: JobID, job: Job, tables: Tables)
    requires WellFormed(tables0, list, id)
    requires var last := list[|list| - 1];
      tables == tables0[last := tables0[last].(jobs := tables0[last].jobs[id := job])]
    requires SortedIndices(list)
    requires forall i, x :: At(tables, list, i, x) <==> At(tables0, list, i, x) || (i == |list| - 1 && x == id)
    ensures WellFormed(tables, list, id + 1)
  {
  }
}
