/** Datasets as the store keeps them: a jobs table keyed by job id next to an append-only status table,
    and the flat table of all jobs that a list of datasets stands for. */
module Tables {
  import opened Common

  type JobID = int

  /** "7" is [7], "7_2" is [7, 2]. */
  type Index = seq<nat>

  /** NP stands for "no status yet" and is never stored. */
  datatype State = Succeeded | Failed | Executing | Aborted | Waiting | WaitingRetry | NP

  datatype Job = Job(uuid: int, customVal: string, payload: string)
  datatype Status = Status(jobID: JobID, state: State, attempt: int, retryTime: int)

  /** The position of a status in the sequence is its row id. */
  datatype Dataset = Dataset(jobs: map<JobID, Job>, statuses: seq<Status>)

  datatype Row = Row(job: Job, latest: Option<Status>)

  /** A job as the queries return it. */
  datatype JobT = JobT(id: JobID, row: Row)

  const NO_ROWS: Dataset := Dataset(map[], [])

  predicate Terminal(st: State) {
    st == Succeeded || st == Aborted
  }

  /** The status with the largest row id. */
  function Latest(statuses: seq<Status>, id: JobID): Option<Status> {
    if statuses == [] then None
    else if statuses[|statuses| - 1].jobID == id then Some(statuses[|statuses| - 1])
    else Latest(statuses[..|statuses| - 1], id)
  }

  function StateOf(latest: Option<Status>): State {
    match latest
    case None => NP
    case Some(s) => s.state
  }

  function RowOf(d: Dataset, id: JobID): Row
    requires id in d.jobs
  {
    Row(d.jobs[id], Latest(d.statuses, id))
  }

  ghost function View(d: Dataset): map<JobID, Row> {
    map id | id in d.jobs :: RowOf(d, id)
  }

  ghost predicate IsLive(r: Row) {
    !Terminal(StateOf(r.latest))
  }

  ghost function LiveRows(rows: map<JobID, Row>): map<JobID, Row> {
    map id | id in rows && IsLive(rows[id]) :: rows[id]
  }

  /** Statuses refer to jobs of the dataset, and a terminal status is the last one of its job. */
  ghost predicate DatasetOK(d: Dataset) {
    && (forall p :: 0 <= p < |d.statuses| ==> d.statuses[p].jobID in d.jobs && d.statuses[p].state != NP)
    && (forall p, q :: 0 <= p < q < |d.statuses| && Terminal(d.statuses[p].state) ==>
        d.statuses[q].jobID != d.statuses[p].jobID)
  }

  // ---------- latest statuses ----------

  ghost predicate LastAt(statuses: seq<Status>, id: JobID, p: int) {
    0 <= p < |statuses| && statuses[p].jobID == id && forall q :: p < q < |statuses| ==> statuses[q].jobID != id
  }

  lemma {:induction false} LatestFrom(statuses: seq<Status>, id: JobID)
    ensures match Latest(statuses, id)
      case Some(s) => exists p :: LastAt(statuses, id, p) && statuses[p] == s
      case None => forall p :: 0 <= p < |statuses| ==> statuses[p].jobID != id
  {
    if statuses != [] {
      var n := |statuses| - 1;
      if statuses[n].jobID == id {
        assert LastAt(statuses, id, n);
      } else {
        LatestFrom(statuses[..n], id);
        if p :| LastAt(statuses[..n], id, p) && Latest(statuses, id) == Some(statuses[..n][p]) {
          assert LastAt(statuses, id, p);
        }
      }
    }
  }

  lemma {:induction false} LatestAppend(a: seq<Status>, b: seq<Status>, id: JobID)
    ensures Latest(a + b, id) == if Latest(b, id).Some? then Latest(b, id) else Latest(a, id)
  {
    if b == [] {
      assert a + b == a;
    } else {
      assert (a + b)[..|a + b| - 1] == a + b[..|b| - 1];
      if b[|b| - 1].jobID != id {
        LatestAppend(a, b[..|b| - 1], id);
      }
    }
  }

  // ---------- the flat table ----------

  type Tables = map<Index, Dataset>

  ghost predicate Listed(tables: Tables, list: seq<Index>) {
    forall i :: 0 <= i < |list| ==> list[i] in tables
  }

  ghost function Flat(tables: Tables, list: seq<Index>): map<JobID, Row>
    requires Listed(tables, list)
  {
    if list == [] then map[]
    else Flat(tables, list[..|list| - 1]) + View(tables[list[|list| - 1]])
  }

  /** Job `id` is kept in the i-th dataset. */
  ghost predicate At(tables: Tables, list: seq<Index>, i: int, id: JobID) {
    0 <= i < |list| && list[i] in tables && id in tables[list[i]].jobs
  }

  ghost predicate InSome(tables: Tables, list: seq<Index>, id: JobID) {
    exists i :: At(tables, list, i, id)
  }

  /** Every id of an earlier dataset is smaller than every id of a later one. */
  ghost predicate IdsAscend(tables: Tables, list: seq<Index>) {
    forall i, j, a, b :: i < j && At(tables, list, i, a) && At(tables, list, j, b) ==> a < b
  }

  lemma PrefixAt(tables: Tables, list: seq<Index>, n: int)
    requires 0 <= n <= |list|
    ensures forall i, id :: At(tables, list[..n], i, id) <==> i < n && At(tables, list, i, id)
    ensures Listed(tables, list) ==> Listed(tables, list[..n])
    ensures IdsAscend(tables, list) ==> IdsAscend(tables, list[..n])
  {
  }

  lemma {:induction false} FlatRows(tables: Tables, list: seq<Index>)
    requires Listed(tables, list) && IdsAscend(tables, list)
    ensures forall i, id :: At(tables, list, i, id) ==>
      id in Flat(tables, list) && Flat(tables, list)[id] == RowOf(tables[list[i]], id)
    ensures forall id :: id in Flat(tables, list) <==> InSome(tables, list, id)
  {
    if list != [] {
      var n := |list| - 1;
      PrefixAt(tables, list, n);
      FlatRows(tables, list[..n]);
      forall id | id in Flat(tables, list) ensures InSome(tables, list, id) {
        if id in tables[list[n]].jobs {
          assert At(tables, list, n, id);
        } else {
          assert id in Flat(tables, list[..n]) && InSome(tables, list[..n], id);
          var i :| At(tables, list[..n], i, id);
          assert At(tables, list, i, id);
        }
      }
      forall i, id | At(tables, list, i, id)
        ensures id in Flat(tables, list) && Flat(tables, list)[id] == RowOf(tables[list[i]], id)
      {
        if i < n {
          assert At(tables, list[..n], i, id);
          assert At(tables, list, n, id) ==> id < id;
        }
      }
    }
  }

  /** The flat table of a list is told by its rows: equal rows, equal table. */
  lemma FlatEquals(tables: Tables, list: seq<Index>, rows: map<JobID, Row>)
    requires Listed(tables, list) && IdsAscend(tables, list)
    requires forall i, id :: At(tables, list, i, id) ==> id in rows && rows[id] == RowOf(tables[list[i]], id)
    requires forall id :: id in rows ==> InSome(tables, list, id)
    ensures Flat(tables, list) == rows
  {
    FlatRows(tables, list);
    forall id | InSome(tables, list, id)
      ensures id in rows && id in Flat(tables, list) && Flat(tables, list)[id] == rows[id]
    {
      var i :| At(tables, list, i, id);
    }
    forall id ensures id in rows <==> id in Flat(tables, list) {}
    forall id | id in rows ensures Flat(tables, list)[id] == rows[id] {}
  }

  lemma FlatStep(tables: Tables, list: seq<Index>, i: int)
    requires Listed(tables, list) && 0 <= i < |list|
    ensures Flat(tables, list[..i + 1]) == Flat(tables, list[..i]) + View(tables[list[i]])
  {
    assert list[..i + 1][..i] == list[..i];
  }

  /** Rows of the first i datasets keep their place in the whole, and come before all others. */
  lemma PrefixRows(tables: Tables, list: seq<Index>, i: int)
    requires Listed(tables, list) && IdsAscend(tables, list) && 0 <= i <= |list|
    ensures forall id :: id in Flat(tables, list[..i]) ==>
      id in Flat(tables, list) && Flat(tables, list)[id] == Flat(tables, list[..i])[id]
    ensures forall a, b :: a in Flat(tables, list[..i]) && b in Flat(tables, list) && b !in Flat(tables, list[..i]) ==>
      a < b
  {
    PrefixAt(tables, list, i);
    FlatRows(tables, list[..i]);
    FlatRows(tables, list);
    forall id | id in Flat(tables, list[..i])
      ensures id in Flat(tables, list) && Flat(tables, list)[id] == Flat(tables, list[..i])[id]
    {
      var j :| At(tables, list[..i], j, id);
      assert At(tables, list, j, id);
    }
    forall a, b | a in Flat(tables, list[..i]) && b in Flat(tables, list) && b !in Flat(tables, list[..i])
      ensures a < b
    {
      var j :| At(tables, list[..i], j, a);
      var k :| At(tables, list, k, b);
      assert !At(tables, list[..i], k, b);
    }
  }

  lemma NotInLater(tables: Tables, list: seq<Index>, i: int, id: JobID)
    requires Listed(tables, list) && IdsAscend(tables, list) && 0 <= i < |list| && id in Flat(tables, list[..i])
    ensures forall b :: b in tables[list[i]].jobs ==> id < b
  {
    PrefixAt(tables, list, i);
    FlatRows(tables, list[..i]);
    var j :| At(tables, list[..i], j, id);
    forall b | b in tables[list[i]].jobs ensures id < b {
      assert At(tables, list, j, id) && At(tables, list, i, b);
    }
  }

  // ---------- queries ----------

  /** `before` is the retry time limit; there is none when a whole dataset is read for migration. */
  datatype Filter = Processed(states: seq<State>, before: Option<int>) | Unprocessed

  /** The WHERE clause; an empty list of states or custom values does not restrict. */
  predicate Selects(f: Filter, customVals: seq<string>, r: Row) {
    && (customVals == [] || r.job.customVal in customVals)
    && match f
       case Unprocessed => r.latest.None?
       case Processed(states, before) =>
         && r.latest.Some? && (states == [] || r.latest.value.state in states)
         && (before.Some? ==> r.latest.value.retryTime < before.value)
  }

  function Selected(d: Dataset, f: Filter, customVals: seq<string>): set<JobID> {
    set id | id in d.jobs && Selects(f, customVals, RowOf(d, id))
  }

  ghost function SelectedFlat(rows: map<JobID, Row>, f: Filter, customVals: seq<string>): set<JobID> {
    set id | id in rows && Selects(f, customVals, rows[id])
  }

  /** ORDER BY job_id over the ids of `s` in [lo, hi). */
  function InOrder(s: set<int>, lo: int, hi: int): seq<int>
    requires lo <= hi
    decreases hi - lo
  {
    if lo == hi then [] else (if lo in s then [lo] else []) + InOrder(s, lo + 1, hi)
  }

  lemma {:induction false} InOrderAscends(s: set<int>, lo: int, hi: int)
    requires lo <= hi
    ensures var q := InOrder(s, lo, hi); Ascending(q) && forall i :: 0 <= i < |q| ==> q[i] in s && lo <= q[i] < hi
    decreases hi - lo
  {
    if lo < hi {
      InOrderAscends(s, lo + 1, hi);
      var q, rest := InOrder(s, lo, hi), InOrder(s, lo + 1, hi);
      assert q == if lo in s then [lo] + rest else rest;
      forall i | 0 <= i < |q| ensures q[i] in s && lo <= q[i] < hi {}
      assert Ascending(q);
    }
  }

  lemma {:induction false} InOrderHas(s: set<int>, lo: int, hi: int, x: int)
    requires lo <= x < hi && x in s
    ensures x in InOrder(s, lo, hi)
    decreases hi - lo
  {
    var q, rest := InOrder(s, lo, hi), InOrder(s, lo + 1, hi);
    assert q == if lo in s then [lo] + rest else rest;
    if x == lo {
      assert q[0] == x;
    } else {
      InOrderHas(s, lo + 1, hi, x);
      var k :| 0 <= k < |rest| && rest[k] == x;
      assert q[|q| - |rest| + k] == x;
    }
  }

  function Limit(q: seq<int>, n: nat): seq<int> {
    if |q| <= n then q else q[..n]
  }

  function Rows(d: Dataset, ids: seq<JobID>): seq<JobT>
    requires forall i :: 0 <= i < |ids| ==> ids[i] in d.jobs
  {
    seq(|ids|, i requires 0 <= i < |ids| => JobT(ids[i], RowOf(d, ids[i])))
  }

  ghost function IdsOf(q: seq<JobT>): seq<JobID> {
    seq(|q|, i requires 0 <= i < |q| => q[i].id)
  }

  lemma LimitIsFirstN(s: set<int>, lo: int, hi: int, n: nat)
    requires lo <= hi && forall x :: x in s ==> lo <= x < hi
    ensures FirstN(Limit(InOrder(s, lo, hi), n), s, n)
  {
    InOrderAscends(s, lo, hi);
    var q, r := InOrder(s, lo, hi), Limit(InOrder(s, lo, hi), n);
    forall j | 0 <= j < |r| ensures q[j] in r {
      assert r[j] == q[j];
    }
    forall x | x in s && x !in r ensures |r| == n && forall y :: y in r ==> y < x {
      InOrderHas(s, lo, hi, x);
      var k :| 0 <= k < |q| && q[k] == x;
      assert k >= |r|;
    }
  }

  /** Reading one dataset after the other reads the flat table. */
  lemma FirstNExtends(q: seq<int>, s: set<int>, r: seq<int>, t: set<int>, n: nat)
    requires FirstN(q, s, n) && FirstN(r, t, n - |q|)
    requires forall x, y :: x in s && y in t ==> x < y
    ensures FirstN(q + r, s + t, n)
  {
    forall i, j | 0 <= i < j < |q + r| ensures (q + r)[i] < (q + r)[j] {
      if i < |q| <= j {
        assert (q + r)[i] in q && (q + r)[j] in r;
      }
    }
    forall x | x in s + t && x !in q + r ensures |q + r| == n && forall y :: y in q + r ==> y < x {
      if x in s {
        assert x !in q && |q| == n && r == [];
      } else {
        assert x !in r;
      }
    }
  }
}
