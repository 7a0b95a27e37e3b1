/** Batches of statuses: sorting them, cutting them up by dataset, and what they do to the flat table. */
module Batches {
  import opened Common
  import opened Tables

  ghost predicate DistinctJobs(q: seq<Status>) {
    forall i, j :: 0 <= i < j < |q| ==> q[i].jobID != q[j].jobID
  }

  ghost predicate ByJob(q: seq<Status>) {
    forall i, j :: 0 <= i < j < |q| ==> q[i].jobID < q[j].jobID
  }

  /** sort.Slice by job id. */
  function Insert(q: seq<Status>, s: Status): seq<Status> {
    if q == [] then [s]
    else if s.jobID < q[0].jobID then [s] + q
    else [q[0]] + Insert(q[1..], s)
  }

  function Sort(q: seq<Status>): seq<Status> {
    if q == [] then [] else Insert(Sort(q[1..]), q[0])
  }

  lemma {:induction false} InsertMembers(q: seq<Status>, s: Status)
    ensures forall x :: x in Insert(q, s) <==> x == s || x in q
  {
    if q != [] && s.jobID >= q[0].jobID {
      InsertMembers(q[1..], s);
      assert q == [q[0]] + q[1..];
    }
  }

  lemma {:induction false} InsertSorts(q: seq<Status>, s: Status)
    requires ByJob(q) && forall i :: 0 <= i < |q| ==> q[i].jobID != s.jobID
    ensures ByJob(Insert(q, s))
  {
    if q != [] && s.jobID >= q[0].jobID {
      var rest := Insert(q[1..], s);
      InsertSorts(q[1..], s);
      InsertMembers(q[1..], s);
      forall i | 0 <= i < |rest| ensures q[0].jobID < rest[i].jobID {
        assert rest[i] in rest;
      }
    }
  }

  /** Sorting a batch that names every job once rearranges it in strictly ascending order. */
  lemma {:induction false} SortSorts(q: seq<Status>)
    requires DistinctJobs(q)
    ensures ByJob(Sort(q)) && forall x :: x in Sort(q) <==> x in q
  {
    if q != [] {
      var rest := q[1..];
      forall i, j | 0 <= i < j < |rest| ensures rest[i].jobID != rest[j].jobID {
        assert q[i + 1].jobID != q[j + 1].jobID;
      }
      SortSorts(rest);
      forall i | 0 <= i < |Sort(rest)| ensures Sort(rest)[i].jobID != q[0].jobID {
        assert Sort(rest)[i] in rest;
        var j :| 0 <= j < |rest| && rest[j] == Sort(rest)[i];
        assert q[j + 1].jobID != q[0].jobID;
      }
      InsertSorts(Sort(rest), q[0]);
      InsertMembers(Sort(rest), q[0]);
      assert q == [q[0]] + rest;
    }
  }

  // ---------- cutting up ----------

  /** The statuses of a batch whose jobs are in a dataset, in order. */
  function Belonging(q: seq<Status>, jobs: map<JobID, Job>): seq<Status> {
    if q == [] then [] else (if q[0].jobID in jobs then [q[0]] else []) + Belonging(q[1..], jobs)
  }

  lemma {:induction false} BelongingAppend(a: seq<Status>, b: seq<Status>, jobs: map<JobID, Job>)
    ensures Belonging(a + b, jobs) == Belonging(a, jobs) + Belonging(b, jobs)
  {
    if a == [] {
      assert a + b == b;
    } else {
      BelongingAppend(a[1..], b, jobs);
      assert (a + b)[1..] == a[1..] + b;
      var h := if a[0].jobID in jobs then [a[0]] else [];
      assert Belonging(a + b, jobs) == h + Belonging(a[1..] + b, jobs);
      assert h + (Belonging(a[1..], jobs) + Belonging(b, jobs)) == (h + Belonging(a[1..], jobs)) + Belonging(b, jobs);
    }
  }

  lemma {:induction false} BelongingAll(q: seq<Status>, jobs: map<JobID, Job>)
    requires forall i :: 0 <= i < |q| ==> q[i].jobID in jobs
    ensures Belonging(q, jobs) == q
  {
    if q != [] {
      BelongingAll(q[1..], jobs);
    }
  }

  lemma {:induction false} BelongingNone(q: seq<Status>, jobs: map<JobID, Job>)
    requires forall i :: 0 <= i < |q| ==> q[i].jobID !in jobs
    ensures Belonging(q, jobs) == []
  {
    if q != [] {
      BelongingNone(q[1..], jobs);
    }
  }

  /** A run of the batch that lies in the dataset, with nothing of it outside the run, is what belongs to it. */
  lemma BelongingSlice(q: seq<Status>, lo: int, hi: int, jobs: map<JobID, Job>)
    requires 0 <= lo <= hi <= |q|
    requires forall i :: 0 <= i < |q| ==> (q[i].jobID in jobs <==> lo <= i < hi)
    ensures Belonging(q, jobs) == q[lo..hi]
  {
    assert q == q[..lo] + (q[lo..hi] + q[hi..]);
    BelongingAppend(q[..lo], q[lo..hi] + q[hi..], jobs);
    BelongingAppend(q[lo..hi], q[hi..], jobs);
    BelongingNone(q[..lo], jobs);
    BelongingAll(q[lo..hi], jobs);
    BelongingNone(q[hi..], jobs);
  }

  lemma {:induction false} BelongingMembers(q: seq<Status>, jobs: map<JobID, Job>)
    ensures forall x :: x in Belonging(q, jobs) <==> x in q && x.jobID in jobs
    ensures DistinctJobs(q) ==> DistinctJobs(Belonging(q, jobs))
  {
    if q != [] {
      var rest := q[1..];
      assert q == [q[0]] + rest;
      BelongingMembers(rest, jobs);
      if DistinctJobs(q) {
        forall i, j | 0 <= i < j < |rest| ensures rest[i].jobID != rest[j].jobID {
          assert q[i + 1].jobID != q[j + 1].jobID;
        }
        forall i | 0 <= i < |Belonging(rest, jobs)| ensures Belonging(rest, jobs)[i].jobID != q[0].jobID {
          assert Belonging(rest, jobs)[i] in rest;
          var j :| 0 <= j < |rest| && rest[j] == Belonging(rest, jobs)[i];
          assert q[j + 1].jobID != q[0].jobID;
        }
      }
    }
  }

  // ---------- effect on rows ----------

  /** Every job named in the batch gets its status as the latest one; nothing else changes. */
  ghost function Applied(rows: map<JobID, Row>, q: seq<Status>): map<JobID, Row> {
    map id | id in rows :: AfterBatch(rows[id], q, id)
  }

  ghost function AfterBatch(r: Row, q: seq<Status>, id: JobID): Row {
    Row(r.job, if Latest(q, id).Some? then Latest(q, id) else r.latest)
  }

  /** In a batch that names every job once, a job's status is simply the one that names it. */
  lemma LatestDistinct(q: seq<Status>, k: int)
    requires DistinctJobs(q) && 0 <= k < |q|
    ensures Latest(q, q[k].jobID) == Some(q[k])
  {
  }

  /** Order does not matter then. */
  lemma LatestSame(a: seq<Status>, b: seq<Status>, id: JobID)
    requires DistinctJobs(a) && DistinctJobs(b) && forall x: Status :: x.jobID == id ==> (x in a <==> x in b)
    ensures Latest(a, id) == Latest(b, id)
  {
  }

  ghost function Extended(d: Dataset, q: seq<Status>): Dataset {
    d.(statuses := d.statuses + Belonging(q, d.jobs))
  }

  lemma ExtendedRow(d: Dataset, q: seq<Status>, id: JobID)
    requires id in d.jobs && DistinctJobs(q)
    ensures RowOf(Extended(d, q), id) == AfterBatch(RowOf(d, id), q, id)
  {
    BelongingMembers(q, d.jobs);
    LatestAppend(d.statuses, Belonging(q, d.jobs), id);
    LatestSame(Belonging(q, d.jobs), q, id);
  }

  /** The terminal status of a job is its latest one. */
  lemma TerminalIsLatest(d: Dataset, p: int)
    requires DatasetOK(d) && 0 <= p < |d.statuses| && Terminal(d.statuses[p].state)
    ensures Latest(d.statuses, d.statuses[p].jobID) == Some(d.statuses[p])
  {
    var id := d.statuses[p].jobID;
    LatestFrom(d.statuses, id);
    var q :| LastAt(d.statuses, id, q) && d.statuses[q] == Latest(d.statuses, id).value;
    assert p <= q;
  }

  lemma ExtendedOK(d: Dataset, q: seq<Status>)
    requires DatasetOK(d) && DistinctJobs(q)
    requires forall k :: 0 <= k < |q| ==> q[k].state != NP
    requires forall k :: 0 <= k < |q| && q[k].jobID in d.jobs ==> !Terminal(StateOf(Latest(d.statuses, q[k].jobID)))
    ensures DatasetOK(Extended(d, q))
  {
    var b, e := Belonging(q, d.jobs), Extended(d, q);
    BelongingMembers(q, d.jobs);
    forall k | 0 <= k < |b|
      ensures b[k].jobID in d.jobs && b[k].state != NP && !Terminal(StateOf(Latest(d.statuses, b[k].jobID)))
    {
      assert b[k] in q;
    }
    forall i, j | 0 <= i < j < |e.statuses| && Terminal(e.statuses[i].state)
      ensures e.statuses[j].jobID != e.statuses[i].jobID
    {
      if i < |d.statuses| {
        TerminalIsLatest(d, i);
      }
    }
  }
}
