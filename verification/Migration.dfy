/** Moving the unfinished jobs of old datasets into a new one: what is copied, what is counted, and why the
    flat table of unfinished jobs stays the same. */
module Migration {
  import opened Common
  import opened Tables
  import opened Batches

  /** The states migrateJobs asks for besides "unprocessed". */
  const UNFINISHED: seq<State> := [Failed, Waiting, WaitingRetry, Executing]

  function ToCopy(src: Dataset): set<JobID> {
    Selected(src, Unprocessed, []) + Selected(src, Processed(UNFINISHED, None), [])
  }

  /** First transaction: the job rows, with their ids. */
  function CopyJobs(src: Dataset, dst: Dataset): Dataset {
    dst.(jobs := dst.jobs + map id | id in src.jobs && id in ToCopy(src) :: src.jobs[id])
  }

  /** The latest statuses of the jobs listed. */
  function LatestOf(src: Dataset, ids: seq<JobID>): seq<Status> {
    if ids == [] then []
    else (match Latest(src.statuses, ids[0]) case Some(s) => [s] case None => []) + LatestOf(src, ids[1..])
  }

  /** Second transaction: the latest statuses of the jobs that have one. */
  function CopyStatuses(src: Dataset, dst: Dataset, ids: seq<JobID>): Dataset {
    dst.(statuses := dst.statuses + LatestOf(src, ids))
  }

  /** The ids the second transaction goes through, in any order, each once. */
  ghost predicate RetryIds(src: Dataset, ids: seq<JobID>) {
    && (forall i, j :: 0 <= i < j < |ids| ==> ids[i] != ids[j])
    && (forall id :: id in ids <==> id in Selected(src, Processed(UNFINISHED, None), []))
  }

  ghost predicate Apart(a: Dataset, b: Dataset) {
    forall id :: id in a.jobs ==> id !in b.jobs
  }

  /** A job is copied exactly if it is live. */
  lemma CopiesLive(src: Dataset, id: JobID)
    requires DatasetOK(src) && id in src.jobs
    ensures id in ToCopy(src) <==> IsLive(RowOf(src, id))
  {
    LatestFrom(src.statuses, id);
  }

  lemma {:induction false} LatestOfOne(src: Dataset, ids: seq<JobID>, id: JobID)
    requires forall i, j :: 0 <= i < j < |ids| ==> ids[i] != ids[j]
    ensures Latest(LatestOf(src, ids), id) == if id in ids then Latest(src.statuses, id) else None
    ensures forall s :: s in LatestOf(src, ids) ==> s.jobID in ids && s in src.statuses
    decreases |ids|
  {
    if ids != [] {
      var rest := ids[1..];
      forall i, j | 0 <= i < j < |rest| ensures rest[i] != rest[j] {
        assert ids[i + 1] != ids[j + 1];
      }
      forall i | 0 <= i < |rest| ensures rest[i] != ids[0] {
        assert ids[i + 1] != ids[0];
      }
      LatestOfOne(src, rest, id);
      LatestFrom(src.statuses, ids[0]);
      var head := match Latest(src.statuses, ids[0]) case Some(s) => [s] case None => [];
      LatestAppend(head, LatestOf(src, rest), id);
      assert id in ids <==> id == ids[0] || id in rest;
      assert head != [] ==> head[..0] == [] && Latest(head, id) == if id == ids[0] then Some(head[0]) else None;
    }
  }

  /** After both transactions the destination holds what it held plus the live rows of the source. */
  lemma MigratedRows(src: Dataset, dst: Dataset, ids: seq<JobID>)
    requires DatasetOK(src) && DatasetOK(dst) && Apart(src, dst) && RetryIds(src, ids)
    ensures var d := CopyStatuses(src, CopyJobs(src, dst), ids);
      && (forall id :: id in d.jobs <==> id in dst.jobs || (id in src.jobs && IsLive(RowOf(src, id))))
      && (forall id :: id in dst.jobs ==> RowOf(d, id) == RowOf(dst, id))
      && (forall id :: id in src.jobs && IsLive(RowOf(src, id)) ==> RowOf(d, id) == RowOf(src, id))
  {
    var d := CopyStatuses(src, CopyJobs(src, dst), ids);
    forall id | id in src.jobs ensures id in ToCopy(src) <==> IsLive(RowOf(src, id)) {
      CopiesLive(src, id);
    }
    forall id | id in d.jobs
      ensures Latest(d.statuses, id) == if id in dst.jobs then Latest(dst.statuses, id) else Latest(src.statuses, id)
    {
      LatestAppend(dst.statuses, LatestOf(src, ids), id);
      LatestOfOne(src, ids, id);
      LatestFrom(dst.statuses, id);
      LatestFrom(src.statuses, id);
    }
  }

  lemma MigratedOK(src: Dataset, dst: Dataset, ids: seq<JobID>)
    requires DatasetOK(src) && DatasetOK(dst) && Apart(src, dst) && RetryIds(src, ids)
    ensures DatasetOK(CopyStatuses(src, CopyJobs(src, dst), ids))
  {
    var d, l := CopyStatuses(src, CopyJobs(src, dst), ids), LatestOf(src, ids);
    forall k | 0 <= k < |l|
      ensures l[k].jobID in d.jobs && l[k].jobID in src.jobs && l[k].state != NP && !Terminal(l[k].state)
    {
      LatestOfOne(src, ids, l[k].jobID);
      assert l[k] in l && l[k].jobID in ids;
      var p :| 0 <= p < |src.statuses| && src.statuses[p] == l[k];
      CopiesLive(src, l[k].jobID);
      if Terminal(l[k].state) {
        TerminalIsLatest(src, p);
      }
    }
  }

  // ---------- counting ----------

  /** COUNT(DISTINCT(id)) over the rows in a terminal state; `id` is the row id, so it counts rows. */
  function CountTerminal(statuses: seq<Status>): nat {
    if statuses == [] then 0
    else CountTerminal(statuses[..|statuses| - 1]) + if Terminal(statuses[|statuses| - 1].state) then 1 else 0
  }

  /** COUNT(*) of a set of ids below the bound. */
  function Count(s: set<JobID>, bound: JobID): nat
    requires bound >= 1
  {
    |InOrder(s, 1, bound)|
  }

  function JobIds(d: Dataset): set<JobID> {
    set id | id in d.jobs
  }

  ghost function DoneIds(d: Dataset): set<JobID> {
    set id | id in d.jobs && !IsLive(RowOf(d, id))
  }

  ghost function LiveIds(d: Dataset): set<JobID> {
    set id | id in d.jobs && IsLive(RowOf(d, id))
  }

  lemma {:induction false} CountSplit(s: set<JobID>, t: set<JobID>, lo: int, hi: int)
    requires lo <= hi && forall x :: x in s ==> x !in t
    ensures |InOrder(s + t, lo, hi)| == |InOrder(s, lo, hi)| + |InOrder(t, lo, hi)|
    decreases hi - lo
  {
    if lo < hi {
      CountSplit(s, t, lo + 1, hi);
    }
  }

  lemma {:induction false} CountOne(x: JobID, lo: int, hi: int)
    requires lo <= hi
    ensures |InOrder({x}, lo, hi)| == if lo <= x < hi then 1 else 0
    decreases hi - lo
  {
    if lo < hi {
      CountOne(x, lo + 1, hi);
    }
  }

  /** Every terminal row is the last row of its job. */
  ghost predicate TerminalLast(statuses: seq<Status>) {
    forall p, q :: 0 <= p < q < |statuses| && Terminal(statuses[p].state) ==> statuses[q].jobID != statuses[p].jobID
  }

  ghost function DoneIn(statuses: seq<Status>, bound: JobID): set<JobID> {
    set id | 1 <= id < bound && Terminal(StateOf(Latest(statuses, id)))
  }

  /** Counting rows counts jobs exactly when every terminal row is the last one of its job; otherwise it counts too
      many, because a job has two terminal rows or has gone on after one. */
  lemma {:induction false} CountsRows(statuses: seq<Status>, bound: JobID)
    requires bound >= 1
    requires forall p :: 0 <= p < |statuses| ==> 1 <= statuses[p].jobID < bound
    ensures CountTerminal(statuses) >= Count(DoneIn(statuses, bound), bound)
    ensures CountTerminal(statuses) == Count(DoneIn(statuses, bound), bound) <==> TerminalLast(statuses)
  {
    if statuses == [] {
      forall x ensures x !in DoneIn([], bound) {}
      NoneCounted(DoneIn([], bound), 1, bound);
    } else {
      var init := statuses[..|statuses| - 1];
      CountsRows(init, bound);
      CountsLastRow(statuses, bound);
      LastRowEnds(statuses, bound);
    }
  }

  lemma {:induction false} NoneCounted(s: set<int>, lo: int, hi: int)
    requires lo <= hi && forall x :: lo <= x < hi ==> x !in s
    ensures InOrder(s, lo, hi) == []
    decreases hi - lo
  {
    if lo < hi {
      NoneCounted(s, lo + 1, hi);
    }
  }

  /** The last row changes at most whether its own job is done. */
  lemma CountsLastRow(statuses: seq<Status>, bound: JobID)
    requires bound >= 1 && statuses != [] && 1 <= statuses[|statuses| - 1].jobID < bound
    ensures var n := |statuses| - 1;
      Count(DoneIn(statuses, bound), bound) == Count(DoneIn(statuses[..n], bound), bound)
        + (if Terminal(statuses[n].state) then 1 else 0)
        - (if statuses[n].jobID in DoneIn(statuses[..n], bound) then 1 else 0)
  {
    var n := |statuses| - 1;
    var s, before, after := statuses[n], DoneIn(statuses[..n], bound), DoneIn(statuses, bound);
    var others := before - {s.jobID};
    CountOne(s.jobID, 1, bound);
    CountSplit(others, {s.jobID}, 1, bound);
    forall x ensures x in after <==> x in others || (x == s.jobID && Terminal(s.state)) {}
    assert before == if s.jobID in before then others + {s.jobID} else others;
    assert after == if Terminal(s.state) then others + {s.jobID} else others;
  }

  /** The last row breaks the rule exactly if its job was done before. */
  lemma LastRowEnds(statuses: seq<Status>, bound: JobID)
    requires bound >= 1 && statuses != [] && 1 <= statuses[|statuses| - 1].jobID < bound
    ensures var n := |statuses| - 1;
      TerminalLast(statuses) <==> TerminalLast(statuses[..n]) && statuses[n].jobID !in DoneIn(statuses[..n], bound)
  {
    var n := |statuses| - 1;
    var init, id := statuses[..n], statuses[n].jobID;
    LatestFrom(init, id);
    if id in DoneIn(init, bound) {
      var p :| LastAt(init, id, p) && init[p] == Latest(init, id).value;
      assert statuses[p] == init[p];
    }
    if TerminalLast(init) {
      forall p | 0 <= p < n && Terminal(statuses[p].state)
        ensures Latest(init, statuses[p].jobID) == Some(statuses[p])
      {
        assert init[p] == statuses[p];
        LatestFrom(init, init[p].jobID);
      }
    }
    if TerminalLast(statuses) {
      forall p, q | 0 <= p < q < n && Terminal(init[p].state) ensures init[q].jobID != init[p].jobID {
        assert statuses[p] == init[p] && statuses[q] == init[q];
      }
    }
  }

  lemma NotEmpty(d: Dataset, ids: seq<JobID>)
    requires d.jobs != map[] && forall id :: id in d.jobs ==> id in ids
    ensures ids != []
  {
    if ids == [] {
      forall id ensures id !in d.jobs {}
    }
  }

  /** remCount, as checkIfMigrateDS computes it. */
  function RemCount(d: Dataset, bound: JobID): int
    requires bound >= 1
  {
    Count(JobIds(d), bound) - CountTerminal(d.statuses)
  }

  /** The count of what is left to migrate is right exactly when every terminal row is the last one of its job,
      and too small otherwise. */
  lemma RemCountIff(d: Dataset, bound: JobID)
    requires bound >= 1
    requires forall p :: 0 <= p < |d.statuses| ==> d.statuses[p].jobID in d.jobs
    requires forall id :: id in d.jobs ==> 1 <= id < bound
    ensures RemCount(d, bound) <= Count(LiveIds(d), bound)
    ensures RemCount(d, bound) == Count(LiveIds(d), bound) <==> TerminalLast(d.statuses)
  {
    CountsRows(d.statuses, bound);
    forall id ensures id in DoneIds(d) <==> id in DoneIn(d.statuses, bound) {
      LatestFrom(d.statuses, id);
    }
    assert DoneIds(d) == DoneIn(d.statuses, bound);
    forall id ensures id in JobIds(d) <==> id in DoneIds(d) + LiveIds(d) {}
    assert JobIds(d) == DoneIds(d) + LiveIds(d);
    CountSplit(DoneIds(d), LiveIds(d), 1, bound);
  }
}
