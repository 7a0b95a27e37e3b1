/** Clients at work under both locks: each slice of an update and each query of a read fits the datasets as they are,
    whatever other clients store and update in between. */
module LockedClients {
  import opened Common
  import opened Tables
  import opened Layout
  import opened Batches
  import opened Reading
  import opened Journal
  import opened JournalInvariant
  import opened LockedStore
  import opened LockedInvariant

  /** Ids ascend from dataset to dataset, so a job is in no two of them. */
  ghost predicate Spread(d: Disk, list: seq<Index>) {
    forall i, j, a, b :: i < j && In(d, list, i, a) && In(d, list, j, b) ==> a < b
  }

  lemma CoreSpread(d: Disk, list: seq<Index>)
    requires CoreOK(d, list)
    ensures Spread(d, list)
    ensures forall i, id :: In(d, list, i, id) ==> 1 <= id < d.jobs[Last(list)].next
  {
    hide DatasetOK, Consecutive;
    var core := Core(d, list);
    forall i, id | In(d, list, i, id) ensures At(core, list, i, id) && 1 <= id < d.jobs[Last(list)].next {
      assert list[i] in list && list[i] in core && IdsBelow(core[list[i]], d.jobs[Last(list)].next);
    }
  }

  /** Every unfinished job is somewhere in the list. */
  lemma LiveSomewhere(d: Disk, list: seq<Index>, rows: map<JobID, Row>, id: JobID) returns (i: int)
    requires CoreOK(d, list) && LiveSame(d, list, rows) && id in rows && IsLive(rows[id])
    ensures In(d, list, i, id)
  {
    hide Flat, DatasetOK, Consecutive, IdsBelow;
    var core := Core(d, list);
    FlatRows(core, list);
    assert id in LiveRows(rows) && id in LiveRows(Flat(core, list));
    assert InSome(core, list, id);
    i :| At(core, list, i, id);
  }

  // ---------- updating ----------

  /** The range of the k-th dataset, as it is in memory. */
  lemma RangeAt(d: Disk, list: seq<Index>, ranges: seq<Range>, k: int)
    requires RangesOK(d, list, ranges) && 0 <= k < |ranges|
    ensures |ranges| == |list| - 1 && ranges[k].ds == list[k]
    ensures In(d, list, k, ranges[k].minJobID) && In(d, list, k, ranges[k].maxJobID)
    ensures forall id :: In(d, list, k, id) ==> ranges[k].minJobID <= id <= ranges[k].maxJobID
  {
    assert list[k] in list;
  }

  lemma RangesAll(d: Disk, list: seq<Index>, ranges: seq<Range>)
    requires RangesOK(d, list, ranges)
    ensures |ranges| == |list| - 1
  {
  }

  /** What is written next is in the dataset it is written to, what is left over lies behind it, and the assertion of
      the loop holds. */
  lemma SliceFits(s: World, todo: seq<Status>, k: nat)
    requires CoreOK(s.sys.disk, s.mem) && RangesOK(s.sys.disk, s.mem, s.ranges) && todo != []
    requires TodoOK(s.sys.disk, s.mem, s.sys.rows, todo, k)
    ensures k < |s.mem| && Target(s, k) == s.mem[k]
    ensures k < |s.ranges| ==> todo[0].jobID >= s.ranges[k].minJobID
    ensures var n := Share(s, todo, k);
      && (forall i :: 0 <= i < n ==> In(s.sys.disk, s.mem, k, todo[i].jobID))
      && (forall i :: n <= i < |todo| ==> LiesFrom(s.sys.disk, s.mem, k + 1, todo[i].jobID))
  {
    hide CoreOK, RangesOK, Cut;
    var d, mem, n := s.sys.disk, s.mem, Share(s, todo, k);
    RangesAll(d, mem, s.ranges);
    CoreSpread(d, mem);
    assert todo[0] in todo && LiesFrom(d, mem, k, todo[0].jobID);
    var j0 :| k <= j0 && In(d, mem, j0, todo[0].jobID);
    if k < |s.ranges| {
      RangeAt(d, mem, s.ranges, k);
      CutTells(todo, s.ranges[k].maxJobID);
    }
    forall i | 0 <= i < n ensures In(d, mem, k, todo[i].jobID) {
      assert todo[i] in todo;
      var j :| k <= j && In(d, mem, j, todo[i].jobID);
    }
    forall i | n <= i < |todo| ensures LiesFrom(d, mem, k + 1, todo[i].jobID) {
      assert todo[i] in todo;
      var j :| k <= j && In(d, mem, j, todo[i].jobID);
      assert todo[i].jobID > s.ranges[k].maxJobID;
      assert k + 1 <= j;
    }
  }

  /** Once a slice is written the rest of the batch is as fit as before. */
  lemma RestFits(s: World, todo: seq<Status>, k: nat)
    requires CoreOK(s.sys.disk, s.mem) && RangesOK(s.sys.disk, s.mem, s.ranges) && todo != []
    requires TodoOK(s.sys.disk, s.mem, s.sys.rows, todo, k)
    ensures var n := Share(s, todo, k); TodoOK(s.sys.disk, s.mem, Applied(s.sys.rows, todo[..n]), todo[n..], k + 1)
  {
    hide CoreOK, RangesOK, Cut, Share, LiesFrom;
    SliceFits(s, todo, k);
    var n := Share(s, todo, k);
    forall t | t in todo[n..]
      ensures t.state != NP && t.jobID in s.sys.rows && IsLive(Applied(s.sys.rows, todo[..n])[t.jobID])
      ensures LiesFrom(s.sys.disk, s.mem, k + 1, t.jobID)
    {
      var i :| 0 <= i < |todo[n..]| && todo[n..][i] == t;
      assert t == todo[n + i] && t in todo;
      LatestFrom(todo[..n], t.jobID);
    }
  }

  // ---------- reading ----------

  lemma MatchingAt(d: Disk, list: seq<Index>, f: Filter, customVals: seq<string>, k: int, id: JobID)
    requires Spread(d, list) && 0 <= k < |list| && list[k] in d.jobs && list[k] in d.statuses
    requires id in Matching(d, list, f, customVals) && In(d, list, k, id)
    ensures id in Selected(Pair(d, list[k]), f, customVals)
  {
    var ds :| ds in list && ds in d.jobs && ds in d.statuses && id in Selected(Pair(d, ds), f, customVals);
    var j :| 0 <= j < |list| && list[j] == ds;
    assert In(d, list, j, id);
    assert j == k;
  }

  lemma AnswerTells(d: Disk, mem: seq<Index>, w: Work)
    requires CoreOK(d, mem) && w.Reading? && ReadOK(d, mem, w) && !Finished(w, mem)
    ensures mem[w.k] in d.jobs && mem[w.k] in d.statuses
    ensures var p, q := Pair(d, mem[w.k]), Answer(d, mem, w);
      && FirstN(IdsOf(q), Selected(p, w.f, w.customVals), w.count - |w.out|)
      && (forall t :: t in q ==> t.id in p.jobs && t.row == RowOf(p, t.id) && Selects(w.f, w.customVals, t.row))
  {
    hide DatasetOK, Consecutive, QueryDS;
    var ds := mem[w.k];
    assert ds in mem && ds in Core(d, mem);
    var p, q := Pair(d, ds), Answer(d, mem, w);
    assert IdsBelow(p, Bound(d, mem));
    QueryIds(p, w.f, w.customVals, w.count - |w.out|, Bound(d, mem));
    forall t | t in q ensures t.id in p.jobs && t.row == RowOf(p, t.id) && Selects(w.f, w.customVals, t.row) {
      var k :| 0 <= k < |q| && q[k] == t;
      assert IdsOf(q)[k] == t.id && t.id in IdsOf(q);
    }
  }

  lemma {:induction false} IdsOfAppend(a: seq<JobT>, b: seq<JobT>)
    ensures IdsOf(a + b) == IdsOf(a) + IdsOf(b)
  {
  }

  /** What a query returns is there. */
  lemma QueryRows(d: Disk, mem: seq<Index>, w: Work)
    requires CoreOK(d, mem) && w.Reading? && ReadOK(d, mem, w) && !Finished(w, mem)
    ensures mem[w.k] in d.jobs && mem[w.k] in d.statuses
    ensures RowsRead(d, mem, w.(k := w.k + 1, out := w.out + Answer(d, mem, w)))
  {
    hide CoreOK, Answer, Matching, Selected, Selects, Ascending, FirstN;
    AnswerTells(d, mem, w);
    var q, w' := Answer(d, mem, w), w.(k := w.k + 1, out := w.out + Answer(d, mem, w));
    forall t | t in w'.out ensures t in w'.seen && exists j :: j < w'.k && HasJob(d, mem, j, t) {
      if t in w.out {
        var j :| j < w.k && HasJob(d, mem, j, t);
      } else {
        assert t in q && HasJob(d, mem, w.k, t);
        assert mem[w.k] in mem && t in RowsOn(d, mem) by { assert t == JobT(t.id, RowOf(Pair(d, mem[w.k]), t.id)); }
      }
    }
  }

  /** One more query keeps what holds of a read. */
  lemma QueryFits(d: Disk, mem: seq<Index>, w: Work)
    requires CoreOK(d, mem) && w.Reading? && ReadOK(d, mem, w) && !Finished(w, mem)
    ensures mem[w.k] in d.jobs && mem[w.k] in d.statuses
    ensures ReadOK(d, mem, w.(k := w.k + 1, out := w.out + Answer(d, mem, w)))
  {
    hide CoreOK, Answer, Matching, Selected, Selects, RowsRead;
    AnswerTells(d, mem, w);
    CoreSpread(d, mem);
    var q := Answer(d, mem, w);
    var a, b, p := IdsOf(w.out), IdsOf(q), Pair(d, mem[w.k]);
    IdsOfAppend(w.out, q);
    QueryRows(d, mem, w);
    forall id | id in b ensures In(d, mem, w.k, id) {
      var k :| 0 <= k < |b| && b[k] == id;
      assert q[k] in q && q[k].id == id;
    }
    forall x, y | x in a && y in b ensures x < y {
      var j :| j < w.k && In(d, mem, j, x);
      assert In(d, mem, w.k, y);
    }
    forall i, j | 0 <= i < j < |a + b| ensures (a + b)[i] < (a + b)[j] {
      if i < |a| <= j {
        assert (a + b)[i] in a && (a + b)[j] in b;
      }
    }
    forall id, j | id in w.steady && id !in a + b && j < w.k + 1 && In(d, mem, j, id)
      ensures |a + b| == w.count && forall y :: y in a + b ==> y < id
    {
      assert id !in a;
      assert j == w.k;
      MatchingAt(d, mem, w.f, w.customVals, w.k, id);
      forall y | y in a ensures y < id {
        var i :| i < w.k && In(d, mem, i, y);
      }
    }
  }

  // ---------- what others do in between ----------

  /** New jobs are added at most, and every job stays what and where it is. */
  ghost predicate Grown(d: Disk, d': Disk, mem: seq<Index>) {
    && (forall i, id :: In(d, mem, i, id) ==>
      In(d', mem, i, id) && d'.jobs[mem[i]].rows[id] == d.jobs[mem[i]].rows[id])
    && (forall i, j, id :: In(d', mem, i, id) && In(d, mem, j, id) ==> In(d, mem, i, id))
  }

  lemma TodoStays(d: Disk, d': Disk, mem: seq<Index>, rows: map<JobID, Row>, rows': map<JobID, Row>, todo: seq<Status>,
          k: nat)
    requires TodoOK(d, mem, rows, todo, k) && Grown(d, d', mem)
    requires forall t :: t in todo ==> t.jobID in rows' && rows'[t.jobID] == rows[t.jobID]
    ensures TodoOK(d', mem, rows', todo, k)
  {
    hide In;
    forall t | t in todo ensures LiesFrom(d', mem, k, t.jobID) {
      var j :| k <= j && In(d, mem, j, t.jobID);
      assert In(d', mem, j, t.jobID);
    }
  }

  lemma ReadStays(d: Disk, d': Disk, mem: seq<Index>, w: Work)
    requires w.Reading? && ReadOK(d, mem, w) && Grown(d, d', mem)
    ensures ReadOK(d', mem, Watched(w, d', mem))
  {
    hide Selects, Selected, Ascending;
    RowsStay(d, d', mem, w);
    hide In, RowsRead;
    var w', ids := Watched(w, d', mem), IdsOf(w.out);
    forall id, j | id in w'.steady && id !in ids && j < w.k && In(d', mem, j, id)
      ensures |ids| == w.count && forall y :: y in ids ==> y < id
    {
      assert id in w.steady && id in Matching(d, mem, w.f, w.customVals);
      var i := MatchedIn(d, mem, w.f, w.customVals, id);
      assert In(d, mem, j, id);
    }
  }

  lemma RowsStay(d: Disk, d': Disk, mem: seq<Index>, w: Work)
    requires w.Reading? && RowsRead(d, mem, w) && Grown(d, d', mem)
    ensures RowsRead(d', mem, Watched(w, d', mem))
  {
    hide Matching, RowOf;
    forall t | t in w.out ensures exists j :: j < w.k && HasJob(d', mem, j, t) {
      var j :| j < w.k && HasJob(d, mem, j, t);
      assert In(d, mem, j, t.id) && HasJob(d', mem, j, t);
    }
  }

  lemma MatchedIn(d: Disk, list: seq<Index>, f: Filter, customVals: seq<string>, id: JobID) returns (i: int)
    requires id in Matching(d, list, f, customVals)
    ensures In(d, list, i, id)
  {
    var ds :| ds in list && ds in d.jobs && ds in d.statuses && id in Selected(Pair(d, ds), f, customVals);
    i :| 0 <= i < |list| && list[i] == ds;
  }

  lemma WorkStays(d: Disk, d': Disk, mem: seq<Index>, rows: map<JobID, Row>, rows': map<JobID, Row>, w: Work)
    requires WorkOK(d, mem, rows, w) && Grown(d, d', mem)
    requires w.Updating? ==> forall t :: t in w.todo ==>
      t.jobID in rows' && t.jobID in rows && rows'[t.jobID] == rows[t.jobID]
    ensures WorkOK(d', mem, rows', Watched(w, d', mem))
  {
    hide TodoOK, ReadOK, Grown, Matching;
    match w
    case NoWork =>
    case Updating(todo, k) => TodoStays(d, d', mem, rows, rows', todo, k);
    case Reading(_, _, _, _, _, _, _) => ReadStays(d, d', mem, w);
  }
}
