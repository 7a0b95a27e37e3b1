/** The gateway: requests are batched, each batch is stored at once, and every request is answered exactly once,
    after the outcome is known. */
module Gateway {
  import opened Common
  import opened Tables
  import opened Layout
  import opened Storing
  import opened JobsDB

  /** `refusal` is the message of the first check that fails before the store is asked; otherwise `job` is what is
      stored. */
  datatype Request = Request(number: int, refusal: Option<string>, job: NewJob)

  ghost predicate NonEmptyRefusals(q: seq<Request>) {
    forall k :: 0 <= k < |q| && q[k].refusal.Some? ==> q[k].refusal.value != "" && q[k].refusal.value != "Invalid JSON"
  }

  ghost predicate Distinct(q: seq<Request>) {
    forall i, j :: 0 <= i < j < |q| ==> q[i].number != q[j].number && q[i].job.job.uuid != q[j].job.job.uuid
  }

  // ---------- batching ----------

  /** What the select of webRequestBatcher receives: a request or a timeout. */
  datatype Tick = Arrival(req: Request) | Timeout

  ghost function Arrivals(ticks: seq<Tick>): seq<Request> {
    if ticks == [] then []
    else Arrivals(ticks[..|ticks| - 1]) + if ticks[|ticks| - 1].Arrival? then [ticks[|ticks| - 1].req] else []
  }

  ghost function Concat(batches: seq<seq<Request>>): seq<Request> {
    if batches == [] then [] else Concat(batches[..|batches| - 1]) + batches[|batches| - 1]
  }

  lemma NothingArrived()
    ensures Arrivals([]) == [] && Concat([]) == []
  {
  }

  lemma OneMoreTick(ticks: seq<Tick>, i: nat)
    requires i < |ticks|
    ensures Arrivals(ticks[..i + 1]) == Arrivals(ticks[..i]) + if ticks[i].Arrival? then [ticks[i].req] else []
  {
    assert ticks[..i + 1][..i] == ticks[..i];
  }

  lemma OneMoreBatch(batches: seq<seq<Request>>, batch: seq<Request>)
    ensures Concat(batches + [batch]) == Concat(batches) + batch
  {
    assert (batches + [batch])[..|batches|] == batches;
  }

  /** Where the k-th batch begins: behind the tick at which the one before was cut. */
  ghost function Begin(cuts: seq<nat>, k: nat): nat
    requires k <= |cuts|
  {
    if k == 0 then 0 else cuts[k - 1] + 1
  }

  /** From a to b no timeout comes behind a request. */
  ghost predicate NoTimeout(ticks: seq<Tick>, a: nat, b: nat)
    requires a <= b <= |ticks|
  {
    forall i :: a <= i < b && ticks[i].Timeout? ==> Arrivals(ticks[a..i]) == []
  }

  /** The k-th batch is what arrived since the cut before. It was cut by the request that filled it or by the first
      timeout behind its first request. */
  ghost predicate CutAt(ticks: seq<Tick>, maxBatchSize: int, batch: seq<Request>, a: nat, cut: nat) {
    && a <= cut < |ticks| && batch == Arrivals(ticks[a..cut + 1]) && NoTimeout(ticks, a, cut)
    && if ticks[cut].Timeout? then 1 <= |batch| < maxBatchSize else |batch| == maxBatchSize
  }

  lemma OneMoreArrival(ticks: seq<Tick>, a: nat, i: nat)
    requires a <= i < |ticks|
    ensures Arrivals(ticks[a..i + 1]) == Arrivals(ticks[a..i]) + if ticks[i].Arrival? then [ticks[i].req] else []
    ensures NoTimeout(ticks, a, i) && (ticks[i].Timeout? ==> Arrivals(ticks[a..i]) == []) ==> NoTimeout(ticks, a, i + 1)
    ensures ticks[i + 1..i + 1] == [] && NoTimeout(ticks, i + 1, i + 1)
  {
    assert ticks[a..i + 1] == ticks[a..i] + [ticks[i]];
    assert ticks[a..i + 1][..i - a] == ticks[a..i];
  }

  /** So far for the first i ticks: every batch was cut there, and the rest is in the buffer. */
  ghost predicate AllCut(ticks: seq<Tick>, maxBatchSize: int, batches: seq<seq<Request>>, cuts: seq<nat>,
                         reqBuffer: seq<Request>, i: nat) {
    && |cuts| == |batches| && Begin(cuts, |cuts|) <= i <= |ticks| && |reqBuffer| < maxBatchSize
    && (forall k :: 0 <= k < |batches| ==> CutAt(ticks, maxBatchSize, batches[k], Begin(cuts, k), cuts[k]))
    && reqBuffer == Arrivals(ticks[Begin(cuts, |cuts|)..i]) && NoTimeout(ticks, Begin(cuts, |cuts|), i)
  }

  lemma NothingCut(ticks: seq<Tick>, maxBatchSize: int)
    requires maxBatchSize >= 1
    ensures AllCut(ticks, maxBatchSize, [], [], [], 0)
  {
    assert ticks[0..0] == [];
  }

  lemma CutOne(ticks: seq<Tick>, maxBatchSize: int, batches: seq<seq<Request>>, cuts: seq<nat>,
               reqBuffer: seq<Request>, i: nat, batch: seq<Request>)
    requires AllCut(ticks, maxBatchSize, batches, cuts, reqBuffer, i) && maxBatchSize >= 1 && i < |ticks|
    requires CutAt(ticks, maxBatchSize, batch, Begin(cuts, |cuts|), i)
    ensures AllCut(ticks, maxBatchSize, batches + [batch], cuts + [i], [], i + 1)
  {
    hide CutAt, Arrivals, NoTimeout;
    OneMoreArrival(ticks, Begin(cuts, |cuts|), i);
    NothingArrived();
    var cuts', batches' := cuts + [i], batches + [batch];
    forall k | 0 <= k < |batches'| ensures CutAt(ticks, maxBatchSize, batches'[k], Begin(cuts', k), cuts'[k]) {
      assert Begin(cuts', k) == Begin(cuts, k);
    }
  }

  lemma CutStep(ticks: seq<Tick>, maxBatchSize: int, batches: seq<seq<Request>>, cuts: seq<nat>,
                reqBuffer: seq<Request>, i: nat)
    requires AllCut(ticks, maxBatchSize, batches, cuts, reqBuffer, i) && maxBatchSize >= 1 && i < |ticks|
    ensures ticks[i].Arrival? ==>
      var buffer := reqBuffer + [ticks[i].req];
      if |buffer| == maxBatchSize then AllCut(ticks, maxBatchSize, batches + [buffer], cuts + [i], [], i + 1)
      else AllCut(ticks, maxBatchSize, batches, cuts, buffer, i + 1)
    ensures ticks[i].Timeout? ==>
      if |reqBuffer| > 0 then AllCut(ticks, maxBatchSize, batches + [reqBuffer], cuts + [i], [], i + 1)
      else AllCut(ticks, maxBatchSize, batches, cuts, reqBuffer, i + 1)
  {
    hide Arrivals, NoTimeout;
    OneMoreArrival(ticks, Begin(cuts, |cuts|), i);
    if ticks[i].Arrival? {
      var buffer := reqBuffer + [ticks[i].req];
      if |buffer| == maxBatchSize {
        CutOne(ticks, maxBatchSize, batches, cuts, reqBuffer, i, buffer);
      }
    } else {
      assert reqBuffer + [] == reqBuffer;
      if |reqBuffer| > 0 {
        CutOne(ticks, maxBatchSize, batches, cuts, reqBuffer, i, reqBuffer);
      }
    }
  }

  lemma AllCutTells(ticks: seq<Tick>, maxBatchSize: int, batches: seq<seq<Request>>, cuts: seq<nat>,
                    reqBuffer: seq<Request>)
    requires AllCut(ticks, maxBatchSize, batches, cuts, reqBuffer, |ticks|)
    ensures |cuts| == |batches| && Begin(cuts, |cuts|) <= |ticks| && |reqBuffer| < maxBatchSize
    ensures forall k :: 0 <= k < |batches| ==>
      CutAt(ticks, maxBatchSize, batches[k], Begin(cuts, k), cuts[k]) && 1 <= |batches[k]| <= maxBatchSize
    ensures reqBuffer == Arrivals(ticks[Begin(cuts, |cuts|)..]) && NoTimeout(ticks, Begin(cuts, |cuts|), |ticks|)
  {
    hide Arrivals, NoTimeout;
    assert ticks[Begin(cuts, |cuts|)..|ticks|] == ticks[Begin(cuts, |cuts|)..];
  }

  /** The batches partition the stream of requests in order. A batch is cut when it is full, or, not being empty, by a
      timeout; `cuts` are the ticks at which that happens. What arrived since the last cut is still in the buffer. */
  method WebRequestBatcher(ticks: seq<Tick>, maxBatchSize: int)
    returns (batches: seq<seq<Request>>, reqBuffer: seq<Request>, ghost cuts: seq<nat>)
    requires maxBatchSize >= 1
    ensures Concat(batches) + reqBuffer == Arrivals(ticks)
    ensures forall k :: 0 <= k < |batches| ==> 1 <= |batches[k]| <= maxBatchSize
    ensures |reqBuffer| < maxBatchSize
    ensures |cuts| == |batches|
    ensures forall k :: 0 <= k < |batches| ==> CutAt(ticks, maxBatchSize, batches[k], Begin(cuts, k), cuts[k])
    ensures Begin(cuts, |cuts|) <= |ticks|
    ensures reqBuffer == Arrivals(ticks[Begin(cuts, |cuts|)..]) && NoTimeout(ticks, Begin(cuts, |cuts|), |ticks|)
  {
    hide Arrivals, Concat, AllCut, CutAt, NoTimeout;
    batches, reqBuffer, cuts := [], [], [];
    NothingArrived();
    NothingCut(ticks, maxBatchSize);
    for i := 0 to |ticks|
      invariant Concat(batches) + reqBuffer == Arrivals(ticks[..i])
      invariant AllCut(ticks, maxBatchSize, batches, cuts, reqBuffer, i)
    {
      OneMoreTick(ticks, i);
      CutStep(ticks, maxBatchSize, batches, cuts, reqBuffer, i);
      match ticks[i]
      case Arrival(req) =>
        assert (Concat(batches) + reqBuffer) + [req] == Concat(batches) + (reqBuffer + [req]);
        reqBuffer := reqBuffer + [req];
        if |reqBuffer| == maxBatchSize {
          OneMoreBatch(batches, reqBuffer);
          batches, cuts := batches + [reqBuffer], cuts + [i];
          reqBuffer := [];
        }
      case Timeout =>
        if |reqBuffer| > 0 {
          OneMoreBatch(batches, reqBuffer);
          batches, cuts := batches + [reqBuffer], cuts + [i];
          reqBuffer := [];
        }
    }
    assert ticks[..|ticks|] == ticks;
    AllCutTells(ticks, maxBatchSize, batches, cuts, reqBuffer);
  }

  // ---------- storing and answering ----------

  /** The messages sent on each request's done channel. */
  type Done = map<int, seq<string>>

  function Send(done: Done, number: int, message: string): Done {
    done[number := (if number in done then done[number] else []) + [message]]
  }

  /** The jobs of the requests that pass all checks, in order. */
  function JobList(q: seq<Request>): seq<NewJob> {
    if q == [] then [] else JobList(q[..|q| - 1]) + if q[|q| - 1].refusal == None then [q[|q| - 1].job] else []
  }

  lemma {:induction false} JobListHas(q: seq<Request>)
    requires Distinct(q)
    ensures DistinctUuids(JobList(q))
    ensures forall x :: x in JobList(q) <==> exists k :: 0 <= k < |q| && q[k].refusal == None && q[k].job == x
    decreases |q|
  {
    if q != [] {
      var init, last := q[..|q| - 1], q[|q| - 1];
      JobListHas(init);
      var l := JobList(init);
      forall i | 0 <= i < |l| ensures l[i].job.uuid != last.job.job.uuid {
        assert l[i] in l;
        var k :| 0 <= k < |init| && init[k].refusal == None && init[k].job == l[i];
        assert q[k].job.job.uuid != q[|q| - 1].job.job.uuid;
      }
      forall x | x in JobList(q) ensures exists k :: 0 <= k < |q| && q[k].refusal == None && q[k].job == x {
        if x in l {
          var k :| 0 <= k < |init| && init[k].refusal == None && init[k].job == x;
          assert q[k].job == x;
        } else {
          assert q[|q| - 1].job == x;
        }
      }
      forall k | 0 <= k < |q| && q[k].refusal == None ensures q[k].job in JobList(q) {
        if k < |q| - 1 {
          assert init[k] == q[k] && q[k].job in l;
        }
      }
    }
  }

  // ---------- what the store has afterwards ----------

  lemma {:induction false} WithJobsTells(rows: map<JobID, Row>, first: JobID, jobs: seq<Job>)
    ensures forall id :: id in WithJobs(rows, first, jobs) <==> id in rows || first <= id < first + |jobs|
    ensures forall i :: 0 <= i < |jobs| ==> WithJobs(rows, first, jobs)[first + i] == Row(jobs[i], None)
    decreases |jobs|
  {
    if jobs != [] {
      WithJobsTells(rows, first, jobs[..|jobs| - 1]);
    }
  }

  lemma {:induction false} AcceptedHas(q: seq<NewJob>)
    requires DistinctUuids(q)
    ensures forall j :: j in Accepted(q) <==> exists k :: 0 <= k < |q| && q[k].validJSON && q[k].job == j
    ensures forall a, b :: 0 <= a < b < |Accepted(q)| ==> Accepted(q)[a].uuid != Accepted(q)[b].uuid
    decreases |q|
  {
    if q != [] {
      var init, last := q[..|q| - 1], q[|q| - 1];
      AcceptedHas(init);
      var l := Accepted(init);
      forall a | 0 <= a < |l| ensures l[a].uuid != last.job.uuid {
        assert l[a] in l;
        var k :| 0 <= k < |init| && init[k].validJSON && init[k].job == l[a];
        assert q[k].job.uuid != q[|q| - 1].job.uuid;
      }
      forall j | j in Accepted(q) ensures exists k :: 0 <= k < |q| && q[k].validJSON && q[k].job == j {
        if j in l {
          var k :| 0 <= k < |init| && init[k].validJSON && init[k].job == j;
          assert q[k].job == j;
        } else {
          assert q[|q| - 1].job == j;
        }
      }
      forall k | 0 <= k < |q| && q[k].validJSON ensures q[k].job in Accepted(q) {
        if k < |q| - 1 {
          assert init[k] == q[k] && q[k].job in l;
        }
      }
    }
  }

  /** The job is one of the rows added from `first` on. */
  ghost predicate StoredAt(rows: map<JobID, Row>, first: JobID, job: Job, id: JobID) {
    id >= first && id in rows && rows[id].job == job
  }

  ghost predicate StoredOnce(rows: map<JobID, Row>, first: JobID, job: Job) {
    exists id :: StoredAt(rows, first, job, id) && forall i :: StoredAt(rows, first, job, i) ==> i == id
  }

  /** Where a job can be found among the rows added. */
  lemma StoredWhere(rows: map<JobID, Row>, low: JobID, first: JobID, jobs: seq<Job>, job: Job, id: JobID)
    requires low <= first && forall i :: i in rows ==> i < low
    ensures StoredAt(WithJobs(rows, first, jobs), low, job, id) <==>
      first <= id < first + |jobs| && jobs[id - first] == job
  {
  }

  /** Among the rows added, an accepted job is found exactly once and a refused one not at all. */
  lemma StoredIff(rows: map<JobID, Row>, low: JobID, first: JobID, q: seq<NewJob>, k: int)
    requires DistinctUuids(q) && 0 <= k < |q| && low <= first && forall id :: id in rows ==> id < low
    ensures var rows' := WithJobs(rows, first, Accepted(q));
      && (q[k].validJSON ==> StoredOnce(rows', low, q[k].job))
      && (!q[k].validJSON ==> forall id :: !StoredAt(rows', low, q[k].job, id))
  {
    hide WithJobs, Accepted, StoredAt;
    var l, rows' := Accepted(q), WithJobs(rows, first, Accepted(q));
    AcceptedHas(q);
    forall id ensures StoredAt(rows', low, q[k].job, id) <==> first <= id < first + |l| && l[id - first] == q[k].job {
      StoredWhere(rows, low, first, l, q[k].job, id);
    }
    if q[k].validJSON {
      assert q[k].job in l;
      var a :| 0 <= a < |l| && l[a] == q[k].job;
      assert StoredAt(rows', low, q[k].job, first + a);
    } else {
      forall a | 0 <= a < |l| ensures l[a] != q[k].job {
        Refused(q, k, l[a]);
      }
    }
  }

  lemma Refused(q: seq<NewJob>, k: int, job: Job)
    requires DistinctUuids(q) && 0 <= k < |q| && !q[k].validJSON && job in Accepted(q)
    ensures job != q[k].job
  {
    AcceptedHas(q);
    var j :| 0 <= j < |q| && q[j].validJSON && q[j].job == job;
    assert q[if j < k then j else k].job.uuid != q[if j < k then k else j].job.uuid;
  }

  lemma IdsKnown(tables: Tables, list: seq<Index>, nextID: JobID)
    requires WellFormed(tables, list, nextID)
    ensures forall id :: id in Flat(tables, list) ==> id < nextID
  {
    FlatRows(tables, list);
    forall id | id in Flat(tables, list) ensures id < nextID {
      var i :| At(tables, list, i, id);
      assert IdsBelow(tables[list[i]], nextID);
    }
  }

  // ---------- the writer ----------

  ghost predicate AnsweredOnce(done: Done, req: Request, message: string) {
    req.number in done && done[req.number] == [message]
  }

  /** The requests that pass all checks, in order. */
  function Passing(q: seq<Request>): seq<Request> {
    if q == [] then [] else Passing(q[..|q| - 1]) + if q[|q| - 1].refusal == None then [q[|q| - 1]] else []
  }

  lemma {:induction false} PassingHas(q: seq<Request>)
    requires Distinct(q)
    ensures forall x :: x in Passing(q) <==> x in q && x.refusal == None
    ensures forall i, j :: 0 <= i < j < |Passing(q)| ==> Passing(q)[i].number != Passing(q)[j].number
    ensures |Passing(q)| == |JobList(q)| && forall k :: 0 <= k < |Passing(q)| ==> Passing(q)[k].job == JobList(q)[k]
    decreases |q|
  {
    if q != [] {
      var init, last := q[..|q| - 1], q[|q| - 1];
      assert q == init + [last];
      PassingHas(init);
      var l := Passing(init);
      forall i | 0 <= i < |l| ensures l[i].number != last.number {
        assert l[i] in l && l[i] in init;
        var k :| 0 <= k < |init| && init[k] == l[i];
        assert q[k].number != q[|q| - 1].number;
      }
    }
  }

  /** The refused among the first n requests have their answer, and nobody else has one. */
  ghost predicate RefusedAnswered(done: Done, q: seq<Request>, n: int)
    requires 0 <= n <= |q|
  {
    && (forall k :: 0 <= k < n && q[k].refusal.Some? ==> AnsweredOnce(done, q[k], q[k].refusal.value))
    && (forall k :: 0 <= k < |q| && (k >= n || q[k].refusal == None) ==> q[k].number !in done)
  }

  /** The checks before the store: refused requests are answered at once. */
  method Check(batchRequest: seq<Request>)
    returns (done: Done, jobList: seq<NewJob>, reqs: seq<Request>, preDbStoreCount: nat)
    requires Distinct(batchRequest)
    ensures jobList == JobList(batchRequest) && reqs == Passing(batchRequest)
    ensures preDbStoreCount + |jobList| == |batchRequest|
    ensures RefusedAnswered(done, batchRequest, |batchRequest|)
  {
    done, jobList, reqs, preDbStoreCount := map[], [], [], 0;
    for i := 0 to |batchRequest|
      invariant jobList == JobList(batchRequest[..i]) && reqs == Passing(batchRequest[..i])
      invariant preDbStoreCount + |jobList| == i
      invariant RefusedAnswered(done, batchRequest, i)
    {
      var req := batchRequest[i];
      assert batchRequest[..i + 1][..i] == batchRequest[..i];
      if req.refusal.Some? {
        done := Send(done, req.number, req.refusal.value);
        preDbStoreCount := preDbStoreCount + 1;
        continue;
      }
      jobList := jobList + [req.job];
      reqs := reqs + [req];
    }
    assert batchRequest[..|batchRequest|] == batchRequest;
  }

  /** As many messages as jobs, since no two jobs share a uuid. */
  lemma ErrorsCount(jobs: seq<NewJob>, errors: map<int, string>)
    requires DistinctUuids(jobs)
    requires forall k :: 0 <= k < |jobs| ==> jobs[k].job.uuid in errors
    requires forall u :: u in errors ==> exists k :: 0 <= k < |jobs| && jobs[k].job.uuid == u
    ensures |errors| == |jobs|
  {
    var uuids := seq(|jobs|, k requires 0 <= k < |jobs| => jobs[k].job.uuid);
    forall u ensures u in uuids <==> u in errors {
      if u in errors {
        var k :| 0 <= k < |jobs| && jobs[k].job.uuid == u;
        assert uuids[k] == u;
      }
    }
    KeyCount(uuids, errors);
  }

  /** A job's message is empty exactly if the job is now in the store, once. */
  ghost predicate Told(rows: map<JobID, Row>, low: JobID, job: NewJob, message: string) {
    && (message == "" ==> StoredOnce(rows, low, job.job))
    && (message != "" ==> forall id :: !StoredAt(rows, low, job.job, id))
  }

  method StoreBatch(jd: HandleT, jobList: seq<NewJob>) returns (errors: map<int, string>)
    requires jd.Valid() && DistinctUuids(jobList)
    modifies jd`tables, jd`nextID, jd`cache
    ensures jd.Valid() && |errors| == |jobList|
    ensures forall k :: 0 <= k < |jobList| ==>
      jobList[k].job.uuid in errors && Told(jd.Jobs(), old(jd.nextID), jobList[k], errors[jobList[k].job.uuid])
        && errors[jobList[k].job.uuid] == if jobList[k].validJSON then "" else "Invalid JSON"
  {
    hide *;
    Shape(jd);
    ghost var low, rows := jd.nextID, jd.Jobs();
    errors := jd.Store(jobList);
    Shape(jd);
    ErrorsCount(jobList, errors);
    AllTold(rows, low, low + Burnt(jobList), jobList, errors);
  }

  lemma TellsTruth(rows: map<JobID, Row>, low: JobID, first: JobID, q: seq<NewJob>, k: int)
    requires DistinctUuids(q) && 0 <= k < |q| && low <= first && forall id :: id in rows ==> id < low
    ensures Told(WithJobs(rows, first, Accepted(q)), low, q[k], if q[k].validJSON then "" else "Invalid JSON")
  {
    StoredIff(rows, low, first, q, k);
  }

  lemma AllTold(rows: map<JobID, Row>, low: JobID, first: JobID, q: seq<NewJob>, errors: map<int, string>)
    requires DistinctUuids(q) && low <= first && forall id :: id in rows ==> id < low
    requires forall k :: 0 <= k < |q| ==>
      q[k].job.uuid in errors && errors[q[k].job.uuid] == if q[k].validJSON then "" else "Invalid JSON"
    ensures forall k :: 0 <= k < |q| ==> Told(WithJobs(rows, first, Accepted(q)), low, q[k], errors[q[k].job.uuid])
  {
    hide *;
    forall k | 0 <= k < |q| ensures Told(WithJobs(rows, first, Accepted(q)), low, q[k], errors[q[k].job.uuid]) {
      TellsTruth(rows, low, first, q, k);
    }
  }

  lemma Shape(jd: HandleT)
    requires jd.Valid()
    ensures Listed(jd.tables, jd.datasetList) && forall id :: id in jd.Jobs() ==> id < jd.nextID
  {
    IdsKnown(jd.tables, jd.datasetList, jd.nextID);
  }

  /** The one message of a request: that of the first check that fails, the store's included. */
  ghost function Reply(req: Request): string {
    if req.refusal.Some? then req.refusal.value else if req.job.validJSON then "" else "Invalid JSON"
  }

  /** One batch of webRequestBatchDBWriter: every request gets exactly one message, and it is empty exactly if the
      request's job is now in the store, once. */
  method WebRequestBatchDBWriter(jd: HandleT, batchRequest: seq<Request>) returns (done: Done)
    requires jd.Valid() && Distinct(batchRequest) && NonEmptyRefusals(batchRequest)
    modifies jd`tables, jd`nextID, jd`cache
    ensures jd.Valid()
    ensures forall k :: 0 <= k < |batchRequest| ==>
      batchRequest[k].number in done && done[batchRequest[k].number] == [Reply(batchRequest[k])]
    ensures forall k :: 0 <= k < |batchRequest| ==>
      if done[batchRequest[k].number] == [""]
      then batchRequest[k].refusal == None && StoredOnce(jd.Jobs(), old(jd.nextID), batchRequest[k].job.job)
      else batchRequest[k].refusal == None ==>
        forall id :: !StoredAt(jd.Jobs(), old(jd.nextID), batchRequest[k].job.job, id)
  {
    hide JobList, Passing, StoredOnce, StoredAt, Flat, Distinct, DistinctUuids, HandleT.Valid, RefusedAnswered;
    ghost var low := jd.nextID;
    var jobList, reqs, preDbStoreCount;
    done, jobList, reqs, preDbStoreCount := Check(batchRequest);
    JobListHas(batchRequest);
    PassingHas(batchRequest);
    var errorMessagesMap := StoreBatch(jd, jobList);
    assert preDbStoreCount + |errorMessagesMap| == |batchRequest|;
    done := Answer(batchRequest, reqs, errorMessagesMap, done);
    Shape(jd);
    forall k | 0 <= k < |batchRequest|
      ensures AnsweredOnce(done, batchRequest[k], if batchRequest[k].refusal.Some? then batchRequest[k].refusal.value
                                                  else MessageOf(errorMessagesMap, batchRequest[k]))
      ensures batchRequest[k].refusal == None ==>
        Told(jd.Jobs(), low, batchRequest[k].job, MessageOf(errorMessagesMap, batchRequest[k]))
    {
      if batchRequest[k].refusal == None {
        assert batchRequest[k] in reqs;
        var j :| 0 <= j < |reqs| && reqs[j] == batchRequest[k];
        assert jobList[j] == batchRequest[k].job;
      }
    }
  }

  ghost function MessageOf(errors: map<int, string>, req: Request): string {
    if req.job.job.uuid in errors then errors[req.job.job.uuid] else ""
  }

  /** The messages of the store are passed on. */
  method Answer(ghost batchRequest: seq<Request>, reqs: seq<Request>, errorMessagesMap: map<int, string>, done0: Done)
    returns (done: Done)
    requires Distinct(batchRequest) && reqs == Passing(batchRequest)
    requires RefusedAnswered(done0, batchRequest, |batchRequest|)
    requires forall k :: 0 <= k < |reqs| ==> reqs[k].job.job.uuid in errorMessagesMap
    ensures forall k :: 0 <= k < |reqs| ==> AnsweredOnce(done, reqs[k], errorMessagesMap[reqs[k].job.job.uuid])
    ensures forall k :: 0 <= k < |batchRequest| && batchRequest[k].refusal.Some? ==>
      AnsweredOnce(done, batchRequest[k], batchRequest[k].refusal.value)
  {
    hide Passing, Distinct;
    done := done0;
    PassingHas(batchRequest);
    for i := 0 to |reqs|
      invariant forall k :: 0 <= k < i ==> AnsweredOnce(done, reqs[k], errorMessagesMap[reqs[k].job.job.uuid])
      invariant forall k :: i <= k < |reqs| ==> reqs[k].number !in done
      invariant forall k :: 0 <= k < |batchRequest| && batchRequest[k].refusal.Some? ==>
        AnsweredOnce(done, batchRequest[k], batchRequest[k].refusal.value)
    {
      assert reqs[i] in reqs;
      NotRefused(batchRequest, reqs[i]);
      done := Send(done, reqs[i].number, errorMessagesMap[reqs[i].job.job.uuid]);
    }
  }

  /** No two requests share a number. */
  lemma NotRefused(q: seq<Request>, req: Request)
    requires Distinct(q) && req in q && req.refusal == None
    ensures forall k :: 0 <= k < |q| && q[k].refusal.Some? ==> q[k].number != req.number
  {
  }
}
