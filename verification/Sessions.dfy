/** The processor's session buffers: jobs and events per user, with the user's place in the queue. */
module Sessions {
  import opened Common
  import opened PriorityQueue

  type Event = string

  /** `parsed` is what ParseRudderEventBatch and GetRudderEventUserID make of the payload, if anything. */
  datatype Job = Job(id: int, parsed: Option<(string, seq<Event>)>)

  /** The jobs of one user, in order. */
  ghost function OfUser(q: seq<Job>, u: string): seq<Job> {
    if q == [] then []
    else OfUser(q[..|q| - 1], u) + if q[|q| - 1].parsed.Some?
      && q[|q| - 1].parsed.value.0 == u then [q[|q| - 1]] else []
  }

  ghost function EventsOf(q: seq<Job>): seq<Event> {
    if q == [] then []
    else EventsOf(q[..|q| - 1]) + if q[|q| - 1].parsed.Some? then q[|q| - 1].parsed.value.1 else []
  }

  lemma {:induction false} OfUserAppend(a: seq<Job>, b: seq<Job>, u: string)
    ensures OfUser(a + b, u) == OfUser(a, u) + OfUser(b, u)
    decreases |b|
  {
    if b == [] {
      assert a + b == a;
    } else {
      assert (a + b)[..|a + b| - 1] == a + b[..|b| - 1];
      OfUserAppend(a, b[..|b| - 1], u);
    }
  }

  lemma {:induction false} AllOfUser(q: seq<Job>, u: string)
    requires forall k :: 0 <= k < |q| ==> q[k].parsed.Some? && q[k].parsed.value.0 == u
    ensures OfUser(q, u) == q && forall v :: v != u ==> OfUser(q, v) == []
  {
    if q != [] {
      AllOfUser(q[..|q| - 1], u);
    }
  }

  ghost function Buffered(jobs: map<string, seq<Job>>, u: string): seq<Job> {
    if u in jobs then jobs[u] else []
  }

  ghost predicate NoRepeats(order: seq<string>) {
    forall i, j :: 0 <= i < j < |order| ==> order[i] != order[j]
  }

  /** `order` is an order in which the runtime may range over the map. */
  ghost predicate OrderOf<V>(order: seq<string>, m: map<string, V>) {
    NoRepeats(order) && forall u :: u in order <==> u in m
  }

  // ---------- what is handed on ----------

  /** The jobs of the users one after the other. */
  function JobsIn(order: seq<string>, userJobs: map<string, seq<Job>>): seq<Job>
    requires forall u :: u in order ==> u in userJobs
  {
    if order == [] then []
    else JobsIn(order[..|order| - 1], userJobs) + userJobs[order[|order| - 1]]
  }

  /** All events of a user go with the first job; the others carry none. */
  function Spread(n: nat, events: seq<Event>): seq<Option<seq<Event>>> {
    if n == 0 then [] else Spread(n - 1, events) + [if n == 1 then Some(events) else None]
  }

  lemma {:induction false} SpreadAt(n: nat, events: seq<Event>)
    ensures var s := Spread(n, events);
      |s| == n && forall k :: 0 <= k < n ==> s[k] == if k == 0 then Some(events) else None
  {
    if n > 0 {
      SpreadAt(n - 1, events);
    }
  }

  function EventsIn(order: seq<string>, userJobs: map<string, seq<Job>>, userEvents: map<string,
          seq<Event>>): seq<Option<seq<Event>>>
    requires forall u :: u in order ==> u in userJobs && u in userEvents
  {
    if order == [] then []
    else
      var u := order[|order| - 1];
      EventsIn(order[..|order| - 1], userJobs, userEvents) + Spread(|userJobs[u]|, userEvents[u])
  }

  /** Every user's jobs appear once, in their order. */
  lemma {:induction false} JobsInOfUser(order: seq<string>, userJobs: map<string, seq<Job>>, u: string)
    requires NoRepeats(order) && forall v :: v in order ==> v in userJobs
    requires forall v, k :: v in userJobs && 0 <= k < |userJobs[v]| ==>
      userJobs[v][k].parsed.Some? && userJobs[v][k].parsed.value.0 == v
    ensures OfUser(JobsIn(order, userJobs), u) == if u in order then userJobs[u] else []
    decreases |order|
  {
    if order != [] {
      var init, v := order[..|order| - 1], order[|order| - 1];
      assert order == init + [v];
      forall i, j | 0 <= i < j < |init| ensures init[i] != init[j] {
        assert order[i] != order[j];
      }
      forall i | 0 <= i < |init| ensures init[i] != v {
        assert order[i] != order[|order| - 1];
      }
      JobsInOfUser(init, userJobs, u);
      OfUserAppend(JobsIn(init, userJobs), userJobs[v], u);
      AllOfUser(userJobs[v], v);
    }
  }

  // ---------- counting in any order ----------

  function Total(order: seq<string>, userJobs: map<string, seq<Job>>): nat
    requires forall u :: u in order ==> u in userJobs
  {
    if order == [] then 0 else |userJobs[order[0]]| + Total(order[1..], userJobs)
  }

  lemma {:induction false} TotalSplit(a: seq<string>, b: seq<string>, userJobs: map<string, seq<Job>>)
    requires forall u :: u in a + b ==> u in userJobs
    ensures (forall u :: u in a ==> u in userJobs) && (forall u :: u in b ==> u in userJobs)
    ensures Total(a + b, userJobs) == Total(a, userJobs) + Total(b, userJobs)
  {
    forall u | u in a || u in b ensures u in userJobs {
      assert u in a + b;
    }
    if a == [] {
      assert a + b == b;
    } else {
      assert (a + b)[1..] == a[1..] + b;
      TotalSplit(a[1..], b, userJobs);
    }
  }

  /** The number of jobs does not depend on the order of the users. */
  lemma {:induction false} AnyOrder(a: seq<string>, b: seq<string>, userJobs: map<string, seq<Job>>)
    requires NoRepeats(a) && NoRepeats(b) && (forall u :: u in a <==> u in b) && forall u :: u in a ==> u in userJobs
    ensures Total(a, userJobs) == Total(b, userJobs)
    decreases |a|
  {
    if a == [] {
      SameEmpty(a, b);
    } else {
      assert a[0] in b;
      var k :| 0 <= k < |b| && b[k] == a[0];
      var rest := b[..k] + b[k + 1..];
      assert b == b[..k] + ([b[k]] + b[k + 1..]);
      TotalSplit(b[..k], [b[k]] + b[k + 1..], userJobs);
      TotalSplit(b[..k], b[k + 1..], userJobs);
      WithoutFirst(a, b, k);
      AnyOrder(a[1..], rest, userJobs);
    }
  }

  lemma SameEmpty(a: seq<string>, b: seq<string>)
    requires forall u :: u in a <==> u in b
    ensures a == [] ==> b == []
  {
    if b != [] {
      assert b[0] in a;
    }
  }

  lemma WithoutFirst(a: seq<string>, b: seq<string>, k: int)
    requires NoRepeats(a) && NoRepeats(b) && (forall u :: u in a <==> u in b) && a != [] && 0 <= k < |b| && b[k] == a[0]
    ensures var rest := b[..k] + b[k + 1..];
      NoRepeats(a[1..]) && NoRepeats(rest) && forall u :: u in a[1..] <==> u in rest
  {
    var rest := b[..k] + b[k + 1..];
    forall i | 0 <= i < |rest| ensures rest[i] == b[if i < k then i else i + 1] && rest[i] != b[k] {}
    forall u ensures u in a[1..] <==> u in rest {
      if u in a[1..] {
        var i :| 0 <= i < |a[1..]| && a[1..][i] == u;
        assert a[i + 1] == u && u != a[0] && u in b;
        var j :| 0 <= j < |b| && b[j] == u;
        assert rest[if j < k then j else j - 1] == u;
      }
      if u in rest {
        var i :| 0 <= i < |rest| && rest[i] == u;
        assert u in b && u in a;
        var j :| 0 <= j < |a| && a[j] == u;
        assert a[1..][j - 1] == u;
      }
    }
    forall i, j | 0 <= i < j < |rest| ensures rest[i] != rest[j] {}
  }

  lemma {:induction false} JobsInLength(order: seq<string>, userJobs: map<string, seq<Job>>)
    requires forall u :: u in order ==> u in userJobs
    ensures |JobsIn(order, userJobs)| == Total(order, userJobs)
    decreases |order|
  {
    if order != [] {
      var init, v := order[..|order| - 1], order[|order| - 1];
      assert order == init + [v];
      TotalSplit(init, [v], userJobs);
      JobsInLength(init, userJobs);
      assert Total([v][1..], userJobs) == 0;
    }
  }

  // ---------- the checks of processUserJobs ----------

  ghost predicate DistinctIds(q: seq<Job>) {
    forall i, j :: 0 <= i < j < |q| ==> q[i].id != q[j].id
  }

  ghost function IdSet(q: seq<Job>): set<int> {
    set k | 0 <= k < |q| :: q[k].id
  }

  lemma {:induction false} JobsInHas(order: seq<string>, userJobs: map<string, seq<Job>>, x: Job)
    requires forall u :: u in order ==> u in userJobs
    ensures x in JobsIn(order, userJobs) <==> exists u :: u in order && x in userJobs[u]
    decreases |order|
  {
    if order != [] {
      var init, v := order[..|order| - 1], order[|order| - 1];
      assert order == init + [v];
      JobsInHas(init, userJobs, x);
      assert v in order;
    }
  }

  lemma SameIds(a: seq<string>, b: seq<string>, userJobs: map<string, seq<Job>>)
    requires (forall u :: u in a <==> u in b) && forall u :: u in a ==> u in userJobs
    ensures IdSet(JobsIn(a, userJobs)) == IdSet(JobsIn(b, userJobs))
  {
    var p, q := JobsIn(a, userJobs), JobsIn(b, userJobs);
    forall x ensures x in p <==> x in q {
      JobsInHas(a, userJobs, x);
      JobsInHas(b, userJobs, x);
    }
    forall id ensures id in IdSet(p) <==> id in IdSet(q) {
      if id in IdSet(p) {
        var k :| 0 <= k < |p| && p[k].id == id;
        assert p[k] in q;
      }
      if id in IdSet(q) {
        var k :| 0 <= k < |q| && q[k].id == id;
        assert q[k] in p;
      }
    }
  }

  /** processUserJobs up to the hand-over, with all its checks. The two orders are those of the two loops over the
      maps. */
  method ProcessUserJobs(userJobs: map<string, seq<Job>>, userEvents: map<string, seq<Event>>, order: seq<string>,
          userIDList: seq<string>)
    returns (toProcessJobs: seq<Job>, toProcessEvents: seq<Option<seq<Event>>>)
    requires userJobs.Keys == userEvents.Keys && OrderOf(order, userJobs) && OrderOf(userIDList, userEvents)
    requires DistinctIds(JobsIn(userIDList, userJobs))
    ensures toProcessJobs == JobsIn(userIDList, userJobs)
    ensures toProcessEvents == EventsIn(userIDList, userJobs, userEvents)
    ensures |toProcessEvents| == |toProcessJobs| == Total(order, userJobs)
  {
    hide JobsIn, EventsIn, Total, DistinctIds, IdSet;
    assert |userEvents| == |userJobs| by { assert |userEvents.Keys| == |userJobs.Keys|; }
    var totalJobs, allJobIDs := CountJobs(userJobs, order);
    var userEventsList := [];
    for i := 0 to |userIDList|
      invariant |userEventsList| == i && forall k :: 0 <= k < i ==> userEventsList[k] == userEvents[userIDList[k]]
    {
      userEventsList := userEventsList + [userEvents[userIDList[i]]];
    }
    KeyCount(userIDList, userEvents);
    assert |userEventsList| == |userEvents|;
    toProcessJobs, toProcessEvents := CreateUserTransformedJobsFromEvents(userEventsList, userIDList, userJobs,
        userEvents);
    AnyOrder(order, userIDList, userJobs);
    JobsInLength(userIDList, userJobs);
    assert |toProcessJobs| == totalJobs;
    assert |toProcessEvents| == totalJobs;
    SameIds(order, userIDList, userJobs);
    CheckOff(toProcessJobs, allJobIDs);
  }

  method CountJobs(userJobs: map<string, seq<Job>>, order: seq<string>) returns (totalJobs: nat, allJobIDs: set<int>)
    requires forall u :: u in order ==> u in userJobs
    ensures totalJobs == Total(order, userJobs) && allJobIDs == IdSet(JobsIn(order, userJobs))
  {
    totalJobs, allJobIDs := 0, {};
    for i := 0 to |order|
      invariant totalJobs == |JobsIn(order[..i], userJobs)| && allJobIDs == IdSet(JobsIn(order[..i], userJobs))
    {
      var jobs := userJobs[order[i]];
      ghost var before := JobsIn(order[..i], userJobs);
      assert order[..i + 1][..i] == order[..i];
      assert before + jobs[..0] == before;
      for j := 0 to |jobs|
        invariant totalJobs == |before| + j && allJobIDs == IdSet(before + jobs[..j])
      {
        totalJobs := totalJobs + 1;
        assert before + jobs[..j + 1] == (before + jobs[..j]) + [jobs[j]];
        IdSetAppend(before + jobs[..j], jobs[j]);
        allJobIDs := allJobIDs + {jobs[j].id};
      }
      assert jobs[..|jobs|] == jobs;
    }
    assert order[..|order|] == order;
    JobsInLength(order, userJobs);
  }

  lemma IdSetAppend(q: seq<Job>, x: Job)
    ensures IdSet(q + [x]) == IdSet(q) + {x.id}
  {
    forall id ensures id in IdSet(q + [x]) <==> id in IdSet(q) + {x.id} {
      if id in IdSet(q) {
        var k :| 0 <= k < |q| && q[k].id == id;
        assert (q + [x])[k].id == id;
      }
      assert (q + [x])[|q|].id == x.id;
    }
  }

  /** Every job is found once, and none is left over. */
  method CheckOff(toProcessJobs: seq<Job>, ids: set<int>)
    requires DistinctIds(toProcessJobs) && ids == IdSet(toProcessJobs)
  {
    var allJobIDs := ids;
    for i := 0 to |toProcessJobs|
      invariant forall id :: id in allJobIDs <==> exists k :: i <= k < |toProcessJobs| && toProcessJobs[k].id == id
    {
      assert toProcessJobs[i].id in allJobIDs;
      allJobIDs := allJobIDs - {toProcessJobs[i].id};
    }
    forall id ensures id !in allJobIDs {}
    assert allJobIDs == {};
  }

  method CreateUserTransformedJobsFromEvents(transformUserEventList: seq<seq<Event>>, userIDList: seq<string>,
                                             userJobs: map<string, seq<Job>>, ghost userEvents: map<string, seq<Event>>)
    returns (transJobList: seq<Job>, transEventList: seq<Option<seq<Event>>>)
    requires |transformUserEventList| == |userIDList| && forall u :: u in userIDList ==>
      u in userJobs && u in userEvents
    requires forall k :: 0 <= k < |userIDList| ==> transformUserEventList[k] == userEvents[userIDList[k]]
    ensures transJobList == JobsIn(userIDList, userJobs) && transEventList == EventsIn(userIDList, userJobs, userEvents)
    ensures |transEventList| == |transJobList|
  {
    transJobList, transEventList := [], [];
    for idx := 0 to |userIDList|
      invariant transJobList == JobsIn(userIDList[..idx], userJobs)
      invariant transEventList == EventsIn(userIDList[..idx], userJobs, userEvents)
      invariant |transEventList| == |transJobList|
    {
      var userEventsList, jobs := transformUserEventList[idx], userJobs[userIDList[idx]];
      ghost var jobs0, events0 := transJobList, transEventList;
      assert userIDList[..idx + 1][..idx] == userIDList[..idx];
      for k := 0 to |jobs|
        invariant transJobList == jobs0 + jobs[..k] && transEventList == events0 + Spread(k, userEventsList)
        invariant |transEventList| == |transJobList|
      {
        transJobList := transJobList + [jobs[k]];
        assert jobs0 + jobs[..k + 1] == (jobs0 + jobs[..k]) + [jobs[k]];
        if k == 0 {
          transEventList := transEventList + [Some(userEventsList)];
        } else {
          transEventList := transEventList + [None];
        }
        SpreadAt(k, userEventsList);
        assert events0 + Spread(k + 1, userEventsList) ==
          (events0 + Spread(k, userEventsList)) + [if k == 0 then Some(userEventsList) else None];
      }
      assert jobs[..|jobs|] == jobs;
    }
    assert userIDList[..|userIDList|] == userIDList;
  }

  // ---------- the session buffers as values ----------

  /** What is kept of a user: jobs of that user and nothing but their events. */
  ghost predicate Contents(jobs: map<string, seq<Job>>, events: map<string, seq<Event>>) {
    && (forall u :: u in events <==> u in jobs)
    && (forall u :: u in jobs ==> events[u] == EventsOf(jobs[u]))
    && (forall u, k :: u in jobs && 0 <= k < |jobs[u]| ==> jobs[u][k].parsed.Some? && jobs[u][k].parsed.value.0 == u)
  }

  ghost predicate JobAt(jobs: map<string, seq<Job>>, u: string, k: int, id: int) {
    u in jobs && 0 <= k < |jobs[u]| && jobs[u][k].id == id
  }

  /** No id is buffered twice. */
  ghost predicate DistinctJobs(jobs: map<string, seq<Job>>) {
    forall u, v, i, j, id :: JobAt(jobs, u, i, id) && JobAt(jobs, v, j, id) ==> u == v && i == j
  }

  ghost predicate NewId(jobs: map<string, seq<Job>>, id: int) {
    forall u, k :: !JobAt(jobs, u, k, id)
  }

  /** Every user's accepted jobs are those handed on followed by those still buffered. */
  ghost predicate Conserved(accepted: seq<Job>, handed: seq<Job>, jobs: map<string, seq<Job>>) {
    forall u :: OfUser(accepted, u) == OfUser(handed, u) + Buffered(jobs, u)
  }

  lemma AddedContents(jobs: map<string, seq<Job>>, events: map<string, seq<Event>>, job: Job)
    requires Contents(jobs, events) && job.parsed.Some?
    ensures var u := job.parsed.value.0;
      Contents(jobs[u := Buffered(jobs, u) + [job]],
          events[u := (if u in events then events[u] else []) + job.parsed.value.1])
  {
    var u := job.parsed.value.0;
    var b := Buffered(jobs, u);
    assert EventsOf(b) == if u in events then events[u] else [];
    EventsOfOne(b, job);
    hide EventsOf;
    forall k | 0 <= k < |b| ensures b[k].parsed.Some? && b[k].parsed.value.0 == u {}
  }

  lemma EventsOfOne(b: seq<Job>, job: Job)
    requires job.parsed.Some?
    ensures EventsOf(b + [job]) == EventsOf(b) + job.parsed.value.1
  {
    assert (b + [job])[..|b|] == b;
  }

  lemma AddedDistinct(jobs: map<string, seq<Job>>, job: Job)
    requires DistinctJobs(jobs) && job.parsed.Some? && NewId(jobs, job.id)
    ensures DistinctJobs(jobs[job.parsed.value.0 := Buffered(jobs, job.parsed.value.0) + [job]])
  {
    var u := job.parsed.value.0;
    var jobs' := jobs[u := Buffered(jobs, u) + [job]];
    forall v, k, id | JobAt(jobs', v, k, id)
      ensures JobAt(jobs, v, k, id) || (v == u && k == |Buffered(jobs, u)| && id == job.id) {}
    forall v, w, i, j, id | JobAt(jobs', v, i, id) && JobAt(jobs', w, j, id) ensures v == w && i == j {
      assert id == job.id ==> !JobAt(jobs, v, i, id) && !JobAt(jobs, w, j, id);
    }
  }

  lemma StillNew(jobs: map<string, seq<Job>>, job: Job, id: int)
    requires job.parsed.Some? && NewId(jobs, id) && id != job.id
    ensures NewId(jobs[job.parsed.value.0 := Buffered(jobs, job.parsed.value.0) + [job]], id)
  {
    var u := job.parsed.value.0;
    var jobs' := jobs[u := Buffered(jobs, u) + [job]];
    forall v, k ensures !JobAt(jobs', v, k, id) {
      assert !JobAt(jobs, v, k, id);
    }
  }

  lemma AddedConserved(accepted: seq<Job>, handed: seq<Job>, jobs: map<string, seq<Job>>, job: Job)
    requires Conserved(accepted, handed, jobs) && job.parsed.Some?
    ensures Conserved(accepted + [job], handed, jobs[job.parsed.value.0 := Buffered(jobs, job.parsed.value.0) + [job]])
  {
  }

  /** The users taken out are handed on with all they had. */
  lemma HandedConserved(accepted: seq<Job>, handed: seq<Job>, jobs: map<string, seq<Job>>, taken: map<string,
          seq<Job>>, rest: map<string, seq<Job>>,
                        events: map<string, seq<Event>>, order: seq<string>)
    requires Conserved(accepted, handed, jobs) && Contents(jobs, events) && OrderOf(order, taken)
    requires forall u :: u in jobs <==> u in taken || u in rest
    requires forall u :: u in taken ==> u !in rest && taken[u] == jobs[u]
    requires forall u :: u in rest ==> rest[u] == jobs[u]
    ensures Conserved(accepted, handed + JobsIn(order, taken), rest)
  {
    forall u ensures OfUser(accepted, u) == OfUser(handed + JobsIn(order, taken), u) + Buffered(rest, u) {
      JobsInOfUser(order, taken, u);
      OfUserAppend(handed, JobsIn(order, taken), u);
      assert OfUser(accepted, u) == OfUser(handed, u) + Buffered(jobs, u);
      if u in taken {
        assert OfUser(handed, u) + taken[u] == (OfUser(handed, u) + taken[u]) + [];
      } else {
        assert OfUser(handed, u) + [] == OfUser(handed, u);
      }
    }
  }

  lemma {:induction false} TakenDistinct(order: seq<string>, jobs: map<string, seq<Job>>)
    requires DistinctJobs(jobs) && NoRepeats(order) && forall u :: u in order ==> u in jobs
    ensures DistinctIds(JobsIn(order, jobs))
    decreases |order|
  {
    if order != [] {
      var init, v, q := order[..|order| - 1], order[|order| - 1], JobsIn(order, jobs);
      assert order == init + [v];
      forall i, j | 0 <= i < j < |init| ensures init[i] != init[j] {
        assert order[i] != order[j];
      }
      TakenDistinct(init, jobs);
      var p := JobsIn(init, jobs);
      assert v in order && q == p + jobs[v];
      forall i, j | 0 <= i < |p| && 0 <= j < |jobs[v]| ensures p[i].id != jobs[v][j].id {
        JobsInHas(init, jobs, p[i]);
        assert p[i] in p;
        var u :| u in init && p[i] in jobs[u];
        var k :| 0 <= k < |jobs[u]| && jobs[u][k] == p[i];
        var n :| 0 <= n < |init| && init[n] == u;
        assert order[n] != order[|order| - 1];
        assert JobAt(jobs, u, k, p[i].id) && JobAt(jobs, v, j, jobs[v][j].id);
      }
      forall i, j | 0 <= i < j < |jobs[v]| ensures jobs[v][i].id != jobs[v][j].id {
        assert JobAt(jobs, v, i, jobs[v][i].id) && JobAt(jobs, v, j, jobs[v][j].id);
      }
    }
  }

  // ---------- what processUserJobs makes of it ----------

  ghost predicate FirstOfUser(q: seq<Job>, k: int)
    requires 0 <= k < |q| && forall i :: 0 <= i < |q| ==> q[i].parsed.Some?
  {
    forall j :: 0 <= j < k ==> q[j].parsed.value.0 != q[k].parsed.value.0
  }

  /** The first job of every user carries all events of that user's jobs, the others none. */
  ghost predicate Paired(q: seq<Job>, events: seq<Option<seq<Event>>>) {
    && |events| == |q| && (forall k :: 0 <= k < |q| ==> q[k].parsed.Some?)
    && forall k :: 0 <= k < |q| ==>
      events[k] == if FirstOfUser(q, k) then Some(EventsOf(OfUser(q, q[k].parsed.value.0))) else None
  }

  lemma {:induction false} EventsPaired(order: seq<string>, userJobs: map<string, seq<Job>>, userEvents: map<string,
          seq<Event>>)
    requires Contents(userJobs, userEvents) && NoRepeats(order) && forall u :: u in order ==> u in userJobs
    ensures Paired(JobsIn(order, userJobs), EventsIn(order, userJobs, userEvents))
    decreases |order|
  {
    if order != [] {
      var init, v := order[..|order| - 1], order[|order| - 1];
      assert order == init + [v];
      forall i, j | 0 <= i < j < |init| ensures init[i] != init[j] {
        assert order[i] != order[j];
      }
      forall i | 0 <= i < |init| ensures init[i] != v {
        assert order[i] != order[|order| - 1];
      }
      EventsPaired(init, userJobs, userEvents);
      JobsInUsers(init, userJobs, userEvents);
      PairedMore(JobsIn(init, userJobs), EventsIn(init, userJobs, userEvents), userJobs[v], userEvents[v], v);
    }
  }

  lemma JobsInUsers(order: seq<string>, userJobs: map<string, seq<Job>>, userEvents: map<string, seq<Event>>)
    requires Contents(userJobs, userEvents) && forall u :: u in order ==> u in userJobs
    ensures forall x :: x in JobsIn(order, userJobs) ==> x.parsed.Some? && x.parsed.value.0 in order
  {
  }

  /** Another user's jobs at the end change nothing for those before. */
  lemma PairedBefore(q: seq<Job>, jobs: seq<Job>, v: string, k: int)
    requires (forall i :: 0 <= i < |q| ==> q[i].parsed.Some? && q[i].parsed.value.0 != v) && 0 <= k < |q|
    requires forall i :: 0 <= i < |jobs| ==> jobs[i].parsed.Some? && jobs[i].parsed.value.0 == v
    ensures (q + jobs)[k] == q[k] && (FirstOfUser(q + jobs, k) <==> FirstOfUser(q, k))
    ensures OfUser(q + jobs, q[k].parsed.value.0) == OfUser(q, q[k].parsed.value.0)
  {
    var u := q[k].parsed.value.0;
    AllOfUser(jobs, v);
    OfUserAppend(q, jobs, u);
    assert OfUser(q, u) + [] == OfUser(q, u);
    if FirstOfUser(q, k) {
      forall j | 0 <= j < k ensures (q + jobs)[j].parsed.value.0 != u {}
    }
    if FirstOfUser(q + jobs, k) {
      forall j | 0 <= j < k ensures q[j].parsed.value.0 != u {
        assert (q + jobs)[j] == q[j];
      }
    }
  }

  lemma PairedAfter(q: seq<Job>, jobs: seq<Job>, v: string, k: int)
    requires (forall i :: 0 <= i < |q| ==> q[i].parsed.Some? && q[i].parsed.value.0 != v) && 0 <= k < |jobs|
    requires forall i :: 0 <= i < |jobs| ==> jobs[i].parsed.Some? && jobs[i].parsed.value.0 == v
    ensures (q + jobs)[|q| + k] == jobs[k] && (FirstOfUser(q + jobs, |q| + k) <==> k == 0)
    ensures OfUser(q + jobs, v) == jobs
  {
    AllOfUser(jobs, v);
    OfUserAppend(q, jobs, v);
    forall x | x in q ensures x.parsed.Some? && x.parsed.value.0 != v {}
    NoneOfUser(q, v);
    assert [] + jobs == jobs;
    if k > 0 {
      assert (q + jobs)[|q|] == jobs[0];
    }
  }

  lemma PairedMore(q: seq<Job>, e: seq<Option<seq<Event>>>, jobs: seq<Job>, events: seq<Event>, v: string)
    requires Paired(q, e) && events == EventsOf(jobs)
    requires forall i :: 0 <= i < |q| ==> q[i].parsed.value.0 != v
    requires forall k :: 0 <= k < |jobs| ==> jobs[k].parsed.Some? && jobs[k].parsed.value.0 == v
    ensures Paired(q + jobs, e + Spread(|jobs|, events))
  {
    hide FirstOfUser, OfUser, EventsOf, Spread;
    var r, f := q + jobs, e + Spread(|jobs|, events);
    SpreadAt(|jobs|, events);
    forall k | 0 <= k < |r| ensures r[k].parsed.Some? {}
    forall k | 0 <= k < |r|
      ensures f[k] == if FirstOfUser(r, k) then Some(EventsOf(OfUser(r, r[k].parsed.value.0))) else None
    {
      if k < |q| {
        PairedBefore(q, jobs, v, k);
      } else {
        PairedAfter(q, jobs, v, k - |q|);
      }
    }
  }

  lemma {:induction false} NoneOfUser(q: seq<Job>, v: string)
    requires forall x :: x in q ==> x.parsed.Some? && x.parsed.value.0 != v
    ensures OfUser(q, v) == []
    decreases |q|
  {
    if q != [] {
      assert q[|q| - 1] in q;
      NoneOfUser(q[..|q| - 1], v);
    }
  }

  /** Some order of the same users: what ranging over a map comes to. */
  method AnyRange(users: seq<string>) returns (order: seq<string>)
    requires NoRepeats(users)
    ensures NoRepeats(order) && forall u :: u in order <==> u in users
  {
    order := [];
    var rest := users;
    while rest != []
      invariant NoRepeats(order) && NoRepeats(rest) && (forall u :: u in users <==> u in order || u in rest)
      invariant forall u :: u in order ==> u !in rest
      decreases |rest|
    {
      var k :| 0 <= k < |rest|;
      Picked(rest, k);
      assert rest[k] in rest;
      order := order + [rest[k]];
      rest := rest[..k] + rest[k + 1..];
    }
  }

  lemma Picked(q: seq<string>, k: int)
    requires NoRepeats(q) && 0 <= k < |q|
    ensures var r := q[..k] + q[k + 1..]; NoRepeats(r) && forall u :: u in r <==> u in q && u != q[k]
  {
  }

  // ---------- the users and their items ----------

  /** One item for every user. */
  ghost predicate Matched(m: map<string, PQItemT>, items: seq<PQItemT>) {
    && (forall u :: u in m ==> m[u] in items && m[u].userID == u)
    && (forall x :: x in items ==> x.userID in m && m[x.userID] == x)
  }

  lemma MatchedMore(m: map<string, PQItemT>, a: seq<PQItemT>, b: seq<PQItemT>, x: PQItemT)
    requires Matched(m, a) && x.userID !in m && multiset(b) == multiset(a) + multiset{x}
    ensures Matched(m[x.userID := x], b) && forall k :: 0 <= k < |b| ==> b[k] in a || b[k] == x
  {
    forall y ensures y in b <==> y in a || y == x {
      assert y in b <==> y in multiset(b);
      assert y in a <==> y in multiset(a);
    }
  }

  lemma MatchedSame(m: map<string, PQItemT>, a: seq<PQItemT>, b: seq<PQItemT>)
    requires Matched(m, a) && multiset(a) == multiset(b)
    ensures Matched(m, b) && forall k :: 0 <= k < |b| ==> b[k] in a
  {
    PQT.SameItems(a, b);
    PQT.SameItems(b, a);
  }

  lemma MatchedLess(m: map<string, PQItemT>, a: seq<PQItemT>, b: seq<PQItemT>, u: string)
    requires Matched(m, a) && u in m && multiset(b) == multiset(a) - multiset{m[u]}
    requires forall i, j :: 0 <= i < j < |a| ==> a[i] != a[j]
    ensures Matched(m - {u}, b) && |b| == |a| - 1 && forall k :: 0 <= k < |b| ==> b[k] in a
  {
    RemovedItem(a, b, m[u]);
  }

  lemma MatchedLast(m: map<string, PQItemT>, a: seq<PQItemT>, u: string)
    requires Matched(m, a) && u in m
    ensures m[u] in a && m[u].userID == u && a != []
    ensures a[|a| - 1].userID == u ==> m[u] == a[|a| - 1]
    ensures forall v :: v in m && v != u ==> m[v] != m[u]
  {
    assert a[|a| - 1] in a;
  }

  lemma RemovedItem(a: seq<PQItemT>, b: seq<PQItemT>, x: PQItemT)
    requires (forall i, j :: 0 <= i < j < |a| ==> a[i] != a[j]) && multiset(b) == multiset(a) - multiset{x}
    requires x in a
    ensures |b| == |a| - 1
    ensures forall y :: y in b <==> y in a && y != x
    ensures forall k :: 0 <= k < |b| ==> b[k] in a && b[k] != x
  {
    OnceOnly(a, x);
    forall y ensures y in b <==> y in a && y != x {
      assert y in b <==> y in multiset(b);
      assert y in a <==> y in multiset(a);
    }
    assert |multiset(b)| == |b| && |multiset(a)| == |a|;
  }

  lemma {:induction false} OnceOnly(a: seq<PQItemT>, x: PQItemT)
    requires forall i, j :: 0 <= i < j < |a| ==> a[i] != a[j]
    ensures multiset(a)[x] <= 1
    decreases |a|
  {
    if a != [] {
      OnceOnly(a[1..], x);
      assert a == [a[0]] + a[1..];
      if a[0] == x {
        forall k | 0 <= k < |a[1..]| ensures a[1..][k] != x {
          assert a[k + 1] != a[0];
        }
        assert x !in a[1..];
      }
    }
  }

  // ---------- the session buffers ----------

  class HandleT {
    var userJobListMap: map<string, seq<Job>>
    var userEventsMap: map<string, seq<Event>>
    var userPQItemMap: map<string, PQItemT>
    const userJobPQ: PQT
    const sessionThresholdEvents: int
    const sessionThreshold: int
    ghost var accepted: seq<Job>      // every usable job ever received, in order
    ghost var handed: seq<Job>        // every job ever handed to processUserJobs, in order

    constructor (sessionThresholdEvents: int, sessionThreshold: int)
      ensures Valid() && fresh(userJobPQ) && accepted == [] && handed == [] && userJobPQ.items == []
    {
      userJobListMap, userEventsMap, userPQItemMap := map[], map[], map[];
      userJobPQ := new PQT();
      this.sessionThresholdEvents, this.sessionThreshold := sessionThresholdEvents, sessionThreshold;
      accepted, handed := [], [];
    }

    /** The queue holds one item for every user in userPQItemMap. */
    ghost predicate Queued()
      reads this`userPQItemMap, userJobPQ, userJobPQ.items
    {
      userJobPQ.Valid() && Matched(userPQItemMap, userJobPQ.items)
    }

    /** The users in the slots of the queue. */
    ghost function Users(): (q: seq<string>)
      reads userJobPQ, userJobPQ.items
      ensures |q| == |userJobPQ.items| && forall k :: 0 <= k < |q| ==> q[k] == userJobPQ.items[k].userID
    {
      seq(|userJobPQ.items|, k requires 0 <= k < |userJobPQ.items| reads userJobPQ =>
        userJobPQ.items[k].userID)
    }

    /** The times of their last events. */
    ghost function Times(): (q: seq<int>)
      reads userJobPQ, userJobPQ.items
      ensures |q| == |userJobPQ.items| && forall k :: 0 <= k < |q| ==> q[k] == userJobPQ.items[k].lastTS
    {
      userJobPQ.Keys(|userJobPQ.items|)
    }

    /** When every waiting user was last seen: the timestamps of the users' items. */
    ghost function LastSeen(): (seen: map<string, int>)
      reads this`userPQItemMap, userPQItemMap.Values`lastTS
      ensures forall u :: u in seen <==> u in userPQItemMap
    {
      map u | u in userPQItemMap :: userPQItemMap[u].lastTS
    }

    /** The three maps and the queue have the same users. */
    ghost predicate Aligned()
      reads this`userJobListMap, this`userEventsMap, this`userPQItemMap, userJobPQ, userJobPQ.items
    {
      && Queued() && (forall u :: u in userPQItemMap <==> u in userJobListMap)
      && Contents(userJobListMap, userEventsMap) && DistinctJobs(userJobListMap)
    }

    /** The buffers hold just what has not been handed on. */
    ghost predicate Valid()
      reads this, userJobPQ, userJobPQ.items
    {
      Aligned() && Conserved(accepted, handed, userJobListMap)
    }

    lemma InASlot(item: PQItemT)
      requires userJobPQ.Valid() && item in userJobPQ.items
      ensures item.index != -1
    {
    }

    /** A user's place in the queue after an event. */
    method Touch(userID: string, now: int)
      requires Queued()
      modifies this`userPQItemMap, userJobPQ, userJobPQ.items
      ensures Queued() && forall u :: u in userPQItemMap <==> u in old(userPQItemMap) || u == userID
      ensures forall k :: 0 <= k < |userJobPQ.items| ==>
        userJobPQ.items[k] in old(userJobPQ.items) || fresh(userJobPQ.items[k])
      ensures LastSeen() == old(LastSeen())[userID := now]
    {
      hide PQT.Valid, Matched;
      if userID !in userPQItemMap {
        var pqItem := new PQItemT(userID, now);
        userPQItemMap := userPQItemMap[userID := pqItem];
        userJobPQ.Add(pqItem);
        MatchedMore(old(userPQItemMap), old(userJobPQ.items), userJobPQ.items, pqItem);
      } else {
        var pqItem := userPQItemMap[userID];
        MatchedLast(userPQItemMap, userJobPQ.items, userID);
        assert pqItem.index != -1 by { InASlot(pqItem); }
        userJobPQ.Update(pqItem, now);
        MatchedSame(userPQItemMap, old(userJobPQ.items), userJobPQ.items);
      }
    }

    /** One job is added to its user's lists. */
    method Append(job: Job) returns (over: bool)
      requires Contents(userJobListMap, userEventsMap) && DistinctJobs(userJobListMap)
      requires Conserved(accepted, handed, userJobListMap)
      requires job.parsed.Some? && NewId(userJobListMap, job.id)
      modifies this`userJobListMap, this`userEventsMap, this`accepted
      ensures Contents(userJobListMap, userEventsMap) && DistinctJobs(userJobListMap)
      ensures Conserved(accepted, handed, userJobListMap)
      ensures accepted == old(accepted) + [job]
      ensures userJobListMap ==
        old(userJobListMap)[job.parsed.value.0 := Buffered(old(userJobListMap), job.parsed.value.0) + [job]]
      ensures forall id :: NewId(old(userJobListMap), id) && id != job.id ==> NewId(userJobListMap, id)
      ensures job.parsed.value.0 in userEventsMap
      ensures over == (|userEventsMap[job.parsed.value.0]| > sessionThresholdEvents)
      ensures forall u :: u != job.parsed.value.0 && u in old(userEventsMap) ==>
        u in userEventsMap && userEventsMap[u] == old(userEventsMap)[u]
    {
      hide Contents, DistinctJobs, Conserved, NewId;
      AddedContents(userJobListMap, userEventsMap, job);
      AddedDistinct(userJobListMap, job);
      AddedConserved(accepted, handed, userJobListMap, job);
      forall id | NewId(userJobListMap, id) && id != job.id
        ensures NewId(userJobListMap[job.parsed.value.0 := Buffered(userJobListMap, job.parsed.value.0) + [job]], id)
      {
        StillNew(userJobListMap, job, id);
      }
      ContentsKeys(userJobListMap, userEventsMap);
      var userID, eventList := job.parsed.value.0, job.parsed.value.1;
      if userID !in userJobListMap {
        userJobListMap := userJobListMap[userID := []];
        userEventsMap := userEventsMap[userID := []];
      }
      userJobListMap := userJobListMap[userID := userJobListMap[userID] + [job]];
      userEventsMap := userEventsMap[userID := userEventsMap[userID] + eventList];
      assert userJobListMap == old(userJobListMap)[userID := Buffered(old(userJobListMap), userID) + [job]];
      ghost var before := if userID in old(userEventsMap) then old(userEventsMap)[userID] else [];
      assert userEventsMap == old(userEventsMap)[userID := before + eventList];
      over := |userEventsMap[userID]| > sessionThresholdEvents;
      accepted := accepted + [job];
    }

    /** One job is added to its user's buffers and the user moves in the queue. */
    method AddJob(job: Job, now: int) returns (over: bool)
      requires Valid() && job.parsed.Some? && NewId(userJobListMap, job.id)
      modifies this`userJobListMap, this`userEventsMap, this`userPQItemMap, this`accepted
      modifies userJobPQ, userJobPQ.items
      ensures Valid() && accepted == old(accepted) + [job]
      ensures forall k :: 0 <= k < |userJobPQ.items| ==>
        userJobPQ.items[k] in old(userJobPQ.items) || fresh(userJobPQ.items[k])
      ensures LastSeen() == old(LastSeen())[job.parsed.value.0 := now]
      ensures userJobListMap ==
        old(userJobListMap)[job.parsed.value.0 := Buffered(old(userJobListMap), job.parsed.value.0) + [job]]
      ensures forall id :: NewId(old(userJobListMap), id) && id != job.id ==> NewId(userJobListMap, id)
      ensures job.parsed.value.0 in userEventsMap
      ensures over == (|userEventsMap[job.parsed.value.0]| > sessionThresholdEvents)
      ensures forall u :: u != job.parsed.value.0 && u in old(userEventsMap) ==>
        u in userEventsMap && userEventsMap[u] == old(userEventsMap)[u]
    {
      hide *;
      ValidParts();
      over := Append(job);
      Touch(job.parsed.value.0, now);
      MakesValid();
    }

    lemma ValidParts()
      requires Valid()
      ensures Queued() && (forall u :: u in userPQItemMap <==> u in userJobListMap)
      ensures Contents(userJobListMap, userEventsMap) && DistinctJobs(userJobListMap)
      ensures Conserved(accepted, handed, userJobListMap)
    {
    }

    lemma MakesValid()
      requires Queued() && (forall u :: u in userPQItemMap <==> u in userJobListMap)
      requires Contents(userJobListMap, userEventsMap) && DistinctJobs(userJobListMap)
      requires Conserved(accepted, handed, userJobListMap)
      ensures Valid()
    {
    }

    lemma EventsKept(u: string)
      requires Aligned() && u in userJobListMap
      ensures u in userEventsMap && userEventsMap[u] == EventsOf(userJobListMap[u])
    {
    }

    lemma SameUserKeys()
      requires Aligned()
      ensures forall u :: u in userEventsMap <==> u in userJobListMap
    {
    }

    lemma SameQueueKeys()
      requires Aligned()
      ensures forall u :: u in LastSeen() <==> u in userJobListMap
    {
    }

    /** The slots of the queue hold these times. */
    lemma SlotsTell()
      requires Queued()
      ensures forall k :: 0 <= k < |Users()| ==> Users()[k] in LastSeen() && Times()[k] == LastSeen()[Users()[k]]
      ensures forall u :: u in LastSeen() ==> exists k :: 0 <= k < |Users()| && Users()[k] == u
    {
      forall k | 0 <= k < |Users()| ensures Users()[k] in LastSeen() && Times()[k] == LastSeen()[Users()[k]] {
        assert userJobPQ.items[k] in userJobPQ.items;
      }
      forall u | u in LastSeen() ensures exists k :: 0 <= k < |Users()| && Users()[k] == u {
        var k :| 0 <= k < |userJobPQ.items| && userJobPQ.items[k] == userPQItemMap[u];
        assert Users()[k] == u;
      }
    }

    /** Whoever has been active stays in a pass. */
    lemma RecentUsersStay(clock: nat -> int)
      requires Valid()
      ensures var users, n := Users(), LeftByPass(Times(), clock, sessionThreshold);
        n <= |users| && forall u :: u in LastSeen() && Recent(LastSeen()[u], clock, sessionThreshold) ==>
          u in userJobListMap && u in Left(userJobListMap, users[n..])
            && Left(userJobListMap, users[n..])[u] == userJobListMap[u]
    {
      hide LeftByPass, Recent, Left, Contents, DistinctJobs, Conserved, PQT.Valid, LastSeen, Users, Times, Queued;
      SlotsTell();
      SameQueueKeys();
      RecentStay(Users(), Times(), LastSeen(), userJobListMap, clock, sessionThreshold);
    }

    /** A pass that hands on nobody. */
    lemma StandStill()
      ensures Users()[|Users()|..] == [] && Users()[..|Users()|] == Users() && Times()[..|Times()|] == Times()
      ensures Left(userJobListMap, []) == userJobListMap && Left(LastSeen(), []) == LastSeen()
      ensures WholeUsers(userJobListMap, [], []) && Paired([], []) && handed + [] == handed
    {
      NoneTaken(LastSeen());
      NothingPaired(handed);
      NoneTaken(userJobListMap);
      NoUsersWhole(userJobListMap);
    }

    lemma QueuedUsers()
      requires Queued()
      ensures userJobPQ.Valid()
      ensures forall x :: x in userJobPQ.items ==> x.userID in userPQItemMap && userPQItemMap[x.userID] == x
    {
    }

    /** Takes a user out of the buffers and the queue. */
    method TakeOut(userID: string) returns (jobs: seq<Job>, events: seq<Event>)
      requires Aligned() && userID in userJobListMap && userID in userEventsMap
      modifies this`userJobListMap, this`userEventsMap, this`userPQItemMap
      modifies userJobPQ`items, userJobPQ.items`index
      ensures Aligned()
      ensures jobs == old(userJobListMap)[userID]
      ensures events == old(userEventsMap)[userID]
      ensures userJobListMap == old(userJobListMap) - {userID} && userEventsMap == old(userEventsMap) - {userID}
      ensures LastSeen() == old(LastSeen()) - {userID}
      ensures |userJobPQ.items| == |old(userJobPQ.items)| - 1
      ensures forall k :: 0 <= k < |userJobPQ.items| ==> userJobPQ.items[k] in old(userJobPQ.items)
      ensures old(userJobPQ.items)[|old(userJobPQ.items)| - 1].userID == userID ==>
        userJobPQ.items == old(userJobPQ.items)[..|old(userJobPQ.items)| - 1]
    {
      hide Contents, DistinctJobs, Queued;
      jobs, events := userJobListMap[userID], userEventsMap[userID];
      LessDistinct(userJobListMap, userID);
      LessContents(userJobListMap, userEventsMap, userID);
      userJobListMap := userJobListMap - {userID};
      userEventsMap := userEventsMap - {userID};
      Leave(userID);
    }

    lemma QueuedDistinct()
      requires Queued()
      ensures forall i, j :: 0 <= i < j < |userJobPQ.items| ==> userJobPQ.items[i] != userJobPQ.items[j]
    {
    }

    /** The queue's part of it. */
    method Leave(userID: string)
      requires Queued() && userID in userPQItemMap
      modifies this`userPQItemMap, userJobPQ`items, userJobPQ.items`index
      ensures Queued() && (forall u :: u in userPQItemMap <==> u in old(userPQItemMap) && u != userID)
      ensures LastSeen() == old(LastSeen()) - {userID}
      ensures |userJobPQ.items| == |old(userJobPQ.items)| - 1
      ensures forall k :: 0 <= k < |userJobPQ.items| ==> userJobPQ.items[k] in old(userJobPQ.items)
      ensures old(userJobPQ.items)[|old(userJobPQ.items)| - 1].userID == userID ==>
        userJobPQ.items == old(userJobPQ.items)[..|old(userJobPQ.items)| - 1]
    {
      hide PQT.Valid, Matched;
      QueuedDistinct();
      MatchedLast(userPQItemMap, userJobPQ.items, userID);
      userJobPQ.Remove(userPQItemMap[userID]);
      MatchedLess(userPQItemMap, old(userJobPQ.items), userJobPQ.items, userID);
      userPQItemMap := userPQItemMap - {userID};
    }

    /** What the call is to receive: usable jobs, none of them buffered yet. */
    ghost predicate Receivable(jobList: seq<Job>)
      reads this
    {
      DistinctIds(jobList) && forall k :: 0 <= k < |jobList| ==> NewId(userJobListMap, jobList[k].id)
    }

    /** addJobsToSessions: the users of the batch with too many events are handed on at once, each with all jobs, and
        all others stay. */
    method AddJobsToSessions(jobList: seq<Job>, now: seq<int>)
      returns (toProcessJobs: seq<Job>, toProcessEvents: seq<Option<seq<Event>>>)
      requires Valid() && Receivable(jobList) && |now| == |jobList|
      modifies this, userJobPQ, userJobPQ.items
      ensures Valid()
      ensures accepted == old(accepted) + UsableOf(jobList)
      ensures handed == old(handed) + toProcessJobs && Paired(toProcessJobs, toProcessEvents)
      ensures forall k ::
        0 <= k < |jobList| && jobList[k].parsed.Some? && jobList[k].parsed.value.0 in userEventsMap ==>
          |userEventsMap[jobList[k].parsed.value.0]| <= sessionThresholdEvents
      ensures var jobs := Grown(old(userJobListMap), jobList);
        && (forall u :: u in userJobListMap <==> u in jobs && !Exceeds(jobs, jobList, u, sessionThresholdEvents))
        && (forall u :: u in userJobListMap ==> userJobListMap[u] == jobs[u])
        && AllExceeding(jobs, jobList, sessionThresholdEvents, toProcessJobs)
      ensures forall k :: 0 <= k < |userJobPQ.items| ==>
        userJobPQ.items[k] in old(userJobPQ.items) || fresh(userJobPQ.items[k])
      ensures forall u, k :: u in userJobListMap && LastJob(jobList, u, k) ==>
        u in LastSeen() && LastSeen()[u] == now[k]
      ensures forall u :: u in userJobListMap && !HasJob(jobList, u) ==>
        u in LastSeen() && u in old(LastSeen()) && LastSeen()[u] == old(LastSeen())[u]
    {
      hide Contents, DistinctJobs, Conserved, Paired, Exceeds, Grown, WholeUsers, Queued, UsableOf, LastJob, HasJob;
      hide LastSeen;
      var processUserIDs := AddAll(jobList, now);
      ghost var jobs := userJobListMap;
      SameQueueKeys();
      if |processUserIDs| == 0 {
        assert handed + [] == handed;
        NothingPaired(handed);
        NoUsersWhole(jobs);
        assert processUserIDs == [];
        return [], [];
      }
      toProcessJobs, toProcessEvents := HandOn(processUserIDs);
      assert AllExceeding(jobs, jobList, sessionThresholdEvents, toProcessJobs);
    }

    method AddAll(jobList: seq<Job>, now: seq<int>) returns (processUserIDs: seq<string>)
      requires Valid() && Receivable(jobList) && |now| == |jobList|
      modifies this`userJobListMap, this`userEventsMap, this`userPQItemMap, this`accepted
      modifies userJobPQ, userJobPQ.items
      ensures Valid() && accepted == old(accepted) + UsableOf(jobList)
      ensures forall k :: 0 <= k < |userJobPQ.items| ==>
        userJobPQ.items[k] in old(userJobPQ.items) || fresh(userJobPQ.items[k])
      ensures NoRepeats(processUserIDs) && forall u :: u in processUserIDs ==> u in userJobListMap
      ensures userJobListMap == Grown(old(userJobListMap), jobList)
      ensures SeenAfter(old(LastSeen()), jobList, now, LastSeen())
      ensures forall u :: u in processUserIDs <==> Exceeds(userJobListMap, jobList, u, sessionThresholdEvents)
      ensures forall k ::
        0 <= k < |jobList| && jobList[k].parsed.Some? && jobList[k].parsed.value.0 !in processUserIDs ==>
          jobList[k].parsed.value.0 in userEventsMap &&
          |userEventsMap[jobList[k].parsed.value.0]| <= sessionThresholdEvents
    {
      hide Contents, DistinctJobs, Conserved, NewId, Queued, Aligned, EventsOf, OfUser, UsableOf, Grown, Exceeds;
      hide LastSeen, SeenAfter;
      processUserIDs := [];
      NothingSeen(LastSeen(), now);
      NoneUsable(accepted);
      NothingGrown(userJobListMap, sessionThresholdEvents);
      for i := 0 to |jobList|
        invariant Valid() && accepted == old(accepted) + UsableOf(jobList[..i])
        invariant forall k :: 0 <= k < |userJobPQ.items| ==>
          userJobPQ.items[k] in old(userJobPQ.items) || fresh(userJobPQ.items[k])
        invariant forall k :: i <= k < |jobList| ==> NewId(userJobListMap, jobList[k].id)
        invariant NoRepeats(processUserIDs) && forall u :: u in processUserIDs ==> u in userJobListMap
        invariant forall k :: 0 <= k < i && jobList[k].parsed.Some? && jobList[k].parsed.value.0 !in processUserIDs ==>
          jobList[k].parsed.value.0 in userEventsMap
            && |userEventsMap[jobList[k].parsed.value.0]| <= sessionThresholdEvents
        invariant userJobListMap == Grown(old(userJobListMap), jobList[..i])
        invariant SeenAfter(old(LastSeen()), jobList[..i], now, LastSeen())
        invariant forall u :: u in processUserIDs <==>
          Exceeds(userJobListMap, jobList[..i], u, sessionThresholdEvents)
      {
        UsableStep(jobList, i);
        GrownStep(old(userJobListMap), jobList, i, sessionThresholdEvents);
        SeenStep(old(LastSeen()), jobList, now, i, LastSeen());
        assert accepted + [] == accepted;
        if jobList[i].parsed == None {
          continue;
        }
        var over := AddJob(jobList[i], now[i]);
        EventsKept(jobList[i].parsed.value.0);
        var userID := jobList[i].parsed.value.0;
        if over && userID !in processUserIDs {
          processUserIDs := processUserIDs + [userID];
        }
      }
      assert jobList[..|jobList|] == jobList;
    }

    /** The users are cleared from the buffers and their jobs processed. */
    method HandOn(processUserIDs: seq<string>)
      returns (toProcessJobs: seq<Job>, toProcessEvents: seq<Option<seq<Event>>>)
      requires Valid() && NoRepeats(processUserIDs) && forall u :: u in processUserIDs ==> u in userJobListMap
      modifies this, userJobPQ`items, userJobPQ.items`index
      ensures Valid() && accepted == old(accepted)
      ensures LastSeen() == Left(old(LastSeen()), processUserIDs)
      ensures forall k :: 0 <= k < |userJobPQ.items| ==> userJobPQ.items[k] in old(userJobPQ.items)
      ensures handed == old(handed) + toProcessJobs && Paired(toProcessJobs, toProcessEvents)
      ensures userJobListMap == Left(old(userJobListMap), processUserIDs)
      ensures WholeUsers(old(userJobListMap), processUserIDs, toProcessJobs)
      ensures userEventsMap == Left(old(userEventsMap), processUserIDs)
    {
      hide Contents, DistinctJobs, Conserved, Paired, Taken, Left, WholeUsers, PQT.Valid, Queued, LastSeen, NoRepeats;
      var order := AnyRange(processUserIDs);
      ghost var jobs0, events0 := userJobListMap, userEventsMap;
      ContentsKeys(jobs0, events0);
      var userJobsToProcess, userEventsToProcess := TakeAll(order);
      toProcessJobs, toProcessEvents := Process(order, userJobsToProcess, userEventsToProcess, jobs0, events0);
      SameUsers(jobs0, order, processUserIDs, toProcessJobs);
      SameLeft(old(LastSeen()), order, processUserIDs);
      SameLeft(events0, order, processUserIDs);
    }

    /** The loop that clears the users. */
    method TakeAll(order: seq<string>)
      returns (userJobsToProcess: map<string, seq<Job>>, userEventsToProcess: map<string, seq<Event>>)
      requires Aligned() && NoRepeats(order) && forall u :: u in order ==> u in userJobListMap
      modifies this`userJobListMap, this`userEventsMap, this`userPQItemMap
      modifies userJobPQ`items, userJobPQ.items`index
      ensures Aligned() && LastSeen() == Left(old(LastSeen()), order)
      ensures forall k :: 0 <= k < |userJobPQ.items| ==> userJobPQ.items[k] in old(userJobPQ.items)
      ensures userJobsToProcess == Taken(old(userJobListMap), order)
      ensures userJobListMap == Left(old(userJobListMap), order)
      ensures userEventsToProcess == Taken(old(userEventsMap), order)
      ensures userEventsMap == Left(old(userEventsMap), order)
    {
      hide Contents, DistinctJobs, Queued, LastSeen, Cleared, Taken, Left;
      ghost var jobs0, events0, seen0 := userJobListMap, userEventsMap, LastSeen();
      ContentsKeys(jobs0, events0);
      SameQueueKeys();
      userJobsToProcess, userEventsToProcess := map[], map[];
      NoneCleared(jobs0, events0, seen0);
      assert order[..0] == [];
      for i := 0 to |order|
        invariant Aligned()
        invariant forall k :: 0 <= k < |userJobPQ.items| ==> userJobPQ.items[k] in old(userJobPQ.items)
        invariant Cleared(jobs0, events0, seen0, order[..i], userJobsToProcess, userEventsToProcess, userJobListMap,
            userEventsMap, LastSeen())
      {
        var userID := order[i];
        assert order[..i + 1] == order[..i] + [userID];
        ClearedNext(jobs0, events0, seen0, order[..i], userJobsToProcess, userEventsToProcess, userJobListMap,
            userEventsMap, LastSeen(), userID);
        var jobs, events := TakeOut(userID);
        userJobsToProcess := userJobsToProcess[userID := jobs];
        userEventsToProcess := userEventsToProcess[userID := events];
      }
      assert order[..|order|] == order;
      ClearedTells(jobs0, events0, seen0, order, userJobsToProcess, userEventsToProcess, userJobListMap, userEventsMap,
          LastSeen());
    }

    /** processUserJobs on what has been taken out. */
    method Process(users: seq<string>, userJobs: map<string, seq<Job>>, userEvents: map<string, seq<Event>>,
                   ghost jobs0: map<string, seq<Job>>, ghost events0: map<string, seq<Event>>)
      returns (toProcessJobs: seq<Job>, toProcessEvents: seq<Option<seq<Event>>>)
      requires NoRepeats(users) && (forall u :: u in users ==> u in jobs0)
      requires Contents(jobs0, events0) && DistinctJobs(jobs0) && Conserved(accepted, handed, jobs0)
      requires userJobs == Taken(jobs0, users) && userEvents == Taken(events0, users)
      requires userJobListMap == Left(jobs0, users)
      modifies this`handed
      ensures Conserved(accepted, handed, userJobListMap)
      ensures handed == old(handed) + toProcessJobs && Paired(toProcessJobs, toProcessEvents)
      ensures WholeUsers(jobs0, users, toProcessJobs)
    {
      hide DistinctJobs, Conserved, Paired, JobsIn, EventsIn, Total;
      var order := AnyRange(users);
      var userIDList := AnyRange(users);
      TakenContents(jobs0, events0, users);
      TakenDistinct(userIDList, userJobs);
      toProcessJobs, toProcessEvents := ProcessUserJobs(userJobs, userEvents, order, userIDList);
      EventsPaired(userIDList, userJobs, userEvents);
      HandedConserved(accepted, handed, jobs0, userJobs, userJobListMap, events0, userIDList);
      JobsInSame(userIDList, userJobs, jobs0);
      handed := handed + toProcessJobs;
    }

    /** One pass of createSessions; `clock(r)` is the r-th reading of the clock. The users in the last slots of the
        queue are handed on, each with all jobs, as long as they are found to be quiet. */
    method CreateSessions(clock: nat -> int)
      returns (toProcessJobs: seq<Job>, toProcessEvents: seq<Option<seq<Event>>>)
      requires Valid()
      modifies this, userJobPQ`items, userJobPQ.items`index
      ensures Valid() && accepted == old(accepted)
      ensures handed == old(handed) + toProcessJobs && Paired(toProcessJobs, toProcessEvents)
      ensures var n := LeftByPass(old(Times()), clock, sessionThreshold);
        && Users() == old(Users())[..n] && Times() == old(Times())[..n]
        && userJobListMap == Left(old(userJobListMap), old(Users())[n..])
        && WholeUsers(old(userJobListMap), old(Users())[n..], toProcessJobs)
        && LastSeen() == Left(old(LastSeen()), old(Users())[n..])
      ensures forall u :: u in old(LastSeen()) && Recent(old(LastSeen())[u], clock, sessionThreshold) ==>
        u in old(userJobListMap) && u in userJobListMap && userJobListMap[u] == old(userJobListMap)[u]
    {
      hide *;
      PassStep(Times(), clock, sessionThreshold);
      RecentUsersStay(clock);
      StandStill();
      if |userJobPQ.items| == 0 {
        return [], [];
      }
      var oldestItem := userJobPQ.Top();
      if clock(0) - oldestItem.lastTS < sessionThreshold {
        return [], [];
      }
      toProcessJobs, toProcessEvents := HandOnOld(clock);
    }

    /** The users found quiet are processed, if there are any. */
    method HandOnOld(clock: nat -> int)
      returns (toProcessJobs: seq<Job>, toProcessEvents: seq<Option<seq<Event>>>)
      requires Valid()
      modifies this, userJobPQ`items, userJobPQ.items`index
      ensures Valid() && accepted == old(accepted)
      ensures handed == old(handed) + toProcessJobs && Paired(toProcessJobs, toProcessEvents)
      ensures var n := Remaining(old(Times()), clock, 1, sessionThreshold);
        && Users() == old(Users())[..n] && Times() == old(Times())[..n]
        && userJobListMap == Left(old(userJobListMap), old(Users())[n..])
        && WholeUsers(old(userJobListMap), old(Users())[n..], toProcessJobs)
        && LastSeen() == Left(old(LastSeen()), old(Users())[n..])
    {
      hide Contents, DistinctJobs, Conserved, Paired, Taken, Left, WholeUsers, Remaining, PQT.Valid, Queued, Users;
      hide Times, LastSeen;
      ghost var jobs0, events0, users0, seen0 := userJobListMap, userEventsMap, Users(), LastSeen();
      ghost var n := Remaining(Times(), clock, 1, sessionThreshold);
      ContentsKeys(jobs0, events0);
      var userJobsToProcess, userEventsToProcess, order := TakeOld(clock);
      if |order| > 0 {
        toProcessJobs, toProcessEvents := Process(order, userJobsToProcess, userEventsToProcess, jobs0, events0);
      } else {
        NoneTaken(jobs0);
        NoneTaken(events0);
        NothingPaired(handed);
        NoUsersWhole(jobs0);
        assert order == [];
        toProcessJobs, toProcessEvents := [], [];
      }
      SameUsers(jobs0, order, users0[n..], toProcessJobs);
      SameLeft(seen0, order, users0[n..]);
    }

    /** The user in the last slot leaves. */
    method TakeLast(userID: string, ghost jobs0: map<string, seq<Job>>, ghost events0: map<string, seq<Event>>,
                    ghost seen0: map<string, int>, ghost order: seq<string>, ghost toJobs: map<string, seq<Job>>,
                    ghost toEvents: map<string, seq<Event>>)
      returns (jobs: seq<Job>, events: seq<Event>)
      requires Aligned() && userJobPQ.items != [] && userID == userJobPQ.items[|userJobPQ.items| - 1].userID
      requires Cleared(jobs0, events0, seen0, order, toJobs, toEvents, userJobListMap, userEventsMap, LastSeen())
      modifies this`userJobListMap, this`userEventsMap, this`userPQItemMap
      modifies userJobPQ`items, userJobPQ.items`index
      ensures Aligned()
      ensures userJobPQ.items == old(userJobPQ.items)[..|old(userJobPQ.items)| - 1]
      ensures Users() == old(Users())[..|old(Users())| - 1] && Times() == old(Times())[..|old(Times())| - 1]
      ensures Cleared(jobs0, events0, seen0, order + [userID], toJobs[userID := jobs], toEvents[userID := events],
          userJobListMap, userEventsMap, LastSeen())
    {
      hide Queued, Contents, DistinctJobs, Cleared, Users, Times, LastSeen;
      QueuedUsers();
      SameUserKeys();
      assert userJobPQ.items[|userJobPQ.items| - 1] in userJobPQ.items;
      ClearedOne(jobs0, events0, seen0, order, toJobs, toEvents, userJobListMap, userEventsMap, LastSeen(), userID);
      jobs, events := TakeOut(userID);
    }

    /** The inner loop: users are taken from the end of the queue while they have been quiet long enough. */
    method TakeOld(clock: nat -> int)
      returns (userJobsToProcess: map<string, seq<Job>>, userEventsToProcess: map<string, seq<Event>>,
          order: seq<string>)
      requires Aligned()
      modifies this`userJobListMap, this`userEventsMap, this`userPQItemMap
      modifies userJobPQ`items, userJobPQ.items`index
      ensures Aligned() && NoRepeats(order) && forall u :: u in order ==> u in old(userJobListMap)
      ensures LastSeen() == Left(old(LastSeen()), order)
      ensures var n := Remaining(old(Times()), clock, 1, sessionThreshold);
        && Users() == old(Users())[..n] && Times() == old(Times())[..n]
        && forall u :: u in order <==> u in old(Users())[n..]
      ensures userJobsToProcess == Taken(old(userJobListMap), order)
      ensures userJobListMap == Left(old(userJobListMap), order)
      ensures userEventsToProcess == Taken(old(userEventsMap), order)
      ensures userEventsMap == Left(old(userEventsMap), order)
    {
      hide *;
      ghost var jobs0, events0, seen0 := userJobListMap, userEventsMap, LastSeen();
      ghost var users0, times0 := Users(), Times();
      SameUserKeys();
      SameQueueKeys();
      userJobsToProcess, userEventsToProcess, order := map[], map[], [];
      NoneCleared(jobs0, events0, seen0);
      NonePassed(users0, times0, clock, sessionThreshold);
      while |userJobPQ.items| != 0
        invariant Aligned() && userJobPQ.items == old(userJobPQ.items)[..|userJobPQ.items|]
        invariant Passed(users0, times0, order, Users(), Times(), clock, sessionThreshold)
        invariant Cleared(jobs0, events0, seen0, order, userJobsToProcess, userEventsToProcess, userJobListMap,
            userEventsMap, LastSeen())
        decreases |userJobPQ.items|
      {
        var oldestItem := userJobPQ.Top();
        PassedStep(users0, times0, order, Users(), Times(), clock, sessionThreshold);
        if clock(1 + |order|) - oldestItem.lastTS > sessionThreshold {
          var userID := oldestItem.userID;
          var jobs, events := TakeLast(userID, jobs0, events0, seen0, order, userJobsToProcess, userEventsToProcess);
          userJobsToProcess := userJobsToProcess[userID := jobs];
          userEventsToProcess := userEventsToProcess[userID := events];
          order := order + [userID];
        } else {
          break;
        }
      }
      PassedEnd(users0, times0, order, Users(), Times(), clock, sessionThreshold);
      ClearedTells(jobs0, events0, seen0, order, userJobsToProcess, userEventsToProcess, userJobListMap, userEventsMap,
          LastSeen());
    }
  }

  /** A batch and then a pass: whoever had an event in the batch that is never longer ago than the threshold, and has
      not more events than a user may have, is still there with all jobs. */
  method AddThenCreate(proc: HandleT, jobList: seq<Job>, now: seq<int>, clock: nat -> int)
    requires proc.Valid() && proc.Receivable(jobList) && |now| == |jobList|
    modifies proc, proc.userJobPQ, proc.userJobPQ.items
    ensures proc.Valid()
    ensures forall u, k ::
      LastJob(jobList, u, k) && Recent(now[k], clock, proc.sessionThreshold)
      && |EventsOf(Buffered(old(proc.userJobListMap), u) + OfUser(UsableOf(jobList), u))|
        <= proc.sessionThresholdEvents ==>
        u in proc.userJobListMap
        && proc.userJobListMap[u] == Buffered(old(proc.userJobListMap), u) + OfUser(UsableOf(jobList), u)
  {
    hide EventsOf, OfUser, UsableOf, Recent, Exceeds, AllExceeding, Grown, WholeUsers, Paired, Left, LeftByPass;
    hide HandleT.Valid, HandleT.Users, HandleT.Times, HandleT.LastSeen, HasJob;
    ghost var jobs0 := proc.userJobListMap;
    var batch, events := proc.AddJobsToSessions(jobList, now);
    ghost var jobs1, seen1 := proc.userJobListMap, proc.LastSeen();
    var quiet, more := proc.CreateSessions(clock);
    forall u, k |
      LastJob(jobList, u, k) && Recent(now[k], clock, proc.sessionThreshold)
      && |EventsOf(Buffered(jobs0, u) + OfUser(UsableOf(jobList), u))| <= proc.sessionThresholdEvents
      ensures u in proc.userJobListMap
        && proc.userJobListMap[u] == Buffered(jobs0, u) + OfUser(UsableOf(jobList), u)
    {
      StaysInBatch(jobs0, jobList, u, k, proc.sessionThresholdEvents);
    }
  }

  lemma StaysInBatch(jobs: map<string, seq<Job>>, q: seq<Job>, u: string, k: int, threshold: int)
    requires LastJob(q, u, k) && |EventsOf(Buffered(jobs, u) + OfUser(UsableOf(q), u))| <= threshold
    ensures var grown := Grown(jobs, q);
      u in grown && grown[u] == Buffered(jobs, u) + OfUser(UsableOf(q), u) && !Exceeds(grown, q, u, threshold)
  {
    hide OfUser, UsableOf, EventsOf, Grown;
    GrownTells(jobs, q, u);
    assert q[k] in q;
  }

  // ---------- who is handed on ----------

  /** How many slots of the queue are left when the loop ends; `r` readings of the clock have been made. */
  function Remaining(ts: seq<int>, clock: nat -> int, r: nat, threshold: int): (n: nat)
    ensures n <= |ts|
  {
    if ts == [] then 0
    else if clock(r) - ts[|ts| - 1] > threshold then Remaining(ts[..|ts| - 1], clock, r + 1, threshold)
    else |ts|
  }

  function LeftByPass(ts: seq<int>, clock: nat -> int, threshold: int): (n: nat)
    ensures n <= |ts|
  {
    if ts == [] || clock(0) - ts[|ts| - 1] < threshold then |ts| else Remaining(ts, clock, 1, threshold)
  }

  lemma PassStep(ts: seq<int>, clock: nat -> int, threshold: int)
    ensures LeftByPass(ts, clock, threshold) ==
      if ts == [] || clock(0) - ts[|ts| - 1] < threshold then |ts| else Remaining(ts, clock, 1, threshold)
  {
  }

  lemma RemainingStep(ts: seq<int>, clock: nat -> int, r: nat, threshold: int)
    ensures Remaining(ts, clock, r, threshold) ==
      if ts == [] then 0
      else if clock(r) - ts[|ts| - 1] > threshold then Remaining(ts[..|ts| - 1], clock, r + 1, threshold)
      else |ts|
  {
  }

  /** The queue has lost the users of `order` from its end, and the loop has not come to its end by that. */
  ghost predicate Passed(users0: seq<string>, times0: seq<int>, order: seq<string>, users: seq<string>, times: seq<int>,
          clock: nat -> int, threshold: int)
  {
    && |users0| == |times0| && |users| == |times| && |order| + |users| == |users0|
    && users == users0[..|users|] && times == times0[..|users|]
    && (forall u :: u in order <==> u in users0[|users|..])
    && Remaining(times0, clock, 1, threshold) == Remaining(times, clock, 1 + |order|, threshold)
  }

  lemma NonePassed(users: seq<string>, times: seq<int>, clock: nat -> int, threshold: int)
    requires |users| == |times|
    ensures Passed(users, times, [], users, times, clock, threshold)
  {
    hide Remaining;
  }

  lemma PassedStep(users0: seq<string>, times0: seq<int>, order: seq<string>, users: seq<string>, times: seq<int>,
          clock: nat -> int, threshold: int)
    requires Passed(users0, times0, order, users, times, clock, threshold) && users != []
    ensures var n := |users| - 1;
      clock(1 + |order|) - times[n] > threshold ==>
        Passed(users0, times0, order + [users[n]], users[..n], times[..n], clock, threshold)
    ensures clock(1 + |order|) - times[|users| - 1] <= threshold ==>
      Remaining(times, clock, 1 + |order|, threshold) == |users|
  {
    hide Remaining;
    RemainingStep(times, clock, 1 + |order|, threshold);
    assert users0[|users| - 1..] == [users[|users| - 1]] + users0[|users|..];
  }

  lemma PassedEnd(users0: seq<string>, times0: seq<int>, order: seq<string>, users: seq<string>, times: seq<int>,
          clock: nat -> int, threshold: int)
    requires Passed(users0, times0, order, users, times, clock, threshold)
    requires users == [] || Remaining(times, clock, 1 + |order|, threshold) == |users|
    ensures var n := Remaining(times0, clock, 1, threshold);
      n == |users| && users == users0[..n] && times == times0[..n] && forall u :: u in order <==> u in users0[n..]
  {
  }

  /** The slots taken were all due when looked at, and the last one left was not. */
  lemma {:induction false} RemainingTells(ts: seq<int>, clock: nat -> int, r: nat, threshold: int)
    ensures var n := Remaining(ts, clock, r, threshold);
      && (forall k :: n <= k < |ts| ==> clock(r + |ts| - 1 - k) - ts[k] > threshold)
      && (n > 0 ==> clock(r + |ts| - n) - ts[n - 1] <= threshold)
    decreases |ts|
  {
    if ts != [] && clock(r) - ts[|ts| - 1] > threshold {
      RemainingTells(ts[..|ts| - 1], clock, r + 1, threshold);
    }
  }

  /** At none of the readings is that longer ago than the threshold. */
  ghost predicate Recent(lastTS: int, clock: nat -> int, threshold: int) {
    forall r: nat :: clock(r) - lastTS <= threshold
  }

  /** A user with a recent event is not among those handed on. */
  lemma RecentStay(users: seq<string>, times: seq<int>, seen: map<string, int>, jobs: map<string, seq<Job>>,
          clock: nat -> int, threshold: int)
    requires |users| == |times|
    requires forall k :: 0 <= k < |users| ==> users[k] in seen && times[k] == seen[users[k]]
    requires forall u :: u in seen <==> u in jobs
    ensures var n := LeftByPass(times, clock, threshold);
      forall u :: u in seen && Recent(seen[u], clock, threshold) ==>
        u in jobs && u in Left(jobs, users[n..]) && Left(jobs, users[n..])[u] == jobs[u]
  {
    var n := LeftByPass(times, clock, threshold);
    RemainingTells(times, clock, 1, threshold);
    forall k | n <= k < |users| ensures !Recent(seen[users[k]], clock, threshold) {
      assert clock(1 + |times| - 1 - k) - times[k] > threshold;
    }
    forall u | u in users[n..] ensures u in seen && !Recent(seen[u], clock, threshold) {
      var k :| 0 <= k < |users| - n && users[n..][k] == u;
      assert users[n + k] == u;
    }
  }

  ghost predicate Due(ts: seq<int>, now: int, threshold: int, k: int)
    requires 0 <= k < |ts|
  {
    now - ts[k] > threshold
  }

  ghost predicate AllDue(ts: seq<int>, now: int, threshold: int) {
    forall k :: 0 <= k < |ts| ==> Due(ts, now, threshold, k)
  }

  /** Because Top is the last slot of a heap, a due user can wait behind one that is not: with the clock standing still
      a pass hands on every due user exactly when all users are due or none is. */
  lemma EveryDueIff(ts: seq<int>, clock: nat -> int, now: int, threshold: int)
    requires IsHeap(ts) && forall r :: clock(r) == now
    ensures var n := LeftByPass(ts, clock, threshold);
      && (forall k :: n <= k < |ts| ==> Due(ts, now, threshold, k))
      && ((forall k :: 0 <= k < n ==> !Due(ts, now, threshold, k)) <==>
          AllDue(ts, now, threshold) || forall k :: 0 <= k < |ts| ==> !Due(ts, now, threshold, k))
  {
    var n := LeftByPass(ts, clock, threshold);
    RemainingTells(ts, clock, 1, threshold);
    assert n > 0 ==> !Due(ts, now, threshold, n - 1);
    forall k | 0 <= k < |ts| ensures Due(ts, now, threshold, k) ==> Due(ts, now, threshold, 0) {
      RootIsOldest(ts, k);
    }
    if k :| 0 <= k < |ts| && Due(ts, now, threshold, k) {
      assert Due(ts, now, threshold, 0);
    }
  }

  /** A user quiet for 101 stays, because the other one, in the last slot, has been active. */
  lemma DueUserWaits()
    ensures IsHeap([0, 100]) && Due([0, 100], 101, 50, 0) && LeftByPass([0, 100], _ => 101, 50) == 2
  {
  }

  /** `q` is made of all jobs of these users and nothing else, one user after the other. */
  ghost predicate WholeUsers(jobs: map<string, seq<Job>>, users: seq<string>, q: seq<Job>) {
    exists order :: NoRepeats(order) && (forall u :: u in order <==> u in users) && InOrder(jobs, order, q)
  }

  ghost predicate InOrder(jobs: map<string, seq<Job>>, order: seq<string>, q: seq<Job>) {
    (forall u :: u in order ==> u in jobs) && q == JobsIn(order, jobs)
  }

  lemma SameUsers(jobs: map<string, seq<Job>>, a: seq<string>, b: seq<string>, q: seq<Job>)
    requires (forall u :: u in a <==> u in b) && WholeUsers(jobs, a, q)
    ensures Left(jobs, a) == Left(jobs, b) && WholeUsers(jobs, b, q)
  {
    var order :| NoRepeats(order) && (forall u :: u in order <==> u in a) && InOrder(jobs, order, q);
    assert forall u :: u in order <==> u in b;
  }

  lemma NoUsersWhole(jobs: map<string, seq<Job>>)
    ensures WholeUsers(jobs, [], [])
  {
    assert NoRepeats([]) && InOrder(jobs, [], []);
  }

  lemma {:induction false} JobsInSame(order: seq<string>, a: map<string, seq<Job>>, b: map<string, seq<Job>>)
    requires forall u :: u in order ==> u in a && u in b && a[u] == b[u]
    ensures JobsIn(order, a) == JobsIn(order, b)
    decreases |order|
  {
    if order != [] {
      JobsInSame(order[..|order| - 1], a, b);
    }
  }

  lemma SameLeft<V>(m: map<string, V>, a: seq<string>, b: seq<string>)
    requires forall u :: u in a <==> u in b
    ensures Left(m, a) == Left(m, b)
  {
  }

  lemma AlsoLeft<V>(m: map<string, V>, order: seq<string>, u: string)
    ensures Left(m, order + [u]) == Left(m, order) - {u}
  {
  }

  /** The users of `order` have been moved from the buffers to what is to be processed. */
  ghost predicate Cleared(jobs0: map<string, seq<Job>>, events0: map<string, seq<Event>>, seen0: map<string, int>,
                          order: seq<string>, toJobs: map<string, seq<Job>>, toEvents: map<string, seq<Event>>,
                          jobs: map<string, seq<Job>>, events: map<string, seq<Event>>, seen: map<string, int>) {
    && NoRepeats(order) && (forall u :: u in order ==> u in jobs0)
    && (forall u :: u in jobs0 <==> u in events0) && (forall u :: u in jobs0 <==> u in seen0)
    && toJobs == Taken(jobs0, order) && toEvents == Taken(events0, order)
    && jobs == Left(jobs0, order) && events == Left(events0, order) && seen == Left(seen0, order)
  }

  lemma NoneCleared(jobs0: map<string, seq<Job>>, events0: map<string, seq<Event>>, seen0: map<string, int>)
    requires (forall u :: u in jobs0 <==> u in events0) && (forall u :: u in jobs0 <==> u in seen0)
    ensures Cleared(jobs0, events0, seen0, [], map[], map[], jobs0, events0, seen0)
  {
    NoneTaken(jobs0);
    NoneTaken(events0);
    NoneTaken(seen0);
  }

  lemma ClearedTells(jobs0: map<string, seq<Job>>, events0: map<string, seq<Event>>, seen0: map<string, int>,
                     order: seq<string>, toJobs: map<string, seq<Job>>, toEvents: map<string, seq<Event>>,
                     jobs: map<string, seq<Job>>, events: map<string, seq<Event>>, seen: map<string, int>)
    requires Cleared(jobs0, events0, seen0, order, toJobs, toEvents, jobs, events, seen)
    ensures NoRepeats(order) && (forall u :: u in order ==> u in jobs0)
    ensures toJobs == Taken(jobs0, order) && toEvents == Taken(events0, order)
    ensures jobs == Left(jobs0, order) && events == Left(events0, order) && seen == Left(seen0, order)
  {
  }

  lemma ClearedOne(jobs0: map<string, seq<Job>>, events0: map<string, seq<Event>>, seen0: map<string, int>,
                   order: seq<string>, toJobs: map<string, seq<Job>>, toEvents: map<string, seq<Event>>,
                   jobs: map<string, seq<Job>>, events: map<string, seq<Event>>, seen: map<string, int>, u: string)
    requires Cleared(jobs0, events0, seen0, order, toJobs, toEvents, jobs, events, seen) && u in jobs && u in events
    ensures Cleared(jobs0, events0, seen0, order + [u], toJobs[u := jobs[u]], toEvents[u := events[u]], jobs - {u},
        events - {u}, seen - {u})
  {
    hide Taken, Left, NoRepeats;
    LeftOf(jobs0, order, u);
    AlsoTaken(jobs0, events0, order, u);
    AlsoLeft(seen0, order, u);
  }

  lemma ClearedNext(jobs0: map<string, seq<Job>>, events0: map<string, seq<Event>>, seen0: map<string, int>,
                    order: seq<string>, toJobs: map<string, seq<Job>>, toEvents: map<string, seq<Event>>,
                    jobs: map<string, seq<Job>>, events: map<string, seq<Event>>, seen: map<string, int>, u: string)
    requires Cleared(jobs0, events0, seen0, order, toJobs, toEvents, jobs, events, seen) && u in jobs0 && u !in order
    ensures u in jobs && u in events
    ensures Cleared(jobs0, events0, seen0, order + [u], toJobs[u := jobs[u]], toEvents[u := events[u]], jobs - {u},
        events - {u}, seen - {u})
  {
    assert u in jobs && u in events;
    ClearedOne(jobs0, events0, seen0, order, toJobs, toEvents, jobs, events, seen, u);
  }

  lemma LeftOf<V>(m: map<string, V>, order: seq<string>, u: string)
    ensures u in Left(m, order) ==> u in m
  {
  }

  lemma AlsoTaken(jobs: map<string, seq<Job>>, events: map<string, seq<Event>>, order: seq<string>, u: string)
    requires NoRepeats(order) && u in Left(jobs, order) && u in events
    ensures u in jobs && NoRepeats(order + [u]) && u in Left(events, order)
    ensures Taken(jobs, order + [u]) == Taken(jobs, order)[u := jobs[u]]
    ensures Left(jobs, order + [u]) == Left(jobs, order) - {u}
    ensures Taken(events, order + [u]) == Taken(events, order)[u := events[u]]
    ensures Left(events, order + [u]) == Left(events, order) - {u}
    ensures Left(jobs, order)[u] == jobs[u] && Left(events, order)[u] == events[u]
  {
  }

  lemma LessContents(jobs: map<string, seq<Job>>, events: map<string, seq<Event>>, u: string)
    requires Contents(jobs, events)
    ensures Contents(jobs - {u}, events - {u})
  {
  }

  lemma NothingPaired(handed: seq<Job>)
    ensures Paired([], []) && handed + [] == handed
  {
  }

  ghost function Taken<V>(m: map<string, V>, users: seq<string>): map<string, V> {
    map u | u in m && u in users :: m[u]
  }

  ghost function Left<V>(m: map<string, V>, users: seq<string>): map<string, V> {
    map u | u in m && u !in users :: m[u]
  }

  lemma NoneTaken<V>(m: map<string, V>)
    ensures Taken(m, []) == map[] && Left(m, []) == m
  {
  }

  lemma TakenContents(jobs: map<string, seq<Job>>, events: map<string, seq<Event>>, users: seq<string>)
    requires Contents(jobs, events) && DistinctJobs(jobs)
    ensures Contents(Taken(jobs, users), Taken(events, users)) && DistinctJobs(Taken(jobs, users))
    ensures Taken(jobs, users).Keys == Taken(events, users).Keys
  {
    forall v, k, id | JobAt(Taken(jobs, users), v, k, id) ensures JobAt(jobs, v, k, id) {}
    forall u ensures u in Taken(jobs, users).Keys <==> u in Taken(events, users).Keys {}
  }

  ghost function UsableOf(q: seq<Job>): seq<Job> {
    if q == [] then [] else UsableOf(q[..|q| - 1]) + if q[|q| - 1].parsed.Some? then [q[|q| - 1]] else []
  }

  lemma UsableStep(q: seq<Job>, i: nat)
    requires i < |q|
    ensures UsableOf(q[..i + 1]) == UsableOf(q[..i]) + if q[i].parsed.Some? then [q[i]] else []
  {
    assert q[..i + 1][..i] == q[..i];
  }

  lemma NoneUsable(accepted: seq<Job>)
    ensures accepted == accepted + UsableOf([])
  {
  }

  /** The buffers after a batch. */
  ghost function Grown(jobs: map<string, seq<Job>>, q: seq<Job>): map<string, seq<Job>> {
    if q == [] then jobs
    else
      var x, grown := q[|q| - 1], Grown(jobs, q[..|q| - 1]);
      if x.parsed.None? then grown else grown[x.parsed.value.0 := Buffered(grown, x.parsed.value.0) + [x]]
  }

  ghost predicate HasJob(q: seq<Job>, u: string) {
    exists x :: x in q && x.parsed.Some? && x.parsed.value.0 == u
  }

  /** Slot k holds the user's last usable job of the batch. */
  ghost predicate LastJob(q: seq<Job>, u: string, k: int) {
    0 <= k < |q| && OfOne(q[k], u) && forall j :: k < j < |q| ==> !OfOne(q[j], u)
  }

  ghost predicate OfOne(x: Job, u: string) {
    x.parsed.Some? && x.parsed.value.0 == u
  }

  /** A user with a job in the batch has a last one. */
  lemma {:induction false} HasLast(q: seq<Job>, u: string) returns (k: int)
    requires HasJob(q, u)
    ensures LastJob(q, u, k)
    decreases |q|
  {
    k := |q| - 1;
    if !OfOne(q[k], u) {
      assert q == q[..k] + [q[k]];
      k := HasLast(q[..k], u);
    }
  }

  /** The users of the batch were last seen when their last job came, the others as before. */
  ghost predicate SeenAfter(seen0: map<string, int>, q: seq<Job>, now: seq<int>, seen: map<string, int>)
    requires |q| <= |now|
  {
    && (forall u :: u in seen <==> u in seen0 || HasJob(q, u))
    && (forall u, k :: LastJob(q, u, k) ==> u in seen && seen[u] == now[k])
    && (forall u :: u in seen0 && !HasJob(q, u) ==> u in seen && seen[u] == seen0[u])
  }

  lemma NothingSeen(seen: map<string, int>, now: seq<int>)
    ensures SeenAfter(seen, [], now, seen)
  {
  }

  lemma SeenStep(seen0: map<string, int>, q: seq<Job>, now: seq<int>, i: nat, seen: map<string, int>)
    requires i < |q| <= |now| && SeenAfter(seen0, q[..i], now, seen)
    ensures var x := q[i];
      SeenAfter(seen0, q[..i + 1], now, if x.parsed.None? then seen else seen[x.parsed.value.0 := now[i]])
  {
    var x := q[i];
    var seen' := if x.parsed.None? then seen else seen[x.parsed.value.0 := now[i]];
    forall u ensures HasJob(q[..i + 1], u) <==> HasJob(q[..i], u) || OfOne(x, u) {
      OneMoreJob(q, i, u);
    }
    forall u, k | LastJob(q[..i + 1], u, k) ensures u in seen' && seen'[u] == now[k] {
      if k == i {
      } else {
        assert !OfOne(q[..i + 1][i], u);
        assert LastJob(q[..i], u, k);
      }
    }
  }

  /** A user of the batch whose buffered events are more than the threshold. */
  ghost predicate Exceeds(jobs: map<string, seq<Job>>, q: seq<Job>, u: string, threshold: int) {
    HasJob(q, u) && |EventsOf(Buffered(jobs, u))| > threshold
  }

  /** These are the jobs of exactly the users over the threshold. */
  ghost predicate AllExceeding(jobs: map<string, seq<Job>>, q: seq<Job>, threshold: int, handed: seq<Job>) {
    exists users :: WholeUsers(jobs, users, handed) && forall u :: u in users <==> Exceeds(jobs, q, u, threshold)
  }

  lemma UsableOfUser(q: seq<Job>, u: string)
    requires q != []
    ensures var n := |q| - 1;
      OfUser(UsableOf(q), u) == OfUser(UsableOf(q[..n]), u) +
        if q[n].parsed.Some? && q[n].parsed.value.0 == u then [q[n]] else []
  {
    var init, x := UsableOf(q[..|q| - 1]), q[|q| - 1];
    if x.parsed.Some? {
      assert (init + [x])[..|init|] == init;
    } else {
      assert init + [] == init && OfUser(init, u) + [] == OfUser(init, u);
    }
  }

  /** Every user's usable jobs of the batch come behind those buffered. */
  lemma {:induction false} GrownTells(jobs: map<string, seq<Job>>, q: seq<Job>, u: string)
    ensures Buffered(Grown(jobs, q), u) == Buffered(jobs, u) + OfUser(UsableOf(q), u)
    ensures u in Grown(jobs, q) <==> u in jobs || HasJob(q, u)
  {
    hide OfUser, UsableOf;
    if q == [] {
      NoneUsable([]);
      NoneOfUser(UsableOf(q), u);
    } else {
      var init, x := q[..|q| - 1], q[|q| - 1];
      assert q == init + [x];
      GrownTells(jobs, init, u);
      UsableOfUser(q, u);
      assert HasJob(q, u) <==> HasJob(init, u) || (x.parsed.Some? && x.parsed.value.0 == u);
    }
  }

  lemma NothingGrown(jobs: map<string, seq<Job>>, threshold: int)
    ensures Grown(jobs, []) == jobs && forall u :: !Exceeds(jobs, [], u, threshold)
  {
  }

  lemma OneMoreJob(q: seq<Job>, i: nat, u: string)
    requires i < |q|
    ensures HasJob(q[..i + 1], u) <==> HasJob(q[..i], u) || (q[i].parsed.Some? && q[i].parsed.value.0 == u)
  {
    assert q[..i + 1] == q[..i] + [q[i]];
    assert q[i] in q[..i + 1];
  }

  lemma GrownOnce(jobs: map<string, seq<Job>>, q: seq<Job>, i: nat)
    requires i < |q|
    ensures var x, g := q[i], Grown(jobs, q[..i]);
      Grown(jobs, q[..i + 1]) ==
        if x.parsed.None? then g else g[x.parsed.value.0 := Buffered(g, x.parsed.value.0) + [x]]
  {
    assert q[..i + 1][..i] == q[..i];
  }

  lemma MoreEvents(b: seq<Job>, x: Job)
    ensures |EventsOf(b + [x])| >= |EventsOf(b)|
  {
    assert (b + [x])[..|b|] == b;
  }

  /** One more job: its user may go over the threshold and never comes back under it. */
  lemma GrownStep(jobs: map<string, seq<Job>>, q: seq<Job>, i: nat, threshold: int)
    requires i < |q|
    ensures var x, g, g' := q[i], Grown(jobs, q[..i]), Grown(jobs, q[..i + 1]);
      && g' == (if x.parsed.None? then g else g[x.parsed.value.0 := Buffered(g, x.parsed.value.0) + [x]])
      && forall u :: Exceeds(g', q[..i + 1], u, threshold) <==>
        if x.parsed.Some? && x.parsed.value.0 == u then |EventsOf(g'[u])| > threshold
        else Exceeds(g, q[..i], u, threshold)
    ensures var x, g := q[i], Grown(jobs, q[..i]);
      x.parsed.Some? && Exceeds(g, q[..i], x.parsed.value.0, threshold) ==>
        Exceeds(Grown(jobs, q[..i + 1]), q[..i + 1], x.parsed.value.0, threshold)
  {
    hide Grown, EventsOf, HasJob;
    var x, g := q[i], Grown(jobs, q[..i]);
    GrownOnce(jobs, q, i);
    if x.parsed.Some? {
      MoreEvents(Buffered(g, x.parsed.value.0), x);
    }
    forall u ensures HasJob(q[..i + 1], u) <==> HasJob(q[..i], u) || (x.parsed.Some? && x.parsed.value.0 == u) {
      OneMoreJob(q, i, u);
    }
  }

  lemma LessDistinct(jobs: map<string, seq<Job>>, u: string)
    requires DistinctJobs(jobs)
    ensures DistinctJobs(jobs - {u})
  {
    forall v, k, id | JobAt(jobs - {u}, v, k, id) ensures JobAt(jobs, v, k, id) {}
  }

  lemma ContentsKeys(jobs: map<string, seq<Job>>, events: map<string, seq<Event>>)
    requires Contents(jobs, events)
    ensures forall u :: u in events <==> u in jobs
  {
  }
}
