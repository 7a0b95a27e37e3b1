/** The invariant of the whole protocol, and how a user's flow is read off the queues. */
module RouterInvariant {
  import opened Common
  import opened Router
  import opened RouterUser

  // ---------- the invariant ----------

  ghost function BlockOf(c: Config, s: State, u: User): Option<JobID>
    requires |s.workers| == c.noOfWorkers > 0
  {
    Get(s.workers[WorkerOf(c, u)].failed, u)
  }

  /** The final outcome of u's blocking job is in the store and the entry is about to be cleared. */
  ghost predicate ClearPending(c: Config, s: State, u: User)
    requires |s.workers| == c.noOfWorkers > 0
  {
    || (WorkerOf(c, u), u) in s.toClear
    || exists k ::
      0 <= k < |s.scan| && s.scan[k].user == u && Decided(s.scan[k].tag) && BlockOf(c, s, u) == Some(s.scan[k].id)
  }

  ghost predicate InvFor(c: Config, s: State, u: User)
    requires |s.workers| == c.noOfWorkers > 0
  {
    UserInv(s.jobs, s.completed, u, Flow(c, s, u), BlockOf(c, s, u), ClearPending(c, s, u), c.maxFailed)
  }

  ghost predicate Known(jobs: map<JobID, Row>, q: seq<Item>) {
    forall k :: 0 <= k < |q| ==> Mine(jobs, q[k].user, q[k].id)
  }

  ghost predicate Reports(q: seq<Item>) {
    forall k :: 0 <= k < |q| ==> q[k].tag.Answered?
  }

  ghost predicate Tagged(q: seq<Item>, t: Tag) {
    forall k :: 0 <= k < |q| ==> q[k].tag == t
  }

  ghost predicate AtHome(c: Config, q: seq<Item>, w: int)
    requires c.noOfWorkers > 0
  {
    forall k :: 0 <= k < |q| ==> WorkerOf(c, q[k].user) == w
  }

  ghost predicate PhaseOK(worker: Worker) {
    match worker.phase
    case Idle => true
    case Taken(job) => job.tag == Queued
    case Checked(job, prev) => job.tag == Queued && prev == Get(worker.failed, job.user) && (prev.Some? ==>
        prev.value == job.id)
    case Posted(job, prev, _) => job.tag == Queued && prev == Get(worker.failed, job.user) && (prev.Some? ==>
        prev.value == job.id)
    case Switching(job) => job.tag == Queued && Get(worker.failed, job.user) == Some(job.id)
    case Answering(resp) => resp.tag.Answered?
  }

  ghost predicate WorkerOK(c: Config, jobs: map<JobID, Row>, worker: Worker, w: int)
    requires c.noOfWorkers > 0
  {
    && Tagged(worker.channel, Queued) && Known(jobs, worker.channel) && AtHome(c, worker.channel, w)
    && PhaseOK(worker) && Known(jobs, Current(worker.phase)) && AtHome(c, Current(worker.phase), w)
    && (forall u :: u in worker.failed ==> WorkerOf(c, u) == w)
  }

  ghost predicate Placed(c: Config, s: State) {
    && ValidConfig(c) && |s.workers| == c.noOfWorkers
    && Reports(s.buf) && Known(s.jobs, s.buf)
    && Reports(s.respQ) && Known(s.jobs, s.respQ)
    && Tagged(Outgoing(s.gen), if s.gen.Deciding? then Chosen else Queued) && Known(s.jobs, Outgoing(s.gen))
    && (forall w :: 0 <= w < |s.workers| ==> WorkerOK(c, s.jobs, s.workers[w], w))
    && (forall i :: i in s.jobs ==> i < s.nextID)
  }

  /** Rows read by a query and not started since. */
  ghost predicate Unstarted(jobs: map<JobID, Row>, q: seq<Item>) {
    && (forall k :: 0 <= k < |q| ==>
      && q[k].id in jobs && Startable(jobs[q[k].id].state)
      && q[k] == Item(q[k].id, jobs[q[k].id].user, jobs[q[k].id].attempt, Queued))
    && Increasing(q)
  }

  ghost predicate AllIn(jobs: map<JobID, Row>, q: seq<Item>, st: JobState) {
    forall k :: 0 <= k < |q| ==> q[k].id in jobs && jobs[q[k].id].state == st
  }

  ghost predicate Unblocked(c: Config, s: State, i: JobID)
    requires |s.workers| == c.noOfWorkers > 0
  {
    i in s.jobs && BlockOf(c, s, s.jobs[i].user) == None
  }

  /** What the generator has read is still true, and for unblocked users it skips nothing. */
  ghost predicate GeneratorOK(c: Config, s: State)
    requires |s.workers| == c.noOfWorkers > 0
  {
    match s.gen
    case HaveRetry(retry) => |retry| <= c.batch && RetryOK(c, s, retry)
    case HaveWaiting(retry, waiting) =>
      && |retry| + |waiting| <= c.batch
      && RetryOK(c, s, retry)
      && Unstarted(s.jobs, waiting) && AllIn(s.jobs, waiting, Waiting)
      && (forall i :: Unblocked(c, s, i) && s.jobs[i].state == Waiting && !In(waiting, i) ==>
        |retry| + |waiting| == c.batch && forall k :: 0 <= k < |waiting| ==> waiting[k].id < i)
    case Deciding(todo, chosen) =>
      && Unstarted(s.jobs, todo)
      && (forall k :: 0 <= k < |todo| ==> !In(chosen, todo[k].id))
      && InLine(c, s, todo, chosen)
    case _ => true
  }

  ghost predicate RetryOK(c: Config, s: State, retry: seq<Item>)
    requires |s.workers| == c.noOfWorkers > 0
  {
    && Unstarted(s.jobs, retry) && AllIn(s.jobs, retry, Failed)
    && (forall i :: Unblocked(c, s, i) && s.jobs[i].state == Failed && !In(retry, i) ==>
      |retry| == c.batch && forall k :: 0 <= k < |retry| ==> retry[k].id < i)
  }

  ghost predicate InLine(c: Config, s: State, todo: seq<Item>, chosen: seq<Item>)
    requires |s.workers| == c.noOfWorkers > 0
  {
    forall k, i ::
      0 <= k < |todo| && Unblocked(c, s, i) && s.jobs[i].user == todo[k].user
      && Startable(s.jobs[i].state) && i < todo[k].id && !In(chosen, i)
      ==> In(todo, i)
  }

  ghost predicate ClearListOK(c: Config, s: State)
    requires |s.workers| == c.noOfWorkers > 0
  {
    && (forall k :: 0 <= k < |s.scan| && Decided(s.scan[k].tag) ==>
        s.scan[k].id in s.jobs && Done(s.jobs[s.scan[k].id].state))
    && (forall k :: 0 <= k < |s.toClear| ==>
      && s.toClear[k].0 == WorkerOf(c, s.toClear[k].1)
      && var b := BlockOf(c, s, s.toClear[k].1); b.Some? && b.value in s.jobs && Done(s.jobs[b.value].state))
  }

  ghost predicate HistoryOK(s: State) {
    && (forall k :: 0 <= k < |s.completed| ==> s.completed[k] in s.jobs)
    && (forall j, k :: 0 <= j < k < |s.completed| && s.jobs[s.completed[j]].user == s.jobs[s.completed[k]].user ==>
      s.completed[j] < s.completed[k])
  }

  ghost predicate Inv(c: Config, s: State) {
    && Placed(c, s) && c.maxFailed >= 1
    && GeneratorOK(c, s) && ClearListOK(c, s) && HistoryOK(s)
    && forall u :: InvFor(c, s, u)
  }

  // ---------- selecting one user's items ----------

  lemma {:induction false} OfAppend(u: User, a: seq<Item>, b: seq<Item>)
    ensures Of(u, a + b) == Of(u, a) + Of(u, b)
  {
    if a == [] {
      assert a + b == b;
    } else {
      OfAppend(u, a[1..], b);
      assert (a + b)[1..] == a[1..] + b;
      var h := if a[0].user == u then [a[0]] else [];
      assert Of(u, a + b) == h + Of(u, a[1..] + b);
      assert h + (Of(u, a[1..]) + Of(u, b)) == (h + Of(u, a[1..])) + Of(u, b);
    }
  }

  lemma {:induction false} OfMembers(u: User, q: seq<Item>)
    ensures forall k :: 0 <= k < |Of(u, q)| ==> Of(u, q)[k].user == u && Of(u, q)[k] in q
    ensures forall k :: 0 <= k < |q| && q[k].user == u ==> q[k] in Of(u, q)
  {
    if q != [] {
      OfMembers(u, q[1..]);
    }
  }

  lemma {:induction false} OfNone(u: User, q: seq<Item>)
    requires forall k :: 0 <= k < |q| ==> q[k].user != u
    ensures Of(u, q) == []
  {
    if q != [] {
      OfNone(u, q[1..]);
    }
  }

  // ---------- the shape of a flow ----------

  ghost function Head(s: State, u: User): int {
    |Of(u, s.buf)| + |Of(u, s.respQ)|
  }

  lemma FiveParts(a: seq<Item>, b: seq<Item>, x: seq<Item>, d: seq<Item>, e: seq<Item>)
    ensures var f, h := a + b + x + d + e, |a| + |b|;
      && f[h..h + |x|] == x && f[..|a|] == a
      && (forall k :: 0 <= k < h ==> f[k] in a || f[k] in b)
      && (forall k :: h + |x| <= k < |f| ==> f[k] in d || f[k] in e)
  {
  }

  /** A flow is answered up to its head and queued or chosen after it. */
  lemma FlowShape(c: Config, s: State, u: User)
    requires Placed(c, s)
    ensures |Of(u, Current(s.workers[WorkerOf(c, u)].phase))| <= 1
    ensures var h := Head(s, u);
      var f := Flow(c, s, u);
      var cur := Of(u, Current(s.workers[WorkerOf(c, u)].phase));
      && h + |cur| <= |f| && f[h..h + |cur|] == cur
      && f[..|Of(u, s.buf)|] == Of(u, s.buf)
      && (forall k :: 0 <= k < h ==> f[k].tag.Answered?)
      && (forall k :: h + |cur| <= k < |f| ==> f[k].tag == Queued || f[k].tag == Chosen)
  {
    hide Of, Known;
    var worker := s.workers[WorkerOf(c, u)];
    assert WorkerOK(c, s.jobs, worker, WorkerOf(c, u));
    FiveParts(Of(u, s.buf), Of(u, s.respQ), Of(u, Current(worker.phase)), Of(u, worker.channel),
        Of(u, Outgoing(s.gen)));
    AtMostOne(u, worker.phase);
    OfMembers(u, s.buf);
    OfMembers(u, s.respQ);
    OfMembers(u, worker.channel);
    OfMembers(u, Outgoing(s.gen));
  }

  lemma AtMostOne(u: User, p: Phase)
    ensures |Of(u, Current(p))| <= 1
  {
  }

  lemma OfNotChosen(u: User, q: seq<Item>)
    requires forall k :: 0 <= k < |q| ==> q[k].tag != Chosen
    ensures forall k :: 0 <= k < |Of(u, q)| ==> Of(u, q)[k].tag != Chosen
  {
  }

  /** Only the generator's own list holds chosen jobs. */
  lemma FlowChosen(c: Config, s: State, u: User)
    requires Placed(c, s)
    ensures forall k :: 0 <= k < |Flow(c, s, u)| && Flow(c, s, u)[k].tag == Chosen ==>
      Flow(c, s, u)[k] in Outgoing(s.gen)
  {
    var worker := s.workers[WorkerOf(c, u)];
    assert WorkerOK(c, s.jobs, worker, WorkerOf(c, u));
    OfNotChosen(u, s.buf);
    OfNotChosen(u, s.respQ);
    OfNotChosen(u, worker.channel);
    OfNotChosen(u, Current(worker.phase));
    OfMembers(u, Outgoing(s.gen));
  }

  lemma ChosenInFlow(c: Config, s: State, i: JobID)
    requires Placed(c, s) && s.gen.Deciding? && i in s.jobs && In(s.gen.chosen, i)
    ensures In(Flow(c, s, s.jobs[i].user), i)
  {
    hide WorkerOK, Reports;
    var u := s.jobs[i].user;
    var j :| 0 <= j < |s.gen.chosen| && s.gen.chosen[j].id == i;
    OfMembers(u, s.gen.chosen);
    var o := Of(u, s.gen.chosen);
    var k :| 0 <= k < |o| && o[k] == s.gen.chosen[j];
    var f := Flow(c, s, u);
    assert f[|f| - |o| + k].id == i;
  }

  lemma JobInHand(c: Config, s: State, w: int, job: Item)
    requires Placed(c, s) && 0 <= w < |s.workers| && Current(s.workers[w].phase) == [job]
    requires job.tag == Queued || job.tag == Failing
    ensures WorkerOf(c, job.user) == w
    ensures var h := Head(s, job.user); InHand(Flow(c, s, job.user), h) && Flow(c, s, job.user)[h] == job
  {
    assert AtHome(c, Current(s.workers[w].phase), w);
    assert Current(s.workers[w].phase)[0] == job;
    FlowShape(c, s, job.user);
    assert Of(job.user, [job]) == [job];
  }

  /** Replacing the job in hand by the same job with another tag changes its user's flow at the head only. */
  lemma PhaseReplaced(c: Config, s: State, w: int, worker': Worker, s': State, v: User)
    requires Placed(c, s) && 0 <= w < |s.workers|
    requires s' == s.(workers := s.workers[w := worker'], completed := s'.completed)
    requires worker'.channel == s.workers[w].channel
    requires |Current(s.workers[w].phase)| == 1 == |Current(worker'.phase)|
    requires Current(s.workers[w].phase)[0].user == Current(worker'.phase)[0].user
    ensures v != Current(worker'.phase)[0].user ==> Flow(c, s', v) == Flow(c, s, v)
    ensures v == Current(worker'.phase)[0].user ==>
      0 <= Head(s, v) < |Flow(c, s, v)| && Flow(c, s', v) == Flow(c, s, v)[Head(s, v) := Current(worker'.phase)[0]]
  {
    var x := Current(worker'.phase)[0];
    assert AtHome(c, Current(s.workers[w].phase), w);
    if v == x.user {
      assert Of(v, Current(worker'.phase)) == [x];
      assert Of(v, Current(s.workers[w].phase)) == [Current(s.workers[w].phase)[0]];
    } else {
      OfNone(v, Current(worker'.phase));
      OfNone(v, Current(s.workers[w].phase));
    }
  }

  // ---------- what a step leaves alone ----------

  /** A step that neither unblocks anyone nor touches rows leaves the generator's knowledge standing. */
  lemma GeneratorUnmoved(c: Config, s: State, s': State)
    requires |s.workers| == c.noOfWorkers > 0 && |s'.workers| == c.noOfWorkers
    requires GeneratorOK(c, s) && s'.gen == s.gen && s'.jobs == s.jobs
    requires forall u :: BlockOf(c, s', u) == None ==> BlockOf(c, s, u) == None
    ensures GeneratorOK(c, s')
  {
  }

  /** Blocks that are already set survive. */
  lemma ClearListUnmoved(c: Config, s: State, s': State)
    requires |s.workers| == c.noOfWorkers > 0 && |s'.workers| == c.noOfWorkers
    requires ClearListOK(c, s) && s'.scan == s.scan && s'.toClear == s.toClear && s'.jobs == s.jobs
    requires forall u :: BlockOf(c, s, u).Some? ==> BlockOf(c, s', u) == BlockOf(c, s, u)
    ensures ClearListOK(c, s')
    ensures forall u :: BlockOf(c, s', u) == BlockOf(c, s, u) ==> ClearPending(c, s', u) == ClearPending(c, s, u)
  {
  }

  lemma InvForSame(c: Config, s: State, s': State, u: User)
    requires |s.workers| == c.noOfWorkers > 0 && |s'.workers| == c.noOfWorkers
    requires InvFor(c, s, u) && s'.jobs == s.jobs && s'.completed == s.completed
    requires Flow(c, s', u) == Flow(c, s, u) && BlockOf(c, s', u) == BlockOf(c, s, u)
    requires ClearPending(c, s', u) == ClearPending(c, s, u)
    ensures InvFor(c, s', u)
  {
  }
}
