/** Nothing is ever stuck: from wherever a run has got to, the router can deliver or give up every job it has. */
module RouterProgress {
  import opened Common
  import opened Router
  import opened RouterUser
  import opened RouterInvariant
  import opened RouterOrder
  import RouterStatus

  // ---------- the queries always have an answer ----------

  lemma {:induction false} Largest(s: set<JobID>, some: JobID) returns (m: JobID)
    requires some in s
    ensures m in s && forall x :: x in s ==> x <= m
    decreases |s|
  {
    m := some;
    var rest := s - {some};
    assert forall x :: x in s ==> x == some || x in rest;
    if x :| x in rest {
      var n := Largest(rest, x);
      if n > m {
        m := n;
      }
    }
  }

  lemma {:induction false} SortedIds(s: set<JobID>) returns (q: seq<JobID>)
    ensures Ascending(q) && forall x :: x in q <==> x in s
    decreases |s|
  {
    if x :| x in s {
      var m := Largest(s, x);
      var rest := SortedIds(s - {m});
      q := rest + [m];
      forall i, j | 0 <= i < j < |q| ensures q[i] < q[j] {
        assert rest[i] in rest;
      }
    } else {
      q := [];
    }
  }

  lemma AtFront(ids: seq<JobID>, n: nat, k: nat)
    requires k < |ids|
    ensures k < n && |ids| <= n ==> ids[k] in ids
    ensures k < n < |ids| ==> ids[k] in ids[..n]
  {
    if k < n < |ids| {
      assert ids[..n][k] == ids[k];
    }
  }

  lemma QueryAnswer(jobs: map<JobID, Row>, st: JobState, n: nat) returns (q: seq<Item>)
    ensures Query(jobs, st, n, q)
  {
    var ids := SortedIds(StateIds(jobs, st));
    var first := if |ids| <= n then ids else ids[..n];
    forall x | x in ids && x !in first ensures |first| == n && forall y :: y in first ==> y < x {
      var k :| 0 <= k < |ids| && ids[k] == x;
      AtFront(ids, n, k);
    }
    forall k | 0 <= k < |first| ensures first[k] in ids && first[k] in jobs {
      assert first[k] == ids[k];
    }
    q := seq(|first|, k requires 0 <= k < |first| =>
      Item(first[k], jobs[first[k]].user, jobs[first[k]].attempt, Queued));
    assert Ids(q) == first;
  }

  ghost function Insert(q: seq<Item>, x: Item): seq<Item> {
    if q == [] then [x] else if x.id <= q[0].id then [x] + q else [q[0]] + Insert(q[1..], x)
  }

  ghost function Sort(q: seq<Item>): seq<Item> {
    if q == [] then [] else Insert(Sort(q[1..]), q[0])
  }

  lemma {:induction false} InsertHas(q: seq<Item>, x: Item)
    ensures multiset(Insert(q, x)) == multiset(q) + multiset{x}
  {
    if q != [] && x.id > q[0].id {
      InsertHas(q[1..], x);
      assert q == [q[0]] + q[1..];
    }
  }

  lemma {:induction false} InsertSorts(q: seq<Item>, x: Item)
    requires SortedById(q)
    ensures SortedById(Insert(q, x))
    ensures forall y :: y in Insert(q, x) ==> y == x || y in q
  {
    if q != [] && x.id > q[0].id {
      var rest := Insert(q[1..], x);
      InsertSorts(q[1..], x);
      forall k | 0 <= k < |rest| ensures q[0].id <= rest[k].id {
        assert rest[k] in rest;
      }
    }
  }

  lemma {:induction false} SortSorts(q: seq<Item>)
    ensures SortedById(Sort(q)) && multiset(Sort(q)) == multiset(q)
  {
    if q != [] {
      SortSorts(q[1..]);
      InsertSorts(Sort(q[1..]), q[0]);
      InsertHas(Sort(q[1..]), q[0]);
      assert q == [q[0]] + q[1..];
    }
  }

  // ---------- how much is left to do ----------

  ghost function PhaseLoad(p: Phase): nat {
    match p
    case Idle => 0
    case Taken(_) => 9
    case Checked(_, _) => 8
    case Posted(_, _, _) => 7
    case Switching(_) => 6
    case Answering(_) => 5
  }

  ghost function WorkerLoad(worker: Worker): nat {
    10 * |worker.channel| + PhaseLoad(worker.phase)
  }

  ghost function WorkLoad(workers: seq<Worker>): nat {
    if workers == [] then 0 else WorkerLoad(workers[0]) + WorkLoad(workers[1..])
  }

  lemma {:induction false} LoadUpdate(workers: seq<Worker>, w: nat, worker: Worker)
    requires w < |workers|
    ensures WorkLoad(workers[w := worker]) == WorkLoad(workers) - WorkerLoad(workers[w]) + WorkerLoad(worker)
  {
    if w == 0 {
      assert workers[w := worker][1..] == workers[1..];
    } else {
      assert workers[w := worker][1..] == workers[1..][w - 1 := worker];
      LoadUpdate(workers[1..], w - 1, worker);
    }
  }

  ghost function Load(s: State): nat {
    4 * |s.respQ| + 2 * |s.buf| + |s.scan| + WorkLoad(s.workers)
  }

  ghost function GenLeft(g: Generator): nat {
    match g
    case Top => 0
    case Sending(_) => 1
    case Deciding(_, _) => 2
    case HaveWaiting(_, _) => 3
    case HaveRetry(_) => 4
    case Cleared => 5
  }

  ghost function ListLeft(g: Generator): nat {
    match g
    case Sending(out) => |out|
    case Deciding(todo, _) => |todo|
    case _ => 0
  }

  ghost predicate Less(s: State, t: State) {
    || GenLeft(s.gen) < GenLeft(t.gen)
    || (GenLeft(s.gen) == GenLeft(t.gen) && ListLeft(s.gen) < ListLeft(t.gen))
    || (GenLeft(s.gen) == GenLeft(t.gen) && ListLeft(s.gen) == ListLeft(t.gen) && Load(s) < Load(t))
  }

  /** Nothing is under way; users may be blocked or about to be cleared. */
  ghost predicate Quiet(s: State) {
    && s.gen == Top && s.respQ == [] && s.buf == [] && s.scan == []
    && forall w :: 0 <= w < |s.workers| ==> s.workers[w].channel == [] && s.workers[w].phase == Idle
  }

  /** What is done to bring everything under way to an end: no new job, no new turn of the generator, and every post is
      answered well. */
  ghost predicate Settling(a: Action) {
    match a
    case Store(_) => false
    case Clear => false
    case Work(_, op) => op != Post(false)
    case _ => true
  }

  ghost function NextOp(worker: Worker): WorkerOp {
    match worker.phase
    case Idle => Take
    case Taken(_) => Check
    case Checked(_, _) => Post(true)
    case Posted(_, _, ok) => if ok then Succeed else Block
    case Switching(_) => Switch
    case Answering(_) => Answer
  }

  lemma WorkLess(c: Config, s: State, w: nat)
    requires Inv(c, s) && w < |s.workers| && (s.workers[w].phase != Idle || s.workers[w].channel != [])
    ensures var a := Work(w, NextOp(s.workers[w]));
      Enabled(c, s, a) && Settling(a) && Less(Do(c, s, a), s)
  {
    hide GeneratorOK, ClearListOK, HistoryOK, InvFor, WorkerOK, Known, Reports, Tagged, WorkLoad, Router.Outcome;
    LoadUpdate(s.workers, w, WorkerStep(c, s.workers[w], NextOp(s.workers[w])));
  }

  /** What has been read so far fits the batch. */
  lemma ReadFits(c: Config, s: State)
    requires Inv(c, s)
    ensures |s.workers| == c.noOfWorkers > 0
    ensures s.gen.HaveRetry? ==> |s.gen.retry| <= c.batch
    ensures s.gen.HaveWaiting? ==> |s.gen.retry| + |s.gen.waiting| <= c.batch
  {
    hide ClearListOK, HistoryOK, InvFor, WorkerOK, Known, Reports, Tagged, RetryOK, InLine, Unstarted, AllIn;
  }

  lemma CanReadUnprocessed(c: Config, s: State) returns (a: Action)
    requires |s.workers| == c.noOfWorkers > 0
    requires s.gen.HaveWaiting? && |s.gen.retry| + |s.gen.waiting| <= c.batch
    ensures a.ReadUnprocessed? && Enabled(c, s, a)
  {
    hide Query, SortedById, Sort;
    var q := QueryAnswer(s.jobs, Unprocessed, c.batch - |s.gen.retry| - |s.gen.waiting|);
    var all := s.gen.waiting + q + s.gen.retry;
    SortSorts(all);
    a := ReadUnprocessed(q, Sort(all));
  }

  lemma CanRead(c: Config, s: State) returns (a: Action)
    requires Inv(c, s) && (s.gen.Cleared? || s.gen.HaveRetry? || s.gen.HaveWaiting?)
    ensures Enabled(c, s, a) && (a.ReadRetry? || a.ReadWaiting? || a.ReadUnprocessed?)
  {
    hide Inv, Query;
    ReadFits(c, s);
    if s.gen.Cleared? {
      var q := QueryAnswer(s.jobs, Failed, c.batch);
      a := ReadRetry(q);
    } else if s.gen.HaveRetry? {
      var q := QueryAnswer(s.jobs, Waiting, c.batch - |s.gen.retry|);
      a := ReadWaiting(q);
    } else {
      a := CanReadUnprocessed(c, s);
    }
  }

  lemma ReadLess(c: Config, s: State, a: Action)
    requires Enabled(c, s, a) && (a.ReadRetry? || a.ReadWaiting? || a.ReadUnprocessed?)
    ensures Less(Do(c, s, a), s)
  {
    hide Query, SortedById, Load;
  }

  lemma HandOverLess(c: Config, s: State, a: Action)
    requires Enabled(c, s, a) && (a.Decide? || a.Mark? || a.Send? || a.Loop?)
    ensures Less(Do(c, s, a), s)
  {
    hide Passes, SetStates, Retag, Load;
  }

  /** The generator goes on. */
  lemma GeneratorGoesOn(c: Config, s: State) returns (a: Action)
    requires Inv(c, s) && s.gen != Top
    ensures Enabled(c, s, a) && Settling(a) && Less(Do(c, s, a), s)
  {
    ReadFits(c, s);
    hide Inv, Do, Less;
    if s.gen.Deciding? {
      a := if s.gen.todo != [] then Action.Decide else Mark;
      HandOverLess(c, s, a);
    } else if s.gen.Sending? {
      a := if s.gen.out != [] then Send else Loop;
      HandOverLess(c, s, a);
    } else {
      a := CanRead(c, s);
      ReadLess(c, s, a);
    }
  }

  lemma NextStep(c: Config, s: State) returns (a: Action)
    requires Inv(c, s) && !Quiet(s)
    ensures Enabled(c, s, a) && Settling(a) && Less(Do(c, s, a), s)
  {
    hide GeneratorOK, ClearListOK, HistoryOK, InvFor, WorkerOK, Known, Reports, Tagged, WorkLoad, SetStates;
    if s.scan != [] {
      a := Scan;
    } else if s.respQ != [] {
      a := Receive;
    } else if s.buf != [] {
      a := Flush;
    } else if w :| 0 <= w < |s.workers| && (s.workers[w].phase != Idle || s.workers[w].channel != []) {
      WorkLess(c, s, w);
      a := Work(w, NextOp(s.workers[w]));
    } else {
      a := GeneratorGoesOn(c, s);
    }
  }

  // ---------- a job that will be delivered ----------

  ghost predicate Holds(q: seq<Item>, i: JobID) {
    exists k :: 0 <= k < |q| && q[k].id == i
  }

  /** The job is with the generator, in a channel, or with a worker that has not been answered badly. */
  ghost predicate Carried(s: State, i: JobID) {
    || (s.gen.Deciding? && (Holds(s.gen.todo, i) || Holds(s.gen.chosen, i)))
    || (s.gen.Sending? && Holds(s.gen.out, i))
    || exists w :: 0 <= w < |s.workers| && WithWorker(s.workers[w], i)
  }

  ghost predicate WithWorker(worker: Worker, i: JobID) {
    Holds(worker.channel, i) || match worker.phase
      case Taken(job) => job.id == i
      case Checked(job, _) => job.id == i
      case Posted(job, _, ok) => ok && job.id == i
      case _ => false
  }

  /** No worker has a refused post in hand. */
  ghost predicate Calm(s: State) {
    forall w :: 0 <= w < |s.workers| ==>
      !s.workers[w].phase.Switching? && !(s.workers[w].phase.Posted? && !s.workers[w].phase.ok)
  }

  /** Its user is not blocked by another job. */
  ghost predicate NotBehind(c: Config, s: State, i: JobID)
    requires |s.workers| == c.noOfWorkers > 0 && i in s.jobs
  {
    var b := BlockOf(c, s, s.jobs[i].user);
    b == None || b == Some(i)
  }

  ghost predicate OnWay(c: Config, s: State, i: JobID) {
    && |s.workers| == c.noOfWorkers > 0 && Calm(s) && i in s.jobs
    && (i in s.completed || (NotBehind(c, s, i) && Carried(s, i)))
  }

  /** No step of settling adds a block or a job, and completions stay. */
  lemma SettlingKeeps(c: Config, s: State, a: Action)
    requires Inv(c, s) && Enabled(c, s, a) && Settling(a)
    ensures var s' := Do(c, s, a);
      && (forall i :: i in s'.jobs <==> i in s.jobs) && (forall i :: i in s.jobs ==> s'.jobs[i].user == s.jobs[i].user)
      && (forall i :: i in s.completed ==> i in s'.completed) && |s'.workers| == |s.workers|
      && (Calm(s) ==> Calm(s') && forall u :: BlockOf(c, s', u) == BlockOf(c, s, u))
  {
    hide GeneratorOK, ClearListOK, HistoryOK, InvFor, WorkerOK, Known, Reports, Tagged, Query, Passes, Router.Outcome;
    if a.Mark? {
      RouterStatus.SetStatesOthers(s.jobs, Retag(s.gen.chosen));
    } else if a.Flush? {
      RouterStatus.SetStatesOthers(s.jobs, s.buf);
    }
  }

  lemma HoldsTail(q: seq<Item>, i: JobID)
    requires q != []
    ensures Holds(q, i) <==> q[0].id == i || Holds(q[1..], i)
  {
    assert q == [q[0]] + q[1..];
    if Holds(q, i) && q[0].id != i {
      var k :| 0 <= k < |q| && q[k].id == i;
      assert q[1..][k - 1].id == i;
    }
    if Holds(q[1..], i) {
      var k :| 0 <= k < |q[1..]| && q[1..][k].id == i;
      assert q[k + 1].id == i;
    }
  }

  lemma HoldsMore(q: seq<Item>, x: Item, i: JobID)
    ensures Holds(q + [x], i) <==> x.id == i || Holds(q, i)
  {
    assert (q + [x])[|q|] == x;
    if Holds(q, i) {
      var k :| 0 <= k < |q| && q[k].id == i;
      assert (q + [x])[k].id == i;
    }
  }

  lemma HoldsRetag(q: seq<Item>, i: JobID)
    ensures Holds(Retag(q), i) <==> Holds(q, i)
  {
    if Holds(q, i) {
      var k :| 0 <= k < |q| && q[k].id == i;
      assert Retag(q)[k].id == i;
    }
  }

  /** The generator passes the job on. */
  lemma DecideCarries(c: Config, s: State, i: JobID)
    requires Inv(c, s) && Enabled(c, s, Action.Decide) && OnWay(c, s, i) && i !in s.completed
    ensures Carried(Do(c, s, Action.Decide), i)
  {
    hide ClearListOK, HistoryOK, InvFor, WorkerOK, Known, Reports, Tagged, InLine, Holds, WithWorker;
    var job := s.gen.todo[0];
    HoldsTail(s.gen.todo, i);
    HoldsMore(s.gen.chosen, job.(tag := Chosen), i);
    assert job.id == i ==> job.user == s.jobs[i].user;
    var s' := Do(c, s, Action.Decide);
    assert s'.workers == s.workers;
  }

  lemma HandOverCarries(c: Config, s: State, a: Action, i: JobID)
    requires Inv(c, s) && Enabled(c, s, a) && (a.Mark? || a.Send? || a.Loop?) && Carried(s, i)
    ensures Carried(Do(c, s, a), i)
  {
    hide GeneratorOK, ClearListOK, HistoryOK, InvFor, WorkerOK, Known, Reports, Tagged, Holds, SetStates;
    var s' := Do(c, s, a);
    match a
    case Mark => HoldsRetag(s.gen.chosen, i);
      NoneHeld(i);
      assert s'.workers == s.workers;
    case Send =>
      var x := s.gen.out[0];
      var w := WorkerOf(c, x.user);
      HoldsTail(s.gen.out, i);
      HoldsMore(s.workers[w].channel, x, i);
      forall v | 0 <= v < |s.workers| && WithWorker(s.workers[v], i) ensures WithWorker(s'.workers[v], i) {}
      assert x.id == i ==> WithWorker(s'.workers[w], i);
    case Loop =>
      NoneHeld(i);
      assert s'.workers == s.workers;
  }

  lemma NoneHeld(i: JobID)
    ensures !Holds([], i)
  {
  }

  /** A worker moves the job on or completes it. */
  lemma WorkCarries(c: Config, s: State, w: int, op: WorkerOp, i: JobID)
    requires Inv(c, s) && Enabled(c, s, Work(w, op)) && Settling(Work(w, op)) && OnWay(c, s, i) && i !in s.completed
    ensures var s' := Do(c, s, Work(w, op)); i in s'.completed || Carried(s', i)
  {
    hide GeneratorOK, ClearListOK, HistoryOK, InvFor, Reports, Tagged, Holds, Router.Outcome;
    var s' := Do(c, s, Work(w, op));
    assert WorkerOK(c, s.jobs, s.workers[w], w);
    if v :| 0 <= v < |s.workers| && WithWorker(s.workers[v], i) {
      if v != w {
        assert WithWorker(s'.workers[v], i);
      } else {
        StepCarries(c, s, w, op, i);
        assert s'.workers[w] == WorkerStep(c, s.workers[w], op);
        assert s'.completed == s.completed + Completes(c, s.workers[w], op);
      }
    } else {
      assert s'.gen == s.gen;
    }
  }

  lemma StepCarries(c: Config, s: State, w: int, op: WorkerOp, i: JobID)
    requires Inv(c, s) && 0 <= w < |s.workers| && WorkerReady(s.workers[w], op) && op != Post(false)
    requires OnWay(c, s, i) && i !in s.completed && WithWorker(s.workers[w], i)
    ensures WithWorker(WorkerStep(c, s.workers[w], op), i) || i in Completes(c, s.workers[w], op)
  {
    hide GeneratorOK, ClearListOK, HistoryOK, InvFor, Reports, Tagged, Router.Outcome;
    var worker := s.workers[w];
    assert WorkerOK(c, s.jobs, worker, w);
    if op == Take {
      HoldsTail(worker.channel, i);
    } else if op == Check && worker.phase.job.id == i {
      assert Current(worker.phase)[0] == worker.phase.job;
      assert BlockOf(c, s, worker.phase.job.user) == Get(worker.failed, worker.phase.job.user);
    }
  }

  lemma StaysOnWay(c: Config, s: State, a: Action, i: JobID)
    requires Inv(c, s) && Enabled(c, s, a) && Settling(a) && OnWay(c, s, i)
    ensures OnWay(c, Do(c, s, a), i)
  {
    hide Inv, Do, Carried, Calm;
    SettlingKeeps(c, s, a);
    if i !in s.completed {
      match a
      case Decide => DecideCarries(c, s, i);
      case Mark => HandOverCarries(c, s, a, i);
      case Send => HandOverCarries(c, s, a, i);
      case Loop => HandOverCarries(c, s, a, i);
      case Work(w, op) => WorkCarries(c, s, w, op, i);
      case _ => OthersCarry(c, s, a, i);
    }
  }

  lemma OthersCarry(c: Config, s: State, a: Action, i: JobID)
    requires Enabled(c, s, a) && Carried(s, i)
    requires a.ReadRetry? || a.ReadWaiting? || a.ReadUnprocessed? || a.Receive? || a.Flush? || a.Scan?
    ensures Carried(Do(c, s, a), i)
  {
    hide Holds, WithWorker, SetStates, Query;
    assert Do(c, s, a).workers == s.workers;
  }

  // ---------- settling ----------

  ghost predicate AllSettling(acts: seq<Action>) {
    forall k :: 0 <= k < |acts| ==> Settling(acts[k])
  }

  /** The jobs are the same, and what was completed is. */
  ghost predicate Onward(s: State, t: State) {
    && (forall i :: i in t.jobs <==> i in s.jobs) && forall i :: i in s.completed ==> i in t.completed
  }

  /** Everything under way comes to an end, and a job on its way is completed. */
  lemma {:induction false} Settle(c: Config, s: State, i: JobID) returns (acts: seq<Action>)
    requires Inv(c, s)
    ensures Run(c, s, acts) && AllSettling(acts)
    ensures var t := Final(c, s, acts);
      Inv(c, t) && Quiet(t) && Onward(s, t) && (OnWay(c, s, i) ==> i in t.completed)
    decreases GenLeft(s.gen), ListLeft(s.gen), Load(s)
  {
    hide Inv, Do, Enabled, OnWay, Quiet, Load, Settling;
    if Quiet(s) {
      NothingOnWay(c, s, i);
      acts := [];
    } else {
      var a := NextStep(c, s);
      StepKeeps(c, s, a);
      SettlingKeeps(c, s, a);
      if OnWay(c, s, i) {
        StaysOnWay(c, s, a, i);
      }
      var rest := Settle(c, Do(c, s, a), i);
      acts := [a] + rest;
      assert acts[0] == a && acts[1..] == rest;
    }
  }

  lemma NothingOnWay(c: Config, s: State, i: JobID)
    requires Quiet(s)
    ensures OnWay(c, s, i) ==> i in s.completed
  {
  }

  // ---------- a turn of the generator ----------

  lemma {:induction false} OfNothing(u: User)
    ensures Of(u, []) == []
  {
  }

  /** With nothing under way there is nothing of any user. */
  lemma NoFlowAtRest(c: Config, s: State, u: User)
    requires |s.workers| == c.noOfWorkers > 0 && s.respQ == [] && s.buf == [] && Outgoing(s.gen) == []
    requires forall w :: 0 <= w < |s.workers| ==> s.workers[w].channel == [] && s.workers[w].phase == Idle
    ensures Flow(c, s, u) == []
  {
    OfNothing(u);
    var worker := s.workers[WorkerOf(c, u)];
    assert worker.channel == [] && Current(worker.phase) == [];
  }

  /** Then a job that is not completed can be started, and a user is only blocked by the first of its open jobs, which
      has failed. */
  lemma AtRest(c: Config, s: State, i: JobID)
    requires Inv(c, s) && i in s.jobs && Flow(c, s, s.jobs[i].user) == []
    ensures i !in s.completed <==> Startable(s.jobs[i].state)
    ensures var u := s.jobs[i].user;
      Startable(s.jobs[i].state) && !ClearPending(c, s, u) && !NotBehind(c, s, i) ==>
        var b := BlockOf(c, s, u).value; b < i && b in s.jobs && s.jobs[b].state == Failed
  {
    hide GeneratorOK, ClearListOK, HistoryOK, WorkerOK, Known, Reports, Tagged, Flow;
    hide UntouchedLast, TriesLeft, LeftFirst, LeftFew, DoneFirst;
    var u := s.jobs[i].user;
    assert InvFor(c, s, u);
    assert Mine(s.jobs, u, i);
    if Startable(s.jobs[i].state) && !ClearPending(c, s, u) && !NotBehind(c, s, i) {
      BlockParked(s.jobs, s.completed, u, BlockOf(c, s, u), c.maxFailed, i);
    }
  }

  lemma BlockParked(jobs: map<JobID, Row>, completed: seq<JobID>, u: User, b: Option<JobID>, m: int, i: JobID)
    requires UserInv(jobs, completed, u, [], b, false, m) && b.Some? && b != Some(i) && Open(jobs, u, i)
    ensures b.value < i && b.value in jobs && jobs[b.value].state == Failed
  {
    hide Agree, Completed, UntouchedLast, TriesLeft, LeftFirst, LeftFew, DoneFirst;
  }

  ghost predicate ReadAll(c: Config, s: State, retry: seq<Item>, waiting: seq<Item>, q: seq<Item>) {
    && Query(s.jobs, Failed, c.batch, retry) && |retry| <= c.batch
    && Query(s.jobs, Waiting, c.batch - |retry|, waiting) && |retry| + |waiting| <= c.batch
    && Query(s.jobs, Unprocessed, c.batch - |retry| - |waiting|, q)
  }

  /** What can be started is read, or the batch is full of others. */
  lemma SomethingRead(c: Config, s: State, retry: seq<Item>, waiting: seq<Item>, q: seq<Item>, i: JobID)
    requires c.batch >= 1 && ReadAll(c, s, retry, waiting, q) && i in s.jobs && Startable(s.jobs[i].state)
    ensures waiting + q + retry != []
  {
    hide Ascending;
    if retry == [] && waiting == [] {
      assert Ids(retry) == [] && Ids(waiting) == [];
      assert s.jobs[i].state == Failed ==> i in StateIds(s.jobs, Failed);
      assert s.jobs[i].state == Waiting ==> i in StateIds(s.jobs, Waiting);
      assert s.jobs[i].state == Unprocessed ==> i in StateIds(s.jobs, Unprocessed);
      assert q == [] ==> Ids(q) == [];
    }
  }

  /** What is read begins no later than at any failed job. */
  lemma BeginsBy(c: Config, s: State, retry: seq<Item>, rest: seq<Item>, sorted: seq<Item>, b: JobID)
    requires c.batch >= 1 && Query(s.jobs, Failed, c.batch, retry) && b in s.jobs && s.jobs[b].state == Failed
    requires SortedById(sorted) && multiset(sorted) == multiset(rest + retry)
    ensures sorted != [] && sorted[0].id <= b
  {
    var k := FailedRead(c, s, retry, b);
    assert (rest + retry)[|rest| + k] == retry[k];
    assert retry[k] in multiset(rest + retry);
    assert retry[k] in sorted;
  }

  lemma FailedRead(c: Config, s: State, retry: seq<Item>, b: JobID) returns (k: nat)
    requires c.batch >= 1 && Query(s.jobs, Failed, c.batch, retry) && b in s.jobs && s.jobs[b].state == Failed
    ensures k < |retry| && retry[k].id <= b
  {
    assert b in StateIds(s.jobs, Failed);
    if k0 :| 0 <= k0 < |retry| && Ids(retry)[k0] == b {
      k := k0;
    } else {
      k := 0;
      assert b !in Ids(retry);
      assert |Ids(retry)| == c.batch;
      assert Ids(retry)[0] in Ids(retry);
    }
  }

  lemma QueryStates(jobs: map<JobID, Row>, st: JobState, n: nat, q: seq<Item>)
    requires Query(jobs, st, n, q)
    ensures forall x :: x in q ==> x.id in jobs && jobs[x.id].state == st
  {
    forall x | x in q ensures x.id in jobs && jobs[x.id].state == st {
      var k :| 0 <= k < |q| && q[k] == x;
      assert Ids(q)[k] in Ids(q);
    }
  }

  /** The first of the jobs read can be posted: its user is not blocked by another. */
  lemma FirstGoes(c: Config, s: State, retry: seq<Item>, waiting: seq<Item>, q: seq<Item>, sorted: seq<Item>)
    requires Inv(c, s) && ReadAll(c, s, retry, waiting, q) && sorted != []
    requires SortedById(sorted) && multiset(sorted) == multiset(waiting + q + retry)
    requires forall u :: Flow(c, s, u) == [] && !ClearPending(c, s, u)
    ensures sorted[0].id in s.jobs && sorted[0].id !in s.completed && NotBehind(c, s, sorted[0].id)
  {
    hide GeneratorOK, ClearListOK, HistoryOK, Flow, ClearPending, InvFor, WorkerOK, FirstN;
    var x := sorted[0];
    assert x in multiset(sorted);
    assert x in waiting + q + retry;
    QueryStates(s.jobs, Failed, c.batch, retry);
    QueryStates(s.jobs, Waiting, c.batch - |retry|, waiting);
    QueryStates(s.jobs, Unprocessed, c.batch - |retry| - |waiting|, q);
    assert x.id in s.jobs && Startable(s.jobs[x.id].state);
    AtRest(c, s, x.id);
    if !NotBehind(c, s, x.id) {
      BeginsBy(c, s, retry, waiting + q, sorted, BlockOf(c, s, s.jobs[x.id].user).value);
    }
  }

  /** Only a new job or a refused post could put the end off. */
  ghost predicate Helps(a: Action) {
    !a.Store? && (a.Work? ==> a.op != Post(false))
  }

  ghost predicate AllHelp(acts: seq<Action>) {
    forall k :: 0 <= k < |acts| ==> Helps(acts[k])
  }

  /** The generator has read a batch, and nothing else is under way. */
  ghost predicate Reading(c: Config, s: State, t: State) {
    && |t.workers| == c.noOfWorkers > 0 && t.jobs == s.jobs && t.completed == s.completed
    && t.respQ == [] && t.buf == [] && t.scan == [] && t.toClear == [] && Outgoing(t.gen) == []
    && forall w :: 0 <= w < |t.workers| ==> t.workers[w].channel == [] && t.workers[w].phase == Idle
  }

  lemma ReadingTells(c: Config, s: State, t: State)
    requires Reading(c, s, t)
    ensures Calm(t) && forall u :: Flow(c, t, u) == [] && !ClearPending(c, t, u)
  {
    forall u ensures Flow(c, t, u) == [] && !ClearPending(c, t, u) {
      NoFlowAtRest(c, t, u);
    }
  }

  lemma ClearReads(c: Config, s: State)
    requires Inv(c, s) && Quiet(s)
    ensures Enabled(c, s, Clear) && var t := Do(c, s, Clear); Reading(c, s, t) && t.gen == Cleared
  {
    hide GeneratorOK, ClearListOK, HistoryOK, InvFor, WorkerOK, Known, Reports, Tagged;
  }

  lemma StartableUnderRest(c: Config, s: State, t: State, i: JobID)
    requires Inv(c, t) && Reading(c, s, t) && i in t.jobs
    ensures i !in t.completed <==> Startable(t.jobs[i].state)
  {
    hide Inv, Flow, ClearPending;
    ReadingTells(c, s, t);
    AtRest(c, t, i);
  }

  /** The three queries, one after the other. */
  lemma ReadsAll(c: Config, s: State, s1: State) returns (retry: seq<Item>, waiting: seq<Item>, q: seq<Item>)
    requires Inv(c, s1) && Reading(c, s, s1) && s1.gen == Cleared
    ensures Enabled(c, s1, ReadRetry(retry))
    ensures var s2 := s1.(gen := HaveRetry(retry)); Do(c, s1, ReadRetry(retry)) == s2
    ensures var s2 := s1.(gen := HaveRetry(retry)); Enabled(c, s2, ReadWaiting(waiting))
    ensures var s2, s3 := s1.(gen := HaveRetry(retry)), s1.(gen := HaveWaiting(retry, waiting));
      Do(c, s2, ReadWaiting(waiting)) == s3 && Inv(c, s3) && Reading(c, s, s3) && ReadAll(c, s3, retry, waiting, q)
  {
    hide Inv, Query;
    retry := QueryAnswer(s1.jobs, Failed, c.batch);
    QueryFits(s1.jobs, Failed, c.batch, retry);
    StepKeeps(c, s1, ReadRetry(retry));
    var s2 := s1.(gen := HaveRetry(retry));
    waiting := QueryAnswer(s1.jobs, Waiting, c.batch - |retry|);
    QueryFits(s1.jobs, Waiting, c.batch - |retry|, waiting);
    StepKeeps(c, s2, ReadWaiting(waiting));
    q := QueryAnswer(s1.jobs, Unprocessed, c.batch - |retry| - |waiting|);
  }

  /** They come to a batch whose first job can be posted. */
  lemma ReadsFirst(c: Config, s: State, s3: State, retry: seq<Item>, waiting: seq<Item>, q: seq<Item>, i: JobID)
    returns (sorted: seq<Item>)
    requires Inv(c, s3) && Reading(c, s, s3) && s3.gen == HaveWaiting(retry, waiting)
    requires ReadAll(c, s3, retry, waiting, q) && i in s3.jobs && i !in s3.completed
    ensures sorted != [] && Enabled(c, s3, ReadUnprocessed(q, sorted))
    ensures sorted[0].id in s3.jobs && sorted[0].id !in s3.completed && NotBehind(c, s3, sorted[0].id)
  {
    hide Inv, Query, Flow, ClearPending, Startable, SortedById, Reading;
    Limits(c, s3);
    sorted := Sort(waiting + q + retry);
    SortSorts(waiting + q + retry);
    ReadingTells(c, s, s3);
    StartableUnderRest(c, s, s3, i);
    SomethingRead(c, s3, retry, waiting, q, i);
    assert sorted != [] by { assert |multiset(sorted)| == |multiset(waiting + q + retry)|; }
    FirstGoes(c, s3, retry, waiting, q, sorted);
  }

  /** The batch is about to be decided on, with nothing else under way. */
  lemma BatchOnWay(c: Config, s: State, s3: State, sorted: seq<Item>)
    requires Reading(c, s, s3) && sorted != [] && sorted[0].id in s3.jobs && NotBehind(c, s3, sorted[0].id)
    ensures OnWay(c, s3.(gen := Deciding(sorted, [])), sorted[0].id)
  {
    assert Holds(sorted, sorted[0].id);
  }

  /** A turn of the generator puts one job on its way. */
  lemma Turn(c: Config, s: State, i: JobID) returns (acts: seq<Action>, x: JobID)
    requires Inv(c, s) && Quiet(s) && i in s.jobs && i !in s.completed
    ensures Run(c, s, acts) && AllHelp(acts)
    ensures var t := Final(c, s, acts);
      && Inv(c, t) && t.jobs == s.jobs && t.completed == s.completed
      && x in s.jobs && x !in s.completed && OnWay(c, t, x)
  {
    hide Inv, Quiet, Enabled, ReadAll, OnWay, NotBehind, Run, Final;
    ClearReads(c, s);
    StepKeeps(c, s, Clear);
    var s1 := Do(c, s, Clear);
    var retry, waiting, q := ReadsAll(c, s, s1);
    var s3 := s1.(gen := HaveWaiting(retry, waiting));
    var sorted := ReadsFirst(c, s, s3, retry, waiting, q, i);
    x := sorted[0].id;
    BatchOnWay(c, s, s3, sorted);
    var a := ReadUnprocessed(q, sorted);
    StepKeeps(c, s3, a);
    assert Do(c, s3, a) == s3.(gen := Deciding(sorted, []));
    acts := [Clear, ReadRetry(retry), ReadWaiting(waiting), a];
    FourSteps(c, s, acts);
  }

  lemma Limits(c: Config, s: State)
    requires Inv(c, s)
    ensures c.batch >= 1 && |s.workers| == c.noOfWorkers > 0
  {
    hide GeneratorOK, ClearListOK, HistoryOK, InvFor, WorkerOK, Known, Reports, Tagged;
  }

  lemma QueryFits(jobs: map<JobID, Row>, st: JobState, n: nat, q: seq<Item>)
    requires Query(jobs, st, n, q)
    ensures |q| <= n
  {
    assert |Ids(q)| == |q|;
  }

  lemma FourSteps(c: Config, s: State, acts: seq<Action>)
    requires |acts| == 4 && Enabled(c, s, acts[0])
    requires var s1 := Do(c, s, acts[0]); Enabled(c, s1, acts[1])
    requires var s2 := Do(c, Do(c, s, acts[0]), acts[1]); Enabled(c, s2, acts[2])
    requires var s3 := Do(c, Do(c, Do(c, s, acts[0]), acts[1]), acts[2]); Enabled(c, s3, acts[3])
    ensures Run(c, s, acts)
    ensures Final(c, s, acts) == Do(c, Do(c, Do(c, Do(c, s, acts[0]), acts[1]), acts[2]), acts[3])
  {
    hide Enabled, Do;
    assert acts[1..][1..] == acts[2..] && acts[2..][1..] == acts[3..] && acts[3..][1..] == [];
    var s3 := Do(c, Do(c, Do(c, s, acts[0]), acts[1]), acts[2]);
    var s4 := Do(c, s3, acts[3]);
    assert Run(c, s4, []) && Final(c, s4, []) == s4;
    assert Run(c, s3, acts[3..]) && Final(c, s3, acts[3..]) == s4;
    assert Run(c, Do(c, Do(c, s, acts[0]), acts[1]), acts[2..]);
    assert Final(c, Do(c, Do(c, s, acts[0]), acts[1]), acts[2..]) == s4;
    assert Run(c, Do(c, s, acts[0]), acts[1..]) && Final(c, Do(c, s, acts[0]), acts[1..]) == s4;
  }

  // ---------- all of them ----------

  ghost function Pending(s: State): set<JobID> {
    set i | i in s.jobs && i !in s.completed
  }

  lemma JoinedRuns(c: Config, s: State, a: seq<Action>, b: seq<Action>)
    requires Run(c, s, a) && Run(c, Final(c, s, a), b) && AllHelp(a) && AllHelp(b)
    ensures Run(c, s, a + b) && Final(c, s, a + b) == Final(c, Final(c, s, a), b) && AllHelp(a + b)
  {
    hide Run, Final;
    RunAppend(c, s, a, b);
  }

  lemma SettlingHelps(acts: seq<Action>)
    requires AllSettling(acts)
    ensures AllHelp(acts)
  {
  }

  lemma {:induction false} FinishAll(c: Config, s: State) returns (acts: seq<Action>)
    requires Inv(c, s) && Quiet(s)
    ensures Run(c, s, acts) && AllHelp(acts)
    ensures var t := Final(c, s, acts);
      Inv(c, t) && Quiet(t) && Onward(s, t) && forall i :: i in t.jobs ==> i in t.completed
    decreases Pending(s)
  {
    hide Inv, Quiet, Run, Final, OnWay;
    if i :| i in s.jobs && i !in s.completed {
      var turn, x := Turn(c, s, i);
      var u := Final(c, s, turn);
      var settle := Settle(c, u, x);
      var v := Final(c, u, settle);
      SettlingHelps(settle);
      assert forall y :: y in Pending(v) ==> y in Pending(s);
      assert x in Pending(s) && x !in Pending(v);
      assert Pending(v) <= Pending(s);
      var rest := FinishAll(c, v);
      JoinedRuns(c, s, turn, settle);
      JoinedRuns(c, s, turn + settle, rest);
      acts := turn + settle + rest;
    } else {
      NoActions(c, s);
      acts := [];
    }
  }

  lemma NoActions(c: Config, s: State)
    ensures Run(c, s, []) && Final(c, s, []) == s
  {
  }

  /** No new job comes, every post is answered well, and then every job is done in the store and none is under way. */
  ghost predicate AllDelivered(c: Config, s: State, acts: seq<Action>) {
    && Run(c, s, acts) && AllHelp(acts)
    && var t := Final(c, s, acts);
      && Quiet(t) && (forall i :: i in t.jobs <==> i in s.jobs) && (forall i :: i in s.completed ==> i in t.completed)
      && forall i :: i in t.jobs ==> i in t.completed && Done(t.jobs[i].state)
  }

  lemma DoneInStore(c: Config, s: State, i: JobID)
    requires Inv(c, s) && Quiet(s) && i in s.completed && i in s.jobs
    ensures Done(s.jobs[i].state)
  {
    hide GeneratorOK, ClearListOK, HistoryOK, Flow, WorkerOK, Known, Reports, Tagged, InvFor;
    var u := s.jobs[i].user;
    NoFlowAtRest(c, s, u);
    CompletedDone(c, s, u, i);
  }

  lemma CompletedDone(c: Config, s: State, u: User, i: JobID)
    requires |s.workers| == c.noOfWorkers > 0 && InvFor(c, s, u) && Flow(c, s, u) == [] && Mine(s.jobs, u, i)
    requires i in s.completed
    ensures Done(s.jobs[i].state)
  {
    hide Flow, Agree, DoneFirst, UntouchedLast, TriesLeft, LeftFirst, LeftFew, Stage;
  }

  /** From wherever a run has got to, a fresh start or a restart that can be resumed behind it, the router can go on so
      that every job it has is delivered or given up and written so, with every queue empty: no job is stuck behind a
      user that stays blocked, a batch that stays full, or a worker that waits. */
  lemma NoJobStuck(c: Config, s: State, acts: seq<Action>)
    requires ValidConfig(c) && c.maxFailed >= 1 && Resumable(c, s, c.maxFailed) && Run(c, s, acts)
    ensures exists more :: AllDelivered(c, Final(c, s, acts), more)
  {
    hide Resumable, Inv, Run, Final, Quiet, AllHelp;
    ResumedHolds(c, s);
    RunKeeps(c, s, acts);
    var t := Final(c, s, acts);
    var settle := Settle(c, t, 0);
    var u := Final(c, t, settle);
    SettlingHelps(settle);
    var rest := FinishAll(c, u);
    JoinedRuns(c, t, settle, rest);
    var v := Final(c, u, rest);
    forall i | i in v.jobs ensures i in v.completed && Done(v.jobs[i].state) {
      DoneInStore(c, v, i);
    }
    assert AllDelivered(c, t, settle + rest);
  }
}
