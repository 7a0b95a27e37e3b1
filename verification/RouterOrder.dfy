/** The ordering theorem over all runs, and the exact setting under which it holds. */
module RouterOrder {
  import opened Common
  import opened Router
  import opened RouterUser
  import opened RouterInvariant
  import RouterWorkers
  import RouterGenerator
  import RouterStatus

  // ---------- the invariant holds in every run ----------

  /** From where a router may start so that the order is kept whatever the batch size. */
  ghost predicate Resumable(c: Config, s: State, m: int) {
    Restarted(c, s) && InTurn(s.jobs) && AtMostTwoFailed(s.jobs) && TriedLessThan(s.jobs, m)
  }

  lemma ResumedHolds(c: Config, s: State)
    requires ValidConfig(c) && c.maxFailed >= 1 && Resumable(c, s, c.maxFailed)
    ensures Inv(c, s)
  {
    hide UserInv, Restarted, InTurn, AtMostTwoFailed, TriedLessThan;
    assert NothingUnderWay(c, s) && CompletesInOrder(s) by { RestartedMeans(c, s); }
    forall w | 0 <= w < |s.workers| ensures WorkerOK(c, s.jobs, s.workers[w], w) {
      assert s.workers[w] == Worker([], Idle, map[]);
    }
    forall u ensures InvFor(c, s, u) {
      NoFlow(c, s, u);
      ResumedUser(c, s, u);
    }
  }

  lemma NoFlow(c: Config, s: State, u: User)
    requires c.noOfWorkers > 0 && NothingUnderWay(c, s)
    ensures Flow(c, s, u) == [] && BlockOf(c, s, u) == None && !ClearPending(c, s, u)
  {
    assert s.workers[WorkerOf(c, u)] == Worker([], Idle, map[]);
  }

  lemma RestartedMeans(c: Config, s: State)
    requires Restarted(c, s)
    ensures NothingUnderWay(c, s) && CompletesInOrder(s)
  {
  }

  lemma ResumedUser(c: Config, s: State, u: User)
    requires Resumable(c, s, c.maxFailed)
    ensures UserInv(s.jobs, s.completed, u, [], None, false, c.maxFailed)
  {
    forall i, j | Mine(s.jobs, u, i) && Mine(s.jobs, u, j) && i != j
      ensures Precedes(s.jobs, i, j) || Precedes(s.jobs, j, i)
    {
    }
    assert forall i :: Left(s.jobs, u, [], None, i) <==> FailedOf(s.jobs, u, i);
  }

  lemma FreshIsResumable(c: Config, s: State, m: int)
    requires Init(c, s) && m >= 1
    ensures Resumable(c, s, m)
  {
  }

  lemma StepKeeps(c: Config, s: State, a: Action)
    requires Inv(c, s) && Enabled(c, s, a)
    ensures Inv(c, Do(c, s, a))
  {
    hide Inv, Do;
    match a {
      case Store(user) => RouterGenerator.StoreKeeps(c, s, user);
      case Clear => RouterGenerator.ClearKeeps(c, s);
      case ReadRetry(q) => RouterGenerator.ReadRetryKeeps(c, s, q);
      case ReadWaiting(q) => RouterGenerator.ReadWaitingKeeps(c, s, q);
      case ReadUnprocessed(q, sorted) => RouterGenerator.ReadUnprocessedKeeps(c, s, q, sorted);
      case Decide => RouterGenerator.DecideKeeps(c, s);
      case Mark => RouterStatus.MarkKeeps(c, s);
      case Send => RouterGenerator.SendKeeps(c, s);
      case Loop => RouterGenerator.LoopKeeps(c, s);
      case Work(w, op) =>
        if RouterWorkers.Moves(op, s.workers[w]) {
          RouterWorkers.MoveKeeps(c, s, w, op);
        } else {
          RouterWorkers.RetagKeeps(c, s, w, op);
        }
      case Receive => RouterStatus.ReceiveKeeps(c, s);
      case Flush => RouterStatus.FlushKeeps(c, s);
      case Scan => RouterStatus.ScanKeeps(c, s);
    }
  }

  lemma {:induction false} RunKeeps(c: Config, s: State, acts: seq<Action>)
    requires Inv(c, s) && Run(c, s, acts)
    ensures Inv(c, Final(c, s, acts))
    decreases |acts|
  {
    if acts != [] {
      StepKeeps(c, s, acts[0]);
      RunKeeps(c, Do(c, s, acts[0]), acts[1..]);
    }
  }

  // ---------- what the invariant says ----------

  lemma InvPosts(c: Config, s: State)
    requires Inv(c, s)
    ensures PostsInOrder(s)
  {
    forall w | 0 <= w < |s.workers| && s.workers[w].phase.Checked?
      ensures var job := s.workers[w].phase.job;
        && job.id in s.jobs && s.jobs[job.id].user == job.user && job.id !in s.completed
        && forall i :: i in s.jobs && s.jobs[i].user == job.user && i < job.id ==> i in s.completed
    {
      var job := s.workers[w].phase.job;
      var u := job.user;
      assert WorkerOK(c, s.jobs, s.workers[w], w);
      JobInHand(c, s, w, job);
      assert InvFor(c, s, u);
      EarlierCompleted(s.jobs, s.completed, u, Flow(c, s, u), BlockOf(c, s, u), ClearPending(c, s, u), Head(s, u),
          c.maxFailed);
      forall i | i in s.jobs && s.jobs[i].user == u && i < job.id ensures i in s.completed {
        assert Mine(s.jobs, u, i);
      }
    }
  }

  lemma ListedFlow(c: Config, s: State, u: User)
    requires |s.workers| == c.noOfWorkers > 0 && InvFor(c, s, u) && (WorkerOf(c, u), u) in s.toClear
    ensures Flow(c, s, u) == []
  {
    hide Flow, Agree, Completed, DoneFirst, UntouchedLast, TriesLeft, LeftFirst, LeftFew;
  }

  lemma InvClears(c: Config, s: State)
    requires Inv(c, s)
    ensures ClearsSafely(s)
  {
    hide InvFor, GeneratorOK, HistoryOK, Flow, Known, Reports, Tagged, PhaseOK, Of;
    forall k | 0 <= k < |s.toClear| ensures NothingInFlight(s, s.toClear[k].1) {
      var u := s.toClear[k].1;
      assert (WorkerOf(c, u), u) == s.toClear[k];
      ListedFlow(c, s, u);
      EmptyFlow(c, s, u);
      var worker := s.workers[WorkerOf(c, u)];
      OfMembers(u, s.buf);
      OfMembers(u, s.respQ);
      OfMembers(u, Outgoing(s.gen));
      OfMembers(u, Current(worker.phase));
      OfMembers(u, worker.channel);
      forall w | 0 <= w < |s.workers|
        ensures forall k :: 0 <= k < |s.workers[w].channel| ==> s.workers[w].channel[k].user != u
        ensures forall k :: 0 <= k < |Current(s.workers[w].phase)| ==> Current(s.workers[w].phase)[k].user != u
      {
        assert WorkerOK(c, s.jobs, s.workers[w], w);
      }
    }
  }

  lemma EmptyFlow(c: Config, s: State, u: User)
    requires |s.workers| == c.noOfWorkers > 0 && Flow(c, s, u) == []
    ensures var worker := s.workers[WorkerOf(c, u)];
      Of(u, s.buf) == Of(u, s.respQ) == Of(u, Current(worker.phase)) == Of(u, worker.channel) == Of(u,
          Outgoing(s.gen)) == []
  {
  }

  lemma InvAssertions(c: Config, s: State)
    requires Inv(c, s)
    ensures AssertionsHold(c, s)
  {
    if s.gen.Deciding? && s.gen.todo != [] {
      RouterGenerator.NextInLine(c, s);
      var job := s.gen.todo[0];
      assert InvFor(c, s, job.user);
      assert Open(s.jobs, job.user, job.id);
      if BlockOf(c, s, job.user).Some? && !ClearPending(c, s, job.user)
        && FreshBlock(s.jobs, job.user, Flow(c, s, job.user), BlockOf(c, s, job.user).value, c.maxFailed)
      {
        var b, f := BlockOf(c, s, job.user).value, Flow(c, s, job.user);
        assert Touched(s.jobs, job.user, f, b);
        assert Fresh(s.jobs, job.user, f, job.id) || s.jobs[job.id].state == Waiting
          || Left(s.jobs, job.user, f, Some(b), job.id) || job.id == b;
      }
    }
    forall w | 0 <= w < |s.workers| && s.workers[w].phase.Checked? && s.workers[w].phase.prev.Some?
      ensures s.workers[w].phase.prev.value == s.workers[w].phase.job.id
    {
      assert WorkerOK(c, s.jobs, s.workers[w], w);
    }
  }

  /** The ordering theorem: over every run from a fresh start or a restart that can be resumed, jobs are posted only
      after all earlier jobs of their user are completed, completions are in order, a user is cleared only with nothing
      in flight, and both assertions on blocking jobs hold. */
  lemma ResumedTheorem(c: Config, s: State, acts: seq<Action>)
    requires ValidConfig(c) && c.maxFailed >= 1 && Resumable(c, s, c.maxFailed) && Run(c, s, acts)
    ensures var t := Final(c, s, acts);
      PostsInOrder(t) && CompletesInOrder(t) && ClearsSafely(t) && AssertionsHold(c, t)
  {
    ResumedHolds(c, s);
    RunKeeps(c, s, acts);
    var t := Final(c, s, acts);
    InvPosts(c, t);
    InvClears(c, t);
    InvAssertions(c, t);
  }

  lemma OrderingTheorem(c: Config, s: State, acts: seq<Action>)
    requires ValidConfig(c) && c.maxFailed >= 1 && Init(c, s) && Run(c, s, acts)
    ensures var t := Final(c, s, acts);
      PostsInOrder(t) && CompletesInOrder(t) && ClearsSafely(t) && AssertionsHold(c, t)
  {
    FreshIsResumable(c, s, c.maxFailed);
    ResumedTheorem(c, s, acts);
  }

  // ---------- the exact setting ----------

  /** Every post of every run from a fresh start respects the order. */
  ghost predicate AlwaysInOrder(c: Config) {
    forall s, acts :: Init(c, s) && Run(c, s, acts) ==> PostsInOrder(Final(c, s, acts))
  }

  const U: User := "u"

  ghost function Workers(c: Config, worker: Worker): seq<Worker>
    requires c.noOfWorkers > 0
  {
    seq(c.noOfWorkers, w => if w == WorkerOf(c, U) then worker else Worker([], Idle, map[]))
  }

  lemma {:induction false} RunAppend(c: Config, s: State, a: seq<Action>, b: seq<Action>)
    requires Run(c, s, a) && Run(c, Final(c, s, a), b)
    ensures Run(c, s, a + b) && Final(c, s, a + b) == Final(c, Final(c, s, a), b)
    decreases |a|
  {
    if a == [] {
      assert a + b == b;
    } else {
      RunAppend(c, Do(c, s, a[0]), a[1..], b);
      assert (a + b)[0] == a[0] && (a + b)[1..] == a[1..] + b;
    }
  }

  lemma RunStep(c: Config, s: State, acts: seq<Action>, a: Action)
    requires Run(c, s, acts) && Enabled(c, Final(c, s, acts), a)
    ensures Run(c, s, acts + [a]) && Final(c, s, acts + [a]) == Do(c, Final(c, s, acts), a)
  {
    var t := Final(c, s, acts);
    assert Run(c, Do(c, t, a), []);
    assert [a][1..] == [] && Run(c, t, [a]);
    RunAppend(c, s, acts, [a]);
  }

  /** Extends a run by the worker of U. */
  lemma WorkerMoves(c: Config, s: State, acts: seq<Action>, op: WorkerOp, worker: Worker)
    requires Run(c, s, acts) && c.noOfWorkers > 0
    requires Final(c, s, acts).workers == Workers(c, worker) && WorkerReady(worker, op)
    ensures var a := Work(WorkerOf(c, U), op);
      var t := Final(c, s, acts);
      && Run(c, s, acts + [a])
      && Final(c, s, acts + [a]) == t.(workers := Workers(c, WorkerStep(c, worker, op)),
          respQ := t.respQ + Sends(worker, op),
                                       completed := t.completed + Completes(c, worker, op))
  {
    var a, t := Work(WorkerOf(c, U), op), Final(c, s, acts);
    assert t.workers[WorkerOf(c, U)] == worker;
    RunStep(c, s, acts, a);
    assert Do(c, t, a).workers == Workers(c, WorkerStep(c, worker, op));
  }

  /** j is the one job the generator can pick up. */
  ghost predicate OnlyReady(jobs: map<JobID, Row>, x: Item, st: JobState) {
    && x == Item(x.id, U, x.attempt, Queued) && x.id in jobs && jobs[x.id] == Row(U, st, x.attempt)
    && forall i :: i in jobs && i != x.id ==> jobs[i].state == Executing || Done(jobs[i].state)
  }

  lemma ReadsEmpty(jobs: map<JobID, Row>, x: Item, st: JobState, other: JobState, n: nat)
    requires OnlyReady(jobs, x, st) && other != st && !Done(other) && other != Executing
    ensures Query(jobs, other, n, [])
  {
  }

  lemma ReadsOne(jobs: map<JobID, Row>, x: Item, st: JobState, n: nat)
    requires OnlyReady(jobs, x, st) && n >= 1 && !Done(st) && st != Executing
    ensures Query(jobs, st, n, [x])
  {
    assert Ids([x]) == [x.id];
    forall i ensures i in StateIds(jobs, st) <==> i == x.id {
      assert i in jobs && i != x.id ==> jobs[i].state != st;
    }
  }

  lemma ClearsAll(c: Config, worker: Worker, toClear: seq<(int, User)>)
    requires c.noOfWorkers > 0
    ensures var ws := Workers(c, worker);
      seq(|ws|, w requires 0 <= w < |ws| => ClearWorker(ws[w], w, toClear)) == Workers(c,
          ClearWorker(worker, WorkerOf(c, U), toClear))
  {
  }

  /** The three reads of a round, one after the other. */
  lemma RoundQueries(c: Config, s: State, acts: seq<Action>, retry: seq<Item>, waiting: seq<Item>, q: seq<Item>,
          sorted: seq<Item>)
    returns (acts': seq<Action>)
    requires ValidConfig(c) && Run(c, s, acts)
    requires var t := Final(c, s, acts);
      && t.gen == Cleared && |t.workers| == c.noOfWorkers && |retry| + |waiting| <= c.batch && sorted != []
      && Query(t.jobs, Failed, c.batch, retry) && Query(t.jobs, Waiting, c.batch - |retry|, waiting)
      && Query(t.jobs, Unprocessed, c.batch - |retry| - |waiting|, q)
      && SortedById(sorted) && multiset(sorted) == multiset(waiting + q + retry)
    ensures Run(c, s, acts')
    ensures Final(c, s, acts') == Final(c, s, acts).(gen := Deciding(sorted, []))
  {
    hide Run, Final, Query, SortedById;
    RunStep(c, s, acts, ReadRetry(retry));
    var a2 := acts + [ReadRetry(retry)];
    RunStep(c, s, a2, ReadWaiting(waiting));
    var a3 := a2 + [ReadWaiting(waiting)];
    RunStep(c, s, a3, ReadUnprocessed(q, sorted));
    acts' := a3 + [ReadUnprocessed(q, sorted)];
  }

  lemma RoundClears(c: Config, s: State, acts: seq<Action>, worker: Worker) returns (acts': seq<Action>)
    requires ValidConfig(c) && Run(c, s, acts)
    requires var t := Final(c, s, acts); t.gen == Top && t.workers == Workers(c, worker)
    ensures Run(c, s, acts')
    ensures var t := Final(c, s, acts);
      Final(c, s, acts') == t.(gen := Cleared, toClear := [],
                               workers := Workers(c, ClearWorker(worker, WorkerOf(c, U), t.toClear)))
  {
    hide Run, Final;
    ClearsAll(c, worker, Final(c, s, acts).toClear);
    RunStep(c, s, acts, Clear);
    acts' := acts + [Clear];
  }

  /** One round of the generator up to the decision: it clears, reads and picks up one job. */
  lemma RoundReads(c: Config, s: State, acts: seq<Action>, worker: Worker, x: Item, st: JobState)
    returns (acts': seq<Action>)
    requires ValidConfig(c) && Run(c, s, acts) && (st == Failed || st == Unprocessed)
    requires var t := Final(c, s, acts); t.gen == Top && t.workers == Workers(c, worker) && OnlyReady(t.jobs, x, st)
    ensures Run(c, s, acts')
    ensures var t := Final(c, s, acts);
      Final(c, s, acts') == t.(gen := Deciding([x], []), toClear := [],
                               workers := Workers(c, ClearWorker(worker, WorkerOf(c, U), t.toClear)))
  {
    hide Run, Final, Query, OnlyReady;
    var t := Final(c, s, acts);
    acts' := RoundClears(c, s, acts, worker);
    ReadsOne(t.jobs, x, st, c.batch);
    ReadsEmpty(t.jobs, x, st, Waiting, c.batch);
    ReadsEmpty(t.jobs, x, st, Waiting, c.batch - 1);
    if st == Failed {
      ReadsEmpty(t.jobs, x, st, Unprocessed, c.batch - 1);
      assert [] + [] + [x] == [x];
      acts' := RoundQueries(c, s, acts', [x], [], [], [x]);
    } else {
      ReadsEmpty(t.jobs, x, st, Failed, c.batch);
      assert [] + [x] + [] == [x];
      acts' := RoundQueries(c, s, acts', [], [], [x], [x]);
    }
  }

  /** The one job read is chosen and marked executing. */
  lemma RoundMarks(c: Config, s: State, acts: seq<Action>, worker: Worker, x: Item, st: JobState)
    returns (acts': seq<Action>)
    requires ValidConfig(c) && Run(c, s, acts) && x == Item(x.id, U, x.attempt, Queued)
    requires var t := Final(c, s, acts);
      && t.gen == Deciding([x], []) && t.workers == Workers(c, worker)
      && x.id in t.jobs && t.jobs[x.id] == Row(U, st, x.attempt)
    requires U !in worker.failed
    ensures Run(c, s, acts')
    ensures var t := Final(c, s, acts);
      Final(c, s, acts') == t.(gen := Sending([x]), jobs := t.jobs[x.id := Row(U, Executing, x.attempt)])
  {
    hide Run, Final, SetStates;
    var t := Final(c, s, acts);
    RunStep(c, s, acts, Action.Decide);
    var a1 := acts + [Action.Decide];
    assert Final(c, s, a1) == t.(gen := Deciding([], [x.(tag := Chosen)])) by {
      assert [x][1..] == [] && [] + [x.(tag := Chosen)] == [x.(tag := Chosen)];
    }
    RunStep(c, s, a1, Mark);
    assert Retag([x.(tag := Chosen)]) == [x];
    SetsOne(t.jobs, x);
    acts' := a1 + [Mark];
  }

  /** And sent to its worker. */
  lemma RoundPasses(c: Config, s: State, acts: seq<Action>, worker: Worker, x: Item) returns (acts': seq<Action>)
    requires ValidConfig(c) && Run(c, s, acts) && x.user == U
    requires var t := Final(c, s, acts); t.gen == Sending([x]) && t.workers == Workers(c, worker)
    ensures Run(c, s, acts')
    ensures var t := Final(c, s, acts);
      Final(c, s, acts') == t.(gen := Top, workers := Workers(c, worker.(channel := worker.channel + [x])))
  {
    hide Run, Final;
    RunStep(c, s, acts, Send);
    var a1, w := acts + [Send], WorkerOf(c, U);
    assert Workers(c, worker)[w := worker.(channel := worker.channel + [x])] ==
      Workers(c, worker.(channel := worker.channel + [x]));
    RunStep(c, s, a1, Loop);
    acts' := a1 + [Loop];
  }

  /** The rest of the round: the job is marked executing and sent to the worker of U. */
  lemma RoundSends(c: Config, s: State, acts: seq<Action>, worker: Worker, x: Item, st: JobState)
    returns (acts': seq<Action>)
    requires ValidConfig(c) && Run(c, s, acts) && x == Item(x.id, U, x.attempt, Queued)
    requires var t := Final(c, s, acts);
      && t.gen == Deciding([x], []) && t.workers == Workers(c, worker)
      && x.id in t.jobs && t.jobs[x.id] == Row(U, st, x.attempt)
    requires U !in worker.failed
    ensures Run(c, s, acts')
    ensures var t := Final(c, s, acts);
      Final(c, s, acts') == t.(gen := Top, jobs := t.jobs[x.id := Row(U, Executing, x.attempt)],
                               workers := Workers(c, worker.(channel := worker.channel + [x])))
  {
    hide Run, Final, SetStates, Workers;
    var a := RoundMarks(c, s, acts, worker, x, st);
    acts' := RoundPasses(c, s, a, worker, x);
  }

  lemma SetsOne(jobs: map<JobID, Row>, x: Item)
    requires x.id in jobs
    ensures SetStates(jobs, [x]) == jobs[x.id := jobs[x.id].(state := StateOf(x.tag), attempt := x.attempt)]
  {
  }

  lemma Round(c: Config, s: State, acts: seq<Action>, worker: Worker, x: Item, st: JobState)
    returns (acts': seq<Action>)
    requires ValidConfig(c) && Run(c, s, acts) && (st == Failed || st == Unprocessed)
    requires var t := Final(c, s, acts);
      && t.gen == Top && t.workers == Workers(c, worker) && OnlyReady(t.jobs, x, st)
      && U !in ClearWorker(worker, WorkerOf(c, U), t.toClear).failed
    ensures Run(c, s, acts')
    ensures var t := Final(c, s, acts);
      var cleared := ClearWorker(worker, WorkerOf(c, U), t.toClear);
      Final(c, s, acts') == t.(jobs := t.jobs[x.id := Row(U, Executing, x.attempt)], toClear := [],
                               workers := Workers(c, cleared.(channel := cleared.channel + [x])))
  {
    var t := Final(c, s, acts);
    var a1 := RoundReads(c, s, acts, worker, x, st);
    acts' := RoundSends(c, s, a1, ClearWorker(worker, WorkerOf(c, U), t.toClear), x, st);
  }

  ghost function JobOf(j: JobID, attempt: int): Item { Item(j, U, attempt, Queued) }

  /** Job 1 of U is unprocessed, or has failed and been tried k times. */
  ghost function StartState(c: Config, st: JobState, k: int): State
    requires c.noOfWorkers > 0
  {
    State(map[1 := Row(U, st, k)], 2, Top, Workers(c, Worker([], Idle, map[])), [], [], [], [], [])
  }

  /** Jobs 1 and 2 of the same user are sent to its worker in two rounds. */
  lemma TwoSent(c: Config, st: JobState, k: int) returns (acts: seq<Action>)
    requires ValidConfig(c) && (st == Failed || st == Unprocessed)
    ensures Run(c, StartState(c, st, k), acts)
    ensures Final(c, StartState(c, st, k), acts) ==
      State(map[1 := Row(U, Executing, k), 2 := Row(U, Executing, 0)], 3, Top,
            Workers(c, Worker([JobOf(1, k), JobOf(2, 0)], Idle, map[])), [], [], [], [], [])
  {
    var s, idle := StartState(c, st, k), Worker([], Idle, map[]);
    assert ClearWorker(idle, WorkerOf(c, U), []) == idle;
    var a1 := Round(c, s, [], idle, JobOf(1, k), st);
    RunStep(c, s, a1, Store(U));
    var a2 := a1 + [Store(U)];
    var one := idle.(channel := [JobOf(1, k)]);
    assert idle.channel + [JobOf(1, k)] == [JobOf(1, k)];
    assert ClearWorker(one, WorkerOf(c, U), []) == one;
    acts := Round(c, s, a2, one, JobOf(2, 0), Unprocessed);
    assert [JobOf(1, k)] + [JobOf(2, 0)] == [JobOf(1, k), JobOf(2, 0)];
    assert Final(c, s, acts).jobs == map[1 := Row(U, Executing, k), 2 := Row(U, Executing, 0)];
  }

  /** Job 1 fails and is given up at once, with job 2 still queued. */
  lemma FirstGivenUp(c: Config, st: JobState, k: int) returns (acts: seq<Action>)
    requires ValidConfig(c) && c.maxFailed <= k && (st == Failed || st == Unprocessed)
    ensures Run(c, StartState(c, st, k), acts)
    ensures Final(c, StartState(c, st, k), acts) ==
      State(map[1 := Row(U, Executing, k), 2 := Row(U, Executing, 0)], 3, Top,
          Workers(c, Worker([JobOf(2, 0)], Idle, map[U := 1])),
            [JobOf(1, k).(tag := Answered(Aborted))], [], [], [], [1])
  {
    hide Run, Final, Workers;
    var s := StartState(c, st, k);
    var w := Worker([JobOf(1, k), JobOf(2, 0)], Idle, map[]);
    acts := TwoSent(c, st, k);
    acts, w := Worked(c, s, acts, w, Take);
    acts, w := Worked(c, s, acts, w, Check);
    assert w == Worker([JobOf(2, 0)], Checked(JobOf(1, k), None), map[]);
    acts, w := Worked(c, s, acts, w, Post(false));
    acts, w := Worked(c, s, acts, w, Block);
    assert w == Worker([JobOf(2, 0)], Switching(JobOf(1, k)), map[U := 1]);
    assert |w.failed| == 1;
    acts, w := Worked(c, s, acts, w, Switch);
    acts, w := Worked(c, s, acts, w, Answer);
  }

  /** Job 2, queued behind the blocking entry of job 1, is sent to wait. */
  lemma FirstAborts(c: Config, st: JobState, k: int) returns (acts: seq<Action>)
    requires ValidConfig(c) && c.maxFailed <= k && (st == Failed || st == Unprocessed)
    ensures Run(c, StartState(c, st, k), acts)
    ensures Final(c, StartState(c, st, k), acts) ==
      State(map[1 := Row(U, Executing, k), 2 := Row(U, Executing, 0)], 3, Top,
          Workers(c, Worker([], Idle, map[U := 1])),
            [JobOf(1, k).(tag := Answered(Aborted)), JobOf(2, 0).(tag := Answered(Waiting))], [], [], [], [1])
  {
    hide Run, Final, Workers;
    var s := StartState(c, st, k);
    var w := Worker([JobOf(2, 0)], Idle, map[U := 1]);
    acts := FirstGivenUp(c, st, k);
    acts, w := Worked(c, s, acts, w, Take);
    acts, w := Worked(c, s, acts, w, Check);
    assert w == Worker([], Answering(JobOf(2, 0).(tag := Answered(Waiting))), map[U := 1]);
    acts, w := Worked(c, s, acts, w, Answer);
  }

  lemma Worked(c: Config, s: State, acts: seq<Action>, worker: Worker, op: WorkerOp)
    returns (acts': seq<Action>, worker': Worker)
    requires Run(c, s, acts) && c.noOfWorkers > 0
    requires Final(c, s, acts).workers == Workers(c, worker) && WorkerReady(worker, op)
    ensures worker' == WorkerStep(c, worker, op)
    ensures Run(c, s, acts')
    ensures var t := Final(c, s, acts);
      Final(c, s, acts') == t.(workers := Workers(c, worker'), respQ := t.respQ + Sends(worker, op),
                               completed := t.completed + Completes(c, worker, op))
  {
    WorkerMoves(c, s, acts, op, worker);
    acts', worker' := acts + [Work(WorkerOf(c, U), op)], WorkerStep(c, worker, op);
  }

  /** The status loop receives one answer and writes it. */
  lemma OneWritten(c: Config, s: State, acts: seq<Action>, x: Item, rest: seq<Item>) returns (acts': seq<Action>)
    requires ValidConfig(c) && Run(c, s, acts)
    requires var t := Final(c, s, acts);
      && |t.workers| == c.noOfWorkers && t.scan == [] && t.buf == [] && t.respQ == [x] + rest && x.id in t.jobs
    ensures Run(c, s, acts')
    ensures var t := Final(c, s, acts);
      Final(c, s, acts') == t.(jobs := t.jobs[x.id := t.jobs[x.id].(state := StateOf(x.tag), attempt := x.attempt)],
                               respQ := rest, scan := [x])
  {
    hide Run, Final, SetStates;
    RunStep(c, s, acts, Receive);
    assert ([x] + rest)[0] == x && ([x] + rest)[1..] == rest && [] + [x] == [x];
    var a := acts + [Receive];
    RunStep(c, s, a, Flush);
    SetsOne(Final(c, s, acts).jobs, x);
    acts' := a + [Flush];
  }

  /** An outcome that is not final clears nobody. */
  lemma ScannedOver(c: Config, s: State, acts: seq<Action>, x: Item) returns (acts': seq<Action>)
    requires ValidConfig(c) && Run(c, s, acts) && x.tag.Answered? && !Done(x.tag.state)
    requires var t := Final(c, s, acts); |t.workers| == c.noOfWorkers && t.scan == [x]
    ensures Run(c, s, acts')
    ensures Final(c, s, acts') == Final(c, s, acts).(scan := [])
  {
    hide Run, Final;
    RunStep(c, s, acts, Scan);
    acts' := acts + [Scan];
    assert [x][1..] == [];
  }

  /** The final outcome of the blocking job lists U for clearing. */
  lemma ScannedBlocker(c: Config, s: State, acts: seq<Action>, x: Item, worker: Worker) returns (acts': seq<Action>)
    requires ValidConfig(c) && Run(c, s, acts) && x.tag.Answered? && Done(x.tag.state) && x.user == U
    requires var t := Final(c, s, acts); t.workers == Workers(c, worker) && t.scan == [x] && t.toClear == []
    requires Get(worker.failed, U) == Some(x.id)
    ensures Run(c, s, acts')
    ensures Final(c, s, acts') == Final(c, s, acts).(scan := [], toClear := [(WorkerOf(c, U), U)])
  {
    hide Run, Final;
    assert Final(c, s, acts).workers[WorkerOf(c, U)] == worker;
    RunStep(c, s, acts, Scan);
    acts' := acts + [Scan];
    assert [x][1..] == [] && [] + [(WorkerOf(c, U), U)] == [(WorkerOf(c, U), U)];
  }

  lemma WorkersCount(c: Config, worker: Worker)
    requires c.noOfWorkers > 0
    ensures |Workers(c, worker)| == c.noOfWorkers
  {
  }

  /** The outcome of job 1 is written and its entry listed for clearing, while job 2's answer waits in the queue. */
  lemma FirstFlushed(c: Config, st: JobState, k: int) returns (acts: seq<Action>)
    requires ValidConfig(c) && c.maxFailed <= k && (st == Failed || st == Unprocessed)
    ensures Run(c, StartState(c, st, k), acts)
    ensures Final(c, StartState(c, st, k), acts) ==
      State(map[1 := Row(U, Aborted, k), 2 := Row(U, Executing, 0)], 3, Top, Workers(c, Worker([], Idle, map[U := 1])),
            [JobOf(2, 0).(tag := Answered(Waiting))], [], [], [(WorkerOf(c, U), U)], [1])
  {
    hide Run, Final, Workers;
    var s, w := StartState(c, st, k), Worker([], Idle, map[U := 1]);
    var x, y := JobOf(1, k).(tag := Answered(Aborted)), JobOf(2, 0).(tag := Answered(Waiting));
    acts := FirstAborts(c, st, k);
    WorkersCount(c, w);
    assert [x, y] == [x] + [y];
    acts := OneWritten(c, s, acts, x, [y]);
    acts := ScannedBlocker(c, s, acts, x, w);
    assert Final(c, s, acts).jobs == map[1 := Row(U, Aborted, k), 2 := Row(U, Executing, 0)];
  }

  /** With the entry cleared too early, job 3 overtakes job 2. */
  lemma ThirdOvertakes(c: Config, st: JobState, k: int) returns (acts: seq<Action>)
    requires ValidConfig(c) && c.maxFailed <= k && (st == Failed || st == Unprocessed)
    ensures Run(c, StartState(c, st, k), acts)
    ensures !PostsInOrder(Final(c, StartState(c, st, k), acts))
  {
    var s := StartState(c, st, k);
    var w := Worker([], Idle, map[U := 1]);
    acts := FirstFlushed(c, st, k);
    RunStep(c, s, acts, Store(U));
    acts := acts + [Store(U)];
    var idle := Worker([], Idle, map[]);
    assert ClearWorker(w, WorkerOf(c, U), [(WorkerOf(c, U), U)]) == idle by {
      assert (WorkerOf(c, U), U) in [(WorkerOf(c, U), U)];
    }
    acts := Round(c, s, acts, w, JobOf(3, 0), Unprocessed);
    assert idle.channel + [JobOf(3, 0)] == [JobOf(3, 0)];
    w := idle.(channel := [JobOf(3, 0)]);
    acts, w := Worked(c, s, acts, w, Take);
    acts, w := Worked(c, s, acts, w, Check);
    var t := Final(c, s, acts);
    assert t.workers[WorkerOf(c, U)].phase == Checked(JobOf(3, 0), None);
    assert 2 in t.jobs && 2 !in t.completed;
  }

  /** Ordering holds in all runs exactly when a job may fail at least once before it is given up. */
  lemma OrderingIff(c: Config)
    requires ValidConfig(c)
    ensures AlwaysInOrder(c) <==> c.maxFailed >= 1
  {
    if c.maxFailed >= 1 {
      forall s, acts | Init(c, s) && Run(c, s, acts) ensures PostsInOrder(Final(c, s, acts)) {
        OrderingTheorem(c, s, acts);
      }
    } else {
      var acts := ThirdOvertakes(c, Unprocessed, 0);
      assert Init(c, StartState(c, Unprocessed, 0));
    }
  }

  /** The same for every restart with jobs tried less than m times that can be resumed. */
  ghost predicate AlwaysResumes(c: Config, m: int) {
    forall s, acts :: Resumable(c, s, m) && Run(c, s, acts) ==> PostsInOrder(Final(c, s, acts))
  }

  lemma TriedStart(c: Config, m: int)
    requires ValidConfig(c)
    ensures Resumable(c, StartState(c, Failed, m - 1), m)
  {
  }

  /** A restart with jobs tried less than m times keeps the order in all runs exactly when m attempts are allowed: a job
      that has used up its attempts before the restart is given up at its first failure after it. */
  lemma ResumedIff(c: Config, m: int)
    requires ValidConfig(c) && m >= 1
    ensures AlwaysResumes(c, m) <==> m <= c.maxFailed
  {
    hide Restarted, InTurn, AtMostTwoFailed, Run, Final, PostsInOrder, StartState;
    if m <= c.maxFailed {
      forall s, acts | Resumable(c, s, m) && Run(c, s, acts) ensures PostsInOrder(Final(c, s, acts)) {
        ResumedTheorem(c, s, acts);
      }
    } else {
      var acts := ThirdOvertakes(c, Failed, m - 1);
      TriedStart(c, m);
    }
  }
}
