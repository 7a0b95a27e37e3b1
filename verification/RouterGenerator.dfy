/** Storing jobs and every step of the generator keep the protocol's invariant. */
module RouterGenerator {
  import opened Common
  import opened Router
  import opened RouterUser
  import opened RouterInvariant

  // ---------- new jobs ----------

  lemma StoreGenerator(c: Config, s: State, user: User)
    requires Placed(c, s) && GeneratorOK(c, s)
    ensures GeneratorOK(c, Do(c, s, Store(user)))
  {
  }

  lemma StoreUser(c: Config, s: State, user: User, u: User)
    requires Inv(c, s)
    ensures InvFor(c, Do(c, s, Store(user)), u)
  {
    var s' := Do(c, s, Store(user));
    assert Flow(c, s', u) == Flow(c, s, u) && BlockOf(c, s', u) == BlockOf(c, s, u);
    assert ClearPending(c, s', u) == ClearPending(c, s, u);
    assert InvFor(c, s, u);
    assert s.nextID !in s.completed;
    if u == user {
      Stored(s.jobs, s.completed, u, Flow(c, s, u), BlockOf(c, s, u), ClearPending(c, s, u), s.nextID, c.maxFailed);
    } else {
      Untouched(s.jobs, s.completed, u, Flow(c, s, u), BlockOf(c, s, u), ClearPending(c, s, u), s'.jobs, s'.completed,
          c.maxFailed);
    }
  }

  lemma StorePlaced(c: Config, s: State, user: User)
    requires Placed(c, s)
    ensures Placed(c, Do(c, s, Store(user)))
  {
  }

  lemma StoreKeeps(c: Config, s: State, user: User)
    requires Inv(c, s)
    ensures Inv(c, Do(c, s, Store(user)))
  {
    StorePlaced(c, s, user);
    StoreGenerator(c, s, user);
    forall u ensures InvFor(c, Do(c, s, Store(user)), u) { StoreUser(c, s, user, u); }
  }

  // ---------- clearing ----------

  lemma ClearUser(c: Config, s: State, u: User)
    requires Inv(c, s) && s.gen.Top?
    ensures InvFor(c, Do(c, s, Clear), u)
  {
    var s' := Do(c, s, Clear);
    assert Flow(c, s', u) == Flow(c, s, u);
    assert InvFor(c, s, u);
    var w := WorkerOf(c, u);
    if (w, u) in s.toClear {
      assert BlockOf(c, s', u) == None;
      RouterUser.Cleared(s.jobs, s.completed, u, Flow(c, s, u), BlockOf(c, s, u), c.maxFailed);
      assert !ClearPending(c, s', u);
    } else {
      assert BlockOf(c, s', u) == BlockOf(c, s, u);
      assert ClearPending(c, s', u) == ClearPending(c, s, u);
    }
  }

  lemma ClearKeeps(c: Config, s: State)
    requires Inv(c, s) && s.gen.Top?
    ensures Inv(c, Do(c, s, Clear))
  {
    var s' := Do(c, s, Clear);
    forall w | 0 <= w < |s.workers| ensures WorkerOK(c, s'.jobs, s'.workers[w], w) {
      assert WorkerOK(c, s.jobs, s.workers[w], w);
      assert forall u :: u in s'.workers[w].failed ==> u in s.workers[w].failed;
      ClearPhase(c, s, w);
    }
    forall u ensures InvFor(c, s', u) { ClearUser(c, s, u); }
  }

  /** A worker's pending decision never concerns a user being cleared. */
  lemma ClearPhase(c: Config, s: State, w: int)
    requires Inv(c, s) && 0 <= w < |s.workers|
    ensures PhaseOK(ClearWorker(s.workers[w], w, s.toClear))
  {
    var worker := s.workers[w];
    assert WorkerOK(c, s.jobs, worker, w);
    if worker.phase.Checked? || worker.phase.Posted? || worker.phase.Switching? {
      var u := worker.phase.job.user;
      JobInHand(c, s, w, Current(worker.phase)[0]);
      assert InvFor(c, s, u);
      assert (w, u) !in s.toClear;
    }
  }

  // ---------- reading ----------

  /** Steps of the generator that only change what it has read. */
  lemma ReadUsers(c: Config, s: State, gen: Generator)
    requires Inv(c, s) && Outgoing(s.gen) == [] && Outgoing(gen) == []
    requires GeneratorOK(c, s.(gen := gen))
    ensures Inv(c, s.(gen := gen))
  {
    var s' := s.(gen := gen);
    ClearListUnmoved(c, s, s');
    forall u ensures InvFor(c, s', u) {
      assert InvFor(c, s, u) && Flow(c, s', u) == Flow(c, s, u);
    }
  }

  lemma QueryUnstarted(jobs: map<JobID, Row>, st: JobState, n: nat, q: seq<Item>)
    requires Query(jobs, st, n, q) && Startable(st)
    ensures Unstarted(jobs, q) && AllIn(jobs, q, st) && |q| <= n
    ensures forall i :: i in jobs && jobs[i].state == st && !In(q, i) ==> |q| == n && forall k :: 0 <= k < |q| ==>
      q[k].id < i
  {
    forall k | 0 <= k < |q| ensures jobs[q[k].id].state == st {
      assert Ids(q)[k] == q[k].id && Ids(q)[k] in Ids(q);
    }
    forall j, k | 0 <= j < k < |q| ensures q[j].id < q[k].id {
      assert Ids(q)[j] < Ids(q)[k];
    }
    forall i | i in jobs && jobs[i].state == st && !In(q, i)
      ensures |q| == n && forall k :: 0 <= k < |q| ==> q[k].id < i
    {
      assert i in StateIds(jobs, st);
      assert i !in Ids(q);
      forall k | 0 <= k < |q| ensures q[k].id < i {
        assert Ids(q)[k] in Ids(q);
      }
    }
  }

  lemma ReadRetryKeeps(c: Config, s: State, q: seq<Item>)
    requires Inv(c, s) && Enabled(c, s, ReadRetry(q))
    ensures Inv(c, Do(c, s, ReadRetry(q)))
  {
    QueryUnstarted(s.jobs, Failed, c.batch, q);
    ReadUsers(c, s, HaveRetry(q));
  }

  lemma ReadWaitingKeeps(c: Config, s: State, q: seq<Item>)
    requires Inv(c, s) && Enabled(c, s, ReadWaiting(q))
    ensures Inv(c, Do(c, s, ReadWaiting(q)))
  {
    QueryUnstarted(s.jobs, Waiting, c.batch - |s.gen.retry|, q);
    ReadUsers(c, s, HaveWaiting(s.gen.retry, q));
  }

  // ---------- merging what was read ----------

  lemma {:induction false} CountOnce(q: seq<Item>, x: Item)
    requires Increasing(q)
    ensures multiset(q)[x] <= 1
  {
    if q != [] {
      assert q == [q[0]] + q[1..];
      assert Increasing(q[1..]);
      CountOnce(q[1..], x);
      if q[0] == x {
        assert x !in q[1..];
      }
    }
  }

  lemma CountTwice(q: seq<Item>, j: int, k: int)
    requires 0 <= j < k < |q| && q[j] == q[k]
    ensures multiset(q)[q[j]] >= 2
  {
    assert q == q[..k] + q[k..];
    assert q[..k][j] in q[..k] && q[k..][0] in q[k..];
  }

  /** What the three queries have returned together. */
  ghost predicate ThreeReads(c: Config, s: State, q: seq<Item>)
    requires |s.workers| == c.noOfWorkers > 0
  {
    && Placed(c, s) && s.gen.HaveWaiting? && GeneratorOK(c, s)
    && |s.gen.retry| + |s.gen.waiting| <= c.batch
    && Query(s.jobs, Unprocessed, c.batch - |s.gen.retry| - |s.gen.waiting|, q)
  }

  lemma MergedMembers(a: seq<Item>, q: seq<Item>, r: seq<Item>, sorted: seq<Item>)
    requires multiset(sorted) == multiset(a + q + r)
    ensures forall x :: x in sorted <==> x in a || x in q || x in r
    ensures forall x :: multiset(sorted)[x] == multiset(a)[x] + multiset(q)[x] + multiset(r)[x]
  {
    assert forall x :: x in sorted <==> x in multiset(sorted);
    assert forall x :: x in a + q + r <==> x in multiset(a + q + r);
  }

  lemma MergedUnstarted(c: Config, s: State, q: seq<Item>, sorted: seq<Item>)
    requires |s.workers| == c.noOfWorkers > 0 && ThreeReads(c, s, q)
    requires SortedById(sorted) && multiset(sorted) == multiset(s.gen.waiting + q + s.gen.retry)
    ensures Unstarted(s.jobs, sorted)
    ensures forall x :: x in sorted <==> x in s.gen.waiting || x in q || x in s.gen.retry
  {
    QueryUnstarted(s.jobs, Unprocessed, c.batch - |s.gen.retry| - |s.gen.waiting|, q);
    MergedMembers(s.gen.waiting, q, s.gen.retry, sorted);
    MergedOnce(s.jobs, s.gen.waiting, q, s.gen.retry, sorted);
    forall k | 0 <= k < |sorted|
      ensures sorted[k].id in s.jobs && Startable(s.jobs[sorted[k].id].state)
        && sorted[k] == Item(sorted[k].id, s.jobs[sorted[k].id].user, s.jobs[sorted[k].id].attempt, Queued)
    {
      assert sorted[k] in sorted;
    }
    forall j, k | 0 <= j < k < |sorted| ensures sorted[j].id < sorted[k].id {
      assert sorted[j] in sorted && sorted[k] in sorted;
      assert sorted[j] != sorted[k];
    }
  }

  /** The three lists hold jobs in different states, so no job turns up twice. */
  lemma MergedOnce(jobs: map<JobID, Row>, a: seq<Item>, q: seq<Item>, r: seq<Item>, sorted: seq<Item>)
    requires Unstarted(jobs, a) && AllIn(jobs, a, Waiting)
    requires Unstarted(jobs, q) && AllIn(jobs, q, Unprocessed)
    requires Unstarted(jobs, r) && AllIn(jobs, r, Failed)
    requires multiset(sorted) == multiset(a + q + r)
    ensures forall j, k :: 0 <= j < k < |sorted| ==> sorted[j] != sorted[k]
  {
    MergedMembers(a, q, r, sorted);
    forall j, k | 0 <= j < k < |sorted| ensures sorted[j] != sorted[k] {
      var x := sorted[j];
      if x == sorted[k] {
        CountTwice(sorted, j, k);
      }
      CountOnce(a, x);
      CountOnce(q, x);
      CountOnce(r, x);
      assert x in a ==> x !in q && x !in r;
      assert x in q ==> x !in r;
    }
  }

  /** Nothing of a user without a chosen job is in flight unless it is marked executing. */
  lemma NotInFlight(c: Config, s: State, u: User, i: JobID)
    requires Placed(c, s) && InvFor(c, s, u) && !s.gen.Deciding?
    requires Mine(s.jobs, u, i) && s.jobs[i].state != Executing
    ensures !In(Flow(c, s, u), i)
  {
    FlowChosen(c, s, u);
    forall k | 0 <= k < |Flow(c, s, u)| ensures Flow(c, s, u)[k].id != i {
      assert Outgoing(s.gen) == [] || s.gen.Sending?;
    }
  }

  /** A failed job of an unblocked user is left over from a restart. */
  lemma FailedIsLeft(c: Config, s: State, i: JobID)
    requires Placed(c, s) && Unblocked(c, s, i) && InvFor(c, s, s.jobs[i].user) && !s.gen.Deciding?
    requires s.jobs[i].state == Failed
    ensures forall j :: Mine(s.jobs, s.jobs[i].user, j) && s.jobs[j].state == Waiting ==> i < j
  {
    var u := s.jobs[i].user;
    NotInFlight(c, s, u, i);
    assert Left(s.jobs, u, Flow(c, s, u), None, i);
    forall j | Mine(s.jobs, u, j) && s.jobs[j].state == Waiting ensures i < j {
      NotInFlight(c, s, u, j);
    }
  }

  /** A job that can be started and was not read comes after every job of its user that was. */
  lemma NotRead(c: Config, s: State, q: seq<Item>, x: Item, i: JobID)
    requires Inv(c, s) && ThreeReads(c, s, q) && (x in s.gen.waiting || x in q || x in s.gen.retry)
    requires Unblocked(c, s, i) && Unblocked(c, s, x.id) && s.jobs[i].user == s.jobs[x.id].user
    requires Startable(s.jobs[i].state) && !In(s.gen.waiting, i) && !In(q, i) && !In(s.gen.retry, i)
    requires s.jobs[x.id].state ==
      if x in s.gen.waiting then Waiting else if x in q then Unprocessed else Failed
    ensures x.id < i
  {
    hide ClearListOK, HistoryOK, InLine, UserInv, FirstN, Flow;
    var u := s.jobs[i].user;
    QueryUnstarted(s.jobs, Unprocessed, c.batch - |s.gen.retry| - |s.gen.waiting|, q);
    assert InvFor(c, s, u);
    if s.jobs[i].state == Unprocessed {
      if x !in q {
        NotInFlight(c, s, u, i);
        UntouchedAfter(c, s, u, x.id, i);
      }
    } else if s.jobs[i].state == Waiting && s.jobs[x.id].state == Failed {
      FailedIsLeft(c, s, x.id);
      assert Mine(s.jobs, u, i);
    }
  }

  lemma UntouchedAfter(c: Config, s: State, u: User, j: JobID, i: JobID)
    requires |s.workers| == c.noOfWorkers > 0 && InvFor(c, s, u) && Mine(s.jobs, u, i) && Mine(s.jobs, u, j)
    requires s.jobs[i].state == Unprocessed && !In(Flow(c, s, u), i) && s.jobs[j].state != Unprocessed
    ensures j < i
  {
    hide Flow, Agree, Completed, DoneFirst, TriesLeft, LeftFirst, LeftFew, Stage;
    assert Fresh(s.jobs, u, Flow(c, s, u), i) && Touched(s.jobs, u, Flow(c, s, u), j);
  }

  lemma MergedInLine(c: Config, s: State, q: seq<Item>, sorted: seq<Item>)
    requires Inv(c, s) && ThreeReads(c, s, q)
    requires SortedById(sorted) && multiset(sorted) == multiset(s.gen.waiting + q + s.gen.retry)
    ensures InLine(c, s, sorted, [])
  {
    hide ClearListOK, HistoryOK, InvFor, SortedById, WorkerOK, Known, Reports;
    MergedUnstarted(c, s, q, sorted);
    forall k, i | 0 <= k < |sorted| && Unblocked(c, s, i) && s.jobs[i].user == sorted[k].user
        && Startable(s.jobs[i].state) && i < sorted[k].id
      ensures In(sorted, i)
    {
      assert sorted[k] in sorted && Unblocked(c, s, sorted[k].id);
      if In(s.gen.waiting, i) {
        var j :| 0 <= j < |s.gen.waiting| && s.gen.waiting[j].id == i;
        FoundIn(s.gen.waiting, sorted, j);
      } else if In(q, i) {
        var j :| 0 <= j < |q| && q[j].id == i;
        FoundIn(q, sorted, j);
      } else if In(s.gen.retry, i) {
        var j :| 0 <= j < |s.gen.retry| && s.gen.retry[j].id == i;
        FoundIn(s.gen.retry, sorted, j);
      } else {
        ReadState(c, s, q, sorted[k]);
        NotRead(c, s, q, sorted[k], i);
      }
    }
  }

  lemma ReadState(c: Config, s: State, q: seq<Item>, x: Item)
    requires |s.workers| == c.noOfWorkers > 0 && ThreeReads(c, s, q)
    requires x in s.gen.waiting || x in q || x in s.gen.retry
    ensures x.id in s.jobs
    ensures s.jobs[x.id].state == if x in s.gen.waiting then Waiting else if x in q then Unprocessed else Failed
  {
    hide Placed, FirstN;
    QueryUnstarted(s.jobs, Unprocessed, c.batch - |s.gen.retry| - |s.gen.waiting|, q);
  }

  lemma FoundIn(q: seq<Item>, sorted: seq<Item>, j: int)
    requires 0 <= j < |q| && forall x :: x in q ==> x in sorted
    ensures In(sorted, q[j].id)
  {
    assert q[j] in sorted;
    var k :| 0 <= k < |sorted| && sorted[k] == q[j];
  }

  lemma ReadUnprocessedKeeps(c: Config, s: State, q: seq<Item>, sorted: seq<Item>)
    requires Inv(c, s) && Enabled(c, s, ReadUnprocessed(q, sorted))
    ensures Inv(c, Do(c, s, ReadUnprocessed(q, sorted)))
  {
    MergedUnstarted(c, s, q, sorted);
    MergedInLine(c, s, q, sorted);
    ReadUsers(c, s, if sorted == [] then Top else Deciding(sorted, []));
  }

  // ---------- deciding ----------

  /** The job under decision is not in flight, and for an unblocked user nothing before it is left out. */
  lemma NextInLine(c: Config, s: State)
    requires Inv(c, s) && s.gen.Deciding? && s.gen.todo != []
    ensures var job := s.gen.todo[0];
      var f := Flow(c, s, job.user);
      && Mine(s.jobs, job.user, job.id) && Startable(s.jobs[job.id].state) && job.attempt == s.jobs[job.id].attempt
      && !In(f, job.id)
      && (BlockOf(c, s, job.user) == None ==>
        forall i :: Mine(s.jobs, job.user, i) && Startable(s.jobs[i].state) && i < job.id ==> In(f, i))
  {
    var job := s.gen.todo[0];
    var u, f := job.user, Flow(c, s, job.user);
    FlowChosen(c, s, u);
    assert InvFor(c, s, u);
    forall k | 0 <= k < |f| ensures f[k].id != job.id {
      if f[k].tag == Chosen {
        var j :| 0 <= j < |s.gen.chosen| && s.gen.chosen[j] == f[k];
        assert In(s.gen.chosen, f[k].id);
      }
    }
    if BlockOf(c, s, u) == None {
      forall i | Mine(s.jobs, u, i) && Startable(s.jobs[i].state) && i < job.id ensures In(f, i) {
        assert Unblocked(c, s, i);
        assert !In(s.gen.todo, i);
        ChosenInFlow(c, s, i);
      }
    }
  }

  lemma OneMore(v: User, q: seq<Item>, x: Item)
    ensures Of(v, q + [x]) == if v == x.user then Of(v, q) + [x] else Of(v, q)
  {
    OfAppend(v, q, [x]);
    assert Of(v, [x]) == if v == x.user then [x] else [];
  }

  lemma OutgoingGrows(c: Config, s: State, s': State, v: User, x: Item)
    requires |s.workers| == c.noOfWorkers > 0
    requires s'.buf == s.buf && s'.respQ == s.respQ && s'.workers == s.workers
    requires Outgoing(s'.gen) == Outgoing(s.gen) + [x]
    ensures Flow(c, s', v) == if v == x.user then Flow(c, s, v) + [x] else Flow(c, s, v)
  {
    OneMore(v, Outgoing(s.gen), x);
    var worker := s.workers[WorkerOf(c, v)];
    var before := Of(v, s.buf) + Of(v, s.respQ) + Of(v, Current(worker.phase)) + Of(v, worker.channel);
    var o := Of(v, Outgoing(s.gen));
    assert before + (o + [x]) == before + o + [x];
  }

  lemma DecideFlow(c: Config, s: State, v: User)
    requires Placed(c, s) && s.gen.Deciding? && s.gen.todo != []
    ensures var job := s.gen.todo[0];
      Flow(c, Do(c, s, Decide), v) ==
        if Passes(c, s, job) && v == job.user then Flow(c, s, v) + [job.(tag := Chosen)] else Flow(c, s, v)
  {
    hide Of, WorkerOK, Known, Tagged, Reports;
    if Passes(c, s, s.gen.todo[0]) {
      OutgoingGrows(c, s, Do(c, s, Decide), v, s.gen.todo[0].(tag := Chosen));
    }
  }

  lemma DecideUsers(c: Config, s: State)
    requires Inv(c, s) && s.gen.Deciding? && s.gen.todo != []
    ensures forall v :: InvFor(c, Do(c, s, Decide), v)
  {
    var s', job := Do(c, s, Decide), s.gen.todo[0];
    ClearListUnmoved(c, s, s');
    NextInLine(c, s);
    forall v ensures InvFor(c, s', v) {
      DecideFlow(c, s, v);
      assert BlockOf(c, s', v) == BlockOf(c, s, v);
      assert InvFor(c, s, v);
      if v == job.user && Passes(c, s, job) {
        if BlockOf(c, s, v) == None {
          PickedNext(s.jobs, s.completed, v, Flow(c, s, v), job.(tag := Chosen), c.maxFailed);
        } else {
          PickedBlocker(s.jobs, s.completed, v, Flow(c, s, v), job.(tag := Chosen), ClearPending(c, s, v), c.maxFailed);
        }
      } else {
        InvForSame(c, s, s', v);
      }
    }
  }

  lemma DecideGenerator(c: Config, s: State)
    requires Inv(c, s) && s.gen.Deciding? && s.gen.todo != []
    ensures GeneratorOK(c, Do(c, s, Decide))
  {
    var s', job := Do(c, s, Decide), s.gen.todo[0];
    var todo, todo', chosen, chosen' := s.gen.todo, s'.gen.todo, s.gen.chosen, s'.gen.chosen;
    forall k | 0 <= k < |todo'| ensures todo'[k] == todo[k + 1] {}
    Appended(chosen, job.(tag := Chosen));
    forall k | 0 <= k < |todo'| ensures !In(chosen', todo'[k].id) {
      assert !In(chosen, todo[k + 1].id);
    }
    forall k, i | 0 <= k < |todo'| && Unblocked(c, s', i) && s'.jobs[i].user == todo'[k].user
        && Startable(s'.jobs[i].state) && i < todo'[k].id && !In(chosen', i)
      ensures In(todo', i)
    {
      assert Unblocked(c, s, i) && In(todo, i);
      var j :| 0 <= j < |todo| && todo[j].id == i;
      if j > 0 {
        assert todo'[j - 1].id == i;
      }
    }
  }

  lemma DecideKeeps(c: Config, s: State)
    requires Inv(c, s) && Enabled(c, s, Action.Decide)
    ensures Inv(c, Do(c, s, Decide))
  {
    hide InvFor, GeneratorOK, WorkerOK;
    var s' := Do(c, s, Decide);
    NextInLine(c, s);
    DecideGenerator(c, s);
    DecideUsers(c, s);
    ClearListUnmoved(c, s, s');
  }

  // ---------- sending ----------

  lemma Regroup(a: seq<Item>, b: seq<Item>, x: seq<Item>, d: seq<Item>)
    ensures a + b + (x + d) == a + (b + x) + d
  {
  }

  lemma SendFlow(c: Config, s: State, u: User)
    requires Placed(c, s) && Enabled(c, s, Send)
    ensures Flow(c, Do(c, s, Send), u) == Flow(c, s, u)
  {
    hide Placed, Of;
    var s', x, rest := Do(c, s, Send), s.gen.out[0], s.gen.out[1..];
    assert s.gen.out == [x] + rest;
    OfAppend(u, [x], rest);
    var worker, worker' := s.workers[WorkerOf(c, u)], s'.workers[WorkerOf(c, u)];
    var before := Of(u, s.buf) + Of(u, s.respQ) + Of(u, Current(worker.phase));
    Regroup(before, Of(u, worker.channel), Of(u, [x]), Of(u, rest));
    if WorkerOf(c, u) == WorkerOf(c, x.user) {
      OfAppend(u, worker.channel, [x]);
    } else {
      OfNone(u, [x]);
      assert Of(u, worker.channel) + [] == Of(u, worker.channel);
    }
  }

  lemma SendPlaced(c: Config, s: State)
    requires Placed(c, s) && Enabled(c, s, Send)
    ensures Placed(c, Do(c, s, Send))
  {
  }

  lemma SendKeeps(c: Config, s: State)
    requires Inv(c, s) && Enabled(c, s, Send)
    ensures Inv(c, Do(c, s, Send))
  {
    var s' := Do(c, s, Send);
    SendPlaced(c, s);
    assert forall u :: BlockOf(c, s', u) == BlockOf(c, s, u);
    ClearListUnmoved(c, s, s');
    forall u ensures InvFor(c, s', u) {
      SendFlow(c, s, u);
      InvForSame(c, s, s', u);
    }
  }

  lemma LoopKeeps(c: Config, s: State)
    requires Inv(c, s) && Enabled(c, s, Loop)
    ensures Inv(c, Do(c, s, Loop))
  {
    ReadUsers(c, s, Top);
  }
}
