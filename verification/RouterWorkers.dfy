/** Every step of a worker keeps the protocol's invariant. */
module RouterWorkers {
  import opened Common
  import opened Router
  import opened RouterUser
  import opened RouterInvariant

  // ---------- carrying a job along ----------

  ghost predicate Moves(op: WorkerOp, worker: Worker) {
    op.Take? || op.Post? || op.Answer? ||
    (op.Check? && worker.phase.Taken? &&
     !(var b := Get(worker.failed, worker.phase.job.user); b.Some? && b.value < worker.phase.job.id))
  }

  /** Receiving, passing the gate, posting and answering only carry a job along. */
  lemma MoveFlow(c: Config, s: State, w: int, op: WorkerOp, u: User)
    requires Placed(c, s) && 0 <= w < |s.workers| && WorkerReady(s.workers[w], op) && Moves(op, s.workers[w])
    ensures Flow(c, Do(c, s, Work(w, op)), u) == Flow(c, s, u)
  {
    if op.Take? {
      TakeFlow(c, s, w, u);
    } else if op.Answer? {
      AnswerFlow(c, s, w, u);
    } else {
      var s' := Do(c, s, Work(w, op));
      assert s'.respQ == s.respQ;
      assert Current(s'.workers[w].phase) == Current(s.workers[w].phase);
      assert s'.workers[w].channel == s.workers[w].channel;
    }
  }

  lemma TakeFlow(c: Config, s: State, w: int, u: User)
    requires Placed(c, s) && 0 <= w < |s.workers| && WorkerReady(s.workers[w], Take)
    ensures Flow(c, Do(c, s, Work(w, Take)), u) == Flow(c, s, u)
  {
    var worker, s' := s.workers[w], Do(c, s, Work(w, Take));
    assert s'.respQ == s.respQ;
    if WorkerOf(c, u) == w {
      assert worker.channel == [worker.channel[0]] + worker.channel[1..];
      OfAppend(u, [worker.channel[0]], worker.channel[1..]);
      var before, o := Of(u, s.buf) + Of(u, s.respQ), Of(u, Outgoing(s.gen));
      var x, r := Of(u, [worker.channel[0]]), Of(u, worker.channel[1..]);
      assert Flow(c, s, u) == before + [] + (x + r) + o;
      assert Flow(c, s', u) == before + x + r + o;
    }
  }

  lemma AnswerFlow(c: Config, s: State, w: int, u: User)
    requires Placed(c, s) && 0 <= w < |s.workers| && WorkerReady(s.workers[w], Answer)
    ensures Flow(c, Do(c, s, Work(w, Answer)), u) == Flow(c, s, u)
  {
    var worker, s' := s.workers[w], Do(c, s, Work(w, Answer));
    OfAppend(u, s.respQ, [worker.phase.resp]);
    if WorkerOf(c, u) == w {
      var b, q, x := Of(u, s.buf), Of(u, s.respQ), Of(u, [worker.phase.resp]);
      assert Flow(c, s, u) == b + q + x + Of(u, worker.channel) + Of(u, Outgoing(s.gen));
      assert Flow(c, s', u) == b + (q + x) + [] + Of(u, worker.channel) + Of(u, Outgoing(s.gen));
    } else {
      assert AtHome(c, Current(worker.phase), w);
      assert Current(worker.phase)[0] == worker.phase.resp;
      OfNone(u, [worker.phase.resp]);
    }
  }

  lemma MovePlaced(c: Config, s: State, w: int, op: WorkerOp)
    requires Placed(c, s) && 0 <= w < |s.workers| && WorkerReady(s.workers[w], op) && Moves(op, s.workers[w])
    requires op.Check? ==> var b := Get(s.workers[w].failed, s.workers[w].phase.job.user); b.Some? ==>
      b.value >= s.workers[w].phase.job.id ==> b.value == s.workers[w].phase.job.id
    ensures Placed(c, Do(c, s, Work(w, op)))
  {
  }

  /** Nobody has a job in hand that lies before the user's blocking one, so a job of a blocked user that the gate lets
      through is the blocking one itself, and every other job of that user is sent back to waiting. */
  lemma GateAssertion(c: Config, s: State, w: int)
    requires Inv(c, s) && 0 <= w < |s.workers| && s.workers[w].phase.Taken?
    ensures var b := Get(s.workers[w].failed, s.workers[w].phase.job.user);
      b.Some? ==> b.value <= s.workers[w].phase.job.id
    ensures var worker, job := s.workers[w], s.workers[w].phase.job;
      var next, b := WorkerStep(c, worker, Check).phase, Get(worker.failed, job.user);
      && (next == Checked(job, b) <==> b.Some? ==> b.value == job.id)
      && (next == Answering(job.(tag := Answered(Waiting))) <==> b.Some? && b.value != job.id)
  {
    var job := s.workers[w].phase.job;
    JobInHand(c, s, w, job);
    assert InvFor(c, s, job.user);
    assert In(Flow(c, s, job.user), job.id) && Open(s.jobs, job.user, job.id);
  }

  lemma MoveUsers(c: Config, s: State, w: int, op: WorkerOp)
    requires Placed(c, s) && ClearListOK(c, s) && 0 <= w < |s.workers| && WorkerReady(s.workers[w], op)
    requires Moves(op, s.workers[w])
    requires forall u :: InvFor(c, s, u)
    ensures forall u :: InvFor(c, Do(c, s, Work(w, op)), u)
    ensures ClearListOK(c, Do(c, s, Work(w, op)))
  {
    var s' := Do(c, s, Work(w, op));
    assert s'.completed == s.completed;
    ClearListUnmoved(c, s, s');
    forall u ensures InvFor(c, s', u) {
      MoveFlow(c, s, w, op, u);
      assert BlockOf(c, s', u) == BlockOf(c, s, u);
      InvForSame(c, s, s', u);
    }
  }

  lemma MoveKeeps(c: Config, s: State, w: int, op: WorkerOp)
    requires Inv(c, s) && 0 <= w < |s.workers| && WorkerReady(s.workers[w], op) && Moves(op, s.workers[w])
    ensures Inv(c, Do(c, s, Work(w, op)))
  {
    var s' := Do(c, s, Work(w, op));
    if op.Check? {
      GateAssertion(c, s, w);
    }
    MovePlaced(c, s, w, op);
    GeneratorUnmoved(c, s, s');
    MoveUsers(c, s, w, op);
  }

  // ---------- workers deciding an outcome ----------

  ghost predicate Retags(worker: Worker, op: WorkerOp) {
    op.Succeed? || op.Block? || op.Switch? || (op.Check? && !Moves(op, worker))
  }

  /** The job a deciding worker has in hand, as the flow shows it. */
  ghost function InHandItem(worker: Worker): Item
    requires |Current(worker.phase)| == 1
  {
    Current(worker.phase)[0]
  }

  lemma RetagPlaced(c: Config, s: State, w: int, op: WorkerOp)
    requires Placed(c, s) && 0 <= w < |s.workers| && WorkerReady(s.workers[w], op) && Retags(s.workers[w], op)
    requires op.Block? && s.workers[w].phase.prev.Some? ==> s.workers[w].phase.prev.value == s.workers[w].phase.job.id
    ensures Placed(c, Do(c, s, Work(w, op)))
    ensures Do(c, s, Work(w, op)).respQ == s.respQ
  {
    var worker, s' := s.workers[w], Do(c, s, Work(w, op));
    assert WorkerOK(c, s.jobs, worker, w);
    assert s'.respQ == s.respQ;
    assert Current(worker.phase)[0].id == Current(s'.workers[w].phase)[0].id;
    assert Current(worker.phase)[0].user == Current(s'.workers[w].phase)[0].user;
    assert WorkerOK(c, s'.jobs, s'.workers[w], w);
  }

  lemma RetagFlow(c: Config, s: State, w: int, op: WorkerOp)
    requires Placed(c, s) && 0 <= w < |s.workers| && WorkerReady(s.workers[w], op) && Retags(s.workers[w], op)
    ensures var u := s.workers[w].phase.job.user;
      var f, h := Flow(c, s, u), Head(s, u);
      var worker' := WorkerStep(c, s.workers[w], op);
      && WorkerOf(c, u) == w && InHand(f, h) && f[h] == InHandItem(s.workers[w])
      && |Current(worker'.phase)| == 1 && Flow(c, Do(c, s, Work(w, op)), u) == f[h := InHandItem(worker')]
  {
    var worker, s' := s.workers[w], Do(c, s, Work(w, op));
    assert WorkerOK(c, s.jobs, worker, w);
    JobInHand(c, s, w, InHandItem(worker));
    assert s'.respQ == s.respQ;
    PhaseReplaced(c, s, w, s'.workers[w], s', worker.phase.job.user);
  }

  lemma RetagBlock(c: Config, s: State, w: int, op: WorkerOp)
    requires |s.workers| == c.noOfWorkers > 0
    requires 0 <= w < |s.workers| && WorkerReady(s.workers[w], op) && Retags(s.workers[w], op) && PhaseOK(s.workers[w])
    requires WorkerOf(c, s.workers[w].phase.job.user) == w
    ensures var u := s.workers[w].phase.job.user;
      BlockOf(c, Do(c, s, Work(w, op)), u) == if op.Block? then Some(s.workers[w].phase.job.id) else BlockOf(c, s, u)
  {
  }

  /** A worker's decision, on the view of the user alone. */
  lemma DecideUser(c: Config, jobs: map<JobID, Row>, completed: seq<JobID>, u: User, f: seq<Item>, b: Option<JobID>,
                   clearing: bool, h: int, worker: Worker, op: WorkerOp)
    requires WorkerReady(worker, op) && Retags(worker, op) && PhaseOK(worker) && c.maxFailed >= 1
    requires worker.phase.job.user == u && Get(worker.failed, u) == b
    requires UserInv(jobs, completed, u, f, b, clearing, c.maxFailed) && InHand(f, h) && f[h] == InHandItem(worker)
    ensures UserInv(jobs, completed + Completes(c, worker, op), u, f[h := InHandItem(WorkerStep(c, worker, op))],
                    if op.Block? then Some(worker.phase.job.id) else b, clearing, c.maxFailed)
  {
    hide UserInv, Agree;
    assert completed + [] == completed;
    match op {
      case Check => SentToWait(jobs, completed, u, f, b.value, clearing, h, c.maxFailed);
      case Succeed => Delivered(jobs, completed, u, f, b, clearing, h, c.maxFailed);
      case Block => Blocked(jobs, completed, u, f, b, clearing, h, c.maxFailed);
      case Switch => Switched(jobs, completed, u, f, clearing, h, Router.Outcome(c, worker, worker.phase.job),
          c.maxFailed);
    }
  }

  /** Setting a block changes nothing about clearing. */
  /** A worker that decides an outcome may block its user, and that user was not about to be cleared. */
  lemma NewBlock(c: Config, s: State, w: int, op: WorkerOp, v: User)
    requires Inv(c, s) && 0 <= w < |s.workers| && WorkerReady(s.workers[w], op) && Retags(s.workers[w], op)
    requires BlockOf(c, Do(c, s, Work(w, op)), v) != BlockOf(c, s, v)
    ensures v == s.workers[w].phase.job.user && BlockOf(c, s, v) == None
    ensures BlockOf(c, Do(c, s, Work(w, op)), v) == Some(s.workers[w].phase.job.id)
    ensures var id := s.workers[w].phase.job.id; id in s.jobs && s.jobs[id].state == Executing
  {
    hide GeneratorOK, ClearListOK, HistoryOK, Stage, Completed, UntouchedLast, TriesLeft;
    var worker := s.workers[w];
    assert WorkerOK(c, s.jobs, worker, w);
    JobInHand(c, s, w, InHandItem(worker));
    assert InvFor(c, s, worker.phase.job.user);
  }

  lemma RetagUnmoved(c: Config, s: State, w: int, op: WorkerOp)
    requires Inv(c, s) && 0 <= w < |s.workers| && WorkerReady(s.workers[w], op) && Retags(s.workers[w], op)
    ensures var s' := Do(c, s, Work(w, op));
      && s'.scan == s.scan && s'.toClear == s.toClear && s'.jobs == s.jobs && |s'.workers| == |s.workers|
      && forall u :: BlockOf(c, s, u).Some? ==> BlockOf(c, s', u) == BlockOf(c, s, u)
  {
    hide GeneratorOK, ClearListOK, HistoryOK, InvFor;
    assert WorkerOK(c, s.jobs, s.workers[w], w);
  }

  lemma RetagClearPending(c: Config, s: State, w: int, op: WorkerOp)
    requires Inv(c, s) && 0 <= w < |s.workers| && WorkerReady(s.workers[w], op) && Retags(s.workers[w], op)
    ensures ClearListOK(c, Do(c, s, Work(w, op)))
    ensures forall v :: ClearPending(c, Do(c, s, Work(w, op)), v) == ClearPending(c, s, v)
  {
    hide GeneratorOK, HistoryOK, InvFor, WorkerOK;
    var s' := Do(c, s, Work(w, op));
    RetagUnmoved(c, s, w, op);
    ClearListUnmoved(c, s, s');
    forall v ensures ClearPending(c, s', v) == ClearPending(c, s, v) {
      if BlockOf(c, s', v) != BlockOf(c, s, v) {
        NewBlock(c, s, w, op, v);
        assert !ClearPending(c, s', v);
      }
    }
  }

  lemma RetagHistory(c: Config, s: State, w: int, op: WorkerOp)
    requires Inv(c, s) && 0 <= w < |s.workers| && WorkerReady(s.workers[w], op) && Retags(s.workers[w], op)
    ensures HistoryOK(Do(c, s, Work(w, op)))
    ensures forall i :: i in s.jobs && s.jobs[i].user != s.workers[w].phase.job.user ==>
      (i in Do(c, s, Work(w, op)).completed <==> i in s.completed)
  {
    hide Of, Flow, SetStates, GeneratorOK, ClearListOK, Stage, Agree, UntouchedLast, TriesLeft;
    var worker, s' := s.workers[w], Do(c, s, Work(w, op));
    var job, u := worker.phase.job, worker.phase.job.user;
    assert WorkerOK(c, s.jobs, worker, w);
    JobInHand(c, s, w, InHandItem(worker));
    assert Mine(s.jobs, u, job.id) by { assert Current(worker.phase)[0].id == job.id; }
    if s'.completed != s.completed {
      assert s'.completed == s.completed + [job.id];
      assert InvFor(c, s, u);
      EarlierCompleted(s.jobs, s.completed, u, Flow(c, s, u), BlockOf(c, s, u), ClearPending(c, s, u), Head(s, u),
          c.maxFailed);
      forall j | 0 <= j < |s.completed| && s.jobs[s.completed[j]].user == u ensures s.completed[j] < job.id {
        assert s.completed[j] in s.completed;
      }
    }
  }

  /** The invariant of the user whose job is decided. */
  lemma RetagUser(c: Config, s: State, w: int, op: WorkerOp)
    requires Inv(c, s) && 0 <= w < |s.workers| && WorkerReady(s.workers[w], op) && Retags(s.workers[w], op)
    ensures var u := s.workers[w].phase.job.user;
      UserInv(s.jobs, s.completed + Completes(c, s.workers[w], op), u, Flow(c, Do(c, s, Work(w, op)), u),
              BlockOf(c, Do(c, s, Work(w, op)), u), ClearPending(c, s, u), c.maxFailed)
  {
    var worker := s.workers[w];
    var u := worker.phase.job.user;
    assert PhaseOK(worker) by { assert WorkerOK(c, s.jobs, worker, w); }
    RetagFlow(c, s, w, op);
    RetagBlock(c, s, w, op);
    var f, h, b, clearing := Flow(c, s, u), Head(s, u), BlockOf(c, s, u), ClearPending(c, s, u);
    assert UserInv(s.jobs, s.completed, u, f, b, clearing, c.maxFailed) by { assert InvFor(c, s, u); }
    DecideUser(c, s.jobs, s.completed, u, f, b, clearing, h, worker, op);
  }

  lemma RetagOther(c: Config, s: State, w: int, op: WorkerOp, v: User)
    requires Inv(c, s) && 0 <= w < |s.workers| && WorkerReady(s.workers[w], op) && Retags(s.workers[w], op)
    requires v != s.workers[w].phase.job.user
    ensures UserInv(s.jobs, s.completed + Completes(c, s.workers[w], op), v, Flow(c, Do(c, s, Work(w, op)), v),
                    BlockOf(c, Do(c, s, Work(w, op)), v), ClearPending(c, s, v), c.maxFailed)
  {
    hide Of, Flow, SetStates, GeneratorOK, ClearListOK, Stage, Agree, UntouchedLast, TriesLeft;
    var worker, s' := s.workers[w], Do(c, s, Work(w, op));
    assert WorkerOK(c, s.jobs, worker, w);
    assert s'.respQ == s.respQ;
    RetagHistory(c, s, w, op);
    PhaseReplaced(c, s, w, s'.workers[w], s', v);
    assert BlockOf(c, s', v) == BlockOf(c, s, v);
    assert InvFor(c, s, v);
    RouterUser.Untouched(s.jobs, s.completed, v, Flow(c, s, v), BlockOf(c, s, v), ClearPending(c, s, v), s.jobs,
        s'.completed, c.maxFailed);
  }

  lemma RetagUsers(c: Config, s: State, w: int, op: WorkerOp)
    requires Inv(c, s) && 0 <= w < |s.workers| && WorkerReady(s.workers[w], op) && Retags(s.workers[w], op)
    ensures forall v :: InvFor(c, Do(c, s, Work(w, op)), v)
  {
    RetagClearPending(c, s, w, op);
    forall v ensures InvFor(c, Do(c, s, Work(w, op)), v) {
      if v == s.workers[w].phase.job.user {
        RetagUser(c, s, w, op);
      } else {
        RetagOther(c, s, w, op, v);
      }
    }
  }

  lemma RetagKeeps(c: Config, s: State, w: int, op: WorkerOp)
    requires Inv(c, s) && 0 <= w < |s.workers| && WorkerReady(s.workers[w], op) && Retags(s.workers[w], op)
    ensures Inv(c, Do(c, s, Work(w, op)))
  {
    var s' := Do(c, s, Work(w, op));
    assert WorkerOK(c, s.jobs, s.workers[w], w);
    RetagPlaced(c, s, w, op);
    GeneratorUnmoved(c, s, s');
    RetagClearPending(c, s, w, op);
    RetagHistory(c, s, w, op);
    RetagUsers(c, s, w, op);
  }
}
