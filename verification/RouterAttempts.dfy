/** How often a job is tried: over whole runs its attempt counts the refused posts that were held against it, and it is
    given up at exactly the one that comes after as many as are allowed. */
module RouterAttempts {
  import opened Common
  import opened Router
  import opened RouterUser
  import opened RouterInvariant
  import RouterGenerator
  import RouterStatus

  // ---------- what happens to a job in a run ----------

  /** A refused post of job i is decided while at most five users are blocked at its worker. */
  ghost predicate Refuses(s: State, a: Action, i: JobID) {
    && a.Work? && a.op.Switch? && 0 <= a.w < |s.workers|
    && s.workers[a.w].phase.Switching? && s.workers[a.w].phase.job.id == i && |s.workers[a.w].failed| <= 5
  }

  /** The worker that has decided about job i gives it up. */
  ghost predicate GivesUp(s: State, a: Action, s': State, i: JobID) {
    && a.Work? && a.op.Switch? && 0 <= a.w < |s.workers| && a.w < |s'.workers|
    && s.workers[a.w].phase.Switching? && s.workers[a.w].phase.job.id == i
    && s'.workers[a.w].phase.Answering? && s'.workers[a.w].phase.resp.tag == Answered(Aborted)
  }

  ghost function Refusals(c: Config, s: State, acts: seq<Action>, i: JobID): nat
    requires Run(c, s, acts)
    decreases |acts|
  {
    if acts == [] then 0
    else (if Refuses(s, acts[0], i) then 1 else 0) + Refusals(c, Do(c, s, acts[0]), acts[1..], i)
  }

  ghost function GivenUps(c: Config, s: State, acts: seq<Action>, i: JobID): nat
    requires Run(c, s, acts)
    decreases |acts|
  {
    if acts == [] then 0
    else
      (if GivesUp(s, acts[0], Do(c, s, acts[0]), i) then 1 else 0) + GivenUps(c, Do(c, s, acts[0]), acts[1..], i)
  }

  /** The attempt a job starts with; a job stored later starts with 0. */
  ghost function TriedBefore(s: State, i: JobID): int {
    if i in s.jobs then s.jobs[i].attempt else 0
  }

  /** How many refusals a job tried k times already survives. */
  ghost function TriesLeftAfter(c: Config, k: int): nat {
    if k < c.maxFailed then c.maxFailed - k else 0
  }

  // ---------- where a job is ----------

  ghost function Num(i: JobID, q: seq<Item>): nat {
    if q == [] then 0 else (if q[0].id == i then 1 else 0) + Num(i, q[1..])
  }

  lemma {:induction false} NumAppend(i: JobID, a: seq<Item>, b: seq<Item>)
    ensures Num(i, a + b) == Num(i, a) + Num(i, b)
    decreases |a|
  {
    if a == [] {
      assert a + b == b;
    } else {
      NumAppend(i, a[1..], b);
      assert (a + b)[1..] == a[1..] + b;
    }
  }

  lemma {:induction false} NumFound(i: JobID, q: seq<Item>)
    ensures Num(i, q) == 0 <==> !In(q, i)
    decreases |q|
  {
    if q != [] {
      NumFound(i, q[1..]);
      if k :| 0 <= k < |q| && q[k].id == i {
        assert k > 0 ==> q[1..][k - 1].id == i;
      }
      if k :| 0 <= k < |q[1..]| && q[1..][k].id == i {
        assert q[k + 1].id == i;
      }
      assert q[0].id == i ==> In(q, i);
    }
  }

  /** Jobs whose ids ascend are there once. */
  lemma {:induction false} NumIncreasing(i: JobID, q: seq<Item>)
    requires Increasing(q)
    ensures Num(i, q) <= 1
    decreases |q|
  {
    if q != [] {
      NumIncreasing(i, q[1..]);
      NumFound(i, q[1..]);
      forall k | 0 <= k < |q[1..]| ensures q[1..][k].id > q[0].id {
        assert q[k + 1].id > q[0].id;
      }
    }
  }

  lemma Removed<T>(b: seq<T>, k: int)
    requires 0 <= k < |b|
    ensures multiset(b) == multiset(b[..k] + b[k + 1..]) + multiset{b[k]}
  {
    assert b == b[..k] + ([b[k]] + b[k + 1..]);
    assert multiset([b[k]] + b[k + 1..]) == multiset{b[k]} + multiset(b[k + 1..]);
  }

  lemma NumRemoved(i: JobID, b: seq<Item>, k: int)
    requires 0 <= k < |b|
    ensures Num(i, b) == Num(i, b[..k] + b[k + 1..]) + if b[k].id == i then 1 else 0
  {
    assert b == b[..k] + ([b[k]] + b[k + 1..]);
    NumAppend(i, b[..k], [b[k]] + b[k + 1..]);
    NumAppend(i, b[..k], b[k + 1..]);
    assert ([b[k]] + b[k + 1..])[1..] == b[k + 1..];
  }

  lemma BothWithout<T>(a: seq<T>, b: seq<T>, k: int)
    requires multiset(a) == multiset(b) && a != [] && 0 <= k < |b| && b[k] == a[0]
    ensures multiset(a[..0] + a[1..]) == multiset(b[..k] + b[k + 1..])
  {
    Removed(a, 0);
    Removed(b, k);
    LessOne(multiset(a[..0] + a[1..]), multiset(b[..k] + b[k + 1..]), a[0]);
  }

  lemma LessOne<T>(m: multiset<T>, n: multiset<T>, x: T)
    requires m + multiset{x} == n + multiset{x}
    ensures m == n
  {
    assert (m + multiset{x}) - multiset{x} == m;
    assert (n + multiset{x}) - multiset{x} == n;
  }

  lemma {:induction false} NumPermuted(i: JobID, a: seq<Item>, b: seq<Item>)
    requires multiset(a) == multiset(b)
    ensures Num(i, a) == Num(i, b)
    decreases |a|
  {
    hide Num;
    if a == [] {
      assert |multiset(a)| == |multiset(b)|;
      assert b == a;
    } else {
      assert a[0] in multiset(b);
      var k :| 0 <= k < |b| && b[k] == a[0];
      BothWithout(a, b, k);
      assert |a[..0] + a[1..]| == |a| - 1;
      NumPermuted(i, a[..0] + a[1..], b[..k] + b[k + 1..]);
      NumRemoved(i, a, 0);
      NumRemoved(i, b, k);
    }
  }

  lemma NumNone(i: JobID)
    ensures Num(i, []) == 0
  {
  }

  lemma NumRetag(i: JobID, q: seq<Item>)
    ensures Num(i, Retag(q)) == Num(i, q)
    decreases |q|
  {
    if q != [] {
      NumRetag(i, q[1..]);
      assert Retag(q)[1..] == Retag(q[1..]);
    }
  }

  // ---------- the invariant ----------

  /** What the generator has read and not marked executing. */
  ghost function ReadItems(g: Generator): seq<Item> {
    match g
    case HaveRetry(retry) => retry
    case HaveWaiting(retry, waiting) => retry + waiting
    case Deciding(todo, chosen) => chosen + todo
    case _ => []
  }

  /** What it has marked executing and not sent. */
  ghost function SentItems(g: Generator): seq<Item> {
    if g.Sending? then g.out else []
  }

  ghost predicate Settles(q: seq<Item>) {
    forall k :: 0 <= k < |q| ==> q[k].tag.Answered? && q[k].tag.state != Executing
  }

  ghost predicate Undecided(q: seq<Item>) {
    forall k :: 0 <= k < |q| ==> !q[k].tag.Answered?
  }

  ghost predicate Homed(c: Config, jobs: map<JobID, Row>, worker: Worker, w: int)
    requires c.noOfWorkers > 0
  {
    && Known(jobs, worker.channel) && AtHome(c, worker.channel, w)
    && Known(jobs, Current(worker.phase)) && AtHome(c, Current(worker.phase), w)
    && Undecided(worker.channel)
    && if worker.phase.Answering? then Settles([worker.phase.resp]) else Undecided(Current(worker.phase))
  }

  /** Every item anywhere is a job of its user, at the worker of that user. */
  ghost predicate Base(c: Config, s: State) {
    && |s.workers| == c.noOfWorkers > 0
    && Known(s.jobs, s.buf) && Settles(s.buf) && Known(s.jobs, s.respQ) && Settles(s.respQ)
    && Known(s.jobs, ReadItems(s.gen)) && Known(s.jobs, SentItems(s.gen)) && Undecided(SentItems(s.gen))
    && (forall w :: 0 <= w < |s.workers| ==> Homed(c, s.jobs, s.workers[w], w))
    && (forall i :: i in s.jobs ==> i < s.nextID)
  }

  ghost function HomeOf(c: Config, s: State, i: JobID): Worker
    requires |s.workers| == c.noOfWorkers > 0 && i in s.jobs
  {
    s.workers[WorkerOf(c, s.jobs[i].user)]
  }

  /** How many items of job i are under way. */
  ghost function Under(c: Config, s: State, i: JobID): nat
    requires |s.workers| == c.noOfWorkers > 0 && i in s.jobs
  {
    var worker := HomeOf(c, s, i);
    Num(i, s.buf) + Num(i, s.respQ) + Num(i, Current(worker.phase)) + Num(i, worker.channel) + Num(i, SentItems(s.gen))
  }

  /** An item in one of these places. */
  ghost predicate InPlace(c: Config, s: State, i: JobID, x: Item)
    requires |s.workers| == c.noOfWorkers > 0 && i in s.jobs
  {
    var worker := HomeOf(c, s, i);
    x in s.buf || x in s.respQ || x in Current(worker.phase) || x in worker.channel || x in SentItems(s.gen)
  }

  ghost predicate StatesRead(s: State, i: JobID)
    requires i in s.jobs
  {
    match s.gen
    case HaveRetry(retry) => In(retry, i) ==> s.jobs[i].state == Failed
    case HaveWaiting(retry, waiting) =>
      (In(retry, i) ==> s.jobs[i].state == Failed) && (In(waiting, i) ==> s.jobs[i].state == Waiting)
    case _ => true
  }

  /** Job i is executing exactly while it is under way, once; wherever it is its attempt is n; and if it has been given
      up that is what is or will be written. */
  ghost predicate Tells(c: Config, s: State, i: JobID, n: int, up: bool)
    requires |s.workers| == c.noOfWorkers > 0
  {
    && i in s.jobs
    && var worker, row := HomeOf(c, s, i), s.jobs[i];
    && Under(c, s, i) + Num(i, ReadItems(s.gen)) <= 1
    && (Under(c, s, i) == 1 <==> row.state == Executing)
    && (Num(i, ReadItems(s.gen)) == 1 ==> Startable(row.state)) && StatesRead(s, i)
    && (forall x: Item :: x.id == i && (InPlace(c, s, i, x) || x in ReadItems(s.gen)) ==> x.attempt == n)
    && (row.state != Executing ==> row.attempt == n)
    && (up ==>
      if row.state == Executing then forall x: Item :: x.id == i && InPlace(c, s, i, x) ==> x.tag == Answered(Aborted)
      else row.state == Aborted)
  }

  ghost predicate Told(c: Config, s: State, i: JobID, n: int, up: bool)
    requires |s.workers| == c.noOfWorkers > 0
  {
    if i in s.jobs then Tells(c, s, i, n, up) else n == 0 && !up
  }

  // ---------- the invariant at the start ----------

  /** Where runs start: fresh, or after crashRecover. */
  ghost predicate AtRest(c: Config, s: State) {
    c.noOfWorkers > 0 && NothingUnderWay(c, s) && forall i :: i in s.jobs ==> s.jobs[i].state != Executing
  }

  lemma RestartsAtRest(c: Config, s: State)
    requires ValidConfig(c) && (Init(c, s) || Restarted(c, s))
    ensures AtRest(c, s)
  {
  }

  lemma RestTells(c: Config, s: State, i: JobID)
    requires AtRest(c, s)
    ensures Base(c, s) && Told(c, s, i, TriedBefore(s, i), false)
  {
    forall w | 0 <= w < |s.workers| ensures Homed(c, s.jobs, s.workers[w], w) {
      assert s.workers[w] == Worker([], Idle, map[]);
    }
    if i in s.jobs {
      assert HomeOf(c, s, i) == Worker([], Idle, map[]);
    }
  }

  // ---------- places ----------

  /** An item of job i is at the worker of its user. */
  lemma OnlyAtHome(c: Config, s: State, i: JobID, w: int)
    requires Base(c, s) && i in s.jobs && 0 <= w < |s.workers| && w != WorkerOf(c, s.jobs[i].user)
    ensures !In(Current(s.workers[w].phase), i) && !In(s.workers[w].channel, i)
  {
    assert Homed(c, s.jobs, s.workers[w], w);
  }

  lemma {:induction false} WrittenRow(jobs: map<JobID, Row>, q: seq<Item>, i: JobID)
    requires i in jobs
    ensures i in SetStates(jobs, q) && SetStates(jobs, q)[i].user == jobs[i].user
    ensures Num(i, q) == 0 ==> SetStates(jobs, q)[i] == jobs[i]
    ensures Num(i, q) == 1 ==> exists k ::
      0 <= k < |q| && q[k].id == i
      && SetStates(jobs, q)[i] == jobs[i].(state := StateOf(q[k].tag), attempt := q[k].attempt)
    decreases |q|
  {
    if q != [] {
      var jobs' := if q[0].id !in jobs then jobs
                   else jobs[q[0].id := jobs[q[0].id].(state := StateOf(q[0].tag), attempt := q[0].attempt)];
      WrittenRow(jobs', q[1..], i);
      if Num(i, q) == 1 {
        if q[0].id != i {
          var k :| 0 <= k < |q[1..]| && q[1..][k].id == i
            && SetStates(jobs', q[1..])[i] == jobs'[i].(state := StateOf(q[1..][k].tag), attempt := q[1..][k].attempt);
          assert q[k + 1] == q[1..][k];
        } else {
          assert q[0].id == i;
        }
      }
    }
  }

  /** What a step tells about job i. */
  ghost predicate StepTold(c: Config, s: State, a: Action, i: JobID, n: int, up: bool)
    requires |s.workers| == c.noOfWorkers > 0 && Enabled(c, s, a)
  {
    var s' := Do(c, s, a);
    && |s'.workers| == c.noOfWorkers
    && (Refuses(s, a, i) ==> !up && (GivesUp(s, a, s', i) <==> n >= c.maxFailed))
    && (GivesUp(s, a, s', i) ==> Refuses(s, a, i))
    && Told(c, s', i, if Refuses(s, a, i) && !GivesUp(s, a, s', i) then n + 1 else n, up || GivesUp(s, a, s', i))
  }

  // ---------- steps of workers ----------

  lemma WorkBase(c: Config, s: State, w: int, op: WorkerOp)
    requires Base(c, s) && 0 <= w < |s.workers| && WorkerReady(s.workers[w], op)
    ensures Base(c, Do(c, s, Work(w, op)))
  {
    var s' := Do(c, s, Work(w, op));
    assert Homed(c, s.jobs, s.workers[w], w);
    var worker, worker' := s.workers[w], s'.workers[w];
    if op.Take? {
      assert worker.channel[0] == Current(worker'.phase)[0];
    } else if !op.Answer? {
      assert Current(worker.phase)[0].id == Current(worker'.phase)[0].id;
      assert Current(worker.phase)[0].user == Current(worker'.phase)[0].user;
    } else {
      assert Current(worker.phase)[0] == worker.phase.resp == [worker.phase.resp][0];
    }
    assert Homed(c, s'.jobs, worker', w);
    forall v | 0 <= v < |s'.workers| ensures Homed(c, s'.jobs, s'.workers[v], v) {
      assert Homed(c, s.jobs, s.workers[v], v);
    }
  }

  /** Another worker's steps do not concern job i. */
  lemma AwayTells(c: Config, s: State, w: int, op: WorkerOp, i: JobID, n: int, up: bool)
    requires Base(c, s) && 0 <= w < |s.workers| && WorkerReady(s.workers[w], op) && Tells(c, s, i, n, up)
    requires w != WorkerOf(c, s.jobs[i].user)
    ensures Tells(c, Do(c, s, Work(w, op)), i, n, up)
  {
    var s' := Do(c, s, Work(w, op));
    OnlyAtHome(c, s, i, w);
    NumAppend(i, s.respQ, Sends(s.workers[w], op));
    if op.Answer? {
      assert Current(s.workers[w].phase)[0].id != i;
      assert Num(i, [s.workers[w].phase.resp]) == 0;
    }
    assert Under(c, s', i) == Under(c, s, i);
  }

  lemma TakeTells(c: Config, s: State, i: JobID, n: int, up: bool)
    requires Base(c, s) && Tells(c, s, i, n, up) && WorkerReady(HomeOf(c, s, i), Take)
    ensures Tells(c, Do(c, s, Work(WorkerOf(c, s.jobs[i].user), Take)), i, n, up)
  {
    var w := WorkerOf(c, s.jobs[i].user);
    var worker, s' := s.workers[w], Do(c, s, Work(w, Take));
    assert worker.channel == [worker.channel[0]] + worker.channel[1..];
    NumAppend(i, [worker.channel[0]], worker.channel[1..]);
    assert s'.respQ == s.respQ;
    assert Under(c, s', i) == Under(c, s, i);
    assert forall x :: InPlace(c, s', i, x) <==> InPlace(c, s, i, x);
  }

  lemma AnswerTells(c: Config, s: State, i: JobID, n: int, up: bool)
    requires Base(c, s) && Tells(c, s, i, n, up) && WorkerReady(HomeOf(c, s, i), Answer)
    ensures Tells(c, Do(c, s, Work(WorkerOf(c, s.jobs[i].user), Answer)), i, n, up)
  {
    var w := WorkerOf(c, s.jobs[i].user);
    var worker, s' := s.workers[w], Do(c, s, Work(w, Answer));
    NumAppend(i, s.respQ, [worker.phase.resp]);
    assert Under(c, s', i) == Under(c, s, i);
    assert forall x :: InPlace(c, s', i, x) <==> InPlace(c, s, i, x);
  }

  ghost predicate Decides(op: WorkerOp) {
    !op.Take? && !op.Answer?
  }

  /** What a decision does to the job in hand. */
  lemma DecidedItem(c: Config, worker: Worker, op: WorkerOp) returns (y: Item, y': Item)
    requires WorkerReady(worker, op) && Decides(op)
    ensures var worker' := WorkerStep(c, worker, op);
      && worker'.channel == worker.channel && Sends(worker, op) == []
      && Current(worker.phase) == [y] && Current(worker'.phase) == [y']
      && y'.id == y.id && (op.Switch? ==> y.id == worker.phase.job.id)
      && (y'.tag == Answered(Aborted) ==> op.Switch? || y.tag.Answered?)
      && (!op.Switch? ==> y'.attempt == y.attempt)
      && (op.Switch? ==>
        && worker'.phase == Answering(y') && (y'.tag == Answered(Aborted) ==> |worker.failed| <= 5)
        && (|worker.failed| <= 5 ==> (y'.tag == Answered(Aborted) <==> y.attempt >= c.maxFailed))
        && y'.attempt == if |worker.failed| <= 5 && y'.tag != Answered(Aborted) then y.attempt + 1 else y.attempt)
  {
    y, y' := Current(worker.phase)[0], Current(WorkerStep(c, worker, op).phase)[0];
  }

  /** A decision about the job in hand. */
  lemma DecisionTells(c: Config, s: State, op: WorkerOp, i: JobID, n: int, up: bool)
    requires Base(c, s) && Tells(c, s, i, n, up) && WorkerReady(HomeOf(c, s, i), op) && Decides(op)
    ensures StepTold(c, s, Work(WorkerOf(c, s.jobs[i].user), op), i, n, up)
  {
    hide WorkerStep, Sends, Completes, Router.Outcome;
    var w := WorkerOf(c, s.jobs[i].user);
    var a := Work(w, op);
    var worker, s' := s.workers[w], Do(c, s, a);
    var y, y' := DecidedItem(c, worker, op);
    assert Homed(c, s.jobs, worker, w) && Current(worker.phase)[0] == y;
    assert s'.respQ == s.respQ && s'.workers[w] == WorkerStep(c, worker, op);
    assert Num(i, [y]) == Num(i, [y']);
    assert Under(c, s', i) == Under(c, s, i);
    if y.id == i {
      assert InPlace(c, s, i, y);
      OnlyOne(c, s, i, y);
      forall x: Item | x.id == i && InPlace(c, s', i, x) ensures x == y' {
        NowhereElse(c, s', i, x, y');
      }
      assert Refuses(s, a, i) ==> !up && (GivesUp(s, a, s', i) <==> n >= c.maxFailed);
      assert GivesUp(s, a, s', i) ==> Refuses(s, a, i);
      NumFound(i, ReadItems(s.gen));
    } else {
      forall x: Item | x.id == i ensures InPlace(c, s', i, x) <==> InPlace(c, s, i, x) {
      }
      assert !Refuses(s, a, i) && !GivesUp(s, a, s', i);
    }
  }

  lemma NowhereElse(c: Config, s: State, i: JobID, x: Item, y: Item)
    requires |s.workers| == c.noOfWorkers > 0 && i in s.jobs && x.id == i && InPlace(c, s, i, x)
    requires Current(HomeOf(c, s, i).phase) == [y]
    requires !In(s.buf, i) && !In(s.respQ, i) && !In(HomeOf(c, s, i).channel, i) && !In(SentItems(s.gen), i)
    ensures x == y
  {
  }

  /** The job in hand is nowhere else. */
  lemma OnlyOne(c: Config, s: State, i: JobID, y: Item)
    requires |s.workers| == c.noOfWorkers > 0 && i in s.jobs && Under(c, s, i) <= 1
    requires Current(HomeOf(c, s, i).phase) == [y] && y.id == i
    ensures !In(s.buf, i) && !In(s.respQ, i) && !In(HomeOf(c, s, i).channel, i) && !In(SentItems(s.gen), i)
  {
    assert Num(i, [y]) == 1;
    NumFound(i, s.buf);
    NumFound(i, s.respQ);
    NumFound(i, HomeOf(c, s, i).channel);
    NumFound(i, SentItems(s.gen));
  }

  // ---------- steps of the generator ----------

  lemma StoreTells(c: Config, s: State, user: User, i: JobID, n: int, up: bool)
    requires Base(c, s) && Told(c, s, i, n, up)
    ensures Base(c, Do(c, s, Store(user))) && Told(c, Do(c, s, Store(user)), i, n, up)
  {
    var s' := Do(c, s, Store(user));
    forall w | 0 <= w < |s.workers| ensures Homed(c, s'.jobs, s'.workers[w], w) {
      assert Homed(c, s.jobs, s.workers[w], w);
    }
    if i in s.jobs {
      assert Under(c, s', i) == Under(c, s, i);
      assert forall x :: InPlace(c, s', i, x) <==> InPlace(c, s, i, x);
    } else if i in s'.jobs {
      NoItems(c, s, s', i);
    }
  }

  /** A job that is not in the store is nowhere else. */
  lemma NoItems(c: Config, s: State, s': State, i: JobID)
    requires Base(c, s) && i !in s.jobs && |s'.workers| == c.noOfWorkers && i in s'.jobs
    requires s' == s.(jobs := s'.jobs, nextID := s'.nextID)
    ensures Under(c, s', i) == Num(i, ReadItems(s'.gen)) == 0
    ensures forall x: Item :: x.id == i ==> !InPlace(c, s', i, x) && x !in ReadItems(s'.gen)
    ensures StatesRead(s', i)
  {
    hide Num, Settles, Undecided;
    NumNone(i);
    var worker := HomeOf(c, s', i);
    assert Homed(c, s.jobs, worker, WorkerOf(c, s'.jobs[i].user));
    NumFound(i, s.buf);
    NumFound(i, s.respQ);
    NumFound(i, Current(worker.phase));
    NumFound(i, worker.channel);
    NumFound(i, SentItems(s.gen));
    NumFound(i, ReadItems(s.gen));
    match s.gen {
      case HaveRetry(retry) =>
      case HaveWaiting(retry, waiting) =>
        assert forall k :: 0 <= k < |retry| ==> ReadItems(s.gen)[k] == retry[k];
        assert forall k :: 0 <= k < |waiting| ==> ReadItems(s.gen)[|retry| + k] == waiting[k];
      case _ =>
    }
  }

  /** The generator has read other jobs, or the same in another order. */
  lemma ReadTells(c: Config, s: State, gen: Generator, i: JobID, n: int, up: bool)
    requires Base(c, s) && Told(c, s, i, n, up) && SentItems(s.gen) == SentItems(gen) == []
    requires Num(i, ReadItems(gen)) <= 1
    requires forall x :: x in ReadItems(gen) ==> x.id in s.jobs && x.user == s.jobs[x.id].user
    requires forall x :: x in ReadItems(gen) && x.id == i ==> x in ReadItems(s.gen) || ReadNow(s, x)
    requires i in s.jobs ==> StatesRead(s.(gen := gen), i)
    ensures Base(c, s.(gen := gen)) && Told(c, s.(gen := gen), i, n, up)
  {
    hide Homed, Num, Settles, Undecided;
    NumNone(i);
    var s' := s.(gen := gen);
    NumFound(i, ReadItems(gen));
    NumFound(i, ReadItems(s.gen));
    assert Known(s.jobs, ReadItems(gen)) by {
      forall k | 0 <= k < |ReadItems(gen)| ensures Mine(s.jobs, ReadItems(gen)[k].user, ReadItems(gen)[k].id) {
        assert ReadItems(gen)[k] in ReadItems(gen);
      }
    }
    if i in s.jobs {
      assert Under(c, s', i) == Under(c, s, i);
      assert forall x :: InPlace(c, s', i, x) <==> InPlace(c, s, i, x);
      if k :| 0 <= k < |ReadItems(gen)| && ReadItems(gen)[k].id == i {
        assert ReadItems(gen)[k] in ReadItems(gen);
        if ReadItems(gen)[k] in ReadItems(s.gen) {
          var j :| 0 <= j < |ReadItems(s.gen)| && ReadItems(s.gen)[j] == ReadItems(gen)[k];
          assert In(ReadItems(s.gen), i);
        }
      }
    }
  }

  ghost predicate ReadNow(s: State, x: Item) {
    x.id in s.jobs && Startable(s.jobs[x.id].state) && x.attempt == s.jobs[x.id].attempt
  }

  /** What a query returns. */
  lemma QueryNow(s: State, st: JobState, n: nat, q: seq<Item>, i: JobID)
    requires Query(s.jobs, st, n, q) && Startable(st)
    ensures Num(i, q) <= 1 && (In(q, i) ==> i in s.jobs && s.jobs[i].state == st)
    ensures forall x :: x in q ==> ReadNow(s, x) && x.user == s.jobs[x.id].user
  {
    RouterGenerator.QueryUnstarted(s.jobs, st, n, q);
    NumIncreasing(i, q);
  }

  lemma ReadRetryTells(c: Config, s: State, q: seq<Item>, i: JobID, n: int, up: bool)
    requires Base(c, s) && Told(c, s, i, n, up) && Enabled(c, s, ReadRetry(q))
    ensures Base(c, Do(c, s, ReadRetry(q))) && Told(c, Do(c, s, ReadRetry(q)), i, n, up)
  {
    QueryNow(s, Failed, c.batch, q, i);
    ReadTells(c, s, HaveRetry(q), i, n, up);
  }

  lemma ReadWaitingTells(c: Config, s: State, q: seq<Item>, i: JobID, n: int, up: bool)
    requires Base(c, s) && Told(c, s, i, n, up) && Enabled(c, s, ReadWaiting(q))
    ensures Base(c, Do(c, s, ReadWaiting(q))) && Told(c, Do(c, s, ReadWaiting(q)), i, n, up)
  {
    var retry := s.gen.retry;
    QueryNow(s, Waiting, c.batch - |retry|, q, i);
    NumAppend(i, retry, q);
    NumFound(i, retry);
    NumFound(i, q);
    KnownAll(s.jobs, retry);
    if i !in s.jobs {
      NotKnown(s.jobs, retry, i);
    }
    ReadTells(c, s, HaveWaiting(retry, q), i, n, up);
  }

  lemma NotKnown(jobs: map<JobID, Row>, q: seq<Item>, i: JobID)
    requires Known(jobs, q) && i !in jobs
    ensures !In(q, i) && Num(i, q) == 0
  {
    NumFound(i, q);
  }

  lemma KnownAll(jobs: map<JobID, Row>, q: seq<Item>)
    requires Known(jobs, q)
    ensures forall x :: x in q ==> x.id in jobs && x.user == jobs[x.id].user
  {
  }

  lemma NumMerged(i: JobID, waiting: seq<Item>, q: seq<Item>, retry: seq<Item>, sorted: seq<Item>)
    requires multiset(sorted) == multiset(waiting + q + retry)
    ensures Num(i, sorted) == Num(i, waiting) + Num(i, q) + Num(i, retry)
    ensures Num(i, retry + waiting) == Num(i, retry) + Num(i, waiting)
  {
    NumPermuted(i, sorted, waiting + q + retry);
    NumAppend(i, waiting + q, retry);
    NumAppend(i, waiting, q);
    NumAppend(i, retry, waiting);
  }

  /** The three reads hold jobs in different states. */
  lemma MergedOnce(c: Config, s: State, q: seq<Item>, sorted: seq<Item>, i: JobID, n: int, up: bool)
    requires Base(c, s) && Told(c, s, i, n, up) && Enabled(c, s, ReadUnprocessed(q, sorted))
    ensures Num(i, sorted) <= 1
  {
    hide Num, Query, SortedById, Homed, Under, InPlace;
    var retry, waiting := s.gen.retry, s.gen.waiting;
    QueryNow(s, Unprocessed, c.batch - |retry| - |waiting|, q, i);
    NumMerged(i, waiting, q, retry, sorted);
    NumFound(i, retry);
    NumFound(i, waiting);
    NumFound(i, q);
    if i !in s.jobs {
      NotKnown(s.jobs, retry + waiting, i);
    }
  }

  /** All that is merged has been read before or is read now. */
  lemma MergedNow(c: Config, s: State, q: seq<Item>, sorted: seq<Item>, i: JobID)
    requires Base(c, s) && Enabled(c, s, ReadUnprocessed(q, sorted))
    ensures forall x :: x in sorted ==> x.id in s.jobs && x.user == s.jobs[x.id].user
    ensures forall x :: x in sorted ==> x in ReadItems(s.gen) || ReadNow(s, x)
  {
    hide Query, SortedById, Homed;
    var retry, waiting := s.gen.retry, s.gen.waiting;
    QueryNow(s, Unprocessed, c.batch - |retry| - |waiting|, q, i);
    KnownAll(s.jobs, retry + waiting);
    forall x | x in sorted ensures x in retry + waiting || x in q {
      RouterGenerator.MergedMembers(waiting, q, retry, sorted);
    }
  }

  lemma ReadUnprocessedTells(c: Config, s: State, q: seq<Item>, sorted: seq<Item>, i: JobID, n: int, up: bool)
    requires Base(c, s) && Told(c, s, i, n, up) && Enabled(c, s, ReadUnprocessed(q, sorted))
    ensures Base(c, Do(c, s, ReadUnprocessed(q, sorted))) && Told(c, Do(c, s, ReadUnprocessed(q, sorted)), i, n, up)
  {
    hide Num, Query, SortedById, Base, Told, ReadNow;
    MergedOnce(c, s, q, sorted, i, n, up);
    MergedNow(c, s, q, sorted, i);
    var gen := if sorted == [] then Top else Deciding(sorted, []);
    assert ReadItems(gen) == sorted;
    ReadTells(c, s, gen, i, n, up);
  }

  lemma DecideTells(c: Config, s: State, i: JobID, n: int, up: bool)
    requires Base(c, s) && Told(c, s, i, n, up) && Enabled(c, s, Action.Decide)
    ensures Base(c, Do(c, s, Action.Decide)) && Told(c, Do(c, s, Action.Decide), i, n, up)
  {
    hide Homed;
    var x, rest, chosen := s.gen.todo[0], s.gen.todo[1..], s.gen.chosen;
    var gen := Do(c, s, Action.Decide).gen;
    assert s.gen.todo == [x] + rest;
    NumAppend(i, chosen, [x] + rest);
    NumAppend(i, [x], rest);
    NumAppend(i, chosen, [x.(tag := Chosen)]);
    NumAppend(i, chosen, rest);
    NumAppend(i, chosen + [x.(tag := Chosen)], rest);
    assert Num(i, [x]) == Num(i, [x.(tag := Chosen)]);
    assert x in ReadItems(s.gen);
    KnownAll(s.jobs, ReadItems(s.gen));
    NumFound(i, ReadItems(s.gen));
    if i !in s.jobs {
      NotKnown(s.jobs, ReadItems(s.gen), i);
    } else if x.id == i {
      assert In(ReadItems(s.gen), i) by { assert ReadItems(s.gen)[|chosen|] == x; }
    }
    ReadTells(c, s, gen, i, n, up);
  }

  /** Writing statuses keeps every job and its user. */
  lemma WrittenBase(c: Config, s: State, q: seq<Item>)
    requires Base(c, s)
    ensures Base(c, s.(jobs := SetStates(s.jobs, q)))
    ensures forall i :: i in SetStates(s.jobs, q) <==> i in s.jobs
    ensures forall i :: i in s.jobs ==> SetStates(s.jobs, q)[i].user == s.jobs[i].user
  {
    RouterStatus.SetStatesOthers(s.jobs, q);
    var s' := s.(jobs := SetStates(s.jobs, q));
    assert forall u, i :: Mine(s.jobs, u, i) ==> Mine(s'.jobs, u, i);
    forall w | 0 <= w < |s.workers| ensures Homed(c, s'.jobs, s'.workers[w], w) {
      assert Homed(c, s.jobs, s.workers[w], w);
    }
  }

  lemma MarkBase(c: Config, s: State)
    requires Base(c, s) && Enabled(c, s, Mark)
    ensures Base(c, Do(c, s, Mark))
  {
    hide Homed, SetStates;
    var q := Retag(s.gen.chosen);
    WrittenBase(c, s, q);
    forall k | 0 <= k < |q| ensures Mine(SetStates(s.jobs, q), q[k].user, q[k].id) {
      assert ReadItems(s.gen)[k] == s.gen.chosen[k];
    }
  }

  lemma MarkTells(c: Config, s: State, i: JobID, n: int, up: bool)
    requires Base(c, s) && Told(c, s, i, n, up) && Enabled(c, s, Mark)
    ensures Base(c, Do(c, s, Mark)) && Told(c, Do(c, s, Mark), i, n, up)
  {
    hide Homed, SetStates, Num, Settles;
    NumNone(i);
    var s', q := Do(c, s, Mark), Retag(s.gen.chosen);
    MarkBase(c, s);
    WrittenBase(c, s, q);
    if i in s.jobs {
      assert ReadItems(s.gen) == s.gen.chosen;
      NumRetag(i, s.gen.chosen);
      WrittenRow(s.jobs, q, i);
      NumFound(i, q);
      NumFound(i, s.gen.chosen);
      forall k | 0 <= k < |q| && q[k].id == i ensures q[k].attempt == n && q[k].tag == Queued {
        assert s.gen.chosen[k] in ReadItems(s.gen);
      }
      assert Under(c, s', i) == Under(c, s, i) + Num(i, q);
    }
  }

  lemma SendTells(c: Config, s: State, i: JobID, n: int, up: bool)
    requires Base(c, s) && Told(c, s, i, n, up) && Enabled(c, s, Send)
    ensures Base(c, Do(c, s, Send)) && Told(c, Do(c, s, Send), i, n, up)
  {
    hide Homed, Settles, Startable;
    var s', x, rest := Do(c, s, Send), s.gen.out[0], s.gen.out[1..];
    assert s.gen.out == [x] + rest;
    SendBase(c, s);
    if i in s.jobs {
      NumAppend(i, [x], rest);
      NumAppend(i, HomeOf(c, s, i).channel, [x]);
      assert Num(i, [x]) == if x.id == i then 1 else 0;
      assert Under(c, s', i) == Under(c, s, i);
      assert forall y: Item :: y.id == i && InPlace(c, s', i, y) ==> InPlace(c, s, i, y);
    }
  }

  lemma SendBase(c: Config, s: State)
    requires Base(c, s) && Enabled(c, s, Send)
    ensures Base(c, Do(c, s, Send))
  {
    var s' := Do(c, s, Send);
    forall w | 0 <= w < |s.workers| ensures Homed(c, s'.jobs, s'.workers[w], w) {
      assert Homed(c, s.jobs, s.workers[w], w);
    }
  }

  lemma ClearTells(c: Config, s: State, i: JobID, n: int, up: bool)
    requires Base(c, s) && Told(c, s, i, n, up) && Enabled(c, s, Clear)
    ensures Base(c, Do(c, s, Clear)) && Told(c, Do(c, s, Clear), i, n, up)
  {
    var s' := Do(c, s, Clear);
    forall w | 0 <= w < |s.workers| ensures Homed(c, s'.jobs, s'.workers[w], w) {
      assert Homed(c, s.jobs, s.workers[w], w);
    }
    if i in s.jobs {
      assert Under(c, s', i) == Under(c, s, i);
      assert forall x :: InPlace(c, s', i, x) <==> InPlace(c, s, i, x);
    }
  }

  lemma LoopTells(c: Config, s: State, i: JobID, n: int, up: bool)
    requires Base(c, s) && Told(c, s, i, n, up) && Enabled(c, s, Loop)
    ensures Base(c, Do(c, s, Loop)) && Told(c, Do(c, s, Loop), i, n, up)
  {
    ReadTells(c, s, Top, i, n, up);
  }

  // ---------- steps of the status loop ----------

  lemma ReceiveTells(c: Config, s: State, i: JobID, n: int, up: bool)
    requires Base(c, s) && Told(c, s, i, n, up) && Enabled(c, s, Receive)
    ensures Base(c, Do(c, s, Receive)) && Told(c, Do(c, s, Receive), i, n, up)
  {
    var s', x, rest := Do(c, s, Receive), s.respQ[0], s.respQ[1..];
    assert s.respQ == [x] + rest;
    if i in s.jobs {
      NumAppend(i, [x], rest);
      NumAppend(i, s.buf, [x]);
      assert Under(c, s', i) == Under(c, s, i);
      assert forall y :: InPlace(c, s', i, y) <==> InPlace(c, s, i, y);
    }
  }

  lemma FlushTells(c: Config, s: State, i: JobID, n: int, up: bool)
    requires Base(c, s) && Told(c, s, i, n, up) && Enabled(c, s, Flush)
    ensures Base(c, Do(c, s, Flush)) && Told(c, Do(c, s, Flush), i, n, up)
  {
    hide Homed, SetStates;
    var s' := Do(c, s, Flush);
    WrittenBase(c, s, s.buf);
    if i in s.jobs {
      WrittenRow(s.jobs, s.buf, i);
      NumFound(i, s.buf);
      assert Under(c, s', i) + Num(i, s.buf) == Under(c, s, i);
      assert forall x: Item :: x.id == i && InPlace(c, s', i, x) ==> InPlace(c, s, i, x);
      forall k | 0 <= k < |s.buf| && s.buf[k].id == i ensures InPlace(c, s, i, s.buf[k]) {}
    }
  }

  lemma ScanTells(c: Config, s: State, i: JobID, n: int, up: bool)
    requires Base(c, s) && Told(c, s, i, n, up) && Enabled(c, s, Scan)
    ensures Base(c, Do(c, s, Scan)) && Told(c, Do(c, s, Scan), i, n, up)
  {
    var s' := Do(c, s, Scan);
    if i in s.jobs {
      assert Under(c, s', i) == Under(c, s, i);
      assert forall x :: InPlace(c, s', i, x) <==> InPlace(c, s, i, x);
    }
  }

  // ---------- runs ----------

  lemma WorkTells(c: Config, s: State, w: int, op: WorkerOp, i: JobID, n: int, up: bool)
    requires Base(c, s) && Told(c, s, i, n, up) && Enabled(c, s, Work(w, op))
    ensures StepTold(c, s, Work(w, op), i, n, up)
  {
    hide WorkerStep, WorkerReady, Sends, Completes, Tells;
    assert Homed(c, s.jobs, s.workers[w], w);
    if i !in s.jobs {
      NotKnown(s.jobs, Current(s.workers[w].phase), i);
      NotInHand(s, w, op, i);
    } else if w != WorkerOf(c, s.jobs[i].user) {
      OnlyAtHome(c, s, i, w);
      NotInHand(s, w, op, i);
      AwayTells(c, s, w, op, i, n, up);
    } else if op.Take? {
      TakeTells(c, s, i, n, up);
    } else if op.Answer? {
      AnswerTells(c, s, i, n, up);
    } else {
      DecisionTells(c, s, op, i, n, up);
    }
  }

  lemma NotInHand(s: State, w: int, op: WorkerOp, i: JobID)
    requires 0 <= w < |s.workers| && !In(Current(s.workers[w].phase), i)
    ensures !Refuses(s, Work(w, op), i) && forall s' :: !GivesUp(s, Work(w, op), s', i)
  {
    if s.workers[w].phase.Switching? {
      assert Current(s.workers[w].phase)[0].id == s.workers[w].phase.job.id;
    }
  }

  lemma StepTells(c: Config, s: State, a: Action, i: JobID, n: int, up: bool)
    requires Base(c, s) && Told(c, s, i, n, up) && Enabled(c, s, a)
    ensures Base(c, Do(c, s, a)) && StepTold(c, s, a, i, n, up)
  {
    hide Base, Told, Enabled, Do;
    match a {
      case Store(user) => StoreTells(c, s, user, i, n, up);
      case Clear => ClearTells(c, s, i, n, up);
      case ReadRetry(q) => ReadRetryTells(c, s, q, i, n, up);
      case ReadWaiting(q) => ReadWaitingTells(c, s, q, i, n, up);
      case ReadUnprocessed(q, sorted) => ReadUnprocessedTells(c, s, q, sorted, i, n, up);
      case Decide => DecideTells(c, s, i, n, up);
      case Mark => MarkTells(c, s, i, n, up);
      case Send => SendTells(c, s, i, n, up);
      case Loop => LoopTells(c, s, i, n, up);
      case Work(w, op) =>
        WorkEnabled(c, s, w, op);
        WorkBase(c, s, w, op);
        WorkTells(c, s, w, op, i, n, up);
      case Receive => ReceiveTells(c, s, i, n, up);
      case Flush => FlushTells(c, s, i, n, up);
      case Scan => ScanTells(c, s, i, n, up);
    }
    WorkersStay(c, s, a);
  }

  lemma WorkEnabled(c: Config, s: State, w: int, op: WorkerOp)
    requires Enabled(c, s, Work(w, op))
    ensures 0 <= w < |s.workers| && WorkerReady(s.workers[w], op)
  {
  }

  lemma WorkersStay(c: Config, s: State, a: Action)
    requires Enabled(c, s, a)
    ensures |Do(c, s, a).workers| == c.noOfWorkers
  {
  }

  /** From a state in which job i has been tried n times, and given up or not. */
  lemma {:induction false} RunTells(c: Config, s: State, acts: seq<Action>, i: JobID, n: int, up: bool)
    requires Base(c, s) && Told(c, s, i, n, up) && Run(c, s, acts)
    ensures var t, r, g := Final(c, s, acts), Refusals(c, s, acts, i), GivenUps(c, s, acts, i);
      && Base(c, t) && Told(c, t, i, n + r - g, up || g > 0)
      && if up then r == g == 0
         else r <= TriesLeftAfter(c, n) + 1 && g == if r == TriesLeftAfter(c, n) + 1 then 1 else 0
    decreases |acts|
  {
    hide Base, Told, Enabled, Do, Refuses, GivesUp;
    if acts != [] {
      var a, s' := acts[0], Do(c, s, acts[0]);
      StepTells(c, s, a, i, n, up);
      var n' := if Refuses(s, a, i) && !GivesUp(s, a, s', i) then n + 1 else n;
      RunTells(c, s', acts[1..], i, n', up || GivesUp(s, a, s', i));
    }
  }

  // ---------- what is promised ----------

  /** An item marked executing and not written since: about to be sent, in a queue, at a worker or in the status
      buffer. */
  ghost predicate Marked(s: State, x: Item) {
    || x in s.buf || x in s.respQ || x in SentItems(s.gen)
    || exists w :: 0 <= w < |s.workers| && (x in Current(s.workers[w].phase) || x in s.workers[w].channel)
  }

  /** The same, or an item the generator has read. */
  ghost predicate UnderWay(s: State, x: Item) {
    Marked(s, x) || x in ReadItems(s.gen)
  }

  /** Over every run from a fresh start or a restart, with any limit: a job's attempt, in the store while it is not
      executing and with every item of it that is under way, is what it was at the start plus the refused posts of it
      that were decided with at most five users blocked at its worker and did not abort it. It is given up at the one
      of these refusals, counted from the start, that comes after all that the limit leaves it, at no other and never
      twice; refusals with more users blocked do not count. */
  lemma AttemptsTheorem(c: Config, s: State, acts: seq<Action>, i: JobID)
    requires AtRest(c, s) && Run(c, s, acts) && i in Final(c, s, acts).jobs
    ensures var t, r, g := Final(c, s, acts), Refusals(c, s, acts, i), GivenUps(c, s, acts, i);
      var left := TriesLeftAfter(c, TriedBefore(s, i));
      && (t.jobs[i].state != Executing ==> t.jobs[i].attempt == TriedBefore(s, i) + r - g)
      && (forall x: Item :: x.id == i && UnderWay(t, x) ==> x.attempt == TriedBefore(s, i) + r - g)
      && r <= left + 1 && g <= 1 && (g == 1 <==> r == left + 1)
  {
    RestTells(c, s, i);
    RunTells(c, s, acts, i, TriedBefore(s, i), false);
    var t := Final(c, s, acts);
    forall x: Item | x.id == i && UnderWay(t, x) ensures InPlace(c, t, i, x) || x in ReadItems(t.gen) {
      FoundAtHome(c, t, i, x);
    }
  }

  lemma FoundAtHome(c: Config, t: State, i: JobID, x: Item)
    requires Base(c, t) && i in t.jobs && x.id == i && UnderWay(t, x)
    ensures InPlace(c, t, i, x) || x in ReadItems(t.gen)
  {
    if Marked(t, x) {
      MarkedAtHome(c, t, i, x);
    }
  }

  /** In every run a job is executing in the store exactly while one item of it is marked and not written, and two such
      items are the same: no queue drops a job, and none gets it twice. */
  lemma ExecutingIff(c: Config, s: State, acts: seq<Action>, i: JobID)
    requires AtRest(c, s) && Run(c, s, acts) && i in Final(c, s, acts).jobs
    ensures var t := Final(c, s, acts);
      && (t.jobs[i].state == Executing <==> exists x: Item :: x.id == i && Marked(t, x))
      && forall x: Item, y: Item :: x.id == i && y.id == i && Marked(t, x) && Marked(t, y) ==> x == y
  {
    RestTells(c, s, i);
    RunTells(c, s, acts, i, TriedBefore(s, i), false);
    OnceMarked(c, Final(c, s, acts), i);
  }

  lemma OnceMarked(c: Config, t: State, i: JobID)
    requires Base(c, t) && i in t.jobs && Under(c, t, i) <= 1
    ensures Under(c, t, i) == 1 <==> exists x: Item :: x.id == i && Marked(t, x)
    ensures forall x: Item, y: Item :: x.id == i && y.id == i && Marked(t, x) && Marked(t, y) ==> x == y
  {
    var w, worker := WorkerOf(c, t.jobs[i].user), HomeOf(c, t, i);
    var parts := t.buf + t.respQ + Current(worker.phase) + worker.channel + SentItems(t.gen);
    NumAppend(i, t.buf + t.respQ + Current(worker.phase) + worker.channel, SentItems(t.gen));
    NumAppend(i, t.buf + t.respQ + Current(worker.phase), worker.channel);
    NumAppend(i, t.buf + t.respQ, Current(worker.phase));
    NumAppend(i, t.buf, t.respQ);
    assert Num(i, parts) == Under(c, t, i);
    forall x: Item | x.id == i && Marked(t, x) ensures x in parts {
      MarkedAtHome(c, t, i, x);
    }
    NumFound(i, parts);
    if k :| 0 <= k < |parts| && parts[k].id == i {
      assert w < |t.workers| && Marked(t, parts[k]);
    }
    forall x: Item, y: Item | x.id == i && y.id == i && x in parts && y in parts ensures x == y {
      NumOne(i, parts, x, y);
    }
  }

  lemma MarkedAtHome(c: Config, t: State, i: JobID, x: Item)
    requires Base(c, t) && i in t.jobs && x.id == i && Marked(t, x)
    ensures InPlace(c, t, i, x)
  {
    if w :| 0 <= w < |t.workers| && (x in Current(t.workers[w].phase) || x in t.workers[w].channel) {
      if w != WorkerOf(c, t.jobs[i].user) {
        OnlyAtHome(c, t, i, w);
      }
    }
  }

  lemma {:induction false} NumOne(i: JobID, q: seq<Item>, x: Item, y: Item)
    requires Num(i, q) <= 1 && x in q && y in q && x.id == y.id == i
    ensures x == y
    decreases |q|
  {
    NumFound(i, q[1..]);
    assert q == [q[0]] + q[1..];
    if q[0].id == i {
      assert forall z :: z in q[1..] ==> z.id != i;
    } else {
      NumOne(i, q[1..], x, y);
    }
  }

  /** A refused post decided with at most five users blocked gives the job up, which completes it, exactly when the
      refusals held against it before have used up its attempts; otherwise it fails and its attempt is one more. With
      more users blocked it fails and its attempt stays. */
  lemma DecidedIff(c: Config, s: State, acts: seq<Action>, w: int)
    requires AtRest(c, s) && Run(c, s, acts)
    requires 0 <= w < |Final(c, s, acts).workers| && Final(c, s, acts).workers[w].phase.Switching?
    ensures Enabled(c, Final(c, s, acts), Work(w, Switch))
    ensures var t := Final(c, s, acts);
      var t', job := Do(c, t, Work(w, Switch)), t.workers[w].phase.job;
      var n := TriedBefore(s, job.id) + Refusals(c, s, acts, job.id) - GivenUps(c, s, acts, job.id);
      var few := |t.workers[w].failed| <= 5;
      && t'.workers[w].phase.Answering?
      && var resp := t'.workers[w].phase.resp;
      && resp.id == job.id && resp.user == job.user
      && (few && n >= c.maxFailed ==>
        resp.tag == Answered(Aborted) && resp.attempt == n && t'.completed == t.completed + [job.id])
      && (!(few && n >= c.maxFailed) ==>
        resp.tag == Answered(Failed) && resp.attempt == (if few then n + 1 else n) && t'.completed == t.completed)
  {
    hide Refusals, GivenUps, Run, Final, Told;
    var t := Final(c, s, acts);
    var i := t.workers[w].phase.job.id;
    RestTells(c, s, i);
    RunTells(c, s, acts, i, TriedBefore(s, i), false);
    InHandTells(c, t, w, TriedBefore(s, i) + Refusals(c, s, acts, i) - GivenUps(c, s, acts, i),
        GivenUps(c, s, acts, i) > 0);
    assert t.completed + [] == t.completed;
  }

  lemma InHandTells(c: Config, t: State, w: int, n: int, up: bool)
    requires Base(c, t) && 0 <= w < |t.workers| && t.workers[w].phase.Switching?
    requires Told(c, t, t.workers[w].phase.job.id, n, up)
    ensures t.workers[w].phase.job.id in t.jobs && t.workers[w].phase.job.attempt == n
  {
    var job := t.workers[w].phase.job;
    var x := Current(t.workers[w].phase)[0];
    assert Homed(c, t.jobs, t.workers[w], w);
    FoundAtHome(c, t, job.id, x);
  }

  /** A job that has never been tried is given up after exactly maxFailed + 1 such refusals. */
  lemma GivenUpAfter(c: Config, s: State, acts: seq<Action>, i: JobID)
    requires AtRest(c, s) && Run(c, s, acts) && i in Final(c, s, acts).jobs
    requires TriedBefore(s, i) == 0 && c.maxFailed >= 0
    ensures Refusals(c, s, acts, i) <= c.maxFailed + 1
    ensures GivenUps(c, s, acts, i) == 1 <==> Refusals(c, s, acts, i) == c.maxFailed + 1
  {
    AttemptsTheorem(c, s, acts, i);
  }
}
