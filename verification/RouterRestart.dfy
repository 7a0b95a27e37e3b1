/** What a crash leaves, and restarts that cannot be resumed: runs in which a later job of a user overtakes an earlier
    one, because a batch of the generator is full before it comes to the earlier one. */
module RouterRestart {
  import opened Common
  import opened Router
  import opened RouterOrder
  import RouterStatus
  import RouterUser
  import RouterInvariant

  // ---------- after a crash ----------

  ghost function StillDone(q: seq<JobID>, jobs: map<JobID, Row>): seq<JobID> {
    if q == [] then []
    else if q[0] in jobs && Done(jobs[q[0]].state) then [q[0]] + StillDone(q[1..], jobs) else StillDone(q[1..], jobs)
  }

  /** Memory is gone, outcomes not written are lost, and crashRecover turns what was executing into failed. */
  ghost function Crashed(c: Config, s: State): State
    requires c.noOfWorkers > 0
  {
    State(map i | i in s.jobs :: if s.jobs[i].state == Executing then s.jobs[i].(state := Failed) else s.jobs[i],
        s.nextID, Top, Workers(c, Worker([], Idle, map[])), [], [], [], [], StillDone(s.completed, s.jobs))
  }

  lemma {:induction false} StillDoneHas(q: seq<JobID>, jobs: map<JobID, Row>)
    ensures forall i :: i in StillDone(q, jobs) <==> i in q && i in jobs && Done(jobs[i].state)
  {
    if q != [] {
      StillDoneHas(q[1..], jobs);
    }
  }

  ghost predicate SameUser(jobs: map<JobID, Row>, i: JobID, j: JobID) {
    i in jobs && j in jobs && jobs[i].user == jobs[j].user
  }

  ghost predicate Ascends(q: seq<JobID>, jobs: map<JobID, Row>) {
    forall i, j :: 0 <= i < j < |q| && SameUser(jobs, q[i], q[j]) ==> q[i] < q[j]
  }

  lemma {:induction false} StillDoneAscends(q: seq<JobID>, jobs: map<JobID, Row>)
    requires Ascends(q, jobs)
    ensures Ascends(StillDone(q, jobs), jobs)
  {
    if q != [] {
      var rest, d := q[1..], StillDone(q[1..], jobs);
      forall i, j | 0 <= i < j < |rest| && SameUser(jobs, rest[i], rest[j]) ensures rest[i] < rest[j] {
        assert q[i + 1] == rest[i] && q[j + 1] == rest[j];
      }
      StillDoneAscends(rest, jobs);
      StillDoneHas(rest, jobs);
      forall k | 0 <= k < |d| && SameUser(jobs, q[0], d[k]) ensures q[0] < d[k] {
        assert d[k] in d;
        var j :| 0 <= j < |rest| && rest[j] == d[k];
        assert q[j + 1] == d[k];
      }
    }
  }

  lemma CrashedState(c: Config, s: State)
    requires RouterInvariant.Inv(c, s)
    ensures Restarted(c, Crashed(c, s))
  {
    hide RouterInvariant.GeneratorOK, RouterInvariant.ClearListOK, RouterInvariant.WorkerOK, RouterInvariant.Known;
    hide RouterInvariant.InvFor, RouterInvariant.Reports, RouterInvariant.Tagged;
    var t := Crashed(c, s);
    assert Ascends(s.completed, s.jobs);
    StillDoneHas(s.completed, s.jobs);
    StillDoneAscends(s.completed, s.jobs);
    forall i | i in s.jobs ensures Done(s.jobs[i].state) ==> i in s.completed {
      UserDone(c, s, s.jobs[i].user);
      assert RouterUser.Mine(s.jobs, s.jobs[i].user, i);
    }
    forall k | 0 <= k < |t.completed| ensures t.completed[k] in t.jobs {
      assert t.completed[k] in t.completed;
    }
    forall i, j | Precedes(t.jobs, i, j) && Done(t.jobs[j].state) ensures Done(t.jobs[i].state) {
      UserDone(c, s, s.jobs[i].user);
      assert RouterUser.Mine(s.jobs, s.jobs[i].user, j);
      assert !RouterUser.Open(s.jobs, s.jobs[i].user, i);
    }
  }

  lemma UserDone(c: Config, s: State, u: User)
    requires RouterInvariant.Inv(c, s)
    ensures RouterUser.DoneFirst(s.jobs, u)
    ensures forall i :: RouterUser.Mine(s.jobs, u, i) && Done(s.jobs[i].state) ==> i in s.completed
  {
    hide RouterInvariant.GeneratorOK, RouterInvariant.ClearListOK, RouterInvariant.HistoryOK;
    hide RouterInvariant.WorkerOK, RouterInvariant.Known, RouterInvariant.Reports, RouterInvariant.Tagged;
    hide RouterUser.Agree, RouterUser.Stage, RouterUser.TriesLeft, RouterUser.LeftFirst, RouterUser.LeftFew;
    assert RouterInvariant.InvFor(c, s, u);
  }

  /** Wherever a run is cut off by a crash, what crashRecover leaves is a restart: nothing is under way, and for every
      user what is done comes before what is not. */
  lemma CrashRestarts(c: Config, s: State, acts: seq<Action>)
    requires ValidConfig(c) && c.maxFailed >= 1 && Resumable(c, s, c.maxFailed) && Run(c, s, acts)
    ensures Restarted(c, Crashed(c, Final(c, s, acts)))
    ensures var t, u := Final(c, s, acts), Crashed(c, Final(c, s, acts));
      && (forall i :: i in u.jobs <==> i in t.jobs) && u.nextID == t.nextID
      && (forall i :: i in t.jobs ==>
        && u.jobs[i].user == t.jobs[i].user && u.jobs[i].attempt == t.jobs[i].attempt
        && u.jobs[i].state == if t.jobs[i].state == Executing then Failed else t.jobs[i].state)
  {
    hide Resumable, Restarted, RouterInvariant.Inv, StillDone;
    ResumedHolds(c, s);
    RunKeeps(c, s, acts);
    CrashedState(c, Final(c, s, acts));
  }

  // ---------- deciding and marking several jobs ----------

  ghost function Picked(q: seq<Item>): seq<Item> {
    seq(|q|, k requires 0 <= k < |q| => q[k].(tag := Chosen))
  }

  ghost predicate NobodyBlocked(s: State) {
    forall w :: 0 <= w < |s.workers| ==> s.workers[w].failed == map[]
  }

  /** With nobody blocked all jobs read are chosen. */
  lemma {:induction false} AllChosen(c: Config, s: State, acts: seq<Action>, todo: seq<Item>, chosen: seq<Item>)
    returns (acts': seq<Action>)
    requires ValidConfig(c) && Run(c, s, acts)
    requires var t := Final(c, s, acts);
      t.gen == Deciding(todo, chosen) && |t.workers| == c.noOfWorkers && NobodyBlocked(t)
    ensures Run(c, s, acts')
    ensures Final(c, s, acts') == Final(c, s, acts).(gen := Deciding([], chosen + Picked(todo)))
    decreases |todo|
  {
    hide Run, Final;
    if todo == [] {
      assert chosen + Picked(todo) == chosen;
      acts' := acts;
    } else {
      var x := todo[0].(tag := Chosen);
      RunStep(c, s, acts, Action.Decide);
      acts' := AllChosen(c, s, acts + [Action.Decide], todo[1..], chosen + [x]);
      assert chosen + Picked(todo) == chosen + [x] + Picked(todo[1..]);
    }
  }

  /** They are marked executing and about to be sent. */
  lemma AllMarked(c: Config, s: State, acts: seq<Action>, todo: seq<Item>) returns (acts': seq<Action>)
    requires ValidConfig(c) && Run(c, s, acts)
    requires var t := Final(c, s, acts);
      t.gen == Deciding(todo, []) && |t.workers| == c.noOfWorkers && NobodyBlocked(t)
    requires forall k :: 0 <= k < |todo| ==> todo[k].tag == Queued
    ensures Run(c, s, acts')
    ensures var t := Final(c, s, acts);
      Final(c, s, acts') == t.(gen := Sending(todo), jobs := SetStates(t.jobs, todo))
  {
    hide Run, Final, SetStates;
    var a := AllChosen(c, s, acts, todo, []);
    assert [] + Picked(todo) == Picked(todo) && Retag(Picked(todo)) == todo;
    RunStep(c, s, a, Mark);
    acts' := a + [Mark];
  }

  lemma NoneBlocked(c: Config, s: State, channel: seq<Item>)
    requires c.noOfWorkers > 0 && s.workers == Workers(c, Worker(channel, Idle, map[]))
    ensures |s.workers| == c.noOfWorkers && NobodyBlocked(s)
  {
  }

  /** The first job to be sent is of U, and the worker of U, with nothing else in its channel, passes it on to be
      posted. */
  lemma FirstPosted(c: Config, s: State, acts: seq<Action>, x: Item, rest: seq<Item>) returns (acts': seq<Action>)
    requires ValidConfig(c) && Run(c, s, acts) && x.user == U
    requires var t := Final(c, s, acts);
      t.gen == Sending([x] + rest) && t.workers == Workers(c, Worker([], Idle, map[]))
    ensures Run(c, s, acts')
    ensures var t, t' := Final(c, s, acts), Final(c, s, acts');
      t'.jobs == t.jobs && t'.completed == t.completed && t'.workers == Workers(c, Worker([], Checked(x, None), map[]))
  {
    hide Run, Final, Workers;
    var t, idle := Final(c, s, acts), Worker([], Idle, map[]);
    SentTo(c, s, acts, idle, x, rest);
    assert [] + [x] == [x];
    var w := Worker([x], Idle, map[]);
    acts' := acts + [Send];
    acts', w := Worked(c, s, acts', w, Take);
    acts', w := Worked(c, s, acts', w, Check);
    assert w == Worker([], Checked(x, None), map[]) && t.completed + [] == t.completed;
  }

  lemma SentTo(c: Config, s: State, acts: seq<Action>, worker: Worker, x: Item, rest: seq<Item>)
    requires ValidConfig(c) && Run(c, s, acts) && x.user == U
    requires var t := Final(c, s, acts); t.gen == Sending([x] + rest) && t.workers == Workers(c, worker)
    ensures Run(c, s, acts + [Send])
    ensures var t := Final(c, s, acts);
      Final(c, s, acts + [Send]) ==
        t.(gen := Sending(rest), workers := Workers(c, worker.(channel := worker.channel + [x])))
  {
    hide Run, Final;
    RunStep(c, s, acts, Send);
    assert ([x] + rest)[0] == x && ([x] + rest)[1..] == rest;
    assert Workers(c, worker)[WorkerOf(c, U) := worker.(channel := worker.channel + [x])] ==
      Workers(c, worker.(channel := worker.channel + [x]));
  }

  // ---------- states out of turn ----------

  /** Other users, all different. */
  function Other(i: nat): User {
    seq(i, _ => 'v')
  }

  /** Two jobs of U with the states given, and as many failed jobs of others as fill the batch but for one. */
  ghost function SkippingStart(c: Config, a: JobState, b: JobState): State
    requires c.noOfWorkers > 0
  {
    State(map i | 0 <= i <= c.batch :: if i == 0 then Row(U, a, 0) else if i == 1 then Row(U, b, 0)
        else Row(Other(i), Failed, 0), c.batch + 1, Top, Workers(c, Worker([], Idle, map[])), [], [], [], [], [])
  }

  ghost function Items(jobs: map<JobID, Row>, lo: JobID, hi: JobID): seq<Item>
    requires lo <= hi && forall i :: lo <= i < hi ==> i in jobs
  {
    seq(hi - lo, k requires 0 <= k < hi - lo => Item(lo + k, jobs[lo + k].user, jobs[lo + k].attempt, Queued))
  }

  lemma ReadsRange(jobs: map<JobID, Row>, st: JobState, n: nat, lo: JobID, hi: JobID)
    requires lo <= hi && (forall i :: lo <= i < hi ==> i in jobs) && hi - lo <= n
    requires forall i :: i in jobs && jobs[i].state == st <==> lo <= i < hi
    ensures Query(jobs, st, n, Items(jobs, lo, hi))
  {
    var q := Items(jobs, lo, hi);
    forall i | lo <= i < hi ensures i in Ids(q) {
      assert Ids(q)[i - lo] == i;
    }
  }

  lemma ReadsNothing(jobs: map<JobID, Row>, st: JobState)
    ensures Query(jobs, st, 0, [])
  {
  }

  /** Only the order of the states keeps this start from being resumed. */
  lemma SkippingStarts(c: Config, a: JobState, b: JobState)
    requires ValidConfig(c) && Turn(a) > Turn(b) && RouterUser.Startable(a) && RouterUser.Startable(b)
    ensures var s := SkippingStart(c, a, b);
      Restarted(c, s) && AtMostTwoFailed(s.jobs) && TriedLessThan(s.jobs, 1) && !InTurn(s.jobs)
  {
    var s := SkippingStart(c, a, b);
    assert Precedes(s.jobs, 0, 1);
    forall u, i, j | FailedOf(s.jobs, u, i) && FailedOf(s.jobs, u, j) ensures i == j {
      assert i >= 2 ==> |Other(i)| == i;
      assert j >= 2 ==> |Other(j)| == j;
      assert |U| == 1 && U[0] == 'u';
    }
  }

  /** What the reads return: nothing of what comes after the batch is full. */
  lemma SkippingQueries(c: Config, a: JobState, b: JobState)
    requires ValidConfig(c) && Turn(a) > Turn(b) && RouterUser.Startable(a) && RouterUser.Startable(b)
    ensures var s, n := SkippingStart(c, a, b), c.batch;
      && (forall i :: 1 <= i < n + 1 ==> i in s.jobs) && SortedById(Items(s.jobs, 1, n + 1))
      && Query(s.jobs, Waiting, 0, []) && Query(s.jobs, Unprocessed, 0, [])
      && (b == Failed ==> Query(s.jobs, Failed, n, Items(s.jobs, 1, n + 1)))
      && (b == Waiting ==>
        Query(s.jobs, Failed, n, Items(s.jobs, 2, n + 1)) && Query(s.jobs, Waiting, 1, Items(s.jobs, 1, 2)))
  {
    hide Query;
    var s, n := SkippingStart(c, a, b), c.batch;
    ReadsNothing(s.jobs, Waiting);
    ReadsNothing(s.jobs, Unprocessed);
    if b == Failed {
      ReadsRange(s.jobs, Failed, n, 1, n + 1);
    } else {
      ReadsRange(s.jobs, Failed, n, 2, n + 1);
      ReadsRange(s.jobs, Waiting, 1, 1, 2);
    }
  }

  /** The reads of the first round. */
  lemma FirstReads(c: Config, s: State, retry: seq<Item>, waiting: seq<Item>, q: seq<Item>) returns (acts: seq<Action>)
    requires ValidConfig(c) && s.gen == Top && s.workers == Workers(c, Worker([], Idle, map[])) && s.toClear == []
    requires |retry| + |waiting| == c.batch && q != [] && SortedById(q) && q == waiting + retry
    requires Query(s.jobs, Failed, c.batch, retry) && Query(s.jobs, Waiting, c.batch - |retry|, waiting)
    requires Query(s.jobs, Unprocessed, 0, [])
    ensures Run(c, s, acts) && Final(c, s, acts) == s.(gen := Deciding(q, []))
  {
    hide Run, Final, Query, SortedById, Workers;
    NoSteps(c, s);
    var idle := Worker([], Idle, map[]);
    acts := RoundClears(c, s, [], idle);
    assert ClearWorker(idle, WorkerOf(c, U), []) == idle;
    WorkersCount(c, idle);
    assert waiting + [] + retry == q;
    acts := RoundQueries(c, s, acts, retry, waiting, [], q);
  }

  /** The batch is full before it comes to job 0. */
  lemma SkippingReads(c: Config, a: JobState, b: JobState) returns (acts: seq<Action>)
    requires ValidConfig(c) && Turn(a) > Turn(b) && RouterUser.Startable(a) && RouterUser.Startable(b)
    ensures var s := SkippingStart(c, a, b);
      && (forall i :: 1 <= i < c.batch + 1 ==> i in s.jobs) && Run(c, s, acts)
      && Final(c, s, acts) == s.(gen := Deciding(Items(s.jobs, 1, c.batch + 1), []))
  {
    hide Run, Final, Query, SortedById, Workers, SkippingStart, Items;
    var s, n := SkippingStart(c, a, b), c.batch;
    SkippingQueries(c, a, b);
    SkippingIdle(c, a, b);
    ItemsSplit(s.jobs, 1, 2, n + 1);
    var q, first, others := Items(s.jobs, 1, n + 1), Items(s.jobs, 1, 2), Items(s.jobs, 2, n + 1);
    if b == Failed {
      assert q == [] + q;
      acts := FirstReads(c, s, q, [], q);
    } else {
      acts := FirstReads(c, s, others, first, q);
    }
  }

  lemma SkippingIdle(c: Config, a: JobState, b: JobState)
    requires c.noOfWorkers > 0
    ensures var s := SkippingStart(c, a, b);
      s.gen == Top && s.workers == Workers(c, Worker([], Idle, map[])) && s.toClear == []
  {
  }

  lemma ItemsSplit(jobs: map<JobID, Row>, lo: JobID, mid: JobID, hi: JobID)
    requires lo <= mid <= hi && forall i :: lo <= i < hi ==> i in jobs
    ensures |Items(jobs, lo, mid)| == mid - lo && |Items(jobs, mid, hi)| == hi - mid
    ensures |Items(jobs, lo, hi)| == hi - lo && Items(jobs, lo, hi) == Items(jobs, lo, mid) + Items(jobs, mid, hi)
  {
  }

  lemma NoSteps(c: Config, s: State)
    ensures Run(c, s, []) && Final(c, s, []) == s
  {
  }

  /** Whatever the batch size, a restart with a user's jobs out of turn, and nothing else amiss, has a run in which
      job 1 is posted while job 0 is still to be done. */
  lemma OutOfTurnOvertakes(c: Config, a: JobState, b: JobState) returns (s: State, acts: seq<Action>)
    requires ValidConfig(c) && Turn(a) > Turn(b) && RouterUser.Startable(a) && RouterUser.Startable(b)
    ensures Restarted(c, s) && AtMostTwoFailed(s.jobs) && TriedLessThan(s.jobs, 1)
    ensures Run(c, s, acts) && !PostsInOrder(Final(c, s, acts))
  {
    hide Run, Final, SetStates, Restarted, AtMostTwoFailed, TriedLessThan, InTurn;
    s := SkippingStart(c, a, b);
    SkippingStarts(c, a, b);
    acts := SkippingReads(c, a, b);
    var q := Items(s.jobs, 1, c.batch + 1);
    NoneBlocked(c, Final(c, s, acts), []);
    acts := AllMarked(c, s, acts, q);
    assert q == [q[0]] + q[1..];
    RouterStatus.SetStatesOthers(s.jobs, q);
    acts := FirstPosted(c, s, acts, q[0], q[1..]);
    Overtaken(c, s, Final(c, s, acts), q[0], 0);
  }

  lemma Overtaken(c: Config, s: State, t: State, x: Item, i: JobID)
    requires c.noOfWorkers > 0 && t.workers == Workers(c, Worker([], Checked(x, None), map[]))
    requires i in t.jobs && t.jobs[i].user == x.user && i < x.id && i !in t.completed
    ensures !PostsInOrder(t)
  {
    assert t.workers[WorkerOf(c, U)].phase == Checked(x, None);
  }

  // ---------- three failed jobs of one user ----------

  const V: User := "v"

  ghost function Rows(a: Row, b: Row): map<JobID, Row> {
    map[1 := a, 2 := b, 3 := Row(U, Failed, 0), 4 := Row(V, Failed, 0)]
  }

  /** Jobs 1, 2 and 3 of U and job 4 of V have failed. */
  ghost function ThreeStart(c: Config): State
    requires c.noOfWorkers > 0
  {
    State(Rows(Row(U, Failed, 0), Row(U, Failed, 0)), 5, Top, Workers(c, Worker([], Idle, map[])), [], [], [], [], [])
  }

  lemma ThreeStarts(c: Config)
    requires ValidConfig(c)
    ensures var s := ThreeStart(c); Restarted(c, s) && InTurn(s.jobs) && TriedLessThan(s.jobs, 1)
  {
  }

  ghost predicate FailedItem(jobs: map<JobID, Row>, x: Item) {
    x.id in jobs && jobs[x.id].state == Failed && x == Item(x.id, jobs[x.id].user, jobs[x.id].attempt, Queued)
  }

  /** A read of the two failed jobs with the smallest ids. */
  lemma ReadsTwo(jobs: map<JobID, Row>, x: Item, y: Item)
    requires x.id < y.id && FailedItem(jobs, x) && FailedItem(jobs, y)
    requires forall i :: i in jobs && jobs[i].state == Failed && i != x.id && i != y.id ==> y.id < i
    ensures Query(jobs, Failed, 2, [x, y]) && Query(jobs, Waiting, 0, []) && Query(jobs, Unprocessed, 0, [])
    ensures SortedById([x, y])
  {
    assert Ids([x, y]) == [x.id, y.id];
  }

  /** A round of which the batch is the failed jobs x and y. */
  lemma RoundOfTwo(c: Config, s: State, acts: seq<Action>, worker: Worker, x: Item, y: Item)
    returns (acts': seq<Action>)
    requires ValidConfig(c) && c.batch == 2 && Run(c, s, acts)
    requires var t := Final(c, s, acts);
      && t.gen == Top && t.workers == Workers(c, worker) && x.id < y.id
      && FailedItem(t.jobs, x) && FailedItem(t.jobs, y)
      && (forall i :: i in t.jobs && t.jobs[i].state == Failed && i != x.id && i != y.id ==> y.id < i)
    ensures Run(c, s, acts')
    ensures var t := Final(c, s, acts);
      Final(c, s, acts') == t.(gen := Deciding([x, y], []), toClear := [],
                               workers := Workers(c, ClearWorker(worker, WorkerOf(c, U), t.toClear)))
  {
    hide Run, Final, Query, SortedById;
    ReadsTwo(Final(c, s, acts).jobs, x, y);
    acts' := RoundClears(c, s, acts, worker);
    assert [] + [] + [x, y] == [x, y];
    acts' := RoundQueries(c, s, acts', [x, y], [], [], [x, y]);
  }

  /** Jobs 1 and 2 are sent to the worker of U. */
  lemma TwoRetried(c: Config) returns (acts: seq<Action>)
    requires ValidConfig(c) && c.batch == 2
    ensures Run(c, ThreeStart(c), acts)
    ensures Final(c, ThreeStart(c), acts) == ThreeStart(c).(jobs := Rows(Row(U, Executing, 0), Row(U, Executing, 0)),
        workers := Workers(c, Worker([JobOf(1, 0), JobOf(2, 0)], Idle, map[])))
  {
    hide Run, Final, SetStates, Workers;
    var s, x, y, idle := ThreeStart(c), JobOf(1, 0), JobOf(2, 0), Worker([], Idle, map[]);
    NoSteps(c, s);
    acts := RoundOfTwo(c, s, [], idle, x, y);
    assert ClearWorker(idle, WorkerOf(c, U), []) == idle;
    NoneBlocked(c, Final(c, s, acts), []);
    acts := AllMarked(c, s, acts, [x, y]);
    SetsTwo(s.jobs, x, y);
    assert [x, y] == [x] + [y];
    SentTo(c, s, acts, idle, x, [y]);
    acts := acts + [Send];
    assert [] + [x] == [x] && [x] + [y] == [x, y];
    acts := RoundPasses(c, s, acts, idle.(channel := [x]), y);
    assert Final(c, s, acts).jobs == Rows(Row(U, Executing, 0), Row(U, Executing, 0));
  }

  lemma SetsTwo(jobs: map<JobID, Row>, x: Item, y: Item)
    requires x.id in jobs && y.id in jobs && x.id != y.id
    ensures SetStates(jobs, [x, y]) ==
      jobs[x.id := jobs[x.id].(state := StateOf(x.tag), attempt := x.attempt)]
          [y.id := jobs[y.id].(state := StateOf(y.tag), attempt := y.attempt)]
  {
    assert [x, y][1..] == [y];
    SetsOne(jobs[x.id := jobs[x.id].(state := StateOf(x.tag), attempt := x.attempt)], y);
  }

  /** Job 1 fails and blocks U, and job 2 is sent to wait. */
  lemma SecondWaits(c: Config) returns (acts: seq<Action>)
    requires ValidConfig(c) && c.batch == 2 && c.maxFailed >= 1
    ensures Run(c, ThreeStart(c), acts)
    ensures Final(c, ThreeStart(c), acts) == ThreeStart(c).(jobs := Rows(Row(U, Executing, 0), Row(U, Executing, 0)),
        workers := Workers(c, Worker([], Idle, map[U := 1])),
        respQ := [JobOf(1, 1).(tag := Answered(Failed)), JobOf(2, 0).(tag := Answered(Waiting))])
  {
    hide Run, Final, Workers;
    var s, x, y := ThreeStart(c), JobOf(1, 0), JobOf(2, 0);
    var w := Worker([x, y], Idle, map[]);
    acts := TwoRetried(c);
    acts, w := Worked(c, s, acts, w, Take);
    acts, w := Worked(c, s, acts, w, Check);
    acts, w := Worked(c, s, acts, w, Post(false));
    acts, w := Worked(c, s, acts, w, Block);
    assert w == Worker([y], Switching(x), map[U := 1]) && |w.failed| == 1;
    acts, w := Worked(c, s, acts, w, Switch);
    acts, w := Worked(c, s, acts, w, Answer);
    assert w == Worker([y], Idle, map[U := 1]);
    acts, w := Worked(c, s, acts, w, Take);
    acts, w := Worked(c, s, acts, w, Check);
    acts, w := Worked(c, s, acts, w, Answer);
  }

  /** The two outcomes are written. */
  lemma TwoWritten(c: Config) returns (acts: seq<Action>)
    requires ValidConfig(c) && c.batch == 2 && c.maxFailed >= 1
    ensures Run(c, ThreeStart(c), acts)
    ensures Final(c, ThreeStart(c), acts) == ThreeStart(c).(jobs := Rows(Row(U, Failed, 1), Row(U, Waiting, 0)),
        workers := Workers(c, Worker([], Idle, map[U := 1])))
  {
    hide Run, Final, Workers;
    var s, x, y := ThreeStart(c), JobOf(1, 1).(tag := Answered(Failed)), JobOf(2, 0).(tag := Answered(Waiting));
    acts := SecondWaits(c);
    WorkersCount(c, Worker([], Idle, map[U := 1]));
    assert [x, y] == [x] + [y] && [y] == [y] + [];
    acts := OneWritten(c, s, acts, x, [y]);
    acts := ScannedOver(c, s, acts, x);
    acts := OneWritten(c, s, acts, y, []);
    acts := ScannedOver(c, s, acts, y);
    assert Final(c, s, acts).jobs == Rows(Row(U, Failed, 1), Row(U, Waiting, 0));
  }

  /** Of two jobs read of a blocked user only the blocking one is chosen and marked. */
  lemma BlockerMarked(c: Config, s: State, acts: seq<Action>, worker: Worker, x: Item, y: Item)
    returns (acts': seq<Action>)
    requires ValidConfig(c) && Run(c, s, acts) && x.user == y.user == U && x.id != y.id && x.tag == Queued
    requires Get(worker.failed, U) == Some(x.id)
    requires var t := Final(c, s, acts);
      t.gen == Deciding([x, y], []) && t.workers == Workers(c, worker) && x.id in t.jobs
    ensures Run(c, s, acts')
    ensures var t := Final(c, s, acts);
      Final(c, s, acts') ==
        t.(gen := Sending([x]), jobs := t.jobs[x.id := t.jobs[x.id].(state := Executing, attempt := x.attempt)])
  {
    hide Run, Final, SetStates;
    var jobs := Final(c, s, acts).jobs;
    assert Final(c, s, acts).workers[WorkerOf(c, U)] == worker;
    assert [x, y][1..] == [y] && [y][1..] == [] && [] + [x.(tag := Chosen)] == [x.(tag := Chosen)];
    RunStep(c, s, acts, Action.Decide);
    acts' := acts + [Action.Decide];
    RunStep(c, s, acts', Action.Decide);
    acts' := acts' + [Action.Decide];
    assert Retag([x.(tag := Chosen)]) == [x];
    RunStep(c, s, acts', Mark);
    acts' := acts' + [Mark];
    SetsOne(jobs, x);
  }

  /** Job 1 is read again, with job 3, which has to stay behind it. */
  lemma FirstRetried(c: Config) returns (acts: seq<Action>)
    requires ValidConfig(c) && c.batch == 2 && c.maxFailed >= 1
    ensures Run(c, ThreeStart(c), acts)
    ensures Final(c, ThreeStart(c), acts) == ThreeStart(c).(jobs := Rows(Row(U, Executing, 1), Row(U, Waiting, 0)),
        workers := Workers(c, Worker([JobOf(1, 1)], Idle, map[U := 1])))
  {
    hide Run, Final, Workers;
    var s, x, y, w := ThreeStart(c), JobOf(1, 1), JobOf(3, 0), Worker([], Idle, map[U := 1]);
    acts := TwoWritten(c);
    acts := RoundOfTwo(c, s, acts, w, x, y);
    assert ClearWorker(w, WorkerOf(c, U), []) == w;
    acts := BlockerMarked(c, s, acts, w, x, y);
    acts := RoundPasses(c, s, acts, w, x);
    assert [] + [x] == [x];
    assert Final(c, s, acts).jobs == Rows(Row(U, Executing, 1), Row(U, Waiting, 0));
  }

  /** It is delivered. */
  lemma FirstDelivered(c: Config) returns (acts: seq<Action>)
    requires ValidConfig(c) && c.batch == 2 && c.maxFailed >= 1
    ensures Run(c, ThreeStart(c), acts)
    ensures Final(c, ThreeStart(c), acts) == ThreeStart(c).(jobs := Rows(Row(U, Executing, 1), Row(U, Waiting, 0)),
        workers := Workers(c, Worker([], Idle, map[U := 1])), completed := [1],
        respQ := [JobOf(1, 1).(tag := Answered(Succeeded))])
  {
    hide Run, Final, Workers;
    var s, x := ThreeStart(c), JobOf(1, 1);
    var w := Worker([x], Idle, map[U := 1]);
    acts := FirstRetried(c);
    acts, w := Worked(c, s, acts, w, Take);
    acts, w := Worked(c, s, acts, w, Check);
    assert w == Worker([], Checked(x, Some(1)), map[U := 1]);
    acts, w := Worked(c, s, acts, w, Post(true));
    acts, w := Worked(c, s, acts, w, Succeed);
    acts, w := Worked(c, s, acts, w, Answer);
  }

  /** Its outcome is written and U listed for clearing. */
  lemma FirstWritten(c: Config) returns (acts: seq<Action>)
    requires ValidConfig(c) && c.batch == 2 && c.maxFailed >= 1
    ensures Run(c, ThreeStart(c), acts)
    ensures Final(c, ThreeStart(c), acts) == ThreeStart(c).(jobs := Rows(Row(U, Succeeded, 1), Row(U, Waiting, 0)),
        workers := Workers(c, Worker([], Idle, map[U := 1])), completed := [1], toClear := [(WorkerOf(c, U), U)])
  {
    hide Run, Final, Workers;
    var s, x, w := ThreeStart(c), JobOf(1, 1).(tag := Answered(Succeeded)), Worker([], Idle, map[U := 1]);
    acts := FirstDelivered(c);
    WorkersCount(c, w);
    assert [x] == [x] + [];
    acts := OneWritten(c, s, acts, x, []);
    acts := ScannedBlocker(c, s, acts, x, w);
    assert Final(c, s, acts).jobs == Rows(Row(U, Succeeded, 1), Row(U, Waiting, 0));
  }

  /** With a batch of two, a restart with three failed jobs of one user and one of another, and nothing else amiss,
      has a run in which job 3 is posted while job 2 still waits. */
  lemma ThirdFailedOvertakes(c: Config) returns (s: State, acts: seq<Action>)
    requires ValidConfig(c) && c.batch == 2 && c.maxFailed >= 1
    ensures Restarted(c, s) && InTurn(s.jobs) && TriedLessThan(s.jobs, 1)
    ensures Run(c, s, acts) && !PostsInOrder(Final(c, s, acts))
  {
    hide Run, Final, SetStates, Restarted, InTurn, TriedLessThan;
    s := ThreeStart(c);
    ThreeStarts(c);
    var x, y, w := JobOf(3, 0), Item(4, V, 0, Queued), Worker([], Idle, map[U := 1]);
    acts := FirstWritten(c);
    acts := RoundOfTwo(c, s, acts, w, x, y);
    assert ClearWorker(w, WorkerOf(c, U), [(WorkerOf(c, U), U)]) == Worker([], Idle, map[]) by {
      assert (WorkerOf(c, U), U) in [(WorkerOf(c, U), U)];
    }
    NoneBlocked(c, Final(c, s, acts), []);
    acts := AllMarked(c, s, acts, [x, y]);
    RouterStatus.SetStatesOthers(Rows(Row(U, Succeeded, 1), Row(U, Waiting, 0)), [x, y]);
    assert [x, y] == [x] + [y];
    acts := FirstPosted(c, s, acts, x, [y]);
    Overtaken(c, s, Final(c, s, acts), x, 2);
  }
}
