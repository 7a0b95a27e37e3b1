/** The router's delivery protocol: one generator, many workers and one status loop that share FIFO
    queues, a per-worker map of blocking jobs and a deferred clear list. Every statement of the three
    loops that touches shared data is one action, so a run is an arbitrary interleaving. */
module Router {
  import opened Common

  type JobID = int
  type User = string

  datatype JobState = Unprocessed | Executing | Failed | Waiting | Succeeded | Aborted

  predicate Done(st: JobState) {
    st.Succeeded? || st.Aborted?
  }

  /** A job of this destination with its latest status. */
  datatype Row = Row(user: User, state: JobState, attempt: int)

  /** How far a job in flight has come. */
  datatype Tag =
    | Chosen                     // picked by the generator, not yet marked executing
    | Queued                     // marked executing, no outcome yet
    | Failing                    // delivery failed, outcome not decided yet
    | Answered(state: JobState)  // outcome decided, not yet written to the store

  datatype Item = Item(id: JobID, user: User, attempt: int, tag: Tag)

  datatype Phase =
    | Idle
    | Taken(job: Item)                                      // received from the channel
    | Checked(job: Item, prev: Option<JobID>)               // allowed to be posted
    | Posted(job: Item, prev: Option<JobID>, ok: bool)      // the last attempt has been answered
    | Switching(job: Item)                                  // failed; the blocking entry is in the map
    | Answering(resp: Item)                                 // about to send on responseQ

  datatype Worker = Worker(channel: seq<Item>, phase: Phase, failed: map<User, JobID>)

  datatype Generator =
    | Top
    | Cleared
    | HaveRetry(retry: seq<Item>)
    | HaveWaiting(retry: seq<Item>, waiting: seq<Item>)
    | Deciding(todo: seq<Item>, chosen: seq<Item>)
    | Sending(out: seq<Item>)

  datatype State = State(
    jobs: map<JobID, Row>,
    nextID: JobID,
    gen: Generator,
    workers: seq<Worker>,
    respQ: seq<Item>,
    buf: seq<Item>,               // responseList, still being filled
    scan: seq<Item>,              // responseList after the flush, still to be looked at
    toClear: seq<(int, User)>,    // toClearFailJobIDMap as (worker, user) pairs
    completed: seq<JobID>)        // jobs delivered or given up, in that order

  /** `hash` stands for the FNV hash of the user id. */
  datatype Config = Config(hash: User -> int, noOfWorkers: int, maxFailed: int, batch: nat)

  ghost predicate ValidConfig(c: Config) {
    c.noOfWorkers > 0 && c.batch >= 1
  }

  ghost function WorkerOf(c: Config, u: User): int
    requires c.noOfWorkers > 0
  {
    c.hash(u) % c.noOfWorkers
  }

  // ---------- the store as seen by the router ----------

  ghost function StateOf(t: Tag): JobState {
    if t.Answered? then t.state else Executing
  }

  /** UpdateJobStatus: the latest status of every job in the batch is replaced. */
  ghost function SetStates(jobs: map<JobID, Row>, q: seq<Item>): map<JobID, Row> {
    if q == [] then jobs
    else if q[0].id !in jobs then SetStates(jobs, q[1..])
    else SetStates(jobs[q[0].id := jobs[q[0].id].(state := StateOf(q[0].tag), attempt := q[0].attempt)], q[1..])
  }

  ghost function StateIds(jobs: map<JobID, Row>, st: JobState): set<JobID> {
    set i | i in jobs && jobs[i].state == st
  }

  ghost function Ids(q: seq<Item>): seq<JobID> {
    seq(|q|, i requires 0 <= i < |q| => q[i].id)
  }

  /** What GetToRetry, GetWaiting and GetUnprocessed return for a limit of n. */
  ghost predicate Query(jobs: map<JobID, Row>, st: JobState, n: nat, q: seq<Item>) {
    && FirstN(Ids(q), StateIds(jobs, st), n)
    && forall k :: 0 <= k < |q| ==>
      q[k].id in jobs && q[k] == Item(q[k].id, jobs[q[k].id].user, jobs[q[k].id].attempt, Queued)
  }

  ghost predicate SortedById(q: seq<Item>) {
    forall j, k :: 0 <= j < k < |q| ==> q[j].id <= q[k].id
  }

  ghost function Retag(q: seq<Item>): seq<Item> {
    seq(|q|, i requires 0 <= i < |q| => q[i].(tag := Queued))
  }

  // ---------- actions ----------

  datatype Action =
    | Store(user: User)
    | Clear
    | ReadRetry(q: seq<Item>)
    | ReadWaiting(q: seq<Item>)
    | ReadUnprocessed(q: seq<Item>, sorted: seq<Item>)
    | Decide
    | Mark
    | Send
    | Loop
    | Work(w: int, op: WorkerOp)
    | Receive
    | Flush
    | Scan

  /** The statements of workerProcess that touch shared data. */
  datatype WorkerOp =
    | Take              // receive from the channel
    | Check             // read failedJobIDMap
    | Post(ok: bool)    // the attempts of sendPost, with the answer to the last one
    | Succeed
    | Block             // record a first failure in failedJobIDMap
    | Switch            // choose between failed and aborted
    | Answer            // send on responseQ

  ghost predicate Enabled(c: Config, s: State, a: Action) {
    && |s.workers| == c.noOfWorkers > 0
    && match a
       case Store(_) => true
       case Clear => s.gen.Top?
       case ReadRetry(q) => s.gen.Cleared? && Query(s.jobs, Failed, c.batch, q)
       case ReadWaiting(q) =>
         s.gen.HaveRetry? && |s.gen.retry| <= c.batch && Query(s.jobs, Waiting, c.batch - |s.gen.retry|, q)
       case ReadUnprocessed(q, sorted) =>
         && s.gen.HaveWaiting? && |s.gen.retry| + |s.gen.waiting| <= c.batch
         && Query(s.jobs, Unprocessed, c.batch - |s.gen.retry| - |s.gen.waiting|, q)
         && SortedById(sorted) && multiset(sorted) == multiset(s.gen.waiting + q + s.gen.retry)
       case Decide => s.gen.Deciding? && s.gen.todo != []
       case Mark => s.gen.Deciding? && s.gen.todo == []
       case Send => s.gen.Sending? && s.gen.out != []
       case Loop => s.gen.Sending? && s.gen.out == []
       case Work(w, op) => 0 <= w < |s.workers| && WorkerReady(s.workers[w], op)
       case Receive => s.scan == [] && s.respQ != []
       case Flush => s.scan == [] && s.buf != []
       case Scan => s.scan != []
  }

  /** findWorker: a user with a blocking job lets only that job pass. */
  ghost predicate Passes(c: Config, s: State, job: Item)
    requires |s.workers| == c.noOfWorkers > 0
  {
    var b := Get(s.workers[WorkerOf(c, job.user)].failed, job.user);
    b == None || b.value == job.id
  }

  ghost function Do(c: Config, s: State, a: Action): State
    requires Enabled(c, s, a)
  {
    match a
    case Store(user) =>
      s.(jobs := s.jobs[s.nextID := Row(user, Unprocessed, 0)], nextID := s.nextID + 1)
    case Clear =>
      s.(gen := Cleared, toClear := [],
         workers := seq(|s.workers|, w requires 0 <= w < |s.workers| => ClearWorker(s.workers[w], w, s.toClear)))
    case ReadRetry(q) => s.(gen := HaveRetry(q))
    case ReadWaiting(q) => s.(gen := HaveWaiting(s.gen.retry, q))
    case ReadUnprocessed(q, sorted) => s.(gen := if sorted == [] then Top else Deciding(sorted, []))
    case Decide =>
      var job := s.gen.todo[0];
      s.(gen := Deciding(s.gen.todo[1..],
                         if Passes(c, s, job) then s.gen.chosen + [job.(tag := Chosen)] else s.gen.chosen))
    case Mark =>
      s.(jobs := SetStates(s.jobs, Retag(s.gen.chosen)), gen := Sending(Retag(s.gen.chosen)))
    case Send =>
      var w := WorkerOf(c, s.gen.out[0].user);
      s.(gen := Sending(s.gen.out[1..]),
         workers := s.workers[w := s.workers[w].(channel := s.workers[w].channel + [s.gen.out[0]])])
    case Loop => s.(gen := Top)
    case Work(w, op) =>
      s.(workers := s.workers[w := WorkerStep(c, s.workers[w], op)],
         respQ := s.respQ + Sends(s.workers[w], op),
         completed := s.completed + Completes(c, s.workers[w], op))
    case Receive => s.(buf := s.buf + [s.respQ[0]], respQ := s.respQ[1..])
    case Flush => s.(jobs := SetStates(s.jobs, s.buf), scan := s.buf, buf := [])
    case Scan =>
      var r := s.scan[0];
      var w := WorkerOf(c, r.user);
      s.(scan := s.scan[1..],
         toClear := if r.tag.Answered? && Done(r.tag.state) && Get(s.workers[w].failed, r.user) == Some(r.id)
                    then s.toClear + [(w, r.user)] else s.toClear)
  }

  ghost function ClearWorker(worker: Worker, w: int, toClear: seq<(int, User)>): Worker {
    worker.(failed := map u | u in worker.failed && (w, u) !in toClear :: worker.failed[u])
  }

  /** The outcome of a failed delivery. */
  ghost function Outcome(c: Config, worker: Worker, job: Item): Item {
    if |worker.failed| > 5 then job.(tag := Answered(Failed))
    else if job.attempt >= c.maxFailed then job.(tag := Answered(Aborted))
    else job.(tag := Answered(Failed), attempt := job.attempt + 1)
  }

  ghost predicate WorkerReady(worker: Worker, op: WorkerOp) {
    match op
    case Take => worker.phase.Idle? && worker.channel != []
    case Check => worker.phase.Taken?
    case Post(_) => worker.phase.Checked?
    case Succeed => worker.phase.Posted? && worker.phase.ok
    case Block => worker.phase.Posted? && !worker.phase.ok
    case Switch => worker.phase.Switching?
    case Answer => worker.phase.Answering?
  }

  ghost function Sends(worker: Worker, op: WorkerOp): seq<Item>
    requires WorkerReady(worker, op)
  {
    match op
    case Answer => [worker.phase.resp]
    case _ => []
  }

  ghost function Completes(c: Config, worker: Worker, op: WorkerOp): seq<JobID>
    requires WorkerReady(worker, op)
  {
    match op
    case Succeed => [worker.phase.job.id]
    case Switch => if Outcome(c, worker, worker.phase.job).tag == Answered(Aborted) then [worker.phase.job.id] else []
    case _ => []
  }

  ghost function WorkerStep(c: Config, worker: Worker, op: WorkerOp): Worker
    requires WorkerReady(worker, op)
  {
    match op
    case Take => worker.(channel := worker.channel[1..], phase := Taken(worker.channel[0]))
    case Check =>
      var job := worker.phase.job;
      var prev := Get(worker.failed, job.user);
      if prev.Some? && prev.value < job.id then worker.(phase := Answering(job.(tag := Answered(Waiting))))
      else worker.(phase := Checked(job, prev))
    case Post(ok) => worker.(phase := Posted(worker.phase.job, worker.phase.prev, ok))
    case Succeed => worker.(phase := Answering(worker.phase.job.(tag := Answered(Succeeded))))
    case Block =>
      var job := worker.phase.job;
      worker.(phase := Switching(job),
              failed := if worker.phase.prev.None? then worker.failed[job.user := job.id] else worker.failed)
    case Switch => worker.(phase := Answering(Outcome(c, worker, worker.phase.job)))
    case Answer => worker.(phase := Idle)
  }

  // ---------- runs ----------

  ghost predicate NothingUnderWay(c: Config, s: State) {
    && |s.workers| == c.noOfWorkers
    && (forall w :: 0 <= w < |s.workers| ==> s.workers[w] == Worker([], Idle, map[]))
    && s.gen == Top && s.respQ == [] && s.buf == [] && s.scan == [] && s.toClear == []
    && (forall i :: i in s.jobs ==> i < s.nextID)
  }

  /** A fresh start: nothing in flight, every job unprocessed and never attempted. */
  ghost predicate Init(c: Config, s: State) {
    && NothingUnderWay(c, s) && s.completed == []
    && (forall i :: i in s.jobs ==> s.jobs[i].state == Unprocessed && s.jobs[i].attempt == 0)
  }

  /** An earlier job of the same user. */
  ghost predicate Precedes(jobs: map<JobID, Row>, i: JobID, j: JobID) {
    i in jobs && j in jobs && jobs[i].user == jobs[j].user && i < j
  }

  /** A restart: nothing in flight, and nothing executing, because crashRecover has turned that into failed.
      `completed` starts with what is done already, which for each user comes before the rest. */
  ghost predicate Restarted(c: Config, s: State) {
    && NothingUnderWay(c, s) && CompletesInOrder(s)
    && (forall i :: i in s.jobs ==> s.jobs[i].state != Executing && (i in s.completed <==> Done(s.jobs[i].state)))
    && (forall i, j :: Precedes(s.jobs, i, j) && Done(s.jobs[j].state) ==> Done(s.jobs[i].state))
  }

  /** Failed jobs are read first, then waiting ones, then those not processed yet. */
  function Turn(st: JobState): nat {
    match st
    case Failed => 0
    case Waiting => 1
    case _ => 2
  }

  /** The states of a user's open jobs are in the order in which they are read. */
  ghost predicate InTurn(jobs: map<JobID, Row>) {
    forall i, j :: Precedes(jobs, i, j) && !Done(jobs[i].state) && !Done(jobs[j].state) ==>
      Turn(jobs[i].state) <= Turn(jobs[j].state)
  }

  ghost predicate FailedOf(jobs: map<JobID, Row>, u: User, i: JobID) {
    i in jobs && jobs[i].user == u && jobs[i].state == Failed
  }

  ghost predicate AtMostTwoFailed(jobs: map<JobID, Row>) {
    forall u, i, j, k :: FailedOf(jobs, u, i) && FailedOf(jobs, u, j) && FailedOf(jobs, u, k) ==>
      i == j || i == k || j == k
  }

  ghost predicate TriedLessThan(jobs: map<JobID, Row>, m: int) {
    forall i :: i in jobs && !Done(jobs[i].state) ==> jobs[i].attempt < m
  }

  ghost predicate Run(c: Config, s: State, acts: seq<Action>)
    decreases |acts|
  {
    acts == [] || (Enabled(c, s, acts[0]) && Run(c, Do(c, s, acts[0]), acts[1..]))
  }

  ghost function Final(c: Config, s: State, acts: seq<Action>): State
    requires Run(c, s, acts)
    decreases |acts|
  {
    if acts == [] then s else Final(c, Do(c, s, acts[0]), acts[1..])
  }

  // ---------- what the protocol promises ----------

  /** A worker that may post a job sees every earlier job of that user completed. */
  ghost predicate PostsInOrder(s: State) {
    forall w :: 0 <= w < |s.workers| && s.workers[w].phase.Checked? ==>
      var job := s.workers[w].phase.job;
      && job.id in s.jobs && s.jobs[job.id].user == job.user
      && job.id !in s.completed
      && forall i :: i in s.jobs && s.jobs[i].user == job.user && i < job.id ==> i in s.completed
  }

  /** The jobs of one user complete in strictly increasing id order. */
  ghost predicate CompletesInOrder(s: State) {
    && (forall i :: 0 <= i < |s.completed| ==> s.completed[i] in s.jobs)
    && (forall i, j :: 0 <= i < j < |s.completed| && s.jobs[s.completed[i]].user == s.jobs[s.completed[j]].user ==>
      s.completed[i] < s.completed[j])
  }

  /** Where a job of user u can be while it is in flight. */
  ghost predicate NothingInFlight(s: State, u: User) {
    && (forall k :: 0 <= k < |s.buf| ==> s.buf[k].user != u)
    && (forall k :: 0 <= k < |s.respQ| ==> s.respQ[k].user != u)
    && (forall k :: 0 <= k < |Outgoing(s.gen)| ==> Outgoing(s.gen)[k].user != u)
    && (forall w :: 0 <= w < |s.workers| ==>
      && (forall k :: 0 <= k < |s.workers[w].channel| ==> s.workers[w].channel[k].user != u)
      && (forall k :: 0 <= k < |Current(s.workers[w].phase)| ==> Current(s.workers[w].phase)[k].user != u))
  }

  ghost predicate ClearsSafely(s: State) {
    forall k :: 0 <= k < |s.toClear| ==> NothingInFlight(s, s.toClear[k].1)
  }

  /** The two assertions on blocking jobs, one in findWorker and one in workerProcess. */
  ghost predicate AssertionsHold(c: Config, s: State) {
    && |s.workers| == c.noOfWorkers > 0
    && (s.gen.Deciding? && s.gen.todo != [] ==>
      var job := s.gen.todo[0];
      var b := Get(s.workers[WorkerOf(c, job.user)].failed, job.user);
      b.Some? ==> job.id >= b.value)
    && (forall w :: 0 <= w < |s.workers| && s.workers[w].phase.Checked? && s.workers[w].phase.prev.Some? ==>
      s.workers[w].phase.prev.value == s.workers[w].phase.job.id)
  }

  // ---------- one user's jobs in flight, oldest first ----------

  ghost function Current(p: Phase): seq<Item> {
    match p
    case Idle => []
    case Taken(job) => [job]
    case Checked(job, _) => [job]
    case Posted(job, _, _) => [job]
    case Switching(job) => [job.(tag := Failing)]
    case Answering(resp) => [resp]
  }

  ghost function Outgoing(g: Generator): seq<Item> {
    match g
    case Deciding(_, chosen) => chosen
    case Sending(out) => out
    case _ => []
  }

  ghost function Of(u: User, q: seq<Item>): seq<Item> {
    if q == [] then [] else (if q[0].user == u then [q[0]] else []) + Of(u, q[1..])
  }

  ghost function Flow(c: Config, s: State, u: User): seq<Item>
    requires |s.workers| == c.noOfWorkers > 0
  {
    var worker := s.workers[WorkerOf(c, u)];
    Of(u, s.buf) + Of(u, s.respQ) + Of(u, Current(worker.phase)) + Of(u, worker.channel) + Of(u, Outgoing(s.gen))
  }
}
