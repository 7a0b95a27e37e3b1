/** The processor between the gateway's store and those of the routers: jobs are fetched, marked, buffered per user,
    handed on, transformed and marked succeeded, with a crash possible between any two of these. */
module Processor {

  type JobID = int

  datatype JobState = Unprocessed | Executing | Failed | Succeeded

  predicate Fetchable(st: JobState) {
    st == Unprocessed || st == Failed
  }

  /** What processJobsForDest has stored so far for its batch. */
  datatype Stage = Nothing | RouterStored | BothStored

  datatype Task = Task(ids: set<JobID>, stage: Stage)

  /** `picked` has been read by the main loop, `marked` is marked executing and about to be added to the sessions;
      `router` and `batchRouter` list the batches whose derived jobs have been stored, `done` those marked succeeded. */
  datatype State = State(
    jobs: map<JobID, JobState>,
    nextID: JobID,
    up: bool,
    picked: set<JobID>,
    marked: set<JobID>,
    buffer: set<JobID>,
    tasks: seq<Task>,
    router: seq<set<JobID>>,
    batchRouter: seq<set<JobID>>,
    done: seq<set<JobID>>)

  /** `parses` tells whether a job's payload yields events and a user. */
  datatype Config = Config(processSessions: bool, parses: JobID -> bool)

  datatype Step =
    | Store
    | Fetch(ids: set<JobID>)
    | Mark
    | Add
    | HandOn(ids: set<JobID>)    // users over the threshold, or quiet for long enough
    | Advance(k: nat)            // the next write of one processJobsForDest
    | Crash
    | Fail(ids: set<JobID>)      // one batch of crashRecover
    | Restart

  ghost predicate Enabled(c: Config, s: State, step: Step) {
    match step
    case Store => true
    case Fetch(ids) =>
      && s.up && s.picked == {} && s.marked == {} && (!c.processSessions ==> s.tasks == [])
      && ids != {} && forall id :: id in ids ==> id in s.jobs && Fetchable(s.jobs[id])
    case Mark => s.up && s.picked != {}
    case Add => s.up && s.marked != {}
    case HandOn(ids) => s.up && ids != {} && ids <= s.buffer
    case Advance(k) => s.up && k < |s.tasks|
    case Crash => true
    case Fail(ids) => !s.up && ids != {} && forall id :: id in ids ==> id in s.jobs && s.jobs[id] == Executing
    case Restart => !s.up && forall id :: id in s.jobs ==> s.jobs[id] != Executing
  }

  ghost function SetAll(jobs: map<JobID, JobState>, ids: set<JobID>, st: JobState): map<JobID, JobState> {
    map id | id in jobs :: if id in ids then st else jobs[id]
  }

  ghost function Do(c: Config, s: State, step: Step): State
    requires Enabled(c, s, step)
  {
    match step
    case Store => s.(jobs := s.jobs[s.nextID := Unprocessed], nextID := s.nextID + 1)
    case Fetch(ids) => if c.processSessions then s.(picked := ids) else s.(tasks := [Task(ids, Nothing)])
    case Mark => s.(jobs := SetAll(s.jobs, s.picked, Executing), marked := s.picked, picked := {})
    case Add => s.(buffer := s.buffer + (set id | id in s.marked && c.parses(id)), marked := {})
    case HandOn(ids) => s.(buffer := s.buffer - ids, tasks := s.tasks + [Task(ids, Nothing)])
    case Advance(k) =>
      var t := s.tasks[k];
      (match t.stage
       case Nothing => s.(router := s.router + [t.ids], tasks := s.tasks[k := t.(stage := RouterStored)])
       case RouterStored => s.(batchRouter := s.batchRouter + [t.ids], tasks := s.tasks[k := t.(stage := BothStored)])
       case BothStored =>
         s.(jobs := SetAll(s.jobs, t.ids, Succeeded), done := s.done + [t.ids],
             tasks := s.tasks[..k] + s.tasks[k + 1..]))
    case Crash => s.(up := false, picked := {}, marked := {}, buffer := {}, tasks := [])
    case Fail(ids) => s.(jobs := SetAll(s.jobs, ids, Failed))
    case Restart => s.(up := true)
  }

  ghost predicate Init(s: State) {
    && s.jobs == map[] && s.up && s.picked == {} && s.marked == {} && s.buffer == {} && s.tasks == []
    && s.router == [] && s.batchRouter == [] && s.done == []
  }

  ghost predicate Run(c: Config, s: State, steps: seq<Step>)
    decreases |steps|
  {
    steps == [] || (Enabled(c, s, steps[0]) && Run(c, Do(c, s, steps[0]), steps[1..]))
  }

  ghost function Final(c: Config, s: State, steps: seq<Step>): State
    requires Run(c, s, steps)
    decreases |steps|
  {
    if steps == [] then s else Final(c, Do(c, s, steps[0]), steps[1..])
  }

  // ---------- the invariant ----------

  ghost predicate AllIn(jobs: map<JobID, JobState>, ids: set<JobID>, st: JobState) {
    forall id :: id in ids ==> id in jobs && jobs[id] == st
  }

  ghost predicate AllFetchable(jobs: map<JobID, JobState>, ids: set<JobID>) {
    forall id :: id in ids ==> id in jobs && Fetchable(jobs[id])
  }

  /** Every job under way is in one place only, and marked as it should be there. */
  ghost predicate HeldOnce(c: Config, s: State) {
    && AllFetchable(s.jobs, s.picked) && AllIn(s.jobs, s.marked, Executing) && AllIn(s.jobs, s.buffer, Executing)
    && s.marked !! s.buffer && (s.picked == {} || s.marked == {})
    && (forall k :: 0 <= k < |s.tasks| ==> s.tasks[k].ids !! s.marked && s.tasks[k].ids !! s.buffer)
    && (forall j, k :: 0 <= j < k < |s.tasks| ==> s.tasks[j].ids !! s.tasks[k].ids)
    && (c.processSessions ==> forall k :: 0 <= k < |s.tasks| ==> AllIn(s.jobs, s.tasks[k].ids, Executing))
    && (!c.processSessions ==> s.picked == {} && s.marked == {} && s.buffer == {} && |s.tasks| <= 1)
    && (!c.processSessions ==> forall k :: 0 <= k < |s.tasks| ==> AllFetchable(s.jobs, s.tasks[k].ids))
    && (!s.up ==> s.picked == {} && s.marked == {} && s.buffer == {} && s.tasks == [])
  }

  /** A task's stage tells what has been stored. */
  ghost predicate StagesOK(s: State) {
    forall k :: 0 <= k < |s.tasks| ==>
      && (s.tasks[k].stage != Nothing ==> s.tasks[k].ids in s.router)
      && (s.tasks[k].stage == BothStored ==> s.tasks[k].ids in s.batchRouter)
  }

  ghost predicate DoneOK(s: State) {
    && (forall id :: id in s.jobs && s.jobs[id] == Succeeded ==> exists k :: 0 <= k < |s.done| && id in s.done[k])
    && (forall k :: 0 <= k < |s.done| ==>
        AllIn(s.jobs, s.done[k], Succeeded) && s.done[k] in s.router && s.done[k] in s.batchRouter)
    && (forall j, k :: 0 <= j < k < |s.done| ==> s.done[j] !! s.done[k])
  }

  ghost predicate UnderWay(s: State, id: JobID) {
    id in s.marked || id in s.buffer || exists k :: 0 <= k < |s.tasks| && id in s.tasks[k].ids
  }

  /** While the process runs, a job marked executing is under way unless its payload could not be parsed. */
  ghost predicate NoneForgotten(c: Config, s: State) {
    s.up ==> forall id :: id in s.jobs && s.jobs[id] == Executing && c.parses(id) ==> UnderWay(s, id)
  }

  ghost predicate Inv(c: Config, s: State) {
    && (forall id :: id in s.jobs ==> id < s.nextID)
    && HeldOnce(c, s) && StagesOK(s) && DoneOK(s) && NoneForgotten(c, s)
  }

  lemma DoneStays(s: State, s': State)
    requires DoneOK(s) && s'.done == s.done
    requires forall b :: b in s.router ==> b in s'.router
    requires forall b :: b in s.batchRouter ==> b in s'.batchRouter
    requires forall id :: id in s.jobs ==> id in s'.jobs && (s'.jobs[id] == Succeeded <==> s.jobs[id] == Succeeded)
    requires forall id :: id in s'.jobs && id !in s.jobs ==> s'.jobs[id] != Succeeded
    ensures DoneOK(s')
  {
  }

  lemma StoreKeeps(c: Config, s: State)
    requires Inv(c, s)
    ensures Inv(c, Do(c, s, Store))
  {
    var s' := Do(c, s, Store);
    DoneStays(s, s');
    forall id | s'.up && id in s'.jobs && s'.jobs[id] == Executing && c.parses(id) ensures UnderWay(s', id) {
      assert UnderWay(s, id);
    }
  }

  lemma FetchKeeps(c: Config, s: State, ids: set<JobID>)
    requires Inv(c, s) && Enabled(c, s, Fetch(ids))
    ensures Inv(c, Do(c, s, Fetch(ids)))
  {
    var s' := Do(c, s, Fetch(ids));
    DoneStays(s, s');
    forall id | id in s'.jobs && s'.jobs[id] == Executing && c.parses(id) ensures UnderWay(s', id) {
      assert UnderWay(s, id);
    }
  }

  lemma MarkKeeps(c: Config, s: State)
    requires Inv(c, s) && Enabled(c, s, Mark)
    ensures Inv(c, Do(c, s, Mark))
  {
    var s' := Do(c, s, Mark);
    DoneStays(s, s');
    assert c.processSessions;
    forall id | id in s.picked ensures id !in s.buffer && forall k :: 0 <= k < |s.tasks| ==> id !in s.tasks[k].ids {}
    forall id | id in s'.jobs && s'.jobs[id] == Executing && c.parses(id) ensures UnderWay(s', id) {
      assert id in s.picked || UnderWay(s, id);
    }
  }

  lemma AddKeeps(c: Config, s: State)
    requires Inv(c, s) && Enabled(c, s, Add)
    ensures Inv(c, Do(c, s, Add))
  {
    var s' := Do(c, s, Add);
    DoneStays(s, s');
    forall id | id in s'.jobs && s'.jobs[id] == Executing && c.parses(id) ensures UnderWay(s', id) {
      assert UnderWay(s, id);
    }
  }

  lemma HandOnKeeps(c: Config, s: State, ids: set<JobID>)
    requires Inv(c, s) && Enabled(c, s, HandOn(ids))
    ensures Inv(c, Do(c, s, HandOn(ids)))
  {
    var s' := Do(c, s, HandOn(ids));
    DoneStays(s, s');
    assert s'.tasks[|s.tasks|].ids == ids;
    forall id | id in s'.jobs && s'.jobs[id] == Executing && c.parses(id) ensures UnderWay(s', id) {
      assert UnderWay(s, id);
      if k :| 0 <= k < |s.tasks| && id in s.tasks[k].ids {
        assert s'.tasks[k] == s.tasks[k];
      }
    }
  }

  /** One of the two stores. */
  lemma StoreOutputKeeps(c: Config, s: State, k: nat)
    requires Inv(c, s) && Enabled(c, s, Advance(k)) && s.tasks[k].stage != BothStored
    ensures Inv(c, Do(c, s, Advance(k)))
  {
    var s' := Do(c, s, Advance(k));
    DoneStays(s, s');
    forall j | 0 <= j < |s'.tasks| ensures s'.tasks[j].ids == s.tasks[j].ids {}
    forall id | id in s'.jobs && s'.jobs[id] == Executing && c.parses(id) ensures UnderWay(s', id) {
      assert UnderWay(s, id);
      if j :| 0 <= j < |s.tasks| && id in s.tasks[j].ids {
        assert id in s'.tasks[j].ids;
      }
    }
  }

  /** The batch is marked succeeded. */
  lemma SucceedKeeps(c: Config, s: State, k: nat)
    requires Inv(c, s) && Enabled(c, s, Advance(k)) && s.tasks[k].stage == BothStored
    ensures Inv(c, Do(c, s, Advance(k)))
  {
    hide DoneOK;
    var s', t := Do(c, s, Advance(k)), s.tasks[k];
    forall j | 0 <= j < |s'.tasks| ensures s'.tasks[j] == s.tasks[if j < k then j else j + 1] {}
    SucceedDone(c, s, k);
    SucceedHeld(c, s, k);
    forall id | id in s'.jobs && s'.jobs[id] == Executing && c.parses(id) ensures UnderWay(s', id) {
      assert UnderWay(s, id) && id !in t.ids;
      if j :| 0 <= j < |s.tasks| && id in s.tasks[j].ids {
        assert id in s'.tasks[if j < k then j else j - 1].ids;
      }
    }
  }

  lemma SucceedDone(c: Config, s: State, k: nat)
    requires Inv(c, s) && Enabled(c, s, Advance(k)) && s.tasks[k].stage == BothStored
    ensures DoneOK(Do(c, s, Advance(k)))
  {
    var s', t := Do(c, s, Advance(k)), s.tasks[k];
    assert s'.done[|s.done|] == t.ids;
    forall id | id in s'.jobs && s'.jobs[id] == Succeeded ensures exists j :: 0 <= j < |s'.done| && id in s'.done[j] {
      if id !in t.ids {
        var j :| 0 <= j < |s.done| && id in s.done[j];
        assert s'.done[j] == s.done[j];
      }
    }
    assert AllIn(s.jobs, t.ids, Executing) || AllFetchable(s.jobs, t.ids);
    forall j | 0 <= j < |s.done| ensures s.done[j] !! t.ids {
      assert AllIn(s.jobs, s.done[j], Succeeded);
      forall id | id in s.done[j] ensures id !in t.ids {}
    }
  }

  lemma OtherTask(tasks: seq<Task>, k: int, j: int)
    requires forall i, n :: 0 <= i < n < |tasks| ==> tasks[i].ids !! tasks[n].ids
    requires 0 <= k < |tasks| && 0 <= j < |tasks| && j != k
    ensures tasks[j].ids !! tasks[k].ids
  {
    if j < k {
      assert tasks[j].ids !! tasks[k].ids;
    } else {
      assert tasks[k].ids !! tasks[j].ids;
    }
  }

  lemma SucceedHeld(c: Config, s: State, k: nat)
    requires Inv(c, s) && Enabled(c, s, Advance(k)) && s.tasks[k].stage == BothStored
    ensures HeldOnce(c, Do(c, s, Advance(k)))
  {
    var s', t := Do(c, s, Advance(k)), s.tasks[k];
    forall j | 0 <= j < |s'.tasks| ensures s'.tasks[j] == s.tasks[if j < k then j else j + 1] {}
    forall j | 0 <= j < |s'.tasks| ensures s'.tasks[j].ids !! t.ids {
      OtherTask(s.tasks, k, if j < k then j else j + 1);
    }
    forall i, j | 0 <= i < j < |s'.tasks| ensures s'.tasks[i].ids !! s'.tasks[j].ids {
      assert s.tasks[if i < k then i else i + 1].ids !! s.tasks[if j < k then j else j + 1].ids;
    }
    assert s.picked * t.ids == {} by {
      forall id | id in s.picked ensures id !in t.ids {
        assert c.processSessions && AllIn(s.jobs, t.ids, Executing);
      }
    }
  }

  lemma CrashKeeps(c: Config, s: State)
    requires Inv(c, s)
    ensures Inv(c, Do(c, s, Crash))
  {
    DoneStays(s, Do(c, s, Crash));
  }

  lemma FailKeeps(c: Config, s: State, ids: set<JobID>)
    requires Inv(c, s) && Enabled(c, s, Fail(ids))
    ensures Inv(c, Do(c, s, Fail(ids)))
  {
    DoneStays(s, Do(c, s, Fail(ids)));
  }

  lemma StepKeeps(c: Config, s: State, step: Step)
    requires Inv(c, s) && Enabled(c, s, step)
    ensures Inv(c, Do(c, s, step))
  {
    hide HeldOnce, StagesOK, DoneOK, NoneForgotten;
    match step
    case Store => StoreKeeps(c, s);
    case Fetch(ids) => FetchKeeps(c, s, ids);
    case Mark => MarkKeeps(c, s);
    case Add => AddKeeps(c, s);
    case HandOn(ids) => HandOnKeeps(c, s, ids);
    case Advance(k) => if s.tasks[k].stage == BothStored { SucceedKeeps(c, s, k); } else { StoreOutputKeeps(c, s, k); }
    case Crash => CrashKeeps(c, s);
    case Fail(ids) => FailKeeps(c, s, ids);
    case Restart => RestartKeeps(c, s);
  }

  lemma RestartKeeps(c: Config, s: State)
    requires Inv(c, s) && Enabled(c, s, Restart)
    ensures Inv(c, Do(c, s, Restart))
  {
    DoneStays(s, Do(c, s, Restart));
  }

  lemma {:induction false} RunKeeps(c: Config, s: State, steps: seq<Step>)
    requires Inv(c, s) && Run(c, s, steps)
    ensures Inv(c, Final(c, s, steps))
    decreases |steps|
  {
    hide Inv, Enabled, Do;
    if steps != [] {
      StepKeeps(c, s, steps[0]);
      RunKeeps(c, Do(c, s, steps[0]), steps[1..]);
    }
  }

  // ---------- what follows for every run ----------

  ghost predicate Stored(s: State, id: JobID) {
    exists b :: id in b && b in s.router && b in s.batchRouter
  }

  /** At least once: a job marked succeeded has had the jobs derived from it stored in both stores; it is marked so only
      once; and every other job can be fetched, or is under way, or could not be parsed and waits for a restart. */
  lemma AtLeastOnce(c: Config, s: State, steps: seq<Step>)
    requires Init(s) && Run(c, s, steps)
    ensures var t := Final(c, s, steps);
      && (forall id :: id in t.jobs && t.jobs[id] == Succeeded ==> Stored(t, id))
      && (forall j, k :: 0 <= j < k < |t.done| ==> t.done[j] !! t.done[k])
      && (t.up ==> forall id :: id in t.jobs ==>
        t.jobs[id] == Succeeded || Fetchable(t.jobs[id]) || UnderWay(t, id) || !c.parses(id))
      && (!t.up && Enabled(c, t, Restart) ==> forall id :: id in t.jobs ==>
          t.jobs[id] == Succeeded || Fetchable(t.jobs[id]))
  {
    RunKeeps(c, s, steps);
    var t := Final(c, s, steps);
    forall id | id in t.jobs && t.jobs[id] == Succeeded ensures Stored(t, id) {
      var k :| 0 <= k < |t.done| && id in t.done[k];
      assert t.done[k] in t.router && t.done[k] in t.batchRouter;
    }
  }

  /** A job that was only in a session buffer when the process crashed can be fetched again once crashRecover is
      done. */
  lemma BufferedComesBack(c: Config, s: State, steps: seq<Step>, more: seq<Step>, id: JobID)
    requires Init(s) && Run(c, s, steps) && id in Final(c, s, steps).buffer
    requires forall k :: 0 <= k < |more| ==> more[k].Fail? || more[k].Crash? || more[k].Store?
    requires Run(c, Do(c, Final(c, s, steps), Crash), more)
    requires Enabled(c, Final(c, Do(c, Final(c, s, steps), Crash), more), Restart)
    ensures var t := Final(c, Do(c, Final(c, s, steps), Crash), more); id in t.jobs && t.jobs[id] == Failed
  {
    RunKeeps(c, s, steps);
    var u := Do(c, Final(c, s, steps), Crash);
    CrashKeeps(c, Final(c, s, steps));
    OnlyFails(c, u, more, id);
  }

  lemma {:induction false} OnlyFails(c: Config, s: State, more: seq<Step>, id: JobID)
    requires Inv(c, s) && Run(c, s, more) && id in s.jobs && (s.jobs[id] == Executing || s.jobs[id] == Failed)
    requires forall k :: 0 <= k < |more| ==> more[k].Fail? || more[k].Crash? || more[k].Store?
    ensures var t := Final(c, s, more); id in t.jobs && (t.jobs[id] == Executing || t.jobs[id] == Failed)
    decreases |more|
  {
    if more != [] {
      StepKeeps(c, s, more[0]);
      forall k | 0 <= k < |more[1..]| ensures more[1..][k].Fail? || more[1..][k].Crash? || more[1..][k].Store? {
        assert more[1..][k] == more[k + 1];
      }
      OnlyFails(c, Do(c, s, more[0]), more[1..], id);
    }
  }

  // ---------- once only without a crash ----------

  ghost predicate Handled(s: State, id: JobID) {
    || (id in s.jobs && s.jobs[id] == Succeeded)
    || exists k :: 0 <= k < |s.tasks| && s.tasks[k].stage != Nothing && id in s.tasks[k].ids
  }

  /** No job has had its derived jobs stored twice. */
  ghost predicate StoredOnce(s: State) {
    forall j, k :: 0 <= j < k < |s.router| ==> s.router[j] !! s.router[k]
  }

  ghost predicate OnceOK(s: State) {
    StoredOnce(s) && forall k, id :: 0 <= k < |s.router| && id in s.router[k] ==> Handled(s, id)
  }

  lemma HandledStays(c: Config, s: State, step: Step, id: JobID)
    requires Inv(c, s) && Enabled(c, s, step) && step != Crash && Handled(s, id)
    ensures Handled(Do(c, s, step), id)
  {
    hide NoneForgotten, DoneOK;
    var s' := Do(c, s, step);
    if id in s.jobs && s.jobs[id] == Succeeded {
      assert id in s'.jobs && s'.jobs[id] == Succeeded;
    } else {
      var k :| 0 <= k < |s.tasks| && s.tasks[k].stage != Nothing && id in s.tasks[k].ids;
      if step.Advance? && s.tasks[step.k].stage == BothStored {
        if k != step.k {
          assert s'.tasks[if k < step.k then k else k - 1] == s.tasks[k];
        } else {
          assert id in s'.jobs && s'.jobs[id] == Succeeded;
        }
      } else {
        assert s'.tasks[k].ids == s.tasks[k].ids && s'.tasks[k].stage != Nothing;
      }
    }
  }

  lemma OnceStep(c: Config, s: State, step: Step)
    requires Inv(c, s) && OnceOK(s) && Enabled(c, s, step) && step != Crash
    ensures OnceOK(Do(c, s, step))
  {
    var s' := Do(c, s, step);
    forall k, id | 0 <= k < |s.router| && id in s.router[k] ensures Handled(s', id) {
      HandledStays(c, s, step, id);
    }
    if step.Advance? && s.tasks[step.k].stage == Nothing {
      var t := s.tasks[step.k];
      assert s'.router == s.router + [t.ids] && s'.tasks[step.k] == t.(stage := RouterStored);
      forall id | id in t.ids ensures Handled(s', id) && !Handled(s, id) {
        NotHandled(c, s, step.k, id);
      }
      forall j | 0 <= j < |s.router| ensures s.router[j] !! t.ids {
        forall id | id in s.router[j] ensures id !in t.ids {
          assert Handled(s, id);
        }
      }
    }
  }

  /** A job whose task has stored nothing yet has not been dealt with. */
  lemma NotHandled(c: Config, s: State, k: int, id: JobID)
    requires Inv(c, s) && 0 <= k < |s.tasks| && s.tasks[k].stage == Nothing && id in s.tasks[k].ids
    ensures !Handled(s, id)
  {
    assert AllIn(s.jobs, s.tasks[k].ids, Executing) || AllFetchable(s.jobs, s.tasks[k].ids);
    forall j | 0 <= j < |s.tasks| && s.tasks[j].stage != Nothing ensures id !in s.tasks[j].ids {
      OtherTask(s.tasks, k, j);
    }
  }

  lemma {:induction false} OnceWithoutCrash(c: Config, s: State, steps: seq<Step>)
    requires Inv(c, s) && OnceOK(s) && Run(c, s, steps) && Crash !in steps
    ensures OnceOK(Final(c, s, steps))
    decreases |steps|
  {
    hide Inv, OnceOK, Enabled, Do;
    if steps != [] {
      assert steps[0] in steps;
      StepKeeps(c, s, steps[0]);
      OnceStep(c, s, steps[0]);
      assert forall x :: x in steps[1..] ==> x in steps;
      OnceWithoutCrash(c, Do(c, s, steps[0]), steps[1..]);
    }
  }

  /** In every run without a crash the derived jobs of every job are stored at most once. */
  lemma ExactlyOnceWithoutCrash(c: Config, s: State, steps: seq<Step>)
    requires Init(s) && Run(c, s, steps) && Crash !in steps
    ensures StoredOnce(Final(c, s, steps))
  {
    OnceWithoutCrash(c, s, steps);
  }

  lemma RunOn(c: Config, s: State, step: Step, rest: seq<Step>)
    requires Enabled(c, s, step) && Run(c, Do(c, s, step), rest)
    ensures Run(c, s, [step] + rest) && Final(c, s, [step] + rest) == Final(c, Do(c, s, step), rest)
  {
    assert ([step] + rest)[0] == step && ([step] + rest)[1..] == rest;
  }

  ghost function HalfDone(s: State): State {
    s.(tasks := [Task({1}, RouterStored)], router := s.router + [{1}])
  }

  /** Job 1 is fetched and its derived jobs are stored for the router. */
  lemma StoresOne(c: Config, s: State, rest: seq<Step>)
    requires !c.processSessions && s.up && s.tasks == [] && s.picked == {} && s.marked == {}
    requires s.jobs == map[1 := Unprocessed]
    requires Run(c, HalfDone(s), rest)
    ensures Run(c, s, [Fetch({1})] + ([Advance(0)] + rest))
    ensures Final(c, s, [Fetch({1})] + ([Advance(0)] + rest)) == Final(c, HalfDone(s), rest)
  {
    hide Run, Final;
    var u := Do(c, s, Fetch({1}));
    assert Do(c, u, Advance(0)) == HalfDone(s);
    RunOn(c, u, Advance(0), rest);
    RunOn(c, s, Fetch({1}), [Advance(0)] + rest);
  }

  lemma CrashStoresTwice() returns (c: Config, s: State, steps: seq<Step>)
    ensures Init(s) && Run(c, s, steps) && !StoredOnce(Final(c, s, steps))
  {
    hide Run, Final;
    c := Config(false, id => true);
    s := State(map[], 1, true, {}, {}, {}, [], [], [], []);
    var s1 := Do(c, s, Store);
    assert s1.jobs == map[1 := Unprocessed];
    var s3 := HalfDone(s1);
    var s4 := Do(c, s3, Crash);
    var s5 := Do(c, s4, Restart);
    var s7 := HalfDone(s5);
    assert 1 in s7.router[0] && 1 in s7.router[1];
    NoSteps(c, s7);
    StoresOne(c, s5, []);
    var again := [Fetch({1})] + ([Advance(0)] + []);
    RunOn(c, s4, Restart, again);
    RunOn(c, s3, Crash, [Restart] + again);
    StoresOne(c, s1, [Crash] + ([Restart] + again));
    steps := [Store] + ([Fetch({1})] + ([Advance(0)] + ([Crash] + ([Restart] + again))));
    RunOn(c, s, Store, [Fetch({1})] + ([Advance(0)] + ([Crash] + ([Restart] + again))));
  }

  lemma NoSteps(c: Config, s: State)
    ensures Run(c, s, []) && Final(c, s, []) == s
  {
  }
}
