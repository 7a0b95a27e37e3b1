/** Which jobs the processor can finish: from wherever a run has got to, each can be brought to Succeeded, unless
    sessions are on and its payload does not parse. */
module ProcessorProgress {
  import opened Processor

  // ---------- the way of a job ----------

  ghost predicate InTask(s: State, id: JobID, stage: Stage) {
    exists k :: 0 <= k < |s.tasks| && s.tasks[k].stage == stage && id in s.tasks[k].ids
  }

  ghost predicate SomeExecuting(s: State) {
    exists id :: id in s.jobs && s.jobs[id] == Executing
  }

  /** The step after which a task at this stage is one further. */
  ghost function AdvanceIt(s: State, id: JobID, stage: Stage): Step
    requires InTask(s, id, stage)
  {
    var k :| 0 <= k < |s.tasks| && s.tasks[k].stage == stage && id in s.tasks[k].ids;
    Advance(k)
  }

  /** How many steps at most the job is from Succeeded. */
  ghost function Distance(c: Config, s: State, id: JobID): nat {
    if id in s.jobs && s.jobs[id] == Succeeded then 0
    else if !s.up then (if SomeExecuting(s) then 12 else 11)
    else if InTask(s, id, BothStored) then 1
    else if InTask(s, id, RouterStored) then 2
    else if InTask(s, id, Nothing) then 3
    else if id in s.buffer then 4
    else if id in s.marked then 5
    else if id in s.picked then 6
    else if s.picked != {} then 9
    else if s.marked != {} then 8
    else if c.processSessions || s.tasks == [] then 7
    else match s.tasks[0].stage case Nothing => 10 case RouterStored => 9 case BothStored => 8
  }

  /** A step that brings it nearer: it is moved on where it is, or what is in its way is moved on, or it is fetched. */
  ghost function Next(c: Config, s: State, id: JobID): Step
    requires id in s.jobs && s.jobs[id] != Succeeded
  {
    if !s.up then
      if SomeExecuting(s) then Fail(set i | i in s.jobs && s.jobs[i] == Executing) else Restart
    else if InTask(s, id, BothStored) then AdvanceIt(s, id, BothStored)
    else if InTask(s, id, RouterStored) then AdvanceIt(s, id, RouterStored)
    else if InTask(s, id, Nothing) then AdvanceIt(s, id, Nothing)
    else if id in s.buffer then HandOn({id})
    else if id in s.marked then Add
    else if s.picked != {} then Mark
    else if s.marked != {} then Add
    else if c.processSessions || s.tasks == [] then Fetch({id})
    else Advance(0)
  }

  ghost predicate Usable(c: Config, id: JobID) {
    c.processSessions ==> c.parses(id)
  }

  ghost predicate Nearer(c: Config, s: State, id: JobID, step: Step) {
    && Enabled(c, s, step) && step != Crash && id in Do(c, s, step).jobs && (s.up ==> Do(c, s, step).up)
    && Distance(c, Do(c, s, step), id) < Distance(c, s, id)
  }

  lemma DownNearer(c: Config, s: State, id: JobID)
    requires Inv(c, s) && id in s.jobs && s.jobs[id] != Succeeded && !s.up
    ensures Nearer(c, s, id, Next(c, s, id))
  {
    if SomeExecuting(s) {
      var ids := set i | i in s.jobs && s.jobs[i] == Executing;
      var i :| i in s.jobs && s.jobs[i] == Executing;
      assert i in ids;
      var s' := Do(c, s, Fail(ids));
      assert !SomeExecuting(s');
    }
  }

  /** Only one task holds the job. */
  lemma OneTask(c: Config, s: State, id: JobID, j: int, k: int)
    requires Inv(c, s) && 0 <= j < |s.tasks| && 0 <= k < |s.tasks| && id in s.tasks[j].ids && id in s.tasks[k].ids
    ensures j == k
  {
    if j != k {
      OtherTask(s.tasks, k, j);
    }
  }

  lemma TaskNearer(c: Config, s: State, id: JobID, k: nat)
    requires Inv(c, s) && id in s.jobs && s.jobs[id] != Succeeded && s.up && k < |s.tasks| && id in s.tasks[k].ids
    ensures Next(c, s, id) == Advance(k) && Nearer(c, s, id, Advance(k))
  {
    forall j | 0 <= j < |s.tasks| && id in s.tasks[j].ids ensures j == k {
      OneTask(c, s, id, j, k);
    }
    var stage := s.tasks[k].stage;
    assert InTask(s, id, stage);
    assert forall other :: other != stage ==> !InTask(s, id, other);
    var s' := Do(c, s, Advance(k));
    if stage != BothStored {
      assert s'.tasks[k].ids == s.tasks[k].ids;
      assert InTask(s', id, s'.tasks[k].stage);
    }
  }

  lemma NextNearer(c: Config, s: State, id: JobID)
    requires Inv(c, s) && Sifted(c, s) && id in s.jobs && s.jobs[id] != Succeeded && Usable(c, id)
    ensures Nearer(c, s, id, Next(c, s, id))
  {
    if !s.up {
      DownNearer(c, s, id);
    } else if k :| 0 <= k < |s.tasks| && id in s.tasks[k].ids {
      TaskNearer(c, s, id, k);
    } else {
      assert forall stage :: !InTask(s, id, stage);
      if id in s.buffer {
        var s' := Do(c, s, HandOn({id}));
        assert s'.tasks[|s.tasks|] == Task({id}, Nothing);
        assert InTask(s', id, Nothing);
      } else if id !in s.marked {
        assert Fetchable(s.jobs[id]) by { assert !UnderWay(s, id); }
        FetchNearer(c, s, id);
      }
    }
  }

  /** What waits to be fetched: with sessions, a batch that has been read is marked and added first. */
  lemma FetchNearer(c: Config, s: State, id: JobID)
    requires Inv(c, s) && id in s.jobs && Fetchable(s.jobs[id]) && s.up && Usable(c, id)
    requires id !in s.buffer && id !in s.marked && forall k :: 0 <= k < |s.tasks| ==> id !in s.tasks[k].ids
    ensures Nearer(c, s, id, Next(c, s, id))
  {
    hide StagesOK, DoneOK, NoneForgotten;
    assert forall stage :: !InTask(s, id, stage);
    if c.processSessions {
      var s' := Do(c, s, Next(c, s, id));
      assert s'.tasks == s.tasks;
      assert forall stage :: !InTask(s', id, stage);
    } else if s.tasks == [] {
      var s' := Do(c, s, Fetch({id}));
      assert s'.tasks[0] == Task({id}, Nothing);
      assert InTask(s', id, Nothing);
    } else {
      AdvanceNearer(c, s, id);
    }
  }

  /** Without sessions the batch under way is finished first. */
  lemma AdvanceNearer(c: Config, s: State, id: JobID)
    requires Inv(c, s) && id in s.jobs && Fetchable(s.jobs[id]) && s.up && !c.processSessions && s.tasks != []
    requires id !in s.tasks[0].ids
    ensures Nearer(c, s, id, Advance(0)) && Next(c, s, id) == Advance(0)
  {
    hide StagesOK, DoneOK, NoneForgotten;
    assert |s.tasks| == 1;
    assert forall stage :: !InTask(s, id, stage);
    var s' := Do(c, s, Advance(0));
    assert |s'.tasks| == if s.tasks[0].stage == BothStored then 0 else 1;
    assert forall stage :: !InTask(s', id, stage);
  }

  // ---------- what can be finished at all ----------

  /** Without sessions nothing is marked executing; with them only what parses gets behind the marking. */
  ghost predicate Sifted(c: Config, s: State) {
    && (!c.processSessions ==> forall id :: id in s.jobs ==> s.jobs[id] != Executing)
    && (c.processSessions ==>
        && (forall id :: id in s.jobs && s.jobs[id] == Succeeded ==> c.parses(id))
        && (forall id :: id in s.buffer ==> c.parses(id))
        && forall k, id :: 0 <= k < |s.tasks| && id in s.tasks[k].ids ==> c.parses(id))
  }

  lemma StepSifts(c: Config, s: State, step: Step)
    requires Inv(c, s) && Sifted(c, s) && Enabled(c, s, step)
    ensures Sifted(c, Do(c, s, step))
  {
    hide StagesOK, DoneOK, NoneForgotten;
    var s' := Do(c, s, step);
    if step.Advance? {
      var k := step.k;
      forall j | 0 <= j < |s'.tasks| ensures exists i :: 0 <= i < |s.tasks| && s.tasks[i].ids == s'.tasks[j].ids {
        assert s.tasks[if |s'.tasks| == |s.tasks| || j < k then j else j + 1].ids == s'.tasks[j].ids;
      }
    }
  }

  lemma {:induction false} RunSifts(c: Config, s: State, steps: seq<Step>)
    requires Inv(c, s) && Sifted(c, s) && Run(c, s, steps)
    ensures Inv(c, Final(c, s, steps)) && Sifted(c, Final(c, s, steps))
    decreases |steps|
  {
    hide Inv, Enabled, Do, Sifted;
    if steps != [] {
      StepKeeps(c, s, steps[0]);
      StepSifts(c, s, steps[0]);
      RunSifts(c, Do(c, s, steps[0]), steps[1..]);
    }
  }

  /** A run without a crash that brings the job to Succeeded. */
  ghost predicate Finishes(c: Config, s: State, id: JobID, steps: seq<Step>) {
    && Run(c, s, steps) && Crash !in steps
    && id in Final(c, s, steps).jobs && Final(c, s, steps).jobs[id] == Succeeded
  }

  lemma {:induction false} CanFinish(c: Config, s: State, id: JobID) returns (steps: seq<Step>)
    requires Inv(c, s) && Sifted(c, s) && id in s.jobs && Usable(c, id)
    ensures Finishes(c, s, id, steps) && |steps| <= Distance(c, s, id)
    decreases Distance(c, s, id)
  {
    hide Inv, Sifted, Enabled, Do, Next, Distance, Run, Final;
    NoSteps(c, s);
    if s.jobs[id] == Succeeded {
      steps := [];
    } else {
      var step := Next(c, s, id);
      NextNearer(c, s, id);
      StepKeeps(c, s, step);
      StepSifts(c, s, step);
      var rest := CanFinish(c, Do(c, s, step), id);
      RunOn(c, s, step, rest);
      steps := [step] + rest;
      assert |steps| == 1 + |rest|;
    }
  }

  /** A job that has been stored can be brought to Succeeded from wherever a run has got to, in at most twelve steps and
      with no further crash, exactly if sessions are off or its payload parses. One that does not parse is marked
      executing, or marked failed after a crash and fetched again, for ever. */
  lemma FinishedIff(c: Config, s: State, past: seq<Step>, id: JobID)
    requires Init(s) && Run(c, s, past) && id in Final(c, s, past).jobs
    ensures var t := Final(c, s, past);
      && (Usable(c, id) ==> exists steps :: Finishes(c, t, id, steps) && |steps| <= 12)
      && (!Usable(c, id) ==> forall steps :: Run(c, t, steps) ==>
        id in Final(c, t, steps).jobs ==> Final(c, t, steps).jobs[id] != Succeeded)
  {
    hide Run, Final, Inv, Sifted, Finishes;
    var t := Final(c, s, past);
    InitSifted(c, s);
    RunSifts(c, s, past);
    if Usable(c, id) {
      var steps := CanFinish(c, t, id);
      assert Finishes(c, t, id, steps) && |steps| <= 12;
    } else {
      forall steps | Run(c, t, steps) && id in Final(c, t, steps).jobs
        ensures Final(c, t, steps).jobs[id] != Succeeded
      {
        RunSifts(c, t, steps);
        NotSucceeded(c, Final(c, t, steps), id);
      }
    }
  }

  lemma InitSifted(c: Config, s: State)
    requires Init(s)
    ensures Inv(c, s) && Sifted(c, s)
  {
  }

  lemma NotSucceeded(c: Config, s: State, id: JobID)
    requires Sifted(c, s) && !Usable(c, id) && id in s.jobs
    ensures s.jobs[id] != Succeeded
  {
  }
}
