/** Writing statuses, by the generator and by the status loop, keeps the protocol's invariant. */
module RouterStatus {
  import opened Common
  import opened Router
  import opened RouterUser
  import opened RouterInvariant

  // ---------- the batch update ----------

  lemma {:induction false} SetStatesOthers(jobs: map<JobID, Row>, q: seq<Item>)
    ensures forall i :: i in SetStates(jobs, q) <==> i in jobs
    ensures forall i :: i in jobs ==> SetStates(jobs, q)[i].user == jobs[i].user
    ensures forall i :: i in jobs && !In(q, i) ==> SetStates(jobs, q)[i] == jobs[i]
    decreases |q|
  {
    if q != [] {
      assert In(q, q[0].id);
      forall i | In(q[1..], i) ensures In(q, i) {
        var k :| 0 <= k < |q[1..]| && q[1..][k].id == i;
        assert q[k + 1].id == i;
      }
      SetStatesOthers(if q[0].id !in jobs then jobs
                      else jobs[q[0].id := jobs[q[0].id].(state := StateOf(q[0].tag), attempt := q[0].attempt)],
                          q[1..]);
    }
  }

  /** Ids that differ for every single user differ throughout, because an id tells its user. */
  ghost predicate DistinctPerUser(q: seq<Item>) {
    forall j, k :: 0 <= j < k < |q| ==> q[j].id != q[k].id
  }

  lemma {:induction false} SetStatesAt(jobs: map<JobID, Row>, q: seq<Item>, k: int)
    requires DistinctPerUser(q) && 0 <= k < |q| && q[k].id in jobs
    ensures q[k].id in SetStates(jobs, q)
    ensures SetStates(jobs, q)[q[k].id] == jobs[q[k].id].(state := StateOf(q[k].tag), attempt := q[k].attempt)
    decreases |q|
  {
    var jobs' := if q[0].id !in jobs then jobs
                 else jobs[q[0].id := jobs[q[0].id].(state := StateOf(q[0].tag), attempt := q[0].attempt)];
    forall i, j | 0 <= i < j < |q[1..]| ensures q[1..][i].id != q[1..][j].id {
      assert q[i + 1].id != q[j + 1].id;
    }
    if k == 0 {
      SetStatesOthers(jobs', q[1..]);
      forall j | 0 <= j < |q[1..]| ensures q[1..][j].id != q[0].id {
        assert q[j + 1].id != q[0].id;
      }
    } else {
      assert q[1..][k - 1] == q[k];
      SetStatesAt(jobs', q[1..], k - 1);
    }
  }

  lemma {:induction false} OfDistinct(q: seq<Item>, u: User, j: int, k: int)
    requires 0 <= j < k < |q| && q[j].user == u == q[k].user
    ensures exists a, b :: 0 <= a < b < |Of(u, q)| && Of(u, q)[a] == q[j] && Of(u, q)[b] == q[k]
    decreases |q|
  {
    var o, t := Of(u, q), Of(u, q[1..]);
    assert q[1..][k - 1] == q[k];
    if j == 0 {
      OfMembers(u, q[1..]);
      assert q[k] in q[1..];
      var b :| 0 <= b < |t| && t[b] == q[k];
      assert o[0] == q[0] && o[b + 1] == q[k];
    } else {
      assert q[1..][j - 1] == q[j];
      OfDistinct(q[1..], u, j - 1, k - 1);
      var a, b :| 0 <= a < b < |t| && t[a] == q[j] && t[b] == q[k];
      var d := |o| - |t|;
      assert o[a + d] == q[j] && o[b + d] == q[k];
    }
  }

  /** A queue whose items are each user's distinct jobs. */
  lemma QueueDistinct(jobs: map<JobID, Row>, q: seq<Item>)
    requires Known(jobs, q)
    requires forall u, a, b :: 0 <= a < b < |Of(u, q)| ==> Of(u, q)[a].id != Of(u, q)[b].id
    ensures DistinctPerUser(q)
  {
    forall j, k | 0 <= j < k < |q| ensures q[j].id != q[k].id {
      if q[j].user == q[k].user {
        OfDistinct(q, q[j].user, j, k);
      }
    }
  }

  lemma InOf(jobs: map<JobID, Row>, q: seq<Item>, u: User, i: JobID)
    requires Known(jobs, q) && Mine(jobs, u, i)
    ensures In(q, i) <==> In(Of(u, q), i)
  {
    OfMembers(u, q);
    if k :| 0 <= k < |q| && q[k].id == i {
      assert q[k] in Of(u, q);
      var j :| 0 <= j < |Of(u, q)| && Of(u, q)[j] == q[k];
    }
    if j :| 0 <= j < |Of(u, q)| && Of(u, q)[j].id == i {
      assert Of(u, q)[j] in q;
      var k :| 0 <= k < |q| && q[k] == Of(u, q)[j];
    }
  }

  // ---------- the status loop collects ----------

  lemma ReceiveFlow(c: Config, s: State, u: User)
    requires Placed(c, s) && Enabled(c, s, Receive)
    ensures Flow(c, Do(c, s, Receive), u) == Flow(c, s, u)
  {
    var s', x, rest := Do(c, s, Receive), s.respQ[0], s.respQ[1..];
    assert s.respQ == [x] + rest;
    OfAppend(u, [x], rest);
    OfAppend(u, s.buf, [x]);
    var worker := s.workers[WorkerOf(c, u)];
    var b, o, r := Of(u, s.buf), Of(u, [x]), Of(u, rest);
    var cur, ch, out := Of(u, Current(worker.phase)), Of(u, worker.channel), Of(u, Outgoing(s.gen));
    assert Flow(c, s, u) == b + (o + r) + cur + ch + out;
    assert Flow(c, s', u) == (b + o) + r + cur + ch + out;
    assert b + (o + r) == (b + o) + r;
  }

  lemma ReceiveKeeps(c: Config, s: State)
    requires Inv(c, s) && Enabled(c, s, Receive)
    ensures Inv(c, Do(c, s, Receive))
  {
    var s' := Do(c, s, Receive);
    assert forall u :: BlockOf(c, s', u) == BlockOf(c, s, u);
    assert Placed(c, s');
    GeneratorUnmoved(c, s, s');
    ClearListUnmoved(c, s, s');
    forall u ensures InvFor(c, s', u) {
      ReceiveFlow(c, s, u);
      InvForSame(c, s, s', u);
    }
  }

  lemma ScanKeeps(c: Config, s: State)
    requires Inv(c, s) && Enabled(c, s, Scan)
    ensures Inv(c, Do(c, s, Scan))
  {
    var s' := Do(c, s, Scan);
    assert forall u :: BlockOf(c, s', u) == BlockOf(c, s, u);
    GeneratorUnmoved(c, s, s');
    forall u ensures InvFor(c, s', u) {
      assert Flow(c, s', u) == Flow(c, s, u);
      ScanClearPending(c, s, u);
      InvForSame(c, s, s', u);
    }
  }

  lemma ScanClearPending(c: Config, s: State, u: User)
    requires Placed(c, s) && Enabled(c, s, Scan)
    ensures ClearPending(c, Do(c, s, Scan), u) == ClearPending(c, s, u)
  {
  }

  // ---------- the status loop flushes ----------

  lemma FlushDistinct(c: Config, s: State)
    requires Inv(c, s)
    ensures DistinctPerUser(s.buf)
  {
    forall u, a, b | 0 <= a < b < |Of(u, s.buf)| ensures Of(u, s.buf)[a].id != Of(u, s.buf)[b].id {
      FlowShape(c, s, u);
      assert InvFor(c, s, u);
      assert Flow(c, s, u)[a] == Of(u, s.buf)[a] && Flow(c, s, u)[b] == Of(u, s.buf)[b];
    }
    QueueDistinct(s.jobs, s.buf);
  }

  /** What a flush does to the rows of u, in terms of u's flow. */
  lemma FlushRows(c: Config, s: State, u: User)
    requires Inv(c, s)
    ensures Flushing(s.jobs, u, Flow(c, s, u), |Of(u, s.buf)|, SetStates(s.jobs, s.buf))
  {
    var f, n, jobs' := Flow(c, s, u), |Of(u, s.buf)|, SetStates(s.jobs, s.buf);
    FlushDistinct(c, s);
    SetStatesOthers(s.jobs, s.buf);
    FlowShape(c, s, u);
    OfMembers(u, s.buf);
    forall i | Mine(s.jobs, u, i) ensures i in jobs' && (!In(f[..n], i) ==> jobs'[i] == s.jobs[i]) {
      InOf(s.jobs, s.buf, u, i);
    }
    forall k | 0 <= k < n && Mine(s.jobs, u, f[k].id)
      ensures f[k].id in jobs' && f[k].tag.Answered? && jobs'[f[k].id] == Row(u, f[k].tag.state, f[k].attempt)
    {
      assert f[k] == Of(u, s.buf)[k] && f[k] in s.buf;
      var j :| 0 <= j < |s.buf| && s.buf[j] == f[k];
      SetStatesAt(s.jobs, s.buf, j);
    }
  }

  lemma FlushFlow(c: Config, s: State, u: User)
    requires Placed(c, s) && Enabled(c, s, Flush)
    ensures |Of(u, s.buf)| <= |Flow(c, s, u)|
    ensures Flow(c, Do(c, s, Flush), u) == Flow(c, s, u)[|Of(u, s.buf)|..]
  {
  }

  lemma FlushClearPending(c: Config, s: State, u: User)
    requires Placed(c, s) && Enabled(c, s, Flush)
    ensures |Of(u, s.buf)| <= |Flow(c, s, u)|
    ensures ClearPending(c, Do(c, s, Flush), u)
        <==> ClearPending(c, s, u) || Released(Flow(c, s, u), |Of(u, s.buf)|, BlockOf(c, s, u))
  {
    hide Flow, SetStates, Of, WorkerOK, Known;
    var s', f, n, b := Do(c, s, Flush), Flow(c, s, u), |Of(u, s.buf)|, BlockOf(c, s, u);
    FlushFlow(c, s, u);
    FlowShape(c, s, u);
    assert BlockOf(c, s', u) == b && s'.toClear == s.toClear && s'.scan == s.buf;
    OfMembers(u, s.buf);
    if Released(f, n, b) {
      var k :| 0 <= k < |f[..n]| && f[..n][k].id == b.value && Decided(f[..n][k].tag);
      assert f[..n][k] in s.buf;
      var j :| 0 <= j < |s.buf| && s.buf[j] == f[..n][k];
      assert s'.scan[j].user == u;
    }
    if k :| 0 <= k < |s'.scan| && s'.scan[k].user == u && Decided(s'.scan[k].tag) && b == Some(s'.scan[k].id) {
      assert s.buf[k] in Of(u, s.buf);
      var j :| 0 <= j < n && Of(u, s.buf)[j] == s.buf[k];
      assert f[..n][j].id == b.value;
    }
  }

  lemma FlushUser(c: Config, s: State, u: User)
    requires Inv(c, s) && Enabled(c, s, Flush)
    ensures InvFor(c, Do(c, s, Flush), u)
  {
    FlushFlow(c, s, u);
    FlushRows(c, s, u);
    FlushClearPending(c, s, u);
    assert InvFor(c, s, u);
    Flushed(s.jobs, s.completed, u, Flow(c, s, u), BlockOf(c, s, u), ClearPending(c, s, u), |Of(u, s.buf)|,
        SetStates(s.jobs, s.buf), c.maxFailed);
  }

  /** A flush only moves jobs out of executing, and to waiting only for blocked users. */
  lemma FlushMoves(c: Config, s: State, i: JobID)
    requires Inv(c, s) && i in s.jobs
    ensures var jobs' := SetStates(s.jobs, s.buf);
      && i in jobs' && jobs'[i].user == s.jobs[i].user
      && (s.jobs[i].state != Executing ==> jobs'[i] == s.jobs[i])
      && (s.jobs[i].state == Executing && BlockOf(c, s, s.jobs[i].user) == None ==>
          jobs'[i].state == Executing || Done(jobs'[i].state))
  {
    var u := s.jobs[i].user;
    var f, n := Flow(c, s, u), |Of(u, s.buf)|;
    SetStatesOthers(s.jobs, s.buf);
    FlushRows(c, s, u);
    assert InvFor(c, s, u);
    if In(f[..n], i) {
      var k :| 0 <= k < |f[..n]| && f[..n][k].id == i;
      assert f[k].id == i;
    }
  }

  /** A job that is not executing keeps its row, and no user becomes unblocked. */
  ghost predicate OnlyFinished(c: Config, s: State, s': State)
    requires |s.workers| == |s'.workers| == c.noOfWorkers > 0
  {
    && (forall i :: i in s'.jobs <==> i in s.jobs)
    && (forall i :: i in s.jobs ==>
      && s'.jobs[i].user == s.jobs[i].user && (s.jobs[i].state != Executing ==> s'.jobs[i] == s.jobs[i])
      && (Unblocked(c, s', i) ==> Unblocked(c, s, i) && (Startable(s'.jobs[i].state) ==> s'.jobs[i] == s.jobs[i])))
  }

  lemma FlushFinishes(c: Config, s: State)
    requires Inv(c, s) && Enabled(c, s, Flush)
    ensures OnlyFinished(c, s, Do(c, s, Flush))
  {
    hide GeneratorOK, InvFor, ClearListOK, HistoryOK, Placed;
    var s' := Do(c, s, Flush);
    SetStatesOthers(s.jobs, s.buf);
    forall i | i in s.jobs
      ensures s.jobs[i].state != Executing ==> s'.jobs[i] == s.jobs[i]
      ensures Unblocked(c, s', i) ==> Unblocked(c, s, i) && (Startable(s'.jobs[i].state) ==> s'.jobs[i] == s.jobs[i])
    {
      FlushMoves(c, s, i);
    }
  }

  lemma FinishedLine(c: Config, s: State, s': State, todo: seq<Item>, chosen: seq<Item>)
    requires |s.workers| == |s'.workers| == c.noOfWorkers > 0 && OnlyFinished(c, s, s') && InLine(c, s, todo, chosen)
    requires forall k :: 0 <= k < |todo| ==> todo[k].id in s.jobs
    ensures InLine(c, s', todo, chosen)
  {
  }

  lemma FlushGenerator(c: Config, s: State)
    requires Inv(c, s) && Enabled(c, s, Flush)
    ensures GeneratorOK(c, Do(c, s, Flush))
  {
    hide InvFor, ClearListOK, HistoryOK, Placed, InLine, SetStates;
    var s' := Do(c, s, Flush);
    FlushFinishes(c, s);
    if s.gen.Deciding? {
      FinishedLine(c, s, s', s.gen.todo, s.gen.chosen);
    }
  }

  lemma FlushPlaced(c: Config, s: State)
    requires Placed(c, s) && Enabled(c, s, Flush)
    ensures Placed(c, Do(c, s, Flush))
  {
    var s' := Do(c, s, Flush);
    SetStatesOthers(s.jobs, s.buf);
    assert forall u, i :: Mine(s.jobs, u, i) ==> Mine(s'.jobs, u, i);
    forall w | 0 <= w < |s.workers| ensures WorkerOK(c, s'.jobs, s'.workers[w], w) {
      assert WorkerOK(c, s.jobs, s.workers[w], w);
    }
  }

  lemma FlushClearList(c: Config, s: State)
    requires Inv(c, s) && Enabled(c, s, Flush)
    ensures ClearListOK(c, Do(c, s, Flush)) && HistoryOK(Do(c, s, Flush))
  {
    var s' := Do(c, s, Flush);
    SetStatesOthers(s.jobs, s.buf);
    FlushDistinct(c, s);
    forall k | 0 <= k < |s.buf| && Decided(s.buf[k].tag)
      ensures s.buf[k].id in s'.jobs && Done(s'.jobs[s.buf[k].id].state)
    {
      assert Mine(s.jobs, s.buf[k].user, s.buf[k].id);
      SetStatesAt(s.jobs, s.buf, k);
    }
    forall k | 0 <= k < |s.completed| ensures s.completed[k] in s'.jobs {
      var i := s.completed[k];
      assert i in s.jobs;
      assert i in s'.jobs;
    }
    forall j, k | 0 <= j < k < |s.completed| && s'.jobs[s.completed[j]].user == s'.jobs[s.completed[k]].user
      ensures s.completed[j] < s.completed[k]
    {
      assert s.completed[j] in s.jobs && s.completed[k] in s.jobs;
    }
    forall k | 0 <= k < |s.toClear|
      ensures var b := BlockOf(c, s', s.toClear[k].1); b.Some? && b.value in s'.jobs && Done(s'.jobs[b.value].state)
    {
      FlushMoves(c, s, BlockOf(c, s, s.toClear[k].1).value);
    }
  }

  lemma FlushKeeps(c: Config, s: State)
    requires Inv(c, s) && Enabled(c, s, Flush)
    ensures Inv(c, Do(c, s, Flush))
  {
    FlushPlaced(c, s);
    FlushGenerator(c, s);
    FlushClearList(c, s);
    forall u ensures InvFor(c, Do(c, s, Flush), u) { FlushUser(c, s, u); }
  }

  // ---------- the generator marks executing ----------

  lemma {:induction false} OfRetag(u: User, q: seq<Item>)
    ensures Of(u, Retag(q)) == Retag(Of(u, q))
    decreases |q|
  {
    if q != [] {
      OfRetag(u, q[1..]);
      assert Retag(q)[1..] == Retag(q[1..]);
      assert Retag(q)[0] == q[0].(tag := Queued);
    }
  }

  /** The part of a flow upstream of the generator. */
  ghost function Upstream(c: Config, s: State, u: User): seq<Item>
    requires |s.workers| == c.noOfWorkers > 0
  {
    var worker := s.workers[WorkerOf(c, u)];
    Of(u, s.buf) + Of(u, s.respQ) + Of(u, Current(worker.phase)) + Of(u, worker.channel)
  }

  lemma UpstreamNotChosen(c: Config, s: State, u: User)
    requires Placed(c, s)
    ensures forall k :: 0 <= k < |Upstream(c, s, u)| ==> Upstream(c, s, u)[k].tag != Chosen
    ensures Flow(c, s, u) == Upstream(c, s, u) + Of(u, Outgoing(s.gen))
  {
    var worker := s.workers[WorkerOf(c, u)];
    assert WorkerOK(c, s.jobs, worker, WorkerOf(c, u));
    OfNotChosen(u, s.buf);
    OfNotChosen(u, s.respQ);
    OfNotChosen(u, worker.channel);
    OfNotChosen(u, Current(worker.phase));
  }

  lemma MarkFlow(c: Config, s: State, u: User)
    requires Placed(c, s) && Enabled(c, s, Mark)
    ensures Flow(c, Do(c, s, Mark), u) == Upstream(c, s, u) + Retag(Of(u, s.gen.chosen))
  {
    hide Of, SetStates;
    var s' := Do(c, s, Mark);
    assert s'.buf == s.buf && s'.respQ == s.respQ && s'.workers == s.workers;
    OfRetag(u, s.gen.chosen);
  }

  lemma RetagTail(before: seq<Item>, o: seq<Item>)
    requires forall k :: 0 <= k < |before| ==> before[k].tag != Chosen
    requires forall k :: 0 <= k < |o| ==> o[k].tag == Chosen
    ensures var f, f' := before + o, before + Retag(o);
      |f'| == |f| && forall k :: 0 <= k < |f| ==> f'[k] == if f[k].tag.Chosen? then f[k].(tag := Queued) else f[k]
  {
  }

  lemma MarkRetags(c: Config, s: State, u: User)
    requires Placed(c, s) && Enabled(c, s, Mark)
    ensures var f, f' := Flow(c, s, u), Flow(c, Do(c, s, Mark), u);
      |f'| == |f| && forall k :: 0 <= k < |f| ==> f'[k] == if f[k].tag.Chosen? then f[k].(tag := Queued) else f[k]
  {
    UpstreamNotChosen(c, s, u);
    MarkFlow(c, s, u);
    OfMembers(u, s.gen.chosen);
    RetagTail(Upstream(c, s, u), Of(u, s.gen.chosen));
  }

  lemma MarkDistinct(c: Config, s: State)
    requires Inv(c, s) && Enabled(c, s, Mark)
    ensures DistinctPerUser(s.gen.chosen)
  {
    hide Of, Retag, SetStates, GeneratorOK, ClearListOK, HistoryOK, WorkerOK, Stage;
    forall u, a, b | 0 <= a < b < |Of(u, s.gen.chosen)| ensures Of(u, s.gen.chosen)[a].id != Of(u, s.gen.chosen)[b].id {
      var f, o := Flow(c, s, u), Of(u, s.gen.chosen);
      var d := |f| - |o|;
      assert f[d + a] == o[a] && f[d + b] == o[b];
      assert InvFor(c, s, u);
    }
    QueueDistinct(s.jobs, s.gen.chosen);
  }

  /** The rows of jobs u did not have chosen stay as they are. */
  lemma MarkOthers(c: Config, s: State, u: User)
    requires Inv(c, s) && Enabled(c, s, Mark)
    ensures var f, jobs' := Flow(c, s, u), SetStates(s.jobs, Retag(s.gen.chosen));
      && (forall i :: Mine(s.jobs, u, i) && !In(f, i) ==> i in jobs' && jobs'[i] == s.jobs[i])
      && (forall k :: 0 <= k < |f| && Mine(s.jobs, u, f[k].id) && !f[k].tag.Chosen? ==>
        f[k].id in jobs' && jobs'[f[k].id] == s.jobs[f[k].id])
  {
    var f, chosen, q := Flow(c, s, u), s.gen.chosen, Retag(s.gen.chosen);
    SetStatesOthers(s.jobs, q);
    forall i | In(q, i) ensures In(chosen, i) {
      var k :| 0 <= k < |q| && q[k].id == i;
      assert chosen[k].id == i;
    }
    forall i | Mine(s.jobs, u, i) && In(chosen, i) ensures In(f, i) {
      ChosenInFlow(c, s, i);
    }
    forall k | 0 <= k < |f| && Mine(s.jobs, u, f[k].id) && !f[k].tag.Chosen? ensures !In(chosen, f[k].id) {
      if j :| 0 <= j < |chosen| && chosen[j].id == f[k].id {
        ChosenTag(c, s, u, k, j);
      }
    }
  }

  lemma MarkChosen(c: Config, s: State, u: User)
    requires Inv(c, s) && Enabled(c, s, Mark)
    ensures var f, jobs' := Flow(c, s, u), SetStates(s.jobs, Retag(s.gen.chosen));
      forall k :: 0 <= k < |f| && Mine(s.jobs, u, f[k].id) && f[k].tag.Chosen? ==>
        f[k].id in jobs' && jobs'[f[k].id] == Row(u, Executing, f[k].attempt)
  {
    var f, chosen, q := Flow(c, s, u), s.gen.chosen, Retag(s.gen.chosen);
    MarkDistinct(c, s);
    FlowChosen(c, s, u);
    forall i, j | 0 <= i < j < |q| ensures q[i].id != q[j].id {
      assert chosen[i].id != chosen[j].id;
    }
    forall k | 0 <= k < |f| && Mine(s.jobs, u, f[k].id) && f[k].tag.Chosen?
      ensures f[k].id in SetStates(s.jobs, q) && SetStates(s.jobs, q)[f[k].id] == Row(u, Executing, f[k].attempt)
    {
      assert f[k] in chosen;
      var j :| 0 <= j < |chosen| && chosen[j] == f[k];
      assert q[j] == chosen[j].(tag := Queued);
      SetStatesAt(s.jobs, q, j);
    }
  }

  lemma MarkRows(c: Config, s: State, u: User)
    requires Inv(c, s) && Enabled(c, s, Mark)
    ensures Marking(s.jobs, u, Flow(c, s, u), Do(c, s, Mark).jobs, Flow(c, Do(c, s, Mark), u))
  {
    hide Flow, Of, SetStates, Retag, InvFor, GeneratorOK, ClearListOK, HistoryOK, WorkerOK;
    MarkRetags(c, s, u);
    MarkOthers(c, s, u);
    MarkChosen(c, s, u);
    SetStatesOthers(s.jobs, Retag(s.gen.chosen));
  }

  lemma ChosenMine(c: Config, s: State, u: User, k: int, j: int)
    requires Inv(c, s) && s.gen.Deciding? && 0 <= k < |Flow(c, s, u)| && 0 <= j < |s.gen.chosen|
    requires s.gen.chosen[j].id == Flow(c, s, u)[k].id
    ensures s.gen.chosen[j].user == u && s.gen.chosen[j].tag == Chosen
    ensures forall i :: 0 <= i < |Flow(c, s, u)| && Flow(c, s, u)[i].id == Flow(c, s, u)[k].id ==> i == k
  {
    hide GeneratorOK, ClearListOK, HistoryOK, Flow, Stage, Completed, UntouchedLast, TriesLeft, WorkerOK;
    assert InvFor(c, s, u) && Mine(s.jobs, u, Flow(c, s, u)[k].id);
  }

  /** What is left of a flow behind everything else is the generator's. */
  lemma FlowEnds(c: Config, s: State, u: User, i: int)
    requires |s.workers| == c.noOfWorkers > 0 && 0 <= i < |Of(u, Outgoing(s.gen))|
    ensures var f, o := Flow(c, s, u), Of(u, Outgoing(s.gen)); |f| >= |o| && f[|f| - |o| + i] == o[i]
  {
  }

  lemma ChosenTag(c: Config, s: State, u: User, k: int, j: int)
    requires Inv(c, s) && Enabled(c, s, Mark) && 0 <= k < |Flow(c, s, u)| && 0 <= j < |s.gen.chosen|
    requires s.gen.chosen[j].id == Flow(c, s, u)[k].id
    ensures Flow(c, s, u)[k].tag.Chosen?
  {
    hide Inv, Flow, Of;
    ChosenMine(c, s, u, k, j);
    var chosen, o := s.gen.chosen, Of(u, s.gen.chosen);
    OfMembers(u, chosen);
    assert chosen[j] in o;
    var i :| 0 <= i < |o| && o[i] == chosen[j];
    FlowEnds(c, s, u, i);
  }

  lemma MarkUser(c: Config, s: State, u: User)
    requires Inv(c, s) && Enabled(c, s, Mark)
    ensures InvFor(c, Do(c, s, Mark), u)
  {
    var s' := Do(c, s, Mark);
    MarkRows(c, s, u);
    assert InvFor(c, s, u) && BlockOf(c, s', u) == BlockOf(c, s, u);
    assert ClearPending(c, s', u) == ClearPending(c, s, u);
    MarkedExecuting(s.jobs, s.completed, u, Flow(c, s, u), BlockOf(c, s, u), ClearPending(c, s, u), s'.jobs,
        Flow(c, s', u), c.maxFailed);
  }

  lemma MarkPlaced(c: Config, s: State)
    requires Placed(c, s) && Enabled(c, s, Mark)
    ensures Placed(c, Do(c, s, Mark))
  {
    var s', q := Do(c, s, Mark), Retag(s.gen.chosen);
    SetStatesOthers(s.jobs, q);
    assert forall u, i :: Mine(s.jobs, u, i) ==> Mine(s'.jobs, u, i);
    forall k | 0 <= k < |q| ensures Mine(s.jobs, q[k].user, q[k].id) {
      assert Outgoing(s.gen)[k] == s.gen.chosen[k];
    }
    forall w | 0 <= w < |s.workers| ensures WorkerOK(c, s'.jobs, s'.workers[w], w) {
      assert WorkerOK(c, s.jobs, s.workers[w], w);
    }
  }

  /** Marking touches no job that is done. */
  lemma MarkDone(c: Config, s: State, i: JobID)
    requires Inv(c, s) && Enabled(c, s, Mark) && i in s.jobs && Done(s.jobs[i].state)
    ensures i in Do(c, s, Mark).jobs && Do(c, s, Mark).jobs[i] == s.jobs[i]
  {
    var u := s.jobs[i].user;
    MarkRows(c, s, u);
    assert InvFor(c, s, u);
    MarkedRows(s.jobs, u, Flow(c, s, u), Do(c, s, Mark).jobs, Flow(c, Do(c, s, Mark), u));
  }

  lemma MarkClearList(c: Config, s: State)
    requires Inv(c, s) && Enabled(c, s, Mark)
    ensures ClearListOK(c, Do(c, s, Mark)) && HistoryOK(Do(c, s, Mark))
  {
    var s' := Do(c, s, Mark);
    SetStatesOthers(s.jobs, Retag(s.gen.chosen));
    forall i | i in s.jobs && Done(s.jobs[i].state) ensures i in s'.jobs && s'.jobs[i] == s.jobs[i] {
      MarkDone(c, s, i);
    }
    forall k | 0 <= k < |s.toClear|
      ensures var b := BlockOf(c, s', s.toClear[k].1); b.Some? && b.value in s'.jobs && Done(s'.jobs[b.value].state)
    {
      assert BlockOf(c, s', s.toClear[k].1) == BlockOf(c, s, s.toClear[k].1);
    }
    forall k | 0 <= k < |s.completed| ensures s.completed[k] in s'.jobs {
      var i := s.completed[k];
      assert i in s.jobs;
      assert i in s'.jobs;
    }
    forall j, k | 0 <= j < k < |s.completed| && s'.jobs[s.completed[j]].user == s'.jobs[s.completed[k]].user
      ensures s.completed[j] < s.completed[k]
    {
      assert s.completed[j] in s.jobs && s.completed[k] in s.jobs;
    }
  }

  lemma MarkKeeps(c: Config, s: State)
    requires Inv(c, s) && Enabled(c, s, Mark)
    ensures Inv(c, Do(c, s, Mark))
  {
    MarkPlaced(c, s);
    MarkClearList(c, s);
    forall u ensures InvFor(c, Do(c, s, Mark), u) { MarkUser(c, s, u); }
  }
}
