/** One user's view of the router: the jobs of that user in flight, oldest first, next to the user's
    rows and the blocking job. Every action either leaves this view alone or changes it in one of the
    few ways treated here, and each of them keeps `UserInv`. */
module RouterUser {
  import opened Common
  import opened Router

  ghost predicate Mine(jobs: map<JobID, Row>, u: User, i: JobID) {
    i in jobs && jobs[i].user == u
  }

  ghost predicate Open(jobs: map<JobID, Row>, u: User, i: JobID) {
    Mine(jobs, u, i) && !Done(jobs[i].state)
  }

  ghost predicate In(f: seq<Item>, i: JobID) {
    exists k :: 0 <= k < |f| && f[k].id == i
  }

  ghost function Rank(t: Tag): int {
    match t
    case Answered(_) => 0
    case Failing => 1
    case Queued => 2
    case Chosen => 3
  }

  ghost predicate Decided(t: Tag) {
    t.Answered? && Done(t.state)
  }

  predicate Ready(st: JobState) {
    st == Unprocessed || st == Waiting
  }

  predicate Startable(st: JobState) {
    Ready(st) || st == Failed
  }

  /** Queued behind the blocking job, or already sent to wait. */
  predicate Behind(t: Tag) {
    t == Answered(Waiting) || t == Queued || t == Chosen
  }

  /** What the blocking job can be while it is under way again. */
  predicate Leading(t: Tag) {
    !t.Answered? || t.state == Failed || Done(t.state)
  }

  /** Rows and queues agree: a job is executing exactly while it is in flight and marked. */
  ghost predicate Agree(jobs: map<JobID, Row>, u: User, f: seq<Item>) {
    && (forall k :: 0 <= k < |f| ==>
      && Mine(jobs, u, f[k].id) && f[k].user == u
      && (f[k].tag.Chosen? ==> Startable(jobs[f[k].id].state))
      && (!f[k].tag.Chosen? ==> jobs[f[k].id].state == Executing))
    && (forall j, k :: 0 <= j < k < |f| ==> f[j].id != f[k].id)
    && (forall j, k :: 0 <= j < k < |f| ==> Rank(f[j].tag) <= Rank(f[k].tag))
    && (forall i :: Mine(jobs, u, i) && jobs[i].state == Executing ==> In(f, i))
  }

  /** The outcome of i is decided and on its way to the store. */
  ghost predicate Reported(f: seq<Item>, i: JobID) {
    exists k :: 0 <= k < |f| && f[k].id == i && Decided(f[k].tag)
  }

  /** `completed` lists exactly the jobs whose outcome is decided, and they come before all others. */
  ghost predicate Completed(jobs: map<JobID, Row>, completed: seq<JobID>, u: User, f: seq<Item>) {
    && (forall i :: Mine(jobs, u, i) ==> (i in completed <==> Done(jobs[i].state) || Reported(f, i)))
    && (forall i, j :: i in completed && Mine(jobs, u, i) && Mine(jobs, u, j) && j !in completed ==> i < j)
  }

  /** What is done in the store comes before all that is not. */
  ghost predicate DoneFirst(jobs: map<JobID, Row>, u: User) {
    forall i, j :: Mine(jobs, u, i) && Done(jobs[i].state) && Open(jobs, u, j) ==> i < j
  }

  ghost predicate Fresh(jobs: map<JobID, Row>, u: User, f: seq<Item>, j: JobID) {
    Mine(jobs, u, j) && jobs[j].state == Unprocessed && !In(f, j)
  }

  ghost predicate Touched(jobs: map<JobID, Row>, u: User, f: seq<Item>, i: JobID) {
    Mine(jobs, u, i) && (jobs[i].state != Unprocessed || In(f, i))
  }

  /** Jobs the router has not touched yet come after all others. */
  ghost predicate UntouchedLast(jobs: map<JobID, Row>, u: User, f: seq<Item>) {
    forall i, j :: Touched(jobs, u, f, i) && Fresh(jobs, u, f, j) ==> i < j
  }

  /** Only the blocking job can have used up its m attempts. */
  ghost predicate TriesLeft(jobs: map<JobID, Row>, u: User, f: seq<Item>, b: Option<JobID>, m: int) {
    && (forall i :: Open(jobs, u, i) && b != Some(i) ==> jobs[i].attempt < m)
    && (forall k :: 0 <= k < |f| && b != Some(f[k].id) ==> f[k].attempt < m)
  }

  ghost predicate Increasing(f: seq<Item>) {
    forall j, k :: 0 <= j < k < |f| ==> f[j].id < f[k].id
  }

  ghost predicate WaitingBehind(jobs: map<JobID, Row>, u: User, f: seq<Item>) {
    forall i, k :: Mine(jobs, u, i) && jobs[i].state == Waiting && !In(f, i) && 0 <= k < |f| ==> f[k].id < i
  }

  /** A failed job that neither blocks its user nor is in flight. Only a restart leaves such jobs. */
  ghost predicate Left(jobs: map<JobID, Row>, u: User, f: seq<Item>, b: Option<JobID>, i: JobID) {
    Mine(jobs, u, i) && jobs[i].state == Failed && !In(f, i) && b != Some(i)
  }

  predicate WasDelivered(t: Tag) {
    t == Answered(Succeeded)
  }

  /** Failed jobs left by a restart come before all waiting ones. */
  ghost predicate LeftFirst(jobs: map<JobID, Row>, u: User, f: seq<Item>, b: Option<JobID>) {
    forall i, j :: Left(jobs, u, f, b, i) && Mine(jobs, u, j) && jobs[j].state == Waiting && !In(f, j) ==> i < j
  }

  /** They come behind the jobs in flight, and are few enough that none is left when another job is sent to wait: at
      most two, and at most one once another job is on its way. */
  ghost predicate LeftFew(jobs: map<JobID, Row>, u: User, f: seq<Item>, b: Option<JobID>) {
    && (forall i, k :: Left(jobs, u, f, b, i) && 0 <= k < |f| ==>
      && f[k].id < i
      && (WasDelivered(f[k].tag) || (k == |f| - 1 && (b == None || b == Some(f[k].id)))))
    && (forall i, j :: Left(jobs, u, f, b, i) && Left(jobs, u, f, b, j) && i < j ==>
      && b == None
      && (forall k :: 0 <= k < |f| ==> WasDelivered(f[k].tag))
      && (forall l :: Left(jobs, u, f, b, l) ==> l == i || l == j))
  }

  /** No job of u blocks the others. */
  ghost predicate Free(jobs: map<JobID, Row>, u: User, f: seq<Item>) {
    && Increasing(f) && WaitingBehind(jobs, u, f)
    && (forall k :: 0 <= k < |f| ==> WasDelivered(f[k].tag) || f[k].tag.Queued? || f[k].tag.Chosen?)
  }

  /** b failed for the first time and that outcome is not written yet. */
  ghost predicate FreshBlock(jobs: map<JobID, Row>, u: User, f: seq<Item>, b: JobID, m: int) {
    && Increasing(f) && WaitingBehind(jobs, u, f) && In(f, b)
    && (forall k :: 0 <= k < |f| ==>
      if f[k].id < b then WasDelivered(f[k].tag)
      else if f[k].id == b then f[k].tag == Answered(Failed) || (f[k].tag == Failing && f[k].attempt < m)
      else Behind(f[k].tag))
  }

  /** Every open job of u but b comes after b. */
  ghost predicate Leads(jobs: map<JobID, Row>, u: User, b: JobID) {
    Mine(jobs, u, b) && forall i :: Open(jobs, u, i) && i != b ==> b < i
  }

  /** b is recorded as failed and waits for its next turn. */
  ghost predicate Parked(jobs: map<JobID, Row>, u: User, f: seq<Item>, b: JobID) {
    && Leads(jobs, u, b) && jobs[b].state == Failed && !In(f, b)
    && (forall k :: 0 <= k < |f| ==> Behind(f[k].tag))
  }

  /** b is under way again and the last of u's jobs in flight. */
  ghost predicate Retrying(jobs: map<JobID, Row>, u: User, f: seq<Item>, b: JobID) {
    && Leads(jobs, u, b) && !Done(jobs[b].state) && |f| > 0 && f[|f| - 1].id == b
    && Leading(f[|f| - 1].tag)
    && (forall k :: 0 <= k < |f| - 1 ==> Behind(f[k].tag))
  }

  /** b is done for good; its entry in failedJobIDMap is about to go. */
  ghost predicate Clearing(jobs: map<JobID, Row>, u: User, f: seq<Item>, b: JobID) {
    Leads(jobs, u, b) && Done(jobs[b].state) && f == []
  }

  ghost predicate Stage(jobs: map<JobID, Row>, u: User, f: seq<Item>, b: Option<JobID>, clearing: bool, m: int) {
    match b
    case None => Free(jobs, u, f) && !clearing
    case Some(id) =>
      || (clearing && Clearing(jobs, u, f, id))
      || (!clearing && (FreshBlock(jobs, u, f, id, m) || Parked(jobs, u, f, id) || Retrying(jobs, u, f, id)))
  }

  ghost predicate UserInv(jobs: map<JobID, Row>, completed: seq<JobID>, u: User, f: seq<Item>,
                          b: Option<JobID>, clearing: bool, m: int)
  {
    && Agree(jobs, u, f) && Completed(jobs, completed, u, f) && DoneFirst(jobs, u) && UntouchedLast(jobs, u, f)
    && TriesLeft(jobs, u, f, b, m) && LeftFirst(jobs, u, f, b) && LeftFew(jobs, u, f, b)
    && Stage(jobs, u, f, b, clearing, m)
  }

  // ---------- the store changes ----------

  /** Nothing that concerns u has changed. */
  lemma Untouched(jobs: map<JobID, Row>, completed: seq<JobID>, u: User, f: seq<Item>, b: Option<JobID>, clearing: bool,
                  jobs': map<JobID, Row>, completed': seq<JobID>, m: int)
    requires UserInv(jobs, completed, u, f, b, clearing, m)
    requires forall i :: Mine(jobs', u, i) <==> Mine(jobs, u, i)
    requires forall i :: Mine(jobs, u, i) ==> i in jobs' && jobs'[i] == jobs[i] && (i in completed' <==> i in completed)
    ensures UserInv(jobs', completed', u, f, b, clearing, m)
  {
    forall i, j | Touched(jobs', u, f, i) && Fresh(jobs', u, f, j) ensures i < j {
      assert Touched(jobs, u, f, i) && Fresh(jobs, u, f, j);
    }
    assert forall i :: Open(jobs', u, i) <==> Open(jobs, u, i);
    assert forall i :: Left(jobs', u, f, b, i) <==> Left(jobs, u, f, b, i);
  }

  /** With no more jobs left over than before and the flow shorter or further on, there are still few. */
  lemma FewKept(jobs: map<JobID, Row>, u: User, f: seq<Item>, b: Option<JobID>, jobs': map<JobID, Row>, f': seq<Item>)
    requires LeftFew(jobs, u, f, b) && forall i :: Left(jobs', u, f', b, i) ==> Left(jobs, u, f, b, i)
    requires |f'| <= |f| && forall k :: 0 <= k < |f'| ==>
      && f'[k].id == f[|f| - |f'| + k].id
      && (WasDelivered(f[|f| - |f'| + k].tag) ==> WasDelivered(f'[k].tag))
    ensures LeftFew(jobs', u, f', b)
  {
  }

  /** A new job of u: what is mine, open or touched, before and after. */
  lemma StoredMine(jobs: map<JobID, Row>, u: User, f: seq<Item>, n: JobID)
    requires Agree(jobs, u, f) && forall i :: i in jobs ==> i < n
    ensures var jobs' := jobs[n := Row(u, Unprocessed, 0)];
      && !In(f, n)
      && (forall i :: Mine(jobs', u, i) <==> Mine(jobs, u, i) || i == n)
      && (forall i :: Mine(jobs, u, i) ==> jobs'[i] == jobs[i] && i < n)
      && (forall i :: Open(jobs', u, i) <==> Open(jobs, u, i) || i == n)
  {
  }

  lemma StoredAgree(jobs: map<JobID, Row>, u: User, f: seq<Item>, n: JobID)
    requires Agree(jobs, u, f) && forall i :: i in jobs ==> i < n
    ensures Agree(jobs[n := Row(u, Unprocessed, 0)], u, f)
  {
    hide In, Rank, Startable;
    StoredMine(jobs, u, f, n);
  }

  lemma StoredCompleted(jobs: map<JobID, Row>, completed: seq<JobID>, u: User, f: seq<Item>, n: JobID)
    requires Agree(jobs, u, f) && Completed(jobs, completed, u, f) && n !in completed && forall i :: i in jobs ==> i < n
    ensures Completed(jobs[n := Row(u, Unprocessed, 0)], completed, u, f)
  {
    hide Agree, Decided;
    StoredMine(jobs, u, f, n);
  }

  lemma StoredLast(jobs: map<JobID, Row>, u: User, f: seq<Item>, n: JobID)
    requires Agree(jobs, u, f) && UntouchedLast(jobs, u, f) && forall i :: i in jobs ==> i < n
    ensures UntouchedLast(jobs[n := Row(u, Unprocessed, 0)], u, f)
  {
    hide Agree, In;
    var jobs' := jobs[n := Row(u, Unprocessed, 0)];
    StoredMine(jobs, u, f, n);
    forall i, j | Touched(jobs', u, f, i) && Fresh(jobs', u, f, j) ensures i < j {
      assert Touched(jobs, u, f, i);
      assert j == n || Fresh(jobs, u, f, j);
    }
  }

  lemma StoredStage(jobs: map<JobID, Row>, u: User, f: seq<Item>, b: Option<JobID>, clearing: bool, n: JobID, m: int)
    requires Agree(jobs, u, f) && Stage(jobs, u, f, b, clearing, m) && forall i :: i in jobs ==> i < n
    ensures Stage(jobs[n := Row(u, Unprocessed, 0)], u, f, b, clearing, m)
  {
    hide Agree, In, Open, Increasing, Behind, Leading;
    StoredMine(jobs, u, f, n);
  }

  lemma StoredLeft(jobs: map<JobID, Row>, u: User, f: seq<Item>, b: Option<JobID>, n: JobID)
    requires Agree(jobs, u, f) && LeftFirst(jobs, u, f, b) && LeftFew(jobs, u, f, b) && forall i :: i in jobs ==> i < n
    ensures LeftFirst(jobs[n := Row(u, Unprocessed, 0)], u, f, b) && LeftFew(jobs[n := Row(u, Unprocessed, 0)], u, f, b)
  {
    hide Agree, In, LeftFew, WasDelivered;
    StoredMine(jobs, u, f, n);
    FewKept(jobs, u, f, b, jobs[n := Row(u, Unprocessed, 0)], f);
  }

  lemma StoredDone(jobs: map<JobID, Row>, u: User, n: JobID)
    requires DoneFirst(jobs, u) && forall i :: i in jobs ==> i < n
    ensures DoneFirst(jobs[n := Row(u, Unprocessed, 0)], u)
  {
    var jobs' := jobs[n := Row(u, Unprocessed, 0)];
    forall i, j | Mine(jobs', u, i) && Done(jobs'[i].state) && Open(jobs', u, j) ensures i < j {
      assert j == n || Open(jobs, u, j);
    }
  }

  /** A job of u is stored. */
  lemma Stored(jobs: map<JobID, Row>, completed: seq<JobID>, u: User, f: seq<Item>, b: Option<JobID>, clearing: bool,
          n: JobID, m: int)
    requires UserInv(jobs, completed, u, f, b, clearing, m)
    requires n !in completed && m >= 1 && forall i :: i in jobs ==> i < n
    ensures UserInv(jobs[n := Row(u, Unprocessed, 0)], completed, u, f, b, clearing, m)
  {
    hide Agree, Completed, DoneFirst, UntouchedLast, Stage, In, Open, LeftFirst, LeftFew;
    StoredMine(jobs, u, f, n);
    StoredDone(jobs, u, n);
    StoredLeft(jobs, u, f, b, n);
    StoredAgree(jobs, u, f, n);
    StoredCompleted(jobs, completed, u, f, n);
    StoredLast(jobs, u, f, n);
    StoredStage(jobs, u, f, b, clearing, n, m);
  }

  // ---------- the generator ----------

  lemma Cleared(jobs: map<JobID, Row>, completed: seq<JobID>, u: User, f: seq<Item>, b: Option<JobID>, m: int)
    requires UserInv(jobs, completed, u, f, b, true, m)
    ensures f == [] && UserInv(jobs, completed, u, f, None, false, m)
  {
    assert forall i :: Left(jobs, u, f, None, i) <==> Left(jobs, u, f, b, i);
  }

  lemma Appended(f: seq<Item>, x: Item)
    ensures forall k :: 0 <= k < |f| ==> (f + [x])[k] == f[k]
    ensures (f + [x])[|f|] == x
    ensures forall i :: In(f + [x], i) <==> In(f, i) || x.id == i
    ensures !Decided(x.tag) ==> forall i :: Reported(f + [x], i) <==> Reported(f, i)
  {
    forall i | In(f, i) ensures In(f + [x], i) {
      var k :| 0 <= k < |f| && f[k].id == i;
      assert (f + [x])[k].id == i;
    }
    assert (f + [x])[|f|] == x;
    forall i | Reported(f, i) ensures Reported(f + [x], i) {
      var k :| 0 <= k < |f| && f[k].id == i && Decided(f[k].tag);
      assert (f + [x])[k] == f[k];
    }
  }

  /** What both ways of being picked have in common. */
  lemma Picked(jobs: map<JobID, Row>, completed: seq<JobID>, u: User, f: seq<Item>, x: Item)
    requires Agree(jobs, u, f) && Completed(jobs, completed, u, f)
    requires x.tag == Chosen && x.user == u && Mine(jobs, u, x.id) && !In(f, x.id)
    requires Startable(jobs[x.id].state)
    ensures Agree(jobs, u, f + [x]) && Completed(jobs, completed, u, f + [x])
  {
    Appended(f, x);
    forall k | 0 <= k < |f| ensures f[k].id != x.id {
      assert In(f, f[k].id);
    }
  }

  lemma PickedTouched(jobs: map<JobID, Row>, u: User, f: seq<Item>, x: Item)
    requires UntouchedLast(jobs, u, f) && Mine(jobs, u, x.id)
    requires forall j :: Fresh(jobs, u, f, j) && j != x.id ==> x.id < j
    ensures UntouchedLast(jobs, u, f + [x])
  {
    Appended(f, x);
    forall i, j | Touched(jobs, u, f + [x], i) && Fresh(jobs, u, f + [x], j) ensures i < j {
      assert Fresh(jobs, u, f, j);
      assert i == x.id || Touched(jobs, u, f, i);
    }
  }

  /** An unblocked user's next job in line is picked. */
  lemma PickedNext(jobs: map<JobID, Row>, completed: seq<JobID>, u: User, f: seq<Item>, x: Item, m: int)
    requires UserInv(jobs, completed, u, f, None, false, m)
    requires x.tag == Chosen && x.user == u && Mine(jobs, u, x.id) && x.attempt == jobs[x.id].attempt && !In(f, x.id)
    requires Startable(jobs[x.id].state)
    requires forall i :: Mine(jobs, u, i) && Startable(jobs[i].state) && i < x.id ==> In(f, i)
    ensures UserInv(jobs, completed, u, f + [x], None, false, m)
  {
    Picked(jobs, completed, u, f, x);
    PickedTouched(jobs, u, f, x);
    PickedNextStage(jobs, u, f, x);
    PickedNextLeft(jobs, u, f, x);
    Appended(f, x);
  }

  lemma PickedNextStage(jobs: map<JobID, Row>, u: User, f: seq<Item>, x: Item)
    requires Free(jobs, u, f) && UntouchedLast(jobs, u, f) && Agree(jobs, u, f) && LeftFew(jobs, u, f, None)
    requires x.tag == Chosen && Mine(jobs, u, x.id) && !In(f, x.id)
    requires Startable(jobs[x.id].state)
    requires forall i :: Mine(jobs, u, i) && Startable(jobs[i].state) && i < x.id ==> In(f, i)
    ensures Free(jobs, u, f + [x])
  {
    Appended(f, x);
    forall k | 0 <= k < |f| ensures f[k].id < x.id {
      assert In(f, f[k].id);
      if jobs[x.id].state == Unprocessed {
        assert Touched(jobs, u, f, f[k].id) && Fresh(jobs, u, f, x.id);
      } else if jobs[x.id].state == Failed {
        assert Left(jobs, u, f, None, x.id);
      }
    }
  }

  /** Of the jobs left over the first is picked first, and no other job before it. */
  lemma PickedNextLeft(jobs: map<JobID, Row>, u: User, f: seq<Item>, x: Item)
    requires LeftFirst(jobs, u, f, None) && LeftFew(jobs, u, f, None) && UntouchedLast(jobs, u, f)
    requires x.tag == Chosen && Mine(jobs, u, x.id) && !In(f, x.id)
    requires Startable(jobs[x.id].state)
    requires forall i :: Mine(jobs, u, i) && Startable(jobs[i].state) && i < x.id ==> In(f, i)
    ensures LeftFirst(jobs, u, f + [x], None) && LeftFew(jobs, u, f + [x], None)
  {
    Appended(f, x);
    forall i | Left(jobs, u, f + [x], None, i)
      ensures Left(jobs, u, f, None, i) && x.id < i && Left(jobs, u, f, None, x.id)
    {
      assert Left(jobs, u, f, None, i);
      if jobs[x.id].state == Unprocessed {
        assert Touched(jobs, u, f, i) && Fresh(jobs, u, f, x.id);
      }
    }
  }

  /** The blocking job itself is picked. */
  lemma PickedBlocker(jobs: map<JobID, Row>, completed: seq<JobID>, u: User, f: seq<Item>, x: Item, clearing: bool,
          m: int)
    requires UserInv(jobs, completed, u, f, Some(x.id), clearing, m)
    requires x.tag == Chosen && x.user == u && Mine(jobs, u, x.id) && !In(f, x.id)
    requires Startable(jobs[x.id].state)
    ensures UserInv(jobs, completed, u, f + [x], Some(x.id), clearing, m)
  {
    Picked(jobs, completed, u, f, x);
    assert Parked(jobs, u, f, x.id);
    PickedBlockerLeft(jobs, u, f, x);
    forall j | Fresh(jobs, u, f, j) && j != x.id ensures x.id < j {
      assert Open(jobs, u, j);
    }
    PickedTouched(jobs, u, f, x);
    Appended(f, x);
  }

  lemma PickedBlockerLeft(jobs: map<JobID, Row>, u: User, f: seq<Item>, x: Item)
    requires LeftFirst(jobs, u, f, Some(x.id)) && LeftFew(jobs, u, f, Some(x.id)) && Parked(jobs, u, f, x.id)
    ensures LeftFirst(jobs, u, f + [x], Some(x.id)) && LeftFew(jobs, u, f + [x], Some(x.id))
  {
    Appended(f, x);
    forall k | 0 <= k < |f| ensures f[k].id != x.id {
      assert In(f, f[k].id);
    }
    forall i | Left(jobs, u, f + [x], Some(x.id), i) ensures Left(jobs, u, f, Some(x.id), i) && x.id < i && f == [] {
      assert Open(jobs, u, i) && Left(jobs, u, f, Some(x.id), i);
      assert f != [] ==> !WasDelivered(f[0].tag);
    }
  }

  /** All picked jobs are marked executing. */
  ghost predicate Marking(jobs: map<JobID, Row>, u: User, f: seq<Item>, jobs': map<JobID, Row>, f': seq<Item>) {
    && |f'| == |f|
    && (forall k :: 0 <= k < |f| ==> f'[k] == if f[k].tag.Chosen? then f[k].(tag := Queued) else f[k])
    && (forall i :: Mine(jobs', u, i) <==> Mine(jobs, u, i))
    && (forall i :: Mine(jobs, u, i) && !In(f, i) ==> jobs'[i] == jobs[i])
    && (forall k :: 0 <= k < |f| && Mine(jobs, u, f[k].id) ==> f[k].id in jobs')
    && (forall k :: 0 <= k < |f| && Mine(jobs, u, f[k].id) ==>
      jobs'[f[k].id] == if f[k].tag.Chosen? then Row(u, Executing, f[k].attempt) else jobs[f[k].id])
  }

  lemma MarkedIn(f: seq<Item>, f': seq<Item>)
    requires |f'| == |f|
    requires forall k :: 0 <= k < |f| ==> f'[k] == if f[k].tag.Chosen? then f[k].(tag := Queued) else f[k]
    ensures forall i :: In(f', i) <==> In(f, i)
    ensures forall i :: Reported(f', i) <==> Reported(f, i)
  {
    forall i | In(f, i) ensures In(f', i) {
      var k :| 0 <= k < |f| && f[k].id == i;
      assert f'[k].id == i;
    }
    forall i | Reported(f, i) ensures Reported(f', i) {
      var k :| 0 <= k < |f| && f[k].id == i && Decided(f[k].tag);
      assert f'[k] == f[k];
    }
  }

  lemma MarkedRows(jobs: map<JobID, Row>, u: User, f: seq<Item>, jobs': map<JobID, Row>, f': seq<Item>)
    requires Agree(jobs, u, f) && Marking(jobs, u, f, jobs', f')
    ensures forall i :: Mine(jobs, u, i) ==>
      Mine(jobs', u, i) && if In(f, i) then jobs'[i].state == Executing else jobs'[i] == jobs[i]
    ensures forall i :: In(f, i) ==> Mine(jobs, u, i) && !Done(jobs[i].state)
  {
    forall i | In(f, i) ensures Mine(jobs, u, i) && Mine(jobs', u, i) && jobs'[i].state == Executing
      && !Done(jobs[i].state) {
      var k :| 0 <= k < |f| && f[k].id == i;
    }
  }

  lemma MarkedRanks(f: seq<Item>, f': seq<Item>)
    requires |f'| == |f| && forall j, k :: 0 <= j < k < |f| ==> Rank(f[j].tag) <= Rank(f[k].tag)
    requires forall k :: 0 <= k < |f| ==> f'[k] == if f[k].tag.Chosen? then f[k].(tag := Queued) else f[k]
    ensures forall j, k :: 0 <= j < k < |f'| ==> Rank(f'[j].tag) <= Rank(f'[k].tag)
  {
  }

  lemma MarkedAgree(jobs: map<JobID, Row>, u: User, f: seq<Item>, jobs': map<JobID, Row>, f': seq<Item>)
    requires Agree(jobs, u, f)
    requires |f'| == |f|
    requires forall k :: 0 <= k < |f| ==> f'[k] == if f[k].tag.Chosen? then f[k].(tag := Queued) else f[k]
    requires forall i :: Mine(jobs', u, i) <==> Mine(jobs, u, i)
    requires forall i :: Mine(jobs, u, i) ==>
      Mine(jobs', u, i) && if In(f, i) then jobs'[i].state == Executing else jobs'[i] == jobs[i]
    ensures Agree(jobs', u, f')
  {
    hide Startable, Rank;
    MarkedRanks(f, f');
    forall k | 0 <= k < |f|
      ensures Mine(jobs', u, f'[k].id) && f'[k].user == u && !f'[k].tag.Chosen? && jobs'[f'[k].id].state == Executing
    {
      assert f[k].id == f'[k].id && In(f, f[k].id);
    }
    forall i | Mine(jobs', u, i) && jobs'[i].state == Executing ensures In(f', i) {
      assert Mine(jobs, u, i) && In(f, i);
      var k :| 0 <= k < |f| && f[k].id == i;
      assert f'[k].id == i;
    }
  }

  lemma MarkedExecuting(jobs: map<JobID, Row>, completed: seq<JobID>, u: User, f: seq<Item>, b: Option<JobID>,
          clearing: bool,
                        jobs': map<JobID, Row>, f': seq<Item>, m: int)
    requires UserInv(jobs, completed, u, f, b, clearing, m) && Marking(jobs, u, f, jobs', f')
    ensures UserInv(jobs', completed, u, f', b, clearing, m)
  {
    MarkedIn(f, f');
    MarkedRows(jobs, u, f, jobs', f');
    assert forall i :: Mine(jobs', u, i) <==> Mine(jobs, u, i);
    assert forall i :: Open(jobs', u, i) <==> Open(jobs, u, i);
    MarkedAgree(jobs, u, f, jobs', f');
    assert Completed(jobs', completed, u, f');
    assert UntouchedLast(jobs', u, f') by {
      forall i, j | Touched(jobs', u, f', i) && Fresh(jobs', u, f', j) ensures i < j {
        assert Touched(jobs, u, f, i) && Fresh(jobs, u, f, j);
      }
    }
    MarkedLeft(jobs, u, f, b, jobs', f');
    MarkedAttempts(jobs, u, f, b, jobs', f', m);
    MarkedStage(jobs, u, f, b, clearing, jobs', f', m);
  }

  lemma MarkedLeft(jobs: map<JobID, Row>, u: User, f: seq<Item>, b: Option<JobID>, jobs': map<JobID, Row>,
          f': seq<Item>)
    requires LeftFirst(jobs, u, f, b) && LeftFew(jobs, u, f, b) && |f'| == |f|
    requires forall k :: 0 <= k < |f| ==> f'[k] == if f[k].tag.Chosen? then f[k].(tag := Queued) else f[k]
    requires forall i :: In(f', i) <==> In(f, i)
    requires forall i :: Mine(jobs', u, i) <==> Mine(jobs, u, i)
    requires forall i :: Mine(jobs, u, i) ==>
      Mine(jobs', u, i) && if In(f, i) then jobs'[i].state == Executing else jobs'[i] == jobs[i]
    ensures LeftFirst(jobs', u, f', b) && LeftFew(jobs', u, f', b)
  {
    hide In, LeftFew;
    FewKept(jobs, u, f, b, jobs', f');
  }

  lemma MarkedAttempts(jobs: map<JobID, Row>, u: User, f: seq<Item>, b: Option<JobID>, jobs': map<JobID, Row>,
          f': seq<Item>, m: int)
    requires Agree(jobs, u, f) && TriesLeft(jobs, u, f, b, m) && Marking(jobs, u, f, jobs', f')
    ensures TriesLeft(jobs', u, f', b, m)
  {
    MarkedRows(jobs, u, f, jobs', f');
    forall i | Open(jobs', u, i) && b != Some(i) ensures jobs'[i].attempt < m {
      assert Open(jobs, u, i);
      if k :| 0 <= k < |f| && f[k].id == i {}
    }
  }

  lemma MarkedStage(jobs: map<JobID, Row>, u: User, f: seq<Item>, b: Option<JobID>, clearing: bool,
                    jobs': map<JobID, Row>, f': seq<Item>, m: int)
    requires Stage(jobs, u, f, b, clearing, m)
    requires |f'| == |f|
    requires forall k :: 0 <= k < |f| ==> f'[k] == if f[k].tag.Chosen? then f[k].(tag := Queued) else f[k]
    requires forall i :: In(f', i) <==> In(f, i)
    requires forall i :: Mine(jobs', u, i) <==> Mine(jobs, u, i)
    requires forall i :: Mine(jobs, u, i) ==>
      Mine(jobs', u, i) && if In(f, i) then jobs'[i].state == Executing else jobs'[i] == jobs[i]
    requires forall i :: In(f, i) ==> Mine(jobs, u, i) && !Done(jobs[i].state)
    ensures Stage(jobs', u, f', b, clearing, m)
  {
    if b.None? {
      assert Free(jobs', u, f');
    } else if FreshBlock(jobs, u, f, b.value, m) && !clearing {
      assert FreshBlock(jobs', u, f', b.value, m);
    } else {
      assert forall i :: Open(jobs', u, i) <==> Open(jobs, u, i);
      assert Leads(jobs', u, b.value);
      if Retrying(jobs, u, f, b.value) {
        assert In(f, f[|f| - 1].id);
      }
    }
  }

  // ---------- a worker ----------

  /** A worker has the job at k in hand: everything older is answered, everything younger still queued. */
  ghost predicate InHand(f: seq<Item>, k: int) {
    && 0 <= k < |f| && (f[k].tag.Queued? || f[k].tag.Failing?)
    && (forall j :: 0 <= j < k ==> f[j].tag.Answered?)
    && (forall j :: k < j < |f| ==> f[j].tag.Queued? || f[j].tag.Chosen?)
  }

  lemma Replaced(f: seq<Item>, k: int, x: Item)
    requires 0 <= k < |f| && x.id == f[k].id && !Decided(f[k].tag)
    ensures forall i :: In(f[k := x], i) <==> In(f, i)
    ensures In(f, x.id)
    ensures forall i :: Reported(f[k := x], i) <==> Reported(f, i) || (i == x.id && Decided(x.tag))
  {
    var f' := f[k := x];
    assert f'[k] == x;
    forall i | In(f, i) ensures In(f', i) {
      var j :| 0 <= j < |f| && f[j].id == i;
      assert f'[j].id == i;
    }
    forall i | Reported(f, i) ensures Reported(f', i) {
      var j :| 0 <= j < |f| && f[j].id == i && Decided(f[j].tag);
      assert f'[j] == f[j];
    }
  }

  /** Every earlier job of u has been decided before the one in hand. */
  lemma EarlierCompleted(jobs: map<JobID, Row>, completed: seq<JobID>, u: User, f: seq<Item>, b: Option<JobID>,
          clearing: bool, k: int, m: int)
    requires UserInv(jobs, completed, u, f, b, clearing, m) && InHand(f, k)
    requires b == None || b.value == f[k].id
    ensures f[k].id !in completed
    ensures forall i :: Mine(jobs, u, i) && i < f[k].id ==> i in completed
  {
    forall i | Mine(jobs, u, i) && i < f[k].id ensures i in completed {
      if Open(jobs, u, i) {
        if b == None || FreshBlock(jobs, u, f, b.value, m) {
          assert In(f, f[k].id);
          assert Touched(jobs, u, f, f[k].id);
          assert !Left(jobs, u, f, b, i);
          assert Fresh(jobs, u, f, i) || In(f, i);
          var j :| 0 <= j < |f| && f[j].id == i;
          assert j < k && Reported(f, i);
        }
      }
    }
  }

  lemma ReplacedRows(jobs: map<JobID, Row>, completed: seq<JobID>, u: User, f: seq<Item>, k: int, x: Item)
    requires Agree(jobs, u, f) && InHand(f, k) && x.id == f[k].id && x.user == u
    requires x.tag.Answered? || x.tag.Failing?
    ensures Agree(jobs, u, f[k := x])
    ensures UntouchedLast(jobs, u, f) ==> UntouchedLast(jobs, u, f[k := x])
  {
    Replaced(f, k, x);
    var f' := f[k := x];
    if UntouchedLast(jobs, u, f) {
      forall i, j | Touched(jobs, u, f', i) && Fresh(jobs, u, f', j) ensures i < j {
        assert Touched(jobs, u, f, i) && Fresh(jobs, u, f, j);
      }
    }
  }

  /** A new tag in place keeps what is left over, if it does not block the user anew. */
  lemma ReplacedLeft(jobs: map<JobID, Row>, u: User, f: seq<Item>, b: Option<JobID>, k: int, x: Item)
    requires LeftFirst(jobs, u, f, b) && LeftFew(jobs, u, f, b) && 0 <= k < |f| && x.id == f[k].id
    requires !Decided(f[k].tag)
    ensures LeftFirst(jobs, u, f[k := x], b) && LeftFew(jobs, u, f[k := x], b)
  {
    Replaced(f, k, x);
    FewKept(jobs, u, f, b, jobs, f[k := x]);
  }

  /** When the job in hand comes to block its user, at most one other is left over. */
  lemma BlockedLeft(jobs: map<JobID, Row>, u: User, f: seq<Item>, k: int)
    requires LeftFirst(jobs, u, f, None) && LeftFew(jobs, u, f, None) && InHand(f, k) && f[k].tag.Queued?
    ensures var f' := f[k := f[k].(tag := Failing)];
      LeftFirst(jobs, u, f', Some(f[k].id)) && LeftFew(jobs, u, f', Some(f[k].id))
  {
    var f', b := f[k := f[k].(tag := Failing)], Some(f[k].id);
    Replaced(f, k, f'[k]);
    forall i | Left(jobs, u, f', b, i) ensures Left(jobs, u, f, None, i) && k == |f| - 1 {
      assert Left(jobs, u, f, None, i);
    }
    forall i, j | Left(jobs, u, f', b, i) && Left(jobs, u, f', b, j) ensures i == j {
      assert !WasDelivered(f[k].tag);
    }
  }

  lemma Outcome(jobs: map<JobID, Row>, completed: seq<JobID>, u: User, f: seq<Item>, k: int, x: Item)
    requires Agree(jobs, u, f) && Completed(jobs, completed, u, f) && InHand(f, k) && x.id == f[k].id && x.tag.Answered?
    requires f[k].id !in completed
    requires forall i :: Mine(jobs, u, i) && i < f[k].id ==> i in completed
    ensures Completed(jobs, if Decided(x.tag) then completed + [x.id] else completed, u, f[k := x])
  {
    Replaced(f, k, x);
  }

  /** A job in hand is delivered. */
  lemma Delivered(jobs: map<JobID, Row>, completed: seq<JobID>, u: User, f: seq<Item>, b: Option<JobID>,
          clearing: bool, k: int, m: int)
    requires UserInv(jobs, completed, u, f, b, clearing, m) && InHand(f, k) && f[k].tag.Queued?
    requires b == None || b.value == f[k].id
    ensures UserInv(jobs, completed + [f[k].id], u, f[k := f[k].(tag := Answered(Succeeded))], b, clearing, m)
  {
    var x := f[k].(tag := Answered(Succeeded));
    EarlierCompleted(jobs, completed, u, f, b, clearing, k, m);
    Outcome(jobs, completed, u, f, k, x);
    ReplacedRows(jobs, completed, u, f, k, x);
    Replaced(f, k, x);
    ReplacedLeft(jobs, u, f, b, k, x);
    DeliveredStage(jobs, u, f, b, clearing, k, m);
  }

  lemma DeliveredStage(jobs: map<JobID, Row>, u: User, f: seq<Item>, b: Option<JobID>, clearing: bool, k: int, m: int)
    requires Agree(jobs, u, f) && Stage(jobs, u, f, b, clearing, m) && InHand(f, k) && f[k].tag.Queued?
    requires b == None || b.value == f[k].id
    ensures Stage(jobs, u, f[k := f[k].(tag := Answered(Succeeded))], b, clearing, m)
  {
    Replaced(f, k, f[k].(tag := Answered(Succeeded)));
  }

  /** A job queued behind the blocking one is sent to wait. */
  lemma SentToWait(jobs: map<JobID, Row>, completed: seq<JobID>, u: User, f: seq<Item>, b: JobID, clearing: bool,
          k: int, m: int)
    requires UserInv(jobs, completed, u, f, Some(b), clearing, m) && InHand(f, k) && f[k].tag.Queued? && b < f[k].id
    ensures UserInv(jobs, completed, u, f[k := f[k].(tag := Answered(Waiting))], Some(b), clearing, m)
  {
    var x := f[k].(tag := Answered(Waiting));
    Replaced(f, k, x);
    ReplacedRows(jobs, completed, u, f, k, x);
    ReplacedLeft(jobs, u, f, Some(b), k, x);
    WaitStage(jobs, u, f, b, clearing, k, m);
  }

  lemma WaitStage(jobs: map<JobID, Row>, u: User, f: seq<Item>, b: JobID, clearing: bool, k: int, m: int)
    requires Agree(jobs, u, f) && Stage(jobs, u, f, Some(b), clearing, m) && InHand(f, k) && f[k].tag.Queued?
    requires b < f[k].id
    ensures Stage(jobs, u, f[k := f[k].(tag := Answered(Waiting))], Some(b), clearing, m)
  {
    hide Reported, Touched, Fresh, Open, Leads, Mine, Agree;
    var f' := f[k := f[k].(tag := Answered(Waiting))];
    Replaced(f, k, f'[k]);
    if FreshBlock(jobs, u, f, b, m) {
      assert FreshBlock(jobs, u, f', b, m);
    } else if Parked(jobs, u, f, b) {
      assert Parked(jobs, u, f', b);
    } else {
      assert Retrying(jobs, u, f', b);
    }
  }

  /** A delivery fails and the job blocks its user, now if not already. */
  lemma Blocked(jobs: map<JobID, Row>, completed: seq<JobID>, u: User, f: seq<Item>, b: Option<JobID>, clearing: bool,
          k: int, m: int)
    requires UserInv(jobs, completed, u, f, b, clearing, m) && InHand(f, k) && f[k].tag.Queued?
    requires b == None || b.value == f[k].id
    ensures UserInv(jobs, completed, u, f[k := f[k].(tag := Failing)], Some(f[k].id), clearing, m)
    ensures b == None ==> f[k].attempt < m
  {
    var x := f[k].(tag := Failing);
    Replaced(f, k, x);
    ReplacedRows(jobs, completed, u, f, k, x);
    if b == None {
      BlockedLeft(jobs, u, f, k);
    } else {
      ReplacedLeft(jobs, u, f, b, k, x);
    }
    BlockStage(jobs, u, f, b, clearing, k, m);
  }

  lemma BlockStage(jobs: map<JobID, Row>, u: User, f: seq<Item>, b: Option<JobID>, clearing: bool, k: int, m: int)
    requires Agree(jobs, u, f) && Stage(jobs, u, f, b, clearing, m) && InHand(f, k) && f[k].tag.Queued?
    requires b == None || b.value == f[k].id
    requires b == None ==> f[k].attempt < m
    ensures Stage(jobs, u, f[k := f[k].(tag := Failing)], Some(f[k].id), clearing, m)
  {
    Replaced(f, k, f[k].(tag := Failing));
  }

  /** A failed job gets its outcome. Only a job that has failed before may be given up. */
  lemma Switched(jobs: map<JobID, Row>, completed: seq<JobID>, u: User, f: seq<Item>, clearing: bool, k: int, x: Item,
          m: int)
    requires 0 <= k < |f| && UserInv(jobs, completed, u, f, Some(f[k].id), clearing, m) && InHand(f, k)
    requires f[k].tag.Failing?
    requires x.id == f[k].id && x.user == u
    requires x.tag == Answered(Failed) || (x.tag == Answered(Aborted) && f[k].attempt >= m)
    ensures UserInv(jobs, if Decided(x.tag) then completed + [x.id] else completed, u, f[k := x], Some(x.id), clearing,
        m)
  {
    EarlierCompleted(jobs, completed, u, f, Some(x.id), clearing, k, m);
    Outcome(jobs, completed, u, f, k, x);
    ReplacedRows(jobs, completed, u, f, k, x);
    Replaced(f, k, x);
    ReplacedLeft(jobs, u, f, Some(x.id), k, x);
    SwitchStage(jobs, u, f, clearing, k, x, m);
  }

  lemma SwitchStage(jobs: map<JobID, Row>, u: User, f: seq<Item>, clearing: bool, k: int, x: Item, m: int)
    requires 0 <= k < |f| && Agree(jobs, u, f) && Stage(jobs, u, f, Some(f[k].id), clearing, m) && InHand(f, k)
    requires f[k].tag.Failing?
    requires x.id == f[k].id
    requires x.tag == Answered(Failed) || (x.tag == Answered(Aborted) && f[k].attempt >= m)
    ensures Stage(jobs, u, f[k := x], Some(f[k].id), clearing, m)
  {
    Replaced(f, k, x);
  }

  // ---------- the status loop ----------

  /** The n oldest outcomes are written to the store. */
  ghost predicate Flushing(jobs: map<JobID, Row>, u: User, f: seq<Item>, n: int, jobs': map<JobID, Row>) {
    && 0 <= n <= |f|
    && (forall k :: 0 <= k < n ==> f[k].tag.Answered?)
    && (forall i :: Mine(jobs', u, i) <==> Mine(jobs, u, i))
    && (forall i :: Mine(jobs, u, i) ==> i in jobs' && (!In(f[..n], i) ==> jobs'[i] == jobs[i]))
    && (forall k :: 0 <= k < n && Mine(jobs, u, f[k].id) ==>
      f[k].id in jobs' && jobs'[f[k].id] == Row(u, f[k].tag.state, f[k].attempt))
  }

  ghost predicate Settled(f: seq<Item>) {
    forall k :: 0 <= k < |f| && f[k].tag.Answered? ==> f[k].tag.state != Unprocessed && f[k].tag.state != Executing
  }

  lemma StageSettled(jobs: map<JobID, Row>, u: User, f: seq<Item>, b: Option<JobID>, clearing: bool, m: int)
    requires Stage(jobs, u, f, b, clearing, m)
    ensures Settled(f)
  {
  }

  lemma Split(f: seq<Item>, n: int)
    requires 0 <= n <= |f|
    ensures forall i :: In(f, i) <==> In(f[..n], i) || In(f[n..], i)
    ensures forall i :: Reported(f, i) <==> Reported(f[..n], i) || Reported(f[n..], i)
    ensures forall i :: Reported(f[..n], i) ==> In(f[..n], i)
  {
    forall i | In(f, i) ensures In(f[..n], i) || In(f[n..], i) {
      var k :| 0 <= k < |f| && f[k].id == i;
      if k < n { assert f[..n][k].id == i; } else { assert f[n..][k - n].id == i; }
    }
    forall i | Reported(f, i) ensures Reported(f[..n], i) || Reported(f[n..], i) {
      var k :| 0 <= k < |f| && f[k].id == i && Decided(f[k].tag);
      if k < n { assert f[..n][k] == f[k]; } else { assert f[n..][k - n] == f[k]; }
    }
  }

  /** The rows after a flush, told by where each job was. */
  ghost predicate FlushedRows(jobs: map<JobID, Row>, u: User, f: seq<Item>, n: int, jobs': map<JobID, Row>)
    requires 0 <= n <= |f|
  {
    && (forall i :: Mine(jobs', u, i) <==> Mine(jobs, u, i))
    && (forall i :: Mine(jobs, u, i) && !In(f[..n], i) ==> i in jobs' && jobs'[i] == jobs[i])
    && (forall i :: In(f[..n], i) ==>
      && Mine(jobs, u, i) && Mine(jobs', u, i) && !In(f[n..], i)
      && jobs[i].state == Executing && jobs'[i].state != Executing && jobs'[i].state != Unprocessed
      && (Done(jobs'[i].state) <==> Reported(f[..n], i)))
  }

  lemma RowsAfterFlush(jobs: map<JobID, Row>, u: User, f: seq<Item>, n: int, jobs': map<JobID, Row>)
    requires Agree(jobs, u, f) && Settled(f) && Flushing(jobs, u, f, n, jobs')
    ensures FlushedRows(jobs, u, f, n, jobs')
  {
    forall i | In(f[..n], i)
      ensures Mine(jobs, u, i) && Mine(jobs', u, i) && !In(f[n..], i)
        && jobs[i].state == Executing && jobs'[i].state != Executing && jobs'[i].state != Unprocessed
        && (Done(jobs'[i].state) <==> Reported(f[..n], i))
    {
      var k :| 0 <= k < |f[..n]| && f[..n][k].id == i;
      assert f[k].id == i;
      forall j | 0 <= j < |f[n..]| ensures f[n..][j].id != i {
        assert f[n + j].id != f[k].id;
      }
      if j :| 0 <= j < |f[..n]| && f[..n][j].id == i && Decided(f[..n][j].tag) { assert f[j].id == i; }
      assert Decided(f[k].tag) ==> Decided(f[..n][k].tag);
    }
  }

  lemma FlushedAgree(jobs: map<JobID, Row>, completed: seq<JobID>, u: User, f: seq<Item>, n: int, jobs': map<JobID,
          Row>)
    requires Agree(jobs, u, f) && Completed(jobs, completed, u, f) && UntouchedLast(jobs, u, f)
    requires 0 <= n <= |f| && FlushedRows(jobs, u, f, n, jobs')
    ensures Agree(jobs', u, f[n..]) && Completed(jobs', completed, u, f[n..]) && UntouchedLast(jobs', u, f[n..])
  {
    Split(f, n);
    forall k | 0 <= k < |f[n..]| ensures f[n..][k] == f[n + k] && jobs'[f[n + k].id] == jobs[f[n + k].id] {
      assert In(f[n..], f[n..][k].id);
    }
    forall i, j | Touched(jobs', u, f[n..], i) && Fresh(jobs', u, f[n..], j) ensures i < j {
      assert Touched(jobs, u, f, i) && Fresh(jobs, u, f, j);
    }
  }

  lemma FlushedAttempts(jobs: map<JobID, Row>, u: User, f: seq<Item>, b: Option<JobID>, n: int, jobs': map<JobID, Row>,
          m: int)
    requires Agree(jobs, u, f) && TriesLeft(jobs, u, f, b, m) && Flushing(jobs, u, f, n, jobs')
    ensures TriesLeft(jobs', u, f[n..], b, m)
  {
    forall i | Open(jobs', u, i) && b != Some(i) ensures jobs'[i].attempt < m {
      if In(f[..n], i) {
        var k :| 0 <= k < |f[..n]| && f[..n][k].id == i;
        assert f[k].id == i;
      } else {
        assert Open(jobs, u, i);
      }
    }
  }

  /** Whether the flush wrote the final outcome of the blocking job. */
  ghost predicate Released(f: seq<Item>, n: int, b: Option<JobID>)
    requires 0 <= n <= |f|
  {
    b.Some? && Reported(f[..n], b.value)
  }

  lemma StageAnswers(jobs: map<JobID, Row>, u: User, f: seq<Item>, b: Option<JobID>, clearing: bool, m: int)
    requires Agree(jobs, u, f) && Stage(jobs, u, f, b, clearing, m)
    ensures forall k :: 0 <= k < |f| && f[k].tag == Answered(Failed) ==> b == Some(f[k].id)
    ensures forall k :: 0 <= k < |f| && f[k].tag == Answered(Waiting) ==> b.Some? && b != Some(f[k].id)
  {
    forall k | 0 <= k < |f| ensures In(f, f[k].id) {}
  }

  /** A flush leaves over nothing new, and makes nothing wait while something is left over. */
  lemma FlushedLeft(jobs: map<JobID, Row>, u: User, f: seq<Item>, b: Option<JobID>, n: int, jobs': map<JobID, Row>)
    requires LeftFirst(jobs, u, f, b) && LeftFew(jobs, u, f, b)
    requires forall k :: 0 <= k < |f| && f[k].tag == Answered(Failed) ==> b == Some(f[k].id)
    requires forall k :: 0 <= k < |f| && f[k].tag == Answered(Waiting) ==> b.Some? && b != Some(f[k].id)
    requires Flushing(jobs, u, f, n, jobs') && FlushedRows(jobs, u, f, n, jobs')
    ensures LeftFirst(jobs', u, f[n..], b) && LeftFew(jobs', u, f[n..], b)
  {
    Split(f, n);
    forall i | In(f[..n], i) ensures exists k :: 0 <= k < n && f[k].id == i && jobs'[i].state == f[k].tag.state {
      var k :| 0 <= k < |f[..n]| && f[..n][k].id == i;
      assert f[k].id == i;
    }
    forall i | Left(jobs', u, f[n..], b, i) ensures Left(jobs, u, f, b, i) {
      assert Mine(jobs, u, i) && !In(f[..n], i);
    }
    forall i, k | Left(jobs, u, f, b, i) && 0 <= k < |f| ensures f[k].tag != Answered(Waiting) {
      assert WasDelivered(f[k].tag) || b == None || b == Some(f[k].id);
    }
    forall i, j | Left(jobs', u, f[n..], b, i) && Mine(jobs', u, j) && jobs'[j].state == Waiting && !In(f[n..], j)
      ensures i < j
    {
      assert Left(jobs, u, f, b, i);
      if In(f[..n], j) {
        assert false;
      }
    }
    FewKept(jobs, u, f, b, jobs', f[n..]);
  }

  lemma FlushedStage(jobs: map<JobID, Row>, u: User, f: seq<Item>, b: Option<JobID>, clearing: bool, n: int,
          jobs': map<JobID, Row>, m: int)
    requires Agree(jobs, u, f) && UntouchedLast(jobs, u, f) && Stage(jobs, u, f, b, clearing, m)
    requires LeftFew(jobs, u, f, b)
    requires Flushing(jobs, u, f, n, jobs')
    requires FlushedRows(jobs, u, f, n, jobs')
    ensures Stage(jobs', u, f[n..], b, clearing || Released(f, n, b), m)
  {
    Split(f, n);
    forall k | 0 <= k < |f[n..]| ensures f[n..][k] == f[n + k] {}
    if b.None? {
      FlushedFree(jobs, u, f, n, jobs');
    } else if FreshBlock(jobs, u, f, b.value, m) && !clearing {
      FlushedFreshBlock(jobs, u, f, b.value, n, jobs', m);
    } else {
      FlushedBehind(jobs, u, f, b.value, clearing, n, jobs', m);
    }
  }

  lemma FlushedFree(jobs: map<JobID, Row>, u: User, f: seq<Item>, n: int, jobs': map<JobID, Row>)
    requires Agree(jobs, u, f) && Free(jobs, u, f) && Flushing(jobs, u, f, n, jobs')
    requires FlushedRows(jobs, u, f, n, jobs')
    ensures Free(jobs', u, f[n..])
  {
    Split(f, n);
    forall i | In(f[..n], i) ensures Mine(jobs, u, i) && jobs'[i].state == Succeeded {
      var k :| 0 <= k < |f[..n]| && f[..n][k].id == i;
      assert f[k].id == i;
    }
  }

  lemma FlushedFreshBlock(jobs: map<JobID, Row>, u: User, f: seq<Item>, b: JobID, n: int, jobs': map<JobID, Row>,
          m: int)
    requires Agree(jobs, u, f) && UntouchedLast(jobs, u, f) && FreshBlock(jobs, u, f, b, m)
    requires LeftFew(jobs, u, f, Some(b))
    requires Flushing(jobs, u, f, n, jobs') && FlushedRows(jobs, u, f, n, jobs')
    ensures !Released(f, n, Some(b)) && (FreshBlock(jobs', u, f[n..], b, m) || Parked(jobs', u, f[n..], b))
  {
    Split(f, n);
    FreshBlockOutcomes(jobs, u, f, b, n, jobs', m);
    if In(f[..n], b) {
      ParksBlocker(jobs, u, f, b, n, jobs', m);
    } else {
      KeepsFreshBlock(jobs, u, f, b, n, jobs', m);
    }
  }

  lemma FreshBlockOutcomes(jobs: map<JobID, Row>, u: User, f: seq<Item>, b: JobID, n: int, jobs': map<JobID, Row>,
          m: int)
    requires FreshBlock(jobs, u, f, b, m) && Flushing(jobs, u, f, n, jobs')
    requires forall k :: 0 <= k < |f| ==> Mine(jobs, u, f[k].id)
    ensures forall i :: In(f[..n], i) ==>
      i in jobs' && jobs'[i].state == if i < b then Succeeded else if i == b then Failed else Waiting
    ensures !Reported(f[..n], b)
    ensures In(f[..n], b) || forall i :: In(f[..n], i) ==> i < b
  {
    forall i | In(f[..n], i)
      ensures i in jobs' && jobs'[i].state == if i < b then Succeeded else if i == b then Failed else Waiting
      ensures In(f[..n], b) || i < b
    {
      var k :| 0 <= k < |f[..n]| && f[..n][k].id == i;
      assert f[k].id == i;
      var p :| 0 <= p < |f| && f[p].id == b;
      if p < n { assert f[..n][p].id == b; }
    }
    if j :| 0 <= j < |f[..n]| && f[..n][j].id == b { assert f[j].id == b; }
  }

  lemma ParksBlocker(jobs: map<JobID, Row>, u: User, f: seq<Item>, b: JobID, n: int, jobs': map<JobID, Row>, m: int)
    requires UntouchedLast(jobs, u, f) && FreshBlock(jobs, u, f, b, m) && Mine(jobs, u, b)
    requires LeftFew(jobs, u, f, Some(b))
    requires 0 <= n <= |f| && FlushedRows(jobs, u, f, n, jobs') && In(f[..n], b)
    requires forall i :: Mine(jobs, u, i) && jobs[i].state == Executing ==> In(f, i)
    requires forall i :: In(f[..n], i) ==>
      i in jobs' && jobs'[i].state == if i < b then Succeeded else if i == b then Failed else Waiting
    ensures Parked(jobs', u, f[n..], b)
  {
    Split(f, n);
    var p :| 0 <= p < |f[..n]| && f[..n][p].id == b;
    assert f[p].id == b;
    forall k | 0 <= k < |f[n..]| ensures f[n..][k].id > b && Behind(f[n..][k].tag) {
      assert f[n..][k] == f[n + k];
    }
    forall i | Open(jobs', u, i) && i != b ensures b < i {
      if !In(f, i) {
        assert !In(f[..n], i) && jobs'[i] == jobs[i];
        if jobs[i].state == Unprocessed {
          assert Fresh(jobs, u, f, i) && Touched(jobs, u, f, b);
        } else if jobs[i].state == Failed {
          assert Left(jobs, u, f, Some(b), i) && f[p].id < i;
        }
      }
    }
  }

  lemma KeepsFreshBlock(jobs: map<JobID, Row>, u: User, f: seq<Item>, b: JobID, n: int, jobs': map<JobID, Row>, m: int)
    requires FreshBlock(jobs, u, f, b, m)
    requires 0 <= n <= |f| && FlushedRows(jobs, u, f, n, jobs') && In(f[n..], b)
    requires forall i :: In(f[..n], i) ==> i < b && i in jobs' && jobs'[i].state == Succeeded
    ensures FreshBlock(jobs', u, f[n..], b, m)
  {
    Split(f, n);
    forall k | 0 <= k < |f[n..]| ensures f[n..][k] == f[n + k] {}
  }

  lemma FlushedLeads(jobs: map<JobID, Row>, u: User, f: seq<Item>, b: JobID, n: int, jobs': map<JobID, Row>)
    requires Flushing(jobs, u, f, n, jobs') && FlushedRows(jobs, u, f, n, jobs') && Leads(jobs, u, b)
    requires forall k :: 0 <= k < n && f[k].id != b ==> f[k].tag == Answered(Waiting)
    ensures Leads(jobs', u, b)
  {
    forall i | Open(jobs', u, i) && i != b ensures b < i {
      if In(f[..n], i) {
        var k :| 0 <= k < |f[..n]| && f[..n][k].id == i;
        assert f[k].id == i && jobs'[i].state == Waiting;
        assert Open(jobs, u, i);
      } else {
        assert Open(jobs, u, i);
      }
    }
  }

  lemma FlushedParked(jobs: map<JobID, Row>, u: User, f: seq<Item>, b: JobID, n: int, jobs': map<JobID, Row>)
    requires Flushing(jobs, u, f, n, jobs') && FlushedRows(jobs, u, f, n, jobs') && Parked(jobs, u, f, b)
    ensures Parked(jobs', u, f[n..], b) && !Released(f, n, Some(b))
  {
    Split(f, n);
    FlushedLeads(jobs, u, f, b, n, jobs');
  }

  lemma FlushedRetrying(jobs: map<JobID, Row>, u: User, f: seq<Item>, b: JobID, n: int, jobs': map<JobID, Row>, m: int)
    requires Flushing(jobs, u, f, n, jobs') && FlushedRows(jobs, u, f, n, jobs') && Retrying(jobs, u, f, b)
    requires forall k :: 0 <= k < |f| - 1 ==> f[k].id != b
    ensures Stage(jobs', u, f[n..], Some(b), Released(f, n, Some(b)), m)
  {
    FlushedLeads(jobs, u, f, b, n, jobs');
    if n == |f| {
      assert f[..n] == f && f[n..] == [];
      assert In(f[..n], b);
      assert jobs'[b].state == f[n - 1].tag.state;
    } else {
      assert f[n..][|f| - n - 1] == f[|f| - 1] && In(f[n..], b);
      assert !In(f[..n], b);
      Split(f, n);
      forall k | 0 <= k < |f[n..]| - 1 ensures Behind(f[n..][k].tag) {
        assert f[n..][k] == f[n + k];
      }
      assert Retrying(jobs', u, f[n..], b);
    }
  }

  lemma FlushedBehind(jobs: map<JobID, Row>, u: User, f: seq<Item>, b: JobID, clearing: bool, n: int, jobs': map<JobID,
          Row>, m: int)
    requires Agree(jobs, u, f) && Flushing(jobs, u, f, n, jobs') && FlushedRows(jobs, u, f, n, jobs')
    requires (clearing && Clearing(jobs, u, f, b)) || (!clearing && (Parked(jobs, u, f, b) || Retrying(jobs, u, f, b)))
    ensures Stage(jobs', u, f[n..], Some(b), clearing || Released(f, n, Some(b)), m)
  {
    if clearing {
      FlushedLeads(jobs, u, f, b, n, jobs');
    } else if Parked(jobs, u, f, b) {
      FlushedParked(jobs, u, f, b, n, jobs');
    } else {
      FlushedRetrying(jobs, u, f, b, n, jobs', m);
    }
  }

  /** A flush makes done only what comes before all that stays open. */
  lemma FlushedDone(jobs: map<JobID, Row>, u: User, f: seq<Item>, b: Option<JobID>, clearing: bool, n: int,
          jobs': map<JobID, Row>, m: int)
    requires Agree(jobs, u, f) && DoneFirst(jobs, u) && UntouchedLast(jobs, u, f) && LeftFew(jobs, u, f, b)
    requires Stage(jobs, u, f, b, clearing, m) && 0 <= n <= |f| && FlushedRows(jobs, u, f, n, jobs')
    ensures DoneFirst(jobs', u)
  {
    forall i, j | Mine(jobs', u, i) && Done(jobs'[i].state) && Open(jobs', u, j) ensures i < j {
      StaysOpen(jobs, u, f, n, jobs', j);
      if In(f[..n], i) {
        assert Reported(f[..n], i);
        var k :| 0 <= k < |f[..n]| && f[..n][k].id == i && Decided(f[..n][k].tag);
        assert f[k].id == i && Decided(f[k].tag);
        DecidedFirst(jobs, u, f, b, clearing, m, k, j);
      } else {
        assert jobs'[i] == jobs[i];
      }
    }
  }

  /** An open job after a flush was open before, and not among the decided ones written. */
  lemma StaysOpen(jobs: map<JobID, Row>, u: User, f: seq<Item>, n: int, jobs': map<JobID, Row>, j: JobID)
    requires 0 <= n <= |f| && FlushedRows(jobs, u, f, n, jobs') && Open(jobs', u, j)
    ensures Open(jobs, u, j) && forall k :: 0 <= k < n && f[k].id == j ==> !Decided(f[k].tag)
  {
    forall k | 0 <= k < n && f[k].id == j ensures !Decided(f[k].tag) {
      assert f[..n][k] == f[k];
      assert In(f[..n], j);
    }
    if !In(f[..n], j) {
      assert jobs'[j] == jobs[j];
    }
  }

  /** A decided job in flight comes before every open job that is not decided. */
  lemma DecidedFirst(jobs: map<JobID, Row>, u: User, f: seq<Item>, b: Option<JobID>, clearing: bool, m: int, k: int,
          j: JobID)
    requires Agree(jobs, u, f) && UntouchedLast(jobs, u, f) && LeftFew(jobs, u, f, b)
    requires Stage(jobs, u, f, b, clearing, m) && 0 <= k < |f| && Decided(f[k].tag) && Open(jobs, u, j)
    requires forall l :: 0 <= l <= k && f[l].id == j ==> !Decided(f[l].tag)
    ensures f[k].id < j
  {
    hide Completed, Reported;
    assert In(f, f[k].id);
    if b == None || (FreshBlock(jobs, u, f, b.value, m) && !clearing) {
      if !In(f, j) {
        assert jobs[j].state == Unprocessed ==> Touched(jobs, u, f, f[k].id) && Fresh(jobs, u, f, j);
        assert jobs[j].state == Failed ==> Left(jobs, u, f, b, j);
      } else {
        var l :| 0 <= l < |f| && f[l].id == j;
        assert l > k;
      }
    }
  }

  lemma Flushed(jobs: map<JobID, Row>, completed: seq<JobID>, u: User, f: seq<Item>, b: Option<JobID>, clearing: bool,
                n: int, jobs': map<JobID, Row>, m: int)
    requires UserInv(jobs, completed, u, f, b, clearing, m) && Flushing(jobs, u, f, n, jobs')
    ensures UserInv(jobs', completed, u, f[n..], b, clearing || Released(f, n, b), m)
  {
    StageSettled(jobs, u, f, b, clearing, m);
    RowsAfterFlush(jobs, u, f, n, jobs');
    FlushedAgree(jobs, completed, u, f, n, jobs');
    FlushedAttempts(jobs, u, f, b, n, jobs', m);
    StageAnswers(jobs, u, f, b, clearing, m);
    FlushedDone(jobs, u, f, b, clearing, n, jobs', m);
    FlushedLeft(jobs, u, f, b, n, jobs');
    FlushedStage(jobs, u, f, b, clearing, n, jobs', m);
  }
}
