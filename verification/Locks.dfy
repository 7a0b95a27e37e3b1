/** The two reader/writer locks of the jobs database: no set of threads, of whatever number, can deadlock. A waiting
    writer keeps new readers out, as with sync.RWMutex. */
module Locks {
  datatype Lock = MigrationLock | ListLock
  datatype Mode = No | Read | Write

  datatype Op = Acquire(lock: Lock, mode: Mode) | Release(lock: Lock)

  /** `waiting` says that the thread has announced itself as the next writer of the lock it is about to acquire. */
  datatype Thread = Thread(rest: seq<Op>, migration: Mode, list: Mode, waiting: bool)

  function Held(t: Thread, l: Lock): Mode {
    if l == MigrationLock then t.migration else t.list
  }

  function SetHeld(t: Thread, l: Lock, m: Mode): Thread {
    if l == MigrationLock then t.(migration := m) else t.(list := m)
  }

  // ---------- the programs ----------

  /** UpdateJobStatus, GetUnprocessed and GetProcessed. */
  const READER: seq<Op> := [Acquire(MigrationLock, Read), Acquire(ListLock, Read), Release(ListLock),
      Release(MigrationLock)]

  const STORER: seq<Op> := [Acquire(ListLock, Read), Release(ListLock)]

  /** One round of mainCheckLoop. */
  function Round(full: bool, migrate: bool, live: bool): seq<Op> {
    [Acquire(ListLock, Read), Release(ListLock)]
    + (if full then [Acquire(ListLock, Write), Release(ListLock)] else [])
    + [Acquire(MigrationLock, Write)]
    + (if migrate && live then [Acquire(ListLock, Write), Release(ListLock)] else [])
    + (if migrate then [Acquire(ListLock, Write), Release(ListLock)] else [])
    + [Release(MigrationLock)]
  }

  /** A program that takes the migration lock first, if at all, never takes a lock while it holds the list lock, and
      gives everything back. */
  predicate Ordered(rest: seq<Op>, migration: Mode, list: Mode)
    decreases |rest|
  {
    if rest == [] then migration == No && list == No
    else match rest[0]
      case Acquire(l, m) =>
        && m != No && list == No && (l == MigrationLock ==> migration == No)
        && Ordered(rest[1..], if l == MigrationLock then m else migration, if l == ListLock then m else list)
      case Release(l) =>
        && (if l == MigrationLock then migration else list) != No
        && Ordered(rest[1..], if l == MigrationLock then No else migration, if l == ListLock then No else list)
  }

  lemma {:induction false} OrderedAppend(a: seq<Op>, b: seq<Op>, migration: Mode, list: Mode)
    requires Ordered(a, migration, list) && Ordered(b, No, No)
    ensures Ordered(a + b, migration, list)
    decreases |a|
  {
    if a == [] {
      assert a + b == b;
    } else {
      assert (a + b)[0] == a[0] && (a + b)[1..] == a[1..] + b;
      match a[0]
      case Acquire(l, m) => OrderedAppend(a[1..], b, if l == MigrationLock then m else migration,
          if l == ListLock then m else list);
      case Release(l) => OrderedAppend(a[1..], b, if l == MigrationLock then No else migration,
          if l == ListLock then No else list);
    }
  }

  lemma OneOp(op: Op, rest: seq<Op>, migration: Mode, list: Mode)
    requires op.Acquire? ==> op.mode != No && list == No && (op.lock == MigrationLock ==> migration == No)
    requires op.Release? ==> (if op.lock == MigrationLock then migration else list) != No
    requires var m := if op.Acquire? then op.mode else No;
      Ordered(rest, if op.lock == MigrationLock then m else migration, if op.lock == ListLock then m else list)
    ensures Ordered([op] + rest, migration, list)
  {
  }

  lemma ReaderOrdered()
    ensures Ordered(READER, No, No)
  {
    hide Ordered;
    var list, mig := [Release(ListLock)], [Release(MigrationLock)];
    NothingLeft();
    OneOp(Release(MigrationLock), [], Read, No);
    assert mig + [] == mig;
    OneOp(Release(ListLock), mig, Read, Read);
    OneOp(Acquire(ListLock, Read), list + mig, Read, No);
    OneOp(Acquire(MigrationLock, Read), [Acquire(ListLock, Read)] + (list + mig), No, No);
    assert READER == [Acquire(MigrationLock, Read)] + ([Acquire(ListLock, Read)] + (list + mig));
  }

  lemma StorerOrdered()
    ensures Ordered(STORER, No, No)
  {
    hide Ordered;
    NothingLeft();
    OneOp(Release(ListLock), [], No, Read);
    OneOp(Acquire(ListLock, Read), [Release(ListLock)] + [], No, No);
    assert STORER == [Acquire(ListLock, Read)] + ([Release(ListLock)] + []);
  }

  lemma NothingLeft()
    ensures Ordered([], No, No)
  {
  }

  lemma RoundOrdered(full: bool, migrate: bool, live: bool)
    ensures Ordered(Round(full, migrate, live), No, No)
  {
    hide Ordered;
    var w, mig := [Acquire(ListLock, Write), Release(ListLock)], [Release(MigrationLock)];
    NothingLeft();
    OneOp(Release(MigrationLock), [], Write, No);
    assert mig + [] == mig;
    var post := if migrate then w + mig else mig;
    WriteList(mig, Write);
    var copy := if migrate && live then w + post else post;
    WriteList(post, Write);
    OneOp(Acquire(MigrationLock, Write), copy, No, No);
    var whole := [Acquire(MigrationLock, Write)] + copy;
    WriteList(whole, No);
    var checked := if full then w + whole else whole;
    StorerOrdered();
    OrderedAppend(STORER, checked, No, No);
    assert Round(full, migrate, live) == STORER + checked;
  }

  /** All programs of the store keep the order. */
  lemma ProgramsOrdered(full: bool, migrate: bool, live: bool)
    ensures Ordered(READER, No, No) && Ordered(STORER, No, No) && Ordered(Round(full, migrate, live), No, No)
  {
    ReaderOrdered();
    StorerOrdered();
    RoundOrdered(full, migrate, live);
  }

  lemma WriteList(rest: seq<Op>, migration: Mode)
    requires Ordered(rest, migration, No)
    ensures Ordered([Acquire(ListLock, Write), Release(ListLock)] + rest, migration, No)
  {
  }

  // ---------- steps ----------

  ghost predicate Wants(t: Thread, l: Lock) {
    t.rest != [] && t.rest[0].Acquire? && t.rest[0].lock == l
  }

  ghost predicate WaitsFor(t: Thread, l: Lock) {
    Wants(t, l) && t.waiting
  }

  /** The thread's next step: a writer first announces itself, then acquires when all readers are gone. */
  ghost predicate Enabled(s: seq<Thread>, i: int) {
    && 0 <= i < |s| && s[i].rest != []
    && match s[i].rest[0]
       case Release(_) => true
       case Acquire(l, m) =>
         if m == Read then forall j :: 0 <= j < |s| ==> Held(s[j], l) != Write && !WaitsFor(s[j], l)
         else if s[i].waiting then forall j :: 0 <= j < |s| ==> Held(s[j], l) == No
         else forall j :: 0 <= j < |s| ==> Held(s[j], l) != Write && !WaitsFor(s[j], l)
  }

  ghost function Do(s: seq<Thread>, i: int): seq<Thread>
    requires Enabled(s, i)
  {
    var t := s[i];
    match t.rest[0]
    case Release(l) => s[i := SetHeld(t, l, No).(rest := t.rest[1..])]
    case Acquire(l, m) =>
      if m != Read && !t.waiting then s[i := t.(waiting := true)]
      else s[i := SetHeld(t, l, m).(rest := t.rest[1..], waiting := false)]
  }

  ghost predicate ThreadOK(t: Thread) {
    Ordered(t.rest, t.migration, t.list) && (t.waiting ==>
        t.rest != [] && t.rest[0].Acquire? && t.rest[0].mode == Write)
  }

  /** A writer is alone with the lock, and at most one thread is announced as the next one. */
  ghost predicate Exclusive(s: seq<Thread>, l: Lock) {
    && (forall i, j :: 0 <= i < |s| && 0 <= j < |s| && i != j && Held(s[i], l) == Write ==> Held(s[j], l) == No)
    && (forall i, j :: 0 <= i < |s| && 0 <= j < |s| && i != j && WaitsFor(s[i], l) ==>
        !WaitsFor(s[j], l) && Held(s[j], l) != Write)
  }

  ghost predicate Inv(s: seq<Thread>) {
    (forall i :: 0 <= i < |s| ==> ThreadOK(s[i])) && Exclusive(s, MigrationLock) && Exclusive(s, ListLock)
  }

  lemma ThreadKeeps(s: seq<Thread>, i: int)
    requires Enabled(s, i) && ThreadOK(s[i])
    ensures ThreadOK(Do(s, i)[i])
  {
  }

  lemma ExclusiveKeeps(s: seq<Thread>, i: int, l: Lock)
    requires Enabled(s, i) && ThreadOK(s[i]) && Exclusive(s, l)
    ensures Exclusive(Do(s, i), l)
  {
  }

  lemma StepKeeps(s: seq<Thread>, i: int)
    requires Inv(s) && Enabled(s, i)
    ensures Inv(Do(s, i))
  {
    hide ThreadOK, Exclusive, Ordered;
    ThreadKeeps(s, i);
    ExclusiveKeeps(s, i, MigrationLock);
    ExclusiveKeeps(s, i, ListLock);
  }

  // ---------- no deadlock ----------

  /** A thread that holds the list lock can always go on. */
  lemma ListHolderSteps(s: seq<Thread>, i: int)
    requires Inv(s) && 0 <= i < |s| && s[i].list != No
    ensures Enabled(s, i)
  {
  }

  /** With nobody holding a lock, whoever wants it, or the writer announced for it, can go on. */
  lemma WanterSteps(s: seq<Thread>, i: int, l: Lock) returns (k: int)
    requires Inv(s) && 0 <= i < |s| && Wants(s[i], l) && forall j :: 0 <= j < |s| ==> Held(s[j], l) == No
    ensures Enabled(s, k)
  {
    if j :| 0 <= j < |s| && WaitsFor(s[j], l) {
      k := j;
    } else {
      k := i;
      assert s[i].rest[0].mode == Read || s[i].rest[0].mode == Write by { assert ThreadOK(s[i]); }
    }
  }

  /** A thread that wants no lock can always go on. */
  lemma BusySteps(s: seq<Thread>, i: int)
    requires Inv(s) && 0 <= i < |s| && s[i].rest != [] && !Wants(s[i], ListLock) && !Wants(s[i], MigrationLock)
    ensures Enabled(s, i)
  {
  }

  lemma MigrationHolder(s: seq<Thread>, i: int)
    requires Inv(s) && 0 <= i < |s| && s[i].migration != No
    ensures s[i].rest != [] && !Wants(s[i], MigrationLock)
  {
  }

  /** As long as some thread is not finished, some thread can go on. */
  lemma NoDeadlock(s: seq<Thread>, i: int) returns (k: int)
    requires Inv(s) && 0 <= i < |s| && s[i].rest != []
    ensures Enabled(s, k)
  {
    if h :| 0 <= h < |s| && s[h].list != No {
      ListHolderSteps(s, h);
      k := h;
    } else if w :| 0 <= w < |s| && Wants(s[w], ListLock) {
      k := WanterSteps(s, w, ListLock);
    } else if h :| 0 <= h < |s| && s[h].migration != No {
      MigrationHolder(s, h);
      BusySteps(s, h);
      k := h;
    } else if Wants(s[i], MigrationLock) {
      k := WanterSteps(s, i, MigrationLock);
    } else {
      BusySteps(s, i);
      k := i;
    }
  }

  // ---------- runs ----------

  ghost predicate Run(s: seq<Thread>, steps: seq<int>)
    decreases |steps|
  {
    steps == [] || (Enabled(s, steps[0]) && Run(Do(s, steps[0]), steps[1..]))
  }

  ghost function Final(s: seq<Thread>, steps: seq<int>): seq<Thread>
    requires Run(s, steps)
    decreases |steps|
  {
    if steps == [] then s else Final(Do(s, steps[0]), steps[1..])
  }

  /** Threads that have not begun, each with a program that keeps the order. */
  ghost predicate Init(s: seq<Thread>) {
    forall i :: 0 <= i < |s| ==> s[i] == Thread(s[i].rest, No, No, false) && Ordered(s[i].rest, No, No)
  }

  lemma {:induction false} RunKeeps(s: seq<Thread>, steps: seq<int>)
    requires Inv(s) && Run(s, steps)
    ensures Inv(Final(s, steps))
    decreases |steps|
  {
    hide Inv, Enabled, Do;
    if steps != [] {
      StepKeeps(s, steps[0]);
      RunKeeps(Do(s, steps[0]), steps[1..]);
    }
  }

  /** In every run, of any number of threads, a writer is alone with its lock and somebody can always go on. */
  lemma NeverStuck(s: seq<Thread>, steps: seq<int>)
    requires Init(s) && Run(s, steps)
    ensures var t := Final(s, steps);
      && (forall i, j, l :: 0 <= i < |t| && 0 <= j < |t| && i != j && Held(t[i], l) == Write ==> Held(t[j], l) == No)
      && ((forall i :: 0 <= i < |t| ==> t[i].rest == []) || exists k :: Enabled(t, k))
  {
    RunKeeps(s, steps);
    var t := Final(s, steps);
    if i :| 0 <= i < |t| && t[i].rest != [] {
      var k := NoDeadlock(t, i);
    }
  }
}
