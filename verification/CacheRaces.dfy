/** The empty-result cache under concurrent use: any number of reads and writers go through their steps on one dataset,
    all holding the list lock for reading, and the lock of the cache covers one access at a time. */
module CacheRaces {
  import opened Common
  import opened Tables
  import opened Cache

  /** A transaction of Store, or one of UpdateJobStatus. */
  datatype Write = Added(jobs: map<JobID, Job>) | Updated(statuses: seq<Status>, customVals: seq<string>)

  /** A read asks the cache, queries the tables, and marks what it asked for if it found nothing; a writer commits and
      clears. `t` is the thread. */
  datatype Event =
    | Ask(t: nat, f: Filter, customVals: seq<string>)
    | Query(t: nat, f: Filter, customVals: seq<string>)
    | Mark(t: nat, f: Filter, customVals: seq<string>)
    | Commit(t: nat, w: Write)
    | Clear(t: nat, w: Write)

  datatype Phase =
    | Idle
    | Asked(f: Filter, customVals: seq<string>)     // the cache did not know
    | Found(f: Filter, customVals: seq<string>)     // the query found nothing
    | Wrote(w: Write)

  datatype Shared = Shared(marks: iset<(string, State)>, table: Dataset, phases: map<nat, Phase>)

  ghost function PhaseOf(s: Shared, t: nat): Phase {
    if t in s.phases then s.phases[t] else Idle
  }

  ghost predicate Answered(marks: iset<(string, State)>, f: Filter, customVals: seq<string>) {
    && CacheStates(f) != [] && customVals != []
    && forall cv, st :: cv in customVals && st in CacheStates(f) ==> (cv, st) in marks
  }

  /** Jobs are stored under new ids; statuses are written for jobs that exist. */
  ghost predicate Fits(d: Dataset, w: Write) {
    match w
    case Added(jobs) => forall id :: id in jobs ==> id !in d.jobs
    case Updated(q, _) => q != [] && forall x :: x in q ==> x.jobID in d.jobs && x.state != NP
  }

  ghost function Written(d: Dataset, w: Write): Dataset {
    match w
    case Added(jobs) => d.(jobs := d.jobs + jobs)
    case Updated(q, _) => d.(statuses := d.statuses + q)
  }

  function StatesIn(q: seq<Status>): seq<State> {
    seq(|q|, k requires 0 <= k < |q| => q[k].state)
  }

  ghost function Cleared(marks: iset<(string, State)>, w: Write): iset<(string, State)> {
    match w
    case Added(_) => Forget(marks, [], [])
    case Updated(q, customVals) => Forget(marks, StatesIn(q), customVals)
  }

  /** After a bulk copy has been rolled back a Store commits its jobs one by one and clears once. */
  ghost predicate Enabled(s: Shared, e: Event) {
    match e
    case Ask(t, _, _) => PhaseOf(s, t) == Idle
    case Query(t, f, customVals) => PhaseOf(s, t) == Asked(f, customVals)
    case Mark(t, f, customVals) => PhaseOf(s, t) == Found(f, customVals)
    case Commit(t, w) =>
      && Fits(s.table, w)
      && var p := PhaseOf(s, t); p == Idle || (p.Wrote? && p.w.Added? && w.Added?)
    case Clear(t, w) => PhaseOf(s, t) == Wrote(w)
  }

  ghost function Do(s: Shared, e: Event): Shared {
    match e
    case Ask(t, f, customVals) =>
      s.(phases := s.phases[t := if Answered(s.marks, f, customVals) then Idle else Asked(f, customVals)])
    case Query(t, f, customVals) =>
      var nothing := forall id :: id !in Selected(s.table, f, customVals);
      s.(phases := s.phases[t := if nothing then Found(f, customVals) else Idle])
    case Mark(t, f, customVals) =>
      s.(marks := Remember(s.marks, CacheStates(f), customVals), phases := s.phases[t := Idle])
    case Commit(t, w) => s.(table := Written(s.table, w), phases := s.phases[t := Wrote(w)])
    case Clear(t, w) => s.(marks := Cleared(s.marks, w), phases := s.phases[t := Idle])
  }

  ghost predicate Refers(d: Dataset) {
    forall x :: x in d.statuses ==> x.jobID in d.jobs && x.state != NP
  }

  /** A process starts with an empty cache, whatever is in the tables. */
  ghost predicate Start(s: Shared) {
    s.marks == iset{} && s.phases == map[] && Refers(s.table)
  }

  /** The state after the first n events. */
  ghost function After(s: Shared, events: seq<Event>, n: nat): Shared
    requires n <= |events|
  {
    if n == 0 then s else Do(After(s, events, n - 1), events[n - 1])
  }

  ghost predicate Run(s: Shared, events: seq<Event>) {
    Start(s) && forall i :: 0 <= i < |events| ==> Enabled(After(s, events, i), events[i])
  }

  // ---------- what events do to marks ----------

  ghost predicate Marks(e: Event, cv: string, st: State) {
    e.Mark? && cv in e.customVals && st in CacheStates(e.f)
  }

  ghost predicate Covers(w: Write, cv: string, st: State) {
    w.Updated? && w.statuses != [] && w.customVals != [] ==>
      cv in w.customVals && exists x :: x in w.statuses && x.state == st
  }

  ghost predicate Clears(e: Event, cv: string, st: State) {
    e.Clear? && Covers(e.w, cv, st)
  }

  /** The mark set at m has not been cleared before n. */
  ghost predicate Stands(events: seq<Event>, m: int, n: int, cv: string, st: State) {
    && 0 <= m < n <= |events| && Marks(events[m], cv, st)
    && forall k :: m < k < n ==> !Clears(events[k], cv, st)
  }

  lemma ClearedIff(marks: iset<(string, State)>, w: Write, cv: string, st: State)
    ensures (cv, st) in Cleared(marks, w) <==> (cv, st) in marks && !Covers(w, cv, st)
  {
    if w.Updated? {
      var q := w.statuses;
      assert st in StatesIn(q) <==> exists x :: x in q && x.state == st by {
        if x :| x in q && x.state == st {
          var k :| 0 <= k < |q| && q[k] == x;
          assert StatesIn(q)[k] == st;
        }
        if st in StatesIn(q) {
          var k :| 0 <= k < |q| && StatesIn(q)[k] == st;
          assert q[k] in q;
        }
      }
      assert StatesIn(q) == [] <==> q == [];
    }
  }

  lemma MarksStep(s: Shared, e: Event, cv: string, st: State)
    ensures (cv, st) in Do(s, e).marks <==> Marks(e, cv, st) || ((cv, st) in s.marks && !Clears(e, cv, st))
  {
    hide Covers, Cleared, Selects, Answered, Written;
    if e.Clear? {
      ClearedIff(s.marks, e.w, cv, st);
    }
  }

  /** What is marked is what some event has marked and none has cleared since. */
  lemma {:induction false} MarkedIff(s: Shared, events: seq<Event>, n: nat, cv: string, st: State)
    requires Start(s) && n <= |events|
    ensures (cv, st) in After(s, events, n).marks <==> exists m :: Stands(events, m, n, cv, st)
  {
    hide Do, Marks, Clears;
    if n > 0 {
      var k, e := n - 1, events[n - 1];
      MarkedIff(s, events, k, cv, st);
      MarksStep(After(s, events, k), e, cv, st);
      forall m ensures Stands(events, m, n, cv, st) <==>
          (m == k && Marks(e, cv, st)) || (Stands(events, m, k, cv, st) && !Clears(e, cv, st))
      {
      }
      if Marks(e, cv, st) {
        assert Stands(events, k, n, cv, st);
      } else if m :| Stands(events, m, k, cv, st) {
        assert Stands(events, m, n, cv, st) || Clears(e, cv, st);
      }
    }
  }

  // ---------- reads ----------

  /** The query at q belongs to the mark at m. */
  ghost predicate ReadFrom(events: seq<Event>, q: int, m: int) {
    && 0 <= q < m < |events| && events[m].Mark?
    && events[q] == Query(events[m].t, events[m].f, events[m].customVals)
    && forall k :: q < k < m ==> events[k].t != events[m].t
  }

  ghost predicate FoundAt(s: Shared, events: seq<Event>, q: int, n: nat, t: nat, f: Filter, customVals: seq<string>) {
    && 0 <= q < n <= |events| && events[q] == Query(t, f, customVals)
    && (forall k :: q < k < n ==> events[k].t != t)
    && forall id :: id !in Selected(After(s, events, q).table, f, customVals)
  }

  /** Only a query that finds nothing leads to a mark. */
  lemma FoundStep(s: Shared, e: Event, t: nat)
    requires Enabled(s, e) && PhaseOf(Do(s, e), t).Found?
    ensures var p := PhaseOf(Do(s, e), t);
      if e.t == t then e == Query(t, p.f, p.customVals) && forall id :: id !in Selected(s.table, p.f, p.customVals)
      else PhaseOf(s, t) == p
  {
    hide Selects, Answered, Fits, Written, Cleared;
  }

  lemma {:induction false} QueriedBefore(s: Shared, events: seq<Event>, n: nat, t: nat)
    requires Run(s, events) && n <= |events|
    ensures var p := PhaseOf(After(s, events, n), t);
      p.Found? ==> exists q :: FoundAt(s, events, q, n, t, p.f, p.customVals)
  {
    hide Do, Enabled;
    var p := PhaseOf(After(s, events, n), t);
    if n > 0 && p.Found? {
      QueriedBefore(s, events, n - 1, t);
      FoundStep(After(s, events, n - 1), events[n - 1], t);
      if events[n - 1].t == t {
        assert FoundAt(s, events, n - 1, n, t, p.f, p.customVals);
      } else {
        var q :| FoundAt(s, events, q, n - 1, t, p.f, p.customVals);
        assert FoundAt(s, events, q, n, t, p.f, p.customVals);
      }
    }
  }

  lemma MarkHasQuery(s: Shared, events: seq<Event>, m: nat) returns (q: nat)
    requires Run(s, events) && m < |events| && events[m].Mark?
    ensures ReadFrom(events, q, m)
    ensures forall id :: id !in Selected(After(s, events, q).table, events[m].f, events[m].customVals)
  {
    var e := events[m];
    QueriedBefore(s, events, m, e.t);
    assert Enabled(After(s, events, m), e);
    q :| FoundAt(s, events, q, m, e.t, e.f, e.customVals);
  }

  // ---------- writers ----------

  ghost predicate Names(w: Write, id: JobID) {
    match w
    case Added(jobs) => id in jobs
    case Updated(q, _) => Latest(q, id).Some?
  }

  /** The state in which a write leaves a job it names. */
  ghost function Puts(w: Write, id: JobID): State {
    match w
    case Added(_) => NP
    case Updated(q, _) => StateOf(Latest(q, id))
  }

  ghost predicate NamedAt(events: seq<Event>, c: int, id: JobID) {
    0 <= c < |events| && events[c].Commit? && Names(events[c].w, id)
  }

  /** The commit at c is the last one after q that names the job. */
  ghost predicate LastNamed(events: seq<Event>, q: int, c: int, n: int, id: JobID) {
    q < c < n && NamedAt(events, c, id) && forall k :: c < k < n ==> !NamedAt(events, k, id)
  }

  ghost predicate IsIn(d: Dataset, id: JobID, cv: string, st: State) {
    id in d.jobs && d.jobs[id].customVal == cv && StateOf(Latest(d.statuses, id)) == st
  }

  lemma WrittenState(d: Dataset, w: Write, id: JobID)
    requires Refers(d) && Fits(d, w)
    ensures var d' := Written(d, w);
      && Refers(d')
      && (id in d.jobs ==> id in d'.jobs && d'.jobs[id] == d.jobs[id])
      && (Names(w, id) ==> id in d'.jobs && StateOf(Latest(d'.statuses, id)) == Puts(w, id))
      && (!Names(w, id) ==> (id in d'.jobs <==> id in d.jobs) && Latest(d'.statuses, id) == Latest(d.statuses, id))
  {
    LatestFrom(d.statuses, id);
    if w.Updated? {
      LatestAppend(d.statuses, w.statuses, id);
      LatestFrom(w.statuses, id);
    }
  }

  lemma TableStep(s: Shared, e: Event, id: JobID)
    requires Refers(s.table) && Enabled(s, e)
    ensures var d, d' := s.table, Do(s, e).table;
      && Refers(d')
      && (id in d.jobs ==> id in d'.jobs && d'.jobs[id] == d.jobs[id])
      && (if e.Commit? && Names(e.w, id) then id in d'.jobs && StateOf(Latest(d'.statuses, id)) == Puts(e.w, id)
          else (id in d'.jobs <==> id in d.jobs) && Latest(d'.statuses, id) == Latest(d.statuses, id))
  {
    hide Selects, Answered, Fits, Written, Cleared, Refers, Names, Puts;
    if e.Commit? {
      WrittenState(s.table, e.w, id);
    }
  }

  lemma {:induction false} TableKept(s: Shared, events: seq<Event>, n: nat)
    requires Run(s, events) && n <= |events|
    ensures Refers(After(s, events, n).table)
  {
    hide Do, Enabled;
    if n > 0 {
      TableKept(s, events, n - 1);
      TableStep(After(s, events, n - 1), events[n - 1], 0);
    }
  }

  /** A job no commit names keeps its row. */
  lemma {:induction false} Unnamed(s: Shared, events: seq<Event>, q: nat, n: nat, id: JobID)
    requires Run(s, events) && q <= n <= |events| && forall c :: q <= c < n ==> !NamedAt(events, c, id)
    ensures var d, d' := After(s, events, q).table, After(s, events, n).table;
      (id in d'.jobs <==> id in d.jobs) && Latest(d'.statuses, id) == Latest(d.statuses, id)
      && (id in d.jobs ==> d'.jobs[id] == d.jobs[id])
  {
    hide Do, Enabled, Refers, Names;
    if q < n {
      Unnamed(s, events, q, n - 1, id);
      TableKept(s, events, n - 1);
      TableStep(After(s, events, n - 1), events[n - 1], id);
      assert !NamedAt(events, n - 1, id);
    }
  }

  /** A job is in the state in which the last commit naming it has put it. */
  lemma LastPut(s: Shared, events: seq<Event>, q: nat, c: nat, n: nat, id: JobID)
    requires Run(s, events) && n <= |events| && LastNamed(events, q, c, n, id)
    ensures var d := After(s, events, n).table; id in d.jobs && StateOf(Latest(d.statuses, id)) == Puts(events[c].w, id)
  {
    hide Do, Enabled, Refers, Names, Puts;
    TableKept(s, events, c);
    TableStep(After(s, events, c), events[c], id);
    Unnamed(s, events, c + 1, n, id);
  }

  lemma {:induction false} LastExists(events: seq<Event>, q: int, c: int, n: int, id: JobID)
    requires q < c < n <= |events| && NamedAt(events, c, id)
    ensures exists c' :: LastNamed(events, q, c', n, id)
    decreases n - c
  {
    hide Names;
    if k :| c < k < n && NamedAt(events, k, id) {
      LastExists(events, q, k, n, id);
    } else {
      assert LastNamed(events, q, c, n, id);
    }
  }

  // ---------- when a mark is false ----------

  /** A commit after the query at q has put the job where the mark says there is none. */
  ghost predicate Overtaken(events: seq<Event>, q: int, n: int, id: JobID, st: State) {
    exists c :: LastNamed(events, q, c, n, id) && Puts(events[c].w, id) == st
  }

  /** The job was there, and the query passed over it: it is to be retried later, or the query asked among statuses for
      jobs that have none. */
  ghost predicate PassedOver(d: Dataset, f: Filter, id: JobID, cv: string, st: State) {
    && IsIn(d, id, cv, st) && f.Processed?
    && (st == NP || (f.before.Some? && Latest(d.statuses, id).value.retryTime >= f.before.value))
  }

  lemma NotSelected(d: Dataset, f: Filter, customVals: seq<string>, id: JobID, cv: string, st: State)
    requires Refers(d) && IsIn(d, id, cv, st) && cv in customVals && st in CacheStates(f)
    requires id !in Selected(d, f, customVals)
    ensures PassedOver(d, f, id, cv, st)
  {
    LatestFrom(d.statuses, id);
  }

  ghost predicate FalseMark(s: Shared, cv: string, st: State) {
    (cv, st) in s.marks && !NoneIn(s.table, cv, st)
  }

  /** Why a mark is false for a job: it is set and stands, and after its query a commit has put the job there, or the
      query passed over the job and no commit has named it since. */
  ghost predicate Misled(s: Shared, events: seq<Event>, q: int, m: int, id: JobID, cv: string, st: State) {
    && Stands(events, m, |events|, cv, st) && ReadFrom(events, q, m)
    && (|| (Overtaken(events, q, |events|, id, st) && OfVal(After(s, events, |events|).table, id, cv))
        || ((forall c :: q < c < |events| ==> !NamedAt(events, c, id))
            && PassedOver(After(s, events, q).table, events[q].f, id, cv, st)))
  }

  ghost predicate OfVal(d: Dataset, id: JobID, cv: string) {
    id in d.jobs && d.jobs[id].customVal == cv
  }

  lemma MisledIsFalse(s: Shared, events: seq<Event>, q: int, m: int, id: JobID, cv: string, st: State)
    requires Run(s, events) && Misled(s, events, q, m, id, cv, st)
    ensures FalseMark(After(s, events, |events|), cv, st)
  {
    hide Do, Enabled, Names, Puts, Marks, Clears;
    var n := |events|;
    MarkedIff(s, events, n, cv, st);
    assert IsIn(After(s, events, n).table, id, cv, st) by {
      if c :| LastNamed(events, q, c, n, id) && Puts(events[c].w, id) == st {
        LastPut(s, events, q, c, n, id);
      } else {
        assert !NamedAt(events, q, id);
        Unnamed(s, events, q, n, id);
      }
    }
  }

  lemma FalseIsMisled(s: Shared, events: seq<Event>, cv: string, st: State)
    requires Run(s, events) && FalseMark(After(s, events, |events|), cv, st)
    ensures exists q, m, id :: Misled(s, events, q, m, id, cv, st)
  {
    hide Do, Enabled, Names, Puts, Clears, Selected;
    var n := |events|;
    MarkedIff(s, events, n, cv, st);
    var m: nat :| Stands(events, m, n, cv, st);
    var q := MarkHasQuery(s, events, m);
    var d := After(s, events, n).table;
    var id :| id in d.jobs && d.jobs[id].customVal == cv && StateOf(Latest(d.statuses, id)) == st;
    if c :| q < c < n && NamedAt(events, c, id) {
      LastExists(events, q, c, n, id);
      var c' :| LastNamed(events, q, c', n, id);
      LastPut(s, events, q, c', n, id);
    } else {
      assert !NamedAt(events, q, id);
      Unnamed(s, events, q, n, id);
      TableKept(s, events, q);
      NotSelected(After(s, events, q).table, events[q].f, events[q].customVals, id, cv, st);
    }
    assert Misled(s, events, q, m, id, cv, st);
  }

  /** At any moment of any run the mark of a custom value and a state is false if and only if some read has set it since
      it was last cleared, and after the query of that read a commit has put such a job there, or the query passed over
      one. */
  lemma FalseIff(s: Shared, events: seq<Event>, cv: string, st: State)
    requires Run(s, events)
    ensures FalseMark(After(s, events, |events|), cv, st) <==> exists q, m, id :: Misled(s, events, q, m, id, cv, st)
  {
    if FalseMark(After(s, events, |events|), cv, st) {
      FalseIsMisled(s, events, cv, st);
    }
    if q, m, id :| Misled(s, events, q, m, id, cv, st) {
      MisledIsFalse(s, events, q, m, id, cv, st);
    }
  }

  // ---------- when all writers are through ----------

  /** Nobody is between a commit and its clear. */
  ghost predicate AtRest(s: Shared) {
    forall t: nat :: !PhaseOf(s, t).Wrote?
  }

  ghost predicate ItsValuesNamed(d: Dataset, w: Write) {
    w.Updated? && w.customVals != [] ==>
      forall x :: x in w.statuses && x.jobID in d.jobs ==> d.jobs[x.jobID].customVal in w.customVals
  }

  /** An update names the custom values of its jobs, or clears for all. */
  ghost predicate ValuesNamed(s: Shared, events: seq<Event>) {
    forall c :: 0 <= c < |events| && events[c].Commit? ==> ItsValuesNamed(After(s, events, c).table, events[c].w)
  }

  ghost predicate SameKind(a: Write, b: Write) {
    a == b || (a.Added? && b.Added?)
  }

  /** The clear at k is that of the writer that commits at c. */
  ghost predicate ClearOf(events: seq<Event>, c: int, k: int) {
    && 0 <= c < k < |events| && events[c].Commit? && events[k].Clear? && events[k].t == events[c].t
    && SameKind(events[c].w, events[k].w)
    && forall j :: c < j < k ==> !(events[j].Clear? && events[j].t == events[c].t)
  }

  lemma WroteStep(s: Shared, e: Event, t: nat)
    requires Enabled(s, e) && PhaseOf(s, t).Wrote?
    ensures if e.t == t && e.Clear? then e.w == PhaseOf(s, t).w
            else PhaseOf(Do(s, e), t).Wrote? && SameKind(PhaseOf(s, t).w, PhaseOf(Do(s, e), t).w)
  {
    hide Selected, Answered, Fits, Written, Cleared;
  }

  lemma CommitStep(s: Shared, e: Event)
    requires e.Commit?
    ensures PhaseOf(Do(s, e), e.t) == Wrote(e.w)
  {
  }

  lemma {:induction false} ClearedOrWrote(s: Shared, events: seq<Event>, c: nat, n: nat)
    requires Run(s, events) && c < n <= |events| && events[c].Commit?
    ensures var p := PhaseOf(After(s, events, n), events[c].t);
      || (exists k :: ClearOf(events, c, k) && k < n)
      || (p.Wrote? && SameKind(events[c].w, p.w)
          && forall j :: c < j < n ==> !(events[j].Clear? && events[j].t == events[c].t))
  {
    hide Do, Enabled;
    var t := events[c].t;
    if n == c + 1 {
      CommitStep(After(s, events, c), events[c]);
    } else {
      ClearedOrWrote(s, events, c, n - 1);
      if k :| ClearOf(events, c, k) && k < n - 1 {
      } else {
        WroteStep(After(s, events, n - 1), events[n - 1], t);
        assert events[n - 1].t == t && events[n - 1].Clear? ==> ClearOf(events, c, n - 1);
      }
    }
  }

  lemma {:induction false} JobKept(s: Shared, events: seq<Event>, a: nat, b: nat, id: JobID)
    requires Run(s, events) && a <= b <= |events| && id in After(s, events, a).table.jobs
    ensures id in After(s, events, b).table.jobs
    ensures After(s, events, b).table.jobs[id] == After(s, events, a).table.jobs[id]
  {
    hide Do, Enabled, Refers, Names;
    if a < b {
      JobKept(s, events, a, b - 1, id);
      TableKept(s, events, b - 1);
      TableStep(After(s, events, b - 1), events[b - 1], id);
    }
  }

  /** The clear of a commit covers where the commit has put a job. */
  lemma ClearCovers(s: Shared, events: seq<Event>, c: nat, k: nat, id: JobID, cv: string)
    requires Run(s, events) && ValuesNamed(s, events) && ClearOf(events, c, k) && NamedAt(events, c, id)
    requires OfVal(After(s, events, |events|).table, id, cv)
    ensures Clears(events[k], cv, Puts(events[c].w, id))
  {
    hide Do, Selected, Answered, Written, Cleared;
    var w, d := events[c].w, After(s, events, c).table;
    if w.Updated? {
      LatestFrom(w.statuses, id);
      var x := Latest(w.statuses, id).value;
      assert x in w.statuses && x.jobID == id;
      assert Enabled(After(s, events, c), events[c]);
      JobKept(s, events, c, |events|, id);
    }
  }

  /** Both steps of a writer, the last one to name the job, lie between the query and the mark. */
  ghost predicate Enclosed(events: seq<Event>, q: int, m: int, id: JobID, st: State) {
    exists c, k :: q < c && k < m && ClearOf(events, c, k)
      && LastNamed(events, q, c, |events|, id) && Puts(events[c].w, id) == st
  }

  ghost predicate MisledAtRest(s: Shared, events: seq<Event>, q: int, m: int, id: JobID, cv: string, st: State) {
    && Stands(events, m, |events|, cv, st) && ReadFrom(events, q, m)
    && (|| (Enclosed(events, q, m, id, st) && OfVal(After(s, events, |events|).table, id, cv))
        || ((forall c :: q < c < |events| ==> !NamedAt(events, c, id))
            && PassedOver(After(s, events, q).table, events[q].f, id, cv, st)))
  }

  lemma AtRestEnclosed(s: Shared, events: seq<Event>, q: int, m: int, id: JobID, cv: string, st: State)
    requires Run(s, events) && AtRest(After(s, events, |events|)) && ValuesNamed(s, events)
    requires Stands(events, m, |events|, cv, st) && Overtaken(events, q, |events|, id, st) && 0 <= q
    requires OfVal(After(s, events, |events|).table, id, cv)
    ensures Enclosed(events, q, m, id, st)
  {
    hide Do, Enabled, Puts, Names, Clears, ValuesNamed, Run;
    var n := |events|;
    var c :| LastNamed(events, q, c, n, id) && Puts(events[c].w, id) == st;
    ClearedOrWrote(s, events, c, n);
    assert !PhaseOf(After(s, events, n), events[c].t).Wrote?;
    var k :| ClearOf(events, c, k) && k < n;
    ClearCovers(s, events, c, k, id, cv);
    assert Clears(events[k], cv, st) && k != m;
  }

  /** When no writer is under way a mark is false if and only if both steps of a writer fell between the query and the
      mark of the read that set it, or its query passed over a job: a read that no such write overtakes leaves the cache
      true. */
  lemma AtRestIff(s: Shared, events: seq<Event>, cv: string, st: State)
    requires Run(s, events) && AtRest(After(s, events, |events|)) && ValuesNamed(s, events)
    ensures FalseMark(After(s, events, |events|), cv, st) <==>
      exists q, m, id :: MisledAtRest(s, events, q, m, id, cv, st)
  {
    hide Run, AtRest, ValuesNamed, PassedOver, Stands, ReadFrom, NamedAt, OfVal, FalseMark, LastNamed, ClearOf;
    FalseIff(s, events, cv, st);
    if q, m, id :| Misled(s, events, q, m, id, cv, st) {
      QueryFirst(events, q, m);
      if Overtaken(events, q, |events|, id, st) && OfVal(After(s, events, |events|).table, id, cv) {
        AtRestEnclosed(s, events, q, m, id, cv, st);
      }
      assert MisledAtRest(s, events, q, m, id, cv, st);
    }
    if q, m, id :| MisledAtRest(s, events, q, m, id, cv, st) {
      assert Misled(s, events, q, m, id, cv, st);
    }
  }

  lemma QueryFirst(events: seq<Event>, q: int, m: int)
    requires ReadFrom(events, q, m)
    ensures 0 <= q
  {
  }

  // ---------- it happens ----------

  /** A read with a writer between its query and its mark. */
  function Overlap(f: Filter, customVals: seq<string>, w: Write): seq<Event> {
    [Ask(0, f, customVals), Query(0, f, customVals), Commit(1, w), Clear(1, w), Mark(0, f, customVals)]
  }

  /** Whatever read finds nothing and whatever write then makes a job match can meet like this, and from then on the
      cache answers the read with nothing. */
  lemma OverlapHides(s: Shared, f: Filter, customVals: seq<string>, w: Write, id: JobID)
    requires Start(s) && customVals != [] && CacheStates(f) != []
    requires (forall x :: x !in Selected(s.table, f, customVals)) && Fits(s.table, w)
    requires id in Selected(Written(s.table, w), f, customVals)
    ensures var events := Overlap(f, customVals, w);
      var e := After(s, events, |events|);
      Run(s, events) && AtRest(e) && Answered(e.marks, f, customVals) && id in Selected(e.table, f, customVals)
  {
    hide Selected, Written, Cleared, Fits, Selects;
    var events := Overlap(f, customVals, w);
    var s1 := After(s, events, 1);
    assert After(s, events, 0) == s;
    assert s1 == Do(s, events[0]);
    assert (customVals[0], CacheStates(f)[0]) !in s.marks;
    assert s1 == s.(phases := map[0 := Asked(f, customVals)]);
    var s2 := After(s, events, 2);
    assert s2 == Do(s1, events[1]) == s.(phases := map[0 := Found(f, customVals)]);
    var s3 := After(s, events, 3);
    assert s3 == Do(s2, events[2]);
    assert s3.phases == map[0 := Found(f, customVals), 1 := Wrote(w)];
    var s4 := After(s, events, 4);
    assert s4 == Do(s3, events[3]);
    var s5 := After(s, events, 5);
    assert s5 == Do(s4, events[4]);
  }

  /** GetUnprocessed against a Store, and GetToRetry against the update that fails a job. */
  lemma HiddenJobs()
    ensures var s := Shared(iset{}, NO_ROWS, map[]);
      var events := Overlap(Unprocessed, ["GW"], Added(map[1 := Job(1, "GW", "")]));
      Run(s, events) && FalseMark(After(s, events, |events|), "GW", NP)
    ensures var s := Shared(iset{}, Dataset(map[1 := Job(1, "GW", "")], [Status(1, Executing, 1, 0)]), map[]);
      var events := Overlap(Processed([Failed], Some(9)), ["GW"], Updated([Status(1, Failed, 1, 0)], ["GW"]));
      Run(s, events) && FalseMark(After(s, events, |events|), "GW", Failed)
  {
    hide Run, After, AtRest;
    var job := Job(1, "GW", "");
    var s := Shared(iset{}, NO_ROWS, map[]);
    OverlapHides(s, Unprocessed, ["GW"], Added(map[1 := job]), 1);
    var x, y := Status(1, Executing, 1, 0), Status(1, Failed, 1, 0);
    var r := Shared(iset{}, Dataset(map[1 := job], [x]), map[]);
    assert Latest([x], 1) == Some(x) && ([x] + [y]) == [x, y] && Latest([x, y], 1) == Some(y);
    OverlapHides(r, Processed([Failed], Some(9)), ["GW"], Updated([y], ["GW"]), 1);
  }
}
