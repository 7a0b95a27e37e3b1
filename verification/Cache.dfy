/** The empty-result cache: for a dataset, a custom value and a state it may remember that no job matches. */
module Cache {
  import opened Common
  import opened Tables

  type EmptyCache = map<Index, map<string, map<State, bool>>>

  predicate Marked(cache: EmptyCache, ds: Index, cv: string, st: State) {
    ds in cache && cv in cache[ds] && st in cache[ds][cv] && cache[ds][cv][st]
  }

  /** The pairs marked for a dataset. */
  ghost function MarksOf(cache: EmptyCache, ds: Index): iset<(string, State)> {
    iset p: (string, State) | Marked(cache, ds, p.0, p.1)
  }

  /** Marking: nothing is remembered of a query that does not name both states and custom values. */
  ghost function Remember(marks: iset<(string, State)>, states: seq<State>, customVals: seq<string>)
    : iset<(string, State)>
  {
    iset p: (string, State) | p in marks || (p.0 in customVals && p.1 in states)
  }

  /** Clearing: everything is forgotten when no states or no custom values are named. */
  ghost function Forget(marks: iset<(string, State)>, states: seq<State>, customVals: seq<string>)
    : iset<(string, State)>
  {
    iset p: (string, State) |
      p in marks && states != [] && customVals != [] && !(p.0 in customVals && p.1 in states)
  }

  /** No job of the dataset has this custom value and this latest state. */
  ghost predicate NoneIn(d: Dataset, cv: string, st: State) {
    forall id :: id in d.jobs ==> !(d.jobs[id].customVal == cv && StateOf(Latest(d.statuses, id)) == st)
  }

  /** Whatever the cache says is empty is empty. */
  ghost predicate CacheSound(tables: Tables, cache: EmptyCache) {
    forall ds, cv, st :: Marked(cache, ds, cv, st) && ds in tables ==> NoneIn(tables[ds], cv, st)
  }

  /** The states a query stands for in the cache. */
  function CacheStates(f: Filter): seq<State> {
    match f
    case Processed(states, _) => states
    case Unprocessed => [NP]
  }

  /** isEmptyResult answers yes only for queries that name both states and custom values, all of them marked. */
  ghost predicate AllMarked(cache: EmptyCache, ds: Index, states: seq<State>, customVals: seq<string>) {
    && states != [] && customVals != []
    && forall cv, st :: cv in customVals && st in states ==> Marked(cache, ds, cv, st)
  }

  /** A query answered by the cache has nothing to return. */
  lemma EmptyAnswer(tables: Tables, cache: EmptyCache, ds: Index, f: Filter, customVals: seq<string>)
    requires CacheSound(tables, cache) && ds in tables && AllMarked(cache, ds, CacheStates(f), customVals)
    ensures forall id :: id !in Selected(tables[ds], f, customVals)
  {
    forall id | id in tables[ds].jobs ensures !Selects(f, customVals, RowOf(tables[ds], id)) {
      var cv, st := tables[ds].jobs[id].customVal, StateOf(Latest(tables[ds].statuses, id));
      assert Marked(cache, ds, cv, st) ==> NoneIn(tables[ds], cv, st);
    }
  }

  /** Every retry time stored lies before `now`. */
  ghost predicate RetriesDue(d: Dataset, now: int) {
    forall p :: 0 <= p < |d.statuses| ==> d.statuses[p].retryTime < now
  }

  ghost predicate Postponed(d: Dataset, f: Filter, customVals: seq<string>, id: JobID) {
    && id in d.jobs && Selects(if f.Processed? then f.(before := None) else f, customVals, RowOf(d, id))
    && !Selects(f, customVals, RowOf(d, id))
  }

  /** Marking after an empty answer tells the truth exactly when the answer is not empty merely because
      the matching jobs are postponed. */
  lemma MarkingIff(d: Dataset, f: Filter, customVals: seq<string>)
    requires customVals != [] && CacheStates(f) != [] && forall id :: id !in Selected(d, f, customVals)
    requires DatasetOK(d)
    ensures (forall cv, st :: cv in customVals && st in CacheStates(f) && (f.Processed? ==> st != NP) ==>
      NoneIn(d, cv, st))
        <==> forall id :: !Postponed(d, f, customVals, id)
  {
    forall id | id in d.jobs ensures StateOf(Latest(d.statuses, id)) != NP <==> Latest(d.statuses, id).Some? {
      LatestFrom(d.statuses, id);
    }
    if forall id :: !Postponed(d, f, customVals, id) {
      forall cv, st, id | cv in customVals && st in CacheStates(f) && (f.Processed? ==> st != NP) && id in d.jobs
        ensures !(d.jobs[id].customVal == cv && StateOf(Latest(d.statuses, id)) == st)
      {
        var unlimited := if f.Processed? then f.(before := None) else f;
        assert id !in Selected(d, f, customVals) && !Postponed(d, f, customVals, id);
        assert !Selects(unlimited, customVals, RowOf(d, id));
      }
    } else {
      var id :| Postponed(d, f, customVals, id);
      assert !NoneIn(d, d.jobs[id].customVal, StateOf(Latest(d.statuses, id)));
    }
  }

  /** A failed job that is to be tried again at 10 is not in the answer at 5, and the mark then says that no job has
      failed. */
  lemma PostponedIsMarked()
    ensures var d := Dataset(map[1 := Job(1, "GW", "")], [Status(1, Failed, 1, 10)]);
      && DatasetOK(d) && !NoneIn(d, "GW", Failed)
      && forall id :: id !in Selected(d, Processed([Failed], Some(5)), ["GW"])
  {
    var d := Dataset(map[1 := Job(1, "GW", "")], [Status(1, Failed, 1, 10)]);
    assert Latest(d.statuses, 1) == Some(d.statuses[0]);
  }

  lemma NothingPostponed(d: Dataset, f: Filter, customVals: seq<string>)
    requires f.Processed? && f.before.Some? ==> RetriesDue(d, f.before.value)
    ensures forall id :: !Postponed(d, f, customVals, id)
  {
    forall id ensures !Postponed(d, f, customVals, id) {
      if id in d.jobs {
        LatestFrom(d.statuses, id);
      }
    }
  }
}
