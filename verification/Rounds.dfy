/** What one round of the check loop comes to, said of the datasets as they were and as they are. */
module Rounds {
  import opened Common
  import opened Tables
  import opened Layout
  import opened Migration
  import opened Compaction
  import opened Maintenance

  // ---------- which datasets go ----------

  ghost function Share(part: nat, whole: nat): real
    requires whole > 0
  {
    part as real / whole as real
  }

  /** The newest job is old enough, and enough of the jobs are done or there are too many status rows. */
  ghost predicate Ripe(d: Dataset, recent: bool, limits: Limits) {
    && !recent && |d.jobs| > 0
    && (Share(|DoneIds(d)|, |d.jobs|) > limits.jobDoneMigrateThres
        || Share(|d.statuses|, |d.jobs|) > limits.jobStatusMigrateThres)
  }

  /** The k-th dataset would be moved together with all before it. */
  ghost predicate Goes(tables: Tables, list: seq<Index>, recent: set<Index>, limits: Limits, k: nat)
    requires Listed(tables, list)
  {
    && k < |list| - 1 && Ripe(tables[list[k]], list[k] in recent, limits)
    && k < limits.maxMigrateOnce && |LiveRows(Flat(tables, list[..k]))| < limits.maxDSSize
  }

  ghost predicate LongestPrefix(tables: Tables, list: seq<Index>, recent: set<Index>, limits: Limits, m: nat)
    requires Listed(tables, list)
  {
    (forall k: nat :: k < m ==> Goes(tables, list, recent, limits, k)) && !Goes(tables, list, recent, limits, m)
  }

  /** There is exactly one such prefix. */
  lemma LongestIsOne(tables: Tables, list: seq<Index>, recent: set<Index>, limits: Limits, m: nat, n: nat)
    requires Listed(tables, list)
    requires LongestPrefix(tables, list, recent, limits, m) && LongestPrefix(tables, list, recent, limits, n)
    ensures m == n
  {
  }

  // ---------- what they leave ----------

  ghost function Moved(tables: Tables, list: seq<Index>, m: nat): map<JobID, Row>
    requires Listed(tables, list) && m <= |list|
  {
    LiveRows(Flat(tables, list[..m]))
  }

  /** The first m datasets are replaced by one new dataset with exactly their unfinished jobs, each with its latest
      status, or by none if there are no such jobs; `extra` new ones, which are empty, come last; all others are as they
      were, and there is nothing else. */
  ghost predicate Leaves(tables: Tables, list: seq<Index>, m: nat, extra: nat, tables': Tables, list': seq<Index>,
          used: set<Index>)
    requires Listed(tables, list)
  {
    && m <= |list|
    && var h := if Moved(tables, list, m) == map[] then 0 else 1;
    && |list'| == h + (|list| - m) + extra && list'[h..|list'| - extra] == list[m..]
    && (forall ds :: ds in tables' <==> ds in list')
    && (forall i :: m <= i < |list| ==> list[i] in tables' && tables'[list[i]] == tables[list[i]])
    && (h == 1 ==> list'[0] !in used && list'[0] in tables' && View(tables'[list'[0]]) == Moved(tables, list, m))
    && (forall i :: |list'| - extra <= i < |list'| ==>
        list'[i] !in used && list'[i] in tables' && tables'[list'[i]] == NO_ROWS)
  }

  /** A round: one empty dataset comes last exactly if the last one had more jobs than it should, and the longest prefix
      that goes is replaced. */
  ghost predicate RoundDone(tables: Tables, list: seq<Index>, recent: set<Index>, limits: Limits, used: set<Index>,
          tables': Tables, list': seq<Index>)
    requires Listed(tables, list) && list != []
  {
    var extra := if |tables[list[|list| - 1]].jobs| > limits.maxDSSize then 1 else 0;
    exists m: nat ::
      LongestPrefix(tables, list, recent, limits, m) && Leaves(tables, list, m, extra, tables', list', used)
  }

  // ---------- counting ----------

  lemma CountIsSize(s: set<JobID>, bound: JobID)
    requires bound >= 1 && forall x :: x in s ==> 1 <= x < bound
    ensures Count(s, bound) == |s|
  {
    var q := InOrder(s, 1, bound);
    InOrderAscends(s, 1, bound);
    forall x ensures x in q <==> x in s {
      if x in s {
        InOrderHas(s, 1, bound, x);
      }
    }
    var m := map x | x in s :: x;
    KeyCount(q, m);
    assert m.Keys == s;
  }

  /** The counts of checkIfMigrateDS are the sizes they stand for. */
  lemma Sizes(d: Dataset, bound: JobID)
    requires bound >= 1 && IdsBelow(d, bound)
    ensures Count(JobIds(d), bound) == |d.jobs| && Count(LiveIds(d), bound) == |LiveIds(d)|
    ensures |d.jobs| - |LiveIds(d)| == |DoneIds(d)|
  {
    CountIsSize(JobIds(d), bound);
    CountIsSize(LiveIds(d), bound);
    assert JobIds(d) == d.jobs.Keys;
    assert JobIds(d) == LiveIds(d) + DoneIds(d) && LiveIds(d) !! DoneIds(d);
  }

  lemma LiveUnion(a: map<JobID, Row>, d: Dataset)
    requires forall id :: id in a ==> id !in d.jobs
    ensures |LiveRows(a + View(d))| == |LiveRows(a)| + |LiveIds(d)|
  {
    var all, some, more := LiveRows(a + View(d)), LiveRows(a), LiveIds(d);
    forall id ensures id in all.Keys <==> id in some.Keys + more {}
    assert all.Keys == some.Keys + more && some.Keys !! more;
  }

  /** One dataset more adds its unfinished jobs to the count. */
  lemma LiveStep(tables: Tables, list: seq<Index>, k: nat)
    requires Listed(tables, list) && IdsAscend(tables, list) && k < |list|
    ensures |Moved(tables, list, k + 1)| == |Moved(tables, list, k)| + |LiveIds(tables[list[k]])|
  {
    hide LiveRows, Flat, View, IdsAscend;
    FlatStep(tables, list, k);
    forall id | id in Flat(tables, list[..k]) ensures id !in tables[list[k]].jobs {
      NotInLater(tables, list, k, id);
    }
    LiveUnion(Flat(tables, list[..k]), tables[list[k]]);
  }

  lemma NothingMoved(tables: Tables, list: seq<Index>)
    requires Listed(tables, list)
    ensures Moved(tables, list, 0) == map[]
  {
    assert list[..0] == [];
  }

  // ---------- the parts of a round together ----------

  /** The loop over the datasets, turn by turn. */
  lemma GoesTurn(tables: Tables, list: seq<Index>, recent: set<Index>, limits: Limits, idx: nat, liveCount: int,
          migrate: bool, bound: JobID)
    requires bound >= 1 && Listed(tables, list) && idx < |list| && IdsBelow(tables[list[idx]], bound)
    requires liveCount == |Moved(tables, list, idx)|
    requires migrate <==> Ripe(tables[list[idx]], list[idx] in recent, limits)
    ensures Goes(tables, list, recent, limits, idx) <==>
      idx < |list| - 1 && migrate && idx < limits.maxMigrateOnce && liveCount < limits.maxDSSize
  {
  }

  lemma LastStays(tables: Tables, list: seq<Index>, recent: set<Index>, limits: Limits)
    requires Listed(tables, list)
    ensures !Goes(tables, list, recent, limits, |list|)
  {
  }

  lemma SamePrefix(tables: Tables, list: seq<Index>, tables': Tables, list': seq<Index>, m: nat)
    requires Listed(tables, list) && Listed(tables', list') && m <= |list| <= |list'|
    requires forall i :: 0 <= i < m ==> list'[i] == list[i] && tables'[list[i]] == tables[list[i]]
    ensures Flat(tables', list'[..m]) == Flat(tables, list[..m])
  {
    if m > 0 {
      SamePrefix(tables, list, tables', list', m - 1);
      FlatStep(tables, list, m - 1);
      FlatStep(tables', list', m - 1);
    } else {
      assert list[..0] == list'[..0] == [];
    }
  }

  lemma SomeMoved(tables: Tables, list: seq<Index>, m: nat)
    requires Listed(tables, list) && IdsAscend(tables, list) && m <= |list|
    ensures SomeLive(tables, list, m) <==> Moved(tables, list, m) != map[]
  {
    hide Flat, IdsAscend;
    PrefixAt(tables, list, m);
    FlatRows(tables, list[..m]);
    if SomeLive(tables, list, m) {
      var i, id :| i < m && At(tables, list, i, id) && IsLive(RowOf(tables[list[i]], id));
      assert At(tables, list[..m], i, id);
      assert id in Moved(tables, list, m);
    }
    if !SomeLive(tables, list, m) {
      forall id ensures id !in Moved(tables, list, m) {
        if id in Flat(tables, list[..m]) {
          var i :| At(tables, list[..m], i, id);
          assert At(tables, list, i, id);
        }
      }
    }
  }

  /** With nothing to move a round leaves everything. */
  lemma NothingLeaves(tables: Tables, list: seq<Index>, nextID: JobID, used: set<Index>)
    requires WellFormed(tables, list, nextID)
    ensures Leaves(tables, list, 0, 0, tables, list, used)
  {
    NothingMoved(tables, list);
    assert list[0..|list|] == list[0..];
  }

  /** The destination holds what moves. */
  lemma GatheredView(d: Dataset, tables: Tables, list: seq<Index>, m: nat)
    requires Listed(tables, list) && m <= |list| && Gathered(d, tables, list, m)
    ensures View(d) == Moved(tables, list, m)
  {
    hide Flat, DatasetOK;
    forall id ensures id in View(d) <==> id in Moved(tables, list, m) {}
  }

  lemma KeptAre(list: seq<Index>, m: nat, ds: Index)
    requires NoRepeats(list) && m <= |list|
    ensures ds in list[m..] <==> ds in list && ds !in list[..m]
  {
  }

  lemma KeptAll(tables: Tables, list: seq<Index>, m: nat, head: seq<Index>, d: Dataset, tables': Tables)
    requires Listed(tables, list) && NoRepeats(list) && m <= |list| && SameNames(tables, list)
    requires head == [] || (|head| == 1 && head[0] !in tables)
    requires tables' == Without(WithHead(tables, head, d), list[..m])
    ensures forall ds :: ds in tables' <==> ds in head + list[m..]
    ensures forall i :: m <= i < |list| ==> list[i] in tables' && tables'[list[i]] == tables[list[i]]
    ensures head != [] ==> head[0] in tables' && tables'[head[0]] == d
  {
    forall ds ensures ds in tables' <==> ds in head + list[m..] {
      KeptAre(list, m, ds);
    }
    forall i | m <= i < |list| ensures list[i] in tables' && tables'[list[i]] == tables[list[i]] {
      assert list[m..][i - m] == list[i];
      KeptAre(list, m, list[i]);
    }
  }

  /** What the sources and the destination come to. */
  lemma MovedLeaves(tables: Tables, list: seq<Index>, nextID: JobID, m: nat, head: seq<Index>, d: Dataset,
          tables': Tables, used: set<Index>)
    requires WellFormed(tables, list, nextID) && 0 < m < |list| && Gathered(d, tables, list, m)
    requires head == [] || (|head| == 1 && head[0] !in tables && head[0] !in used)
    requires head == [] <==> !SomeLive(tables, list, m)
    requires tables' == Without(WithHead(tables, head, d), list[..m])
    ensures Leaves(tables, list, m, 0, tables', head + list[m..], used)
  {
    hide *;
    StoreShape(tables, list, nextID);
    DatasetAt(tables, list, nextID);
    SomeMoved(tables, list, m);
    KeptAll(tables, list, m, head, d, tables');
    GatheredView(d, tables, list, m);
    AllLeaves(tables, list, m, head, d, tables', used);
  }

  lemma AllLeaves(tables: Tables, list: seq<Index>, m: nat, head: seq<Index>, d: Dataset, tables': Tables,
          used: set<Index>)
    requires Listed(tables, list) && m <= |list| && |head| == if Moved(tables, list, m) == map[] then 0 else 1
    requires forall ds :: ds in tables' <==> ds in head + list[m..]
    requires forall i :: m <= i < |list| ==> list[i] in tables' && tables'[list[i]] == tables[list[i]]
    requires head != [] ==>
      head[0] in tables' && tables'[head[0]] == d && head[0] !in used && View(d) == Moved(tables, list, m)
    ensures Leaves(tables, list, m, 0, tables', head + list[m..], used)
  {
    hide Moved, View;
    var list' := head + list[m..];
    assert list'[|head|..|list'| - 0] == list[m..];
  }

  /** A dataset added before the others move is one more that stays. */
  lemma ExtendedLeaves(tables: Tables, list: seq<Index>, m: nat, x: Index, tables1: Tables, tables': Tables,
          list': seq<Index>, used: set<Index>)
    requires Listed(tables, list) && m < |list| && x !in used && x !in tables && tables1 == tables[x := NO_ROWS]
    requires Leaves(tables1, list + [x], m, 0, tables', list', used + {x})
    ensures Leaves(tables, list, m, 1, tables', list', used)
  {
    hide LiveRows, Flat, View;
    SamePrefix(tables, list, tables1, list + [x], m);
    var h := if Moved(tables, list, m) == map[] then 0 else 1;
    AppendedTail(list, x, m, list', h);
    forall i | m <= i < |list| ensures list[i] in tables' && tables'[list[i]] == tables[list[i]] {
      assert (list + [x])[i] == list[i];
    }
    assert (list + [x])[|list|] == x;
  }

  lemma AppendedTail(list: seq<Index>, x: Index, m: nat, list': seq<Index>, h: nat)
    requires m < |list| && |list'| == h + (|list| + 1 - m) && list'[h..|list'|] == (list + [x])[m..]
    ensures list'[h..|list'| - 1] == list[m..] && list'[|list'| - 1] == x
  {
    assert (list + [x])[m..] == list[m..] + [x];
    assert list'[|list'| - 1] == list'[h..|list'|][|list| - m];
    assert list'[h..|list'| - 1] == list'[h..|list'|][..|list| - m];
  }

  lemma ExtendedLongest(tables: Tables, list: seq<Index>, tables1: Tables, recent: set<Index>, limits: Limits, m: nat)
    requires Listed(tables, list) && Listed(tables1, list)
    requires forall i :: 0 <= i < |list| ==> tables1[list[i]] == tables[list[i]]
    requires LongestPrefix(tables1, list, recent, limits, m)
    ensures LongestPrefix(tables, list, recent, limits, m)
  {
    forall k: nat ensures Goes(tables, list, recent, limits, k) <==> Goes(tables1, list, recent, limits, k) {
      if k < |list| {
        SamePrefix(tables, list, tables1, list, k);
      }
    }
  }
}
