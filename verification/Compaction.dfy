/** One round of migration seen as a whole: the first m datasets are replaced by one that holds what was
    live in them, or by none. */
module Compaction {
  import opened Tables
  import opened Layout
  import opened Migration

  /** d holds exactly the live rows of the first m datasets. */
  ghost predicate Gathered(d: Dataset, tables: Tables, list: seq<Index>, m: int)
    requires Listed(tables, list) && 0 <= m <= |list|
  {
    var live := LiveRows(Flat(tables, list[..m]));
    && DatasetOK(d)
    && (forall id :: id in d.jobs <==> id in live)
    && (forall id :: id in d.jobs ==> RowOf(d, id) == live[id])
  }

  lemma GatherStep(d: Dataset, tables: Tables, list: seq<Index>, m: int, ids: seq<JobID>)
    requires Listed(tables, list) && IdsAscend(tables, list) && 0 <= m < |list| && DatasetOK(tables[list[m]])
    requires Gathered(d, tables, list, m) && RetryIds(tables[list[m]], ids)
    ensures Apart(tables[list[m]], d)
    ensures Gathered(CopyStatuses(tables[list[m]], CopyJobs(tables[list[m]], d), ids), tables, list, m + 1)
  {
    var src := tables[list[m]];
    var before, after := LiveRows(Flat(tables, list[..m])), LiveRows(Flat(tables, list[..m + 1]));
    FlatStep(tables, list, m);
    forall id | id in Flat(tables, list[..m]) ensures id !in src.jobs {
      NotInLater(tables, list, m, id);
    }
    MigratedRows(src, d, ids);
    MigratedOK(src, d, ids);
  }

  /** Whether anything in the first m datasets is live. */
  ghost predicate SomeLive(tables: Tables, list: seq<Index>, m: int) {
    exists i, id :: i < m && At(tables, list, i, id) && IsLive(RowOf(tables[list[i]], id))
  }

  ghost predicate Replaced(tables: Tables, list: seq<Index>, m: int, head: seq<Index>, d: Dataset, tables': Tables,
          list': seq<Index>)
    requires Listed(tables, list) && Consecutive(list) && 0 < m < |list|
  {
    && list' == head + list[m..]
    && (forall ds :: ds in tables' <==> ds in list')
    && (forall i :: m <= i < |list| && list[i] in tables' ==> tables'[list[i]] == tables[list[i]])
    && (head == [] || (head == [NextIndex(false, list[m - 1])] && head[0] in tables' && tables'[head[0]] == d))
  }

  lemma ShapeAfter(tables: Tables, list: seq<Index>, nextID: JobID, m: int, head: seq<Index>)
    requires WellFormed(tables, list, nextID) && 0 < m < |list|
    requires head == [] || head == [NextIndex(false, list[m - 1])]
    ensures Consecutive(head + list[m..])
  {
    hide IdsAscend, DatasetOK, IdsBelow;
    var l := head + list[m..];
    forall i | 1 <= i < |l| ensures l[i] == [l[0][0] + i] {
      if head == [] {
        assert l[i] == list[m + i] && l[0] == list[m];
      } else {
        assert l[i] == list[m + i - 1];
      }
    }
    assert l[|l| - 1] == list[|list| - 1];
  }

  /** Where a job is after the round. */
  lemma AtAfter(tables: Tables, list: seq<Index>, m: int, head: seq<Index>, d: Dataset, tables': Tables,
          list': seq<Index>, i: int, id: JobID)
    requires Listed(tables, list) && Consecutive(list) && 0 < m < |list|
    requires Replaced(tables, list, m, head, d, tables', list') && At(tables', list', i, id)
    ensures i < |head| ==> i == 0 && id in d.jobs && tables'[list'[i]] == d
    ensures i >= |head| ==> At(tables, list, m + i - |head|, id) && tables'[list'[i]] == tables[list[m + i - |head|]]
  {
  }

  lemma IdsAfter(tables: Tables, list: seq<Index>, nextID: JobID, m: int, head: seq<Index>, d: Dataset,
          tables': Tables, list': seq<Index>)
    requires WellFormed(tables, list, nextID) && 0 < m < |list|
    requires Gathered(d, tables, list, m) && Replaced(tables, list, m, head, d, tables', list')
    ensures IdsAscend(tables', list')
  {
    PrefixAt(tables, list, m);
    FlatRows(tables, list[..m]);
    forall i, j, a, b | i < j && At(tables', list', i, a) && At(tables', list', j, b) ensures a < b {
      AtAfter(tables, list, m, head, d, tables', list', i, a);
      AtAfter(tables, list, m, head, d, tables', list', j, b);
      if i < |head| {
        var k :| At(tables, list[..m], k, a);
        assert At(tables, list, k, a);
      }
    }
  }

  /** The rows after the round: those of the later datasets, and the live ones of the first m. */
  ghost function RowsAfter(tables: Tables, list: seq<Index>, m: int): map<JobID, Row>
    requires Listed(tables, list) && 0 <= m <= |list|
  {
    map id | id in Flat(tables, list) && (id !in Flat(tables, list[..m]) || IsLive(Flat(tables, list)[id])) ::
      Flat(tables, list)[id]
  }

  lemma RowsAfterLive(tables: Tables, list: seq<Index>, m: int)
    requires Listed(tables, list) && 0 <= m <= |list|
    ensures LiveRows(RowsAfter(tables, list, m)) == LiveRows(Flat(tables, list))
  {
  }

  /** One job's row, in the whole table and in that of the first m datasets. */
  lemma RowAt(tables: Tables, list: seq<Index>, m: int, k: int, id: JobID)
    requires Listed(tables, list) && IdsAscend(tables, list) && 0 <= m <= |list| && At(tables, list, k, id)
    ensures id in Flat(tables, list) && Flat(tables, list)[id] == RowOf(tables[list[k]], id)
    ensures id in Flat(tables, list[..m]) <==> k < m
    ensures k < m ==> Flat(tables, list[..m])[id] == RowOf(tables[list[k]], id)
  {
    FlatRows(tables, list);
    PrefixAt(tables, list, m);
    FlatRows(tables, list[..m]);
    if k < m {
      assert At(tables, list[..m], k, id);
    } else {
      forall j ensures !At(tables, list[..m], j, id) {
        assert At(tables, list[..m], j, id) <==> j < m && At(tables, list, j, id);
      }
      assert !InSome(tables, list[..m], id);
    }
  }

  lemma GatheredAt(d: Dataset, tables: Tables, list: seq<Index>, m: int, id: JobID) returns (k: int)
    requires Listed(tables, list) && IdsAscend(tables, list) && 0 <= m <= |list| && Gathered(d, tables, list, m)
    requires id in d.jobs
    ensures k < m && At(tables, list, k, id) && IsLive(RowOf(tables[list[k]], id))
    ensures RowOf(d, id) == RowOf(tables[list[k]], id)
  {
    PrefixAt(tables, list, m);
    FlatRows(tables, list[..m]);
    assert id in LiveRows(Flat(tables, list[..m]));
    k :| At(tables, list[..m], k, id);
    assert At(tables, list, k, id);
    RowAt(tables, list, m, k, id);
  }

  lemma RowAfter(tables: Tables, list: seq<Index>, nextID: JobID, m: int, head: seq<Index>, d: Dataset,
          tables': Tables, list': seq<Index>,
                 i: int, id: JobID)
    requires WellFormed(tables, list, nextID) && 0 < m < |list|
    requires Gathered(d, tables, list, m) && Replaced(tables, list, m, head, d, tables', list')
    requires At(tables', list', i, id)
    ensures var rows := RowsAfter(tables, list, m); id in rows && rows[id] == RowOf(tables'[list'[i]], id)
  {
    AtAfter(tables, list, m, head, d, tables', list', i, id);
    if i < |head| {
      var k := GatheredAt(d, tables, list, m, id);
      RowAt(tables, list, m, k, id);
    } else {
      RowAt(tables, list, m, m + i - |head|, id);
    }
  }

  lemma InTail(tables: Tables, list: seq<Index>, m: int, head: seq<Index>, d: Dataset, tables': Tables,
          list': seq<Index>, k: int, id: JobID)
    requires Listed(tables, list) && Consecutive(list) && 0 < m < |list|
    requires Replaced(tables, list, m, head, d, tables', list')
    requires m <= k && At(tables, list, k, id)
    ensures At(tables', list', |head| + k - m, id)
  {
  }

  lemma ReachedAfter(tables: Tables, list: seq<Index>, m: int, head: seq<Index>, d: Dataset, tables': Tables,
          list': seq<Index>,
                     k: int, id: JobID)
    requires Listed(tables, list) && IdsAscend(tables, list) && Consecutive(list) && 0 < m < |list|
    requires Gathered(d, tables, list, m) && Replaced(tables, list, m, head, d, tables', list')
    requires head == [] ==> !SomeLive(tables, list, m)
    requires id in RowsAfter(tables, list, m) && At(tables, list, k, id)
    ensures InSome(tables', list', id)
  {
    if k >= m {
      InTail(tables, list, m, head, d, tables', list', k, id);
    } else {
      RowAt(tables, list, m, k, id);
      assert SomeLive(tables, list, m);
      InHead(tables, list, m, head, d, tables', list', k, id);
    }
  }

  lemma InHead(tables: Tables, list: seq<Index>, m: int, head: seq<Index>, d: Dataset, tables': Tables,
          list': seq<Index>, k: int, id: JobID)
    requires Listed(tables, list) && IdsAscend(tables, list) && Consecutive(list) && 0 < m < |list|
    requires Gathered(d, tables, list, m) && Replaced(tables, list, m, head, d, tables', list') && head != []
    requires k < m && At(tables, list, k, id) && IsLive(RowOf(tables[list[k]], id))
    ensures At(tables', list', 0, id)
  {
    RowAt(tables, list, m, k, id);
    assert id in LiveRows(Flat(tables, list[..m]));
  }

  lemma FlatAfter(tables: Tables, list: seq<Index>, nextID: JobID, m: int, head: seq<Index>, d: Dataset,
          tables': Tables, list': seq<Index>)
    requires WellFormed(tables, list, nextID) && 0 < m < |list|
    requires Gathered(d, tables, list, m) && Replaced(tables, list, m, head, d, tables', list')
    requires head == [] ==> !SomeLive(tables, list, m)
    requires Listed(tables', list') && IdsAscend(tables', list')
    ensures Flat(tables', list') == RowsAfter(tables, list, m)
  {
    var rows := RowsAfter(tables, list, m);
    forall i, id | At(tables', list', i, id) ensures id in rows && rows[id] == RowOf(tables'[list'[i]], id) {
      RowAfter(tables, list, nextID, m, head, d, tables', list', i, id);
    }
    forall id | id in rows ensures InSome(tables', list', id) {
      FlatRows(tables, list);
      assert InSome(tables, list, id);
      var k :| At(tables, list, k, id);
      ReachedAfter(tables, list, m, head, d, tables', list', k, id);
    }
    FlatEquals(tables', list', rows);
  }

  lemma WellFormedAfter(tables: Tables, list: seq<Index>, nextID: JobID, m: int, head: seq<Index>, d: Dataset,
          tables': Tables, list': seq<Index>)
    requires WellFormed(tables, list, nextID) && 0 < m < |list|
    requires Gathered(d, tables, list, m) && Replaced(tables, list, m, head, d, tables', list')
    requires head == [] || d.jobs != map[]
    ensures WellFormed(tables', list', nextID)
  {
    hide Flat, LiveRows, IdsAscend, Consecutive, DatasetOK, IdsBelow;
    ShapeAfter(tables, list, nextID, m, head);
    IdsAfter(tables, list, nextID, m, head, d, tables', list');
    forall i | |head| <= i < |list'| ensures list'[i] == list[m + i - |head|] {}
    forall ds | ds in tables' ensures DatasetOK(tables'[ds]) && IdsBelow(tables'[ds], nextID) {
      var i :| 0 <= i < |list'| && list'[i] == ds;
      if i < |head| {
        GatheredBelow(tables, list, nextID, m, d);
      }
    }
  }

  lemma GatheredBelow(tables: Tables, list: seq<Index>, nextID: JobID, m: int, d: Dataset)
    requires WellFormed(tables, list, nextID) && 0 <= m <= |list| && Gathered(d, tables, list, m)
    ensures IdsBelow(d, nextID)
  {
    PrefixAt(tables, list, m);
    FlatRows(tables, list[..m]);
    forall id | id in d.jobs ensures 1 <= id < nextID {
      assert id in Flat(tables, list[..m]);
      var k :| At(tables, list[..m], k, id);
      assert At(tables, list, k, id);
    }
  }

  lemma SomeGathered(tables: Tables, list: seq<Index>, m: int, d: Dataset)
    requires Listed(tables, list) && IdsAscend(tables, list) && 0 <= m <= |list| && Gathered(d, tables, list, m)
    requires SomeLive(tables, list, m)
    ensures d.jobs != map[]
  {
    PrefixAt(tables, list, m);
    FlatRows(tables, list[..m]);
    var i, id :| i < m && At(tables, list, i, id) && IsLive(RowOf(tables[list[i]], id));
    assert At(tables, list[..m], i, id);
    assert id in d.jobs;
  }

  /** A round of migration keeps the store well formed and every unfinished job as it is, and brings back none. */
  lemma RoundKeeps(tables: Tables, list: seq<Index>, nextID: JobID, m: int, head: seq<Index>, d: Dataset,
          tables': Tables, list': seq<Index>)
    requires WellFormed(tables, list, nextID) && 0 < m < |list|
    requires Gathered(d, tables, list, m) && Replaced(tables, list, m, head, d, tables', list')
    requires head == [] <==> !SomeLive(tables, list, m)
    ensures WellFormed(tables', list', nextID)
    ensures LiveRows(Flat(tables', list')) == LiveRows(Flat(tables, list))
    ensures forall id :: id in Flat(tables', list') ==>
      id in Flat(tables, list) && Flat(tables', list')[id] == Flat(tables, list)[id]
  {
    if head != [] {
      SomeGathered(tables, list, m, d);
    }
    WellFormedAfter(tables, list, nextID, m, head, d, tables', list');
    FlatAfter(tables, list, nextID, m, head, d, tables', list');
    RowsAfterLive(tables, list, m);
  }
}
