/** Reading one dataset after the other until enough jobs are found. */
module Reading {
  import opened Common
  import opened Tables
  import opened Layout

  /** What the query returns for one dataset; a limit of 0 means all. */
  function QueryDS(d: Dataset, f: Filter, customVals: seq<string>, limit: nat, bound: JobID): seq<JobT>
    requires bound >= 1
  {
    var ids := InOrder(Selected(d, f, customVals), 1, bound);
    InOrderAscends(Selected(d, f, customVals), 1, bound);
    Rows(d, if limit == 0 then ids else Limit(ids, limit))
  }

  lemma NoneWanted(s: set<int>)
    ensures FirstN(IdsOf([]), s, 0)
  {
  }

  /** After the first i datasets, `out` is the answer for them alone. */
  ghost predicate ReadSoFar(tables: Tables, list: seq<Index>, i: int, f: Filter, customVals: seq<string>, count: nat,
          out: seq<JobT>)
    requires Listed(tables, list) && 0 <= i <= |list|
  {
    && FirstN(IdsOf(out), SelectedFlat(Flat(tables, list[..i]), f, customVals), count)
    && (forall k :: 0 <= k < |out| ==>
        out[k].id in Flat(tables, list[..i]) && out[k].row == Flat(tables, list[..i])[out[k].id])
  }

  lemma NothingRead(tables: Tables, list: seq<Index>, f: Filter, customVals: seq<string>, count: nat)
    requires Listed(tables, list)
    ensures ReadSoFar(tables, list, 0, f, customVals, count, [])
  {
  }

  /** The selection over one more dataset. */
  lemma SelectOneMore(tables: Tables, list: seq<Index>, i: int, f: Filter, customVals: seq<string>)
    requires Listed(tables, list) && IdsAscend(tables, list) && 0 <= i < |list|
    ensures SelectedFlat(Flat(tables, list[..i + 1]), f, customVals)
      == SelectedFlat(Flat(tables, list[..i]), f, customVals) + Selected(tables[list[i]], f, customVals)
    ensures forall x, y ::
      x in SelectedFlat(Flat(tables, list[..i]), f, customVals) && y in Selected(tables[list[i]], f, customVals) ==>
        x < y
  {
    var d := tables[list[i]];
    FlatStep(tables, list, i);
    forall id | id in Flat(tables, list[..i]) ensures id !in d.jobs && forall b :: b in d.jobs ==> id < b {
      NotInLater(tables, list, i, id);
    }
    forall id ensures id in SelectedFlat(Flat(tables, list[..i + 1]), f, customVals)
      <==> id in SelectedFlat(Flat(tables, list[..i]), f, customVals) + Selected(d, f, customVals) {}
  }

  lemma ReadOneMore(tables: Tables, list: seq<Index>, i: int, f: Filter, customVals: seq<string>, count: nat,
                    out: seq<JobT>, jobs: seq<JobT>, nextID: JobID)
    requires nextID >= 1 && Listed(tables, list) && IdsAscend(tables, list) && 0 <= i < |list|
    requires IdsBelow(tables[list[i]], nextID)
    requires ReadSoFar(tables, list, i, f, customVals, count, out) && |out| < count
    requires jobs == QueryDS(tables[list[i]], f, customVals, count - |out|, nextID)
    ensures ReadSoFar(tables, list, i + 1, f, customVals, count, out + jobs) && |jobs| <= count - |out|
  {
    hide Flat, Selects, FirstN, QueryDS, Selected, IdsAscend, IdsBelow;
    var s, t := SelectedFlat(Flat(tables, list[..i]), f, customVals), Selected(tables[list[i]], f, customVals);
    SelectOneMore(tables, list, i, f, customVals);
    QueryIds(tables[list[i]], f, customVals, count - |out|, nextID);
    FirstNExtends(IdsOf(out), s, IdsOf(jobs), t, count);
    assert IdsOf(out + jobs) == IdsOf(out) + IdsOf(jobs);
    RowsOneMore(tables, list, i, out, jobs);
  }

  /** The answer for one dataset. */
  lemma QueryIds(d: Dataset, f: Filter, customVals: seq<string>, limit: nat, bound: JobID)
    requires bound >= 1 && limit > 0 && IdsBelow(d, bound)
    ensures var jobs := QueryDS(d, f, customVals, limit, bound);
      && FirstN(IdsOf(jobs), Selected(d, f, customVals), limit)
      && forall k :: 0 <= k < |jobs| ==> jobs[k].id in d.jobs && jobs[k].row == RowOf(d, jobs[k].id)
  {
    var t := Selected(d, f, customVals);
    InOrderAscends(t, 1, bound);
    LimitIsFirstN(t, 1, bound, limit);
    assert IdsOf(QueryDS(d, f, customVals, limit, bound)) == Limit(InOrder(t, 1, bound), limit);
  }

  lemma RowsOneMore(tables: Tables, list: seq<Index>, i: int, out: seq<JobT>, jobs: seq<JobT>)
    requires Listed(tables, list) && IdsAscend(tables, list) && 0 <= i < |list|
    requires forall k :: 0 <= k < |out| ==>
      out[k].id in Flat(tables, list[..i]) && out[k].row == Flat(tables, list[..i])[out[k].id]
    requires forall k :: 0 <= k < |jobs| ==>
      jobs[k].id in tables[list[i]].jobs && jobs[k].row == RowOf(tables[list[i]], jobs[k].id)
    ensures var all := out + jobs;
      forall k :: 0 <= k < |all| ==>
        all[k].id in Flat(tables, list[..i + 1]) && all[k].row == Flat(tables, list[..i + 1])[all[k].id]
  {
    FlatStep(tables, list, i);
    forall k | 0 <= k < |out| ensures out[k].id !in tables[list[i]].jobs {
      NotInLater(tables, list, i, out[k].id);
    }
  }

  /** Stopping early loses nothing: what is left over lies behind everything read. */
  lemma ReadAll(tables: Tables, list: seq<Index>, i: int, f: Filter, customVals: seq<string>, count: nat,
          out: seq<JobT>)
    requires Listed(tables, list) && IdsAscend(tables, list) && 0 <= i <= |list|
    requires ReadSoFar(tables, list, i, f, customVals, count, out) && (|out| == count || i == |list|)
    ensures FirstN(IdsOf(out), SelectedFlat(Flat(tables, list), f, customVals), count)
    ensures forall k :: 0 <= k < |out| ==>
      out[k].id in Flat(tables, list) && out[k].row == Flat(tables, list)[out[k].id]
  {
    PrefixRows(tables, list, i);
    if i == |list| {
      assert list[..i] == list;
    } else {
      var q, s := IdsOf(out), SelectedFlat(Flat(tables, list[..i]), f, customVals);
      forall x | x in SelectedFlat(Flat(tables, list), f, customVals) && x !in q
        ensures |q| == count && forall y :: y in q ==> y < x
      {
        if x in Flat(tables, list[..i]) {
          assert x in s;
        }
      }
    }
  }

  lemma {:induction false} NothingInOrder(s: set<int>, lo: int, hi: int)
    requires lo <= hi && forall x :: x !in s
    ensures InOrder(s, lo, hi) == []
    decreases hi - lo
  {
    if lo < hi {
      NothingInOrder(s, lo + 1, hi);
    }
  }

  lemma NothingSelected(d: Dataset, f: Filter, customVals: seq<string>, bound: JobID)
    requires bound >= 1 && IdsBelow(d, bound)
    requires InOrder(Selected(d, f, customVals), 1, bound) == []
    ensures forall id :: id !in Selected(d, f, customVals)
  {
    forall id ensures id !in Selected(d, f, customVals) {
      if id in Selected(d, f, customVals) {
        InOrderHas(Selected(d, f, customVals), 1, bound, id);
      }
    }
  }
}
