/** How dataset indices are ordered and what a list of datasets looks like between operations. */
module Layout {
  import opened Tables

  datatype Range = Range(minJobID: JobID, maxJobID: JobID, ds: Index)

  // ---------- the order of indices ----------

  /** Component by component; a proper prefix comes first. */
  predicate Before(a: Index, b: Index) {
    if b == [] then false
    else if a == [] then true
    else if a[0] == b[0] then Before(a[1..], b[1..])
    else a[0] < b[0]
  }

  lemma {:induction false} BeforeTransitive(a: Index, b: Index, c: Index)
    requires Before(a, b) && Before(b, c)
    ensures Before(a, c)
    decreases |a|
  {
    if a != [] && a[0] == b[0] == c[0] {
      BeforeTransitive(a[1..], b[1..], c[1..]);
    }
  }

  lemma {:induction false} BeforeIrreflexive(a: Index)
    ensures !Before(a, a)
  {
    if a != [] {
      BeforeIrreflexive(a[1..]);
    }
  }

  lemma {:induction false} BeforeTotal(a: Index, b: Index)
    ensures !(Before(a, b) && Before(b, a))
    ensures a == b || Before(a, b) || Before(b, a)
  {
    if a != [] && b != [] {
      BeforeTotal(a[1..], b[1..]);
      if a[0] == b[0] && a[1..] == b[1..] {
        assert a == [a[0]] + a[1..] && b == [b[0]] + b[1..];
      }
    }
  }

  ghost predicate SortedIndices(list: seq<Index>) {
    forall i, j :: 0 <= i < j < |list| ==> Before(list[i], list[j])
  }

  lemma SortedDistinct(list: seq<Index>)
    requires SortedIndices(list)
    ensures forall i, j :: 0 <= i < j < |list| ==> list[i] != list[j]
  {
    forall i, j | 0 <= i < j < |list| ensures list[i] != list[j] {
      BeforeIrreflexive(list[i]);
    }
  }

  /** There is only one way to sort. */
  lemma {:induction false} SortedUnique(a: seq<Index>, b: seq<Index>)
    requires SortedIndices(a) && SortedIndices(b) && forall x :: x in a <==> x in b
    ensures a == b
    decreases |a|
  {
    if a == [] {
      assert forall i :: 0 <= i < |b| ==> b[i] in a;
    } else {
      assert a[0] in a && a[0] in b;
      assert b != [] && b[0] in b && b[0] in a;
      SameHead(a, b);
      forall x ensures x in a[1..] <==> x in b[1..] {
        TailMembers(a, x);
        TailMembers(b, x);
      }
      SortedUnique(a[1..], b[1..]);
      assert a == [a[0]] + a[1..] && b == [b[0]] + b[1..];
    }
  }

  lemma AtOrAfterHead(a: seq<Index>, x: Index)
    requires SortedIndices(a) && x in a
    ensures a != [] && (x == a[0] || Before(a[0], x))
  {
  }

  lemma SameHead(a: seq<Index>, b: seq<Index>)
    requires SortedIndices(a) && SortedIndices(b) && a != [] && b != [] && a[0] in b && b[0] in a
    ensures a[0] == b[0]
  {
    AtOrAfterHead(a, b[0]);
    AtOrAfterHead(b, a[0]);
    BeforeTotal(a[0], b[0]);
  }

  lemma TailMembers(a: seq<Index>, x: Index)
    requires SortedIndices(a) && a != []
    ensures x in a[1..] <==> x in a && x != a[0]
  {
    BeforeIrreflexive(a[0]);
    if x in a[1..] {
      var i :| 0 <= i < |a[1..]| && a[1..][i] == x;
      assert a[i + 1] == x;
    }
    if x in a && x != a[0] {
      var i :| 0 <= i < |a| && a[i] == x;
      assert a[1..][i - 1] == x;
    }
  }

  // ---------- the shape of the list ----------

  /** A head k or k_j, then k+1, k+2, ...; the last one is a plain number. */
  ghost predicate Consecutive(list: seq<Index>) {
    && list != [] && 1 <= |list[0]| <= 2 && |list[|list| - 1]| == 1
    && forall i :: 1 <= i < |list| ==> list[i] == [list[0][0] + i]
  }

  lemma ConsecutiveSorted(list: seq<Index>)
    requires Consecutive(list)
    ensures SortedIndices(list)
  {
  }

  // ---------- a well-formed store ----------

  ghost predicate SameNames(tables: Tables, list: seq<Index>) {
    (forall ds :: ds in tables ==> ds in list) && Listed(tables, list)
  }

  ghost predicate IdsBelow(d: Dataset, nextID: int) {
    forall id :: id in d.jobs ==> 1 <= id < nextID
  }

  ghost predicate WellFormed(tables: Tables, list: seq<Index>, nextID: int) {
    && nextID >= 1 && Consecutive(list) && SameNames(tables, list) && IdsAscend(tables, list)
    && (forall i :: 0 <= i < |list| - 1 ==> tables[list[i]].jobs != map[])
    && (forall ds :: ds in tables ==> DatasetOK(tables[ds]) && IdsBelow(tables[ds], nextID))
  }

  ghost predicate RangeOf(r: Range, ds: Index, d: Dataset) {
    && r.ds == ds && r.minJobID in d.jobs && r.maxJobID in d.jobs
    && forall id :: id in d.jobs ==> r.minJobID <= id <= r.maxJobID
  }

  /** Ranges are kept for all datasets but the last. */
  ghost predicate RangesOf(ranges: seq<Range>, tables: Tables, list: seq<Index>)
    requires Listed(tables, list)
  {
    |ranges| == |list| - 1 && forall i :: 0 <= i < |ranges| ==> RangeOf(ranges[i], list[i], tables[list[i]])
  }

  // ---------- adding a dataset ----------

  /** The index addNewDS gives to a dataset put after `ds`. */
  function NextIndex(appendLast: bool, ds: Index): Index
    requires 1 <= |ds| <= 2
  {
    if appendLast then [ds[0] + 1]
    else if |ds| == 1 then [ds[0], 1]
    else [ds[0], ds[1] + 1]
  }

  /** The new index comes right after its predecessor, so it is new in the list and sorts into place. */
  lemma NextIndexBetween(list: seq<Index>, i: int)
    requires Consecutive(list) && 0 <= i < |list|
    ensures var x := NextIndex(false, list[i]); Before(list[i], x) && (i + 1 < |list| ==> Before(x, list[i + 1]))
    ensures i == |list| - 1 ==> Before(list[i], NextIndex(true, list[i]))
  {
  }

  /** sort.Slice with the comparison of sortDnumList. */
  function InsertName(q: seq<Index>, x: Index): seq<Index> {
    if q == [] then [x]
    else if Before(x, q[0]) then [x] + q
    else [q[0]] + InsertName(q[1..], x)
  }

  function SortNames(q: seq<Index>): seq<Index> {
    if q == [] then [] else InsertName(SortNames(q[1..]), q[0])
  }

  lemma {:induction false} InsertNameMembers(q: seq<Index>, x: Index)
    ensures forall y :: y in InsertName(q, x) <==> y == x || y in q
  {
    if q != [] && !Before(x, q[0]) {
      InsertNameMembers(q[1..], x);
      assert q == [q[0]] + q[1..];
    }
  }

  lemma {:induction false} InsertNameSorts(q: seq<Index>, x: Index)
    requires SortedIndices(q) && x !in q
    ensures SortedIndices(InsertName(q, x))
  {
    if q != [] {
      BeforeTotal(x, q[0]);
      assert q[0] in q;
      if Before(x, q[0]) {
        forall i | 1 <= i < |q| ensures Before(x, q[i]) {
          BeforeTransitive(x, q[0], q[i]);
        }
      } else {
        var rest := InsertName(q[1..], x);
        assert q == [q[0]] + q[1..];
        InsertNameSorts(q[1..], x);
        InsertNameMembers(q[1..], x);
        forall i | 0 <= i < |rest| ensures Before(q[0], rest[i]) {
          assert rest[i] in rest;
        }
      }
    }
  }

  ghost predicate NoRepeats(q: seq<Index>) {
    forall i, j :: 0 <= i < j < |q| ==> q[i] != q[j]
  }

  lemma {:induction false} SortNamesSorts(q: seq<Index>)
    requires NoRepeats(q)
    ensures SortedIndices(SortNames(q)) && forall x :: x in SortNames(q) <==> x in q
  {
    if q != [] {
      var rest := q[1..];
      forall i, j | 0 <= i < j < |rest| ensures rest[i] != rest[j] {
        assert q[i + 1] != q[j + 1];
      }
      SortNamesSorts(rest);
      forall i | 0 <= i < |rest| ensures rest[i] != q[0] {
        assert q[i + 1] != q[0];
      }
      InsertNameSorts(SortNames(rest), q[0]);
      InsertNameMembers(SortNames(rest), q[0]);
      assert q == [q[0]] + rest;
    }
  }

  /** Sorting the names of a well-formed store, in whatever order they come, gives its list. */
  lemma NamesSortToList(names: seq<Index>, tables: Tables, list: seq<Index>)
    requires Consecutive(list) && SameNames(tables, list)
    requires forall ds :: ds in tables <==> ds in names
    requires NoRepeats(names)
    ensures SortNames(names) == list
  {
    SortNamesSorts(names);
    ConsecutiveSorted(list);
    SortedUnique(SortNames(names), list);
  }

  /** A dataset that has come and gone, or is listed now. */
  ghost predicate Seen(list: seq<Index>, ds: Index)
    requires list != []
  {
    ds in list || Before(ds, list[0])
  }

  /** An index made for a place in the list has never been used before. */
  lemma NextIndexFresh(list: seq<Index>, i: int, appendLast: bool, ds: Index)
    requires Consecutive(list) && 0 <= i < |list| && (appendLast ==> i == |list| - 1) && Seen(list, ds)
    ensures NextIndex(appendLast, list[i]) != ds
  {
    var x := NextIndex(appendLast, list[i]);
    NextIndexBetween(list, i);
    ConsecutiveSorted(list);
    BeforeIrreflexive(x);
    if ds in list {
      var j :| 0 <= j < |list| && list[j] == ds;
      BeforeTotal(x, ds);
      if j < i {
        BeforeTransitive(list[j], list[i], x);
      } else if j > i + 1 {
        BeforeTransitive(x, list[i + 1], list[j]);
      }
    } else {
      if i > 0 {
        BeforeTransitive(ds, list[0], list[i]);
      }
      BeforeTransitive(ds, list[i], x);
      BeforeIrreflexive(ds);
    }
  }
}
