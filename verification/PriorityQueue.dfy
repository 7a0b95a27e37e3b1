/** The queue of users by the time of their last event: container/heap over a slice of items that know their slot. */
module PriorityQueue {

  // ---------- heaps of timestamps ----------

  predicate Child(a: int, b: int) {
    b == 2 * a + 1 || b == 2 * a + 2
  }

  /** No item is older than its parent. */
  ghost predicate IsHeap(q: seq<int>) {
    forall a, b :: 0 <= a < b < |q| && Child(a, b) ==> q[a] <= q[b]
  }

  /** The heap order holds wherever slot i is not involved, and would hold if i were passed over. */
  ghost predicate Around(q: seq<int>, i: int) {
    && (forall a, b :: 0 <= a < b < |q| && Child(a, b) && a != i && b != i ==> q[a] <= q[b])
    && (forall p, c :: 0 <= p < i < c < |q| && Child(p, i) && Child(i, c) ==> q[p] <= q[c])
  }

  ghost predicate AboveOK(q: seq<int>, i: int)
    requires 0 <= i < |q|
  {
    forall p :: 0 <= p < i && Child(p, i) ==> q[p] <= q[i]
  }

  ghost predicate BelowOK(q: seq<int>, i: int)
    requires 0 <= i < |q|
  {
    forall c :: i < c < |q| && Child(i, c) ==> q[i] <= q[c]
  }

  ghost function Swapped(q: seq<int>, i: int, j: int): seq<int>
    requires 0 <= i < |q| && 0 <= j < |q|
  {
    q[i := q[j]][j := q[i]]
  }

  lemma SiftUp(q: seq<int>, p: int, j: int)
    requires 0 <= p < j < |q| && Child(p, j) && Around(q, j) && BelowOK(q, j) && q[j] < q[p]
    ensures var r := Swapped(q, p, j); Around(r, p) && BelowOK(r, p)
  {
  }

  lemma SiftDown(q: seq<int>, i: int, j: int)
    requires 0 <= i < j < |q| && Child(i, j) && Around(q, i) && q[j] < q[i]
    requires forall c :: i < c < |q| && Child(i, c) ==> q[j] <= q[c]
    ensures var r := Swapped(q, i, j); Around(r, j) && AboveOK(r, j)
  {
  }

  lemma Settled(q: seq<int>, i: int)
    requires 0 <= i < |q| && Around(q, i) && AboveOK(q, i) && BelowOK(q, i)
    ensures IsHeap(q)
  {
  }

  lemma OneParent(q: seq<int>, i: int, j: int)
    requires 0 <= j < |q| && (j > 0 ==> 0 <= i < j && Child(i, j) && q[i] <= q[j])
    ensures AboveOK(q, j)
  {
  }

  /** The root is never younger than any other. */
  lemma {:induction false} RootIsOldest(q: seq<int>, k: int)
    requires IsHeap(q) && 0 <= k < |q|
    ensures q[0] <= q[k]
    decreases k
  {
    if k > 0 {
      var p := (k - 1) / 2;
      assert Child(p, k);
      RootIsOldest(q, p);
    }
  }

  /** Top reads the last slot: with distinct timestamps that is the oldest user exactly when there is only one. */
  lemma TopIsOldestIff(q: seq<int>)
    requires IsHeap(q) && q != [] && forall i, j :: 0 <= i < j < |q| ==> q[i] != q[j]
    ensures (forall k :: 0 <= k < |q| ==> q[|q| - 1] <= q[k]) <==> |q| == 1
  {
    RootIsOldest(q, |q| - 1);
    assert |q| > 1 ==> q[0] < q[|q| - 1];
  }

  lemma NoChild(q: seq<int>, i: int)
    requires 0 <= i < |q| <= 2 * i + 1
    ensures BelowOK(q, i)
  {
  }

  lemma SmallChild(q: seq<int>, i: int, j: int)
    requires 0 <= i < j < |q| && Child(i, j) && q[i] <= q[j]
    requires forall c :: i < c < |q| && Child(i, c) ==> q[j] <= q[c]
    ensures BelowOK(q, i)
  {
  }

  lemma PrefixIsHeap(q: seq<int>, n: int)
    requires IsHeap(q) && 0 <= n <= |q|
    ensures IsHeap(q[..n])
  {
  }

  lemma AddedAround(q: seq<int>)
    requires q != [] && IsHeap(q[..|q| - 1])
    ensures Around(q, |q| - 1) && BelowOK(q, |q| - 1)
  {
  }

  lemma ChangedAround(q: seq<int>, i: int, x: int)
    requires IsHeap(q) && 0 <= i < |q|
    ensures Around(q[i := x], i)
  {
  }

  // ---------- the queue ----------

  class PQItemT {
    const userID: string
    var lastTS: int
    var index: int

    constructor (userID: string, lastTS: int)
      ensures this.userID == userID && this.lastTS == lastTS && index == -1
    {
      this.userID, this.lastTS, index := userID, lastTS, -1;
    }
  }

  class PQT {
    var items: seq<PQItemT>

    constructor ()
      ensures Valid() && items == []
    {
      items := [];
    }

    /** Every item knows its slot. */
    ghost predicate Slots()
      reads this, items
    {
      forall k :: 0 <= k < |items| ==> items[k].index == k
    }

    /** The timestamps in the first n slots. */
    ghost function Keys(n: int): (q: seq<int>)
      requires 0 <= n <= |items|
      reads this, items
      ensures |q| == n
    {
      seq(n, k requires 0 <= k < n <= |items| reads this, items => items[k].lastTS)
    }

    ghost predicate Valid()
      reads this, items
    {
      Slots() && IsHeap(Keys(|items|))
    }

    predicate Less(i: int, j: int)
      requires 0 <= i < |items| && 0 <= j < |items|
      reads this, items
    {
      items[i].lastTS < items[j].lastTS
    }

    /** `n` is how many slots the caller is looking at. */
    method Swap(i: int, j: int, ghost n: int)
      requires 0 <= i < n <= |items| && 0 <= j < |items| && Slots()
      modifies this`items, items`index
      ensures items == old(items)[i := old(items)[j]][j := old(items)[i]] && Slots()
      ensures j < n ==> Keys(n) == Swapped(old(Keys(n)), i, j)
      ensures j >= n ==> Keys(n) == old(Keys(n))[i := old(items)[j].lastTS]
      ensures multiset(items) == multiset(old(items))
    {
      items := items[i := items[j]][j := items[i]];
      items[i].index := i;
      items[j].index := j;
    }

    static lemma SameItems(a: seq<PQItemT>, b: seq<PQItemT>)
      requires multiset(a) == multiset(b)
      ensures forall x :: x in a <==> x in b
      ensures forall k :: 0 <= k < |a| ==> a[k] in b
    {
      forall x ensures x in a <==> x in b {
        assert x in a <==> x in multiset(a);
      }
    }

    /** container/heap's up. */
    method Up(j0: int, ghost n: int)
      requires 0 <= j0 < n <= |items| && Slots() && Around(Keys(n), j0) && BelowOK(Keys(n), j0)
      modifies this`items, items`index
      ensures Slots() && |items| == old(|items|) && IsHeap(Keys(n)) && items[n..] == old(items)[n..]
      ensures multiset(items) == multiset(old(items))
    {
      hide Around, AboveOK, BelowOK, IsHeap, Swapped;
      var j := j0;
      while true
        invariant 0 <= j < n && |items| == old(|items|) && Slots() && items[n..] == old(items)[n..]
        invariant multiset(items) == multiset(old(items))
        invariant Around(Keys(n), j) && BelowOK(Keys(n), j)
        decreases j
      {
        var i := if j == 0 then 0 else (j - 1) / 2;
        assert j > 0 ==> Child(i, j);
        if i == j || !Less(j, i) {
          OneParent(Keys(n), i, j);
          Settled(Keys(n), j);
          break;
        }
        SiftUp(Keys(n), i, j);
        SameItems(items, old(items));
        Swap(i, j, n);
        j := i;
      }
    }

    /** container/heap's down over the first n items. */
    method Down(i0: int, n: int) returns (moved: bool)
      requires 0 <= i0 < n <= |items| && Slots() && Around(Keys(n), i0)
      modifies this`items, items`index
      ensures Slots() && |items| == old(|items|) && items[n..] == old(items)[n..]
      ensures multiset(items) == multiset(old(items))
      ensures moved ==> IsHeap(Keys(n))
      ensures !moved ==> items == old(items) && BelowOK(Keys(n), i0) && Around(Keys(n), i0)
    {
      hide Around, AboveOK, BelowOK, IsHeap, Swapped;
      var i := i0;
      while true
        invariant i0 <= i < n && |items| == old(|items|) && Slots() && items[n..] == old(items)[n..]
        invariant multiset(items) == multiset(old(items))
        invariant Around(Keys(n), i) && (i > i0 ==> AboveOK(Keys(n), i)) && (i == i0 ==> items == old(items))
        decreases n - i
      {
        var j1 := 2 * i + 1;
        if j1 >= n {
          NoChild(Keys(n), i);
          break;
        }
        var j := j1;
        var j2 := j1 + 1;
        if j2 < n && Less(j2, j1) {
          j := j2;
        }
        if !Less(j, i) {
          SmallChild(Keys(n), i, j);
          break;
        }
        SiftDown(Keys(n), i, j);
        SameItems(items, old(items));
        Swap(i, j, n);
        i := j;
      }
      if i > i0 {
        Settled(Keys(n), i);
      }
      return i > i0;
    }

    /** heap.Push. */
    method Add(item: PQItemT)
      requires Valid() && item !in items
      modifies this`items, items`index, item`index
      ensures Valid() && multiset(items) == multiset(old(items)) + multiset{item}
    {
      Push(item);
      assert Keys(|items|)[..|items| - 1] == old(Keys(|items|));
      AddedAround(Keys(|items|));
      Up(|items| - 1, |items|);
    }

    method Push(item: PQItemT)
      requires Slots() && item !in items
      modifies this`items, item`index
      ensures items == old(items) + [item] && Slots()
    {
      var n := |items|;
      item.index := n;
      items := items + [item];
    }

    /** heap.Fix after the item's timestamp has changed. */
    method Update(item: PQItemT, newTS: int)
      requires Valid() && item in items
      modifies this`items, items`index, item`lastTS
      ensures Valid() && multiset(items) == multiset(old(items)) && item.lastTS == newTS
    {
      ghost var before, i, n := Keys(|items|), item.index, |items|;
      item.lastTS := newTS;
      assert Keys(n) == before[i := newTS];
      ChangedAround(before, i, newTS);
      var moved := Down(item.index, |items|);
      if !moved {
        Up(item.index, n);
      }
    }

    /** heap.Remove: the last item takes the place of the one removed and finds its place among the others; when the
        last one is removed the others stay where they are. */
    method Remove(item: PQItemT)
      requires Valid() && item in items
      modifies this`items, items`index
      ensures Valid() && multiset(items) == multiset(old(items)) - multiset{item} && item.index == -1
      ensures item == old(items)[|old(items)| - 1] ==> items == old(items)[..|old(items)| - 1]
    {
      hide IsHeap;
      var i, n := item.index, |items| - 1;
      if n != i {
        PutLast(i);
      } else {
        PrefixIsHeap(Keys(|items|), n);
        assert Keys(|items|)[..n] == Keys(n);
      }
      SameItems(items, old(items));
      WithoutLast(items);
      var last := Pop();
    }

    static lemma WithoutLast(q: seq<PQItemT>)
      requires q != []
      ensures var n := |q| - 1; multiset(q[..n]) == multiset(q) - multiset{q[n]}
    {
      var n := |q| - 1;
      assert q == q[..n] + [q[n]];
    }

    /** The item in slot i goes to the end, and the others are put in order. */
    method PutLast(i: int)
      requires Valid() && 0 <= i < |items| - 1
      modifies this`items, items`index
      ensures Slots() && |items| == old(|items|) && multiset(items) == multiset(old(items))
      ensures items[|items| - 1] == old(items)[i] && IsHeap(Keys(|items| - 1))
    {
      hide IsHeap, Around, BelowOK, Swapped;
      var n := |items| - 1;
      ghost var before := Keys(n);
      assert Keys(|items|)[..n] == before;
      PrefixIsHeap(Keys(|items|), n);
      Swap(i, n, n);
      ChangedAround(before, i, items[i].lastTS);
      SameItems(items, old(items));
      assert items[n..] == [old(items)[i]];
      var moved := Down(i, n);
      if !moved {
        SameItems(items, old(items));
        Up(i, n);
      }
      assert items[n..][0] == old(items)[i];
    }

    method Pop() returns (item: PQItemT)
      requires Slots() && items != []
      modifies this`items, items`index
      ensures items == old(items)[..|old(items)| - 1] && item == old(items)[|old(items)| - 1] && item.index == -1
      ensures Slots() && Keys(|items|) == old(Keys(|items| - 1))
    {
      var n := |items|;
      item := items[n - 1];
      item.index := -1;
      items := items[..n - 1];
    }

    /** The last slot. */
    method Top() returns (item: PQItemT)
      requires items != []
      ensures item == items[|items| - 1]
    {
      item := items[|items| - 1];
    }
  }
}
