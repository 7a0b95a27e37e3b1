/** Vocabulary shared by the models of the store, the router and the processor. */
module Common {

  datatype Option<+T> = None | Some(value: T)

  /** Looks a key up in a Go map, with the comma-ok form. */
  function Get<K, V>(m: map<K, V>, k: K): Option<V> {
    if k in m then Some(m[k]) else None
  }

  ghost predicate Ascending(q: seq<int>) {
    forall i, j :: 0 <= i < j < |q| ==> q[i] < q[j]
  }

  /** The result of `SELECT ... ORDER BY job_id LIMIT n` over the rows whose ids are in `s`:
      ascending, at most n of them, and whatever is missing is larger than everything returned
      and is missing only because the limit was reached. */
  ghost predicate FirstN(q: seq<int>, s: set<int>, n: nat) {
    && Ascending(q)
    && |q| <= n
    && (forall x :: x in q ==> x in s)
    && (forall x :: x in s && x !in q ==> |q| == n && forall y :: y in q ==> y < x)
  }

  /** A map has as many entries as any list of its keys, each named once. */
  lemma {:induction false} KeyCount<K, V>(keys: seq<K>, m: map<K, V>)
    requires (forall i, j :: 0 <= i < j < |keys| ==> keys[i] != keys[j]) && forall k :: k in keys <==> k in m
    ensures |keys| == |m|
    decreases |keys|
  {
    if keys == [] {
      forall k ensures k !in m.Keys {}
      assert m.Keys == {};
    } else {
      var rest, x := keys[1..], keys[0];
      assert keys == [x] + rest;
      var m' := m - {x};
      forall i, j | 0 <= i < j < |rest| ensures rest[i] != rest[j] {
        assert keys[i + 1] != keys[j + 1];
      }
      forall i | 0 <= i < |rest| ensures rest[i] != x {
        assert keys[i + 1] != keys[0];
      }
      forall k ensures k in rest <==> k in m' {
        assert k in keys <==> k == x || k in rest;
      }
      KeyCount(rest, m');
      assert x in keys;
      assert m.Keys == m'.Keys + {x};
    }
  }
}
