/** Go channels kept in a map (a missing entry reads as the empty queue), and ranging over maps. */
module Tables {

  function Queue<V>(m: map<int, seq<V>>, k: int): seq<V> {
    if k in m then m[k] else []
  }

  function Push<V>(m: map<int, seq<V>>, k: int, vs: seq<V>): map<int, seq<V>> {
    m[k := Queue(m, k) + vs]
  }

  function Members<T>(s: seq<T>): set<T> {
    set x | x in s
  }

  /** order lists every key of the map once: an order in which the map may be ranged over. */
  ghost predicate IsOrder<V>(order: seq<int>, m: map<int, V>) {
    && (forall k :: k in order <==> k in m)
    && (forall a, b :: 0 <= a < b < |order| ==> order[a] != order[b])
  }

  lemma OrderKeys<V>(order: seq<int>, m: map<int, V>)
    requires IsOrder(order, m)
    ensures forall a :: 0 <= a < |order| ==> order[a] in m
  {
    forall a | 0 <= a < |order| ensures order[a] in m {
      assert order[a] in order;
    }
  }

  lemma {:induction false} OrderSize<V>(order: seq<int>, m: map<int, V>)
    requires IsOrder(order, m)
    ensures |order| == |m|
  {
    if order == [] {
      assert forall k :: k !in m;
      assert m == map[];
    } else {
      var rest := m - {order[0]};
      OrderKeys(order, m);
      forall k ensures k in order[1..] <==> k in rest {
        if k in rest {
          assert k in order;
        }
      }
      OrderSize(order[1..], rest);
      assert m.Keys == rest.Keys + {order[0]};
      assert |m| == |m.Keys| && |rest| == |rest.Keys|;
    }
  }

  /** Every map can be ranged over. */
  lemma {:induction false} SomeOrder<V>(m: map<int, V>) returns (order: seq<int>)
    ensures IsOrder(order, m)
    decreases |m|
  {
    assert (forall k :: k !in m) ==> m == map[];
    if m == map[] {
      order := [];
    } else {
      var k :| k in m;
      var rest := m - {k};
      assert m.Keys == rest.Keys + {k};
      assert |rest| == |rest.Keys| && |m| == |m.Keys|;
      var before := SomeOrder(rest);
      order := before + [k];
      OrderKeys(before, rest);
    }
  }
}
