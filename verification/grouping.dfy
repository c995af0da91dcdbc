/** Grouping a list by a key, as `defaultdict(list)` does, and totals over groups. */
module Grouping {

  /** The items of one group, in their original order. */
  function Members<K(==), V>(items: seq<V>, key: V -> K, k: K): seq<V> {
    if items == [] then []
    else
      var n := |items| - 1;
      Members(items[..n], key, k) + if key(items[n]) == k then [items[n]] else []
  }

  /** `order` lists the keys once each, and `groups` holds every group whole. */
  ghost predicate Grouped<K(!new), V>(items: seq<V>, key: V -> K, order: seq<K>, groups: map<K, seq<V>>) {
    && (forall i, j | 0 <= i < j < |order| :: order[i] != order[j])
    && (forall k :: k in order <==> k in groups)
    && (forall k :: k in groups <==> Members(items, key, k) != [])
    && (forall k | k in groups :: groups[k] == Members(items, key, k))
  }

  /** One pass that appends each item to its group; keys stay in order of first use. */
  method GroupBy<K(==, !new), V>(items: seq<V>, key: V -> K) returns (order: seq<K>, groups: map<K, seq<V>>)
    ensures Grouped(items, key, order, groups)
  {
    order, groups := [], map[];
    for i := 0 to |items|
      invariant Grouped(items[..i], key, order, groups)
    {
      var k := key(items[i]);
      assert items[..i + 1][..i] == items[..i];
      if k !in groups {
        order := order + [k];
        groups := groups[k := []];
      }
      groups := groups[k := groups[k] + [items[i]]];
    }
    assert items[..|items|] == items;
  }

  function Total<V>(items: seq<V>, f: V -> real): real {
    if items == [] then 0.0 else var n := |items| - 1; Total(items[..n], f) + f(items[n])
  }

  lemma {:induction false} TotalSplit<V>(a: seq<V>, v: V, f: V -> real)
    ensures Total(a + [v], f) == Total(a, f) + f(v)
  {
    assert (a + [v])[..|a|] == a;
  }

  /** Sum of the group totals, over a list of keys. */
  function GroupTotals<K(==), V>(order: seq<K>, items: seq<V>, key: V -> K, f: V -> real): real {
    if order == [] then 0.0
    else var n := |order| - 1; GroupTotals(order[..n], items, key, f) + Total(Members(items, key, order[n]), f)
  }

  lemma {:induction false} MembersAdd<K, V>(items: seq<V>, v: V, key: V -> K, k: K, f: V -> real)
    ensures Members(items + [v], key, k) == Members(items, key, k) + if key(v) == k then [v] else []
    ensures Total(Members(items + [v], key, k), f)
         == Total(Members(items, key, k), f) + if key(v) == k then f(v) else 0.0
  {
    assert (items + [v])[..|items|] == items;
    TotalSplit(Members(items, key, k), v, f);
    assert Members(items, key, k) + [] == Members(items, key, k);
  }

  lemma {:induction false} GroupTotalsAdd<K, V>(order: seq<K>, items: seq<V>, v: V, key: V -> K, f: V -> real)
    requires forall i, j | 0 <= i < j < |order| :: order[i] != order[j]
    ensures GroupTotals(order, items + [v], key, f)
         == GroupTotals(order, items, key, f) + if key(v) in order then f(v) else 0.0
  {
    if order != [] {
      var n := |order| - 1;
      GroupTotalsAdd(order[..n], items, v, key, f);
      MembersAdd(items, v, key, order[n], f);
      assert order == order[..n] + [order[n]];
    }
  }

  lemma {:induction false} EmptyGroups<K, V>(order: seq<K>, key: V -> K, f: V -> real)
    ensures GroupTotals(order, [], key, f) == 0.0
  {
    if order != [] { EmptyGroups(order[..|order| - 1], key, f); }
  }

  /** Whatever is summed per item, the groups together hold exactly the whole. */
  lemma {:induction false} GroupsConserve<K, V>(order: seq<K>, items: seq<V>, key: V -> K, f: V -> real)
    requires forall i, j | 0 <= i < j < |order| :: order[i] != order[j]
    requires forall v | v in items :: key(v) in order
    ensures GroupTotals(order, items, key, f) == Total(items, f)
  {
    if items == [] {
      EmptyGroups(order, key, f);
    } else {
      var n := |items| - 1;
      GroupsConserve(order, items[..n], key, f);
      GroupTotalsAdd(order, items[..n], items[n], key, f);
      assert items == items[..n] + [items[n]];
    }
  }

  lemma {:induction false} ItemHasMembers<K, V>(items: seq<V>, key: V -> K, v: V)
    requires v in items
    ensures v in Members(items, key, key(v))
  {
    var n := |items| - 1;
    if v != items[n] {
      assert items == items[..n] + [items[n]];
      ItemHasMembers(items[..n], key, v);
    }
  }

  /** The strata that `GroupBy` returns share out every per-item total. */
  lemma {:induction false} StrataConserve<K(!new), V>(
      items: seq<V>, key: V -> K, order: seq<K>, groups: map<K, seq<V>>, f: V -> real)
    requires Grouped(items, key, order, groups)
    ensures GroupTotals(order, items, key, f) == Total(items, f)
  {
    forall v | v in items ensures key(v) in order { ItemHasMembers(items, key, v); }
    GroupsConserve(order, items, key, f);
  }
}
