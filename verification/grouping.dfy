/**
 * The `$group` stage with a `$sum` accumulator, as the reporting queries use
 * it: the input is a sequence of (key, amount) pairs, one per document reaching
 * the stage, and the output holds one group per distinct key with the sum of
 * that key's amounts. Groups come out in the order their keys first appear.
 */
module Grouping {

  /** One output document of the stage: the group key and the summed amount. */
  datatype Group<K> = Group(key: K, total: int)

  /** Sum of all amounts reaching the stage. */
  function Total<K>(items: seq<(K, int)>): int {
    if items == [] then 0 else Total(items[..|items| - 1]) + items[|items| - 1].1
  }

  /** Sum of the amounts whose key is `k`. */
  function SumOf<K(==,!new)>(items: seq<(K, int)>, k: K): int {
    if items == [] then 0
    else SumOf(items[..|items| - 1], k) + (if items[|items| - 1].0 == k then items[|items| - 1].1 else 0)
  }

  /** The keys that occur in the input. */
  function ItemKeys<K(==,!new)>(items: seq<(K, int)>): set<K> {
    set p | p in items :: p.0
  }

  /** Sum of the group totals. */
  function GroupsTotal<K>(gs: seq<Group<K>>): int {
    if gs == [] then 0 else gs[0].total + GroupsTotal(gs[1..])
  }

  /** Sum of the totals of the groups with key `k`. */
  function KeyTotal<K(==,!new)>(gs: seq<Group<K>>, k: K): int {
    if gs == [] then 0 else (if gs[0].key == k then gs[0].total else 0) + KeyTotal(gs[1..], k)
  }

  /** The keys of the groups. */
  function Keys<K(==,!new)>(gs: seq<Group<K>>): set<K> {
    if gs == [] then {} else {gs[0].key} + Keys(gs[1..])
  }

  /** No key has two groups. */
  predicate DistinctKeys<K(==,!new)>(gs: seq<Group<K>>) {
    gs == [] || (gs[0].key !in Keys(gs[1..]) && DistinctKeys(gs[1..]))
  }

  lemma {:induction false} KeysAre<K(!new)>(gs: seq<Group<K>>)
    ensures forall g :: g in gs ==> g.key in Keys(gs)
    ensures forall x :: x in Keys(gs) ==> exists i :: 0 <= i < |gs| && gs[i].key == x
  {
    if gs != [] {
      KeysAre(gs[1..]);
      forall x | x in Keys(gs) ensures exists i :: 0 <= i < |gs| && gs[i].key == x {
        if x != gs[0].key {
          var i :| 0 <= i < |gs[1..]| && gs[1..][i].key == x;
          assert gs[i + 1].key == x;
        }
      }
      forall g | g in gs ensures g.key in Keys(gs) {
        if g != gs[0] { assert g in gs[1..]; }
      }
    }
  }

  /** Distinct keys, stated position by position. */
  lemma {:induction false} DistinctKeysAt<K(!new)>(gs: seq<Group<K>>)
    requires DistinctKeys(gs)
    ensures forall i, j :: 0 <= i < j < |gs| ==> gs[i].key != gs[j].key
  {
    if gs != [] {
      DistinctKeysAt(gs[1..]);
      KeysAre(gs[1..]);
      forall i, j | 0 <= i < j < |gs| ensures gs[i].key != gs[j].key {
        if i == 0 { assert gs[1..][j - 1] == gs[j]; }
        else { assert gs[1..][i - 1] == gs[i] && gs[1..][j - 1] == gs[j]; }
      }
    }
  }

  /** Adds amount `a` under key `k`: to the existing group of `k`, or as a new last group. */
  function Accumulate<K(==,!new)>(gs: seq<Group<K>>, k: K, a: int): (r: seq<Group<K>>)
    ensures Keys(r) == Keys(gs) + {k}
    ensures DistinctKeys(gs) ==> DistinctKeys(r)
    ensures GroupsTotal(r) == GroupsTotal(gs) + a
    ensures forall x :: KeyTotal(r, x) == KeyTotal(gs, x) + (if x == k then a else 0)
  {
    if gs == [] then [Group(k, a)]
    else if gs[0].key == k then
      var r := [Group(k, gs[0].total + a)] + gs[1..];
      assert r[1..] == gs[1..];
      r
    else
      var r := [gs[0]] + Accumulate(gs[1..], k, a);
      assert r[1..] == Accumulate(gs[1..], k, a);
      r
  }

  /** The whole `$group` stage, folding the input from left to right. */
  function GroupSum<K(==,!new)>(items: seq<(K, int)>): (gs: seq<Group<K>>)
    ensures DistinctKeys(gs)
    ensures Keys(gs) == ItemKeys(items)
    ensures forall x :: KeyTotal(gs, x) == SumOf(items, x)
    ensures GroupsTotal(gs) == Total(items)
  {
    if items == [] then []
    else
      var n := |items| - 1;
      assert items == items[..n] + [items[n]];
      assert ItemKeys(items) == ItemKeys(items[..n]) + {items[n].0};
      Accumulate(GroupSum(items[..n]), items[n].0, items[n].1)
  }

  /** With distinct keys, the total of a key's only group is the key's total. */
  lemma {:induction false} KeyTotalOfMember<K(!new)>(gs: seq<Group<K>>, g: Group<K>)
    requires DistinctKeys(gs) && g in gs
    ensures KeyTotal(gs, g.key) == g.total
  {
    if gs[0] == g {
      KeyTotalAbsent(gs[1..], g.key);
    } else {
      assert g in gs[1..];
      KeysAre(gs[1..]);
      KeyTotalOfMember(gs[1..], g);
    }
  }

  /** A key without a group totals zero. */
  lemma {:induction false} KeyTotalAbsent<K(!new)>(gs: seq<Group<K>>, k: K)
    requires k !in Keys(gs)
    ensures KeyTotal(gs, k) == 0
  {
    if gs != [] {
      KeyTotalAbsent(gs[1..], k);
    }
  }

  /** Every output group holds the sum of the amounts of its key. */
  lemma GroupTotalIsSum<K(!new)>(items: seq<(K, int)>, g: Group<K>)
    requires g in GroupSum(items)
    ensures g.total == SumOf(items, g.key)
    ensures g.key in ItemKeys(items)
  {
    var gs := GroupSum(items);
    KeyTotalOfMember(gs, g);
    assert KeyTotal(gs, g.key) == SumOf(items, g.key);
    KeysAre(gs);
  }

  /** A key that never occurs sums to zero. */
  lemma {:induction false} SumOfAbsent<K(!new)>(items: seq<(K, int)>, k: K)
    requires k !in ItemKeys(items)
    ensures SumOf(items, k) == 0
  {
    if items != [] {
      var n := |items| - 1;
      assert items[n] in items;
      assert ItemKeys(items[..n]) <= ItemKeys(items) by {
        forall x | x in ItemKeys(items[..n]) ensures x in ItemKeys(items) {
          var p :| p in items[..n] && p.0 == x;
          var m :| 0 <= m < n && items[..n][m] == p;
          assert items[m] == p;
        }
      }
      SumOfAbsent(items[..n], k);
    }
  }

  /** `Total` over a concatenation. */
  lemma {:induction false} TotalAppend<K>(a: seq<(K, int)>, b: seq<(K, int)>)
    ensures Total(a + b) == Total(a) + Total(b)
  {
    if b != [] {
      var n := |b| - 1;
      assert (a + b)[..|a + b| - 1] == a + b[..n];
      TotalAppend(a, b[..n]);
    } else {
      assert a + b == a;
    }
  }

  /** `SumOf` over a concatenation. */
  lemma {:induction false} SumOfAppend<K(!new)>(a: seq<(K, int)>, b: seq<(K, int)>, k: K)
    ensures SumOf(a + b, k) == SumOf(a, k) + SumOf(b, k)
  {
    if b != [] {
      var n := |b| - 1;
      assert (a + b)[..|a + b| - 1] == a + b[..n];
      SumOfAppend(a, b[..n], k);
    } else {
      assert a + b == a;
    }
  }
}
