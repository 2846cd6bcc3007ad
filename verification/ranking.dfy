/** The ranking step of the career matcher: Python's
    `list.sort(key=..., reverse=True)`, which orders by descending key and,
    being stable, keeps elements with equal keys in their original order.
    The result is described by the order in which the original positions
    appear. */
module Ranking {

  /** Position `a` comes before position `b`: a higher key, or an equal key
      and an earlier position. */
  predicate Precedes(keys: seq<real>, a: nat, b: nat)
    requires a < |keys| && b < |keys|
  {
    keys[a] > keys[b] || (keys[a] == keys[b] && a < b)
  }

  /** Every element of `order` is a position of `keys`, and consecutive
      choices respect `Precedes`. */
  predicate SortedByPrecedes(keys: seq<real>, order: seq<nat>) {
    && (forall i :: 0 <= i < |order| ==> order[i] < |keys|)
    && (forall i, j :: 0 <= i < j < |order| ==> Precedes(keys, order[i], order[j]))
  }

  /** `order` lists every position of `keys` exactly once, by descending key,
      equal keys in ascending position: what a stable descending sort does. */
  predicate IsStableDescOrder(keys: seq<real>, order: seq<nat>) {
    && |order| == |keys|
    && SortedByPrecedes(keys, order)
    && (forall k :: 0 <= k < |keys| ==> k in order)
  }

  /** The elements of `xs` in the order `order` gives. */
  function Permute<T>(xs: seq<T>, order: seq<nat>): (r: seq<T>)
    requires forall i :: 0 <= i < |order| ==> order[i] < |xs|
    ensures |r| == |order|
    ensures forall i :: 0 <= i < |order| ==> r[i] == xs[order[i]]
  {
    seq(|order|, i requires 0 <= i < |order| => xs[order[i]])
  }

  /** Stable descending sort by insertion: position `k` is placed after every
      earlier position whose key is at least its own. */
  method StableSortDesc(keys: seq<real>) returns (order: seq<nat>)
    ensures IsStableDescOrder(keys, order)
  {
    order := [];
    var k := 0;
    while k < |keys|
      invariant 0 <= k <= |keys|
      invariant |order| == k
      invariant forall i :: 0 <= i < k ==> order[i] < k
      invariant forall m :: 0 <= m < k ==> m in order
      invariant SortedByPrecedes(keys, order)
    {
      var p := 0;
      while p < |order| && keys[order[p]] >= keys[k]
        invariant 0 <= p <= |order|
        invariant forall i :: 0 <= i < p ==> keys[order[i]] >= keys[k]
      {
        p := p + 1;
      }
      assert forall i :: p <= i < |order| ==> keys[order[i]] < keys[k] by {
        forall i | p <= i < |order| ensures keys[order[i]] < keys[k] {
          if i > p {
            assert Precedes(keys, order[p], order[i]);
          }
        }
      }
      var next := order[..p] + [k] + order[p..];
      assert forall i :: 0 <= i < p ==> next[i] == order[i];
      assert next[p] == k;
      assert forall i :: p < i <= |order| ==> next[i] == order[i - 1];
      forall m | 0 <= m < k ensures m in next {
        assert m in order;
        var i :| 0 <= i < |order| && order[i] == m;
        if i < p {
          assert next[i] == m;
        } else {
          assert next[i + 1] == m;
        }
      }
      forall i, j | 0 <= i < j < |next|
        ensures Precedes(keys, next[i], next[j])
      {
        if j < p {
        } else if j == p {
        } else if i < p {
          assert Precedes(keys, order[i], order[j - 1]);
        } else if i == p {
        } else {
          assert Precedes(keys, order[i - 1], order[j - 1]);
        }
      }
      order := next;
      k := k + 1;
    }
  }

  lemma PrecedesAsymmetric(keys: seq<real>, a: nat, b: nat)
    requires a < |keys| && b < |keys|
    ensures !(Precedes(keys, a, b) && Precedes(keys, b, a))
  {
  }

  /** Two lists sorted by `Precedes` that hold the same positions are equal. */
  lemma {:induction false} SortedSameElementsEqual(keys: seq<real>, o1: seq<nat>, o2: seq<nat>)
    requires SortedByPrecedes(keys, o1) && SortedByPrecedes(keys, o2)
    requires |o1| == |o2| && forall x :: x in o1 <==> x in o2
    ensures o1 == o2
    decreases |o1|
  {
    if o1 == [] {
    } else {
      assert o1[0] in o2;
      var a, b := o1[0], o2[0];
      if a != b {
        assert b in o1;
        var i :| 0 <= i < |o1| && o1[i] == b;
        var j :| 0 <= j < |o2| && o2[j] == a;
        assert Precedes(keys, a, b) && Precedes(keys, b, a);
        PrecedesAsymmetric(keys, a, b);
      }
      forall x ensures x in o1[1..] <==> x in o2[1..] {
        if x in o1[1..] {
          var i :| 1 <= i < |o1| && o1[i] == x;
          assert Precedes(keys, o1[0], o1[i]);
          assert x in o2;
          var j :| 0 <= j < |o2| && o2[j] == x;
          assert j != 0;
          assert x == o2[1..][j - 1];
        }
        if x in o2[1..] {
          var j :| 1 <= j < |o2| && o2[j] == x;
          assert Precedes(keys, o2[0], o2[j]);
          assert x in o1;
          var i :| 0 <= i < |o1| && o1[i] == x;
          assert i != 0;
          assert x == o1[1..][i - 1];
        }
      }
      SortedSameElementsEqual(keys, o1[1..], o2[1..]);
    }
  }

  /** The stable descending order of a key list is unique: any two stable
      sorts of the same keys agree, so ranking is deterministic. */
  lemma StableDescOrderUnique(keys: seq<real>, o1: seq<nat>, o2: seq<nat>)
    requires IsStableDescOrder(keys, o1) && IsStableDescOrder(keys, o2)
    ensures o1 == o2
  {
    SortedSameElementsEqual(keys, o1, o2);
  }

  /** The first `k` positions of a stable descending order are the `k`
      largest: no position left out has a larger key than any kept one. */
  lemma StableDescOrderKeepsLargest(keys: seq<real>, order: seq<nat>, k: nat, m: nat)
    requires IsStableDescOrder(keys, order)
    requires 0 < k <= |order| && m < |keys|
    requires forall i :: 0 <= i < k ==> order[i] != m
    ensures forall i :: 0 <= i < k ==> keys[m] <= keys[order[i]]
  {
    assert m in order;
    var j :| 0 <= j < |order| && order[j] == m;
    forall i | 0 <= i < k ensures keys[m] <= keys[order[i]] {
      assert Precedes(keys, order[i], order[j]);
    }
  }
}
