/** `groupBy` of the broken-link report: the elements of a list gathered by
    key into an insertion-ordered map. The keys are compared structurally,
    which is what encoding them with `JSON.stringify` achieves for the plain
    records the report uses. */
module Grouping {

  /** An insertion-ordered map: its keys in insertion order, and the group
      held under each. */
  datatype Grouped<K, T> = Grouped(keys: seq<K>, groups: map<K, seq<T>>)

  /** The distinct keys of the elements, in the order they are first seen. */
  function FirstSeen<T, K(==)>(xs: seq<T>, key: T -> K): seq<K>
    decreases |xs|
  {
    if xs == [] then []
    else
      var ks := FirstSeen(xs[..|xs| - 1], key);
      var k := key(xs[|xs| - 1]);
      if k in ks then ks else ks + [k]
  }

  /** The elements with key `k`, in input order. */
  function Filter<T, K(==)>(xs: seq<T>, key: T -> K, k: K): seq<T>
    decreases |xs|
  {
    if xs == [] then []
    else
      var init := Filter(xs[..|xs| - 1], key, k);
      if key(xs[|xs| - 1]) == k then init + [xs[|xs| - 1]] else init
  }

  /** The groups of `ks`, concatenated in that order. */
  function Concat<T, K(==)>(xs: seq<T>, key: T -> K, ks: seq<K>): seq<T> {
    if ks == [] then [] else Filter(xs, key, ks[0]) + Concat(xs, key, ks[1..])
  }

  predicate Distinct<K(==)>(ks: seq<K>) {
    forall i, j | 0 <= i < j < |ks| :: ks[i] != ks[j]
  }

  /** `groupBy`: one pass over the elements; a key seen before gets the
      element pushed onto its group, a new key is set to a one-element group. */
  method GroupBy<T, K(==)>(xs: seq<T>, key: T -> K) returns (g: Grouped<K, T>)
    ensures g.keys == FirstSeen(xs, key)
    ensures forall k :: k in g.groups <==> k in g.keys
    ensures forall k | k in g.groups :: g.groups[k] == Filter(xs, key, k)
  {
    var keys: seq<K> := [];
    var groups: map<K, seq<T>> := map[];
    for i := 0 to |xs|
      invariant keys == FirstSeen(xs[..i], key)
      invariant forall k :: k in groups <==> k in keys
      invariant forall k | k in groups :: groups[k] == Filter(xs[..i], key, k)
    {
      assert xs[..i + 1][..i] == xs[..i];
      var k := key(xs[i]);
      if k in groups {
        groups := groups[k := groups[k] + [xs[i]]];
      } else {
        keys := keys + [k];
        groups := groups[k := [xs[i]]];
        FilterAbsent(xs[..i], key, k);
      }
    }
    assert xs[..|xs|] == xs;
    g := Grouped(keys, groups);
  }

  // ---------------------------------------------------------------------------
  // Properties

  /** An element is in the group of `k` exactly when its key is `k`. */
  lemma {:induction false} FilterExact<T, K>(xs: seq<T>, key: T -> K, k: K, x: T)
    ensures x in Filter(xs, key, k) <==> x in xs && key(x) == k
    decreases |xs|
  {
    if xs != [] {
      var init, last := xs[..|xs| - 1], xs[|xs| - 1];
      FilterExact(init, key, k, x);
      assert x in xs <==> x in init || x == last by {
        assert xs == init + [last];
      }
    }
  }

  /** Every key seen is a key of some element, and every element's key is seen. */
  lemma {:induction false} FirstSeenCovers<T, K>(xs: seq<T>, key: T -> K, k: K)
    ensures k in FirstSeen(xs, key) <==> exists i | 0 <= i < |xs| :: key(xs[i]) == k
    decreases |xs|
  {
    if xs != [] {
      var init := xs[..|xs| - 1];
      FirstSeenCovers(init, key, k);
      if k in FirstSeen(init, key) {
        var i :| 0 <= i < |init| && key(init[i]) == k;
        assert key(xs[i]) == k;
      }
      if exists i | 0 <= i < |xs| :: key(xs[i]) == k {
        var i :| 0 <= i < |xs| && key(xs[i]) == k;
        if i < |init| {
          assert key(init[i]) == k;
        }
      }
    }
  }

  /** A key no element has an empty group. */
  lemma FilterAbsent<T, K>(xs: seq<T>, key: T -> K, k: K)
    requires k !in FirstSeen(xs, key)
    ensures Filter(xs, key, k) == []
  {
    FirstSeenCovers(xs, key, k);
    if Filter(xs, key, k) != [] {
      var x := Filter(xs, key, k)[0];
      FilterExact(xs, key, k, x);
      assert false;
    }
  }

  /** Every key seen has a non-empty group. */
  lemma FilterNonEmpty<T, K>(xs: seq<T>, key: T -> K, k: K)
    requires k in FirstSeen(xs, key)
    ensures Filter(xs, key, k) != []
  {
    FirstSeenCovers(xs, key, k);
    var i :| 0 <= i < |xs| && key(xs[i]) == k;
    FilterExact(xs, key, k, xs[i]);
  }

  /** Each key appears once. */
  lemma {:induction false} FirstSeenDistinct<T, K>(xs: seq<T>, key: T -> K)
    ensures Distinct(FirstSeen(xs, key))
    decreases |xs|
  {
    if xs != [] {
      FirstSeenDistinct(xs[..|xs| - 1], key);
    }
  }

  /** The position of the first element with key `k`. */
  function FirstIndex<T, K(==)>(xs: seq<T>, key: T -> K, k: K): (r: nat)
    requires exists i | 0 <= i < |xs| :: key(xs[i]) == k
    ensures r < |xs| && key(xs[r]) == k
    ensures forall p | 0 <= p < r :: key(xs[p]) != k
  {
    if key(xs[0]) == k then 0
    else
      var i :| 0 <= i < |xs| && key(xs[i]) == k;
      assert key(xs[1..][i - 1]) == k;
      1 + FirstIndex(xs[1..], key, k)
  }

  /** The keys come in the order their first elements come. */
  lemma {:induction false} FirstSeenOrder<T, K>(xs: seq<T>, key: T -> K, i: nat, j: nat)
    requires i < j < |FirstSeen(xs, key)|
    ensures (FirstSeenCovers(xs, key, FirstSeen(xs, key)[i]);
             FirstSeenCovers(xs, key, FirstSeen(xs, key)[j]);
             FirstIndex(xs, key, FirstSeen(xs, key)[i]) < FirstIndex(xs, key, FirstSeen(xs, key)[j]))
    decreases |xs|
  {
    var ks := FirstSeen(xs, key);
    var init := xs[..|xs| - 1];
    var ks0 := FirstSeen(init, key);
    FirstSeenCovers(xs, key, ks[i]);
    FirstSeenCovers(xs, key, ks[j]);
    FirstSeenCovers(init, key, ks[i]);
    FirstSeenCovers(init, key, ks[j]);
    assert ks[i] in ks0;
    FirstIndexInPrefix(xs, key, ks[i]);
    if j < |ks0| {
      FirstIndexInPrefix(xs, key, ks[j]);
      FirstSeenOrder(init, key, i, j);
    } else {
      assert ks[j] !in ks0 by {
        FirstSeenDistinct(xs, key);
      }
      assert FirstIndex(xs, key, ks[j]) == |xs| - 1;
    }
  }

  /** A key already present before the last element is first seen there. */
  lemma FirstIndexInPrefix<T, K>(xs: seq<T>, key: T -> K, k: K)
    requires xs != [] && exists i | 0 <= i < |xs| - 1 :: key(xs[i]) == k
    ensures
      var init := xs[..|xs| - 1];
      && (exists i | 0 <= i < |init| :: key(init[i]) == k)
      && FirstIndex(xs, key, k) == FirstIndex(init, key, k)
  {
    var init := xs[..|xs| - 1];
    var i :| 0 <= i < |xs| - 1 && key(xs[i]) == k;
    assert key(init[i]) == k;
    var a, b := FirstIndex(xs, key, k), FirstIndex(init, key, k);
    assert key(xs[b]) == k;
    assert a <= b;
    assert key(init[a]) == k;
  }

  /** One more element joins the end of its key's group. */
  lemma FilterSnoc<T, K>(xs: seq<T>, x: T, key: T -> K, k: K)
    ensures Filter(xs + [x], key, k) == Filter(xs, key, k) + (if key(x) == k then [x] else [])
  {
    assert (xs + [x])[..|xs + [x]| - 1] == xs;
  }

  /** The groups of a list of distinct keys after one more element: the
      element joins the group of its key, if that key is listed. */
  lemma {:induction false} ConcatSnoc<T, K>(xs: seq<T>, x: T, key: T -> K, ks: seq<K>)
    requires Distinct(ks)
    ensures multiset(Concat(xs + [x], key, ks)) ==
      multiset(Concat(xs, key, ks)) + (if key(x) in ks then multiset{x} else multiset{})
    decreases |ks|
  {
    if ks != [] {
      var rest := ks[1..];
      assert Distinct(rest);
      ConcatSnoc(xs, x, key, rest);
      FilterSnoc(xs, x, key, ks[0]);
      var f, f' := Filter(xs, key, ks[0]), Filter(xs + [x], key, ks[0]);
      var c, c' := Concat(xs, key, rest), Concat(xs + [x], key, rest);
      assert multiset(Concat(xs + [x], key, ks)) == multiset(f') + multiset(c');
      assert multiset(Concat(xs, key, ks)) == multiset(f) + multiset(c);
      if key(x) == ks[0] {
        assert key(x) !in rest;
        assert multiset(f') == multiset(f) + multiset{x};
      } else {
        assert key(x) in ks <==> key(x) in rest;
        assert f' == f;
      }
    }
  }

  lemma {:induction false} ConcatAppend<T, K>(xs: seq<T>, key: T -> K, ks: seq<K>, k: K)
    ensures Concat(xs, key, ks + [k]) == Concat(xs, key, ks) + Filter(xs, key, k)
    decreases |ks|
  {
    if ks == [] {
      assert [k][1..] == [];
    } else {
      assert (ks + [k])[1..] == ks[1..] + [k];
      ConcatAppend(xs, key, ks[1..], k);
    }
  }

  /** The groups, read in key order, hold exactly the input elements, each as
      often as it occurs: no element is lost or put into two groups. */
  lemma {:induction false} GroupsPartition<T, K>(xs: seq<T>, key: T -> K)
    ensures multiset(Concat(xs, key, FirstSeen(xs, key))) == multiset(xs)
    decreases |xs|
  {
    if xs != [] {
      var init, x := xs[..|xs| - 1], xs[|xs| - 1];
      var ks := FirstSeen(init, key);
      assert xs == init + [x];
      GroupsPartition(init, key);
      FirstSeenDistinct(init, key);
      ConcatSnoc(init, x, key, ks);
      if key(x) !in ks {
        ConcatAppend(xs, key, ks, key(x));
        FilterAbsent(init, key, key(x));
      }
    }
  }

  /** Two elements share a group exactly when their keys are equal. */
  lemma SameGroupIffSameKey<T, K>(xs: seq<T>, key: T -> K, x: T, y: T)
    requires x in xs && y in xs
    ensures (exists k | k in FirstSeen(xs, key) :: x in Filter(xs, key, k) && y in Filter(xs, key, k)) <==> key(x) == key(y)
  {
    FilterExact(xs, key, key(x), x);
    FilterExact(xs, key, key(x), y);
    var i :| 0 <= i < |xs| && xs[i] == x;
    FirstSeenCovers(xs, key, key(x));
    forall k | k in FirstSeen(xs, key) && x in Filter(xs, key, k) && y in Filter(xs, key, k)
      ensures key(x) == key(y)
    {
      FilterExact(xs, key, k, x);
      FilterExact(xs, key, k, y);
    }
  }

  lemma {:induction false} ConcatSplit<T, K>(xs: seq<T>, key: T -> K, a: seq<K>, b: seq<K>)
    ensures Concat(xs, key, a + b) == Concat(xs, key, a) + Concat(xs, key, b)
    decreases |a|
  {
    if a == [] {
      assert a + b == b;
    } else {
      assert (a + b)[1..] == a[1..] + b;
      ConcatSplit(xs, key, a[1..], b);
    }
  }

  /** Reading the groups in any order of the same keys gives the same
      elements. */
  lemma {:induction false} ConcatPermutation<T, K>(xs: seq<T>, key: T -> K, a: seq<K>, b: seq<K>)
    requires multiset(a) == multiset(b)
    ensures multiset(Concat(xs, key, a)) == multiset(Concat(xs, key, b))
    decreases |a|
  {
    if a != [] {
      var k := a[0];
      assert k in multiset(b);
      var j :| 0 <= j < |b| && b[j] == k;
      var p, q := b[..j], b[j + 1..];
      RemoveOne(a, b, j);
      ConcatPermutation(xs, key, a[1..], p + q);
      ConcatSplit(xs, key, p, q);
      ConcatSplit(xs, key, p + [k], q);
      ConcatAppend(xs, key, p, k);
      var cp, cq, f := Concat(xs, key, p), Concat(xs, key, q), Filter(xs, key, k);
      assert Concat(xs, key, b) == cp + f + cq;
      assert Concat(xs, key, a) == f + Concat(xs, key, a[1..]);
      assert multiset(Concat(xs, key, a[1..])) == multiset(cp) + multiset(cq);
    }
  }

  /** Taking the first key out of one arrangement and the same key out of the
      other leaves arrangements of the same keys. */
  lemma RemoveOne<K>(a: seq<K>, b: seq<K>, j: nat)
    requires multiset(a) == multiset(b) && a != [] && j < |b| && b[j] == a[0]
    ensures b == b[..j] + [a[0]] + b[j + 1..]
    ensures multiset(a[1..]) == multiset(b[..j] + b[j + 1..])
  {
    var k, p, q := a[0], b[..j], b[j + 1..];
    assert b == p + [k] + q;
    assert a == [k] + a[1..];
    assert multiset(a) == multiset{k} + multiset(a[1..]);
    assert multiset(b) == multiset(p) + multiset{k} + multiset(q);
    assert multiset(p + q) == multiset(p) + multiset(q);
    forall e ensures multiset(a[1..])[e] == multiset(p + q)[e] {
      assert multiset(a)[e] == multiset(b)[e];
    }
  }
}
