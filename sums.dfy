/** Sums of amounts, whole and grouped by a key. Every aggregate of the
    summary and the dashboard is one of these: a total, the part of the
    total whose key is a given value, and the part whose key is none of a
    list of values. Each sum is taken from the last element back, so that
    extending a prefix by one element adds one term. */
module Sums {

  /** Python's `sum(amounts)`. */
  function Sum(amounts: seq<real>): (r: real)
    ensures (forall i :: 0 <= i < |amounts| ==> amounts[i] >= 0.0) ==> r >= 0.0
  {
    if amounts == [] then 0.0 else Sum(amounts[..|amounts| - 1]) + amounts[|amounts| - 1]
  }

  /** The sum of the amounts whose key equals `k`. */
  function SumWhere<K(==)>(keys: seq<K>, amounts: seq<real>, k: K): (r: real)
    requires |keys| == |amounts|
  {
    if keys == [] then 0.0
    else
      var last := if keys[|keys| - 1] == k then amounts[|amounts| - 1] else 0.0;
      SumWhere(keys[..|keys| - 1], amounts[..|amounts| - 1], k) + last
  }

  /** The sum of the amounts whose key is none of `ks`. */
  function SumOutside<K(==)>(keys: seq<K>, amounts: seq<real>, ks: seq<K>): (r: real)
    requires |keys| == |amounts|
  {
    if keys == [] then 0.0
    else
      var last := if keys[|keys| - 1] in ks then 0.0 else amounts[|amounts| - 1];
      SumOutside(keys[..|keys| - 1], amounts[..|amounts| - 1], ks) + last
  }

  /** The group sums for the keys `ks`, added up. */
  function GroupTotal<K(==)>(keys: seq<K>, amounts: seq<real>, ks: seq<K>): (r: real)
    requires |keys| == |amounts|
  {
    if ks == [] then 0.0
    else GroupTotal(keys, amounts, ks[..|ks| - 1]) + SumWhere(keys, amounts, ks[|ks| - 1])
  }

  predicate Distinct<K(==)>(s: seq<K>) {
    forall i, j :: 0 <= i < j < |s| ==> s[i] != s[j]
  }

  /** The sum of two lists of amounts joined is the sum of the sums. */
  lemma {:induction false} SumAppend(a: seq<real>, b: seq<real>)
    ensures Sum(a + b) == Sum(a) + Sum(b)
    decreases |b|
  {
    if b == [] {
      assert a + b == a;
    } else {
      var init := b[..|b| - 1];
      assert (a + b)[..|a + b| - 1] == a + init;
      assert (a + b)[|a + b| - 1] == b[|b| - 1];
      SumAppend(a, init);
    }
  }

  /** Appending one keyed amount adds it to its own key's group only. */
  lemma SumWhereSnoc<K>(keys: seq<K>, amounts: seq<real>, k: K, a: real, key: K)
    requires |keys| == |amounts|
    ensures SumWhere(keys + [k], amounts + [a], key) == SumWhere(keys, amounts, key) + (if k == key then a else 0.0)
  {
    assert (keys + [k])[..|keys|] == keys && (amounts + [a])[..|amounts|] == amounts;
  }

  /** A key that never occurs has an empty group. */
  lemma {:induction false} SumWhereAbsent<K>(keys: seq<K>, amounts: seq<real>, k: K)
    requires |keys| == |amounts| && k !in keys
    ensures SumWhere(keys, amounts, k) == 0.0
  {
    if keys != [] {
      assert k !in keys[..|keys| - 1];
      SumWhereAbsent(keys[..|keys| - 1], amounts[..|amounts| - 1], k);
    }
  }

  /** Excluding no key leaves the whole sum. */
  lemma {:induction false} SumOutsideNothing<K>(keys: seq<K>, amounts: seq<real>)
    requires |keys| == |amounts|
    ensures SumOutside(keys, amounts, []) == Sum(amounts)
  {
    if keys != [] {
      SumOutsideNothing(keys[..|keys| - 1], amounts[..|amounts| - 1]);
    }
  }

  /** Excluding every key that occurs leaves nothing. */
  lemma {:induction false} SumOutsideCovered<K>(keys: seq<K>, amounts: seq<real>, ks: seq<K>)
    requires |keys| == |amounts|
    requires forall i :: 0 <= i < |keys| ==> keys[i] in ks
    ensures SumOutside(keys, amounts, ks) == 0.0
  {
    if keys != [] {
      SumOutsideCovered(keys[..|keys| - 1], amounts[..|amounts| - 1], ks);
    }
  }

  /** Excluding one more key moves that key's group out of the remainder. */
  lemma {:induction false} SumOutsideSplit<K>(keys: seq<K>, amounts: seq<real>, ks: seq<K>, k: K)
    requires |keys| == |amounts| && k !in ks
    ensures SumOutside(keys, amounts, ks) == SumWhere(keys, amounts, k) + SumOutside(keys, amounts, ks + [k])
  {
    if keys != [] {
      SumOutsideSplit(keys[..|keys| - 1], amounts[..|amounts| - 1], ks, k);
    }
  }

  /** Conservation: for distinct keys `ks`, their groups plus everything outside
      them add up to the whole sum. */
  lemma {:induction false} Partition<K>(keys: seq<K>, amounts: seq<real>, ks: seq<K>)
    requires |keys| == |amounts| && Distinct(ks)
    ensures GroupTotal(keys, amounts, ks) + SumOutside(keys, amounts, ks) == Sum(amounts)
  {
    if ks == [] {
      SumOutsideNothing(keys, amounts);
    } else {
      var init, k := ks[..|ks| - 1], ks[|ks| - 1];
      assert Distinct(init);
      assert init + [k] == ks;
      Partition(keys, amounts, init);
      SumOutsideSplit(keys, amounts, init, k);
    }
  }
}
