/** Grouping amounts by a text key, as the handlers do with a `dict` or a
    `defaultdict(float)` and `+=`, and sorting the groups by key, as
    `sorted(d.items())` does. A dictionary is modelled as its items in
    insertion order: a sequence of buckets with distinct keys. */
module Grouping {
  import opened Text
  import opened Sums

  datatype Bucket = Bucket(key: string, amount: real)

  function KeysOf(b: seq<Bucket>): (keys: seq<string>) {
    seq(|b|, i requires 0 <= i < |b| => b[i].key)
  }

  /** The buckets' amounts, added up. */
  function Total(b: seq<Bucket>): (t: real) {
    if b == [] then 0.0 else Total(b[..|b| - 1]) + b[|b| - 1].amount
  }

  /** `b` holds exactly one bucket per key occurring in `keys`, and each
      bucket's amount is the sum of the amounts carrying its key. */
  ghost predicate IsGroupingOf(b: seq<Bucket>, keys: seq<string>, amounts: seq<real>)
    requires |keys| == |amounts|
  {
    && Distinct(KeysOf(b))
    && (forall k :: k in KeysOf(b) <==> k in keys)
    && (forall i :: 0 <= i < |b| ==> b[i].amount == SumWhere(keys, amounts, b[i].key))
  }

  /** Keys strictly ascending in Python's string order. */
  predicate Ascending(b: seq<Bucket>) {
    forall i, j :: 0 <= i < j < |b| ==> LexLess(b[i].key, b[j].key)
  }

  /** `sorted(d.items())` of a grouping: the same buckets, by ascending key. */
  ghost predicate IsTrendOf(t: seq<Bucket>, keys: seq<string>, amounts: seq<real>)
    requires |keys| == |amounts|
  {
    IsGroupingOf(t, keys, amounts) && Ascending(t)
  }

  lemma {:induction false} TotalIsGroupTotal(b: seq<Bucket>, keys: seq<string>, amounts: seq<real>)
    requires |keys| == |amounts|
    requires forall i :: 0 <= i < |b| ==> b[i].amount == SumWhere(keys, amounts, b[i].key)
    ensures Total(b) == GroupTotal(keys, amounts, KeysOf(b))
  {
    if b != [] {
      var init := b[..|b| - 1];
      assert KeysOf(init) == KeysOf(b)[..|b| - 1];
      TotalIsGroupTotal(init, keys, amounts);
    }
  }

  /** Conservation: the amounts of a grouping add up to the sum of all the
      amounts grouped, whatever the order of the buckets. */
  lemma GroupingConserves(b: seq<Bucket>, keys: seq<string>, amounts: seq<real>)
    requires |keys| == |amounts|
    requires IsGroupingOf(b, keys, amounts)
    ensures Total(b) == Sum(amounts)
  {
    TotalIsGroupTotal(b, keys, amounts);
    Partition(keys, amounts, KeysOf(b));
    assert forall i :: 0 <= i < |keys| ==> keys[i] in KeysOf(b);
    SumOutsideCovered(keys, amounts, KeysOf(b));
  }

  /** Adding an amount to the bucket already open for its key. */
  lemma AddToBucket(b: seq<Bucket>, keys: seq<string>, amounts: seq<real>, j: nat, a: real)
    requires |keys| == |amounts| && IsGroupingOf(b, keys, amounts) && j < |b|
    ensures IsGroupingOf(b[j := Bucket(b[j].key, b[j].amount + a)], keys + [b[j].key], amounts + [a])
  {
    var k := b[j].key;
    var b' := b[j := Bucket(k, b[j].amount + a)];
    assert KeysOf(b') == KeysOf(b);
    assert k in keys by {
      assert KeysOf(b)[j] == k;
    }
    forall i | 0 <= i < |b'|
      ensures b'[i].amount == SumWhere(keys + [k], amounts + [a], b'[i].key)
    {
      SumWhereSnoc(keys, amounts, k, a, b'[i].key);
      if i != j {
        assert KeysOf(b)[i] != KeysOf(b)[j];
      }
    }
  }

  /** Opening a bucket at the end for a key not seen before. */
  lemma OpenBucket(b: seq<Bucket>, keys: seq<string>, amounts: seq<real>, k: string, a: real)
    requires |keys| == |amounts| && IsGroupingOf(b, keys, amounts) && k !in KeysOf(b)
    ensures IsGroupingOf(b + [Bucket(k, a)], keys + [k], amounts + [a])
  {
    var b' := b + [Bucket(k, a)];
    assert KeysOf(b') == KeysOf(b) + [k];
    SumWhereAbsent(keys, amounts, k);
    forall i | 0 <= i < |b'|
      ensures b'[i].amount == SumWhere(keys + [k], amounts + [a], b'[i].key)
    {
      SumWhereSnoc(keys, amounts, k, a, b'[i].key);
      if i < |b| {
        assert KeysOf(b)[i] == b[i].key;
      }
    }
  }

  /** The `d[k] = d.get(k, 0) + amount` (or `defaultdict` `+=`) loop: one pass
      over the keyed amounts, adding each to its key's bucket and opening a
      bucket at the end for a key not seen before. */
  method Accumulate(keys: seq<string>, amounts: seq<real>) returns (b: seq<Bucket>)
    requires |keys| == |amounts|
    ensures IsGroupingOf(b, keys, amounts)
  {
    b := [];
    var i := 0;
    while i < |keys|
      invariant 0 <= i <= |keys|
      invariant IsGroupingOf(b, keys[..i], amounts[..i])
    {
      var k, a := keys[i], amounts[i];
      assert keys[..i + 1] == keys[..i] + [k] && amounts[..i + 1] == amounts[..i] + [a];
      var j := 0;
      while j < |b| && b[j].key != k
        invariant 0 <= j <= |b|
        invariant forall m :: 0 <= m < j ==> b[m].key != k
      {
        j := j + 1;
      }
      if j < |b| {
        AddToBucket(b, keys[..i], amounts[..i], j, a);
        b := b[j := Bucket(k, b[j].amount + a)];
      } else {
        OpenBucket(b, keys[..i], amounts[..i], k, a);
        b := b + [Bucket(k, a)];
      }
      i := i + 1;
    }
    assert keys[..i] == keys && amounts[..i] == amounts;
  }

  /** Putting `x` at position `k` of an ascending list keeps it ascending
      when every key before `k` is smaller than `x`'s and every key from `k`
      on is greater. */
  lemma InsertAscending(s: seq<Bucket>, k: nat, x: Bucket)
    requires Ascending(s) && k <= |s|
    requires forall m :: 0 <= m < k ==> LexLess(s[m].key, x.key)
    requires forall m :: k <= m < |s| ==> LexLess(x.key, s[m].key)
    ensures Ascending(s[..k] + [x] + s[k..])
  {
    var s' := s[..k] + [x] + s[k..];
    assert forall p :: 0 <= p < |s'| ==> s'[p] == if p < k then s[p] else if p == k then x else s[p - 1];
  }

  /** Where `x` goes in an ascending list whose keys all differ from its own:
      after every smaller key and before every greater one. */
  method InsertionPoint(s: seq<Bucket>, x: Bucket) returns (k: nat)
    requires Ascending(s)
    requires forall m :: 0 <= m < |s| ==> s[m].key != x.key
    ensures k <= |s|
    ensures forall m :: 0 <= m < k ==> LexLess(s[m].key, x.key)
    ensures forall m :: k <= m < |s| ==> LexLess(x.key, s[m].key)
  {
    k := 0;
    while k < |s| && LexLess(s[k].key, x.key)
      invariant 0 <= k <= |s|
      invariant forall m :: 0 <= m < k ==> LexLess(s[m].key, x.key)
    {
      k := k + 1;
    }
    if k < |s| {
      LexTotal(s[k].key, x.key);
      forall m | k < m < |s|
        ensures LexLess(x.key, s[m].key)
      {
        LexTransitive(x.key, s[k].key, s[m].key);
      }
    }
  }

  /** Sorting by key, by insertion: each bucket goes in front of the first
      placed bucket whose key is greater. */
  method SortByKey(b: seq<Bucket>) returns (s: seq<Bucket>)
    requires Distinct(KeysOf(b))
    ensures Ascending(s)
    ensures multiset(s) == multiset(b)
  {
    s := [];
    var i := 0;
    while i < |b|
      invariant 0 <= i <= |b|
      invariant Ascending(s)
      invariant multiset(s) == multiset(b[..i])
    {
      var x := b[i];
      forall m | 0 <= m < |s|
        ensures s[m].key != x.key
      {
        assert s[m] in multiset(b[..i]);
        var p :| 0 <= p < i && b[p] == s[m];
        assert KeysOf(b)[p] != KeysOf(b)[i];
      }
      var k := InsertionPoint(s, x);
      InsertAscending(s, k, x);
      assert s[..k] + s[k..] == s;
      assert b[..i + 1] == b[..i] + [x];
      s := s[..k] + [x] + s[k..];
      i := i + 1;
    }
    assert b[..i] == b;
  }

  /** Sorted buckets with distinct keys carry a grouping over unchanged. */
  lemma SortedGrouping(b: seq<Bucket>, s: seq<Bucket>, keys: seq<string>, amounts: seq<real>)
    requires |keys| == |amounts|
    requires IsGroupingOf(b, keys, amounts)
    requires Ascending(s) && multiset(s) == multiset(b)
    ensures IsTrendOf(s, keys, amounts)
  {
    forall i, j | 0 <= i < j < |s|
      ensures KeysOf(s)[i] != KeysOf(s)[j]
    {
      if s[i].key == s[j].key {
        LexIrreflexive(s[i].key);
      }
    }
    forall i | 0 <= i < |s|
      ensures s[i].key in KeysOf(b) && s[i].amount == SumWhere(keys, amounts, s[i].key)
    {
      assert s[i] in multiset(b);
      var p :| 0 <= p < |b| && b[p] == s[i];
      assert KeysOf(b)[p] == s[i].key;
    }
    forall k | k in KeysOf(b)
      ensures k in KeysOf(s)
    {
      var p :| 0 <= p < |b| && b[p].key == k;
      assert b[p] in multiset(s);
      var q :| 0 <= q < |s| && s[q] == b[p];
      assert KeysOf(s)[q] == k;
    }
  }

  /** `sorted(d.items())` after the accumulation loop: the trend lists of the
      summary and the dashboard. */
  method Trend(keys: seq<string>, amounts: seq<real>) returns (t: seq<Bucket>)
    requires |keys| == |amounts|
    ensures IsTrendOf(t, keys, amounts)
  {
    var b := Accumulate(keys, amounts);
    t := SortByKey(b);
    SortedGrouping(b, t, keys, amounts);
  }
}
