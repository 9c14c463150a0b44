/** Per-key aggregation as the source writes it with a JavaScript `Map`:
    `m.set(k, (m.get(k) || 0) + 1)` in a loop, then `Array.from(m.entries())`.
    A `Map` keeps its keys in first-insertion order, so it is modelled as a
    sequence of buckets with distinct keys. */
module Tally {
  import opened Seqs
  import opened Ranking

  /** One map entry: how many items carried `key` and the sum of their weights. */
  datatype Bucket = Bucket(key: string, count: nat, total: real)

  ghost predicate DistinctKeys(b: seq<Bucket>)
  {
    forall i, j :: 0 <= i < j < |b| ==> b[i].key != b[j].key
  }

  /** Position of the bucket for `k`, or |b| when the map has no such key. */
  function Find(b: seq<Bucket>, k: string): (i: nat)
    ensures i <= |b|
    ensures i < |b| ==> b[i].key == k
    ensures forall j :: 0 <= j < i ==> b[j].key != k
  {
    if |b| == 0 then 0
    else if b[0].key == k then 0
    else 1 + Find(b[1..], k)
  }

  /** One loop iteration: bump the existing bucket in place or append a new one. */
  function Add(b: seq<Bucket>, k: string, w: real): seq<Bucket>
  {
    var i := Find(b, k);
    if i == |b| then b + [Bucket(k, 1, w)]
    else b[i := Bucket(k, b[i].count + 1, b[i].total + w)]
  }

  /** The map after the loop has visited every item. */
  function Aggregate<T>(items: seq<T>, key: T -> string, weight: T -> real): seq<Bucket>
  {
    if |items| == 0 then []
    else
      var n := |items| - 1;
      Add(Aggregate(items[..n], key, weight), key(items[n]), weight(items[n]))
  }

  /** The counting loop itself: one `Add` per item, in item order. */
  method Count<T>(items: seq<T>, key: T -> string, weight: T -> real) returns (b: seq<Bucket>)
    ensures b == Aggregate(items, key, weight)
  {
    b := [];
    var i := 0;
    while i < |items|
      invariant 0 <= i <= |items|
      invariant b == Aggregate(items[..i], key, weight)
    {
      assert items[..i + 1][..i] == items[..i];
      b := Add(b, key(items[i]), weight(items[i]));
      i := i + 1;
    }
    assert items[..|items|] == items;
  }

  /** Number of items whose key is `k`. */
  function Occurrences<T>(items: seq<T>, key: T -> string, k: string): nat
  {
    if |items| == 0 then 0
    else Occurrences(items[..|items| - 1], key, k) + (if key(items[|items| - 1]) == k then 1 else 0)
  }

  /** Summed weight of the items whose key is `k`. */
  function KeyTotal<T>(items: seq<T>, key: T -> string, weight: T -> real, k: string): real
  {
    if |items| == 0 then 0.0
    else KeyTotal(items[..|items| - 1], key, weight, k) + (if key(items[|items| - 1]) == k then weight(items[|items| - 1]) else 0.0)
  }

  function CountSum(b: seq<Bucket>): nat
  {
    if |b| == 0 then 0 else CountSum(b[..|b| - 1]) + b[|b| - 1].count
  }

  function TotalSum(b: seq<Bucket>): real
  {
    if |b| == 0 then 0.0 else TotalSum(b[..|b| - 1]) + b[|b| - 1].total
  }

  function BucketKey(b: Bucket): string
  {
    b.key
  }

  function BucketCount(b: Bucket): real
  {
    b.count as real
  }

  function BucketTotal(b: Bucket): real
  {
    b.total
  }

  /** The two bucket sums are ordinary sums, so they survive reordering. */
  lemma {:induction false} BucketSums(b: seq<Bucket>)
    ensures CountSum(b) as real == Sum(b, BucketCount)
    ensures TotalSum(b) == Sum(b, BucketTotal)
  {
    if |b| > 0 {
      BucketSums(b[..|b| - 1]);
    }
  }

  lemma {:induction false} CountSumUpdate(b: seq<Bucket>, i: nat, x: Bucket)
    requires i < |b|
    ensures CountSum(b[i := x]) == CountSum(b) - b[i].count + x.count
    ensures TotalSum(b[i := x]) == TotalSum(b) - b[i].total + x.total
  {
    var n := |b| - 1;
    if i < n {
      CountSumUpdate(b[..n], i, x);
      assert b[i := x][..n] == b[..n][i := x];
    } else {
      assert b[i := x][..n] == b[..n];
    }
  }

  lemma AddSums(b: seq<Bucket>, k: string, w: real)
    ensures CountSum(Add(b, k, w)) == CountSum(b) + 1
    ensures TotalSum(Add(b, k, w)) == TotalSum(b) + w
  {
    var i := Find(b, k);
    if i == |b| {
      assert (b + [Bucket(k, 1, w)])[..|b|] == b;
    } else {
      CountSumUpdate(b, i, Bucket(k, b[i].count + 1, b[i].total + w));
    }
  }

  /** The bucket counts add up to the number of items, and the bucket totals
      to the summed weight of all items. */
  lemma {:induction false} AggregateSums<T>(items: seq<T>, key: T -> string, weight: T -> real)
    ensures CountSum(Aggregate(items, key, weight)) == |items|
    ensures TotalSum(Aggregate(items, key, weight)) == Sum(items, weight)
  {
    if |items| > 0 {
      var n := |items| - 1;
      AggregateSums(items[..n], key, weight);
      AddSums(Aggregate(items[..n], key, weight), key(items[n]), weight(items[n]));
    }
  }

  /** `b` is exactly the map the loop builds from `items`: each key has
      one bucket, every item's key has a bucket, and each bucket holds its
      key's number of occurrences (at least one, so no bucket is made up)
      and its key's summed weight. */
  ghost predicate Tallies<T>(b: seq<Bucket>, items: seq<T>, key: T -> string, weight: T -> real)
  {
    && DistinctKeys(b)
    && (forall i :: 0 <= i < |items| ==> Find(b, key(items[i])) < |b|)
    && (forall j :: 0 <= j < |b| ==> b[j].count == Occurrences(items, key, b[j].key) && b[j].count > 0)
    && (forall j :: 0 <= j < |b| ==> b[j].total == KeyTotal(items, key, weight, b[j].key))
  }

  lemma {:induction false} AggregateContents<T>(items: seq<T>, key: T -> string, weight: T -> real)
    ensures Tallies(Aggregate(items, key, weight), items, key, weight)
  {
    if |items| > 0 {
      var n := |items| - 1;
      AggregateContents(items[..n], key, weight);
      AddStep(Aggregate(items[..n], key, weight), items, key, weight);
    }
  }

  lemma AddStep<T>(b: seq<Bucket>, items: seq<T>, key: T -> string, weight: T -> real)
    requires |items| > 0
    requires Tallies(b, items[..|items| - 1], key, weight)
    ensures Tallies(Add(b, key(items[|items| - 1]), weight(items[|items| - 1])), items, key, weight)
  {
    var n := |items| - 1;
    var front := items[..n];
    var k, w := key(items[n]), weight(items[n]);
    var b' := Add(b, k, w);
    AddDistinct(b, k, w);
    forall m | 0 <= m < |items| ensures Find(b', key(items[m])) < |b'| {
      if m < n {
        assert front[m] == items[m];
        FindKeeps(b, k, w, key(items[m]));
      } else {
        FindKeeps(b, k, w, k);
      }
    }
    AddCounts(b, items, key, weight);
  }

  lemma AddDistinct(b: seq<Bucket>, k: string, w: real)
    requires DistinctKeys(b)
    ensures DistinctKeys(Add(b, k, w))
  {
  }

  lemma AddCounts<T>(b: seq<Bucket>, items: seq<T>, key: T -> string, weight: T -> real)
    requires |items| > 0
    requires Tallies(b, items[..|items| - 1], key, weight)
    ensures var b' := Add(b, key(items[|items| - 1]), weight(items[|items| - 1]));
      forall j :: 0 <= j < |b'| ==>
        && b'[j].count == Occurrences(items, key, b'[j].key) && b'[j].count > 0
        && b'[j].total == KeyTotal(items, key, weight, b'[j].key)
  {
    var n := |items| - 1;
    var front := items[..n];
    var k, w := key(items[n]), weight(items[n]);
    var b' := Add(b, k, w);
    var i := Find(b, k);
    if i == |b| {
      OccurrencesAbsent(front, key, k, b, weight);
      KeyTotalAbsent(front, key, weight, k, b);
    }
    forall j | 0 <= j < |b'|
      ensures b'[j].count == Occurrences(items, key, b'[j].key) && b'[j].count > 0
      ensures b'[j].total == KeyTotal(items, key, weight, b'[j].key)
    {
      var q := b'[j].key;
      assert Occurrences(items, key, q) == Occurrences(front, key, q) + (if k == q then 1 else 0);
      assert KeyTotal(items, key, weight, q) == KeyTotal(front, key, weight, q) + (if k == q then w else 0.0);
      if j < |b| && j != i {
        assert b'[j] == b[j];
      }
    }
  }

  lemma KeyTotalAbsent<T>(items: seq<T>, key: T -> string, weight: T -> real, k: string, b: seq<Bucket>)
    requires forall i :: 0 <= i < |items| ==> Find(b, key(items[i])) < |b|
    requires Find(b, k) == |b|
    ensures KeyTotal(items, key, weight, k) == 0.0
  {
    KeyTotalAbsentPrefix(items, key, weight, k);
  }

  lemma {:induction false} KeyTotalAbsentPrefix<T>(items: seq<T>, key: T -> string, weight: T -> real, k: string)
    requires forall i :: 0 <= i < |items| ==> key(items[i]) != k
    ensures KeyTotal(items, key, weight, k) == 0.0
  {
    if |items| > 0 {
      KeyTotalAbsentPrefix(items[..|items| - 1], key, weight, k);
    }
  }

  lemma OccurrencesAbsent<T>(items: seq<T>, key: T -> string, k: string, b: seq<Bucket>, weight: T -> real)
    requires forall i :: 0 <= i < |items| ==> Find(b, key(items[i])) < |b|
    requires Find(b, k) == |b|
    ensures Occurrences(items, key, k) == 0
  {
    OccurrencesAbsentPrefix(items, key, k);
  }

  lemma {:induction false} OccurrencesAbsentPrefix<T>(items: seq<T>, key: T -> string, k: string)
    requires forall i :: 0 <= i < |items| ==> key(items[i]) != k
    ensures Occurrences(items, key, k) == 0
  {
    if |items| > 0 {
      OccurrencesAbsentPrefix(items[..|items| - 1], key, k);
    }
  }

  /** A key that had a bucket still has one after another item is added. */
  lemma FindKeeps(b: seq<Bucket>, k: string, w: real, q: string)
    requires Find(b, q) < |b| || q == k
    ensures Find(Add(b, k, w), q) < |Add(b, k, w)|
  {
    var b' := Add(b, k, w);
    if q == k {
      if Find(b, k) == |b| {
        assert b'[|b|].key == k;
        FindBound(b', k, |b|);
      } else {
        FindBound(b', k, Find(b, k));
      }
    } else {
      FindBound(b', q, Find(b, q));
    }
  }

  lemma {:induction false} FindBound(b: seq<Bucket>, k: string, i: nat)
    requires i < |b| && b[i].key == k
    ensures Find(b, k) <= i
  {
    if b[0].key != k {
      FindBound(b[1..], k, i - 1);
    }
  }

  /** `Array.from(m.entries()).sort(...)` by `rank`, descending: one entry
      per distinct key, counts adding up to the number of items, totals to
      their summed weight, each entry holding its key's count and total, and
      every item's key present. */
  lemma RankedTally<T>(items: seq<T>, key: T -> string, weight: T -> real, rank: Bucket -> real)
    ensures var r := SortDesc(Aggregate(items, key, weight), rank);
      && DistinctBy(r, BucketKey)
      && SortedDesc(r, rank)
      && Sum(r, BucketCount) == |items| as real
      && Sum(r, BucketTotal) == Sum(items, weight)
      && (forall j :: 0 <= j < |r| ==>
            r[j].count == Occurrences(items, key, r[j].key) && r[j].count > 0 &&
            r[j].total == KeyTotal(items, key, weight, r[j].key))
      && (forall i :: 0 <= i < |items| ==> exists j :: 0 <= j < |r| && r[j].key == key(items[i]))
  {
    var b := Aggregate(items, key, weight);
    var r := SortDesc(b, rank);
    AggregateContents(items, key, weight);
    AggregateSums(items, key, weight);
    BucketSums(b);
    SumPermutation(r, b, BucketCount);
    SumPermutation(r, b, BucketTotal);
    assert DistinctBy(b, BucketKey);
    SortDescDistinct(b, rank, BucketKey);
    forall j | 0 <= j < |r|
      ensures r[j].count == Occurrences(items, key, r[j].key) && r[j].count > 0
      ensures r[j].total == KeyTotal(items, key, weight, r[j].key)
    {
      assert r[j] in multiset(b);
    }
    forall i | 0 <= i < |items| ensures exists j :: 0 <= j < |r| && r[j].key == key(items[i]) {
      var k := Find(b, key(items[i]));
      assert b[k] in multiset(r);
      var j :| 0 <= j < |r| && r[j] == b[k];
    }
  }
}
