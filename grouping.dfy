/** The group-by helpers `grouped_counts` and `grouped_means`, with the
    functions over the record sequence that specify them. A key function
    is any `Row -> string`; the source passes the hook style, the niche
    category or the duration band label. */
module Grouping {
  import opened Rows
  import opened Metrics

  /** The distinct keys that occur among the rows. */
  function KeysOf(rows: seq<Row>, key: Row -> string): (ks: set<string>)
    ensures forall i :: 0 <= i < |rows| ==> key(rows[i]) in ks
  {
    if rows == [] then {} else KeysOf(rows[..|rows| - 1], key) + {key(rows[|rows| - 1])}
  }

  /** Every key of `KeysOf` comes from some row. */
  lemma {:induction false} KeyHasRow(rows: seq<Row>, key: Row -> string, k: string)
    requires k in KeysOf(rows, key)
    ensures exists i :: 0 <= i < |rows| && key(rows[i]) == k
  {
    var n := |rows| - 1;
    if key(rows[n]) != k {
      KeyHasRow(rows[..n], key, k);
      var i :| 0 <= i < n && key(rows[..n][i]) == k;
      assert rows[i] == rows[..n][i];
    }
  }

  /** The number of rows whose key is in `ks`. */
  function Count(rows: seq<Row>, key: Row -> string, ks: set<string>): (c: nat)
    ensures c <= |rows|
  {
    if rows == [] then 0
    else Count(rows[..|rows| - 1], key, ks) + (if key(rows[|rows| - 1]) in ks then 1 else 0)
  }

  /** The values of the rows with key `k`, in row order. */
  function Bucket(rows: seq<Row>, key: Row -> string, value: Row -> real, k: string): (b: seq<real>)
    ensures |b| <= |rows|
  {
    if rows == [] then []
    else
      var last := rows[|rows| - 1];
      Bucket(rows[..|rows| - 1], key, value, k) + (if key(last) == k then [value(last)] else [])
  }

  /** A key occurs among the rows exactly when its group is not empty. */
  lemma {:induction false} KeyCountPositive(rows: seq<Row>, key: Row -> string, k: string)
    ensures k in KeysOf(rows, key) <==> Count(rows, key, {k}) >= 1
  {
    if rows != [] {
      KeyCountPositive(rows[..|rows| - 1], key, k);
    }
  }

  /** A group's bucket has one value per row of the group. */
  lemma {:induction false} BucketSize(rows: seq<Row>, key: Row -> string, value: Row -> real, k: string)
    ensures |Bucket(rows, key, value, k)| == Count(rows, key, {k})
  {
    if rows != [] {
      BucketSize(rows[..|rows| - 1], key, value, k);
    }
  }

  /** Buckets keep row order: the bucket of a concatenation is the
      concatenation of the buckets. */
  lemma {:induction false} BucketAppend(a: seq<Row>, b: seq<Row>, key: Row -> string, value: Row -> real, k: string)
    ensures Bucket(a + b, key, value, k) == Bucket(a, key, value, k) + Bucket(b, key, value, k)
  {
    if b == [] {
      assert a + b == a;
    } else {
      var n := |b| - 1;
      assert (a + b)[..|a + b| - 1] == a + b[..n];
      BucketAppend(a, b[..n], key, value, k);
    }
  }

  /** Counting over a disjoint union of key sets adds up. */
  lemma {:induction false} CountSplit(rows: seq<Row>, key: Row -> string, ks: set<string>, k: string)
    requires k !in ks
    ensures Count(rows, key, ks + {k}) == Count(rows, key, ks) + Count(rows, key, {k})
  {
    if rows != [] {
      CountSplit(rows[..|rows| - 1], key, ks, k);
    }
  }

  /** Counting over a key set that holds every key counts every row. */
  lemma {:induction false} CountCovering(rows: seq<Row>, key: Row -> string, ks: set<string>)
    requires KeysOf(rows, key) <= ks
    ensures Count(rows, key, ks) == |rows|
  {
    if rows != [] {
      CountCovering(rows[..|rows| - 1], key, ks);
    }
  }

  /** `sum(cs)` over integers. */
  function Total(cs: seq<int>): int {
    if cs == [] then 0 else Total(cs[..|cs| - 1]) + cs[|cs| - 1]
  }

  /** Per-key counts, listed once per key, add up to the count of all those
      keys together. */
  lemma {:induction false} CountsTotal(rows: seq<Row>, key: Row -> string, ks: seq<string>, cs: seq<int>)
    requires |cs| == |ks|
    requires forall i, j :: 0 <= i < j < |ks| ==> ks[i] != ks[j]
    requires forall i :: 0 <= i < |ks| ==> cs[i] == Count(rows, key, {ks[i]})
    ensures Total(cs) == Count(rows, key, set k | k in ks)
  {
    if ks == [] {
      assert (set k | k in ks) == {};
      CountNone(rows, key);
    } else {
      var n := |ks| - 1;
      CountsTotal(rows, key, ks[..n], cs[..n]);
      var front := set k | k in ks[..n];
      assert (set k | k in ks) == front + {ks[n]};
      CountSplit(rows, key, front, ks[n]);
    }
  }

  lemma {:induction false} CountNone(rows: seq<Row>, key: Row -> string)
    ensures Count(rows, key, {}) == 0
  {
    if rows != [] {
      CountNone(rows[..|rows| - 1], key);
    }
  }

  /** When per-key counts cover every key that occurs, once each, they add up
      to the number of rows. */
  lemma CountsSumToRows(rows: seq<Row>, key: Row -> string, ks: seq<string>, cs: seq<int>)
    requires |cs| == |ks|
    requires forall i, j :: 0 <= i < j < |ks| ==> ks[i] != ks[j]
    requires forall i :: 0 <= i < |ks| ==> cs[i] == Count(rows, key, {ks[i]})
    requires forall k :: k in KeysOf(rows, key) ==> k in ks
    ensures Total(cs) == |rows|
  {
    CountsTotal(rows, key, ks, cs);
    CountCovering(rows, key, set k | k in ks);
  }

  /** `grouped_counts`: a `defaultdict(int)` incremented once per row. */
  method GroupedCounts(rows: seq<Row>, key: Row -> string) returns (counts: map<string, int>)
    ensures counts.Keys == KeysOf(rows, key)
    ensures forall k :: k in counts ==> counts[k] == Count(rows, key, {k}) && counts[k] >= 1
  {
    counts := map[];
    for i := 0 to |rows|
      invariant counts.Keys == KeysOf(rows[..i], key)
      invariant forall k :: k in counts ==> counts[k] == Count(rows[..i], key, {k}) && counts[k] >= 1
    {
      assert rows[..i + 1][..i] == rows[..i];
      var k := key(rows[i]);
      if k !in counts {
        KeyCountPositive(rows[..i], key, k);
      }
      counts := counts[k := (if k in counts then counts[k] else 0) + 1];
    }
    assert rows[..|rows|] == rows;
  }

  /** `grouped_means`: one bucket of values per key, filled in row order,
      then the mean of each bucket. */
  method GroupedMeans(rows: seq<Row>, key: Row -> string, value: Row -> real) returns (means: map<string, real>)
    ensures means.Keys == KeysOf(rows, key)
    ensures forall k :: k in means ==> means[k] == Mean(Bucket(rows, key, value, k))
  {
    var buckets: map<string, seq<real>> := map[];
    for i := 0 to |rows|
      invariant buckets.Keys == KeysOf(rows[..i], key)
      invariant forall k :: k in buckets ==> buckets[k] == Bucket(rows[..i], key, value, k)
    {
      assert rows[..i + 1][..i] == rows[..i];
      var k := key(rows[i]);
      if k !in buckets {
        KeyCountPositive(rows[..i], key, k);
        BucketSize(rows[..i], key, value, k);
      }
      buckets := buckets[k := (if k in buckets then buckets[k] else []) + [value(rows[i])]];
    }
    assert rows[..|rows|] == rows;
    means := map k | k in buckets :: Mean(buckets[k]);
  }

  /** A key that occurs in no row has an empty group: count 0, mean 0. */
  lemma AbsentKey(rows: seq<Row>, key: Row -> string, value: Row -> real, k: string)
    requires k !in KeysOf(rows, key)
    ensures Count(rows, key, {k}) == 0 && Mean(Bucket(rows, key, value, k)) == 0.0
  {
    KeyCountPositive(rows, key, k);
    BucketSize(rows, key, value, k);
  }

  /** Bucket-wise, values that are pointwise smaller give a smaller mean. */
  lemma {:induction false} BucketMonotone(rows: seq<Row>, key: Row -> string, lo: Row -> real, hi: Row -> real, k: string)
    requires forall i :: 0 <= i < |rows| ==> lo(rows[i]) <= hi(rows[i])
    ensures |Bucket(rows, key, lo, k)| == |Bucket(rows, key, hi, k)|
    ensures forall j :: 0 <= j < |Bucket(rows, key, lo, k)| ==> Bucket(rows, key, lo, k)[j] <= Bucket(rows, key, hi, k)[j]
  {
    if rows != [] {
      var n := |rows| - 1;
      assert forall i :: 0 <= i < n ==> rows[..n][i] == rows[i];
      BucketMonotone(rows[..n], key, lo, hi, k);
    }
  }

  /** With non-negative save counts, every group's mean rate without saves
      is at most its mean rate with saves. */
  lemma GroupRatesOrdered(rows: seq<Row>, key: Row -> string, k: string)
    requires forall i :: 0 <= i < |rows| ==> rows[i].savesOrFavorites >= 0
    ensures Mean(Bucket(rows, key, ErNoSaves, k)) <= Mean(Bucket(rows, key, ErWithSaves, k))
  {
    forall i | 0 <= i < |rows| ensures ErNoSaves(rows[i]) <= ErWithSaves(rows[i]) {
      SavesAddToRate(rows[i]);
    }
    BucketMonotone(rows, key, ErNoSaves, ErWithSaves, k);
    MeanMonotone(Bucket(rows, key, ErNoSaves, k), Bucket(rows, key, ErWithSaves, k));
  }
}
