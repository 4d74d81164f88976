/** The sampling and splitting arithmetic of the exporter: the shuffle as a
    permutation of the fetched rows, the truncated split sizes, Python slicing
    with its clamping, and the dictionary of named splits. */
module Split {

  /** int(total * ratio) for a non-negative ratio. Python's int() truncates
      toward zero, which for a non-negative product is the floor. */
  function SplitCount(total: nat, ratio: real): (n: nat)
    requires 0.0 <= ratio
    ensures n as real <= total as real * ratio < n as real + 1.0
  {
    (total as real * ratio).Floor
  }

  function Min(a: int, b: int): int
  {
    if a <= b then a else b
  }

  /** s[lo:hi] for non-negative bounds: both bounds clamp to the length, and
      the slice is empty when the clamped hi does not exceed the clamped lo. */
  function Slice<T>(s: seq<T>, lo: nat, hi: nat): (r: seq<T>)
    ensures |r| == if hi <= lo || |s| <= lo then 0 else Min(hi, |s|) - lo
    ensures forall k :: 0 <= k < |r| ==> r[k] == s[lo + k]
  {
    var l, h := Min(lo, |s|), Min(hi, |s|);
    if h <= l then [] else s[l..h]
  }

  /** One entry of the exporter's splits dictionary: its key and its records. */
  datatype Bucket<T> = Bucket(name: string, items: seq<T>)

  /** The splits dictionary in iteration order: train, val, test cut from the
      shuffled records by the two counts, or a single "all" bucket when the
      data is not split. */
  function Partition<T>(records: seq<T>, splitData: bool, trainCount: nat, valCount: nat): seq<Bucket<T>>
  {
    if splitData then
      [ Bucket("train", Slice(records, 0, trainCount)),
        Bucket("val", Slice(records, trainCount, trainCount + valCount)),
        Bucket("test", Slice(records, trainCount + valCount, |records|)) ]
    else
      [Bucket("all", records)]
  }

  /** The records of the buckets one after another, in bucket order. */
  function Flatten<T>(bs: seq<Bucket<T>>): seq<T>
  {
    if bs == [] then [] else Flatten(bs[..|bs| - 1]) + bs[|bs| - 1].items
  }

  /** The three slices put back together are the input, whatever the
      (non-negative) counts: every bound clamps at the end of the list. */
  lemma SlicesConcatenate<T>(s: seq<T>, t: nat, v: nat)
    ensures Slice(s, 0, t) + Slice(s, t, t + v) + Slice(s, t + v, |s|) == s
  {
    var r := Slice(s, 0, t) + Slice(s, t, t + v) + Slice(s, t + v, |s|);
    assert |r| == |s|;
    forall k | 0 <= k < |s| ensures r[k] == s[k] {
    }
  }

  /** Every record lands in exactly one bucket, in its original order. */
  lemma PartitionRestoresRecords<T>(records: seq<T>, splitData: bool, t: nat, v: nat)
    ensures Flatten(Partition(records, splitData, t, v)) == records
  {
    var bs := Partition(records, splitData, t, v);
    if splitData {
      assert bs[..2][..1] == bs[..1] && bs[..1][..0] == [];
      assert Flatten(bs) == Flatten(bs[..2]) + bs[2].items;
      assert Flatten(bs[..2]) == Flatten(bs[..1]) + bs[1].items;
      assert Flatten(bs[..1]) == bs[0].items;
      SlicesConcatenate(records, t, v);
    } else {
      assert Flatten(bs) == Flatten([]) + records;
    }
  }

  /** When the two counts fit, train and val get exactly their counts and
      test gets all the rest. */
  lemma PartitionSizes<T>(records: seq<T>, t: nat, v: nat)
    requires t + v <= |records|
    ensures var bs := Partition(records, true, t, v);
      |bs[0].items| == t && |bs[1].items| == v && |bs[2].items| == |records| - t - v
  {
  }

  /** Ratios that sum to at most one give counts that fit in the total. */
  lemma CountsFitTotal(total: nat, trainRatio: real, valRatio: real)
    requires 0.0 <= trainRatio && 0.0 <= valRatio && trainRatio + valRatio <= 1.0
    ensures SplitCount(total, trainRatio) + SplitCount(total, valRatio) <= total
  {
    var t, v := SplitCount(total, trainRatio), SplitCount(total, valRatio);
    calc {
      (t + v) as real;
    <= total as real * trainRatio + total as real * valRatio;
    == total as real * (trainRatio + valRatio);
    <= { assert 0.0 <= total as real; }
      total as real * 1.0;
    }
  }

  /** The truncated counts leave all the rounding remainder to test:
      test holds total - int(total*train_ratio) - int(total*val_ratio) records. */
  lemma TestGetsRemainder<T>(records: seq<T>, trainRatio: real, valRatio: real)
    requires 0.0 <= trainRatio && 0.0 <= valRatio && trainRatio + valRatio <= 1.0
    ensures
      var t, v := SplitCount(|records|, trainRatio), SplitCount(|records|, valRatio);
      var bs := Partition(records, true, t, v);
      && |bs[0].items| == t && |bs[1].items| == v
      && |bs[2].items| == |records| - t - v
  {
    CountsFitTotal(|records|, trainRatio, valRatio);
    PartitionSizes(records, SplitCount(|records|, trainRatio), SplitCount(|records|, valRatio));
  }

  /** order lists every index below n exactly once. */
  predicate IsPermutation(order: seq<nat>, n: nat)
  {
    && |order| == n
    && (forall i :: 0 <= i < n ==> order[i] < n)
    && (forall i, j :: 0 <= i < j < n ==> order[i] != order[j])
  }

  /** random.shuffle(records) for one particular outcome, given as the index
      each shuffled position takes its record from. */
  function Shuffle<T>(s: seq<T>, order: seq<nat>): seq<T>
    requires IsPermutation(order, |s|)
  {
    seq(|s|, i requires 0 <= i < |s| => s[order[i]])
  }

  /** Shuffling neither loses nor duplicates a record. */
  lemma {:induction false} ShufflePreservesMultiset<T>(s: seq<T>, order: seq<nat>)
    requires IsPermutation(order, |s|)
    ensures multiset(Shuffle(s, order)) == multiset(s)
    decreases |s|
  {
    if |s| > 0 {
      var n := |s|;
      var m := order[n - 1];
      var rest := s[..m] + s[m + 1..];
      var order' := seq(n - 1, i requires 0 <= i < n - 1 => if order[i] < m then order[i] else order[i] - 1);
      assert IsPermutation(order', n - 1);
      ShufflePreservesMultiset(rest, order');
      assert Shuffle(s, order) == Shuffle(rest, order') + [s[m]];
      assert s == s[..m] + [s[m]] + s[m + 1..];
    }
  }
}
