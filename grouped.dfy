/**
 * Expanding means within groups: the value pandas computes with
 * `groupby(key)[col].transform(lambda x: x.expanding(1).mean())`.
 * Rows are visited in their table order; row `i` gets the mean of the
 * values of every row `j <= i` that carries the same key.
 */
module Grouped {

  /** Sum of `values[j]` over the rows `j < n` whose key is `k`. */
  function GroupSum(keys: seq<int>, values: seq<real>, k: int, n: nat): real
    requires |keys| == |values| && n <= |keys|
  {
    if n == 0 then 0.0
    else GroupSum(keys, values, k, n - 1) + (if keys[n - 1] == k then values[n - 1] else 0.0)
  }

  /** Number of rows `j < n` whose key is `k`. */
  function GroupCount(keys: seq<int>, k: int, n: nat): (c: nat)
    requires n <= |keys|
    ensures c <= n
    ensures c > 0 <==> exists j :: 0 <= j < n && keys[j] == k
  {
    if n == 0 then 0
    else GroupCount(keys, k, n - 1) + (if keys[n - 1] == k then 1 else 0)
  }

  /**
   * The expanding mean at row `i`: the group prefix always holds row `i`
   * itself, so one observation is enough (`expanding(1)`).
   */
  function ExpandingMean(keys: seq<int>, values: seq<real>, i: nat): (r: real)
    requires |keys| == |values| && i < |keys|
    ensures 1 <= GroupCount(keys, keys[i], i + 1) <= i + 1
    ensures r * GroupCount(keys, keys[i], i + 1) as real == GroupSum(keys, values, keys[i], i + 1)
  {
    assert GroupCount(keys, keys[i], i + 1) > 0;
    GroupSum(keys, values, keys[i], i + 1) / GroupCount(keys, keys[i], i + 1) as real
  }

  /** Rows `lo <= j < hi` none of which has key `k` leave the group sum and count unchanged. */
  lemma {:induction false} NoKeyInRange(keys: seq<int>, values: seq<real>, k: int, lo: nat, hi: nat)
    requires |keys| == |values| && lo <= hi <= |keys|
    requires forall j :: lo <= j < hi ==> keys[j] != k
    ensures GroupSum(keys, values, k, hi) == GroupSum(keys, values, k, lo)
    ensures GroupCount(keys, k, hi) == GroupCount(keys, k, lo)
    decreases hi - lo
  {
    if lo < hi {
      NoKeyInRange(keys, values, k, lo, hi - 1);
    }
  }

  /** The first row of group `k` gets its own value as its average. */
  lemma FirstOfGroup(keys: seq<int>, values: seq<real>, k: int, i: nat)
    requires |keys| == |values| && i < |keys|
    requires keys[i] == k
    requires forall j :: 0 <= j < i ==> keys[j] != k
    ensures ExpandingMean(keys, values, i) == values[i]
  {
    NoKeyInRange(keys, values, k, 0, i);
  }

  /** If every value of group `k` before row `n` is at least `lo`, the sum is at least count times `lo`. */
  lemma {:induction false} GroupSumAtLeast(keys: seq<int>, values: seq<real>, k: int, n: nat, lo: real)
    requires |keys| == |values| && n <= |keys|
    requires forall j :: 0 <= j < n && keys[j] == k ==> lo <= values[j]
    ensures lo * GroupCount(keys, k, n) as real <= GroupSum(keys, values, k, n)
  {
    if n > 0 {
      GroupSumAtLeast(keys, values, k, n - 1, lo);
      if keys[n - 1] == k {
        ScaleStep(lo, GroupCount(keys, k, n - 1) as real);
      }
    }
  }

  /** If every value of group `k` before row `n` is at most `hi`, the sum is at most count times `hi`. */
  lemma {:induction false} GroupSumAtMost(keys: seq<int>, values: seq<real>, k: int, n: nat, hi: real)
    requires |keys| == |values| && n <= |keys|
    requires forall j :: 0 <= j < n && keys[j] == k ==> values[j] <= hi
    ensures GroupSum(keys, values, k, n) <= hi * GroupCount(keys, k, n) as real
  {
    if n > 0 {
      GroupSumAtMost(keys, values, k, n - 1, hi);
      if keys[n - 1] == k {
        ScaleStep(hi, GroupCount(keys, k, n - 1) as real);
      }
    }
  }

  /** Distributes a bound over one more counted value. */
  lemma ScaleStep(b: real, c: real)
    ensures b * (c + 1.0) == b * c + b
  {
  }

  /** Bounds on a sum of `c` values give bounds on their mean. */
  lemma QuotientBounds(s: real, c: real, lo: real, hi: real)
    requires c > 0.0 && lo * c <= s <= hi * c
    ensures lo <= s / c <= hi
  {
    var q := s / c;
    assert (q - lo) * c == s - lo * c;
    assert (hi - q) * c == hi * c - s;
  }

  /** The algebra of the incremental update of a mean of `c` values by one more value `x`. */
  lemma QuotientStep(s: real, c: real, x: real)
    requires c > 0.0
    ensures (s + x) / (c + 1.0) == s / c + (x - s / c) / (c + 1.0)
  {
    var m := s / c;
    assert s == m * c;
    assert m * (c + 1.0) + (x - m) == s + x;
    assert m + (x - m) / (c + 1.0) == (m * (c + 1.0) + (x - m)) / (c + 1.0);
  }

  /**
   * A mean lies between the smallest and the largest value it averages:
   * any bounds on the group prefix of row `i` bound its expanding mean.
   * With `lo` = 0 this says non-negative precipitation gives non-negative
   * averages; with `hi` the prefix maximum, that no average exceeds it.
   */
  lemma MeanWithinBounds(keys: seq<int>, values: seq<real>, i: nat, lo: real, hi: real)
    requires |keys| == |values| && i < |keys|
    requires forall j :: 0 <= j <= i && keys[j] == keys[i] ==> lo <= values[j] <= hi
    ensures lo <= ExpandingMean(keys, values, i) <= hi
  {
    var k := keys[i];
    GroupSumAtLeast(keys, values, k, i + 1, lo);
    GroupSumAtMost(keys, values, k, i + 1, hi);
    QuotientBounds(GroupSum(keys, values, k, i + 1), GroupCount(keys, k, i + 1) as real, lo, hi);
  }

  /** Row `i` joins group `k` right after row `p`: no row of the group lies between them. */
  lemma NextInGroup(keys: seq<int>, values: seq<real>, k: int, p: nat, i: nat)
    requires |keys| == |values| && p < i < |keys|
    requires keys[p] == k && keys[i] == k
    requires forall j :: p < j < i ==> keys[j] != k
    ensures GroupSum(keys, values, k, i + 1) == GroupSum(keys, values, k, p + 1) + values[i]
    ensures GroupCount(keys, k, i + 1) == GroupCount(keys, k, p + 1) + 1
  {
    NoKeyInRange(keys, values, k, p + 1, i);
  }

  /**
   * The incremental form of the same mean: if row `p` is the previous row
   * of row `i`'s group `k`, then `avg_i = avg_p + (x_i - avg_p) / c_i`,
   * where `c_i` is row `i`'s 1-based position within its group.
   */
  lemma IncrementalMean(keys: seq<int>, values: seq<real>, k: int, p: nat, i: nat)
    requires |keys| == |values| && p < i < |keys|
    requires keys[p] == k && keys[i] == k
    requires forall j :: p < j < i ==> keys[j] != k
    ensures GroupCount(keys, k, i + 1) == GroupCount(keys, k, p + 1) + 1
    ensures ExpandingMean(keys, values, i)
         == ExpandingMean(keys, values, p)
            + (values[i] - ExpandingMean(keys, values, p)) / GroupCount(keys, k, i + 1) as real
  {
    NextInGroup(keys, values, k, p, i);
    QuotientStep(GroupSum(keys, values, k, p + 1), GroupCount(keys, k, p + 1) as real, values[i]);
  }

  /**
   * One pass over the rows with a running sum and count per key, as a
   * grouped expanding mean is evaluated; the result at every row is the
   * expanding mean of its group prefix.
   */
  method RunningMeans(keys: seq<int>, values: seq<real>) returns (means: seq<real>)
    requires |keys| == |values|
    ensures |means| == |values|
    ensures forall i :: 0 <= i < |means| ==> means[i] == ExpandingMean(keys, values, i)
  {
    var sum: map<int, real> := map[];
    var count: map<int, nat> := map[];
    means := [];
    var i := 0;
    while i < |values|
      invariant 0 <= i <= |values|
      invariant |means| == i
      invariant forall j :: 0 <= j < i ==> means[j] == ExpandingMean(keys, values, j)
      invariant forall k :: GroupSum(keys, values, k, i) == (if k in sum then sum[k] else 0.0)
      invariant forall k :: GroupCount(keys, k, i) == (if k in count then count[k] else 0)
    {
      var k := keys[i];
      var s := (if k in sum then sum[k] else 0.0) + values[i];
      var c := (if k in count then count[k] else 0) + 1;
      sum := sum[k := s];
      count := count[k := c];
      means := means + [s / c as real];
      i := i + 1;
    }
  }
}
