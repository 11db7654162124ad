// Equal-width bins over the observed range of a column's finite values.

module Histogram {

  const BUCKETS: nat := 12

  /** A bar: the edge it is labelled with, and how many values it counts. */
  datatype Bin = Bin(lower: real, count: nat)

  function Least(values: seq<real>): (m: real)
    requires values != []
    ensures m in values && forall i :: 0 <= i < |values| ==> m <= values[i]
  {
    if |values| == 1 then values[0]
    else
      var m := Least(values[1..]);
      assert values == [values[0]] + values[1..];
      if values[0] < m then values[0] else m
  }

  function Greatest(values: seq<real>): (m: real)
    requires values != []
    ensures m in values && forall i :: 0 <= i < |values| ==> values[i] <= m
  {
    if |values| == 1 then values[0]
    else
      var m := Greatest(values[1..]);
      assert values == [values[0]] + values[1..];
      if values[0] > m then values[0] else m
  }

  /** The lower edge of bin `i`; edge `BUCKETS` is the top of the range. */
  function Edge(lo: real, width: real, i: nat): real {
    lo + i as real * width
  }

  /** Bin `i` covers `v`: bins are closed below and open above, except that the last is closed. */
  predicate Covers(lo: real, width: real, i: nat, v: real) {
    Edge(lo, width, i) <= v && (i == BUCKETS - 1 || v < Edge(lo, width, i + 1))
  }

  function CountCovered(values: seq<real>, lo: real, width: real, i: nat): nat {
    if values == [] then 0
    else (if Covers(lo, width, i, values[|values| - 1]) then 1 else 0) +
         CountCovered(values[..|values| - 1], lo, width, i)
  }

  function CountBelow(values: seq<real>, edge: real): nat {
    if values == [] then 0
    else (if values[|values| - 1] < edge then 1 else 0) + CountBelow(values[..|values| - 1], edge)
  }

  function Total(bins: seq<Bin>): nat {
    if bins == [] then 0 else Total(bins[..|bins| - 1]) + bins[|bins| - 1].count
  }

  // ---------------------------------------------------------------- where a value lands

  /** The top edge is the greatest value, so the last bin is closed exactly there. */
  lemma TopEdge(lo: real, hi: real)
    ensures Edge(lo, (hi - lo) / BUCKETS as real, BUCKETS) == hi
  {
  }

  lemma Scale(a: real, b: real, width: real)
    requires width > 0.0 && a <= b
    ensures a * width <= b * width
  {
  }

  lemma ScaleStrict(a: real, b: real, width: real)
    requires width > 0.0 && a < b
    ensures a * width < b * width
  {
  }

  /** The index the loop computes. */
  function Index(lo: real, width: real, v: real): int
    requires width > 0.0
  {
    var i := ((v - lo) / width).Floor;
    if i < BUCKETS - 1 then i else BUCKETS - 1
  }

  lemma EdgesBelow(lo: real, width: real, i: int, v: real)
    requires width > 0.0
    ensures i as real <= (v - lo) / width <==> lo + i as real * width <= v
  {
    var q := (v - lo) / width;
    assert q * width == v - lo;
    if i as real <= q {
      Scale(i as real, q, width);
    } else {
      ScaleStrict(q, i as real, width);
    }
  }

  /** In range, and exactly in the bin that covers the value. */
  lemma IndexCovers(lo: real, width: real, v: real, k: nat)
    requires width > 0.0 && lo <= v && k < BUCKETS
    ensures 0 <= Index(lo, width, v) < BUCKETS
    ensures Covers(lo, width, k, v) <==> Index(lo, width, v) == k
  {
    var q := (v - lo) / width;
    EdgesBelow(lo, width, 0, v);
    EdgesBelow(lo, width, k, v);
    EdgesBelow(lo, width, k + 1, v);
    EdgesBelow(lo, width, BUCKETS - 1, v);
  }

  // ---------------------------------------------------------------- counting

  /** The bin counts after the given values. */
  ghost predicate Counts(cs: seq<nat>, values: seq<real>, lo: real, width: real) {
    |cs| == BUCKETS && forall i :: 0 <= i < BUCKETS ==> cs[i] == CountCovered(values, lo, width, i)
  }

  lemma CountsStep(cs: seq<nat>, values: seq<real>, n: nat, lo: real, width: real)
    requires n < |values| && Counts(cs, values[..n], lo, width) && width > 0.0 && lo <= values[n]
    ensures var i := Index(lo, width, values[n]);
            0 <= i < BUCKETS && Counts(cs[i := cs[i] + 1], values[..n + 1], lo, width)
  {
    var i := Index(lo, width, values[n]);
    IndexCovers(lo, width, values[n], 0);
    assert values[..n + 1][..n] == values[..n];
    forall k: nat | k < BUCKETS ensures Covers(lo, width, k, values[n]) <==> i == k {
      IndexCovers(lo, width, values[n], k);
    }
  }

  // ---------------------------------------------------------------- what the bins add up to

  /** The bins of a column whose values are not all equal. */
  function Bins(values: seq<real>, lo: real, width: real, n: nat): (bins: seq<Bin>)
    ensures |bins| == n
  {
    seq(n, i requires 0 <= i < n => Bin(Edge(lo, width, i), CountCovered(values, lo, width, i)))
  }

  /** Every value is in exactly one bin. */
  lemma CoveredOnce(lo: real, width: real, v: real)
    requires width > 0.0 && lo <= v
    ensures exists i: nat :: i < BUCKETS && Covers(lo, width, i, v)
    ensures forall i: nat, k: nat | i < BUCKETS && k < BUCKETS && Covers(lo, width, i, v) && Covers(lo, width, k, v) ::
              i == k
  {
    forall k: nat | k < BUCKETS ensures 0 <= Index(lo, width, v) < BUCKETS
      ensures Covers(lo, width, k, v) <==> Index(lo, width, v) == k
    {
      IndexCovers(lo, width, v, k);
    }
    assert 0 < BUCKETS;
    assert Covers(lo, width, Index(lo, width, v), v);
  }

  /** A value below edge `n` is below edge `n - 1` or in bin `n - 1`, and not both. */
  lemma BelowSplits(lo: real, width: real, n: nat, v: real)
    requires 0 < n < BUCKETS && width > 0.0
    ensures v < Edge(lo, width, n) <==> v < Edge(lo, width, n - 1) || Covers(lo, width, n - 1, v)
    ensures !(v < Edge(lo, width, n - 1) && Covers(lo, width, n - 1, v))
  {
    assert Edge(lo, width, n) == Edge(lo, width, n - 1) + width;
  }

  lemma {:induction false} CountSplits(values: seq<real>, lo: real, width: real, n: nat)
    requires 0 < n < BUCKETS && width > 0.0
    ensures CountBelow(values, Edge(lo, width, n)) ==
            CountBelow(values, Edge(lo, width, n - 1)) + CountCovered(values, lo, width, n - 1)
  {
    if values != [] {
      BelowSplits(lo, width, n, values[|values| - 1]);
      CountSplits(values[..|values| - 1], lo, width, n);
    }
  }

  predicate AllFrom(values: seq<real>, edge: real) {
    forall i :: 0 <= i < |values| ==> edge <= values[i]
  }

  lemma {:induction false} NoneBelow(values: seq<real>, edge: real)
    requires AllFrom(values, edge)
    ensures CountBelow(values, edge) == 0
  {
    if values != [] {
      NoneBelow(values[..|values| - 1], edge);
    }
  }

  /** The last bin takes everything from its lower edge on. */
  lemma {:induction false} LastBin(values: seq<real>, lo: real, width: real)
    ensures CountBelow(values, Edge(lo, width, BUCKETS - 1)) + CountCovered(values, lo, width, BUCKETS - 1) == |values|
  {
    if values != [] {
      LastBin(values[..|values| - 1], lo, width);
    }
  }

  /** The first `n` bins together hold exactly the values below edge `n`. */
  lemma {:induction false} PrefixSums(values: seq<real>, lo: real, width: real, n: nat)
    requires n < BUCKETS && width > 0.0 && AllFrom(values, lo)
    ensures Total(Bins(values, lo, width, n)) == CountBelow(values, Edge(lo, width, n))
  {
    if n == 0 {
      NoneBelow(values, Edge(lo, width, 0));
    } else {
      PrefixSums(values, lo, width, n - 1);
      assert Bins(values, lo, width, n)[..n - 1] == Bins(values, lo, width, n - 1);
      CountSplits(values, lo, width, n);
    }
  }

  /** No value is dropped or counted twice. */
  lemma BinsSum(values: seq<real>, lo: real, width: real)
    requires width > 0.0 && AllFrom(values, lo)
    ensures Total(Bins(values, lo, width, BUCKETS)) == |values|
  {
    assert Bins(values, lo, width, BUCKETS)[..BUCKETS - 1] == Bins(values, lo, width, BUCKETS - 1);
    PrefixSums(values, lo, width, BUCKETS - 1);
    LastBin(values, lo, width);
  }

  // ---------------------------------------------------------------- the histogram

  /** The loop: one count for each value, in the bin that covers it. */
  method CountInto(values: seq<real>, min: real, width: real) returns (counts: array<nat>)
    requires width > 0.0 && AllFrom(values, min)
    ensures fresh(counts) && Counts(counts[..], values, min, width)
  {
    counts := new nat[BUCKETS](_ => 0);
    for n := 0 to |values|
      invariant fresh(counts) && Counts(counts[..], values[..n], min, width)
    {
      CountsStep(counts[..], values, n, min, width);
      var i := Index(min, width, values[n]);
      counts[i] := counts[i] + 1;
    }
    assert values[..|values|] == values;
  }

  /** Nothing for no values, one bin for a constant column, otherwise twelve bins over the observed
      range, each counting exactly the values it covers. */
  method Histogram(values: seq<real>) returns (bins: seq<Bin>)
    ensures values == [] ==> bins == []
    ensures values != [] && Least(values) == Greatest(values) ==> bins == [Bin(Least(values), |values|)]
    ensures values != [] && Least(values) != Greatest(values) ==>
              var lo, width := Least(values), (Greatest(values) - Least(values)) / BUCKETS as real;
              && |bins| == 12 && Edge(lo, width, BUCKETS) == Greatest(values)
              && forall i :: 0 <= i < BUCKETS ==> bins[i] == Bin(Edge(lo, width, i), CountCovered(values, lo, width, i))
    ensures Total(bins) == |values|
  {
    if |values| == 0 {
      return [];
    }
    var min, max := Least(values), Greatest(values);
    if min == max {
      bins := [Bin(min, |values|)];
      assert bins[..0] == [];
      return;
    }
    var width := (max - min) / BUCKETS as real;
    TopEdge(min, max);
    var counts := CountInto(values, min, width);
    bins := seq(BUCKETS, i requires 0 <= i < BUCKETS reads counts => Bin(Edge(min, width, i), counts[i]));
    assert bins == Bins(values, min, width, BUCKETS);
    BinsSum(values, min, width);
  }
}
