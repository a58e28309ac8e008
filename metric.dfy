/** The distance between two W+ matrices: both are flattened row-major to
    9216 values and compared coordinate by coordinate. The model keeps the
    SQUARED Euclidean distance, so that it stays exact over the reals. */
module Metric {
  import opened Arrays

  function Sq(x: real): real
  {
    x * x
  }

  lemma SqPositive(d: real)
    requires d != 0.0
    ensures Sq(d) > 0.0
  {
    if d > 0.0 {
      calc { Sq(d); == d * d; > { assert d * d > 0.0 * d; } 0.0 * d; == 0.0; }
    } else {
      calc { Sq(d); == (-d) * (-d); > { assert (-d) * (-d) > 0.0 * (-d); } 0.0 * (-d); == 0.0; }
    }
  }

  /** Sum over all coordinates of the squared difference `y[k] - x[k]`. */
  function SumSquaredDiff(x: seq<real>, y: seq<real>): (r: real)
    requires |x| == |y|
    ensures r >= 0.0
    decreases |x|
  {
    if |x| == 0 then 0.0 else Sq(y[0] - x[0]) + SumSquaredDiff(x[1..], y[1..])
  }

  /** The first `n` rows of a W+ matrix, one after the other. */
  function ConcatRows(w: RawArray, n: nat): seq<real>
    requires IsWPlus(w) && n <= Layers
  {
    if n == 0 then [] else ConcatRows(w, n - 1) + Row(w, n - 1)
  }

  lemma {:induction false} ConcatRowsIsPrefix(w: RawArray, n: nat)
    requires IsWPlus(w) && n <= Layers
    ensures ConcatRows(w, n) == w.data[..n * Width]
  {
    if n > 0 {
      ConcatRowsIsPrefix(w, n - 1);
      assert w.data[..n * Width] == w.data[..(n - 1) * Width] + Row(w, n - 1);
    }
  }

  /** numpy's `flatten()`: the elements in row-major order. */
  function Flatten(w: RawArray): (f: seq<real>)
    requires IsWPlus(w)
    ensures |f| == FlatLength
  {
    w.data
  }

  /** Flattening lays the 18 rows end to end, row 0 first. */
  lemma FlattenIsRowMajor(w: RawArray)
    requires IsWPlus(w)
    ensures Flatten(w) == ConcatRows(w, Layers)
  {
    ConcatRowsIsPrefix(w, Layers);
  }

  /** Squared Euclidean distance between two W+ matrices (`w2 - w1`, as the tool computes it). */
  function Distance(w1: RawArray, w2: RawArray): (d: real)
    requires IsWPlus(w1) && IsWPlus(w2)
    ensures d >= 0.0
  {
    SumSquaredDiff(Flatten(w1), Flatten(w2))
  }

  lemma {:induction false} SumSquaredDiffSelf(x: seq<real>)
    ensures SumSquaredDiff(x, x) == 0.0
    decreases |x|
  {
    if |x| > 0 {
      SumSquaredDiffSelf(x[1..]);
    }
  }

  lemma {:induction false} SumSquaredDiffSymmetric(x: seq<real>, y: seq<real>)
    requires |x| == |y|
    ensures SumSquaredDiff(x, y) == SumSquaredDiff(y, x)
    decreases |x|
  {
    if |x| > 0 {
      SumSquaredDiffSymmetric(x[1..], y[1..]);
      assert Sq(y[0] - x[0]) == Sq(x[0] - y[0]);
    }
  }

  lemma {:induction false} SumSquaredDiffZero(x: seq<real>, y: seq<real>)
    requires |x| == |y|
    ensures SumSquaredDiff(x, y) == 0.0 <==> x == y
    decreases |x|
  {
    if x == y {
      SumSquaredDiffSelf(x);
    } else if |x| > 0 {
      SumSquaredDiffZero(x[1..], y[1..]);
      var d := y[0] - x[0];
      if d != 0.0 {
        SqPositive(d);
      } else {
        assert x[1..] != y[1..] by {
          assert x == [x[0]] + x[1..] && y == [y[0]] + y[1..];
        }
      }
    }
  }

  /** Changing one coordinate by `delta` puts the two vectors `delta * delta` apart. */
  lemma {:induction false} SumSquaredDiffOneCoordinate(x: seq<real>, k: nat, delta: real)
    requires k < |x|
    ensures SumSquaredDiff(x, x[k := x[k] + delta]) == delta * delta
    decreases |x|
  {
    var y := x[k := x[k] + delta];
    if k == 0 {
      assert y[1..] == x[1..];
      SumSquaredDiffSelf(x[1..]);
    } else {
      assert y[1..] == x[1..][k - 1 := x[k] + delta];
      SumSquaredDiffOneCoordinate(x[1..], k - 1, delta);
    }
  }

  /** The distance of a matrix to itself is zero. */
  lemma DistanceToSelf(w: RawArray)
    requires IsWPlus(w)
    ensures Distance(w, w) == 0.0
  {
    SumSquaredDiffSelf(w.data);
  }

  /** The distance does not depend on the order of its arguments. */
  lemma DistanceSymmetric(w1: RawArray, w2: RawArray)
    requires IsWPlus(w1) && IsWPlus(w2)
    ensures Distance(w1, w2) == Distance(w2, w1)
  {
    SumSquaredDiffSymmetric(w1.data, w2.data);
  }

  /** The distance is zero exactly when the two matrices are identical. */
  lemma DistanceZeroIffEqual(w1: RawArray, w2: RawArray)
    requires IsWPlus(w1) && IsWPlus(w2)
    ensures Distance(w1, w2) == 0.0 <==> w1 == w2
  {
    SumSquaredDiffZero(w1.data, w2.data);
  }

  /** A matrix differing from `w` in one flattened coordinate by `delta` is at squared distance `delta * delta`. */
  lemma DistanceOneCoordinate(w: RawArray, k: nat, delta: real)
    requires IsWPlus(w) && k < FlatLength
    ensures IsWPlus(RawArray(w.shape, w.data[k := w.data[k] + delta]))
    ensures Distance(w, RawArray(w.shape, w.data[k := w.data[k] + delta])) == delta * delta
  {
    SumSquaredDiffOneCoordinate(w.data, k, delta);
  }
}
