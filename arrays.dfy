/** N-dimensional numeric arrays as the tool sees them: a shape and the
    elements in row-major order (the last index varies fastest). */
module Arrays {

  /** The W+ latent space has 18 style layers of 512 values each. */
  const Layers: nat := 18
  const Width: nat := 512
  const FlatLength: nat := 9216

  /** Number of elements an array of the given shape holds. */
  function Product(shape: seq<nat>): nat
  {
    if |shape| == 0 then 1 else shape[0] * Product(shape[1..])
  }

  datatype RawArray = RawArray(shape: seq<nat>, data: seq<real>)

  /** A well-formed array: exactly as many elements as its shape describes. */
  type NdArray = a: RawArray | |a.data| == Product(a.shape) witness RawArray([], [0.0])

  /** The canonical W+ matrix of shape (18, 512). */
  predicate IsWPlus(a: RawArray)
  {
    a.shape == [Layers, Width] && |a.data| == FlatLength
  }

  lemma ProductOfWPlusShapes()
    ensures Product([Layers, Width]) == FlatLength
    ensures Product([1, Layers, Width]) == FlatLength
    ensures Product([Width]) == Width
  {
    assert Product([Width]) == Width * Product([]);
    assert [Layers, Width][1..] == [Width];
    assert [1, Layers, Width][1..] == [Layers, Width];
  }

  /** A matrix of shape (18, 512) is W+ exactly by its shape. */
  lemma WPlusByShape(a: NdArray)
    ensures IsWPlus(a) <==> a.shape == [Layers, Width]
  {
    ProductOfWPlusShapes();
  }

  /** Row `i` of a W+ matrix. */
  function Row(a: RawArray, i: nat): (r: seq<real>)
    requires IsWPlus(a) && i < Layers
    ensures |r| == Width
  {
    a.data[i * Width .. i * Width + Width]
  }

  /** `n` consecutive copies of `d`. */
  function Repeat(d: seq<real>, n: nat): (r: seq<real>)
    ensures |r| == n * |d|
  {
    if n == 0 then [] else d + Repeat(d, n - 1)
  }

  /** Copy `i` inside `Repeat(d, n)` is `d` itself. */
  lemma {:induction false} RepeatCopy(d: seq<real>, n: nat, i: nat)
    requires i < n
    ensures |Repeat(d, n)| == n * |d|
    ensures (i + 1) * |d| <= n * |d|
    ensures Repeat(d, n)[i * |d| .. (i + 1) * |d|] == d
  {
    var m := |d|;
    var rest := Repeat(d, n - 1);
    assert Repeat(d, n) == d + rest;
    if i == 0 {
      assert (d + rest)[..m] == d;
    } else {
      RepeatCopy(d, n - 1, i - 1);
      assert i * m == (i - 1) * m + m;
      assert (i + 1) * m == i * m + m;
      assert (d + rest)[i * m .. (i + 1) * m] == rest[(i - 1) * m .. i * m];
    }
  }

  /** Element `k` of `n` copies of a 512-vector is its element `k mod 512`. */
  lemma {:induction false} RepeatAt(d: seq<real>, n: nat, k: nat)
    requires |d| == Width && k < n * Width
    ensures Repeat(d, n)[k] == d[k % Width]
  {
    var rest := Repeat(d, n - 1);
    assert Repeat(d, n) == d + rest;
    if k < Width {
      assert k % Width == k;
    } else {
      assert n * Width == (n - 1) * Width + Width;
      RepeatAt(d, n - 1, k - Width);
      assert (d + rest)[k] == rest[k - Width];
      assert (k - Width) % Width == k % Width;
    }
  }

  /** numpy's `squeeze(0)`: drop a leading dimension of size 1. */
  function Squeeze(w: NdArray): (r: NdArray)
    requires |w.shape| >= 1 && w.shape[0] == 1
    ensures w.shape == [1] + r.shape
    ensures r.data == w.data
  {
    RawArray(w.shape[1..], w.data)
  }

  /** numpy's `tile(w, (n, 1))` for a 512-vector `w`: `n` rows, each a copy of `w`. */
  function Tile(w: NdArray, n: nat): (r: NdArray)
    requires w.shape == [Width]
    ensures r.shape == [n, Width]
    ensures forall k | 0 <= k < |r.data| :: r.data[k] == w.data[k % Width]
  {
    assert Product(w.shape) == w.shape[0] * Product([]);
    assert [n, w.shape[0]][1..] == [w.shape[0]];
    assert Product([w.shape[0]]) == w.shape[0] * Product([]);
    var r := RawArray([n, w.shape[0]], Repeat(w.data, n));
    assert forall k | 0 <= k < |r.data| :: r.data[k] == w.data[k % Width] by {
      forall k | 0 <= k < |r.data|
        ensures r.data[k] == w.data[k % Width]
      {
        RepeatAt(w.data, n, k);
      }
    }
    r
  }
}
