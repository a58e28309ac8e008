/** Canonicalisation of a loaded latent array into the W+ matrix of shape (18, 512). */
module Normaliser {
  import opened Outcomes
  import opened Arrays

  /** The shapes the normaliser accepts. */
  predicate AcceptedShape(shape: seq<nat>)
  {
    shape == [Width] || shape == [Layers, Width] || shape == [1, Layers, Width]
  }

  /** First step of the normaliser: squeeze a leading 1 off a three-dimensional
      array, or tile a 512-vector into 18 rows; anything else is left alone. */
  function Reshape(w: NdArray): (r: NdArray)
    ensures |w.shape| == 3 && w.shape[0] == 1 ==> w.shape == [1] + r.shape && r.data == w.data
    ensures w.shape == [Width] ==>
      r.shape == [Layers, Width] && forall k | 0 <= k < |r.data| :: r.data[k] == w.data[k % Width]
    ensures !(|w.shape| == 3 && w.shape[0] == 1) && w.shape != [Width] ==> r == w
  {
    if |w.shape| == 3 && w.shape[0] == 1 then Squeeze(w)
    else if |w.shape| == 1 && w.shape[0] == Width then Tile(w, Layers)
    else w
  }

  /** Bring `w` to the W+ shape or fail with the shape it ended up with. */
  function Preprocess(w: NdArray): (r: Result<NdArray>)
    ensures r.Ok? ==> IsWPlus(r.value)
    ensures r.Err? ==> r.failure.ShapeError? && r.failure.shape != [Layers, Width]
  {
    var v := Reshape(w);
    if v.shape != [Layers, Width] then Err(ShapeError(v.shape))
    else
      WPlusByShape(v);
      Ok(v)
  }

  /** Normalisation succeeds exactly on the three accepted shapes. */
  lemma PreprocessAccepts(w: NdArray)
    ensures Preprocess(w).Ok? <==> AcceptedShape(w.shape)
  {
    var v := Reshape(w);
    if AcceptedShape(w.shape) {
      if w.shape == [1, Layers, Width] {
        assert v.shape == w.shape[1..] == [Layers, Width];
      }
    } else {
      if |w.shape| == 3 && w.shape[0] == 1 {
        assert w.shape == [1] + w.shape[1..];
        assert v.shape == w.shape[1..];
      }
    }
  }

  /** A 512-vector becomes 18 rows, each exactly the input vector. */
  lemma PreprocessTiles(w: NdArray)
    requires w.shape == [Width]
    ensures Preprocess(w).Ok?
    ensures forall i :: 0 <= i < Layers ==> Row(Preprocess(w).value, i) == w.data
  {
    ProductOfWPlusShapes();
    assert |w.data| == Width;
    var r := Preprocess(w).value;
    assert r.data == Repeat(w.data, Layers);
    forall i | 0 <= i < Layers
      ensures Row(r, i) == w.data
    {
      RepeatCopy(w.data, Layers, i);
    }
  }

  /** A (1, 18, 512) array yields its inner matrix, elements unchanged. */
  lemma PreprocessSqueezes(w: NdArray)
    requires w.shape == [1, Layers, Width]
    ensures Preprocess(w) == Ok(RawArray([Layers, Width], w.data))
  {
    assert w.shape[1..] == [Layers, Width];
  }

  /** An (18, 512) array passes through unchanged. */
  lemma PreprocessKeeps(w: NdArray)
    requires w.shape == [Layers, Width]
    ensures Preprocess(w) == Ok(w)
  {
  }

  /** Normalising a (1, 18, 512) array is the same as normalising its squeezed form. */
  lemma PreprocessSqueezeEquivalent(w: NdArray, v: NdArray)
    requires w.shape == [1, Layers, Width] && v.shape == [Layers, Width] && v.data == w.data
    ensures Preprocess(w) == Preprocess(v)
  {
    PreprocessSqueezes(w);
  }

  /** Normalising an already normalised matrix changes nothing. */
  lemma PreprocessIdempotent(w: NdArray)
    requires Preprocess(w).Ok?
    ensures Preprocess(Preprocess(w).value) == Preprocess(w)
  {
  }

  /** A three-dimensional array with a leading 1 and any other inner shape is
      rejected, and the error names the squeezed shape, not the input shape. */
  lemma PreprocessRejectsAfterSqueeze(w: NdArray)
    requires |w.shape| == 3 && w.shape[0] == 1 && w.shape[1..] != [Layers, Width]
    ensures Preprocess(w) == Err(ShapeError(w.shape[1..]))
  {
  }
}
