/** The shape rules of the two neural encoders of `elbow/models/neural.py`:
    the Gaussian encoder maps data `X` to stacked means and standard
    deviations of a latent `z`, the Bernoulli encoder maps `z` to the
    probabilities of data of width `d_x`. */
module Neural {
  import opened Common
  import opened Catalog

  /** `shape[:-1]`: every dimension but the last; `()` stays `()`. */
  function AllButLast(s: Shape): (r: Shape)
    ensures |r| == if |s| == 0 then 0 else |s| - 1
    ensures |s| > 0 ==> s == r + [s[|s| - 1]]
  {
    if |s| == 0 then [] else s[..|s| - 1]
  }

  // ---------------------------------------------------------------------
  // Gaussian encoder

  /** `NeuralGaussianTransform.inputs()`. */
  function GaussianEncoderInputs(): map<string, Initializer>
  {
    map["X" := NoInitializer, "w3" := InitWeights, "w4" := InitWeights, "w5" := InitWeights,
        "b3" := InitZeroVector, "b4" := InitZeroVector, "b5" := InitZeroVector]
  }

  /** `NeuralGaussianTransform._input_shape(param, **other_shapes)`: assert the
      parameter is an input, read `d_x` as the last dimension of `X`'s shape,
      then give the weight or bias shape; `X` itself has no rule. */
  function GaussianEncoderInputShape(dHidden: int, dZ: int, param: string, otherShapes: map<string, Shape>): Outcome<Shape>
  {
    if param !in GaussianEncoderInputs() then Fail(AssertionError)
    else if "X" !in otherShapes then Fail(KeyError("X"))
    else if |otherShapes["X"]| == 0 then Fail(IndexError)
    else
      var dX := otherShapes["X"][|otherShapes["X"]| - 1];
      if param == "w3" then Ok([dX, dHidden])
      else if param == "w4" || param == "w5" then Ok([dHidden, dZ])
      else if param == "b3" then Ok([dHidden])
      else if param == "b4" || param == "b5" then Ok([dZ])
      else Fail(Unsupported)
  }

  /** `NeuralGaussianTransform._compute_shape`: `(2,) + X_shape[:-1] + (d_z,)`. */
  function GaussianEncoderShape(xShape: Shape, dZ: int): (r: Shape)
    ensures |r| == Max(|xShape|, 1) + 1
    ensures r[0] == 2 && r[|r| - 1] == dZ
    ensures r[1..|r| - 1] == AllButLast(xShape)
  {
    [2] + AllButLast(xShape) + [dZ]
  }

  /** The weight and bias shapes of the Gaussian encoder, given a data shape
      whose last dimension is `d_x`. */
  lemma GaussianEncoderInputShapes(dHidden: int, dZ: int, xShape: Shape, others: map<string, Shape>, param: string)
    requires "X" in others && others["X"] == xShape && |xShape| > 0
    ensures var dX := xShape[|xShape| - 1];
            GaussianEncoderInputShape(dHidden, dZ, "w3", others) == Ok([dX, dHidden])
    ensures GaussianEncoderInputShape(dHidden, dZ, "w4", others) == Ok([dHidden, dZ])
    ensures GaussianEncoderInputShape(dHidden, dZ, "w5", others) == Ok([dHidden, dZ])
    ensures GaussianEncoderInputShape(dHidden, dZ, "b3", others) == Ok([dHidden])
    ensures GaussianEncoderInputShape(dHidden, dZ, "b4", others) == Ok([dZ])
    ensures GaussianEncoderInputShape(dHidden, dZ, "b5", others) == Ok([dZ])
    ensures GaussianEncoderInputShape(dHidden, dZ, "X", others) == Fail(Unsupported)
    ensures param !in GaussianEncoderInputs() ==> GaussianEncoderInputShape(dHidden, dZ, param, others) == Fail(AssertionError)
  {
  }

  /** Without a shape for `X`, every declared parameter fails on the lookup of
      `other_shapes["X"]`, before the branch on the parameter name. */
  lemma GaussianEncoderNeedsDataShape(dHidden: int, dZ: int, param: string, others: map<string, Shape>)
    requires param in GaussianEncoderInputs() && "X" !in others
    ensures GaussianEncoderInputShape(dHidden, dZ, param, others) == Fail(KeyError("X"))
  {
  }

  /** `neural_gaussian` asks the encoder for the requested shape with 2 prepended. */
  function AugmentedShape(requested: Option<Shape>): (r: Option<Shape>)
    ensures r.Some? <==> requested.Some?
    ensures r.Some? ==> |r.value| == |requested.value| + 1 && r.value[0] == 2 && r.value[1..] == requested.value
  {
    if requested.Some? then Some([2] + requested.value) else None
  }

  /** The encoder's computed shape agrees with the augmented request exactly
      when the requested latent shape is `X_shape[:-1] + (d_z,)`. */
  lemma AugmentedRequestConsistent(xShape: Shape, dZ: int, requested: Shape)
    ensures Some(GaussianEncoderShape(xShape, dZ)) == AugmentedShape(Some(requested)) <==>
            requested == AllButLast(xShape) + [dZ]
  {
    var r := GaussianEncoderShape(xShape, dZ);
    if Some(r) == AugmentedShape(Some(requested)) {
      assert requested == r[1..];
      assert r[1..] == AllButLast(xShape) + [dZ];
    }
    if requested == AllButLast(xShape) + [dZ] {
      assert [2] + requested == r;
    }
  }

  /** The shape of the Gaussian `neural_gaussian` returns: one half of the
      stacked encoder output (`unpackRV` splits it along the first axis). */
  function NeuralGaussianShape(xShape: Shape, dZ: int): (r: Shape)
    ensures r == AllButLast(xShape) + [dZ]
    ensures [2] + r == GaussianEncoderShape(xShape, dZ)
  {
    var stacked := GaussianEncoderShape(xShape, dZ);
    assert stacked[1..] == AllButLast(xShape) + [dZ];
    stacked[1..]
  }

  // ---------------------------------------------------------------------
  // Bernoulli encoder

  /** `NeuralBernoulliTransform.inputs()`. */
  function BernoulliEncoderInputs(): map<string, Initializer>
  {
    map["z" := NoInitializer, "w1" := InitWeights, "w2" := InitWeights,
        "b1" := InitZeroVector, "b2" := InitZeroVector]
  }

  /** `NeuralBernoulliTransform.__init__` stores `d_z = z.shape[-1]`. */
  function BernoulliEncoderLatentWidth(zShape: Shape): (r: Outcome<int>)
    ensures r.Ok? <==> |zShape| > 0
    ensures r.Ok? ==> r.value == zShape[|zShape| - 1]
    ensures r.Fail? ==> r.error == IndexError
  {
    if |zShape| == 0 then Fail(IndexError) else Ok(zShape[|zShape| - 1])
  }

  /** `NeuralBernoulliTransform._input_shape(param)`. */
  function BernoulliEncoderInputShape(dZ: int, dHidden: int, dX: int, param: string): Outcome<Shape>
  {
    if param !in BernoulliEncoderInputs() then Fail(AssertionError)
    else if param == "w1" then Ok([dZ, dHidden])
    else if param == "w2" then Ok([dHidden, dX])
    else if param == "b1" then Ok([dHidden])
    else if param == "b2" then Ok([dX])
    else Fail(Unsupported)
  }

  /** `NeuralBernoulliTransform._compute_shape`: `z_shape[:-1] + (d_x,)`. */
  function BernoulliEncoderShape(zShape: Shape, dX: int): (r: Shape)
    ensures |r| == Max(|zShape|, 1)
    ensures r[|r| - 1] == dX
    ensures |zShape| > 0 ==> r[..|r| - 1] == zShape[..|zShape| - 1]
  {
    AllButLast(zShape) + [dX]
  }

  lemma BernoulliEncoderInputShapes(dZ: int, dHidden: int, dX: int, param: string)
    ensures BernoulliEncoderInputShape(dZ, dHidden, dX, "w1") == Ok([dZ, dHidden])
    ensures BernoulliEncoderInputShape(dZ, dHidden, dX, "w2") == Ok([dHidden, dX])
    ensures BernoulliEncoderInputShape(dZ, dHidden, dX, "b1") == Ok([dHidden])
    ensures BernoulliEncoderInputShape(dZ, dHidden, dX, "b2") == Ok([dX])
    ensures BernoulliEncoderInputShape(dZ, dHidden, dX, "z") == Fail(Unsupported)
    ensures param !in BernoulliEncoderInputs() ==> BernoulliEncoderInputShape(dZ, dHidden, dX, param) == Fail(AssertionError)
  {
  }

  /** The Bernoulli encoder keeps every dimension of `z` but the last, which it
      replaces by `d_x`; its weight shapes chain `d_z -> d_hidden -> d_x`. */
  lemma BernoulliEncoderReplacesLast(zShape: Shape, dHidden: int, dX: int)
    requires |zShape| > 0
    ensures var dZ := BernoulliEncoderLatentWidth(zShape).value;
            var out := BernoulliEncoderShape(zShape, dX);
            |out| == |zShape| &&
            (forall i :: 0 <= i < |zShape| - 1 ==> out[i] == zShape[i]) &&
            BernoulliEncoderInputShape(dZ, dHidden, dX, "w1").value[0] == zShape[|zShape| - 1] &&
            BernoulliEncoderInputShape(dZ, dHidden, dX, "w2").value[1] == out[|out| - 1]
  {
    var out := BernoulliEncoderShape(zShape, dX);
    assert forall i :: 0 <= i < |zShape| - 1 ==> out[i] == out[..|out| - 1][i];
  }

  // ---------------------------------------------------------------------
  // Both encoders

  /** Only the data input has no initializer; every weight and bias has one,
      and the biases are the ones built by `init_zero_vector`. */
  lemma InitializerTables()
    ensures forall p :: p in GaussianEncoderInputs() ==> (GaussianEncoderInputs()[p] == NoInitializer <==> p == "X")
    ensures forall p :: p in BernoulliEncoderInputs() ==> (BernoulliEncoderInputs()[p] == NoInitializer <==> p == "z")
    ensures forall p :: p in GaussianEncoderInputs() && GaussianEncoderInputs()[p] == InitZeroVector ==> p in {"b3", "b4", "b5"}
    ensures forall p :: p in BernoulliEncoderInputs() && BernoulliEncoderInputs()[p] == InitZeroVector ==> p in {"b1", "b2"}
  {
  }

  /** Every parameter initialised by `init_zero_vector` gets a rank-1 shape, so
      that function's `assert(len(shape)==1)` holds. */
  lemma BiasShapesAreVectors(dHidden: int, dZ: int, dX: int, others: map<string, Shape>, p: string)
    requires "X" in others && |others["X"]| > 0
    ensures p in GaussianEncoderInputs() && GaussianEncoderInputs()[p] == InitZeroVector ==>
            GaussianEncoderInputShape(dHidden, dZ, p, others).Ok? && |GaussianEncoderInputShape(dHidden, dZ, p, others).value| == 1
    ensures p in BernoulliEncoderInputs() && BernoulliEncoderInputs()[p] == InitZeroVector ==>
            BernoulliEncoderInputShape(dZ, dHidden, dX, p).Ok? && |BernoulliEncoderInputShape(dZ, dHidden, dX, p).value| == 1
  {
    InitializerTables();
  }
}
