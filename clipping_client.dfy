/** The clipping client used for client-level differential privacy: before a
    model update is sent to the server it is flat-clipped to the server's
    clipping bound, and a clipping bit tells an adaptive server whether the
    update was within the bound.

    Weights are lists of layers, each layer flattened to a sequence of reals.
    The square root behind the Frobenius norm is a function value `root`;
    properties that need it to be a true square root say so with
    `IsSquareRoot(root)`. */
module Clipping {
  import opened Common

  type Layer = seq<real>
  type Weights = seq<Layer>

  // ---------------------------------------------------------------------------
  // Arithmetic

  /** `x * x`. Squares and products that cross lemma boundaries are named, so
      that equal arguments give equal terms without arithmetic reasoning. */
  function Square(x: real): real
  {
    x * x
  }

  /** `k * x`. */
  function Times(k: real, x: real): real
  {
    k * x
  }

  lemma SquareNonNegative(x: real)
    ensures 0.0 <= Square(x)
  {
  }

  /** Squaring is strictly increasing on the non-negative reals. */
  lemma SquareStrictlyIncreasing(a: real, b: real)
    requires 0.0 <= a < b
    ensures Square(a) < Square(b)
  {
    calc {
      Square(a);
      a * a;
    <= a * b;
    < b * b;
      Square(b);
    }
  }

  /** Between non-negative reals, comparing squares compares the numbers. */
  lemma SquareOrder(a: real, b: real)
    requires 0.0 <= a && 0.0 <= b
    ensures a <= b <==> Square(a) <= Square(b)
  {
    if a <= b {
      if a < b { SquareStrictlyIncreasing(a, b); }
    } else {
      SquareStrictlyIncreasing(b, a);
    }
  }

  // ---------------------------------------------------------------------------
  // Norms

  /** The squared Euclidean norm of one layer. */
  function LayerSquaredNorm(layer: Layer): real
  {
    if layer == [] then 0.0 else Square(layer[0]) + LayerSquaredNorm(layer[1..])
  }

  /** The sum of the layers' squared norms, layer by layer. */
  function SquaredNorm(w: Weights): real
  {
    if w == [] then 0.0 else LayerSquaredNorm(w[0]) + SquaredNorm(w[1..])
  }

  lemma {:induction false} LayerSquaredNormNonNegative(layer: Layer)
    ensures 0.0 <= LayerSquaredNorm(layer)
  {
    if layer != [] {
      SquareNonNegative(layer[0]);
      LayerSquaredNormNonNegative(layer[1..]);
    }
  }

  lemma {:induction false} SquaredNormNonNegative(w: Weights)
    ensures 0.0 <= SquaredNorm(w)
  {
    if w != [] {
      LayerSquaredNormNonNegative(w[0]);
      SquaredNormNonNegative(w[1..]);
    }
  }

  /** `root` is the square root on the non-negative reals. */
  ghost predicate IsSquareRoot(root: real -> real)
  {
    forall x :: 0.0 <= x ==> 0.0 <= root(x) && Square(root(x)) == x
  }

  /** `calculate_parameters_norm`: the Frobenius norm of the whole network,
      the square root of the sum of the layers' squared norms. */
  function ParametersNorm(w: Weights, root: real -> real): (r: real)
    ensures IsSquareRoot(root) ==> 0.0 <= r && Square(r) == SquaredNorm(w)
  {
    SquaredNormNonNegative(w);
    root(SquaredNorm(w))
  }

  /** The norm of an empty parameter list is zero. */
  lemma NormOfNoLayers(root: real -> real)
    requires IsSquareRoot(root)
    ensures ParametersNorm([], root) == 0.0
  {
    NormFromSquare(ParametersNorm([], root), 0.0);
  }

  /** The network's norm is the norm of all its entries taken as one vector:
      summing layer norms loses nothing. */
  function Flatten(w: Weights): Layer
  {
    if w == [] then [] else w[0] + Flatten(w[1..])
  }

  lemma {:induction false} LayerSquaredNormAppend(a: Layer, b: Layer)
    ensures LayerSquaredNorm(a + b) == LayerSquaredNorm(a) + LayerSquaredNorm(b)
  {
    if a == [] {
      assert a + b == b;
    } else {
      assert (a + b)[0] == a[0];
      assert (a + b)[1..] == a[1..] + b;
      LayerSquaredNormAppend(a[1..], b);
    }
  }

  lemma {:induction false} SquaredNormFlatten(w: Weights)
    ensures SquaredNorm(w) == LayerSquaredNorm(Flatten(w))
  {
    if w != [] {
      SquaredNormFlatten(w[1..]);
      LayerSquaredNormAppend(w[0], Flatten(w[1..]));
    }
  }

  // ---------------------------------------------------------------------------
  // Scaling

  /** `f` applied to every entry of a layer. */
  function MapLayer(layer: Layer, f: real -> real): (r: Layer)
    ensures |r| == |layer|
  {
    if layer == [] then [] else [f(layer[0])] + MapLayer(layer[1..], f)
  }

  /** `f` applied to every entry of every layer. */
  function MapWeights(w: Weights, f: real -> real): (r: Weights)
    ensures |r| == |w| && forall i :: 0 <= i < |w| ==> |r[i]| == |w[i]|
  {
    if w == [] then [] else [MapLayer(w[0], f)] + MapWeights(w[1..], f)
  }

  lemma {:induction false} MapLayerEntries(layer: Layer, f: real -> real)
    ensures forall j :: 0 <= j < |layer| ==> MapLayer(layer, f)[j] == f(layer[j])
  {
    if layer != [] {
      MapLayerEntries(layer[1..], f);
      assert MapLayer(layer, f)[1..] == MapLayer(layer[1..], f);
    }
  }

  lemma {:induction false} MapWeightsEntries(w: Weights, f: real -> real)
    ensures forall i, j :: 0 <= i < |w| && 0 <= j < |w[i]| ==> MapWeights(w, f)[i][j] == f(w[i][j])
  {
    if w != [] {
      MapWeightsEntries(w[1..], f);
      MapLayerEntries(w[0], f);
      assert MapWeights(w, f)[1..] == MapWeights(w[1..], f);
    }
  }

  lemma {:induction false} MapLayerAppend(a: Layer, b: Layer, f: real -> real)
    ensures MapLayer(a + b, f) == MapLayer(a, f) + MapLayer(b, f)
  {
    if a == [] {
      assert a + b == b;
    } else {
      assert (a + b)[0] == a[0];
      assert (a + b)[1..] == a[1..] + b;
      MapLayerAppend(a[1..], b, f);
    }
  }

  lemma {:induction false} FlattenMap(w: Weights, f: real -> real)
    ensures Flatten(MapWeights(w, f)) == MapLayer(Flatten(w), f)
  {
    if w != [] {
      FlattenMap(w[1..], f);
      MapLayerAppend(w[0], Flatten(w[1..]), f);
    }
  }

  function ScaleLayer(layer: Layer, c: real): (r: Layer)
    ensures |r| == |layer|
  {
    MapLayer(layer, x => x * c)
  }

  /** Every entry of every layer multiplied by the same scalar. */
  function Scale(w: Weights, c: real): (r: Weights)
    ensures |r| == |w| && forall i :: 0 <= i < |w| ==> |r[i]| == |w[i]|
  {
    MapWeights(w, x => x * c)
  }

  lemma ScaleEntries(w: Weights, c: real)
    ensures forall i, j :: 0 <= i < |w| && 0 <= j < |w[i]| ==> Scale(w, c)[i][j] == w[i][j] * c
  {
    MapWeightsEntries(w, x => x * c);
  }

  lemma FlattenScale(w: Weights, c: real)
    ensures Flatten(Scale(w, c)) == ScaleLayer(Flatten(w), c)
  {
    FlattenMap(w, x => x * c);
  }

  /** (a c)^2 + c^2 t == c^2 (a^2 + t) */
  lemma ScaledSquareStep(a: real, c: real, t: real)
    ensures Square(a * c) + Times(Square(c), t) == Times(Square(c), Square(a) + t)
  {
  }

  lemma {:induction false} LayerSquaredNormScale(layer: Layer, c: real)
    ensures LayerSquaredNorm(ScaleLayer(layer, c)) == Times(Square(c), LayerSquaredNorm(layer))
  {
    if layer != [] {
      var s := ScaleLayer(layer, c);
      assert s[0] == layer[0] * c;
      assert s[1..] == ScaleLayer(layer[1..], c);
      LayerSquaredNormScale(layer[1..], c);
      ScaledSquareStep(layer[0], c, LayerSquaredNorm(layer[1..]));
    }
  }

  /** Scaling every entry by `c` scales the squared norm by `c * c`. */
  lemma SquaredNormScale(w: Weights, c: real)
    ensures SquaredNorm(Scale(w, c)) == Times(Square(c), SquaredNorm(w))
  {
    SquaredNormFlatten(Scale(w, c));
    FlattenScale(w, c);
    LayerSquaredNormScale(Flatten(w), c);
    SquaredNormFlatten(w);
  }

  /** Python's `min(a, b)` on floats. */
  function Min(a: real, b: real): (r: real)
    ensures r <= a && r <= b && (r == a || r == b)
  {
    if b < a then b else a
  }

  // ---------------------------------------------------------------------------
  // Clipping

  /** `clip_parameters`: flat clipping to the bound, with the clipping bit.
      Within the bound the parameters are returned as they are, with bit 1.0
      for an adaptive client and 0.0 otherwise; beyond it every layer is
      scaled by min(1, bound / norm) and the bit is 0.0. A zero norm beyond
      the bound (only possible with a negative bound) makes the scale
      non-finite. */
  function ClipParameters(w: Weights, clippingBound: Option<real>, adaptiveClipping: Option<bool>, root: real -> real)
    : (r: Result<(Weights, real)>)
    ensures clippingBound.None? || adaptiveClipping.None? ==> r == Err(AssertionError)
    ensures r.Ok? ==> |r.value.0| == |w| && forall i :: 0 <= i < |w| ==> |r.value.0[i]| == |w[i]|
    ensures r.Ok? ==> (r.value.1 == 1.0 <==> adaptiveClipping.value && ParametersNorm(w, root) <= clippingBound.value)
    ensures r.Ok? ==> (r.value.1 == 0.0 || r.value.1 == 1.0)
  {
    if clippingBound.None? || adaptiveClipping.None? then Err(AssertionError)
    else
      var norm := ParametersNorm(w, root);
      var bound := clippingBound.value;
      if norm <= bound then
        Ok((w, if adaptiveClipping.value then 1.0 else 0.0))
      else if norm == 0.0 then
        Err(NonFiniteScale)
      else
        Ok((Scale(w, Min(1.0, bound / norm)), 0.0))
  }

  /** A client that does not clip adaptively always reports bit 0.0, whichever
      branch ran, so the bit reveals nothing about the update's norm. */
  lemma NonAdaptiveBitIsZero(w: Weights, clippingBound: Option<real>, root: real -> real)
    ensures var r := ClipParameters(w, clippingBound, Some(false), root);
      r.Ok? ==> r.value.1 == 0.0
  {
  }

  /** Within the bound the parameters come back unchanged. */
  lemma WithinBoundUnchanged(w: Weights, bound: real, adaptive: bool, root: real -> real)
    requires ParametersNorm(w, root) <= bound
    ensures ClipParameters(w, Some(bound), Some(adaptive), root) == Ok((w, if adaptive then 1.0 else 0.0))
  {
  }

  /** Beyond a non-negative bound every entry is multiplied by the same factor
      bound / norm, which lies in [0, 1), and the result has norm exactly the
      bound; in every case the clipped norm is at most the bound. */
  lemma ClippedNormWithinBound(w: Weights, bound: real, adaptive: bool, root: real -> real)
    requires IsSquareRoot(root) && 0.0 <= bound
    ensures var r := ClipParameters(w, Some(bound), Some(adaptive), root);
      && r.Ok?
      && SquaredNorm(r.value.0) <= Square(bound)
      && ParametersNorm(r.value.0, root) <= bound
      && (bound < ParametersNorm(w, root) ==>
            var c := bound / ParametersNorm(w, root);
            && 0.0 <= c < 1.0
            && r.value.0 == Scale(w, c)
            && r.value.1 == 0.0
            && ParametersNorm(r.value.0, root) == bound)
  {
    var norm := ParametersNorm(w, root);
    var out := ClipParameters(w, Some(bound), Some(adaptive), root).value.0;
    if norm <= bound {
      SquareOrder(norm, bound);
    } else {
      var c := bound / norm;
      QuotientBelowOne(bound, norm);
      assert Min(1.0, c) == c;
      assert out == Scale(w, c);
      SquaredNormScale(w, c);
      RescaledSquare(bound, norm, SquaredNorm(w));
      assert SquaredNorm(out) == Square(bound);
    }
    NormFromSquare(ParametersNorm(out, root), bound);
  }

  /** Clipping is idempotent: what one clip returns is within the bound, so a
      second clip returns it unchanged. */
  lemma ClipTwice(w: Weights, bound: real, adaptive: bool, root: real -> real)
    requires IsSquareRoot(root) && 0.0 <= bound
    ensures var once := ClipParameters(w, Some(bound), Some(adaptive), root);
      && once.Ok?
      && ClipParameters(once.value.0, Some(bound), Some(adaptive), root)
         == Ok((once.value.0, if adaptive then 1.0 else 0.0))
  {
    ClippedNormWithinBound(w, bound, adaptive, root);
  }

  /** (bound / norm)^2 * norm^2 == bound^2. */
  lemma RescaledSquare(bound: real, norm: real, sq: real)
    requires 0.0 < norm && sq == Square(norm)
    ensures Times(Square(bound / norm), sq) == Square(bound)
  {
    var c := bound / norm;
    assert c * norm == bound;
    calc {
      Times(Square(c), sq);
      c * c * (norm * norm);
      (c * norm) * (c * norm);
      bound * bound;
    }
  }

  /** A non-negative number is compared with a non-negative bound exactly as
      its square is compared with the bound's square. */
  lemma NormFromSquare(n: real, bound: real)
    requires 0.0 <= n && 0.0 <= bound
    ensures Square(n) <= Square(bound) ==> n <= bound
    ensures Square(n) == Square(bound) ==> n == bound
  {
    SquareOrder(n, bound);
    SquareOrder(bound, n);
  }

  lemma QuotientBelowOne(a: real, b: real)
    requires 0.0 <= a < b
    ensures 0.0 <= a / b < 1.0
  {
    assert a / b * b == a;
  }

  // ---------------------------------------------------------------------------
  // Weight updates

  /** Element-wise difference of two layers of the same size. */
  function LayerDifference(newLayer: Layer, oldLayer: Layer): (r: Layer)
    requires |newLayer| == |oldLayer|
    ensures |r| == |newLayer|
  {
    seq(|newLayer|, j requires 0 <= j < |newLayer| => newLayer[j] - oldLayer[j])
  }

  /** Element-wise sum of two layers of the same size. */
  function LayerSum(a: Layer, b: Layer): (r: Layer)
    requires |a| == |b|
    ensures |r| == |a|
  {
    seq(|a|, j requires 0 <= j < |a| => a[j] + b[j])
  }

  predicate SameShapes(a: Weights, b: Weights)
  {
    |a| == |b| && forall i :: 0 <= i < |a| ==> |a[i]| == |b[i]|
  }

  /** The layer-wise update `new - old`, layers paired in order; element-wise
      arithmetic on layers of different sizes raises. */
  function WeightUpdate(oldWeights: Weights, newWeights: Weights): (r: Result<Weights>)
    requires |oldWeights| == |newWeights|
    ensures r.Ok? <==> SameShapes(oldWeights, newWeights)
    ensures r.Err? ==> r.error == ShapeError
  {
    if !SameShapes(oldWeights, newWeights) then Err(ShapeError)
    else Ok(seq(|newWeights|, i requires 0 <= i < |newWeights| => LayerDifference(newWeights[i], oldWeights[i])))
  }

  /** Adding the update back onto the old weights gives the new weights. */
  function ApplyUpdate(oldWeights: Weights, update: Weights): (r: Weights)
    requires SameShapes(oldWeights, update)
  {
    seq(|oldWeights|, i requires 0 <= i < |oldWeights| => LayerSum(oldWeights[i], update[i]))
  }

  lemma UpdateRoundTrip(oldWeights: Weights, newWeights: Weights)
    requires SameShapes(oldWeights, newWeights)
    ensures WeightUpdate(oldWeights, newWeights).Ok?
    ensures var u := WeightUpdate(oldWeights, newWeights).value;
      SameShapes(oldWeights, u) && ApplyUpdate(oldWeights, u) == newWeights
  {
    var u := WeightUpdate(oldWeights, newWeights).value;
    assert SameShapes(oldWeights, u);
    var a := ApplyUpdate(oldWeights, u);
    assert |a| == |newWeights|;
    forall i | 0 <= i < |a|
      ensures a[i] == newWeights[i]
    {
      assert |a[i]| == |newWeights[i]|;
    }
  }

  /** `compute_weight_update_and_clip`: the initial weights must be set and
      have as many layers as the new parameters; the layer-wise update is then
      clipped. The update clipped is the one that, added back onto the initial
      weights, gives the new parameters. */
  function ComputeWeightUpdateAndClip(
    parameters: Weights, initialWeights: Option<Weights>,
    clippingBound: Option<real>, adaptiveClipping: Option<bool>, root: real -> real
  ): (r: Result<(Weights, real)>)
    ensures initialWeights.None? ==> r == Err(AssertionError)
    ensures initialWeights.Some? && |parameters| != |initialWeights.value| ==> r == Err(AssertionError)
    ensures initialWeights.Some? && |parameters| == |initialWeights.value| && !SameShapes(initialWeights.value, parameters)
      ==> r == Err(ShapeError)
    ensures initialWeights.Some? && SameShapes(initialWeights.value, parameters) ==>
      var u := WeightUpdate(initialWeights.value, parameters).value;
      && SameShapes(initialWeights.value, u)
      && ApplyUpdate(initialWeights.value, u) == parameters
      && r == ClipParameters(u, clippingBound, adaptiveClipping, root)
  {
    if initialWeights.None? then Err(AssertionError)
    else if |parameters| != |initialWeights.value| then Err(AssertionError)
    else
      var update :- WeightUpdate(initialWeights.value, parameters);
      UpdateRoundTrip(initialWeights.value, parameters);
      ClipParameters(update, clippingBound, adaptiveClipping, root)
  }

  /** All-zero weights of the given shapes. */
  function Zeros(w: Weights): (r: Weights)
    ensures SameShapes(w, r)
  {
    seq(|w|, i requires 0 <= i < |w| => seq(|w[i]|, j => 0.0))
  }

  lemma {:induction false} ZerosHaveNormZero(w: Weights)
    ensures SquaredNorm(Zeros(w)) == 0.0
  {
    if w != [] {
      var z := Zeros(w);
      assert z[1..] == Zeros(w[1..]);
      ZerosHaveNormZero(w[1..]);
      ZeroLayerNormZero(|w[0]|);
      assert z[0] == seq(|w[0]|, j => 0.0);
    }
  }

  lemma {:induction false} ZeroLayerNormZero(n: nat)
    ensures LayerSquaredNorm(seq(n, j => 0.0)) == 0.0
  {
    if n > 0 {
      assert seq(n, j => 0.0)[1..] == seq(n - 1, j => 0.0);
      ZeroLayerNormZero(n - 1);
    }
  }

  /** A client that sends back the weights it received sends a zero update:
      it is within any non-negative bound, so it is not scaled, and its bit is
      1.0 exactly when the client clips adaptively. */
  lemma UnchangedWeightsSendZeroUpdate(w: Weights, bound: real, adaptive: bool, root: real -> real)
    requires IsSquareRoot(root) && 0.0 <= bound
    ensures ComputeWeightUpdateAndClip(w, Some(w), Some(bound), Some(adaptive), root)
            == Ok((Zeros(w), if adaptive then 1.0 else 0.0))
  {
    var u := WeightUpdate(w, w);
    assert u.Ok?;
    forall i | 0 <= i < |w|
      ensures u.value[i] == Zeros(w)[i]
    {
      assert u.value[i] == LayerDifference(w[i], w[i]);
    }
    assert u.value == Zeros(w);
    ZerosHaveNormZero(w);
    NormFromSquare(ParametersNorm(Zeros(w), root), bound);
    SquareNonNegative(bound);
  }

  // ---------------------------------------------------------------------------
  // The client

  /** How the client's model last received server weights: by the full
      initialisation of the first fitting round, or by the exchanger's pull. */
  datatype ModelLoad = NotLoaded | FullyInitialised(weights: Weights) | Pulled(weights: Weights)

  class NumpyClippingClient {
    var clippingBound: Option<real>
    var adaptiveClipping: Option<bool>
    var initialWeights: Option<Weights>
    var lastLoad: ModelLoad

    constructor ()
      ensures clippingBound.None? && adaptiveClipping.None? && initialWeights.None? && lastLoad == NotLoaded
    {
      clippingBound := None;
      adaptiveClipping := None;
      initialWeights := None;
      lastLoad := NotLoaded;
    }

    /** `setup_client`: records whether clipping is adaptive. */
    method SetupClient(adaptive: bool)
      modifies this
      ensures adaptiveClipping == Some(adaptive)
      ensures clippingBound == old(clippingBound) && initialWeights == old(initialWeights) && lastLoad == old(lastLoad)
    {
      adaptiveClipping := Some(adaptive);
    }

    /** `set_parameters`, given what the packing exchanger unpacks (the server
        weights and the clipping bound) and what it pushes from the freshly
        initialised model. The bound is always stored. In the first fitting
        round the whole model is initialised and the initial weights are those
        pushed from it; otherwise the initial weights are the server weights as
        received, and they are pulled into the model. */
    method SetParameters(serverWeights: Weights, bound: real, currentServerRound: int, fittingRound: bool, pushedAfterInit: Weights)
      modifies this
      ensures clippingBound == Some(bound)
      ensures currentServerRound == 1 && fittingRound ==>
        initialWeights == Some(pushedAfterInit) && lastLoad == FullyInitialised(serverWeights)
      ensures !(currentServerRound == 1 && fittingRound) ==>
        initialWeights == Some(serverWeights) && lastLoad == Pulled(serverWeights)
      ensures adaptiveClipping == old(adaptiveClipping)
    {
      clippingBound := Some(bound);
      if currentServerRound == 1 && fittingRound {
        lastLoad := FullyInitialised(serverWeights);
        initialWeights := Some(pushedAfterInit);
      } else {
        initialWeights := Some(serverWeights);
        lastLoad := Pulled(serverWeights);
      }
    }

    /** `get_parameters` before packing: the clipped update of the weights the
        exchanger pushes from the model, and the clipping bit. */
    function GetParameters(pushed: Weights, root: real -> real): (r: Result<(Weights, real)>)
      reads this
      ensures initialWeights.None? ==> r == Err(AssertionError)
      ensures r.Ok? ==> clippingBound.Some? && adaptiveClipping.Some? && |r.value.0| == |pushed|
    {
      ComputeWeightUpdateAndClip(pushed, initialWeights, clippingBound, adaptiveClipping, root)
    }
  }
}
