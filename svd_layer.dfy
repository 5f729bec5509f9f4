/**
 * The `SVDAlign` Keras layer as an object: its output shape, its three
 * trainable scalars (created by `build`) and the batched forward pass.
 */
module SvdLayer {
  import opened LinAlg
  import opened Wrappers
  import opened Alignment
  import Generator

  /** Initial values given to the trainable scalars by `build`. */
  const InitialShift: real := 0.25
  const InitialA: real := 1.0
  const InitialB: real := 0.0

  /** What the model's input layer enforces: 200 rows of 13 channels. */
  ghost predicate WellShaped(sample: Sample) {
    Shaped(sample, Rows, Channels)
  }

  /** The index of the first sample of a batch that is not 200 x 13. */
  datatype ShapeError = BadSample(index: nat)

  /** The first index in [from, |batch|) whose sample is not 200 x 13, if any. */
  function FirstBadSample(batch: seq<Sample>, from: nat): (r: Option<nat>)
    requires from <= |batch|
    ensures r.None? <==> forall k :: from <= k < |batch| ==> WellShaped(batch[k])
    ensures r.Some? ==> from <= r.value < |batch| && !WellShaped(batch[r.value])
                        && forall k :: from <= k < r.value ==> WellShaped(batch[k])
    decreases |batch| - from
  {
    if from == |batch| then None
    else if |batch[from]| != Rows || exists i :: 0 <= i < |batch[from]| && |batch[from][i]| != Channels
    then Some(from)
    else FirstBadSample(batch, from + 1)
  }

  class SvdAlign {
    /** `output_dim`, reported as the layer's output shape. */
    const outputDim: (nat, nat)
    /** Whether `build` has created the trainable scalars. */
    var built: bool
    var outwardShift: real
    var a: real
    var b: real

    constructor (outputDim: (nat, nat))
      ensures this.outputDim == outputDim && !built
    {
      this.outputDim := outputDim;
      built := false;
    }

    /** Creates the weights: outward shift 0.25, a = 1 and b = 0. */
    method Build()
      modifies this
      ensures built
      ensures outwardShift == InitialShift && a == InitialA && b == InitialB
    {
      outwardShift := InitialShift;
      a := InitialA;
      b := InitialB;
      built := true;
    }

    function CurrentParams(): (p: Params)
      reads this
      ensures p.outwardShift == outwardShift && p.a == a && p.b == b
    {
      Params(outwardShift, a, b)
    }

    /**
     * The forward pass over a batch.  svds[k] stands for `tf.linalg.svd` of
     * sample k's covariance.  A sample that is not 200 x 13 is rejected.
     */
    function Call(batch: seq<Sample>, svds: seq<Svd>): (r: Result<seq<seq<V3>>, ShapeError>)
      reads this
      requires built
      requires |svds| == |batch|
      requires forall k :: 0 <= k < |batch| && WellShaped(batch[k]) ==>
                 IsSvd(CrossCovariance(CurrentParams(), batch[k]), svds[k])
      ensures r.Success? <==> forall k :: 0 <= k < |batch| ==> WellShaped(batch[k])
      ensures r.Failure? ==> r.error.index < |batch| && !WellShaped(batch[r.error.index])
      ensures r.Success? ==> |r.value| == |batch| && forall k :: 0 <= k < |batch| ==>
                |r.value[k]| == Rows &&
                r.value[k] == AlignSample(CurrentParams(), batch[k], svds[k])
    {
      match FirstBadSample(batch, 0)
      case Some(k) => Failure(BadSample(k))
      case None =>
        var p := CurrentParams();
        Success(seq(|batch|, k requires 0 <= k < |batch| && WellShaped(batch[k])
                                       && IsSvd(CrossCovariance(p, batch[k]), svds[k]) =>
                               AlignSample(p, batch[k], svds[k])))
    }
  }

  /**
   * Every sample of a batch that `Align_Generator` assembles is 200 x 13, so
   * the layer's shape check passes on the whole batch.
   */
  lemma GeneratorFeedsLayer(features: Generator.Tensor, preds: seq<seq<real>>, rotate: Generator.Rotator)
    requires Generator.BatchSpec(features, preds, rotate).Success?
    ensures var input := Generator.BatchSpec(features, preds, rotate).value.input;
            |input| == |features| && forall k :: 0 <= k < |input| ==> WellShaped(input[k])
    ensures FirstBadSample(Generator.BatchSpec(features, preds, rotate).value.input, 0).None?
  {
    Generator.BatchShape(features, preds, rotate);
  }
}
