/**
 * `p2p_rmsd_loss`: the point-to-point root-mean-square deviation between the
 * ground-truth positions of xyz2 and the aligned positions, averaged over
 * the batch.
 */
module Loss {
  import opened LinAlg
  import opened Alignment

  /** Both batches have the same number of samples, and matching samples the same positive number of points. */
  ghost predicate SameShape(yTrue: seq<seq<V3>>, yPred: seq<seq<V3>>) {
    && |yTrue| == |yPred|
    && forall k :: 0 <= k < |yTrue| ==> |yTrue[k]| == |yPred[k]| > 0
  }

  ghost predicate AllNonNegative(s: seq<real>) {
    forall i :: 0 <= i < |s| ==> s[i] >= 0.0
  }

  /** `K.sum(K.square(yTrue - yPred), axis=2)` for one sample: the squared error of every point. */
  function PointErrors(t: seq<V3>, p: seq<V3>): (e: seq<real>)
    requires |t| == |p|
    ensures |e| == |t|
    ensures forall i :: 0 <= i < |e| ==> e[i] == Dist2(t[i], p[i])
    ensures AllNonNegative(e)
  {
    seq(|t|, i requires 0 <= i < |t| => Dist2(t[i], p[i]))
  }

  /** A sum of non-negative reals is non-negative. */
  lemma {:induction false} SumNonNegative(s: seq<real>)
    requires AllNonNegative(s)
    ensures Sum(s) >= 0.0
  {
    if s != [] {
      SumNonNegative(s[1..]);
    }
  }

  /** A sum of non-negative reals is zero exactly when every term is. */
  lemma {:induction false} SumZeroIff(s: seq<real>)
    requires AllNonNegative(s)
    ensures Sum(s) == 0.0 <==> forall i :: 0 <= i < |s| ==> s[i] == 0.0
  {
    if s != [] {
      SumZeroIff(s[1..]);
      SumNonNegative(s[1..]);
      assert forall i :: 1 <= i < |s| ==> s[i] == s[1..][i - 1];
    }
  }

  lemma DivNonNegative(x: real, n: real)
    requires x >= 0.0 && n > 0.0
    ensures x / n >= 0.0
    ensures x / n == 0.0 <==> x == 0.0
  {
  }

  /** `K.mean` over a non-empty sequence. */
  function Mean(s: seq<real>): real
    requires |s| > 0
  {
    Sum(s) / (|s| as real)
  }

  /** The mean of non-negative reals is non-negative, and zero exactly when every term is. */
  lemma MeanNonNegative(s: seq<real>)
    requires |s| > 0 && AllNonNegative(s)
    ensures Mean(s) >= 0.0
    ensures Mean(s) == 0.0 <==> forall i :: 0 <= i < |s| ==> s[i] == 0.0
  {
    SumNonNegative(s);
    SumZeroIff(s);
    DivNonNegative(Sum(s), |s| as real);
  }

  /** The mean squared distance of one sample (`K.mean(..., axis=1)`). */
  function MeanSquaredDistance(t: seq<V3>, p: seq<V3>): (r: real)
    requires |t| == |p| > 0
    ensures r >= 0.0
  {
    MeanNonNegative(PointErrors(t, p));
    Mean(PointErrors(t, p))
  }

  /** Every point error is zero exactly when the two point sequences are equal. */
  lemma PointErrorsZeroIff(t: seq<V3>, p: seq<V3>)
    requires |t| == |p|
    ensures (forall i :: 0 <= i < |t| ==> PointErrors(t, p)[i] == 0.0) <==> t == p
  {
    forall i | 0 <= i < |t|
      ensures PointErrors(t, p)[i] == 0.0 <==> t[i] == p[i]
    {
      Dist2ZeroIff(t[i], p[i]);
    }
    if forall i :: 0 <= i < |t| ==> PointErrors(t, p)[i] == 0.0 {
      assert forall i :: 0 <= i < |t| ==> t[i] == p[i];
    }
  }

  /** The mean squared distance vanishes exactly when the prediction is the ground truth. */
  lemma MeanSquaredDistanceZeroIff(t: seq<V3>, p: seq<V3>)
    requires |t| == |p| > 0
    ensures MeanSquaredDistance(t, p) == 0.0 <==> t == p
  {
    MeanNonNegative(PointErrors(t, p));
    PointErrorsZeroIff(t, p);
  }

  /** `K.sqrt` is not modelled as a function: root is any non-negative square root of x. */
  ghost predicate IsRoot(root: real, x: real) {
    root >= 0.0 && root * root == x
  }

  /** roots[k] is the square root of sample k's mean squared distance. */
  ghost predicate RootsOf(yTrue: seq<seq<V3>>, yPred: seq<seq<V3>>, roots: seq<real>)
    requires SameShape(yTrue, yPred)
  {
    && |roots| == |yTrue|
    && forall k :: 0 <= k < |roots| ==> IsRoot(roots[k], MeanSquaredDistance(yTrue[k], yPred[k]))
  }

  /** `p2p_rmsd_loss`: the batch mean of the per-sample root-mean-square deviations. */
  function P2pRmsdLoss(yTrue: seq<seq<V3>>, yPred: seq<seq<V3>>, roots: seq<real>): (loss: real)
    requires SameShape(yTrue, yPred) && |yTrue| > 0 && RootsOf(yTrue, yPred, roots)
    ensures loss >= 0.0
  {
    assert AllNonNegative(roots);
    MeanNonNegative(roots);
    Mean(roots)
  }

  /** A non-negative root is zero exactly when its square is. */
  lemma RootZeroIff(root: real, x: real)
    requires IsRoot(root, x)
    ensures root == 0.0 <==> x == 0.0
  {
    if root != 0.0 {
      ProductPositive(root, root, x);
    }
  }

  /** The loss is zero exactly when every predicted point equals its ground truth. */
  lemma LossZeroIff(yTrue: seq<seq<V3>>, yPred: seq<seq<V3>>, roots: seq<real>)
    requires SameShape(yTrue, yPred) && |yTrue| > 0 && RootsOf(yTrue, yPred, roots)
    ensures P2pRmsdLoss(yTrue, yPred, roots) == 0.0 <==> yTrue == yPred
  {
    assert AllNonNegative(roots);
    MeanNonNegative(roots);
    forall k | 0 <= k < |roots|
      ensures roots[k] == 0.0 <==> yTrue[k] == yPred[k]
    {
      RootZeroIff(roots[k], MeanSquaredDistance(yTrue[k], yPred[k]));
      MeanSquaredDistanceZeroIff(yTrue[k], yPred[k]);
    }
    if yTrue != yPred {
      var k :| 0 <= k < |yTrue| && yTrue[k] != yPred[k];
      assert roots[k] != 0.0;
    }
  }

  /** Moving truth and prediction by the same rigid transform leaves the error of every point unchanged. */
  lemma PointErrorsRigidInvariant(tr: RigidTransform, t: seq<V3>, p: seq<V3>)
    requires Orthogonal(tr.rot) && |t| == |p|
    ensures PointErrors(TransformAll(tr, t), TransformAll(tr, p)) == PointErrors(t, p)
  {
    forall i | 0 <= i < |t| {
      RigidPreservesDistance(tr, t[i], p[i]);
    }
  }

  /** ... and so the mean squared distance, the quantity the loss takes the root of. */
  lemma MeanSquaredDistanceRigidInvariant(tr: RigidTransform, t: seq<V3>, p: seq<V3>)
    requires Orthogonal(tr.rot) && |t| == |p| > 0
    ensures MeanSquaredDistance(TransformAll(tr, t), TransformAll(tr, p)) == MeanSquaredDistance(t, p)
  {
    PointErrorsRigidInvariant(tr, t, p);
  }
}
