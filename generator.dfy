/**
 * `Align_Generator`: the Keras `Sequence` that cuts the three filename lists
 * into batches and assembles, for one batch, the 13-channel input tensor of
 * the alignment layer and its label.
 */
module Generator {
  import opened Wrappers
  import Alignment

  /** A 2-D array, row by row: the same type as one sample of the alignment layer. */
  type Matrix = Alignment.Sample

  /** A 3-D array: one matrix per sample of the batch. */
  type Tensor = seq<Matrix>

  /** Rows of every feature file, prediction file and assembled sample. */
  const Rows: nat := Alignment.Rows

  /** Columns of the assembled input, one per channel of the alignment layer: the prediction and input columns 2..13. */
  const OutColumns: nat := Alignment.Channels

  /** Input columns 2..13 are copied, so a feature file needs at least 14 columns. */
  const MinFeatureColumns: nat := 14

  /** First column of xyz2 and of norm2 in a feature file. */
  const Xyz2Column: nat := 5
  const Norm2Column: nat := 11

  // ---------------------------------------------------------------------------
  // Batches of a filename list (`__len__` and the slices of `__getitem__`)

  function Min(a: int, b: int): int { if a <= b then a else b }

  /** `int(np.ceil(n / float(bs)))`. */
  function NumBatches(n: nat, bs: nat): (r: nat)
    requires bs > 0
    ensures r * bs >= n
    ensures r == 0 || (r - 1) * bs < n
  {
    (n + bs - 1) / bs
  }

  /** `s[idx * bs:(idx + 1) * bs]`, with Python's clamping at the end of the list. */
  function Window<T>(s: seq<T>, bs: nat, idx: nat): (w: seq<T>)
    ensures |w| <= bs
    ensures idx * bs <= |s| ==> |w| == Min(bs, |s| - idx * bs)
    ensures idx * bs >= |s| ==> w == []
    ensures forall i :: 0 <= i < |w| ==> idx * bs + i < |s| && w[i] == s[idx * bs + i]
  {
    var lo := Min(idx * bs, |s|);
    var hi := Min((idx + 1) * bs, |s|);
    assert (idx + 1) * bs == idx * bs + bs;
    s[lo..hi]
  }

  /** A window is non-empty exactly when its index is below the number of batches. */
  lemma WindowNonEmptyIff<T>(s: seq<T>, bs: nat, idx: nat)
    requires bs > 0
    ensures |Window(s, bs, idx)| > 0 <==> idx < NumBatches(|s|, bs)
  {
    var r := NumBatches(|s|, bs);
    if idx < r {
      assert idx <= r - 1;
      MulMonotone(idx, r - 1, bs);
    } else {
      MulMonotone(r, idx, bs);
    }
  }

  lemma MulMonotone(a: nat, b: nat, c: nat)
    requires a <= b
    ensures a * c <= b * c
  {
  }

  lemma MulSucc(a: nat, b: nat)
    ensures (a + 1) * b == a * b + b
  {
  }

  /** The concatenation of windows 0 .. k-1. */
  function Concat<T>(s: seq<T>, bs: nat, k: nat): seq<T> {
    if k == 0 then [] else Concat(s, bs, k - 1) + Window(s, bs, k - 1)
  }

  /** The first k windows are exactly the prefix of length min(k * bs, |s|). */
  lemma {:induction false} ConcatIsPrefix<T>(s: seq<T>, bs: nat, k: nat)
    ensures Concat(s, bs, k) == s[..Min(k * bs, |s|)]
  {
    if k > 0 {
      var j := k - 1;
      ConcatIsPrefix(s, bs, j);
      MulSucc(j, bs);
      var lo, hi := Min(j * bs, |s|), Min(k * bs, |s|);
      assert lo <= hi;
      assert Window(s, bs, j) == s[lo..hi];
      assert s[..lo] + s[lo..hi] == s[..hi];
    }
  }

  /** The windows of all batches, in order, make up the whole list. */
  lemma WindowsCoverList<T>(s: seq<T>, bs: nat)
    requires bs > 0
    ensures Concat(s, bs, NumBatches(|s|, bs)) == s
  {
    ConcatIsPrefix(s, bs, NumBatches(|s|, bs));
  }

  /** Item k lies in window k / bs, at position k % bs. */
  lemma WindowOfItem<T>(s: seq<T>, bs: nat, k: nat)
    requires bs > 0 && k < |s|
    ensures k % bs < |Window(s, bs, k / bs)| && Window(s, bs, k / bs)[k % bs] == s[k]
  {
    var q := k / bs;
    assert q * bs + k % bs == k;
    MulMonotone(q, q, bs);
  }

  /** Every item of an earlier window comes before every item of a later one: the windows are disjoint. */
  lemma WindowsDisjoint<T>(s: seq<T>, bs: nat, i: nat, j: nat, a: nat, b: nat)
    requires i < j && a < |Window(s, bs, i)| && b < |Window(s, bs, j)|
    ensures i * bs + a < j * bs + b
  {
    assert (i + 1) * bs == i * bs + bs;
    MulMonotone(i + 1, j, bs);
  }

  // ---------------------------------------------------------------------------
  // Column blocks of a batch

  /** Every sample has `rows` rows of exactly `width` entries. */
  ghost predicate IsBlock(t: Tensor, samples: nat, rows: nat, width: nat) {
    && |t| == samples
    && forall b :: 0 <= b < samples ==> Alignment.Shaped(t[b], rows, width)
  }

  /** The loaded feature files stack into a B x 200 x W array with W >= 14. */
  predicate FeaturesOk(features: Tensor) {
    && |features| > 0
    && |features[0]| == Rows
    && MinFeatureColumns <= |features[0][0]|
    && forall b :: 0 <= b < |features| ==>
         |features[b]| == Rows && forall i :: 0 <= i < Rows ==> |features[b][i]| == |features[0][0]|
  }

  /** One prediction column of 200 entries per sample of the batch. */
  predicate PredictionsOk(preds: seq<seq<real>>, samples: nat) {
    |preds| == samples && forall b :: 0 <= b < samples ==> |preds[b]| == Rows
  }

  /** The rotation returns a B x 200 x 3 block. */
  predicate RotatedOk(t: Tensor, samples: nat) {
    |t| == samples && forall b :: 0 <= b < samples ==>
      |t[b]| == Rows && forall i :: 0 <= i < Rows ==> |t[b][i]| == 3
  }

  /** `t[:, :, lo:lo+3]` of a batch whose rows are wide enough. */
  function Columns3(t: Tensor, lo: nat): (r: Tensor)
    requires forall b, i :: 0 <= b < |t| && 0 <= i < |t[b]| ==> lo + 3 <= |t[b][i]|
    ensures |r| == |t|
    ensures forall b :: 0 <= b < |r| ==>
              (|r[b]| == |t[b]| && forall i :: 0 <= i < |r[b]| ==> r[b][i] == t[b][i][lo..lo + 3])
  {
    seq(|t|, b requires 0 <= b < |t| =>
      seq(|t[b]|, i requires 0 <= i < |t[b]| => t[b][i][lo..lo + 3]))
  }

  /** `m[:, lo:lo+3] = block` on one sample. */
  function SetColumns3(m: Matrix, lo: nat, block: Matrix): (r: Matrix)
    requires |block| == |m|
    requires forall i :: 0 <= i < |m| ==> |block[i]| == 3 && lo + 3 <= |m[i]|
    ensures |r| == |m|
    ensures forall i :: 0 <= i < |r| ==> |r[i]| == |m[i]|
    ensures forall i, c :: 0 <= i < |r| && 0 <= c < |r[i]| ==>
              r[i][c] == if lo <= c < lo + 3 then block[i][c - lo] else m[i][c]
  {
    seq(|m|, i requires 0 <= i < |m| => m[i][..lo] + block[i] + m[i][lo + 3..])
  }

  /** `np.concatenate([pred, m[:, 2:14]], axis=1)` on one sample. */
  function Stack(pred: seq<real>, m: Matrix): (r: Matrix)
    requires |pred| == |m|
    requires forall i :: 0 <= i < |m| ==> MinFeatureColumns <= |m[i]|
    ensures |r| == |m|
    ensures forall i :: 0 <= i < |r| ==> |r[i]| == OutColumns && r[i][0] == pred[i]
    ensures forall i, j :: 0 <= i < |r| && 1 <= j < OutColumns ==> r[i][j] == m[i][j + 1]
  {
    seq(|m|, i requires 0 <= i < |m| => [pred[i]] + m[i][2..MinFeatureColumns])
  }

  // ---------------------------------------------------------------------------
  // One batch (`__getitem__` after loading)

  datatype BatchError =
    | EmptyBatch       // the index is past the last batch
    | FeatureShape     // the feature files do not stack into a B x 200 x (>= 14) array
    | PredictionShape  // a prediction file is not 200 long, or the counts differ
    | RotationShape    // the random rotation did not return B x 200 x 3 blocks

  /** The assembled input tensor (B x 200 x 13) and the label (B x 200 x 3). */
  datatype Batch = Batch(input: Tensor, groundTruth: Tensor)

  /** The random rotation of the xyz2 and norm2 blocks, supplied by the caller. */
  type Rotator = (Tensor, Tensor) -> (Tensor, Tensor)

  /** Sample b after the rotated blocks are written back into columns 5..7 and 11..13. */
  function Rewritten(m: Matrix, xyz2: Matrix, norm2: Matrix): (r: Matrix)
    requires |m| == Rows && |xyz2| == Rows && |norm2| == Rows
    requires forall i :: 0 <= i < Rows ==> MinFeatureColumns <= |m[i]| && |xyz2[i]| == 3 && |norm2[i]| == 3
    ensures |r| == Rows && forall i :: 0 <= i < Rows ==> |r[i]| == |m[i]|
    ensures forall i, c :: 0 <= i < Rows && 0 <= c < |r[i]| ==>
              r[i][c] == if Xyz2Column <= c < Xyz2Column + 3 then xyz2[i][c - Xyz2Column]
                         else if Norm2Column <= c < Norm2Column + 3 then norm2[i][c - Norm2Column]
                         else m[i][c]
  {
    SetColumns3(SetColumns3(m, Xyz2Column, xyz2), Norm2Column, norm2)
  }

  /** What `__getitem__` returns for loaded features and predictions. */
  function BatchSpec(features: Tensor, preds: seq<seq<real>>, rotate: Rotator): Result<Batch, BatchError> {
    if |features| == 0 then Failure(EmptyBatch)
    else if !FeaturesOk(features) then Failure(FeatureShape)
    else if !PredictionsOk(preds, |features|) then Failure(PredictionShape)
    else
      var rotated := rotate(Columns3(features, Xyz2Column), Columns3(features, Norm2Column));
      if !RotatedOk(rotated.0, |features|) || !RotatedOk(rotated.1, |features|) then Failure(RotationShape)
      else
        Success(Batch(
          seq(|features|, b requires 0 <= b < |features| =>
            Stack(preds[b], Rewritten(features[b], rotated.0[b], rotated.1[b]))),
          Columns3(features, Xyz2Column)))
  }

  /** Every sample of the block is 200 x 3 and every row of `a` is wide enough for columns lo..lo+2. */
  ghost predicate Writable(a: seq<Matrix>, lo: nat, block: Tensor) {
    && |block| == |a|
    && forall k :: 0 <= k < |a| ==>
         |block[k]| == |a[k]| && forall i :: 0 <= i < |a[k]| ==> |block[k][i]| == 3 && lo + 3 <= |a[k][i]|
  }

  /** `a[:, :, lo:lo+3] = block`, written into the array one sample at a time. */
  method WriteColumns3(a: array<Matrix>, lo: nat, block: Tensor)
    requires Writable(a[..], lo, block)
    modifies a
    ensures forall k :: 0 <= k < a.Length ==> a[k] == SetColumns3(old(a[k]), lo, block[k])
  {
    var b := 0;
    while b < a.Length
      invariant 0 <= b <= a.Length
      invariant forall k :: 0 <= k < b ==> a[k] == SetColumns3(old(a[k]), lo, block[k])
      invariant forall k :: b <= k < a.Length ==> a[k] == old(a[k])
    {
      a[b] := SetColumns3(a[b], lo, block[b]);
      b := b + 1;
    }
  }

  /**
   * The batch assembly as the source performs it: copy the loaded features
   * into an array, keep the unrotated xyz2, write the rotated xyz2 and norm2
   * back into that array in place, then stack the prediction column in front.
   */
  method AssembleBatch(features: Tensor, preds: seq<seq<real>>, rotate: Rotator)
    returns (r: Result<Batch, BatchError>)
    ensures r == BatchSpec(features, preds, rotate)
  {
    if |features| == 0 {
      return Failure(EmptyBatch);
    }
    if !FeaturesOk(features) {
      return Failure(FeatureShape);
    }
    if !PredictionsOk(preds, |features|) {
      return Failure(PredictionShape);
    }
    var featBatch := new Matrix[|features|](b requires 0 <= b < |features| => features[b]);
    assert featBatch[..] == features;
    var gtXyz2 := Columns3(featBatch[..], Xyz2Column);
    var rotated := rotate(Columns3(featBatch[..], Xyz2Column), Columns3(featBatch[..], Norm2Column));
    if !RotatedOk(rotated.0, |features|) || !RotatedOk(rotated.1, |features|) {
      return Failure(RotationShape);
    }
    var xyz2, norm2 := rotated.0, rotated.1;
    WriteColumns3(featBatch, Xyz2Column, xyz2);
    assert Writable(featBatch[..], Norm2Column, norm2);
    WriteColumns3(featBatch, Norm2Column, norm2);
    var rewritten := featBatch[..];
    assert forall k :: 0 <= k < |features| ==> rewritten[k] == Rewritten(features[k], xyz2[k], norm2[k]);
    var input := seq(|rewritten|, k requires 0 <= k < |rewritten| => Stack(preds[k], rewritten[k]));
    assert input == seq(|features|, k requires 0 <= k < |features| =>
      Stack(preds[k], Rewritten(features[k], xyz2[k], norm2[k])));
    return Success(Batch(input, gtXyz2));
  }

  /** The rotation result of a batch whose feature files stack correctly. */
  function RotatedBlocks(features: Tensor, rotate: Rotator): (Tensor, Tensor)
    requires FeaturesOk(features)
  {
    rotate(Columns3(features, Xyz2Column), Columns3(features, Norm2Column))
  }

  /** A batch is produced exactly when the files stack, the predictions match and the rotation keeps the shape. */
  lemma BatchSucceedsIff(features: Tensor, preds: seq<seq<real>>, rotate: Rotator)
    ensures BatchSpec(features, preds, rotate).Success? <==>
              && FeaturesOk(features)
              && PredictionsOk(preds, |features|)
              && RotatedOk(RotatedBlocks(features, rotate).0, |features|)
              && RotatedOk(RotatedBlocks(features, rotate).1, |features|)
  {
  }

  /** The input tensor is B x 200 x 13 and the label B x 200 x 3. */
  lemma BatchShape(features: Tensor, preds: seq<seq<real>>, rotate: Rotator)
    requires BatchSpec(features, preds, rotate).Success?
    ensures IsBlock(BatchSpec(features, preds, rotate).value.input, |features|, Rows, OutColumns)
    ensures IsBlock(BatchSpec(features, preds, rotate).value.groundTruth, |features|, Rows, 3)
  {
    var batch := BatchSpec(features, preds, rotate).value;
    forall b | 0 <= b < |features|
      ensures |batch.input[b]| == Rows && forall i :: 0 <= i < Rows ==> |batch.input[b][i]| == OutColumns
    {
    }
  }

  /** The label is columns 5..7 of the feature files, taken before the rotation. */
  lemma LabelIsUnrotatedXyz2(features: Tensor, preds: seq<seq<real>>, rotate: Rotator)
    requires BatchSpec(features, preds, rotate).Success?
    ensures var batch := BatchSpec(features, preds, rotate).value;
            |batch.groundTruth| == |features| &&
            forall b, i, c :: 0 <= b < |features| && 0 <= i < Rows && 0 <= c < 3 ==>
              batch.groundTruth[b][i][c] == features[b][i][Xyz2Column + c]
  {
  }

  /**
   * Column 0 of the input is the prediction; column j >= 1 is column j + 1 of
   * the feature file, except that columns 5..7 and 11..13 of the file have
   * been replaced by the rotated xyz2 and norm2.
   */
  lemma InputColumns(features: Tensor, preds: seq<seq<real>>, rotate: Rotator)
    requires BatchSpec(features, preds, rotate).Success?
    ensures var batch := BatchSpec(features, preds, rotate).value;
            var rotated := RotatedBlocks(features, rotate);
            forall b, i, j :: 0 <= b < |features| && 0 <= i < Rows && 0 <= j < OutColumns ==>
              batch.input[b][i][j] ==
                if j == 0 then preds[b][i]
                else if Xyz2Column <= j + 1 < Xyz2Column + 3 then rotated.0[b][i][j + 1 - Xyz2Column]
                else if Norm2Column <= j + 1 < Norm2Column + 3 then rotated.1[b][i][j + 1 - Norm2Column]
                else features[b][i][j + 1]
  {
    var batch := BatchSpec(features, preds, rotate).value;
    var rotated := RotatedBlocks(features, rotate);
    forall b, i, j | 0 <= b < |features| && 0 <= i < Rows && 0 <= j < OutColumns
      ensures batch.input[b][i][j] ==
                if j == 0 then preds[b][i]
                else if Xyz2Column <= j + 1 < Xyz2Column + 3 then rotated.0[b][i][j + 1 - Xyz2Column]
                else if Norm2Column <= j + 1 < Norm2Column + 3 then rotated.1[b][i][j + 1 - Norm2Column]
                else features[b][i][j + 1]
    {
      var m := Rewritten(features[b], rotated.0[b], rotated.1[b]);
      assert batch.input[b] == Stack(preds[b], m);
      if j > 0 {
        assert batch.input[b][i][j] == m[i][j + 1];
      }
    }
  }

  // ---------------------------------------------------------------------------
  // The generator object

  /** `[np.load(f) for f in files]`, with the file contents supplied by `load`. */
  function LoadAll<T>(files: seq<string>, load: string -> T): (r: seq<T>)
    ensures |r| == |files| && forall i :: 0 <= i < |files| ==> r[i] == load(files[i])
  {
    seq(|files|, i requires 0 <= i < |files| => load(files[i]))
  }

  /** `Align_Generator`: three filename lists, cut into batches of `batchSize`. */
  class AlignGenerator {
    const featureFilenames: seq<string>
    const labelFilenames: seq<string>
    const predFilenames: seq<string>
    const batchSize: nat

    constructor (features: seq<string>, labels: seq<string>, preds: seq<string>, bs: nat)
      ensures featureFilenames == features && labelFilenames == labels && predFilenames == preds
      ensures batchSize == bs
    {
      featureFilenames, labelFilenames, predFilenames := features, labels, preds;
      batchSize := bs;
    }

    /** `__len__`: the least number of batches of `batchSize` that holds every feature file. */
    function Len(): (n: nat)
      requires batchSize > 0
      ensures n * batchSize >= |featureFilenames|
      ensures n == 0 || (n - 1) * batchSize < |featureFilenames|
    {
      NumBatches(|featureFilenames|, batchSize)
    }

    /**
     * `__getitem__`: load the feature and prediction files of window `idx`
     * and assemble the batch. The label window is cut as well, but its files
     * are not loaded; the label is derived from the features.
     */
    method GetItem(idx: nat, loadFeatures: string -> Matrix, loadPred: string -> seq<real>, rotate: Rotator)
      returns (r: Result<Batch, BatchError>)
      ensures r == BatchSpec(LoadAll(Window(featureFilenames, batchSize, idx), loadFeatures),
                             LoadAll(Window(predFilenames, batchSize, idx), loadPred), rotate)
    {
      var batchX := Window(featureFilenames, batchSize, idx);
      var batchY := Window(labelFilenames, batchSize, idx);
      var batchZ := Window(predFilenames, batchSize, idx);
      var featBatch := LoadAll(batchX, loadFeatures);
      var predBatch := LoadAll(batchZ, loadPred);
      r := AssembleBatch(featBatch, predBatch, rotate);
    }
  }

  /** When the lists are equally long, the three windows of a batch hold the files at the same positions. */
  lemma WindowsAligned(g: AlignGenerator, idx: nat, i: nat)
    requires |g.labelFilenames| == |g.featureFilenames| && |g.predFilenames| == |g.featureFilenames|
    requires i < |Window(g.featureFilenames, g.batchSize, idx)|
    ensures i < |Window(g.labelFilenames, g.batchSize, idx)| && i < |Window(g.predFilenames, g.batchSize, idx)|
    ensures var k := idx * g.batchSize + i;
            && k < |g.featureFilenames|
            && Window(g.featureFilenames, g.batchSize, idx)[i] == g.featureFilenames[k]
            && Window(g.labelFilenames, g.batchSize, idx)[i] == g.labelFilenames[k]
            && Window(g.predFilenames, g.batchSize, idx)[i] == g.predFilenames[k]
  {
  }
}
