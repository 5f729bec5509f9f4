# Differentiable SVD alignment of MaSIF-search patches, in Dafny

This project models `align_nn.py` from the MaSIF-search differentiable alignment network. That file holds:

- `Align_Generator`, a Keras `Sequence`. It cuts three index-aligned filename lists (features, labels, predictions) into batches. For each batch it randomly rotates the second patch, and it assembles a 13-channel input tensor together with the unrotated coordinates as the label.
- `SVDAlign`, a Keras layer. It weights correspondences with a learned neuron `relu(a·s + b) + 1e-8` and shifts both point sets outward along their normals by a learned distance. It then centres them on weighted centroids and forms the weighted cross-covariance. From the covariance's SVD it builds the reflection-corrected Kabsch rotation `R = V·diag(1, 1, det(V·Uᵀ))·Uᵀ`, and applies `(R, t = c1 − R·c2)` to the original xyz2.
- `p2p_rmsd_loss`, which is the batch mean of the per-sample root-mean-square point distance.
- `AlignNN.init_data_dir`, which splits the shuffled pair ids 90/10 into training and validation ids and builds the three filename lists of each part. `AlignNN.train_model` wraps them in generators with batch size 8.

The arithmetic is exact, over `real`. The SVD is an oracle: its factors are inputs, and the `IsSvd` predicate constrains them to be an orthogonal factorisation of the covariance.

Files:

- `wrappers.dfy`: `Option` and `Result`.
- `linalg.dfy` (module `LinAlg`): 3-vectors and 3×3 matrices, determinant, orthogonality, and the squared distance.
- `alignment.dfy` (module `Alignment`): one sample through `SVDAlign.call`.
- `svd_layer.dfy` (module `SvdLayer`): the layer object. Its `build` creates the trainable scalars, and its batched `call` rejects samples that are not 200×13.
- `loss.dfy` (module `Loss`): `p2p_rmsd_loss`.
- `generator.dfy` (module `Generator`): `Align_Generator`. Batch assembly is an imperative method over an array of samples, proved equal to the specification function `BatchSpec`.
- `split.dfy` (module `DataSplit`): `init_data_dir` and the two generators of `train_model`.

Notes on the model:

- The variable the source calls `val_split` is the size of the training part. The first `val_split` ids train and the rest validate. `DataSplit.TrainSize` and `DataSplit.Split` model this.
- A raw feature file needs at least 14 columns: the generator copies columns 2..13 and overwrites columns 11..13. It is the assembled input tensor that is 200×13.
- `tf.linalg.svd` returns `s, u, v` with `cov = u·diag(s)·vᵀ`; this is what `IsSvd` states. The covariance is `v2ᵀ·diag(w)·v1`, so entry (r, c) is `Σ w_i v2_i[r] v1_i[c]`.

## Model

| member | source | states |
|---|---|---|
| Loss.PointErrors | source/masif_ppi_search/differentiable_alignment/align_nn.py:12-14 | the per-point sum of squared coordinate differences is the squared distance of each pair, and each is non-negative |
| Loss.MeanSquaredDistance | source/masif_ppi_search/differentiable_alignment/align_nn.py:12-15 | the per-sample mean of squared distances is non-negative |
| Loss.Mean | source/masif_ppi_search/differentiable_alignment/align_nn.py:15-17 | definition: `K.mean`, the sum of a non-empty sequence divided by its length; properties in Loss.MeanNonNegative |
| Loss.MeanNonNegative | source/masif_ppi_search/differentiable_alignment/align_nn.py:15 | the mean of non-negative terms is non-negative, and zero exactly when every term is zero |
| Loss.SumZeroIff | source/masif_ppi_search/differentiable_alignment/align_nn.py:14-15 | a sum of non-negative reals is zero iff every term is zero |
| Loss.PointErrorsZeroIff | source/masif_ppi_search/differentiable_alignment/align_nn.py:12-14 | every point error is zero iff prediction and target are the same point sequence |
| Loss.MeanSquaredDistanceZeroIff | source/masif_ppi_search/differentiable_alignment/align_nn.py:12-15 | the per-sample mean squared distance is 0 iff prediction equals target |
| Loss.RootZeroIff | source/masif_ppi_search/differentiable_alignment/align_nn.py:16 | a non-negative square root is zero iff its square is zero |
| Loss.P2pRmsdLoss | source/masif_ppi_search/differentiable_alignment/align_nn.py:11-18 | the batch mean of the per-sample roots is non-negative |
| Loss.LossZeroIff | source/masif_ppi_search/differentiable_alignment/align_nn.py:11-18 | the loss is zero iff every predicted sample equals its ground truth |
| Loss.MeanSquaredDistanceRigidInvariant | source/masif_ppi_search/differentiable_alignment/align_nn.py:12-15 | moving truth and prediction by the same orthogonal rigid motion leaves the mean squared distance unchanged |
| LinAlg.Dist2 | source/masif_ppi_search/differentiable_alignment/align_nn.py:12-14 | definition: the per-point sum over x, y, z of the squared difference, non-negative by its ensures; properties in LinAlg.Dist2ZeroIff |
| LinAlg.Dist2ZeroIff | source/masif_ppi_search/differentiable_alignment/align_nn.py:12-14 | the squared distance of two points is zero iff they are equal |
| LinAlg.Det | source/masif_ppi_search/differentiable_alignment/align_nn.py:139 | definition: `tf.linalg.det` of a 3×3 matrix, by expansion along the first row; properties in LinAlg.DetMul, LinAlg.DetTranspose and LinAlg.OrthogonalDet |
| LinAlg.DetMul | source/masif_ppi_search/differentiable_alignment/align_nn.py:139 | det(p·q) = det(p)·det(q) |
| LinAlg.DetTranspose | source/masif_ppi_search/differentiable_alignment/align_nn.py:138-139 | det(mᵀ) = det(m) |
| LinAlg.OrthogonalDet | source/masif_ppi_search/differentiable_alignment/align_nn.py:137-139 | an orthogonal matrix has determinant +1 or −1 |
| LinAlg.OrthogonalMul | source/masif_ppi_search/differentiable_alignment/align_nn.py:150-151 | a product of orthogonal matrices is orthogonal |
| LinAlg.Mul | source/masif_ppi_search/differentiable_alignment/align_nn.py:135-151 | definition: `K.batch_dot` of two 3×3 matrices, entry (i, j) the dot product of row i and column j; properties in LinAlg.MulAssoc, LinAlg.MulIdentity, LinAlg.TransposeMul and LinAlg.OrthogonalMul |
| LinAlg.Transpose | source/masif_ppi_search/differentiable_alignment/align_nn.py:135-138 | definition: `K.permute_dimensions(·, (0,2,1))` of a 3×3 matrix, entry (i, j) taken from (j, i); properties in LinAlg.TransposeMul, LinAlg.DetTranspose and Alignment.TransposeTranspose |
| LinAlg.Diag | source/masif_ppi_search/differentiable_alignment/align_nn.py:141-147 | definition: `tf.linalg.diag` of three reals; properties in LinAlg.DetDiag and Alignment.SignDiagOrthogonal |
| LinAlg.MulAssoc | source/masif_ppi_search/differentiable_alignment/align_nn.py:150-151 | 3×3 matrix multiplication is associative |
| Alignment.Scores | source/masif_ppi_search/differentiable_alignment/align_nn.py:101 | definition: channel 0 of every row, the correspondence score; properties in Alignment.Weights and Alignment.WeightsSumPositive |
| Alignment.Points | source/masif_ppi_search/differentiable_alignment/align_nn.py:102-106 | definition: channels c..c+2 of every row form point i (xyz1 at 1, xyz2 at 4, norm1 at 7, norm2 at 10); properties in Alignment.AlignSample and Alignment.CenteredSetsBalanced |
| Alignment.FilterWeight | source/masif_ppi_search/differentiable_alignment/align_nn.py:111-114 | for all a, b, s the filtered weight is > 0; minus 1e-8 it is the larger of 0 and a·s + b |
| Alignment.Weights | source/masif_ppi_search/differentiable_alignment/align_nn.py:109-114 | each point's weight is the filter of its score, and all are positive |
| Alignment.SumPositive | source/masif_ppi_search/differentiable_alignment/align_nn.py:121 | a non-empty sum of positive weights is positive |
| Alignment.WeightsSumPositive | source/masif_ppi_search/differentiable_alignment/align_nn.py:121-124 | the weight sum used as divisor is > 0 for every sample |
| Alignment.Shifted | source/masif_ppi_search/differentiable_alignment/align_nn.py:116-117 | definition: each shifted point is xyz + δ·norm; properties in Alignment.ShiftedByZero and Alignment.CenteredSetsBalanced |
| Alignment.ShiftedByZero | source/masif_ppi_search/differentiable_alignment/align_nn.py:116-117 | with δ = 0 the shift leaves the points unchanged |
| Alignment.WeightedSum | source/masif_ppi_search/differentiable_alignment/align_nn.py:123-124 | definition: `K.sum(v*w, axis=1)`, the sum of wᵢ·vᵢ; properties in Alignment.WeightedSumCenter and Alignment.CenteredSumIsZero |
| Alignment.Center | source/masif_ppi_search/differentiable_alignment/align_nn.py:127-128 | definition: `v - v_ctr`, the same point set with c subtracted from every point; properties in Alignment.CenteredSumIsZero and Alignment.CenterTranslationInvariant |
| Alignment.WeightedSumCenter | source/masif_ppi_search/differentiable_alignment/align_nn.py:123-128 | subtracting c from every point subtracts Σw·c from the weighted sum |
| Alignment.Centroid | source/masif_ppi_search/differentiable_alignment/align_nn.py:121-124 | definition: Σ(wᵢ·vᵢ) / Σw, component by component; properties in Alignment.CenteredSumIsZero, Alignment.CentroidTranslated and Alignment.CentroidTransformed |
| Alignment.CenteredSumIsZero | source/masif_ppi_search/differentiable_alignment/align_nn.py:123-128 | after subtracting the weighted centroid Σ(v·w)/Σw, the weighted sum Σ w_i·(v_i − c) is the zero vector |
| Alignment.CenteredSetsBalanced | source/masif_ppi_search/differentiable_alignment/align_nn.py:116-128 | both sets, shifted by the same δ and centred on their own centroids, have zero weighted sum |
| Alignment.ShiftedXyz1 | source/masif_ppi_search/differentiable_alignment/align_nn.py:116 | definition: `v1`, xyz1 moved by the learned outward shift along norm1; properties in Alignment.ShiftedByZero and Alignment.CenteredSetsBalanced |
| Alignment.ShiftedXyz2 | source/masif_ppi_search/differentiable_alignment/align_nn.py:117 | definition: `v2`, xyz2 moved by the learned outward shift along norm2; properties in Alignment.ShiftedByZero and Alignment.CenteredSetsBalanced |
| Alignment.Centroid1 | source/masif_ppi_search/differentiable_alignment/align_nn.py:123 | definition: `v1_ctr`, the weighted centroid of the shifted xyz1; properties in Alignment.CenteredSetsBalanced and Alignment.Solve |
| Alignment.Centroid2 | source/masif_ppi_search/differentiable_alignment/align_nn.py:124 | definition: `v2_ctr`, the weighted centroid of the shifted xyz2; properties in Alignment.CenteredSetsBalanced and Alignment.Solve |
| Alignment.CentroidTranslated | source/masif_ppi_search/differentiable_alignment/align_nn.py:123-124 | translating a point set translates its weighted centroid by the same vector |
| Alignment.CenterTranslationInvariant | source/masif_ppi_search/differentiable_alignment/align_nn.py:123-128 | the centred points do not depend on a common translation of the input |
| Alignment.ReflectionFix | source/masif_ppi_search/differentiable_alignment/align_nn.py:139-147 | definition: diag(1, 1, det(V·Uᵀ)); properties in Alignment.ReflectionSign and Alignment.RotationDetIsOne |
| Alignment.Rotation | source/masif_ppi_search/differentiable_alignment/align_nn.py:138-151 | definition: V·diag(1, 1, det(V·Uᵀ))·Uᵀ; properties in Alignment.RotationIsProper, Alignment.RotationOrthogonal and Alignment.RotationCorrectsOnlyReflections |
| Alignment.ReflectionSign | source/masif_ppi_search/differentiable_alignment/align_nn.py:138-139 | for orthogonal U, V, d = det(V·Uᵀ) = det(V)·det(U) and d² = 1 |
| Alignment.RotationDetIsOne | source/masif_ppi_search/differentiable_alignment/align_nn.py:138-151 | for orthogonal U, V, det(V·diag(1,1,d)·Uᵀ) = 1 |
| Alignment.RotationOrthogonal | source/masif_ppi_search/differentiable_alignment/align_nn.py:138-151 | for orthogonal U, V, R = V·diag(1,1,d)·Uᵀ is orthogonal |
| Alignment.RotationIsProper | source/masif_ppi_search/differentiable_alignment/align_nn.py:137-151 | R is a proper rotation: orthogonal with determinant 1 |
| Alignment.RotationCorrectsOnlyReflections | source/masif_ppi_search/differentiable_alignment/align_nn.py:138-151 | R equals V·Uᵀ iff det(V·Uᵀ) = 1, so the correction changes only reflections |
| Alignment.Covariance | source/masif_ppi_search/differentiable_alignment/align_nn.py:134-136 | definition: Σ (wᵢ·v2ᵢ)·v1ᵢᵀ, that is v2ᵀ·diag(w)·v1; properties in Alignment.CovarianceRotated |
| Alignment.CrossCovariance | source/masif_ppi_search/differentiable_alignment/align_nn.py:127-136 | definition: the covariance of the two shifted sets, each centred on its own weighted centroid, with the filtered weights; properties in Alignment.CovarianceRotated and Alignment.CenteredSetsBalanced |
| Alignment.CovarianceRotated | source/masif_ppi_search/differentiable_alignment/align_nn.py:135-136 | turning the second point set by any matrix q multiplies the covariance Σ wᵢ·v2ᵢ·v1ᵢᵀ by q from the left: v2 gives its rows and v1 its columns |
| Alignment.Translation | source/masif_ppi_search/differentiable_alignment/align_nn.py:152 | t = c1 − R·c2 satisfies R·c2 + t = c1 |
| Alignment.TransformPoint | source/masif_ppi_search/differentiable_alignment/align_nn.py:156-157 | definition: one output point R·x + t; properties in Alignment.RigidPreservesDistance, Alignment.CentroidTransformed and Alignment.IdentityAlignment |
| Alignment.TransformAll | source/masif_ppi_search/differentiable_alignment/align_nn.py:156-159 | definition: output point i is R·x_i + t; properties in Alignment.AlignmentIsRigid and Alignment.CentroidTransformed |
| Alignment.Solve | source/masif_ppi_search/differentiable_alignment/align_nn.py:121-152 | from the SVD factors of the covariance the layer obtains the rotation V·diag(1,1,d)·Uᵀ, which is proper, and a translation carrying the centroid of v2 onto the centroid of v1 |
| Alignment.AlignSample | source/masif_ppi_search/differentiable_alignment/align_nn.py:100-162 | the output has one point per input row, and point i is R·(channels 4..6 of row i) + t, using the unshifted, uncentred xyz2 |
| Alignment.IdentityAlignment | source/masif_ppi_search/differentiable_alignment/align_nn.py:152-159 | with R = I and c1 = c2 the output equals the input xyz2 |
| Alignment.AlignSampleIdentity | source/masif_ppi_search/differentiable_alignment/align_nn.py:152-159 | when the corrected rotation is I and the two centroids coincide, the layer's output is the input xyz2 itself |
| Alignment.CentroidTransformed | source/masif_ppi_search/differentiable_alignment/align_nn.py:123-124 | the weighted centroid of transformed points is the transformed centroid |
| Alignment.AlignedCentroidWithoutShift | source/masif_ppi_search/differentiable_alignment/align_nn.py:116-159 | with outward shift 0 the weighted centroid of the output is the weighted centroid of xyz1 |
| Alignment.RigidPreservesDistance | source/masif_ppi_search/differentiable_alignment/align_nn.py:156-157 | x ↦ R·x + t with orthogonal R keeps squared distances |
| Alignment.AlignmentIsRigid | source/masif_ppi_search/differentiable_alignment/align_nn.py:156-159 | the output keeps every pairwise distance of xyz2: the layer moves xyz2 rigidly |
| SvdLayer.FirstBadSample | source/masif_ppi_search/differentiable_alignment/align_nn.py:182 | returns None iff every sample from `from` on is 200×13; otherwise returns the first that is not |
| SvdLayer.SvdAlign.constructor | source/masif_ppi_search/differentiable_alignment/align_nn.py:71-73 | the layer stores its output shape and has no weights yet |
| SvdLayer.SvdAlign.Build | source/masif_ppi_search/differentiable_alignment/align_nn.py:75-93 | build creates the outward shift 0.25, a = 1 and b = 0 |
| SvdLayer.SvdAlign.CurrentParams | source/masif_ppi_search/differentiable_alignment/align_nn.py:111-117 | definition: the parameters passed to the alignment are the layer's current scalars; properties in SvdLayer.SvdAlign.Build and SvdLayer.SvdAlign.Call |
| SvdLayer.SvdAlign.Call | source/masif_ppi_search/differentiable_alignment/align_nn.py:100-162 | on a batch the layer succeeds iff every sample is 200×13; it then returns, per sample, 200 aligned points equal to AlignSample with the layer's current parameters; otherwise it names a bad sample |
| SvdLayer.GeneratorFeedsLayer | source/masif_ppi_search/differentiable_alignment/align_nn.py:53-55 | every sample of a batch the generator assembles is 200×13, so the layer's shape check finds no bad sample |
| Generator.NumBatches | source/masif_ppi_search/differentiable_alignment/align_nn.py:27 | ceil(n / bs): r·bs ≥ n and (r − 1)·bs < n |
| Generator.AlignGenerator.constructor | source/masif_ppi_search/differentiable_alignment/align_nn.py:22-24 | the generator stores the three lists and the batch size |
| Generator.AlignGenerator.Len | source/masif_ppi_search/differentiable_alignment/align_nn.py:26-27 | the number of batches is the least n with n·batchSize ≥ number of feature files |
| Generator.Window | source/masif_ppi_search/differentiable_alignment/align_nn.py:30-32 | the slice [idx·bs, (idx+1)·bs) clamped to the list: at most bs items, exactly min(bs, n − idx·bs) when it starts inside, empty past the end, and item i is list item idx·bs + i |
| Generator.WindowNonEmptyIff | source/masif_ppi_search/differentiable_alignment/align_nn.py:26-32 | window idx is non-empty iff idx < len |
| Generator.ConcatIsPrefix | source/masif_ppi_search/differentiable_alignment/align_nn.py:30-32 | windows 0..k−1 concatenate to the prefix of length min(k·bs, n), so consecutive windows are contiguous |
| Generator.WindowsCoverList | source/masif_ppi_search/differentiable_alignment/align_nn.py:26-32 | the windows of indices below len concatenate to the whole list |
| Generator.WindowOfItem | source/masif_ppi_search/differentiable_alignment/align_nn.py:30-32 | list item k is item k mod bs of window k div bs |
| Generator.WindowsDisjoint | source/masif_ppi_search/differentiable_alignment/align_nn.py:30-32 | every position of an earlier window precedes every position of a later one, so windows are disjoint |
| Generator.WindowsAligned | source/masif_ppi_search/differentiable_alignment/align_nn.py:30-32 | for lists of equal length, the feature, label and pred windows are cut at the same indices |
| Generator.LoadAll | source/masif_ppi_search/differentiable_alignment/align_nn.py:34-36 | definition: one loaded value per file name, in order; properties in Generator.AlignGenerator.GetItem |
| Generator.Columns3 | source/masif_ppi_search/differentiable_alignment/align_nn.py:43-45 | definition: `t[:, :, lo:lo+3]`, the same samples and rows with each row cut to columns lo..lo+2; properties in Generator.LabelIsUnrotatedXyz2 and Generator.InputColumns |
| Generator.SetColumns3 | source/masif_ppi_search/differentiable_alignment/align_nn.py:47-48 | slice assignment: entries in columns lo..lo+2 come from the block, all others are unchanged |
| Generator.Rewritten | source/masif_ppi_search/differentiable_alignment/align_nn.py:43-48 | after both writes, columns 5..7 hold rotated xyz2, columns 11..13 hold rotated norm2, and every other column is unchanged |
| Generator.Stack | source/masif_ppi_search/differentiable_alignment/align_nn.py:53 | each output row has 13 columns: column 0 is the prediction and column j is input column j+1 |
| Generator.BatchSpec | source/masif_ppi_search/differentiable_alignment/align_nn.py:34-66 | definition: the batch `__getitem__` returns for the loaded windows, which fails on an empty batch, unstackable features, badly sized predictions or a badly shaped rotation result, in that order, and otherwise holds the stacked input and the unrotated xyz2 label; properties in Generator.BatchSucceedsIff, Generator.BatchShape, Generator.InputColumns, Generator.LabelIsUnrotatedXyz2 and Generator.AssembleBatch |
| Generator.WriteColumns3 | source/masif_ppi_search/differentiable_alignment/align_nn.py:47-48 | writes the block into columns lo..lo+2 of every sample of the array in place |
| Generator.AssembleBatch | source/masif_ppi_search/differentiable_alignment/align_nn.py:34-66 | the in-place assembly (copy to an array, keep unrotated xyz2, write back, stack) yields exactly BatchSpec |
| Generator.AlignGenerator.GetItem | source/masif_ppi_search/differentiable_alignment/align_nn.py:29-66 | batch idx is BatchSpec of the loaded feature and pred windows |
| Generator.BatchSucceedsIff | source/masif_ppi_search/differentiable_alignment/align_nn.py:34-61 | a batch is produced iff the features stack to B×200×(≥14), each prediction has 200 entries, and the rotation returns B×200×3 blocks |
| Generator.BatchShape | source/masif_ppi_search/differentiable_alignment/align_nn.py:53-61 | the input tensor is B×200×13 and the label is B×200×3 |
| Generator.LabelIsUnrotatedXyz2 | source/masif_ppi_search/differentiable_alignment/align_nn.py:43-58 | the label is columns 5..7 of the feature files, taken before rotation |
| Generator.InputColumns | source/masif_ppi_search/differentiable_alignment/align_nn.py:43-53 | input column 0 is the prediction. Column j is feature column j+1, except rotated xyz2 where j+1 is in 5..7 and rotated norm2 where j+1 is in 11..13 |
| DataSplit.PathOf | source/masif_ppi_search/differentiable_alignment/align_nn.py:228-236 | the path starts with `data/training/` and ends with the kind's file name |
| DataSplit.IdOfPath | source/masif_ppi_search/differentiable_alignment/align_nn.py:228-236 | the pair id is recovered from any of its three paths |
| DataSplit.PathInjective | source/masif_ppi_search/differentiable_alignment/align_nn.py:228-236 | distinct ids give distinct paths of each kind |
| DataSplit.Paths | source/masif_ppi_search/differentiable_alignment/align_nn.py:229-236 | definition: filename i is the template applied to id i; properties in DataSplit.PathsAligned and DataSplit.PathInjective |
| DataSplit.PathsAligned | source/masif_ppi_search/differentiable_alignment/align_nn.py:228-236 | the i-th feature, label and pred filenames all name the directory of id i |
| DataSplit.TrainSize | source/masif_ppi_search/differentiable_alignment/align_nn.py:225 | `val_split` is floor(0.9·n): 10·r ≤ 9·n < 10·(r+1), and it is the size of the training part |
| DataSplit.Split | source/masif_ppi_search/differentiable_alignment/align_nn.py:225-227 | train is the first floor(0.9·n) ids and validation is the rest |
| DataSplit.SplitPartition | source/masif_ppi_search/differentiable_alignment/align_nn.py:225-227 | train ++ val equals the shuffled id list |
| DataSplit.SplitDisjoint | source/masif_ppi_search/differentiable_alignment/align_nn.py:223-227 | if the directory listing has no duplicates, no id is in both train and val |
| DataSplit.AlignNN.InitDataDir | source/masif_ppi_search/differentiable_alignment/align_nn.py:222-236 | the six lists are the three templates over train and val ids, and the three lists of each part are index-aligned |
| DataSplit.AlignNN.constructor | source/masif_ppi_search/differentiable_alignment/align_nn.py:171-190 | the model's filename lists are those set by init_data_dir |
| DataSplit.AlignNN.MakeGenerators | source/masif_ppi_search/differentiable_alignment/align_nn.py:193-196 | the training and validation generators get their part's three lists and batch size 8 |
| DataSplit.TrainingBatchesCoverIds | source/masif_ppi_search/differentiable_alignment/align_nn.py:193-196 | the training generator's batches hold at least floor(0.9·n) files and together are the whole training feature list |

## Left out

- `tf.linalg.svd` is a foreign numerical routine. Its factors are instead inputs constrained by `IsSvd`, and no claim is made that the rotation minimises the weighted error.
- Floating point: all arithmetic is over exact reals. Rounding, NaN and near-singular covariances are not modelled, and 1e-8 is the exact rational 1/10⁸.
- `K.sqrt`: the loss takes the per-sample roots as inputs, each a non-negative square root of the sample's mean squared distance.
- Loss.P2pRmsdLoss: requires a non-empty batch and non-empty samples. The source would return NaN from `K.mean` of an empty tensor.
- `batch_rand_rotate_center_patch` is in a module that is not part of this model. It is a parameter of type `Rotator`, and nothing is assumed about it being a rotation. It is applied to the whole batch, as the source does.
- File and system I/O: `np.load` becomes the functions `loadFeatures`/`loadPred`. `os.listdir` and `np.random.shuffle`/seeding become the input list `shuffledIds`. The `print` calls are dropped.
- The TensorFlow/Keras machinery is not modelled:
  - sessions and GPU configuration;
  - `add_weight` trainables, regularisers and gradients;
  - `Model.compile`, `fit_generator` with worker processes (concurrency), and the checkpoint and TensorBoard callbacks;
  - `compute_output_shape`, `eval`, `restore_model`, `look_into_model` and `print_status`.
- Generator.BatchSpec: reports the first failing shape check (empty batch, features, predictions, rotation). The source raises whichever numpy error comes first, so which error is reported is not modelled, only that one is.
- Generator.BatchSpec: fails unless the rotation returns two B×200×3 blocks. numpy would also broadcast a rotation result of another compatible shape (B×200×1, or 1×200×3) into the slice and return a batch. The model rejects such results, because the real rotation returns blocks shaped like its input.
- Generator.AlignGenerator.Len: requires a positive batch size. The source raises `ZeroDivisionError` for 0 and nothing calls it with 0.
- Generator.NumBatches: computes the ceiling exactly. `int(np.ceil(n / float(bs)))` agrees while the list length is far below 2⁵³, where rounding the quotient cannot reach or cross an integer.
- DataSplit.TrainSize: computes floor(9·n / 10) exactly. `np.floor(0.9 * n)` agrees for list lengths far below 2⁵³: the double nearest 0.9 lies slightly above 0.9, so the product cannot round below an integer that 9·n / 10 reaches.
- The label window `batch_y` is cut but not loaded, since the source's load of it is commented out. The label is derived from the features.
- SvdLayer.SvdAlign.Call: checks the 200×13 shape that the Keras `Input` layer enforces before `call` runs. For batch entries of the wrong shape it reports the first one rather than raising a Keras error.
