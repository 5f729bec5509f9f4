/**
 * The SVD rigid-alignment layer (`SVDAlign` in align_nn.py) over exact reals:
 * the learned weight filter, the outward shift along normals, weighted
 * centring, the weighted cross-covariance, the reflection-corrected rotation
 * built from the covariance's singular vectors, and the translation that
 * carries the second set's centroid onto the first.  The SVD itself is an
 * oracle: its factors are inputs, constrained by `IsSvd`.
 */
module Alignment {
  import opened LinAlg

  /** One input row: score, xyz1, xyz2, norm1, norm2 (13 channels). */
  type Row = seq<real>

  /** One sample: a row per point. */
  type Sample = seq<Row>

  /** Points per sample fixed by the model's input layer. */
  const Rows: nat := 200

  /** Channels per row: the score and four 3-vectors. */
  const Channels: nat := 13

  /** Added to every weight so that no weight sum is zero. */
  const WeightFloor: real := 0.00000001

  /** The layer's three trainable scalars. */
  datatype Params = Params(outwardShift: real, a: real, b: real)

  /** A rigid transform x |-> rot . x + trans. */
  datatype RigidTransform = RigidTransform(rot: Mat3, trans: V3)

  /** The factors returned by `tf.linalg.svd`: c == u . diag(s) . v^T. */
  datatype Svd = Svd(s: V3, u: Mat3, v: Mat3)

  ghost predicate IsSvd(c: Mat3, f: Svd) {
    && Orthogonal(f.u)
    && Orthogonal(f.v)
    && f.s.x >= f.s.y >= f.s.z >= 0.0
    && c == Mul(Mul(f.u, Diag(f.s)), Transpose(f.v))
  }

  /** Every row carries all 13 channels. */
  ghost predicate Channeled(sample: Sample) {
    forall i :: 0 <= i < |sample| ==> |sample[i]| == Channels
  }

  /** A 2-D array of exactly `rows` rows of `width` entries each. */
  ghost predicate Shaped(m: Sample, rows: nat, width: nat) {
    |m| == rows && forall i :: 0 <= i < |m| ==> |m[i]| == width
  }

  ghost predicate ValidSample(sample: Sample) {
    |sample| > 0 && Channeled(sample)
  }

  // ---------------------------------------------------------------------------
  // Column access (`network_in[:, :, c:c+3]`)

  /** Channel 0: the raw correspondence score of every point. */
  function Scores(sample: Sample): (r: seq<real>)
    requires Channeled(sample)
    ensures |r| == |sample|
    ensures forall i :: 0 <= i < |r| ==> r[i] == sample[i][0]
  {
    seq(|sample|, i requires 0 <= i < |sample| => sample[i][0])
  }

  /** Channels c, c+1, c+2 of every row, as points. */
  function Points(sample: Sample, c: nat): (r: seq<V3>)
    requires Channeled(sample) && c + 3 <= Channels
    ensures |r| == |sample|
    ensures forall i :: 0 <= i < |r| ==> r[i] == V3(sample[i][c], sample[i][c + 1], sample[i][c + 2])
  {
    seq(|sample|, i requires 0 <= i < |sample| => V3(sample[i][c], sample[i][c + 1], sample[i][c + 2]))
  }

  function Xyz1(sample: Sample): seq<V3> requires Channeled(sample) { Points(sample, 1) }
  function Xyz2(sample: Sample): seq<V3> requires Channeled(sample) { Points(sample, 4) }
  function Norm1(sample: Sample): seq<V3> requires Channeled(sample) { Points(sample, 7) }
  function Norm2(sample: Sample): seq<V3> requires Channeled(sample) { Points(sample, 10) }

  // ---------------------------------------------------------------------------
  // Weight filter and outward shift

  /** `K.relu`. */
  function Relu(x: real): real { if x > 0.0 then x else 0.0 }

  /** relu(a * s + b) + 1e-8: the relu part is the larger of 0 and a * s + b. */
  function FilterWeight(p: Params, score: real): (w: real)
    ensures w > 0.0
    ensures w - WeightFloor >= 0.0 && w - WeightFloor >= p.a * score + p.b
    ensures w - WeightFloor == 0.0 || w - WeightFloor == p.a * score + p.b
  {
    Relu(p.a * score + p.b) + WeightFloor
  }

  /** The filtered weight of every point of a sample. */
  function Weights(p: Params, sample: Sample): (w: seq<real>)
    requires Channeled(sample)
    ensures |w| == |sample|
    ensures forall i :: 0 <= i < |w| ==> w[i] == FilterWeight(p, sample[i][0])
    ensures AllPositive(w)
  {
    seq(|sample|, i requires 0 <= i < |sample| => FilterWeight(p, Scores(sample)[i]))
  }

  /** xyz + norm * delta, point by point. */
  function Shifted(xyz: seq<V3>, norm: seq<V3>, delta: real): (v: seq<V3>)
    requires |xyz| == |norm|
    ensures |v| == |xyz|
    ensures forall i :: 0 <= i < |v| ==> v[i] == Add(xyz[i], Scale(delta, norm[i]))
  {
    seq(|xyz|, i requires 0 <= i < |xyz| => Add(xyz[i], Scale(delta, norm[i])))
  }

  // ---------------------------------------------------------------------------
  // Sums and weighted centroids (`K.sum(..., axis=1)`)

  ghost predicate AllPositive(w: seq<real>) {
    forall i :: 0 <= i < |w| ==> w[i] > 0.0
  }

  /** The sum of w[i] * v[i]. */
  function WeightedSum(v: seq<V3>, w: seq<real>): V3
    requires |v| == |w|
  {
    if v == [] then Zero() else Add(Scale(w[0], v[0]), WeightedSum(v[1..], w[1..]))
  }

  /** Every point minus the same centre. */
  function Center(v: seq<V3>, c: V3): (r: seq<V3>)
    ensures |r| == |v|
    ensures forall i :: 0 <= i < |r| ==> r[i] == Sub(v[i], c)
  {
    seq(|v|, i requires 0 <= i < |v| => Sub(v[i], c))
  }

  /** Every point plus the same offset. */
  function Translated(v: seq<V3>, t: V3): (r: seq<V3>)
    ensures |r| == |v|
    ensures forall i :: 0 <= i < |r| ==> r[i] == Add(v[i], t)
  {
    seq(|v|, i requires 0 <= i < |v| => Add(v[i], t))
  }

  /** A sum of positive weights is positive. */
  lemma {:induction false} SumPositive(w: seq<real>)
    requires |w| > 0 && AllPositive(w)
    ensures Sum(w) > 0.0
  {
    if |w| > 1 {
      SumPositive(w[1..]);
    }
  }

  /** The weighted centroid, sum(v * w) / sum(w), component by component. */
  function Centroid(v: seq<V3>, w: seq<real>): V3
    requires |v| == |w| && Sum(w) > 0.0
  {
    var s, total := WeightedSum(v, w), Sum(w);
    V3(s.x / total, s.y / total, s.z / total)
  }

  /** One step of WeightedSumCenter: w * (a - c) + (s - t * c) == (w * a + s) - (w + t) * c. */
  lemma CenterStep(w: real, a: V3, c: V3, s: V3, t: real)
    ensures Add(Scale(w, Sub(a, c)), Sub(s, Scale(t, c))) == Sub(Add(Scale(w, a), s), Scale(w + t, c))
  {
    var lhs := Add(Scale(w, Sub(a, c)), Sub(s, Scale(t, c)));
    var rhs := Sub(Add(Scale(w, a), s), Scale(w + t, c));
    assert lhs.x == rhs.x by { RealCenterStep(w, a.x, c.x, s.x, t); }
    assert lhs.y == rhs.y by { RealCenterStep(w, a.y, c.y, s.y, t); }
    assert lhs.z == rhs.z by { RealCenterStep(w, a.z, c.z, s.z, t); }
  }

  lemma RealCenterStep(w: real, a: real, c: real, s: real, t: real)
    ensures w * (a - c) + (s - t * c) == (w * a + s) - (w + t) * c
  {
  }

  /** One step of WeightedSumTranslated: w * (a + c) + (s + t * c) == (w * a + s) + (w + t) * c. */
  lemma TranslateStep(w: real, a: V3, c: V3, s: V3, t: real)
    ensures Add(Scale(w, Add(a, c)), Add(s, Scale(t, c))) == Add(Add(Scale(w, a), s), Scale(w + t, c))
  {
    var lhs := Add(Scale(w, Add(a, c)), Add(s, Scale(t, c)));
    var rhs := Add(Add(Scale(w, a), s), Scale(w + t, c));
    assert lhs.x == rhs.x by { RealTranslateStep(w, a.x, c.x, s.x, t); }
    assert lhs.y == rhs.y by { RealTranslateStep(w, a.y, c.y, s.y, t); }
    assert lhs.z == rhs.z by { RealTranslateStep(w, a.z, c.z, s.z, t); }
  }

  lemma RealTranslateStep(w: real, a: real, c: real, s: real, t: real)
    ensures w * (a + c) + (s + t * c) == (w * a + s) + (w + t) * c
  {
  }

  /** Subtracting a centre c from every point removes Sum(w) * c from the weighted sum. */
  lemma {:induction false} WeightedSumCenter(v: seq<V3>, w: seq<real>, c: V3)
    requires |v| == |w|
    ensures WeightedSum(Center(v, c), w) == Sub(WeightedSum(v, w), Scale(Sum(w), c))
  {
    if v != [] {
      WeightedSumCenter(v[1..], w[1..], c);
      assert Center(v, c)[1..] == Center(v[1..], c);
      CenterStep(w[0], v[0], c, WeightedSum(v[1..], w[1..]), Sum(w[1..]));
    }
  }

  /** Adding t to every point adds Sum(w) * t to the weighted sum. */
  lemma {:induction false} WeightedSumTranslated(v: seq<V3>, w: seq<real>, t: V3)
    requires |v| == |w|
    ensures WeightedSum(Translated(v, t), w) == Add(WeightedSum(v, w), Scale(Sum(w), t))
  {
    if v != [] {
      WeightedSumTranslated(v[1..], w[1..], t);
      assert Translated(v, t)[1..] == Translated(v[1..], t);
      TranslateStep(w[0], v[0], t, WeightedSum(v[1..], w[1..]), Sum(w[1..]));
    }
  }

  lemma DivCancel(a: real, t: real)
    requires t > 0.0
    ensures t * (a / t) == a
  {
  }

  /** Centred about its weighted centroid, a point set has weighted sum zero. */
  lemma CenteredSumIsZero(v: seq<V3>, w: seq<real>)
    requires |v| == |w| && Sum(w) > 0.0
    ensures WeightedSum(Center(v, Centroid(v, w)), w) == Zero()
  {
    var c, s, total := Centroid(v, w), WeightedSum(v, w), Sum(w);
    WeightedSumCenter(v, w, c);
    DivCancel(s.x, total);
    DivCancel(s.y, total);
    DivCancel(s.z, total);
  }

  /** Translating a point set translates its weighted centroid by the same offset. */
  lemma CentroidTranslated(v: seq<V3>, w: seq<real>, t: V3)
    requires |v| == |w| && Sum(w) > 0.0
    ensures Centroid(Translated(v, t), w) == Add(Centroid(v, w), t)
  {
    WeightedSumTranslated(v, w, t);
  }

  /** Centring forgets a common translation of the whole point set. */
  lemma CenterTranslationInvariant(v: seq<V3>, w: seq<real>, t: V3)
    requires |v| == |w| && Sum(w) > 0.0
    ensures Center(Translated(v, t), Centroid(Translated(v, t), w)) == Center(v, Centroid(v, w))
  {
    CentroidTranslated(v, w, t);
  }

  /** Shifting by a zero distance leaves the points where they are. */
  lemma ShiftedByZero(xyz: seq<V3>, norm: seq<V3>)
    requires |xyz| == |norm|
    ensures Shifted(xyz, norm, 0.0) == xyz
  {
  }

  // ---------------------------------------------------------------------------
  // Weighted cross-covariance (`v2^T . diag(w) . v1`)

  function ZeroMat(): Mat3 { Mat3(0.0, 0.0, 0.0, 0.0, 0.0, 0.0, 0.0, 0.0, 0.0) }

  function MatAdd(p: Mat3, q: Mat3): Mat3 {
    Mat3(p.m00 + q.m00, p.m01 + q.m01, p.m02 + q.m02,
         p.m10 + q.m10, p.m11 + q.m11, p.m12 + q.m12,
         p.m20 + q.m20, p.m21 + q.m21, p.m22 + q.m22)
  }

  /** The outer product u . v^T. */
  function Outer(u: V3, v: V3): Mat3 {
    Mat3(u.x * v.x, u.x * v.y, u.x * v.z,
         u.y * v.x, u.y * v.y, u.y * v.z,
         u.z * v.x, u.z * v.y, u.z * v.z)
  }

  /** Entry (r, c) is the sum over points i of (w[i] * v2[i][r]) * v1[i][c]. */
  function Covariance(v2: seq<V3>, v1: seq<V3>, w: seq<real>): Mat3
    requires |v2| == |w| && |v1| == |w|
  {
    if w == [] then ZeroMat()
    else MatAdd(Outer(Scale(w[0], v2[0]), v1[0]), Covariance(v2[1..], v1[1..], w[1..]))
  }

  // ---------------------------------------------------------------------------
  // Reflection-corrected rotation and translation

  /** diag(1, 1, det(v . u^T)). */
  function ReflectionFix(u: Mat3, v: Mat3): Mat3 {
    Diag(V3(1.0, 1.0, Det(Mul(v, Transpose(u)))))
  }

  /** R = v . diag(1, 1, det(v . u^T)) . u^T. */
  function Rotation(u: Mat3, v: Mat3): Mat3 {
    Mul(Mul(v, ReflectionFix(u, v)), Transpose(u))
  }

  lemma TransposeTranspose(m: Mat3)
    ensures Transpose(Transpose(m)) == m
  {
  }

  lemma TransposeOrthogonal(m: Mat3)
    requires Orthogonal(m)
    ensures Orthogonal(Transpose(m))
  {
    TransposeTranspose(m);
  }

  /** d * d == 1 when d is the product of two numbers whose squares are 1. */
  lemma UnitProduct(a: real, b: real, d: real)
    requires a * a == 1.0 && b * b == 1.0 && d == a * b
    ensures d * d == 1.0
  {
    assert d * d == (a * a) * (b * b);
  }

  /** (dv * d) * du == 1 when d == dv * du and d * d == 1. */
  lemma SignSquare(dv: real, du: real, d: real)
    requires d == dv * du && d * d == 1.0
    ensures (dv * d) * du == 1.0
  {
    assert (dv * d) * du == d * (dv * du);
  }

  lemma DetMulTranspose(v: Mat3, u: Mat3)
    ensures Det(Mul(v, Transpose(u))) == Det(v) * Det(u)
  {
    DetMul(v, Transpose(u));
    DetTranspose(u);
  }

  /** The sign det(v . u^T) is +1 or -1 when det(u) and det(v) are. */
  lemma SignOfUnitDets(u: Mat3, v: Mat3)
    requires Det(u) * Det(u) == 1.0 && Det(v) * Det(v) == 1.0
    ensures Det(Mul(v, Transpose(u))) == Det(v) * Det(u)
    ensures Det(Mul(v, Transpose(u))) * Det(Mul(v, Transpose(u))) == 1.0
  {
    DetMulTranspose(v, u);
    UnitProduct(Det(v), Det(u), Det(Mul(v, Transpose(u))));
  }

  /** The sign det(v . u^T) of two orthogonal matrices is +1 or -1. */
  lemma ReflectionSign(u: Mat3, v: Mat3)
    requires Orthogonal(u) && Orthogonal(v)
    ensures Det(Mul(v, Transpose(u))) == Det(v) * Det(u)
    ensures Det(Mul(v, Transpose(u))) * Det(Mul(v, Transpose(u))) == 1.0
  {
    OrthogonalDet(u);
    OrthogonalDet(v);
    SignOfUnitDets(u, v);
  }

  /** A diagonal sign matrix diag(1, 1, d) with d * d == 1 is orthogonal. */
  lemma SignDiagOrthogonal(d: real)
    requires d * d == 1.0
    ensures Orthogonal(Diag(V3(1.0, 1.0, d)))
  {
  }

  lemma DetReflectionFix(u: Mat3, v: Mat3)
    ensures Det(ReflectionFix(u, v)) == Det(Mul(v, Transpose(u)))
  {
    DetDiag(V3(1.0, 1.0, Det(Mul(v, Transpose(u)))));
  }

  lemma DetMul3(a: Mat3, b: Mat3, c: Mat3)
    ensures Det(Mul(Mul(a, b), Transpose(c))) == (Det(a) * Det(b)) * Det(c)
  {
    DetMul(a, b);
    DetMul(Mul(a, b), Transpose(c));
    DetTranspose(c);
  }

  lemma DetSandwich(u: Mat3, v: Mat3, f: Mat3, d: real)
    requires Det(f) == d
    ensures Det(Mul(Mul(v, f), Transpose(u))) == (Det(v) * d) * Det(u)
  {
    DetMul3(v, f, u);
  }

  /** det(v . diag(1, 1, d) . u^T) == det(v) * d * det(u), with d = det(v . u^T). */
  lemma DetRotation(u: Mat3, v: Mat3)
    ensures Det(Rotation(u, v)) == (Det(v) * Det(Mul(v, Transpose(u)))) * Det(u)
  {
    DetReflectionFix(u, v);
    DetSandwich(u, v, ReflectionFix(u, v), Det(Mul(v, Transpose(u))));
  }

  /** det(v) * det(v . u^T) * det(u) == 1 when det(u) and det(v) are +1 or -1. */
  lemma SignProductIsOne(u: Mat3, v: Mat3)
    requires Det(u) * Det(u) == 1.0 && Det(v) * Det(v) == 1.0
    ensures (Det(v) * Det(Mul(v, Transpose(u)))) * Det(u) == 1.0
  {
    SignOfUnitDets(u, v);
    SignSquare(Det(v), Det(u), Det(Mul(v, Transpose(u))));
  }

  lemma RotationDetOfUnitDets(u: Mat3, v: Mat3)
    requires Det(u) * Det(u) == 1.0 && Det(v) * Det(v) == 1.0
    ensures Det(Rotation(u, v)) == 1.0
  {
    SignProductIsOne(u, v);
    DetRotation(u, v);
  }

  lemma RotationDetIsOne(u: Mat3, v: Mat3)
    requires Orthogonal(u) && Orthogonal(v)
    ensures Det(Rotation(u, v)) == 1.0
  {
    OrthogonalDet(u);
    OrthogonalDet(v);
    RotationDetOfUnitDets(u, v);
  }

  lemma RotationOrthogonal(u: Mat3, v: Mat3)
    requires Orthogonal(u) && Orthogonal(v)
    ensures Orthogonal(Rotation(u, v))
  {
    var fix := ReflectionFix(u, v);
    ReflectionSign(u, v);
    SignDiagOrthogonal(Det(Mul(v, Transpose(u))));
    TransposeOrthogonal(u);
    OrthogonalMul(v, fix);
    OrthogonalMul(Mul(v, fix), Transpose(u));
  }

  /** The corrected rotation is a proper rotation whenever u and v are orthogonal. */
  lemma RotationIsProper(u: Mat3, v: Mat3)
    requires Orthogonal(u) && Orthogonal(v)
    ensures ProperRotation(Rotation(u, v))
  {
    RotationDetIsOne(u, v);
    RotationOrthogonal(u, v);
  }

  /** The correction changes the candidate v . u^T exactly when that candidate is a reflection. */
  lemma RotationCorrectsOnlyReflections(u: Mat3, v: Mat3)
    requires Orthogonal(u) && Orthogonal(v)
    ensures Rotation(u, v) == Mul(v, Transpose(u)) <==> Det(Mul(v, Transpose(u))) == 1.0
  {
    var candidate := Mul(v, Transpose(u));
    RotationIsProper(u, v);
    if Det(candidate) == 1.0 {
      assert ReflectionFix(u, v) == Identity();
      MulIdentity(v);
    }
  }

  /** t = c1 - R . c2, so that R . c2 + t == c1. */
  function Translation(rot: Mat3, c1: V3, c2: V3): (t: V3)
    ensures Add(Apply(rot, c2), t) == c1
  {
    Sub(c1, Apply(rot, c2))
  }

  function TransformPoint(tr: RigidTransform, x: V3): V3 {
    Add(Apply(tr.rot, x), tr.trans)
  }

  function TransformAll(tr: RigidTransform, pts: seq<V3>): (r: seq<V3>)
    ensures |r| == |pts|
    ensures forall i :: 0 <= i < |r| ==> r[i] == TransformPoint(tr, pts[i])
  {
    seq(|pts|, i requires 0 <= i < |pts| => TransformPoint(tr, pts[i]))
  }

  /** With R = I and equal centroids the transform leaves every point in place. */
  lemma IdentityAlignment(pts: seq<V3>, c: V3)
    ensures TransformAll(RigidTransform(Identity(), Translation(Identity(), c, c)), pts) == pts
  {
    ApplyIdentity(c);
    forall i | 0 <= i < |pts| {
      ApplyIdentity(pts[i]);
    }
  }

  // ---------------------------------------------------------------------------
  // Weighted centroids commute with rigid transforms

  lemma RealLinearStep(w: real, r: V3, a: V3, s: V3)
    ensures w * Dot(r, a) + Dot(r, s) == Dot(r, Add(Scale(w, a), s))
  {
  }

  lemma ApplyLinearStep(m: Mat3, w: real, a: V3, s: V3)
    ensures Add(Scale(w, Apply(m, a)), Apply(m, s)) == Apply(m, Add(Scale(w, a), s))
  {
    var lhs := Add(Scale(w, Apply(m, a)), Apply(m, s));
    var rhs := Apply(m, Add(Scale(w, a), s));
    assert lhs.x == rhs.x by { RealLinearStep(w, Row0(m), a, s); }
    assert lhs.y == rhs.y by { RealLinearStep(w, Row1(m), a, s); }
    assert lhs.z == rhs.z by { RealLinearStep(w, Row2(m), a, s); }
  }

  function Rotated(m: Mat3, v: seq<V3>): (r: seq<V3>)
    ensures |r| == |v|
    ensures forall i :: 0 <= i < |r| ==> r[i] == Apply(m, v[i])
  {
    seq(|v|, i requires 0 <= i < |v| => Apply(m, v[i]))
  }

  /** The weighted sum is linear: sum(w * (m . v)) == m . sum(w * v). */
  lemma {:induction false} WeightedSumRotated(m: Mat3, v: seq<V3>, w: seq<real>)
    requires |v| == |w|
    ensures WeightedSum(Rotated(m, v), w) == Apply(m, WeightedSum(v, w))
  {
    if v == [] {
    } else {
      WeightedSumRotated(m, v[1..], w[1..]);
      assert Rotated(m, v)[1..] == Rotated(m, v[1..]);
      ApplyLinearStep(m, w[0], v[0], WeightedSum(v[1..], w[1..]));
    }
  }

  lemma RealDivStep(r: V3, s: V3, total: real)
    requires total > 0.0
    ensures Dot(r, s) / total == Dot(r, V3(s.x / total, s.y / total, s.z / total))
  {
  }

  lemma CentroidRotated(m: Mat3, v: seq<V3>, w: seq<real>)
    requires |v| == |w| && Sum(w) > 0.0
    ensures Centroid(Rotated(m, v), w) == Apply(m, Centroid(v, w))
  {
    var s, total := WeightedSum(v, w), Sum(w);
    WeightedSumRotated(m, v, w);
    RealDivStep(Row0(m), s, total);
    RealDivStep(Row1(m), s, total);
    RealDivStep(Row2(m), s, total);
  }

  /** The weighted centroid of transformed points is the transformed centroid. */
  lemma CentroidTransformed(tr: RigidTransform, pts: seq<V3>, w: seq<real>)
    requires |pts| == |w| && Sum(w) > 0.0
    ensures Centroid(TransformAll(tr, pts), w) == TransformPoint(tr, Centroid(pts, w))
  {
    var rotated := Rotated(tr.rot, pts);
    assert TransformAll(tr, pts) == Translated(rotated, tr.trans);
    CentroidTranslated(rotated, w, tr.trans);
    CentroidRotated(tr.rot, pts, w);
  }

  // ---------------------------------------------------------------------------
  // The cross-covariance turns with the second point set

  /** One coordinate of k (q . a) == q . (k a), with the coordinate sum s = q_r . a named. */
  lemma ScaleEntry(k: real, q0: real, q1: real, q2: real, a0: real, a1: real, a2: real,
                   s: real, t0: real, t1: real, t2: real)
    requires s == q0 * a0 + q1 * a1 + q2 * a2
    requires t0 == k * a0 && t1 == k * a1 && t2 == k * a2
    ensures k * s == q0 * t0 + q1 * t1 + q2 * t2
  {
  }

  /** Scaling commutes with a linear map. */
  lemma ScaleRotated(q: Mat3, k: real, a: V3)
    ensures Apply(q, Scale(k, a)) == Scale(k, Apply(q, a))
  {
    var qa, ka := Apply(q, a), Scale(k, a);
    ScaleEntry(k, q.m00, q.m01, q.m02, a.x, a.y, a.z, qa.x, ka.x, ka.y, ka.z);
    ScaleEntry(k, q.m10, q.m11, q.m12, a.x, a.y, a.z, qa.y, ka.x, ka.y, ka.z);
    ScaleEntry(k, q.m20, q.m21, q.m22, a.x, a.y, a.z, qa.z, ka.x, ka.y, ka.z);
  }

  /** One coordinate of (k . a) b == sum_i k_i (a_i b), with s = k . a named. */
  lemma DotScaleEntry(k0: real, k1: real, k2: real, a0: real, a1: real, a2: real,
                      b: real, s: real, t0: real, t1: real, t2: real)
    requires s == k0 * a0 + k1 * a1 + k2 * a2
    requires t0 == a0 * b && t1 == a1 * b && t2 == a2 * b
    ensures s * b == k0 * t0 + k1 * t1 + k2 * t2
  {
  }

  lemma DotScaleX(k: V3, a: V3, b: V3)
    ensures Scale(Dot(k, a), b).x == Combo(k, Scale(a.x, b), Scale(a.y, b), Scale(a.z, b)).x
  {
    var ax, ay, az := Scale(a.x, b), Scale(a.y, b), Scale(a.z, b);
    DotScaleEntry(k.x, k.y, k.z, a.x, a.y, a.z, b.x, Dot(k, a), ax.x, ay.x, az.x);
  }

  lemma DotScaleY(k: V3, a: V3, b: V3)
    ensures Scale(Dot(k, a), b).y == Combo(k, Scale(a.x, b), Scale(a.y, b), Scale(a.z, b)).y
  {
    var ax, ay, az := Scale(a.x, b), Scale(a.y, b), Scale(a.z, b);
    DotScaleEntry(k.x, k.y, k.z, a.x, a.y, a.z, b.y, Dot(k, a), ax.y, ay.y, az.y);
  }

  lemma DotScaleZ(k: V3, a: V3, b: V3)
    ensures Scale(Dot(k, a), b).z == Combo(k, Scale(a.x, b), Scale(a.y, b), Scale(a.z, b)).z
  {
    var ax, ay, az := Scale(a.x, b), Scale(a.y, b), Scale(a.z, b);
    DotScaleEntry(k.x, k.y, k.z, a.x, a.y, a.z, b.z, Dot(k, a), ax.z, ay.z, az.z);
  }

  /** (k . a) b is the combination of the vectors a_i b with coefficients k. */
  lemma DotScale(k: V3, a: V3, b: V3)
    ensures Scale(Dot(k, a), b) == Combo(k, Scale(a.x, b), Scale(a.y, b), Scale(a.z, b))
  {
    DotScaleX(k, a, b);
    DotScaleY(k, a, b);
    DotScaleZ(k, a, b);
  }

  /** Row r of u v^T is u_r v. */
  lemma OuterRows(u: V3, v: V3)
    ensures Row0(Outer(u, v)) == Scale(u.x, v)
    ensures Row1(Outer(u, v)) == Scale(u.y, v)
    ensures Row2(Outer(u, v)) == Scale(u.z, v)
  {
  }

  /** (q . a) b^T == q . (a b^T). */
  lemma OuterRotated(q: Mat3, a: V3, b: V3)
    ensures Outer(Apply(q, a), b) == Mul(q, Outer(a, b))
  {
    OuterRows(Apply(q, a), b);
    OuterRows(a, b);
    MulRows(q, Outer(a, b));
    DotScale(Row0(q), a, b);
    DotScale(Row1(q), a, b);
    DotScale(Row2(q), a, b);
  }

  lemma AddEntry(q0: real, q1: real, q2: real, x0: real, x1: real, x2: real, y0: real, y1: real, y2: real)
    ensures (q0 * x0 + q1 * x1 + q2 * x2) + (q0 * y0 + q1 * y1 + q2 * y2)
         == q0 * (x0 + y0) + q1 * (x1 + y1) + q2 * (x2 + y2)
  {
  }

  /** Left multiplication distributes over the sum of two matrices. */
  lemma MulAddLeft(q: Mat3, x: Mat3, y: Mat3)
    ensures MatAdd(Mul(q, x), Mul(q, y)) == Mul(q, MatAdd(x, y))
  {
    AddEntry(q.m00, q.m01, q.m02, x.m00, x.m10, x.m20, y.m00, y.m10, y.m20);
    AddEntry(q.m00, q.m01, q.m02, x.m01, x.m11, x.m21, y.m01, y.m11, y.m21);
    AddEntry(q.m00, q.m01, q.m02, x.m02, x.m12, x.m22, y.m02, y.m12, y.m22);
    AddEntry(q.m10, q.m11, q.m12, x.m00, x.m10, x.m20, y.m00, y.m10, y.m20);
    AddEntry(q.m10, q.m11, q.m12, x.m01, x.m11, x.m21, y.m01, y.m11, y.m21);
    AddEntry(q.m10, q.m11, q.m12, x.m02, x.m12, x.m22, y.m02, y.m12, y.m22);
    AddEntry(q.m20, q.m21, q.m22, x.m00, x.m10, x.m20, y.m00, y.m10, y.m20);
    AddEntry(q.m20, q.m21, q.m22, x.m01, x.m11, x.m21, y.m01, y.m11, y.m21);
    AddEntry(q.m20, q.m21, q.m22, x.m02, x.m12, x.m22, y.m02, y.m12, y.m22);
  }

  /**
   * The second point set gives the rows of the covariance: turning it by q
   * multiplies the covariance by q from the left.
   */
  lemma {:induction false} CovarianceRotated(q: Mat3, v2: seq<V3>, v1: seq<V3>, w: seq<real>)
    requires |v2| == |w| && |v1| == |w|
    ensures Covariance(Rotated(q, v2), v1, w) == Mul(q, Covariance(v2, v1, w))
  {
    if w != [] {
      var head, tail := Outer(Scale(w[0], v2[0]), v1[0]), Covariance(v2[1..], v1[1..], w[1..]);
      assert Rotated(q, v2)[1..] == Rotated(q, v2[1..]);
      CovarianceRotated(q, v2[1..], v1[1..], w[1..]);
      ScaleRotated(q, w[0], v2[0]);
      OuterRotated(q, Scale(w[0], v2[0]), v1[0]);
      MulAddLeft(q, head, tail);
    }
  }

  // ---------------------------------------------------------------------------
  // One sample through the layer (`SVDAlign.call`)

  /** The filtered weights of a non-empty sample have a positive sum. */
  lemma WeightsSumPositive(p: Params, sample: Sample)
    requires ValidSample(sample)
    ensures Sum(Weights(p, sample)) > 0.0
  {
    SumPositive(Weights(p, sample));
  }

  /** v1 = xyz1 + norm1 * outward_shift. */
  function ShiftedXyz1(p: Params, sample: Sample): seq<V3>
    requires Channeled(sample)
  {
    Shifted(Xyz1(sample), Norm1(sample), p.outwardShift)
  }

  /** v2 = xyz2 + norm2 * outward_shift. */
  function ShiftedXyz2(p: Params, sample: Sample): seq<V3>
    requires Channeled(sample)
  {
    Shifted(Xyz2(sample), Norm2(sample), p.outwardShift)
  }

  /** The weighted centroid of v1. */
  function Centroid1(p: Params, sample: Sample): V3
    requires ValidSample(sample)
  {
    WeightsSumPositive(p, sample);
    Centroid(ShiftedXyz1(p, sample), Weights(p, sample))
  }

  /** The weighted centroid of v2. */
  function Centroid2(p: Params, sample: Sample): V3
    requires ValidSample(sample)
  {
    WeightsSumPositive(p, sample);
    Centroid(ShiftedXyz2(p, sample), Weights(p, sample))
  }

  /**
   * Both point sets, shifted by the same outward distance and centred about
   * their own weighted centroids, have weighted sum zero.
   */
  lemma CenteredSetsBalanced(p: Params, sample: Sample)
    requires ValidSample(sample)
    ensures WeightedSum(Center(ShiftedXyz1(p, sample), Centroid1(p, sample)), Weights(p, sample)) == Zero()
    ensures WeightedSum(Center(ShiftedXyz2(p, sample), Centroid2(p, sample)), Weights(p, sample)) == Zero()
  {
    WeightsSumPositive(p, sample);
    CenteredSumIsZero(ShiftedXyz1(p, sample), Weights(p, sample));
    CenteredSumIsZero(ShiftedXyz2(p, sample), Weights(p, sample));
  }

  /** cov = (v2 - c2)^T . diag(w) . (v1 - c1). */
  function CrossCovariance(p: Params, sample: Sample): Mat3
    requires ValidSample(sample)
  {
    Covariance(Center(ShiftedXyz2(p, sample), Centroid2(p, sample)),
               Center(ShiftedXyz1(p, sample), Centroid1(p, sample)),
               Weights(p, sample))
  }

  /**
   * The rigid transform the layer computes from the factors of the
   * covariance: a proper rotation, and the translation that carries the
   * centroid of v2 onto the centroid of v1.
   */
  function Solve(p: Params, sample: Sample, f: Svd): (tr: RigidTransform)
    requires ValidSample(sample) && IsSvd(CrossCovariance(p, sample), f)
    ensures tr.rot == Rotation(f.u, f.v) && ProperRotation(tr.rot)
    ensures TransformPoint(tr, Centroid2(p, sample)) == Centroid1(p, sample)
  {
    RotationIsProper(f.u, f.v);
    var rot := Rotation(f.u, f.v);
    RigidTransform(rot, Translation(rot, Centroid1(p, sample), Centroid2(p, sample)))
  }

  /** The layer's output for one sample: R . xyz2 + t, applied to the unshifted xyz2. */
  function AlignSample(p: Params, sample: Sample, f: Svd): (out: seq<V3>)
    requires ValidSample(sample) && IsSvd(CrossCovariance(p, sample), f)
    ensures |out| == |sample|
    ensures forall i :: 0 <= i < |out| ==>
              out[i] == TransformPoint(Solve(p, sample, f), V3(sample[i][4], sample[i][5], sample[i][6]))
  {
    TransformAll(Solve(p, sample, f), Xyz2(sample))
  }

  /** When the corrected rotation is the identity and the two centroids coincide, the layer returns xyz2 unchanged. */
  lemma AlignSampleIdentity(p: Params, sample: Sample, f: Svd)
    requires ValidSample(sample) && IsSvd(CrossCovariance(p, sample), f)
    requires Rotation(f.u, f.v) == Identity() && Centroid1(p, sample) == Centroid2(p, sample)
    ensures AlignSample(p, sample, f) == Xyz2(sample)
  {
    IdentityAlignment(Xyz2(sample), Centroid1(p, sample));
  }

  /** With no outward shift, the weighted centroid of the output is the centroid of xyz1. */
  lemma AlignedCentroidWithoutShift(p: Params, sample: Sample, f: Svd)
    requires ValidSample(sample) && IsSvd(CrossCovariance(p, sample), f)
    requires p.outwardShift == 0.0
    ensures Sum(Weights(p, sample)) > 0.0
    ensures Centroid(AlignSample(p, sample, f), Weights(p, sample)) == Centroid(Xyz1(sample), Weights(p, sample))
  {
    var w := Weights(p, sample);
    WeightsSumPositive(p, sample);
    ShiftedByZero(Xyz1(sample), Norm1(sample));
    ShiftedByZero(Xyz2(sample), Norm2(sample));
    CentroidTransformed(Solve(p, sample, f), Xyz2(sample), w);
  }

  // ---------------------------------------------------------------------------
  // The output is a rigid motion of xyz2

  /** |m . d|^2 as a quadratic form in d whose coefficients are the entries g of m^T . m. */
  lemma QuadForm(m00: real, m01: real, m02: real, m10: real, m11: real, m12: real,
                 m20: real, m21: real, m22: real, d0: real, d1: real, d2: real,
                 a0: real, a1: real, a2: real,
                 g00: real, g01: real, g02: real, g11: real, g12: real, g22: real)
    requires a0 == m00 * d0 + m01 * d1 + m02 * d2
    requires a1 == m10 * d0 + m11 * d1 + m12 * d2
    requires a2 == m20 * d0 + m21 * d1 + m22 * d2
    requires g00 == m00 * m00 + m10 * m10 + m20 * m20
    requires g01 == m00 * m01 + m10 * m11 + m20 * m21
    requires g02 == m00 * m02 + m10 * m12 + m20 * m22
    requires g11 == m01 * m01 + m11 * m11 + m21 * m21
    requires g12 == m01 * m02 + m11 * m12 + m21 * m22
    requires g22 == m02 * m02 + m12 * m12 + m22 * m22
    ensures a0 * a0 + a1 * a1 + a2 * a2
         == g00 * (d0 * d0) + g11 * (d1 * d1) + g22 * (d2 * d2)
          + 2.0 * (g01 * (d0 * d1) + g02 * (d0 * d2) + g12 * (d1 * d2))
  {
  }

  /** The quadratic form of the identity is the squared length. */
  lemma UnitQuadForm(g00: real, g01: real, g02: real, g11: real, g12: real, g22: real,
                     d0: real, d1: real, d2: real, q: real)
    requires g00 == 1.0 && g11 == 1.0 && g22 == 1.0 && g01 == 0.0 && g02 == 0.0 && g12 == 0.0
    requires q == g00 * (d0 * d0) + g11 * (d1 * d1) + g22 * (d2 * d2)
                + 2.0 * (g01 * (d0 * d1) + g02 * (d0 * d2) + g12 * (d1 * d2))
    ensures q == d0 * d0 + d1 * d1 + d2 * d2
  {
  }

  /** The quadratic form d . g . d of a symmetric g, from its entries on and above the diagonal. */
  function Quad(g: Mat3, d: V3): real {
    g.m00 * (d.x * d.x) + g.m11 * (d.y * d.y) + g.m22 * (d.z * d.z)
    + 2.0 * (g.m01 * (d.x * d.y) + g.m02 * (d.x * d.z) + g.m12 * (d.y * d.z))
  }

  /** The diagonal entries of mᵀ·m, written out. */
  lemma GramDiagonal(m: Mat3)
    ensures Mul(Transpose(m), m).m00 == m.m00 * m.m00 + m.m10 * m.m10 + m.m20 * m.m20
    ensures Mul(Transpose(m), m).m11 == m.m01 * m.m01 + m.m11 * m.m11 + m.m21 * m.m21
    ensures Mul(Transpose(m), m).m22 == m.m02 * m.m02 + m.m12 * m.m12 + m.m22 * m.m22
  {
  }

  /** The entries of mᵀ·m above the diagonal, written out. */
  lemma GramOffDiagonal(m: Mat3)
    ensures Mul(Transpose(m), m).m01 == m.m00 * m.m01 + m.m10 * m.m11 + m.m20 * m.m21
    ensures Mul(Transpose(m), m).m02 == m.m00 * m.m02 + m.m10 * m.m12 + m.m20 * m.m22
    ensures Mul(Transpose(m), m).m12 == m.m01 * m.m02 + m.m11 * m.m12 + m.m21 * m.m22
  {
  }

  /** The coordinates of m . d, written out. */
  lemma ApplyEntries(m: Mat3, d: V3)
    ensures Apply(m, d).x == m.m00 * d.x + m.m01 * d.y + m.m02 * d.z
    ensures Apply(m, d).y == m.m10 * d.x + m.m11 * d.y + m.m12 * d.z
    ensures Apply(m, d).z == m.m20 * d.x + m.m21 * d.y + m.m22 * d.z
  {
  }

  /** |m . d|^2 is the quadratic form of mᵀ·m. */
  lemma QuadOfApply(m: Mat3, d: V3)
    ensures Dot(Apply(m, d), Apply(m, d)) == Quad(Mul(Transpose(m), m), d)
  {
    var a, g := Apply(m, d), Mul(Transpose(m), m);
    GramDiagonal(m);
    GramOffDiagonal(m);
    ApplyEntries(m, d);
    QuadForm(m.m00, m.m01, m.m02, m.m10, m.m11, m.m12, m.m20, m.m21, m.m22, d.x, d.y, d.z,
             a.x, a.y, a.z, g.m00, g.m01, g.m02, g.m11, g.m12, g.m22);
  }

  /** The quadratic form of the identity is the squared length. */
  lemma QuadOfIdentity(d: V3)
    ensures Quad(Identity(), d) == Dot(d, d)
  {
    var g := Identity();
    UnitQuadForm(g.m00, g.m01, g.m02, g.m11, g.m12, g.m22, d.x, d.y, d.z, Quad(g, d));
  }

  /** An orthogonal matrix preserves lengths. */
  lemma OrthogonalPreservesLength(m: Mat3, d: V3)
    requires Orthogonal(m)
    ensures Dot(Apply(m, d), Apply(m, d)) == Dot(d, d)
  {
    QuadOfApply(m, d);
    QuadOfIdentity(d);
  }

  lemma RealDifferenceStep(r0: real, r1: real, r2: real, x0: real, x1: real, x2: real,
                           y0: real, y1: real, y2: real, e0: real, e1: real, e2: real,
                           ax: real, ay: real, t: real)
    requires e0 == x0 - y0 && e1 == x1 - y1 && e2 == x2 - y2
    requires ax == r0 * x0 + r1 * x1 + r2 * x2 && ay == r0 * y0 + r1 * y1 + r2 * y2
    ensures (ax + t) - (ay + t) == r0 * e0 + r1 * e1 + r2 * e2
  {
  }

  /** The difference of two transformed points is the rotated difference. */
  lemma TransformDifference(tr: RigidTransform, x: V3, y: V3)
    ensures Sub(TransformPoint(tr, x), TransformPoint(tr, y)) == Apply(tr.rot, Sub(x, y))
  {
    var m, e, ax, ay := tr.rot, Sub(x, y), Apply(tr.rot, x), Apply(tr.rot, y);
    var lhs, rhs := Sub(TransformPoint(tr, x), TransformPoint(tr, y)), Apply(m, e);
    assert lhs.x == rhs.x by {
      RealDifferenceStep(m.m00, m.m01, m.m02, x.x, x.y, x.z, y.x, y.y, y.z, e.x, e.y, e.z,
                         ax.x, ay.x, tr.trans.x);
    }
    assert lhs.y == rhs.y by {
      RealDifferenceStep(m.m10, m.m11, m.m12, x.x, x.y, x.z, y.x, y.y, y.z, e.x, e.y, e.z,
                         ax.y, ay.y, tr.trans.y);
    }
    assert lhs.z == rhs.z by {
      RealDifferenceStep(m.m20, m.m21, m.m22, x.x, x.y, x.z, y.x, y.y, y.z, e.x, e.y, e.z,
                         ax.z, ay.z, tr.trans.z);
    }
  }

  /** A transform with an orthogonal rotation keeps every distance. */
  lemma RigidPreservesDistance(tr: RigidTransform, x: V3, y: V3)
    requires Orthogonal(tr.rot)
    ensures Dist2(TransformPoint(tr, x), TransformPoint(tr, y)) == Dist2(x, y)
  {
    TransformDifference(tr, x, y);
    OrthogonalPreservesLength(tr.rot, Sub(x, y));
  }

  /** The aligned points keep the pairwise distances of xyz2: the layer moves xyz2 rigidly. */
  lemma AlignmentIsRigid(p: Params, sample: Sample, f: Svd, i: nat, j: nat)
    requires ValidSample(sample) && IsSvd(CrossCovariance(p, sample), f)
    requires i < |sample| && j < |sample|
    ensures Dist2(AlignSample(p, sample, f)[i], AlignSample(p, sample, f)[j]) == Dist2(Xyz2(sample)[i], Xyz2(sample)[j])
  {
    RigidPreservesDistance(Solve(p, sample, f), Xyz2(sample)[i], Xyz2(sample)[j]);
  }
}
