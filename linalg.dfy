/**
 * Exact 3-D linear algebra over `real`: the vectors and 3x3 matrices that the
 * rigid-alignment layer manipulates, one sample at a time (the per-sample
 * meaning of Keras `batch_dot` and `permute_dimensions`, and of
 * `tf.linalg.det` and `tf.linalg.diag`).
 */
module LinAlg {

  /** A point, a surface normal or a translation. */
  datatype V3 = V3(x: real, y: real, z: real)

  /** A 3x3 matrix; `mij` is the entry in row i, column j. */
  datatype Mat3 = Mat3(m00: real, m01: real, m02: real,
                       m10: real, m11: real, m12: real,
                       m20: real, m21: real, m22: real)

  function Zero(): V3 { V3(0.0, 0.0, 0.0) }

  function Add(u: V3, v: V3): V3 { V3(u.x + v.x, u.y + v.y, u.z + v.z) }

  function Sub(u: V3, v: V3): V3 { V3(u.x - v.x, u.y - v.y, u.z - v.z) }

  function Scale(k: real, v: V3): V3 { V3(k * v.x, k * v.y, k * v.z) }

  function Dot(u: V3, v: V3): real { u.x * v.x + u.y * v.y + u.z * v.z }

  function Cross(u: V3, v: V3): V3 {
    V3(u.y * v.z - u.z * v.y, u.z * v.x - u.x * v.z, u.x * v.y - u.y * v.x)
  }

  /** The scalar triple product u . (v x w). */
  function Triple(u: V3, v: V3, w: V3): real { Dot(u, Cross(v, w)) }

  /** k.x * u0 + k.y * u1 + k.z * u2. */
  function Combo(k: V3, u0: V3, u1: V3, u2: V3): V3 {
    V3(k.x * u0.x + k.y * u1.x + k.z * u2.x,
       k.x * u0.y + k.y * u1.y + k.z * u2.y,
       k.x * u0.z + k.y * u1.z + k.z * u2.z)
  }

  function Identity(): Mat3 { Mat3(1.0, 0.0, 0.0, 0.0, 1.0, 0.0, 0.0, 0.0, 1.0) }

  /** `tf.linalg.diag` of a 3-vector. */
  function Diag(d: V3): Mat3 { Mat3(d.x, 0.0, 0.0, 0.0, d.y, 0.0, 0.0, 0.0, d.z) }

  function Transpose(m: Mat3): Mat3 {
    Mat3(m.m00, m.m10, m.m20, m.m01, m.m11, m.m21, m.m02, m.m12, m.m22)
  }

  function Row0(m: Mat3): V3 { V3(m.m00, m.m01, m.m02) }
  function Row1(m: Mat3): V3 { V3(m.m10, m.m11, m.m12) }
  function Row2(m: Mat3): V3 { V3(m.m20, m.m21, m.m22) }

  /** The matrix product p . q. */
  function Mul(p: Mat3, q: Mat3): Mat3 {
    Mat3(p.m00 * q.m00 + p.m01 * q.m10 + p.m02 * q.m20,
         p.m00 * q.m01 + p.m01 * q.m11 + p.m02 * q.m21,
         p.m00 * q.m02 + p.m01 * q.m12 + p.m02 * q.m22,
         p.m10 * q.m00 + p.m11 * q.m10 + p.m12 * q.m20,
         p.m10 * q.m01 + p.m11 * q.m11 + p.m12 * q.m21,
         p.m10 * q.m02 + p.m11 * q.m12 + p.m12 * q.m22,
         p.m20 * q.m00 + p.m21 * q.m10 + p.m22 * q.m20,
         p.m20 * q.m01 + p.m21 * q.m11 + p.m22 * q.m21,
         p.m20 * q.m02 + p.m21 * q.m12 + p.m22 * q.m22)
  }

  /** The matrix-vector product m . v. */
  function Apply(m: Mat3, v: V3): V3 { V3(Dot(Row0(m), v), Dot(Row1(m), v), Dot(Row2(m), v)) }

  /** The determinant, expanded along the first row. */
  function Det(m: Mat3): real {
    m.m00 * (m.m11 * m.m22 - m.m12 * m.m21)
    - m.m01 * (m.m10 * m.m22 - m.m12 * m.m20)
    + m.m02 * (m.m10 * m.m21 - m.m11 * m.m20)
  }

  /** The sum of a sequence of reals. */
  function Sum(s: seq<real>): real {
    if s == [] then 0.0 else s[0] + Sum(s[1..])
  }

  /** The squared Euclidean distance. */
  function Dist2(x: V3, y: V3): (d: real)
    ensures d >= 0.0
  {
    var e := Sub(x, y);
    SquaresNonNegative(e.x, e.y, e.z);
    Dot(e, e)
  }

  lemma ProductPositive(a: real, b: real, x: real)
    requires a > 0.0 && b > 0.0 && x == a * b
    ensures x > 0.0
  {
  }

  lemma SquareNonNegative(a: real, x: real)
    requires x == a * a
    ensures x >= 0.0
  {
  }

  lemma SquaresNonNegative(a: real, b: real, c: real)
    ensures a * a + b * b + c * c >= 0.0
  {
    SquareNonNegative(a, a * a);
    SquareNonNegative(b, b * b);
    SquareNonNegative(c, c * c);
  }

  /** A sum of three squares is positive unless all three roots are zero. */
  lemma SquaresPositive(a: real, b: real, c: real, s: real)
    requires a != 0.0 || b != 0.0 || c != 0.0
    requires s == a * a + b * b + c * c
    ensures s > 0.0
  {
    SquaresNonNegative(a, b, c);
    if a != 0.0 {
      ProductPositive(if a > 0.0 then a else -a, if a > 0.0 then a else -a, a * a);
    } else if b != 0.0 {
      ProductPositive(if b > 0.0 then b else -b, if b > 0.0 then b else -b, b * b);
    } else {
      ProductPositive(if c > 0.0 then c else -c, if c > 0.0 then c else -c, c * c);
    }
  }

  /** The squared distance vanishes exactly between equal points. */
  lemma Dist2ZeroIff(x: V3, y: V3)
    ensures Dist2(x, y) == 0.0 <==> x == y
  {
    var e := Sub(x, y);
    assert Dist2(x, y) == e.x * e.x + e.y * e.y + e.z * e.z;
    if x == y {
      assert e == Zero();
    } else {
      assert e.x != 0.0 || e.y != 0.0 || e.z != 0.0;
      SquaresPositive(e.x, e.y, e.z, Dist2(x, y));
    }
  }

  /** A matrix whose transpose is its inverse on both sides. */
  ghost predicate Orthogonal(m: Mat3) {
    Mul(Transpose(m), m) == Identity() && Mul(m, Transpose(m)) == Identity()
  }

  /** A proper rotation: orthogonal with determinant +1 (no mirror image). */
  ghost predicate ProperRotation(m: Mat3) {
    Orthogonal(m) && Det(m) == 1.0
  }

  // ---------------------------------------------------------------------------
  // Ring laws of 3x3 matrices

  lemma MulIdentity(m: Mat3)
    ensures Mul(Identity(), m) == m && Mul(m, Identity()) == m
  {
  }

  lemma ApplyIdentity(v: V3)
    ensures Apply(Identity(), v) == v
  {
  }

  lemma TransposeMul(p: Mat3, q: Mat3)
    ensures Transpose(Mul(p, q)) == Mul(Transpose(q), Transpose(p))
  {
  }

  /** One entry of the associativity law, with s = k . q and t = q . r spelled out. */
  lemma AssocEntry(k0: real, k1: real, k2: real,
                   q00: real, q01: real, q02: real, q10: real, q11: real, q12: real,
                   q20: real, q21: real, q22: real, r0: real, r1: real, r2: real,
                   s0: real, s1: real, s2: real, t0: real, t1: real, t2: real)
    requires s0 == k0 * q00 + k1 * q10 + k2 * q20
    requires s1 == k0 * q01 + k1 * q11 + k2 * q21
    requires s2 == k0 * q02 + k1 * q12 + k2 * q22
    requires t0 == q00 * r0 + q01 * r1 + q02 * r2
    requires t1 == q10 * r0 + q11 * r1 + q12 * r2
    requires t2 == q20 * r0 + q21 * r1 + q22 * r2
    ensures s0 * r0 + s1 * r1 + s2 * r2 == k0 * t0 + k1 * t1 + k2 * t2
  {
  }

  /** Row i of a product is row i of the left factor times the right factor. */
  lemma MulRows(p: Mat3, q: Mat3)
    ensures Row0(Mul(p, q)) == Combo(Row0(p), Row0(q), Row1(q), Row2(q))
    ensures Row1(Mul(p, q)) == Combo(Row1(p), Row0(q), Row1(q), Row2(q))
    ensures Row2(Mul(p, q)) == Combo(Row2(p), Row0(q), Row1(q), Row2(q))
  {
  }

  lemma ComboAssoc0(k: V3, q: Mat3, r: Mat3)
    ensures Combo(Combo(k, Row0(q), Row1(q), Row2(q)), Row0(r), Row1(r), Row2(r)).x
         == Combo(k, Row0(Mul(q, r)), Row1(Mul(q, r)), Row2(Mul(q, r))).x
  {
    var s := Combo(k, Row0(q), Row1(q), Row2(q));
    var qr := Mul(q, r);
    AssocEntry(k.x, k.y, k.z, q.m00, q.m01, q.m02, q.m10, q.m11, q.m12, q.m20, q.m21, q.m22,
               r.m00, r.m10, r.m20, s.x, s.y, s.z, qr.m00, qr.m10, qr.m20);
  }

  lemma ComboAssoc1(k: V3, q: Mat3, r: Mat3)
    ensures Combo(Combo(k, Row0(q), Row1(q), Row2(q)), Row0(r), Row1(r), Row2(r)).y
         == Combo(k, Row0(Mul(q, r)), Row1(Mul(q, r)), Row2(Mul(q, r))).y
  {
    var s := Combo(k, Row0(q), Row1(q), Row2(q));
    var qr := Mul(q, r);
    AssocEntry(k.x, k.y, k.z, q.m00, q.m01, q.m02, q.m10, q.m11, q.m12, q.m20, q.m21, q.m22,
               r.m01, r.m11, r.m21, s.x, s.y, s.z, qr.m01, qr.m11, qr.m21);
  }

  lemma ComboAssoc2(k: V3, q: Mat3, r: Mat3)
    ensures Combo(Combo(k, Row0(q), Row1(q), Row2(q)), Row0(r), Row1(r), Row2(r)).z
         == Combo(k, Row0(Mul(q, r)), Row1(Mul(q, r)), Row2(Mul(q, r))).z
  {
    var s := Combo(k, Row0(q), Row1(q), Row2(q));
    var qr := Mul(q, r);
    AssocEntry(k.x, k.y, k.z, q.m00, q.m01, q.m02, q.m10, q.m11, q.m12, q.m20, q.m21, q.m22,
               r.m02, r.m12, r.m22, s.x, s.y, s.z, qr.m02, qr.m12, qr.m22);
  }

  /** (k . q) . r == k . (q . r) for a row vector k. */
  lemma ComboAssoc(k: V3, q: Mat3, r: Mat3)
    ensures Combo(Combo(k, Row0(q), Row1(q), Row2(q)), Row0(r), Row1(r), Row2(r))
         == Combo(k, Row0(Mul(q, r)), Row1(Mul(q, r)), Row2(Mul(q, r)))
  {
    ComboAssoc0(k, q, r);
    ComboAssoc1(k, q, r);
    ComboAssoc2(k, q, r);
  }

  lemma MulAssoc(p: Mat3, q: Mat3, r: Mat3)
    ensures Mul(Mul(p, q), r) == Mul(p, Mul(q, r))
  {
    MulRows(p, q);
    MulRows(Mul(p, q), r);
    MulRows(q, r);
    MulRows(p, Mul(q, r));
    ComboAssoc(Row0(p), q, r);
    ComboAssoc(Row1(p), q, r);
    ComboAssoc(Row2(p), q, r);
  }

  // ---------------------------------------------------------------------------
  // Determinants

  lemma DetTriple(m: Mat3)
    ensures Det(m) == Triple(Row0(m), Row1(m), Row2(m))
  {
  }

  lemma TripleCyclic(u: V3, v: V3, w: V3)
    ensures Triple(u, v, w) == Triple(v, w, u)
  {
  }

  lemma TripleSwap(u: V3, v: V3, w: V3)
    ensures Triple(v, u, w) == -Triple(u, v, w)
  {
  }

  lemma TripleRepeated(u: V3, v: V3)
    ensures Triple(u, v, u) == 0.0 && Triple(u, v, v) == 0.0 && Triple(u, u, v) == 0.0
  {
  }

  /** The triple product is linear in its first argument. */
  lemma TripleCombo(k: V3, u0: V3, u1: V3, u2: V3, v: V3, w: V3)
    ensures Triple(Combo(k, u0, u1, u2), v, w)
         == k.x * Triple(u0, v, w) + k.y * Triple(u1, v, w) + k.z * Triple(u2, v, w)
  {
    var c, s := Cross(v, w), Combo(k, u0, u1, u2);
    AssocEntry(k.x, k.y, k.z, u0.x, u0.y, u0.z, u1.x, u1.y, u1.z, u2.x, u2.y, u2.z,
               c.x, c.y, c.z, s.x, s.y, s.z, Dot(u0, c), Dot(u1, c), Dot(u2, c));
  }

  /** ... and, by cyclic symmetry, in its second. */
  lemma TripleMiddleCombo(u: V3, k: V3, u0: V3, u1: V3, u2: V3, w: V3)
    ensures Triple(u, Combo(k, u0, u1, u2), w)
         == k.x * Triple(w, u, u0) + k.y * Triple(w, u, u1) + k.z * Triple(w, u, u2)
  {
    var q := Combo(k, u0, u1, u2);
    TripleCyclic(u, q, w);
    TripleCombo(k, u0, u1, u2, w, u);
    TripleCyclic(u0, w, u);
    TripleCyclic(u1, w, u);
    TripleCyclic(u2, w, u);
  }

  /** Expansion of the second and third arguments at once. */
  lemma TripleBilinear(w: V3, k1: V3, k2: V3, u0: V3, u1: V3, u2: V3)
    ensures Triple(w, Combo(k1, u0, u1, u2), Combo(k2, u0, u1, u2))
         == k1.x * (k2.x * Triple(w, u0, u0) + k2.y * Triple(w, u0, u1) + k2.z * Triple(w, u0, u2))
          + k1.y * (k2.x * Triple(w, u1, u0) + k2.y * Triple(w, u1, u1) + k2.z * Triple(w, u1, u2))
          + k1.z * (k2.x * Triple(w, u2, u0) + k2.y * Triple(w, u2, u1) + k2.z * Triple(w, u2, u2))
  {
    var q1, q2 := Combo(k1, u0, u1, u2), Combo(k2, u0, u1, u2);
    TripleCyclic(w, q1, q2);
    TripleCombo(k1, u0, u1, u2, q2, w);
    TripleMiddleCombo(u0, k2, u0, u1, u2, w);
    TripleMiddleCombo(u1, k2, u0, u1, u2, w);
    TripleMiddleCombo(u2, k2, u0, u1, u2, w);
  }

  /** The rows u0, u1, u2 in first place against two combinations of them. */
  lemma TripleOfCombos(k1: V3, k2: V3, u0: V3, u1: V3, u2: V3)
    ensures Triple(u0, Combo(k1, u0, u1, u2), Combo(k2, u0, u1, u2)) == Triple(u0, u1, u2) * Cross(k1, k2).x
    ensures Triple(u1, Combo(k1, u0, u1, u2), Combo(k2, u0, u1, u2)) == Triple(u0, u1, u2) * Cross(k1, k2).y
    ensures Triple(u2, Combo(k1, u0, u1, u2), Combo(k2, u0, u1, u2)) == Triple(u0, u1, u2) * Cross(k1, k2).z
  {
    TripleBilinear(u0, k1, k2, u0, u1, u2);
    TripleBilinear(u1, k1, k2, u0, u1, u2);
    TripleBilinear(u2, k1, k2, u0, u1, u2);
    TripleRepeated(u0, u1); TripleRepeated(u0, u2); TripleRepeated(u1, u0);
    TripleRepeated(u1, u2); TripleRepeated(u2, u0); TripleRepeated(u2, u1);
    TripleRepeated(u0, u0); TripleRepeated(u1, u1); TripleRepeated(u2, u2);
    TripleCyclic(u0, u1, u2); TripleCyclic(u1, u2, u0);
    TripleSwap(u0, u1, u2); TripleSwap(u1, u2, u0); TripleSwap(u2, u0, u1);
  }

  /** Pulling a common factor d out of a three-term sum. */
  lemma ScaledSum(a0: real, a1: real, a2: real, d: real, c0: real, c1: real, c2: real, t: real)
    requires t == a0 * c0 + a1 * c1 + a2 * c2
    ensures a0 * (d * c0) + a1 * (d * c1) + a2 * (d * c2) == d * t
  {
  }

  /** The determinant is multiplicative. */
  lemma DetMul(p: Mat3, q: Mat3)
    ensures Det(Mul(p, q)) == Det(p) * Det(q)
  {
    var u0, u1, u2 := Row0(q), Row1(q), Row2(q);
    var k0, k1, k2 := Row0(p), Row1(p), Row2(p);
    var q1, q2 := Combo(k1, u0, u1, u2), Combo(k2, u0, u1, u2);
    var dq, c := Triple(u0, u1, u2), Cross(k1, k2);
    DetTriple(q);
    DetTriple(p);
    DetTriple(Mul(p, q));
    MulRows(p, q);
    TripleCombo(k0, u0, u1, u2, q1, q2);
    TripleOfCombos(k1, k2, u0, u1, u2);
    calc {
      Det(Mul(p, q));
      k0.x * Triple(u0, q1, q2) + k0.y * Triple(u1, q1, q2) + k0.z * Triple(u2, q1, q2);
      k0.x * (dq * c.x) + k0.y * (dq * c.y) + k0.z * (dq * c.z);
      { ScaledSum(k0.x, k0.y, k0.z, dq, c.x, c.y, c.z, Triple(k0, k1, k2)); }
      dq * Triple(k0, k1, k2);
    }
  }

  lemma DetTranspose(m: Mat3)
    ensures Det(Transpose(m)) == Det(m)
  {
  }

  lemma DetDiag(d: V3)
    ensures Det(Diag(d)) == d.x * d.y * d.z
  {
  }

  lemma DetIdentity()
    ensures Det(Identity()) == 1.0
  {
  }

  /** A matrix with a left inverse has an invertible determinant. */
  lemma DetInverse(p: Mat3, q: Mat3)
    requires Mul(p, q) == Identity()
    ensures Det(p) * Det(q) == 1.0
  {
    var i := Mul(p, q);
    DetMul(p, q);
    DetIdentity();
    assert Det(i) == Det(Identity());
  }

  /** An orthogonal matrix has determinant +1 or -1. */
  lemma OrthogonalDet(m: Mat3)
    requires Orthogonal(m)
    ensures Det(m) * Det(m) == 1.0
  {
    DetInverse(Transpose(m), m);
    DetTranspose(m);
  }

  /** Products of orthogonal matrices are orthogonal. */
  lemma OrthogonalMul(p: Mat3, q: Mat3)
    requires Orthogonal(p) && Orthogonal(q)
    ensures Orthogonal(Mul(p, q))
  {
    TransposeMul(p, q);
    var pt, qt := Transpose(p), Transpose(q);
    calc {
      Mul(Mul(qt, pt), Mul(p, q));
      { MulAssoc(qt, pt, Mul(p, q)); MulAssoc(pt, p, q); }
      Mul(qt, Mul(Mul(pt, p), q));
      { MulIdentity(q); }
      Mul(qt, q);
    }
    calc {
      Mul(Mul(p, q), Mul(qt, pt));
      { MulAssoc(p, q, Mul(qt, pt)); MulAssoc(q, qt, pt); }
      Mul(p, Mul(Mul(q, qt), pt));
      { MulIdentity(pt); }
      Mul(p, pt);
    }
  }
}
