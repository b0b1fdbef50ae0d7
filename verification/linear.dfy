/**
 Homogeneous 4-vectors and 4x4 real matrices: the part of numpy the
 transform code relies on (`np.array(...).reshape(4,4)`, `@`, `.T` and
 `np.linalg.inv`). Floating point is replaced by exact reals.
 */
module Linear {
  import opened Outcome
  import opened Laplace

  datatype Vec4 = Vec4(x: real, y: real, z: real, w: real)

  /** A 4x4 matrix stored as its four rows. */
  datatype Mat4 = Mat4(r0: Vec4, r1: Vec4, r2: Vec4, r3: Vec4)

  function Dot(a: Vec4, b: Vec4): (r: real)
  {
    a.x * b.x + a.y * b.y + a.z * b.z + a.w * b.w
  }

  /** The matrix-vector product `m · v`. */
  function Apply(m: Mat4, v: Vec4): (r: Vec4)
  {
    Vec4(Dot(m.r0, v), Dot(m.r1, v), Dot(m.r2, v), Dot(m.r3, v))
  }

  function Transpose(m: Mat4): (r: Mat4)
  {
    Mat4(
      Vec4(m.r0.x, m.r1.x, m.r2.x, m.r3.x),
      Vec4(m.r0.y, m.r1.y, m.r2.y, m.r3.y),
      Vec4(m.r0.z, m.r1.z, m.r2.z, m.r3.z),
      Vec4(m.r0.w, m.r1.w, m.r2.w, m.r3.w))
  }

  /** The row vector `v` times `b`. */
  function RowTimes(v: Vec4, b: Mat4): (r: Vec4)
  {
    var t := Transpose(b);
    Vec4(Dot(v, t.r0), Dot(v, t.r1), Dot(v, t.r2), Dot(v, t.r3))
  }

  /** The matrix product `a · b`. */
  function Mul(a: Mat4, b: Mat4): (r: Mat4)
  {
    Mat4(RowTimes(a.r0, b), RowTimes(a.r1, b), RowTimes(a.r2, b), RowTimes(a.r3, b))
  }

  const Identity: Mat4 :=
    Mat4(Vec4(1.0, 0.0, 0.0, 0.0), Vec4(0.0, 1.0, 0.0, 0.0), Vec4(0.0, 0.0, 1.0, 0.0), Vec4(0.0, 0.0, 0.0, 1.0))

  function Det(m: Mat4): (r: real)
  {
    Det4(m.r0.x, m.r0.y, m.r0.z, m.r0.w, m.r1.x, m.r1.y, m.r1.z, m.r1.w, m.r2.x, m.r2.y, m.r2.z, m.r2.w, m.r3.x, m.r3.y, m.r3.z, m.r3.w)
  }

  /** The transposed matrix of cofactors: entry (i, j) is the (j, i) cofactor. */
  function Adjugate(m: Mat4): (r: Mat4)
  {
    Mat4(
      Vec4(
        D3(m.r1.y, m.r1.z, m.r1.w, m.r2.y, m.r2.z, m.r2.w, m.r3.y, m.r3.z, m.r3.w),
        -D3(m.r0.y, m.r0.z, m.r0.w, m.r2.y, m.r2.z, m.r2.w, m.r3.y, m.r3.z, m.r3.w),
        D3(m.r0.y, m.r0.z, m.r0.w, m.r1.y, m.r1.z, m.r1.w, m.r3.y, m.r3.z, m.r3.w),
        -D3(m.r0.y, m.r0.z, m.r0.w, m.r1.y, m.r1.z, m.r1.w, m.r2.y, m.r2.z, m.r2.w)),
      Vec4(
        -D3(m.r1.x, m.r1.z, m.r1.w, m.r2.x, m.r2.z, m.r2.w, m.r3.x, m.r3.z, m.r3.w),
        D3(m.r0.x, m.r0.z, m.r0.w, m.r2.x, m.r2.z, m.r2.w, m.r3.x, m.r3.z, m.r3.w),
        -D3(m.r0.x, m.r0.z, m.r0.w, m.r1.x, m.r1.z, m.r1.w, m.r3.x, m.r3.z, m.r3.w),
        D3(m.r0.x, m.r0.z, m.r0.w, m.r1.x, m.r1.z, m.r1.w, m.r2.x, m.r2.z, m.r2.w)),
      Vec4(
        D3(m.r1.x, m.r1.y, m.r1.w, m.r2.x, m.r2.y, m.r2.w, m.r3.x, m.r3.y, m.r3.w),
        -D3(m.r0.x, m.r0.y, m.r0.w, m.r2.x, m.r2.y, m.r2.w, m.r3.x, m.r3.y, m.r3.w),
        D3(m.r0.x, m.r0.y, m.r0.w, m.r1.x, m.r1.y, m.r1.w, m.r3.x, m.r3.y, m.r3.w),
        -D3(m.r0.x, m.r0.y, m.r0.w, m.r1.x, m.r1.y, m.r1.w, m.r2.x, m.r2.y, m.r2.w)),
      Vec4(
        -D3(m.r1.x, m.r1.y, m.r1.z, m.r2.x, m.r2.y, m.r2.z, m.r3.x, m.r3.y, m.r3.z),
        D3(m.r0.x, m.r0.y, m.r0.z, m.r2.x, m.r2.y, m.r2.z, m.r3.x, m.r3.y, m.r3.z),
        -D3(m.r0.x, m.r0.y, m.r0.z, m.r1.x, m.r1.y, m.r1.z, m.r3.x, m.r3.y, m.r3.z),
        D3(m.r0.x, m.r0.y, m.r0.z, m.r1.x, m.r1.y, m.r1.z, m.r2.x, m.r2.y, m.r2.z)))
  }

  function DivideAll(v: Vec4, d: real): (r: Vec4)
    requires d != 0.0
  {
    Vec4(v.x / d, v.y / d, v.z / d, v.w / d)
  }

  /** `np.linalg.inv`: fails exactly on singular matrices, and otherwise
      returns a matrix that undoes `m`. */
  function Invert(m: Mat4): (r: Result<Mat4>)
    ensures r.Err? <==> Det(m) == 0.0
    ensures r.Err? ==> r.error == SingularMatrix
    ensures r.Ok? ==> Mul(r.value, m) == Identity
  {
    var d := Det(m);
    if d == 0.0 then Err(SingularMatrix)
    else
      var a := Adjugate(m);
      var inv := Mat4(DivideAll(a.r0, d), DivideAll(a.r1, d), DivideAll(a.r2, d), DivideAll(a.r3, d));
      AdjugateTimes(m);
      ScaledInverse(a, m, d);
      Ok(inv)
  }

  /** The adjugate times the matrix is the determinant times the identity. */
  lemma AdjugateTimes(m: Mat4)
    ensures var d := Det(m);
      Mul(Adjugate(m), m)
        == Mat4(Vec4(d, 0.0, 0.0, 0.0), Vec4(0.0, d, 0.0, 0.0), Vec4(0.0, 0.0, d, 0.0), Vec4(0.0, 0.0, 0.0, d))
  {
    AdjugateEntry00(m);
    AdjugateEntry01(m);
    AdjugateEntry02(m);
    AdjugateEntry03(m);
    AdjugateEntry10(m);
    AdjugateEntry11(m);
    AdjugateEntry12(m);
    AdjugateEntry13(m);
    AdjugateEntry20(m);
    AdjugateEntry21(m);
    AdjugateEntry22(m);
    AdjugateEntry23(m);
    AdjugateEntry30(m);
    AdjugateEntry31(m);
    AdjugateEntry32(m);
    AdjugateEntry33(m);
  }

  // Entry (i, j) of `Adjugate(m) · m`, one lemma per entry, each an
  // instance of the matching identity of `Laplace`.

  lemma AdjugateEntry00(m: Mat4)
    ensures Dot(Adjugate(m).r0, Transpose(m).r0) == Det(m)
  {
    Column0Cofactors0(m.r0.x, m.r0.y, m.r0.z, m.r0.w, m.r1.x, m.r1.y, m.r1.z, m.r1.w, m.r2.x, m.r2.y, m.r2.z, m.r2.w, m.r3.x, m.r3.y, m.r3.z, m.r3.w);
  }

  lemma AdjugateEntry01(m: Mat4)
    ensures Dot(Adjugate(m).r0, Transpose(m).r1) == 0.0
  {
    Column1Cofactors0(m.r0.x, m.r0.y, m.r0.z, m.r0.w, m.r1.x, m.r1.y, m.r1.z, m.r1.w, m.r2.x, m.r2.y, m.r2.z, m.r2.w, m.r3.x, m.r3.y, m.r3.z, m.r3.w);
  }

  lemma AdjugateEntry02(m: Mat4)
    ensures Dot(Adjugate(m).r0, Transpose(m).r2) == 0.0
  {
    Column2Cofactors0(m.r0.x, m.r0.y, m.r0.z, m.r0.w, m.r1.x, m.r1.y, m.r1.z, m.r1.w, m.r2.x, m.r2.y, m.r2.z, m.r2.w, m.r3.x, m.r3.y, m.r3.z, m.r3.w);
  }

  lemma AdjugateEntry03(m: Mat4)
    ensures Dot(Adjugate(m).r0, Transpose(m).r3) == 0.0
  {
    Column3Cofactors0(m.r0.x, m.r0.y, m.r0.z, m.r0.w, m.r1.x, m.r1.y, m.r1.z, m.r1.w, m.r2.x, m.r2.y, m.r2.z, m.r2.w, m.r3.x, m.r3.y, m.r3.z, m.r3.w);
  }

  lemma AdjugateEntry10(m: Mat4)
    ensures Dot(Adjugate(m).r1, Transpose(m).r0) == 0.0
  {
    Column0Cofactors1(m.r0.x, m.r0.y, m.r0.z, m.r0.w, m.r1.x, m.r1.y, m.r1.z, m.r1.w, m.r2.x, m.r2.y, m.r2.z, m.r2.w, m.r3.x, m.r3.y, m.r3.z, m.r3.w);
  }

  lemma AdjugateEntry11(m: Mat4)
    ensures Dot(Adjugate(m).r1, Transpose(m).r1) == Det(m)
  {
    Column1Cofactors1(m.r0.x, m.r0.y, m.r0.z, m.r0.w, m.r1.x, m.r1.y, m.r1.z, m.r1.w, m.r2.x, m.r2.y, m.r2.z, m.r2.w, m.r3.x, m.r3.y, m.r3.z, m.r3.w);
  }

  lemma AdjugateEntry12(m: Mat4)
    ensures Dot(Adjugate(m).r1, Transpose(m).r2) == 0.0
  {
    Column2Cofactors1(m.r0.x, m.r0.y, m.r0.z, m.r0.w, m.r1.x, m.r1.y, m.r1.z, m.r1.w, m.r2.x, m.r2.y, m.r2.z, m.r2.w, m.r3.x, m.r3.y, m.r3.z, m.r3.w);
  }

  lemma AdjugateEntry13(m: Mat4)
    ensures Dot(Adjugate(m).r1, Transpose(m).r3) == 0.0
  {
    Column3Cofactors1(m.r0.x, m.r0.y, m.r0.z, m.r0.w, m.r1.x, m.r1.y, m.r1.z, m.r1.w, m.r2.x, m.r2.y, m.r2.z, m.r2.w, m.r3.x, m.r3.y, m.r3.z, m.r3.w);
  }

  lemma AdjugateEntry20(m: Mat4)
    ensures Dot(Adjugate(m).r2, Transpose(m).r0) == 0.0
  {
    Column0Cofactors2(m.r0.x, m.r0.y, m.r0.z, m.r0.w, m.r1.x, m.r1.y, m.r1.z, m.r1.w, m.r2.x, m.r2.y, m.r2.z, m.r2.w, m.r3.x, m.r3.y, m.r3.z, m.r3.w);
  }

  lemma AdjugateEntry21(m: Mat4)
    ensures Dot(Adjugate(m).r2, Transpose(m).r1) == 0.0
  {
    Column1Cofactors2(m.r0.x, m.r0.y, m.r0.z, m.r0.w, m.r1.x, m.r1.y, m.r1.z, m.r1.w, m.r2.x, m.r2.y, m.r2.z, m.r2.w, m.r3.x, m.r3.y, m.r3.z, m.r3.w);
  }

  lemma AdjugateEntry22(m: Mat4)
    ensures Dot(Adjugate(m).r2, Transpose(m).r2) == Det(m)
  {
    Column2Cofactors2(m.r0.x, m.r0.y, m.r0.z, m.r0.w, m.r1.x, m.r1.y, m.r1.z, m.r1.w, m.r2.x, m.r2.y, m.r2.z, m.r2.w, m.r3.x, m.r3.y, m.r3.z, m.r3.w);
  }

  lemma AdjugateEntry23(m: Mat4)
    ensures Dot(Adjugate(m).r2, Transpose(m).r3) == 0.0
  {
    Column3Cofactors2(m.r0.x, m.r0.y, m.r0.z, m.r0.w, m.r1.x, m.r1.y, m.r1.z, m.r1.w, m.r2.x, m.r2.y, m.r2.z, m.r2.w, m.r3.x, m.r3.y, m.r3.z, m.r3.w);
  }

  lemma AdjugateEntry30(m: Mat4)
    ensures Dot(Adjugate(m).r3, Transpose(m).r0) == 0.0
  {
    Column0Cofactors3(m.r0.x, m.r0.y, m.r0.z, m.r0.w, m.r1.x, m.r1.y, m.r1.z, m.r1.w, m.r2.x, m.r2.y, m.r2.z, m.r2.w, m.r3.x, m.r3.y, m.r3.z, m.r3.w);
  }

  lemma AdjugateEntry31(m: Mat4)
    ensures Dot(Adjugate(m).r3, Transpose(m).r1) == 0.0
  {
    Column1Cofactors3(m.r0.x, m.r0.y, m.r0.z, m.r0.w, m.r1.x, m.r1.y, m.r1.z, m.r1.w, m.r2.x, m.r2.y, m.r2.z, m.r2.w, m.r3.x, m.r3.y, m.r3.z, m.r3.w);
  }

  lemma AdjugateEntry32(m: Mat4)
    ensures Dot(Adjugate(m).r3, Transpose(m).r2) == 0.0
  {
    Column2Cofactors3(m.r0.x, m.r0.y, m.r0.z, m.r0.w, m.r1.x, m.r1.y, m.r1.z, m.r1.w, m.r2.x, m.r2.y, m.r2.z, m.r2.w, m.r3.x, m.r3.y, m.r3.z, m.r3.w);
  }

  lemma AdjugateEntry33(m: Mat4)
    ensures Dot(Adjugate(m).r3, Transpose(m).r3) == Det(m)
  {
    Column3Cofactors3(m.r0.x, m.r0.y, m.r0.z, m.r0.w, m.r1.x, m.r1.y, m.r1.z, m.r1.w, m.r2.x, m.r2.y, m.r2.z, m.r2.w, m.r3.x, m.r3.y, m.r3.z, m.r3.w);
  }

  /** Dividing every term of a dot product by `d` divides the sum. */
  lemma DivideDot(a: Vec4, b: Vec4, d: real)
    requires d != 0.0
    ensures Dot(DivideAll(a, d), b) == Dot(a, b) / d
  {
  }

  lemma DivideRowTimes(v: Vec4, m: Mat4, d: real)
    requires d != 0.0
    ensures RowTimes(DivideAll(v, d), m) == DivideAll(RowTimes(v, m), d)
  {
    var t := Transpose(m);
    DivideDot(v, t.r0, d);
    DivideDot(v, t.r1, d);
    DivideDot(v, t.r2, d);
    DivideDot(v, t.r3, d);
  }

  lemma ScaledInverse(a: Mat4, m: Mat4, d: real)
    requires d != 0.0
    requires Mul(a, m)
      == Mat4(Vec4(d, 0.0, 0.0, 0.0), Vec4(0.0, d, 0.0, 0.0), Vec4(0.0, 0.0, d, 0.0), Vec4(0.0, 0.0, 0.0, d))
    ensures Mul(Mat4(DivideAll(a.r0, d), DivideAll(a.r1, d), DivideAll(a.r2, d), DivideAll(a.r3, d)), m) == Identity
  {
    DivideRowTimes(a.r0, m, d);
    DivideRowTimes(a.r1, m, d);
    DivideRowTimes(a.r2, m, d);
    DivideRowTimes(a.r3, m, d);
  }

  /** Applying a product is applying its factors in turn. */
  lemma ApplyMul(a: Mat4, b: Mat4, v: Vec4)
    ensures Apply(a, Apply(b, v)) == Apply(Mul(a, b), v)
  {
    DotApply(a.r0, b, v);
    DotApply(a.r1, b, v);
    DotApply(a.r2, b, v);
    DotApply(a.r3, b, v);
  }

  lemma DotApply(r: Vec4, b: Mat4, v: Vec4)
    ensures Dot(r, Apply(b, v)) == Dot(RowTimes(r, b), v)
  {
    SwapSums(r.x, r.y, r.z, r.w,
      b.r0.x, b.r0.y, b.r0.z, b.r0.w, b.r1.x, b.r1.y, b.r1.z, b.r1.w,
      b.r2.x, b.r2.y, b.r2.z, b.r2.w, b.r3.x, b.r3.y, b.r3.z, b.r3.w,
      v.x, v.y, v.z, v.w);
  }

  /** `DotApply` over the entries themselves. */
  lemma SwapSums(r0: real, r1: real, r2: real, r3: real,
      b00: real, b01: real, b02: real, b03: real, b10: real, b11: real, b12: real, b13: real,
      b20: real, b21: real, b22: real, b23: real, b30: real, b31: real, b32: real, b33: real,
      v0: real, v1: real, v2: real, v3: real)
    ensures var r, v := Vec4(r0, r1, r2, r3), Vec4(v0, v1, v2, v3);
      var b := Mat4(Vec4(b00, b01, b02, b03), Vec4(b10, b11, b12, b13), Vec4(b20, b21, b22, b23), Vec4(b30, b31, b32, b33));
      Dot(r, Apply(b, v)) == Dot(RowTimes(r, b), v)
  {
    assert r0 * (b00 * v0 + b01 * v1 + b02 * v2 + b03 * v3) + r1 * (b10 * v0 + b11 * v1 + b12 * v2 + b13 * v3)
      + r2 * (b20 * v0 + b21 * v1 + b22 * v2 + b23 * v3) + r3 * (b30 * v0 + b31 * v1 + b32 * v2 + b33 * v3)
      == (r0 * b00 + r1 * b10 + r2 * b20 + r3 * b30) * v0 + (r0 * b01 + r1 * b11 + r2 * b21 + r3 * b31) * v1
      + (r0 * b02 + r1 * b12 + r2 * b22 + r3 * b32) * v2 + (r0 * b03 + r1 * b13 + r2 * b23 + r3 * b33) * v3;
  }

  lemma ApplyIdentity(v: Vec4)
    ensures Apply(Identity, v) == v
  {
  }
}
