/**
 Cofactor (Laplace) expansion identities for 4x4 matrices, stated over the
 sixteen entries `eij` (row i, column j) as plain reals. Column `j`
 expanded against the cofactors of column `i` gives the determinant when
 `i == j` (expansion along a column agrees with expansion along the bottom
 row) and zero otherwise (a matrix with two equal columns is singular).
 Each identity is its own lemma: the solver proves them one at a time.
 */
module Laplace {

  /** The 3x3 determinant of the rows (a, b, c), (d, e, f), (g, h, k). */
  function D3(a: real, b: real, c: real, d: real, e: real, f: real, g: real, h: real, k: real): (r: real)
  {
    a * (e * k - f * h) - b * (d * k - f * g) + c * (d * h - e * g)
  }

  /** The determinant by expansion along the bottom row. */
  function Det4(
      e00: real, e01: real, e02: real, e03: real,
      e10: real, e11: real, e12: real, e13: real,
      e20: real, e21: real, e22: real, e23: real,
      e30: real, e31: real, e32: real, e33: real): (r: real)
  {
    e30 * (-D3(e01, e02, e03, e11, e12, e13, e21, e22, e23))
        + e31 * (D3(e00, e02, e03, e10, e12, e13, e20, e22, e23))
        + e32 * (-D3(e00, e01, e03, e10, e11, e13, e20, e21, e23))
        + e33 * (D3(e00, e01, e02, e10, e11, e12, e20, e21, e22))
  }

  lemma Column0Cofactors0(
      e00: real, e01: real, e02: real, e03: real,
      e10: real, e11: real, e12: real, e13: real,
      e20: real, e21: real, e22: real, e23: real,
      e30: real, e31: real, e32: real, e33: real)
    ensures (D3(e11, e12, e13, e21, e22, e23, e31, e32, e33)) * e00
      + (-D3(e01, e02, e03, e21, e22, e23, e31, e32, e33)) * e10
      + (D3(e01, e02, e03, e11, e12, e13, e31, e32, e33)) * e20
      + (-D3(e01, e02, e03, e11, e12, e13, e21, e22, e23)) * e30
      == e30 * (-D3(e01, e02, e03, e11, e12, e13, e21, e22, e23))
         + e31 * (D3(e00, e02, e03, e10, e12, e13, e20, e22, e23))
         + e32 * (-D3(e00, e01, e03, e10, e11, e13, e20, e21, e23))
         + e33 * (D3(e00, e01, e02, e10, e11, e12, e20, e21, e22))
  {
  }

  lemma Column1Cofactors0(
      e00: real, e01: real, e02: real, e03: real,
      e10: real, e11: real, e12: real, e13: real,
      e20: real, e21: real, e22: real, e23: real,
      e30: real, e31: real, e32: real, e33: real)
    ensures (D3(e11, e12, e13, e21, e22, e23, e31, e32, e33)) * e01
      + (-D3(e01, e02, e03, e21, e22, e23, e31, e32, e33)) * e11
      + (D3(e01, e02, e03, e11, e12, e13, e31, e32, e33)) * e21
      + (-D3(e01, e02, e03, e11, e12, e13, e21, e22, e23)) * e31
      == 0.0
  {
  }

  lemma Column2Cofactors0(
      e00: real, e01: real, e02: real, e03: real,
      e10: real, e11: real, e12: real, e13: real,
      e20: real, e21: real, e22: real, e23: real,
      e30: real, e31: real, e32: real, e33: real)
    ensures (D3(e11, e12, e13, e21, e22, e23, e31, e32, e33)) * e02
      + (-D3(e01, e02, e03, e21, e22, e23, e31, e32, e33)) * e12
      + (D3(e01, e02, e03, e11, e12, e13, e31, e32, e33)) * e22
      + (-D3(e01, e02, e03, e11, e12, e13, e21, e22, e23)) * e32
      == 0.0
  {
  }

  lemma Column3Cofactors0(
      e00: real, e01: real, e02: real, e03: real,
      e10: real, e11: real, e12: real, e13: real,
      e20: real, e21: real, e22: real, e23: real,
      e30: real, e31: real, e32: real, e33: real)
    ensures (D3(e11, e12, e13, e21, e22, e23, e31, e32, e33)) * e03
      + (-D3(e01, e02, e03, e21, e22, e23, e31, e32, e33)) * e13
      + (D3(e01, e02, e03, e11, e12, e13, e31, e32, e33)) * e23
      + (-D3(e01, e02, e03, e11, e12, e13, e21, e22, e23)) * e33
      == 0.0
  {
  }

  lemma Column0Cofactors1(
      e00: real, e01: real, e02: real, e03: real,
      e10: real, e11: real, e12: real, e13: real,
      e20: real, e21: real, e22: real, e23: real,
      e30: real, e31: real, e32: real, e33: real)
    ensures (-D3(e10, e12, e13, e20, e22, e23, e30, e32, e33)) * e00
      + (D3(e00, e02, e03, e20, e22, e23, e30, e32, e33)) * e10
      + (-D3(e00, e02, e03, e10, e12, e13, e30, e32, e33)) * e20
      + (D3(e00, e02, e03, e10, e12, e13, e20, e22, e23)) * e30
      == 0.0
  {
  }

  lemma Column1Cofactors1(
      e00: real, e01: real, e02: real, e03: real,
      e10: real, e11: real, e12: real, e13: real,
      e20: real, e21: real, e22: real, e23: real,
      e30: real, e31: real, e32: real, e33: real)
    ensures (-D3(e10, e12, e13, e20, e22, e23, e30, e32, e33)) * e01
      + (D3(e00, e02, e03, e20, e22, e23, e30, e32, e33)) * e11
      + (-D3(e00, e02, e03, e10, e12, e13, e30, e32, e33)) * e21
      + (D3(e00, e02, e03, e10, e12, e13, e20, e22, e23)) * e31
      == e30 * (-D3(e01, e02, e03, e11, e12, e13, e21, e22, e23))
         + e31 * (D3(e00, e02, e03, e10, e12, e13, e20, e22, e23))
         + e32 * (-D3(e00, e01, e03, e10, e11, e13, e20, e21, e23))
         + e33 * (D3(e00, e01, e02, e10, e11, e12, e20, e21, e22))
  {
  }

  lemma Column2Cofactors1(
      e00: real, e01: real, e02: real, e03: real,
      e10: real, e11: real, e12: real, e13: real,
      e20: real, e21: real, e22: real, e23: real,
      e30: real, e31: real, e32: real, e33: real)
    ensures (-D3(e10, e12, e13, e20, e22, e23, e30, e32, e33)) * e02
      + (D3(e00, e02, e03, e20, e22, e23, e30, e32, e33)) * e12
      + (-D3(e00, e02, e03, e10, e12, e13, e30, e32, e33)) * e22
      + (D3(e00, e02, e03, e10, e12, e13, e20, e22, e23)) * e32
      == 0.0
  {
  }

  lemma Column3Cofactors1(
      e00: real, e01: real, e02: real, e03: real,
      e10: real, e11: real, e12: real, e13: real,
      e20: real, e21: real, e22: real, e23: real,
      e30: real, e31: real, e32: real, e33: real)
    ensures (-D3(e10, e12, e13, e20, e22, e23, e30, e32, e33)) * e03
      + (D3(e00, e02, e03, e20, e22, e23, e30, e32, e33)) * e13
      + (-D3(e00, e02, e03, e10, e12, e13, e30, e32, e33)) * e23
      + (D3(e00, e02, e03, e10, e12, e13, e20, e22, e23)) * e33
      == 0.0
  {
  }

  lemma Column0Cofactors2(
      e00: real, e01: real, e02: real, e03: real,
      e10: real, e11: real, e12: real, e13: real,
      e20: real, e21: real, e22: real, e23: real,
      e30: real, e31: real, e32: real, e33: real)
    ensures (D3(e10, e11, e13, e20, e21, e23, e30, e31, e33)) * e00
      + (-D3(e00, e01, e03, e20, e21, e23, e30, e31, e33)) * e10
      + (D3(e00, e01, e03, e10, e11, e13, e30, e31, e33)) * e20
      + (-D3(e00, e01, e03, e10, e11, e13, e20, e21, e23)) * e30
      == 0.0
  {
  }

  lemma Column1Cofactors2(
      e00: real, e01: real, e02: real, e03: real,
      e10: real, e11: real, e12: real, e13: real,
      e20: real, e21: real, e22: real, e23: real,
      e30: real, e31: real, e32: real, e33: real)
    ensures (D3(e10, e11, e13, e20, e21, e23, e30, e31, e33)) * e01
      + (-D3(e00, e01, e03, e20, e21, e23, e30, e31, e33)) * e11
      + (D3(e00, e01, e03, e10, e11, e13, e30, e31, e33)) * e21
      + (-D3(e00, e01, e03, e10, e11, e13, e20, e21, e23)) * e31
      == 0.0
  {
  }

  lemma Column2Cofactors2(
      e00: real, e01: real, e02: real, e03: real,
      e10: real, e11: real, e12: real, e13: real,
      e20: real, e21: real, e22: real, e23: real,
      e30: real, e31: real, e32: real, e33: real)
    ensures (D3(e10, e11, e13, e20, e21, e23, e30, e31, e33)) * e02
      + (-D3(e00, e01, e03, e20, e21, e23, e30, e31, e33)) * e12
      + (D3(e00, e01, e03, e10, e11, e13, e30, e31, e33)) * e22
      + (-D3(e00, e01, e03, e10, e11, e13, e20, e21, e23)) * e32
      == e30 * (-D3(e01, e02, e03, e11, e12, e13, e21, e22, e23))
         + e31 * (D3(e00, e02, e03, e10, e12, e13, e20, e22, e23))
         + e32 * (-D3(e00, e01, e03, e10, e11, e13, e20, e21, e23))
         + e33 * (D3(e00, e01, e02, e10, e11, e12, e20, e21, e22))
  {
  }

  lemma Column3Cofactors2(
      e00: real, e01: real, e02: real, e03: real,
      e10: real, e11: real, e12: real, e13: real,
      e20: real, e21: real, e22: real, e23: real,
      e30: real, e31: real, e32: real, e33: real)
    ensures (D3(e10, e11, e13, e20, e21, e23, e30, e31, e33)) * e03
      + (-D3(e00, e01, e03, e20, e21, e23, e30, e31, e33)) * e13
      + (D3(e00, e01, e03, e10, e11, e13, e30, e31, e33)) * e23
      + (-D3(e00, e01, e03, e10, e11, e13, e20, e21, e23)) * e33
      == 0.0
  {
  }

  lemma Column0Cofactors3(
      e00: real, e01: real, e02: real, e03: real,
      e10: real, e11: real, e12: real, e13: real,
      e20: real, e21: real, e22: real, e23: real,
      e30: real, e31: real, e32: real, e33: real)
    ensures (-D3(e10, e11, e12, e20, e21, e22, e30, e31, e32)) * e00
      + (D3(e00, e01, e02, e20, e21, e22, e30, e31, e32)) * e10
      + (-D3(e00, e01, e02, e10, e11, e12, e30, e31, e32)) * e20
      + (D3(e00, e01, e02, e10, e11, e12, e20, e21, e22)) * e30
      == 0.0
  {
  }

  lemma Column1Cofactors3(
      e00: real, e01: real, e02: real, e03: real,
      e10: real, e11: real, e12: real, e13: real,
      e20: real, e21: real, e22: real, e23: real,
      e30: real, e31: real, e32: real, e33: real)
    ensures (-D3(e10, e11, e12, e20, e21, e22, e30, e31, e32)) * e01
      + (D3(e00, e01, e02, e20, e21, e22, e30, e31, e32)) * e11
      + (-D3(e00, e01, e02, e10, e11, e12, e30, e31, e32)) * e21
      + (D3(e00, e01, e02, e10, e11, e12, e20, e21, e22)) * e31
      == 0.0
  {
  }

  lemma Column2Cofactors3(
      e00: real, e01: real, e02: real, e03: real,
      e10: real, e11: real, e12: real, e13: real,
      e20: real, e21: real, e22: real, e23: real,
      e30: real, e31: real, e32: real, e33: real)
    ensures (-D3(e10, e11, e12, e20, e21, e22, e30, e31, e32)) * e02
      + (D3(e00, e01, e02, e20, e21, e22, e30, e31, e32)) * e12
      + (-D3(e00, e01, e02, e10, e11, e12, e30, e31, e32)) * e22
      + (D3(e00, e01, e02, e10, e11, e12, e20, e21, e22)) * e32
      == 0.0
  {
  }

  lemma Column3Cofactors3(
      e00: real, e01: real, e02: real, e03: real,
      e10: real, e11: real, e12: real, e13: real,
      e20: real, e21: real, e22: real, e23: real,
      e30: real, e31: real, e32: real, e33: real)
    ensures (-D3(e10, e11, e12, e20, e21, e22, e30, e31, e32)) * e03
      + (D3(e00, e01, e02, e20, e21, e22, e30, e31, e32)) * e13
      + (-D3(e00, e01, e02, e10, e11, e12, e30, e31, e32)) * e23
      + (D3(e00, e01, e02, e10, e11, e12, e20, e21, e22)) * e33
      == e30 * (-D3(e01, e02, e03, e11, e12, e13, e21, e22, e23))
         + e31 * (D3(e00, e02, e03, e10, e12, e13, e20, e22, e23))
         + e32 * (-D3(e00, e01, e03, e10, e11, e13, e20, e21, e23))
         + e33 * (D3(e00, e01, e02, e10, e11, e12, e20, e21, e22))
  {
  }
}
