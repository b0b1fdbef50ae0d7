/**
 The rotation block of the pose matrix, entry by entry, as plain reals.
 `cp`, `sp`, `cy`, `sy`, `cr`, `sr` are the cosines and sines of pitch,
 yaw and roll, and the block's rows are (a, b, c), (d, e, f), (g, h, k).
 When each pair satisfies cos² + sin² = 1, the three columns of the block
 are unit vectors at right angles to each other, and a matrix with such
 columns keeps the length of every vector it turns.
 */
module Rotation {

  predicate OnUnitCircle(c: real, s: real)
  {
    c * c + s * s == 1.0
  }

  /** Multiplication behind a name. Equal factors then give equal products
      by congruence alone, without any nonlinear arithmetic. */
  function Times(x: real, y: real): (r: real)
  {
    x * y
  }

  // The six polynomial identities behind orthonormality, over the angles.

  lemma Column0Identity(cp: real, sp: real, cy: real, sy: real, cr: real, sr: real)
    requires OnUnitCircle(cp, sp) && OnUnitCircle(cy, sy) && OnUnitCircle(cr, sr)
    ensures Times(cp * cy, cp * cy) + Times(cp * sy, cp * sy) + Times(sp, sp) == 1.0
  {
  }

  lemma Column1Identity(cp: real, sp: real, cy: real, sy: real, cr: real, sr: real)
    requires OnUnitCircle(cp, sp) && OnUnitCircle(cy, sy) && OnUnitCircle(cr, sr)
    ensures Times(cy * sp * sr - sy * cr, cy * sp * sr - sy * cr) + Times(sy * sp * sr + cy * cr, sy * sp * sr + cy * cr) + Times(-cp * sr, -cp * sr) == 1.0
  {
  }

  lemma Column2Identity(cp: real, sp: real, cy: real, sy: real, cr: real, sr: real)
    requires OnUnitCircle(cp, sp) && OnUnitCircle(cy, sy) && OnUnitCircle(cr, sr)
    ensures Times(-cy * sp * cr - sy * sr, -cy * sp * cr - sy * sr) + Times(-sy * sp * cr + cy * sr, -sy * sp * cr + cy * sr) + Times(cp * cr, cp * cr) == 1.0
  {
  }

  lemma Columns01Identity(cp: real, sp: real, cy: real, sy: real, cr: real, sr: real)
    requires OnUnitCircle(cp, sp) && OnUnitCircle(cy, sy) && OnUnitCircle(cr, sr)
    ensures Times(cp * cy, cy * sp * sr - sy * cr) + Times(cp * sy, sy * sp * sr + cy * cr) + Times(sp, -cp * sr) == 0.0
  {
  }

  lemma Columns02Identity(cp: real, sp: real, cy: real, sy: real, cr: real, sr: real)
    requires OnUnitCircle(cp, sp) && OnUnitCircle(cy, sy) && OnUnitCircle(cr, sr)
    ensures Times(cp * cy, -cy * sp * cr - sy * sr) + Times(cp * sy, -sy * sp * cr + cy * sr) + Times(sp, cp * cr) == 0.0
  {
  }

  lemma Columns12Identity(cp: real, sp: real, cy: real, sy: real, cr: real, sr: real)
    requires OnUnitCircle(cp, sp) && OnUnitCircle(cy, sy) && OnUnitCircle(cr, sr)
    ensures Times(cy * sp * sr - sy * cr, -cy * sp * cr - sy * sr) + Times(sy * sp * sr + cy * cr, -sy * sp * cr + cy * sr) + Times(-cp * sr, cp * cr) == 0.0
  {
  }

  // The same identities, stated over the entries of the block.

  /** Column 0 of the block has length one. */
  lemma Column0Unit(cp: real, sp: real, cy: real, sy: real, cr: real, sr: real, a: real, d: real, g: real)
    requires OnUnitCircle(cp, sp) && OnUnitCircle(cy, sy) && OnUnitCircle(cr, sr)
    requires a == cp * cy && d == cp * sy && g == sp
    ensures a * a + d * d + g * g == 1.0
  {
    Column0Identity(cp, sp, cy, sy, cr, sr);
    assert Times(a, a) == Times(cp * cy, cp * cy);
    assert Times(d, d) == Times(cp * sy, cp * sy);
    assert Times(g, g) == Times(sp, sp);
  }

  /** Column 1 of the block has length one. */
  lemma Column1Unit(cp: real, sp: real, cy: real, sy: real, cr: real, sr: real, b: real, e: real, h: real)
    requires OnUnitCircle(cp, sp) && OnUnitCircle(cy, sy) && OnUnitCircle(cr, sr)
    requires b == cy * sp * sr - sy * cr && e == sy * sp * sr + cy * cr && h == -cp * sr
    ensures b * b + e * e + h * h == 1.0
  {
    Column1Identity(cp, sp, cy, sy, cr, sr);
    assert Times(b, b) == Times(cy * sp * sr - sy * cr, cy * sp * sr - sy * cr);
    assert Times(e, e) == Times(sy * sp * sr + cy * cr, sy * sp * sr + cy * cr);
    assert Times(h, h) == Times(-cp * sr, -cp * sr);
  }

  /** Column 2 of the block has length one. */
  lemma Column2Unit(cp: real, sp: real, cy: real, sy: real, cr: real, sr: real, c: real, f: real, k: real)
    requires OnUnitCircle(cp, sp) && OnUnitCircle(cy, sy) && OnUnitCircle(cr, sr)
    requires c == -cy * sp * cr - sy * sr && f == -sy * sp * cr + cy * sr && k == cp * cr
    ensures c * c + f * f + k * k == 1.0
  {
    Column2Identity(cp, sp, cy, sy, cr, sr);
    assert Times(c, c) == Times(-cy * sp * cr - sy * sr, -cy * sp * cr - sy * sr);
    assert Times(f, f) == Times(-sy * sp * cr + cy * sr, -sy * sp * cr + cy * sr);
    assert Times(k, k) == Times(cp * cr, cp * cr);
  }

  /** Columns 0 and 1 of the block are at right angles. */
  lemma Columns01Orthogonal(cp: real, sp: real, cy: real, sy: real, cr: real, sr: real, a: real, b: real, d: real, e: real, g: real, h: real)
    requires OnUnitCircle(cp, sp) && OnUnitCircle(cy, sy) && OnUnitCircle(cr, sr)
    requires a == cp * cy && b == cy * sp * sr - sy * cr && d == cp * sy && e == sy * sp * sr + cy * cr && g == sp && h == -cp * sr
    ensures a * b + d * e + g * h == 0.0
  {
    Columns01Identity(cp, sp, cy, sy, cr, sr);
    assert Times(a, b) == Times(cp * cy, cy * sp * sr - sy * cr);
    assert Times(d, e) == Times(cp * sy, sy * sp * sr + cy * cr);
    assert Times(g, h) == Times(sp, -cp * sr);
  }

  /** Columns 0 and 2 of the block are at right angles. */
  lemma Columns02Orthogonal(cp: real, sp: real, cy: real, sy: real, cr: real, sr: real, a: real, c: real, d: real, f: real, g: real, k: real)
    requires OnUnitCircle(cp, sp) && OnUnitCircle(cy, sy) && OnUnitCircle(cr, sr)
    requires a == cp * cy && c == -cy * sp * cr - sy * sr && d == cp * sy && f == -sy * sp * cr + cy * sr && g == sp && k == cp * cr
    ensures a * c + d * f + g * k == 0.0
  {
    Columns02Identity(cp, sp, cy, sy, cr, sr);
    assert Times(a, c) == Times(cp * cy, -cy * sp * cr - sy * sr);
    assert Times(d, f) == Times(cp * sy, -sy * sp * cr + cy * sr);
    assert Times(g, k) == Times(sp, cp * cr);
  }

  /** Columns 1 and 2 of the block are at right angles. */
  lemma Columns12Orthogonal(cp: real, sp: real, cy: real, sy: real, cr: real, sr: real, b: real, c: real, e: real, f: real, h: real, k: real)
    requires OnUnitCircle(cp, sp) && OnUnitCircle(cy, sy) && OnUnitCircle(cr, sr)
    requires b == cy * sp * sr - sy * cr && c == -cy * sp * cr - sy * sr && e == sy * sp * sr + cy * cr && f == -sy * sp * cr + cy * sr && h == -cp * sr && k == cp * cr
    ensures b * c + e * f + h * k == 0.0
  {
    Columns12Identity(cp, sp, cy, sy, cr, sr);
    assert Times(b, c) == Times(cy * sp * sr - sy * cr, -cy * sp * cr - sy * sr);
    assert Times(e, f) == Times(sy * sp * sr + cy * cr, -sy * sp * cr + cy * sr);
    assert Times(h, k) == Times(-cp * sr, cp * cr);
  }

  /** The 3x3 matrix with rows (a, b, c), (d, e, f), (g, h, k) turns
      (x, y, z) into a vector of the same squared length. */
  predicate KeepsLength(a: real, b: real, c: real, d: real, e: real, f: real, g: real, h: real, k: real,
                        x: real, y: real, z: real)
  {
    (a * x + b * y + c * z) * (a * x + b * y + c * z) + (d * x + e * y + f * z) * (d * x + e * y + f * z)
      + (g * x + h * y + k * z) * (g * x + h * y + k * z) == x * x + y * y + z * z
  }

  /** The 3x3 matrix with rows (a, b, c), (d, e, f), (g, h, k) and
      orthonormal columns keeps the squared length of (x, y, z). */
  lemma OrthonormalKeepsLength(a: real, b: real, c: real, d: real, e: real, f: real, g: real, h: real, k: real,
                               x: real, y: real, z: real)
    requires a * a + d * d + g * g == 1.0 && b * b + e * e + h * h == 1.0 && c * c + f * f + k * k == 1.0
    requires a * b + d * e + g * h == 0.0 && a * c + d * f + g * k == 0.0 && b * c + e * f + h * k == 0.0
    ensures KeepsLength(a, b, c, d, e, f, g, h, k, x, y, z)
  {
  }

  /** The rotation block built from the three angles keeps the squared
      length of (x, y, z). */
  lemma RotationKeepsLength(cp: real, sp: real, cy: real, sy: real, cr: real, sr: real,
                            a: real, b: real, c: real, d: real, e: real, f: real, g: real, h: real, k: real,
                            x: real, y: real, z: real)
    requires OnUnitCircle(cp, sp) && OnUnitCircle(cy, sy) && OnUnitCircle(cr, sr)
    requires a == cp * cy && b == cy * sp * sr - sy * cr && c == -cy * sp * cr - sy * sr
    requires d == cp * sy && e == sy * sp * sr + cy * cr && f == -sy * sp * cr + cy * sr
    requires g == sp && h == -cp * sr && k == cp * cr
    ensures KeepsLength(a, b, c, d, e, f, g, h, k, x, y, z)
  {
    Column0Unit(cp, sp, cy, sy, cr, sr, a, d, g);
    Column1Unit(cp, sp, cy, sy, cr, sr, b, e, h);
    Column2Unit(cp, sp, cy, sy, cr, sr, c, f, k);
    Columns01Orthogonal(cp, sp, cy, sy, cr, sr, a, b, d, e, g, h);
    Columns02Orthogonal(cp, sp, cy, sy, cr, sr, a, c, d, f, g, k);
    Columns12Orthogonal(cp, sp, cy, sy, cr, sr, b, c, e, f, h, k);
    OrthonormalKeepsLength(a, b, c, d, e, f, g, h, k, x, y, z);
  }
}
