/**
 Point clouds as numpy 2-D arrays: a column count and a sequence of rows.
 This module holds what every script shares: reading a flat lidar buffer
 as rows of (x, y, z, intensity), flattening it back, the homogeneous
 coordinate conventions of the transforms, and `np.concatenate(..., axis=0)`.
 */
module Clouds {
  import opened Outcome
  import opened Linear

  /** An N x `width` array of reals. */
  datatype Cloud = Cloud(width: nat, rows: seq<seq<real>>)

  /** Every row has `width` entries, as in any numpy 2-D array. */
  predicate Rectangular(c: Cloud)
  {
    forall k :: 0 <= k < |c.rows| ==> |c.rows[k]| == c.width
  }

  /** Row `k` of a decoded buffer: the four consecutive values from `4k`. */
  function RowOfBuffer(flat: seq<real>, k: nat): (r: seq<real>)
    requires 4 * k + 4 <= |flat|
  {
    flat[4 * k..4 * k + 4]
  }

  /** `np.reshape(points, (int(points.shape[0] / 4), 4))`. The row count is
      the truncated quotient, so the reshape fails exactly when the buffer
      length is not a multiple of 4. */
  function Decode(flat: seq<real>): (r: Result<Cloud>)
    ensures r.Ok? <==> |flat| % 4 == 0
    ensures r.Err? ==> r.error == ReshapeSizeMismatch
    ensures r.Ok? ==> r.value.width == 4 && Rectangular(r.value) && |r.value.rows| == |flat| / 4
    ensures r.Ok? ==> forall k, j :: 0 <= k < |r.value.rows| && 0 <= j < 4 ==> r.value.rows[k][j] == flat[4 * k + j]
  {
    var n := |flat| / 4;
    if n * 4 != |flat| then Err(ReshapeSizeMismatch)
    else Ok(Cloud(4, seq(n, k requires 0 <= k < n => RowOfBuffer(flat, k))))
  }

  /** The rows laid end to end: numpy's row-major `ravel`. */
  function Flatten(rows: seq<seq<real>>): (r: seq<real>)
  {
    if |rows| == 0 then [] else Flatten(rows[..|rows| - 1]) + rows[|rows| - 1]
  }

  lemma {:induction false} FlattenLength(rows: seq<seq<real>>, width: nat)
    requires forall k :: 0 <= k < |rows| ==> |rows[k]| == width
    ensures |Flatten(rows)| == |rows| * width
  {
    if |rows| > 0 {
      FlattenLength(rows[..|rows| - 1], width);
    }
  }

  /** Entry `j` of row `k` sits at `k * width + j` of the flattened rows. */
  lemma {:induction false} FlattenAt(rows: seq<seq<real>>, width: nat, k: nat, j: nat)
    requires forall i :: 0 <= i < |rows| ==> |rows[i]| == width
    requires k < |rows| && j < width
    ensures k * width + j < |Flatten(rows)|
    ensures Flatten(rows)[k * width + j] == rows[k][j]
  {
    var init := rows[..|rows| - 1];
    FlattenLength(init, width);
    FlattenLength(rows, width);
    if k < |rows| - 1 {
      FlattenAt(init, width, k, j);
      assert k * width + j < |init| * width by {
        assert (k + 1) * width <= |init| * width by {
          MultiplyMonotone(k + 1, |init|, width);
        }
      }
    }
  }

  lemma MultiplyMonotone(a: nat, b: nat, c: nat)
    requires a <= b
    ensures a * c <= b * c
  {
  }

  /** Decoding a flattened 4-column cloud gives the cloud back. */
  lemma DecodeFlatten(c: Cloud)
    requires c.width == 4 && Rectangular(c)
    ensures Decode(Flatten(c.rows)) == Ok(c)
  {
    var flat := Flatten(c.rows);
    FlattenLength(c.rows, 4);
    assert |flat| % 4 == 0 && |flat| / 4 == |c.rows|;
    var d := Decode(flat);
    forall k | 0 <= k < |c.rows|
      ensures d.value.rows[k] == c.rows[k]
    {
      forall j | 0 <= j < 4
        ensures d.value.rows[k][j] == c.rows[k][j]
      {
        FlattenAt(c.rows, 4, k, j);
      }
    }
    assert d.value.rows == c.rows;
  }

  /** Flattening a decoded buffer gives the buffer back. */
  lemma FlattenDecode(flat: seq<real>)
    requires |flat| % 4 == 0
    ensures Flatten(Decode(flat).value.rows) == flat
  {
    var rows := Decode(flat).value.rows;
    FlattenLength(rows, 4);
    forall i | 0 <= i < |flat|
      ensures Flatten(rows)[i] == flat[i]
    {
      var k, j := i / 4, i % 4;
      FlattenAt(rows, 4, k, j);
    }
  }

  // ---- homogeneous coordinates ----

  /** The point of a row as a homogeneous vector `(x, y, z, 1)`. */
  function Homogeneous(row: seq<real>): (r: Vec4)
    requires |row| >= 3
  {
    Vec4(row[0], row[1], row[2], 1.0)
  }

  /** The first three components of a vector, as a row. */
  function Xyz(v: Vec4): (r: seq<real>)
  {
    [v.x, v.y, v.z]
  }

  /** A 4-entry row read as a vector. */
  function AsVec4(row: seq<real>): (r: Vec4)
    requires |row| == 4
  {
    Vec4(row[0], row[1], row[2], row[3])
  }

  /** The outcome of an in-place transform: what it returns, and the caller's
      array as the call leaves it (numpy assignment `pts[:,-1] = 1` writes
      through to the caller). */
  datatype Transformed = Transformed(result: Result<Cloud>, input: Cloud)

  /** `pts[:,-1] = 1` on an array with at least one column. */
  function SetLastColumnToOne(c: Cloud): (r: Cloud)
    requires c.width >= 1 && Rectangular(c)
    ensures r.width == c.width && Rectangular(r) && |r.rows| == |c.rows|
    ensures forall k :: 0 <= k < |c.rows| ==>
      r.rows[k][c.width - 1] == 1.0 && r.rows[k][..c.width - 1] == c.rows[k][..c.width - 1]
  {
    Cloud(c.width, seq(|c.rows|, k requires 0 <= k < |c.rows| => c.rows[k][..c.width - 1] + [1.0]))
  }

  /** The last column of an array, as `pts[:,-1]`. */
  function LastColumn(c: Cloud): (col: seq<real>)
    requires c.width >= 1 && Rectangular(c)
    ensures |col| == |c.rows|
    ensures forall k :: 0 <= k < |c.rows| ==> col[k] == c.rows[k][c.width - 1]
  {
    seq(|c.rows|, k requires 0 <= k < |c.rows| => c.rows[k][c.width - 1])
  }

  /** `np.concatenate([pts, np.ones((N, 1))], axis=1)`. */
  function AppendOnes(c: Cloud): (r: Cloud)
    requires Rectangular(c)
    ensures r.width == c.width + 1 && Rectangular(r) && |r.rows| == |c.rows|
    ensures forall k :: 0 <= k < |c.rows| ==> r.rows[k][..c.width] == c.rows[k] && r.rows[k][c.width] == 1.0
  {
    Cloud(c.width + 1, seq(|c.rows|, k requires 0 <= k < |c.rows| => c.rows[k] + [1.0]))
  }

  /** A vector as a 4-entry row. */
  function Components(v: Vec4): (r: seq<real>)
  {
    [v.x, v.y, v.z, v.w]
  }

  /** `pts @ mat.T`: each row `v` becomes `mat · v`. It needs exactly four
      columns. */
  function MatMulTransposed(c: Cloud, mat: Mat4): (r: Result<Cloud>)
    requires Rectangular(c)
    ensures r.Ok? <==> c.width == 4
    ensures r.Err? ==> r.error == MatmulShapeMismatch
    ensures r.Ok? ==> r.value.width == 4 && Rectangular(r.value) && |r.value.rows| == |c.rows|
    ensures r.Ok? ==> forall k :: 0 <= k < |c.rows| ==>
      var v := AsVec4(c.rows[k]);
      r.value.rows[k] == [Dot(mat.r0, v), Dot(mat.r1, v), Dot(mat.r2, v), Dot(mat.r3, v)]
  {
    if c.width != 4 then Err(MatmulShapeMismatch)
    else Ok(Cloud(4, seq(|c.rows|, k requires 0 <= k < |c.rows| => Components(Apply(mat, AsVec4(c.rows[k]))))))
  }

  /** `c[:, :n]`. */
  function TakeColumns(c: Cloud, n: nat): (r: Cloud)
    requires n <= c.width && Rectangular(c)
    ensures r.width == n && Rectangular(r) && |r.rows| == |c.rows|
    ensures forall k, j :: 0 <= k < |c.rows| && 0 <= j < n ==> r.rows[k][j] == c.rows[k][j]
  {
    Cloud(n, seq(|c.rows|, k requires 0 <= k < |c.rows| => c.rows[k][..n]))
  }

  /** `np.concatenate([c, col[:, None]], axis=1)`. */
  function AppendColumn(c: Cloud, col: seq<real>): (r: Cloud)
    requires Rectangular(c) && |col| == |c.rows|
    ensures r.width == c.width + 1 && Rectangular(r) && |r.rows| == |c.rows|
    ensures forall k :: 0 <= k < |c.rows| ==> r.rows[k][..c.width] == c.rows[k] && r.rows[k][c.width] == col[k]
  {
    Cloud(c.width + 1, seq(|c.rows|, k requires 0 <= k < |c.rows| => c.rows[k] + [col[k]]))
  }

  // ---- concatenation ----

  /** Total row count of a list of arrays. */
  function TotalRows(parts: seq<Cloud>): (r: nat)
  {
    if |parts| == 0 then 0 else TotalRows(parts[..|parts| - 1]) + |parts[|parts| - 1].rows|
  }

  /** The rows of all parts, in order. */
  function ConcatRows(parts: seq<Cloud>): (r: seq<seq<real>>)
    ensures |r| == TotalRows(parts)
  {
    if |parts| == 0 then [] else ConcatRows(parts[..|parts| - 1]) + parts[|parts| - 1].rows
  }

  predicate SameWidth(parts: seq<Cloud>)
    requires |parts| > 0
  {
    forall i :: 0 <= i < |parts| ==> parts[i].width == parts[0].width
  }

  /** `np.concatenate(parts, axis=0)`: fails on an empty list and on
      arrays whose column counts differ. */
  function Concatenate(parts: seq<Cloud>): (r: Result<Cloud>)
    ensures r.Ok? <==> |parts| > 0 && SameWidth(parts)
    ensures |parts| == 0 ==> r == Err(NothingToConcatenate)
    ensures |parts| > 0 && !SameWidth(parts) ==> r == Err(ConcatenateWidthMismatch)
    ensures r.Ok? ==> r.value.width == parts[0].width && |r.value.rows| == TotalRows(parts)
  {
    if |parts| == 0 then Err(NothingToConcatenate)
    else if !SameWidth(parts) then Err(ConcatenateWidthMismatch)
    else Ok(Cloud(parts[0].width, ConcatRows(parts)))
  }

  /** Arrays with the same row counts have the same total. */
  lemma {:induction false} TotalRowsPointwise(a: seq<Cloud>, b: seq<Cloud>)
    requires |a| == |b|
    requires forall i :: 0 <= i < |a| ==> |a[i].rows| == |b[i].rows|
    ensures TotalRows(a) == TotalRows(b)
  {
    if |a| > 0 {
      TotalRowsPointwise(a[..|a| - 1], b[..|b| - 1]);
    }
  }

  /** The rows of `parts[..i]` come before those of `parts[i]`. */
  lemma {:induction false} TotalRowsPrefix(parts: seq<Cloud>, i: nat)
    requires i < |parts|
    ensures TotalRows(parts[..i]) + |parts[i].rows| <= TotalRows(parts)
  {
    var init := parts[..|parts| - 1];
    if i < |parts| - 1 {
      assert parts[..i] == init[..i];
      TotalRowsPrefix(init, i);
    } else {
      assert parts[..i] == init;
    }
  }

  /** Row `k` of part `i` lands at offset `TotalRows(parts[..i]) + k`. */
  lemma {:induction false} ConcatRowAt(parts: seq<Cloud>, i: nat, k: nat)
    requires i < |parts| && k < |parts[i].rows|
    ensures TotalRows(parts[..i]) + k < TotalRows(parts)
    ensures ConcatRows(parts)[TotalRows(parts[..i]) + k] == parts[i].rows[k]
  {
    TotalRowsPrefix(parts, i);
    var init := parts[..|parts| - 1];
    if i < |parts| - 1 {
      assert parts[..i] == init[..i];
      ConcatRowAt(init, i, k);
    } else {
      assert parts[..i] == init;
    }
  }

  /** Every row of the result belongs to some part: nothing is invented. */
  lemma {:induction false} ConcatRowsFrom(parts: seq<Cloud>, n: nat)
    requires n < TotalRows(parts)
    ensures exists i, k :: 0 <= i < |parts| && 0 <= k < |parts[i].rows| && ConcatRows(parts)[n] == parts[i].rows[k]
  {
    var last := |parts| - 1;
    var init := parts[..last];
    if n < TotalRows(init) {
      ConcatRowsFrom(init, n);
      var i, k :| 0 <= i < |init| && 0 <= k < |init[i].rows| && ConcatRows(init)[n] == init[i].rows[k];
      assert parts[i] == init[i];
    } else {
      assert ConcatRows(parts)[n] == parts[last].rows[n - TotalRows(init)];
    }
  }

  /** Concatenating rectangular arrays of one width gives a rectangular array. */
  lemma ConcatRectangular(parts: seq<Cloud>)
    requires |parts| > 0 && SameWidth(parts)
    requires forall i :: 0 <= i < |parts| ==> Rectangular(parts[i])
    ensures Rectangular(Concatenate(parts).value)
  {
    var c := Concatenate(parts).value;
    forall n | 0 <= n < |c.rows|
      ensures |c.rows[n]| == c.width
    {
      ConcatRowsFrom(parts, n);
    }
  }
}
