/**
 The playback viewer's geometry (vis.py). A pose becomes a 4x4 matrix.
 The matrix moves lidar points from a vehicle's sensor frame into the world
 frame. Each frame's per-vehicle clouds are fused into one cloud, and each
 vehicle's bounding box is drawn as a 16-point polyline.

 cos and sin are not computed here: a `Trig` value supplies them. Facts
 that need particular trigonometric values, such as cos 0 = 1, take those
 values as preconditions.
 */
module Vis {
  import opened Outcome
  import opened Linear
  import opened Clouds
  import opened Wireframe
  import Rotation

  /** numpy's `np.pi`, as the decimal it prints. */
  const Pi: real := 3.141592653589793

  /** `np.radians`. */
  function Radians(degrees: real): (r: real)
  {
    degrees * Pi / 180.0
  }

  /** The trigonometric functions the matrix is built from. */
  datatype Trig = Trig(cos: real -> real, sin: real -> real)

  /** A location and the three rotation angles, in the argument order of
      `getTransform`. */
  datatype Pose = Pose(x: real, y: real, z: real, pitch: real, yaw: real, roll: real)

  /** `getTransform`: the local-to-global matrix of a pose, rotation by yaw,
      pitch and roll in the simulator's left-handed convention, with the
      location in the last column. The bottom row is left all zero, not
      `0, 0, 0, 1`. */
  function GetTransform(p: Pose, trig: Trig, degrees: bool): (m: Mat4)
    ensures m.r0.w == p.x && m.r1.w == p.y && m.r2.w == p.z
    ensures m.r3 == Vec4(0.0, 0.0, 0.0, 0.0)
  {
    var pitch := if degrees then Radians(p.pitch) else p.pitch;
    var yaw := if degrees then Radians(p.yaw) else p.yaw;
    var roll := if degrees then Radians(p.roll) else p.roll;
    var cy, sy := trig.cos(yaw), trig.sin(yaw);
    var cr, sr := trig.cos(roll), trig.sin(roll);
    var cp, sp := trig.cos(pitch), trig.sin(pitch);
    Mat4(Vec4(cp * cy, cy * sp * sr - sy * cr, -cy * sp * cr - sy * sr, p.x),
         Vec4(cp * sy, sy * sp * sr + cy * cr, -sy * sp * cr + cy * sr, p.y),
         Vec4(sp, -cp * sr, cp * cr, p.z),
         Vec4(0.0, 0.0, 0.0, 0.0))
  }

  /** A matrix with an all-zero row has determinant zero. */
  lemma ZeroBottomRowIsSingular(m: Mat4)
    requires m.r3 == Vec4(0.0, 0.0, 0.0, 0.0)
    ensures Det(m) == 0.0
    ensures Invert(m) == Err(SingularMatrix)
  {
  }

  /** With all three angles zero (and cos 0 = 1, sin 0 = 0) the rotation
      block is the identity, so the matrix only translates. */
  lemma ZeroAnglesOnlyTranslate(p: Pose, trig: Trig, degrees: bool)
    requires p.pitch == 0.0 && p.yaw == 0.0 && p.roll == 0.0
    requires trig.cos(0.0) == 1.0 && trig.sin(0.0) == 0.0
    ensures GetTransform(p, trig, degrees) ==
      Mat4(Vec4(1.0, 0.0, 0.0, p.x), Vec4(0.0, 1.0, 0.0, p.y), Vec4(0.0, 0.0, 1.0, p.z), Vec4(0.0, 0.0, 0.0, 0.0))
  {
  }

  // ---- transformPoints ----

  /** The squared distance between the points of two rows. */
  function SquaredDistance(u: seq<real>, v: seq<real>): (r: real)
    requires |u| >= 3 && |v| >= 3
  {
    (u[0] - v[0]) * (u[0] - v[0]) + (u[1] - v[1]) * (u[1] - v[1]) + (u[2] - v[2]) * (u[2] - v[2])
  }

  /** When cos² + sin² = 1 at every angle, a pose matrix moves points
      rigidly. Two points are as far apart after the move as before, so
      moving a cloud into the world frame keeps its shape. */
  lemma PoseMovesRigidly(p: Pose, trig: Trig, degrees: bool, u: seq<real>, v: seq<real>)
    requires forall a :: Rotation.OnUnitCircle(trig.cos(a), trig.sin(a))
    requires |u| >= 3 && |v| >= 3
    ensures var m := GetTransform(p, trig, degrees);
      SquaredDistance(Xyz(Apply(m, Homogeneous(u))), Xyz(Apply(m, Homogeneous(v)))) == SquaredDistance(u, v)
  {
    var m := GetTransform(p, trig, degrees);
    var pitch := if degrees then Radians(p.pitch) else p.pitch;
    var yaw := if degrees then Radians(p.yaw) else p.yaw;
    var roll := if degrees then Radians(p.roll) else p.roll;
    var cy, sy := trig.cos(yaw), trig.sin(yaw);
    var cr, sr := trig.cos(roll), trig.sin(roll);
    var cp, sp := trig.cos(pitch), trig.sin(pitch);
    assert Rotation.OnUnitCircle(cp, sp) && Rotation.OnUnitCircle(cy, sy) && Rotation.OnUnitCircle(cr, sr);
    assert m.r0 == Vec4(cp * cy, cy * sp * sr - sy * cr, -cy * sp * cr - sy * sr, p.x);
    assert m.r1 == Vec4(cp * sy, sy * sp * sr + cy * cr, -sy * sp * cr + cy * sr, p.y);
    assert m.r2 == Vec4(sp, -cp * sr, cp * cr, p.z);
    Rotation.RotationKeepsLength(cp, sp, cy, sy, cr, sr, m.r0.x, m.r0.y, m.r0.z, m.r1.x, m.r1.y, m.r1.z,
                                 m.r2.x, m.r2.y, m.r2.z, u[0] - v[0], u[1] - v[1], u[2] - v[2]);
    RotationBlockKeepsDistance(m, u, v);
  }

  /** A matrix whose rotation block keeps the length of the difference of
      two points keeps their distance: the translation column cancels. */
  lemma RotationBlockKeepsDistance(m: Mat4, u: seq<real>, v: seq<real>)
    requires |u| >= 3 && |v| >= 3
    requires Rotation.KeepsLength(m.r0.x, m.r0.y, m.r0.z, m.r1.x, m.r1.y, m.r1.z, m.r2.x, m.r2.y, m.r2.z,
                                  u[0] - v[0], u[1] - v[1], u[2] - v[2])
    ensures SquaredDistance(Xyz(Apply(m, Homogeneous(u))), Xyz(Apply(m, Homogeneous(v)))) == SquaredDistance(u, v)
  {
    var (dx, dy, dz) := (u[0] - v[0], u[1] - v[1], u[2] - v[2]);
    var mu, mv := Apply(m, Homogeneous(u)), Apply(m, Homogeneous(v));
    var (tx, ty, tz) := (m.r0.x * dx + m.r0.y * dy + m.r0.z * dz, m.r1.x * dx + m.r1.y * dy + m.r1.z * dz,
                         m.r2.x * dx + m.r2.y * dy + m.r2.z * dz);
    assert mu.x - mv.x == tx && mu.y - mv.y == ty && mu.z - mv.z == tz;
    assert Rotation.Times(mu.x - mv.x, mu.x - mv.x) == Rotation.Times(tx, tx);
    assert Rotation.Times(mu.y - mv.y, mu.y - mv.y) == Rotation.Times(ty, ty);
    assert Rotation.Times(mu.z - mv.z, mu.z - mv.z) == Rotation.Times(tz, tz);
  }

  /** The matrix the points are multiplied by: the given one, or its inverse. */
  function EffectiveMatrix(m: Mat4, inverse: bool): (r: Result<Mat4>)
  {
    if inverse then Invert(m) else Ok(m)
  }

  /** `transformPoints`. An N x 4 array has its intensity column copied out
      and then overwritten with ones in place. Any other array gets a column
      of ones appended to a new array. The matrix is inverted first when
      `inverse` is set. A singular matrix fails there, before any shape is
      looked at. The product then needs exactly four columns. The result's
      first three columns are the transformed points, and the saved
      intensity is appended again. */
  function TransformPoints(m: Mat4, pts: Cloud, inverse: bool): (t: Transformed)
    requires Rectangular(pts)
    ensures pts.width == 4 ==> t.input == SetLastColumnToOne(pts)
    ensures pts.width != 4 ==> t.input == pts
    ensures t.result.Ok? <==> (pts.width == 3 || pts.width == 4) && (inverse ==> Det(m) != 0.0)
    ensures inverse && Det(m) == 0.0 ==> t.result == Err(SingularMatrix)
    ensures (!inverse || Det(m) != 0.0) && pts.width != 3 && pts.width != 4 ==> t.result == Err(MatmulShapeMismatch)
    ensures t.result.Ok? ==>
      t.result.value.width == pts.width && Rectangular(t.result.value) && |t.result.value.rows| == |pts.rows|
    ensures t.result.Ok? ==> forall k :: 0 <= k < |pts.rows| ==>
      t.result.value.rows[k][..3] == Xyz(Apply(EffectiveMatrix(m, inverse).value, Homogeneous(pts.rows[k])))
    ensures t.result.Ok? && pts.width == 4 ==> forall k :: 0 <= k < |pts.rows| ==>
      t.result.value.rows[k][3] == pts.rows[k][3]
  {
    var intensity := if pts.width == 4 then Some(LastColumn(pts)) else None;
    var homogeneous := if pts.width == 4 then SetLastColumnToOne(pts) else AppendOnes(pts);
    var input := if pts.width == 4 then homogeneous else pts;
    match EffectiveMatrix(m, inverse)
    case Err(e) => Transformed(Err(e), input)
    case Ok(mat) =>
      match MatMulTransposed(homogeneous, mat)
      case Err(e) => Transformed(Err(e), input)
      case Ok(product) =>
        assert forall k :: 0 <= k < |pts.rows| ==>
          AsVec4(homogeneous.rows[k]) == Homogeneous(pts.rows[k]);
        var xyz := TakeColumns(product, 3);
        var out := if intensity.Some? then AppendColumn(xyz, intensity.value) else xyz;
        Transformed(Ok(out), input)
  }

  /** No pose matrix can be applied inversely: whatever the points,
      `transformPoints(getTransform(...), pts, inverse=True)` fails. */
  lemma PoseTransformHasNoInverse(p: Pose, trig: Trig, degrees: bool, pts: Cloud)
    requires Rectangular(pts)
    ensures TransformPoints(GetTransform(p, trig, degrees), pts, true).result == Err(SingularMatrix)
  {
    ZeroBottomRowIsSingular(GetTransform(p, trig, degrees));
  }

  /** At zero angles every point is moved by the pose's location, and an
      intensity column is carried along. */
  lemma ZeroAnglesAddLocation(p: Pose, trig: Trig, degrees: bool, pts: Cloud)
    requires p.pitch == 0.0 && p.yaw == 0.0 && p.roll == 0.0
    requires trig.cos(0.0) == 1.0 && trig.sin(0.0) == 0.0
    requires Rectangular(pts) && (pts.width == 3 || pts.width == 4)
    ensures TransformPoints(GetTransform(p, trig, degrees), pts, false).result.Ok?
    ensures forall k :: 0 <= k < |pts.rows| ==>
      TransformPoints(GetTransform(p, trig, degrees), pts, false).result.value.rows[k][..3] ==
        [pts.rows[k][0] + p.x, pts.rows[k][1] + p.y, pts.rows[k][2] + p.z]
  {
    ZeroAnglesOnlyTranslate(p, trig, degrees);
  }

  /** An affine matrix (bottom row `0, 0, 0, 1`) that is invertible undoes
      itself: transforming and then transforming back with `inverse` set
      gives the original points and intensities. Pose matrices are not
      affine in this sense; see `PoseTransformHasNoInverse`. */
  lemma AffineRoundTrip(m: Mat4, pts: Cloud)
    requires m.r3 == Vec4(0.0, 0.0, 0.0, 1.0) && Det(m) != 0.0
    requires Rectangular(pts) && (pts.width == 3 || pts.width == 4)
    ensures TransformPoints(m, pts, false).result.Ok?
    ensures var there := TransformPoints(m, pts, false).result.value;
      TransformPoints(m, there, true).result == Ok(pts)
  {
    var there := TransformPoints(m, pts, false).result.value;
    var back := TransformPoints(m, there, true).result;
    var inv := Invert(m).value;
    assert back.Ok?;
    forall k | 0 <= k < |pts.rows|
      ensures back.value.rows[k] == pts.rows[k]
    {
      var h := Homogeneous(pts.rows[k]);
      var moved := Apply(m, h);
      assert moved.w == 1.0;
      assert Homogeneous(there.rows[k]) == moved;
      ApplyMul(inv, m, h);
      ApplyIdentity(h);
      assert back.value.rows[k][..3] == pts.rows[k][..3];
    }
    assert back.value.rows == pts.rows;
  }

  // ---- bounding boxes ----

  /** A bounding-box record: location, yaw before pitch, and extents. */
  datatype Box = Box(x: real, y: real, z: real, yaw: real, pitch: real, w: real, l: real, h: real)

  /** The pose `updateBoundingBox` hands to `getTransform`: pitch and yaw in
      that function's order, roll fixed at zero. */
  function BoxPose(b: Box): (r: Pose)
  {
    Pose(b.x, b.y, b.z, b.pitch, b.yaw, 0.0)
  }

  /** The eight corners before the transform: half the unit signs, lifted by
      half a unit in z, scaled by the extents. */
  function BoxCorners(w: real, l: real, h: real): (c: Cloud)
    ensures c.width == 3 && Rectangular(c) && |c.rows| == 8
    ensures forall k :: 0 <= k < 8 ==> c.rows[k][0] == w / 2.0 || c.rows[k][0] == -w / 2.0
    ensures forall k :: 0 <= k < 8 ==> c.rows[k][1] == l / 2.0 || c.rows[k][1] == -l / 2.0
    ensures forall k :: 0 <= k < 4 ==> c.rows[k][2] == 0.0
    ensures forall k :: 4 <= k < 8 ==> c.rows[k][2] == h
  {
    Cloud(3, seq(8, k requires 0 <= k < 8 =>
      var s := CornerSigns[k];
      [(0.5 * s.0 as real + 0.0) * w, (0.5 * s.1 as real + 0.0) * l, (0.5 * s.2 as real + 0.5) * h]))
  }

  /** Two corners joined by an edge differ in exactly one coordinate, and
      there by the full extent; with non-zero extents no other pair does. */
  lemma CornersOfAnEdge(w: real, l: real, h: real, i: nat, j: nat)
    requires w != 0.0 && l != 0.0 && h != 0.0
    requires i < 8 && j < 8
    ensures var c := BoxCorners(w, l, h).rows;
      Adjacent(i, j) <==>
        (if c[i][0] == c[j][0] then 0 else 1) + (if c[i][1] == c[j][1] then 0 else 1)
          + (if c[i][2] == c[j][2] then 0 else 1) == 1
  {
    var c := BoxCorners(w, l, h).rows;
    var (a, b) := (CornerSigns[i], CornerSigns[j]);
    assert (c[i][0] == c[j][0]) <==> (a.0 == b.0);
    assert (c[i][1] == c[j][1]) <==> (a.1 == b.1);
    assert (c[i][2] == c[j][2]) <==> (a.2 == b.2);
  }

  /** The corners in the world frame. */
  function GlobalCorners(b: Box, trig: Trig): (pts: seq<seq<real>>)
    ensures |pts| == 8
    ensures forall k :: 0 <= k < 8 ==>
      pts[k] == Xyz(Apply(GetTransform(BoxPose(b), trig, true), Homogeneous(BoxCorners(b.w, b.l, b.h).rows[k])))
  {
    TransformPoints(GetTransform(BoxPose(b), trig, true), BoxCorners(b.w, b.l, b.h), false).result.value.rows
  }

  /** `updateBoundingBox`: the 16 points of the wireframe polyline. */
  function UpdateBoundingBox(b: Box, trig: Trig): (pts: seq<seq<real>>)
    ensures |pts| == 16
    ensures forall k :: 0 <= k < 16 ==> WireframeOrder[k] < 8 && pts[k] == GlobalCorners(b, trig)[WireframeOrder[k]]
  {
    var corners := GlobalCorners(b, trig);
    seq(16, k requires 0 <= k < 16 => corners[WireframeOrder[k]])
  }

  /** Drawn as a connected line, the 16 points trace every edge of the box:
      for each edge some consecutive pair of points is its two corners. */
  lemma BoundingBoxTracesEveryEdge(b: Box, trig: Trig, i: nat, j: nat)
    requires (i, j) in BoxEdges
    ensures var pts, c := UpdateBoundingBox(b, trig), GlobalCorners(b, trig);
      exists k :: 0 <= k < 15 &&
        ((pts[k] == c[i] && pts[k + 1] == c[j]) || (pts[k] == c[j] && pts[k + 1] == c[i]))
  {
    PolylineTracesEdge(UpdateBoundingBox(b, trig), GlobalCorners(b, trig), i, j);
  }

  /** Any 16 points laid out over eight corners in the wireframe order
      trace every edge between those corners. */
  lemma PolylineTracesEdge(pts: seq<seq<real>>, c: seq<seq<real>>, i: nat, j: nat)
    requires |pts| == 16 && |c| == 8 && (i, j) in BoxEdges
    requires forall k :: 0 <= k < 16 ==> WireframeOrder[k] < 8 && pts[k] == c[WireframeOrder[k]]
    ensures exists k :: 0 <= k < 15 && ((pts[k] == c[i] && pts[k + 1] == c[j]) || (pts[k] == c[j] && pts[k + 1] == c[i]))
  {
    WireframeCoversEveryEdge();
    var k :| 0 <= k < 15 && Segment(k) == (i, j);
    assert pts[k] == c[WireframeOrder[k]] && pts[k + 1] == c[WireframeOrder[k + 1]];
    assert (pts[k] == c[i] && pts[k + 1] == c[j]) || (pts[k] == c[j] && pts[k + 1] == c[i]);
  }

  /** And no step of the line leaves the box's edges. */
  lemma BoundingBoxStepsFollowEdges(b: Box, trig: Trig, k: nat)
    requires k < 15
    ensures var pts, c := UpdateBoundingBox(b, trig), GlobalCorners(b, trig);
      exists i, j :: (i, j) in BoxEdges && i < 8 && j < 8 &&
        ((pts[k] == c[i] && pts[k + 1] == c[j]) || (pts[k] == c[j] && pts[k + 1] == c[i]))
  {
    WireframeStepsAreEdges();
    var (i, j) := Segment(k);
    assert (i, j) in BoxEdges;
  }

  // ---- stored records and the per-frame fusion ----

  /** A `lidar_pose` record: x, y, z, pitch, yaw, roll. */
  function PoseFromRecord(rec: seq<real>): (r: Pose)
    requires |rec| == 6
  {
    Pose(rec[0], rec[1], rec[2], rec[3], rec[4], rec[5])
  }

  /** A `vehicle_boundingbox` record: x, y, z, yaw, pitch, w, l, h. */
  function BoxFromRecord(rec: seq<real>): (r: Box)
    requires |rec| == 8
  {
    Box(rec[0], rec[1], rec[2], rec[3], rec[4], rec[5], rec[6], rec[7])
  }

  /** A box record is transformed as the pose record with the same location,
      its yaw and pitch swapped, and roll zero. */
  lemma BoxRecordPose(rec: seq<real>)
    requires |rec| == 8
    ensures BoxPose(BoxFromRecord(rec)) == PoseFromRecord([rec[0], rec[1], rec[2], rec[4], rec[3], 0.0])
  {
  }

  /** Per vehicle a 4-column cloud and a pose record. */
  predicate CloudRecords(clouds: seq<Cloud>, poses: seq<seq<real>>)
  {
    |poses| == |clouds|
    && (forall i :: 0 <= i < |clouds| ==> clouds[i].width == 4 && Rectangular(clouds[i]))
    && (forall i :: 0 <= i < |poses| ==> |poses[i]| == 6)
  }

  /** One frame of the stored snippet: per vehicle a cloud, a pose record
      and a box record. */
  predicate FrameRecords(clouds: seq<Cloud>, poses: seq<seq<real>>, boxes: seq<seq<real>>)
  {
    CloudRecords(clouds, poses) && |boxes| == |clouds|
    && (forall i :: 0 <= i < |boxes| ==> |boxes[i]| == 8)
  }

  /** Each vehicle's cloud moved into the world frame. */
  function GlobalClouds(clouds: seq<Cloud>, poses: seq<seq<real>>, trig: Trig): (r: seq<Cloud>)
    requires CloudRecords(clouds, poses)
    ensures |r| == |clouds|
    ensures forall i :: 0 <= i < |r| ==> r[i].width == 4 && Rectangular(r[i]) && |r[i].rows| == |clouds[i].rows|
  {
    seq(|clouds|, i requires 0 <= i < |clouds| =>
      TransformPoints(GetTransform(PoseFromRecord(poses[i]), trig, true), clouds[i], false).result.value)
  }

  /** The fused cloud of one frame: every vehicle's cloud moved into the
      world frame, then concatenated. With no vehicles there is nothing to
      concatenate. */
  function FuseFrame(clouds: seq<Cloud>, poses: seq<seq<real>>, trig: Trig): (r: Result<Cloud>)
    requires CloudRecords(clouds, poses)
    ensures r.Ok? <==> |clouds| > 0
    ensures r.Err? ==> r.error == NothingToConcatenate
    ensures r.Ok? ==> r.value.width == 4 && Rectangular(r.value) && |r.value.rows| == TotalRows(clouds)
  {
    var global := GlobalClouds(clouds, poses, trig);
    match Concatenate(global)
    case Err(e) => Err(e)
    case Ok(fused) =>
      TotalRowsPointwise(global, clouds);
      ConcatRectangular(global);
      Ok(fused)
  }

  /** Row `k` of vehicle `i` appears in the fused cloud, after the rows of
      the vehicles before it, as its world-frame point followed by its own
      intensity. */
  lemma FusedRowAt(clouds: seq<Cloud>, poses: seq<seq<real>>, trig: Trig, i: nat, k: nat)
    requires CloudRecords(clouds, poses)
    requires i < |clouds| && k < |clouds[i].rows|
    ensures TotalRows(clouds[..i]) + k < TotalRows(clouds)
    ensures var row := clouds[i].rows[k];
      FuseFrame(clouds, poses, trig).value.rows[TotalRows(clouds[..i]) + k] ==
        Xyz(Apply(GetTransform(PoseFromRecord(poses[i]), trig, true), Homogeneous(row))) + [row[3]]
  {
    var global := GlobalClouds(clouds, poses, trig);
    TotalRowsPrefix(clouds, i);
    TotalRowsPointwise(global[..i], clouds[..i]);
    ConcatRowAt(global, i, k);
    assert FuseFrame(clouds, poses, trig).value.rows == ConcatRows(global);
    GlobalRowAt(clouds, poses, trig, i, k);
  }

  /** Row `k` of vehicle `i`, moved into the world frame. */
  lemma GlobalRowAt(clouds: seq<Cloud>, poses: seq<seq<real>>, trig: Trig, i: nat, k: nat)
    requires CloudRecords(clouds, poses)
    requires i < |clouds| && k < |clouds[i].rows|
    ensures var row := clouds[i].rows[k];
      GlobalClouds(clouds, poses, trig)[i].rows[k] ==
        Xyz(Apply(GetTransform(PoseFromRecord(poses[i]), trig, true), Homogeneous(row))) + [row[3]]
  {
    var row := clouds[i].rows[k];
    var m := GetTransform(PoseFromRecord(poses[i]), trig, true);
    var out := TransformPoints(m, clouds[i], false).result.value.rows[k];
    assert |out| == 4 && out[..3] == Xyz(Apply(m, Homogeneous(row))) && out[3] == row[3];
    assert out == out[..3] + [out[3]];
  }

  /** What one frame puts on screen: the fused cloud, the scalars coloring
      it, and one polyline per vehicle. */
  datatype FrameView = FrameView(fused: Cloud, scalars: seq<real>, wires: seq<seq<seq<real>>>)

  /** One iteration of the `anim` loop: the fused cloud colored by its
      intensity column, and each vehicle's box as a polyline. A frame with
      no vehicles fails at the concatenation. */
  function RenderFrame(clouds: seq<Cloud>, poses: seq<seq<real>>, boxes: seq<seq<real>>, trig: Trig): (r: Result<FrameView>)
    requires FrameRecords(clouds, poses, boxes)
    ensures r.Ok? <==> |clouds| > 0
    ensures r.Err? ==> r.error == NothingToConcatenate
    ensures r.Ok? ==> r.value.fused == FuseFrame(clouds, poses, trig).value
    ensures r.Ok? ==> |r.value.scalars| == TotalRows(clouds)
    ensures r.Ok? ==> forall n :: 0 <= n < TotalRows(clouds) ==> r.value.scalars[n] == r.value.fused.rows[n][3]
    ensures r.Ok? ==> |r.value.wires| == |clouds|
    ensures r.Ok? ==> forall i :: 0 <= i < |clouds| ==> r.value.wires[i] == UpdateBoundingBox(BoxFromRecord(boxes[i]), trig)
  {
    match FuseFrame(clouds, poses, trig)
    case Err(e) => Err(e)
    case Ok(fused) =>
      var wires := seq(|boxes|, i requires 0 <= i < |boxes| => UpdateBoundingBox(BoxFromRecord(boxes[i]), trig));
      Ok(FrameView(fused, LastColumn(fused), wires))
  }

  /** The colour of every fused point is the intensity its own vehicle
      measured for it. */
  lemma ScalarsAreIntensities(clouds: seq<Cloud>, poses: seq<seq<real>>, boxes: seq<seq<real>>, trig: Trig, i: nat, k: nat)
    requires FrameRecords(clouds, poses, boxes)
    requires i < |clouds| && k < |clouds[i].rows|
    ensures TotalRows(clouds[..i]) + k < TotalRows(clouds)
    ensures RenderFrame(clouds, poses, boxes, trig).value.scalars[TotalRows(clouds[..i]) + k] == clouds[i].rows[k][3]
  {
    FusedRowAt(clouds, poses, trig, i, k);
  }

  /** Two vehicles with one point each fuse into those two points, in
      vehicle order, each moved by its own vehicle's pose. */
  lemma FuseTwoSinglePoints(clouds: seq<Cloud>, poses: seq<seq<real>>, trig: Trig)
    requires CloudRecords(clouds, poses)
    requires |clouds| == 2 && |clouds[0].rows| == 1 && |clouds[1].rows| == 1
    ensures FuseFrame(clouds, poses, trig).Ok?
    ensures var a, b := clouds[0].rows[0], clouds[1].rows[0];
      FuseFrame(clouds, poses, trig).value.rows ==
        [Xyz(Apply(GetTransform(PoseFromRecord(poses[0]), trig, true), Homogeneous(a))) + [a[3]],
         Xyz(Apply(GetTransform(PoseFromRecord(poses[1]), trig, true), Homogeneous(b))) + [b[3]]]
  {
    assert clouds[..0] == [] && clouds[..1][..0] == [] && clouds[..1] == [clouds[0]];
    assert TotalRows(clouds[..1]) == 1;
    FusedRowAt(clouds, poses, trig, 0, 0);
    FusedRowAt(clouds, poses, trig, 1, 0);
  }

  /** The two-vehicle scenario. Vehicle A sits at its location with no
      rotation, and vehicle B is turned by a yaw of 180 degrees; each sees
      one point. A's point is only moved by A's location. B's forward
      direction is A's backward one, so B's x and y are mirrored before
      B's location is added. For A at the origin seeing (1, 0, 0) with
      intensity 5 and B at (10, 0, 0) seeing (1, 0, 0) with intensity 7,
      the fused frame is (1, 0, 0, 5), (9, 0, 0, 7). */
  lemma TwoVehicleScenario(clouds: seq<Cloud>, poses: seq<seq<real>>, trig: Trig)
    requires trig.cos(0.0) == 1.0 && trig.sin(0.0) == 0.0
    requires trig.cos(Pi) == -1.0 && trig.sin(Pi) == 0.0
    requires CloudRecords(clouds, poses)
    requires |clouds| == 2 && |clouds[0].rows| == 1 && |clouds[1].rows| == 1
    requires poses[0][3] == 0.0 && poses[0][4] == 0.0 && poses[0][5] == 0.0
    requires poses[1][3] == 0.0 && poses[1][4] == 180.0 && poses[1][5] == 0.0
    ensures var a, b := clouds[0].rows[0], clouds[1].rows[0];
      FuseFrame(clouds, poses, trig) ==
        Ok(Cloud(4, [[a[0] + poses[0][0], a[1] + poses[0][1], a[2] + poses[0][2], a[3]],
                     [poses[1][0] - b[0], poses[1][1] - b[1], b[2] + poses[1][2], b[3]]]))
  {
    FuseTwoSinglePoints(clouds, poses, trig);
    var p0, p1 := PoseFromRecord(poses[0]), PoseFromRecord(poses[1]);
    ZeroAnglesOnlyTranslate(p0, trig, true);
    HalfTurnYaw(p1, trig);
    TurnedRow(GetTransform(p0, trig, true), clouds[0].rows[0], 1.0, p0.x, p0.y, p0.z);
    TurnedRow(GetTransform(p1, trig, true), clouds[1].rows[0], -1.0, p1.x, p1.y, p1.z);
  }

  /** A matrix that turns x and y by a half turn (`c` = -1) or not at
      all (`c` = 1) and then translates, applied to one row. */
  lemma TurnedRow(m: Mat4, row: seq<real>, c: real, x: real, y: real, z: real)
    requires m == Mat4(Vec4(c, 0.0, 0.0, x), Vec4(0.0, c, 0.0, y), Vec4(0.0, 0.0, 1.0, z), Vec4(0.0, 0.0, 0.0, 0.0))
    requires |row| == 4
    ensures Xyz(Apply(m, Homogeneous(row))) + [row[3]] == [c * row[0] + x, c * row[1] + y, row[2] + z, row[3]]
  {
    var v := Apply(m, Homogeneous(row));
    assert v.x == c * row[0] + x && v.y == c * row[1] + y && v.z == row[2] + z;
  }

  /** A yaw of 180 degrees (cos = -1, sin = 0) with no pitch or roll turns x
      and y around. */
  lemma HalfTurnYaw(p: Pose, trig: Trig)
    requires p.pitch == 0.0 && p.yaw == 180.0 && p.roll == 0.0
    requires trig.cos(0.0) == 1.0 && trig.sin(0.0) == 0.0
    requires trig.cos(Pi) == -1.0 && trig.sin(Pi) == 0.0
    ensures GetTransform(p, trig, true) ==
      Mat4(Vec4(-1.0, 0.0, 0.0, p.x), Vec4(0.0, -1.0, 0.0, p.y), Vec4(0.0, 0.0, 1.0, p.z), Vec4(0.0, 0.0, 0.0, 0.0))
  {
    assert Radians(180.0) == Pi;
  }
}
