/**
 The live fusion script (genSnippetVis.py). Each tick it takes one queued
 measurement per registered vehicle and moves every cloud into the world
 frame with the sensor's own matrix. It then concatenates the clouds into
 the buffer the viewer shows. It also holds the blueprint filter and the
 spawn-point filter used when vehicles are placed.
 */
module GenSnippetVis {
  import opened Outcome
  import opened Linear
  import opened Clouds
  import opened Sensor
  import opened Seqs
  import opened Simulator
  import Vis

  /** `transformPts`. Unlike the viewer's `transformPoints`, it assumes an
      intensity column. With no columns at all, `pts[:,-1]` fails. Otherwise
      the last column is copied and then overwritten with ones in the
      caller's array, and only a 4-column array gets through the product.
      The matrix is the sensor's own forward or inverse matrix. */
  function TransformPts(t: SensorTransform, pts: Cloud, inverse: bool): (r: Transformed)
    requires Rectangular(pts)
    ensures pts.width == 0 ==> r == Transformed(Err(ColumnIndexOutOfRange), pts)
    ensures pts.width >= 1 ==> r.input == SetLastColumnToOne(pts)
    ensures r.result.Ok? <==> pts.width == 4
    ensures pts.width >= 1 && pts.width != 4 ==> r.result == Err(MatmulShapeMismatch)
    ensures r.result.Ok? ==> r.result.value.width == 4 && Rectangular(r.result.value) && |r.result.value.rows| == |pts.rows|
    ensures r.result.Ok? ==> forall k :: 0 <= k < |pts.rows| ==>
      r.result.value.rows[k][..3] == Xyz(Apply(if inverse then t.inverseMatrix else t.matrix, Homogeneous(pts.rows[k])))
      && r.result.value.rows[k][3] == pts.rows[k][3]
  {
    if pts.width == 0 then Transformed(Err(ColumnIndexOutOfRange), pts)
    else
      var intensity := LastColumn(pts);
      var ones := SetLastColumnToOne(pts);
      var mat := if inverse then t.inverseMatrix else t.matrix;
      match MatMulTransposed(ones, mat)
      case Err(e) => Transformed(Err(e), ones)
      case Ok(product) =>
        assert forall k :: 0 <= k < |pts.rows| ==> AsVec4(ones.rows[k]) == Homogeneous(pts.rows[k]);
        Transformed(Ok(AppendColumn(TakeColumns(product, 3), intensity)), ones)
  }

  /** The entries of a 2-D numpy array held in a Dafny array. */
  function CloudOf(a: array2<real>): (c: Cloud)
    reads a
    ensures c.width == a.Length1 && Rectangular(c) && |c.rows| == a.Length0
    ensures forall k, j :: 0 <= k < a.Length0 && 0 <= j < a.Length1 ==> c.rows[k][j] == a[k, j]
  {
    Cloud(a.Length1, seq(a.Length0, k reads a requires 0 <= k < a.Length0 =>
      seq(a.Length1, j reads a requires 0 <= j < a.Length1 => a[k, j])))
  }

  /** The first two statements of `transformPts`, on the caller's array
      itself: the last column is copied out, then set to ones in place.
      What it leaves in the array is the `input` of `TransformPts`. */
  method SplitIntensityInPlace(a: array2<real>) returns (intensity: Result<seq<real>>)
    modifies a
    ensures intensity.Ok? <==> a.Length1 >= 1
    ensures intensity.Err? ==> intensity.error == ColumnIndexOutOfRange && CloudOf(a) == old(CloudOf(a))
    ensures intensity.Ok? ==> intensity.value == LastColumn(old(CloudOf(a)))
    ensures intensity.Ok? ==> CloudOf(a) == SetLastColumnToOne(old(CloudOf(a)))
  {
    if a.Length1 == 0 {
      return Err(ColumnIndexOutOfRange);
    }
    ghost var before := CloudOf(a);
    var last := a.Length1 - 1;
    var col: seq<real> := [];
    var i := 0;
    while i < a.Length0
      invariant 0 <= i <= a.Length0
      invariant |col| == i
      invariant forall k :: 0 <= k < i ==> col[k] == before.rows[k][last] && a[k, last] == 1.0
      invariant forall k, j :: 0 <= k < a.Length0 && 0 <= j < a.Length1 && (i <= k || j != last) ==> a[k, j] == before.rows[k][j]
    {
      col := col + [a[i, last]];
      a[i, last] := 1.0;
      i := i + 1;
    }
    var after := CloudOf(a);
    var expected := SetLastColumnToOne(before);
    forall k | 0 <= k < a.Length0
      ensures after.rows[k] == expected.rows[k]
    {
      assert forall j :: 0 <= j < last ==> expected.rows[k][j] == expected.rows[k][..last][j];
    }
    assert after.rows == expected.rows;
    assert col == LastColumn(before);
    return Ok(col);
  }

  /** On the 4-column clouds of the queue, the live script and the viewer
      compute the same points, and leave the caller's array the same. */
  lemma TransformPtsAgreesWithViewer(t: SensorTransform, pts: Cloud)
    requires Rectangular(pts) && pts.width == 4
    ensures TransformPts(t, pts, false) == Vis.TransformPoints(t.matrix, pts, false)
  {
    var live, viewer := TransformPts(t, pts, false), Vis.TransformPoints(t.matrix, pts, false);
    forall k | 0 <= k < |pts.rows|
      ensures live.result.value.rows[k] == viewer.result.value.rows[k]
    {
      var a, b := live.result.value.rows[k], viewer.result.value.rows[k];
      assert a == a[..3] + [a[3]] && b == b[..3] + [b[3]];
    }
    assert live.result.value.rows == viewer.result.value.rows;
  }

  /** When the sensor's inverse matrix undoes its matrix and the matrix is
      affine (bottom row `0, 0, 0, 1`), moving a cloud into the world frame
      and back gives it back, intensities included. */
  lemma TransformPtsRoundTrip(t: SensorTransform, pts: Cloud)
    requires Mul(t.inverseMatrix, t.matrix) == Identity
    requires t.matrix.r3 == Vec4(0.0, 0.0, 0.0, 1.0)
    requires Rectangular(pts) && pts.width == 4
    ensures TransformPts(t, pts, false).result.Ok?
    ensures TransformPts(t, TransformPts(t, pts, false).result.value, true).result == Ok(pts)
  {
    var there := TransformPts(t, pts, false).result.value;
    var back := TransformPts(t, there, true).result.value;
    forall k | 0 <= k < |pts.rows|
      ensures back.rows[k] == pts.rows[k]
    {
      var h := Homogeneous(pts.rows[k]);
      assert Apply(t.matrix, h).w == 1.0;
      assert Homogeneous(there.rows[k]) == Apply(t.matrix, h);
      ApplyMul(t.inverseMatrix, t.matrix, h);
      ApplyIdentity(h);
      var b := back.rows[k];
      assert b == b[..3] + [b[3]];
    }
    assert back.rows == pts.rows;
  }

  /** Each taken item's cloud in the world frame. The script transforms a
      fresh copy (`astype`), so the queued cloud itself is never touched. */
  function TransformBatch(items: seq<QueueItem>): (r: Result<seq<Cloud>>)
    requires forall i :: 0 <= i < |items| ==> Rectangular(items[i].cloud)
    ensures r.Ok? <==> forall i :: 0 <= i < |items| ==> items[i].cloud.width == 4
    ensures r.Ok? ==> |r.value| == |items|
    ensures r.Ok? ==> forall i :: 0 <= i < |items| ==>
      r.value[i] == TransformPts(items[i].transform, items[i].cloud, false).result.value
      && r.value[i].width == 4 && Rectangular(r.value[i]) && |r.value[i].rows| == |items[i].cloud.rows|
  {
    if |items| == 0 then Ok([])
    else
      var init :- TransformBatch(items[..|items| - 1]);
      var last := items[|items| - 1];
      var moved :- TransformPts(last.transform, last.cloud, false).result;
      Ok(init + [moved])
  }

  /** The outcome of a fused tick: the fused cloud placed in the shared
      buffer, and the sensor frame the log line reports. */
  datatype FusedTick = FusedTick(fused: Cloud, sensorFrame: int)

  /** One tick of the event loop: the drain, and what became of it. */
  datatype LiveTick = LiveTick(drained: Drained, outcome: Result<FusedTick>)

  /** One pass of `carlaEventLoop` after `world.tick()`. At most one item
      per registered vehicle is taken. A timeout ends the drain and is
      logged, and whatever was taken is still fused. If nothing was taken,
      the concatenation fails, which ends the loop's thread. The log line
      reports the frame of the last item taken. */
  function EventLoopTick(queue: seq<QueueItem>, vehicles: nat): (t: LiveTick)
    requires forall i :: 0 <= i < |queue| ==> Rectangular(queue[i].cloud)
    ensures t.drained == Drain(queue, vehicles)
    ensures |t.drained.taken| == 0 ==> t.outcome == Err(NothingToConcatenate)
    ensures WellFormedQueue(queue) ==> (t.outcome.Ok? <==> |t.drained.taken| > 0)
    ensures t.outcome.Ok? ==> var items := t.drained.taken;
      |items| > 0 && t.outcome.value.sensorFrame == items[|items| - 1].frame
      && t.outcome.value.fused.width == 4 && Rectangular(t.outcome.value.fused)
      && |t.outcome.value.fused.rows| == TotalRows(CloudsOf(items))
  {
    var drained := Drain(queue, vehicles);
    var items := drained.taken;
    assert forall i :: 0 <= i < |items| ==> items[i] == queue[i] by {
      forall i | 0 <= i < |items|
        ensures items[i] == queue[i]
      {
        assert (drained.taken + drained.rest)[i] == items[i];
      }
    }
    LiveTick(drained, FuseBatch(items))
  }

  /** The clouds of a run of items. */
  function CloudsOf(items: seq<QueueItem>): (r: seq<Cloud>)
    ensures |r| == |items| && forall i :: 0 <= i < |items| ==> r[i] == items[i].cloud
  {
    seq(|items|, i requires 0 <= i < |items| => items[i].cloud)
  }

  /** Transforming and concatenating the taken items. */
  function FuseBatch(items: seq<QueueItem>): (r: Result<FusedTick>)
    requires forall i :: 0 <= i < |items| ==> Rectangular(items[i].cloud)
    ensures |items| == 0 ==> r == Err(NothingToConcatenate)
    ensures WellFormedQueue(items) ==> (r.Ok? <==> |items| > 0)
    ensures r.Ok? ==> |items| > 0 && r.value.sensorFrame == items[|items| - 1].frame
    ensures r.Ok? ==> r.value.fused.width == 4 && Rectangular(r.value.fused)
    ensures r.Ok? ==> |r.value.fused.rows| == TotalRows(CloudsOf(items))
  {
    var moved :- TransformBatch(items);
    var fused :- Concatenate(moved);
    TotalRowsPointwise(moved, CloudsOf(items));
    ConcatRectangular(moved);
    Ok(FusedTick(fused, items[|items| - 1].frame))
  }

  /** Row `k` of the `i`-th item taken lands in the fused cloud after the
      rows of the items before it: its point moved by that item's sensor
      matrix, with its intensity. */
  lemma FusedTickRowAt(items: seq<QueueItem>, i: nat, k: nat)
    requires WellFormedQueue(items)
    requires i < |items| && k < |items[i].cloud.rows|
    ensures TotalRows(CloudsOf(items)[..i]) + k < TotalRows(CloudsOf(items))
    ensures var row := items[i].cloud.rows[k];
      FuseBatch(items).value.fused.rows[TotalRows(CloudsOf(items)[..i]) + k] ==
        Xyz(Apply(items[i].transform.matrix, Homogeneous(row))) + [row[3]]
  {
    var moved := TransformBatch(items).value;
    TotalRowsPrefix(CloudsOf(items), i);
    TotalRowsPointwise(moved[..i], CloudsOf(items)[..i]);
    ConcatRowAt(moved, i, k);
    var out := moved[i].rows[k];
    assert out == out[..3] + [out[3]];
  }

  // ---- vehicle placement ----

  /** Four wheels, and not one of the four models the script excludes. */
  predicate Eligible(b: Blueprint)
  {
    b.wheels == 4 && !EndsWith(b.id, "isetta") && !EndsWith(b.id, "carlacola")
    && !EndsWith(b.id, "cybertruck") && !EndsWith(b.id, "t2")
  }

  /** The five list comprehensions of `get_random_blueprint`, in order. */
  function EligibleBlueprints(library: seq<Blueprint>): (r: seq<Blueprint>)
  {
    var four := Filter(library, (b: Blueprint) => b.wheels == 4);
    var a := Filter(four, (b: Blueprint) => !EndsWith(b.id, "isetta"));
    var b := Filter(a, (b: Blueprint) => !EndsWith(b.id, "carlacola"));
    var c := Filter(b, (b: Blueprint) => !EndsWith(b.id, "cybertruck"));
    Filter(c, (b: Blueprint) => !EndsWith(b.id, "t2"))
  }

  /** The chained filters are one filter by `Eligible`. */
  lemma EligibleBlueprintsIsOneFilter(library: seq<Blueprint>)
    ensures EligibleBlueprints(library) == Filter(library, Eligible)
  {
    var p4 := (b: Blueprint) => b.wheels == 4;
    var pi := (b: Blueprint) => !EndsWith(b.id, "isetta");
    var pc := (b: Blueprint) => !EndsWith(b.id, "carlacola");
    var py := (b: Blueprint) => !EndsWith(b.id, "cybertruck");
    var pt := (b: Blueprint) => !EndsWith(b.id, "t2");
    var s1 := (b: Blueprint) => p4(b) && pi(b);
    var s2 := (b: Blueprint) => s1(b) && pc(b);
    var s3 := (b: Blueprint) => s2(b) && py(b);
    var s4 := (b: Blueprint) => s3(b) && pt(b);
    FilterFilter(library, p4, pi, s1);
    FilterFilter(library, s1, pc, s2);
    FilterFilter(library, s2, py, s3);
    FilterFilter(library, s3, pt, s4);
    FilterExtensional(library, s4, Eligible);
  }

  /** `get_random_blueprint`. Whatever the draw, the chosen blueprint has
      four wheels and is none of the excluded models; and every eligible
      blueprint can be chosen. */
  function GetRandomBlueprint(library: seq<Blueprint>, draw: nat): (r: Result<Blueprint>)
    ensures r.Ok? <==> exists i :: 0 <= i < |library| && Eligible(library[i])
    ensures r.Err? ==> r.error == ChoiceFromEmpty
    ensures r.Ok? ==> r.value in library && Eligible(r.value)
    ensures r.Ok? ==> r.value.wheels == 4 && !EndsWith(r.value.id, "t2")
  {
    EligibleBlueprintsIsOneFilter(library);
    Choice(EligibleBlueprints(library), draw)
  }

  /** Every eligible blueprint is chosen by some draw. */
  lemma EveryEligibleBlueprintCanBeChosen(library: seq<Blueprint>, b: Blueprint)
    requires b in library && Eligible(b)
    ensures exists draw: nat :: GetRandomBlueprint(library, draw) == Ok(b)
  {
    EligibleBlueprintsIsOneFilter(library);
    var eligible := Filter(library, Eligible);
    var j :| 0 <= j < |library| && library[j] == b;
    assert b in eligible;
    var i :| 0 <= i < |eligible| && eligible[i] == b;
    SmallModulus(i, |eligible|);
    assert Choice(EligibleBlueprints(library), i) == Ok(b);
    assert GetRandomBlueprint(library, i) == Ok(b);
  }

  lemma SmallModulus(i: nat, n: nat)
    requires i < n
    ensures i % n == i
  {
  }

  /** The spawn-point filter of `main`: a random anchor point is drawn,
      and only the points strictly within half the lidar range of it are
      kept. `distance` is the simulator's `Location.distance`. */
  function NearbySpawnPoints(points: seq<Location>, draw: nat, range: real,
                             distance: (Location, Location) -> real): (r: Result<seq<Location>>)
    ensures r.Ok? <==> |points| > 0
    ensures r.Err? ==> r.error == ChoiceFromEmpty
    ensures r.Ok? ==> var anchor := points[draw % |points|];
      (forall i :: 0 <= i < |r.value| ==> r.value[i] in points && distance(r.value[i], anchor) < range / 2.0)
      && (forall i :: 0 <= i < |points| && distance(points[i], anchor) < range / 2.0 ==> points[i] in r.value)
  {
    var anchor :- Choice(points, draw);
    Ok(Filter(points, (sp: Location) => distance(sp, anchor) < range / 2.0))
  }
}
