/**
 The single-car viewer (interactive_lidar.py). One ego vehicle carries the
 lidar. Its callback splits each measurement into points and intensities
 in a buffer the viewer reads. The script also spawns other vehicles at
 waypoints around the ego vehicle.

 Randomness is passed in: a draw function gives the number drawn at each
 step, and the model reduces it modulo the population size.
 `try_spawn_actor` is an abstract function that returns the new actor's id
 or nothing, and `Location.distance` is an abstract distance.
 */
module InteractiveLidar {
  import opened Outcome
  import opened Clouds
  import opened Seqs
  import Simulator

  // ---- the shared buffer ----

  /** The `buf` dictionary: `buf['pts']` (N x 3) and `buf['intensity']` (N). */
  datatype Buffer = Buffer(pts: seq<seq<real>>, intensity: seq<real>)

  /** What the viewer relies on: one intensity per point, and three
      coordinates per point. */
  predicate Consistent(b: Buffer)
  {
    |b.pts| == |b.intensity| && forall k :: 0 <= k < |b.pts| ==> |b.pts[k]| == 3
  }

  /** The buffer before the first measurement: one point at the origin,
      with intensity 0. */
  const InitialBuffer: Buffer := Buffer([[0.0, 0.0, 0.0]], [0.0])

  /** `lidar_callback`. The raw buffer is decoded into rows of four. The
      first three columns become the points, and the last column becomes
      the intensities. A length that is not a multiple of 4 fails in the
      reshape. The old buffer is not read: both entries are replaced. */
  function Split(raw: seq<real>): (r: Result<Buffer>)
    ensures r.Ok? <==> |raw| % 4 == 0
    ensures r.Err? ==> r.error == ReshapeSizeMismatch
    ensures r.Ok? ==> Consistent(r.value) && |r.value.pts| == |raw| / 4
    ensures r.Ok? ==> forall k :: 0 <= k < |r.value.pts| ==>
      r.value.pts[k] == raw[4 * k..4 * k + 3] && r.value.intensity[k] == raw[4 * k + 3]
  {
    var cloud :- Decode(raw);
    var pts := TakeColumns(cloud, 3).rows;
    assert forall k :: 0 <= k < |pts| ==> pts[k] == raw[4 * k..4 * k + 3] by {
      forall k | 0 <= k < |pts|
        ensures pts[k] == raw[4 * k..4 * k + 3]
      {
        assert forall j :: 0 <= j < 3 ==> pts[k][j] == cloud.rows[k][j];
      }
    }
    Ok(Buffer(pts, LastColumn(cloud)))
  }

  /** One callback on the buffer. An exception in the callback leaves the
      buffer as it was; otherwise the split replaces it. */
  function Receive(buf: Buffer, raw: seq<real>): (r: Buffer)
    ensures Consistent(buf) ==> Consistent(r)
    ensures |raw| % 4 != 0 ==> r == buf
  {
    match Split(raw)
    case Ok(replaced) => replaced
    case Err(_) => buf
  }

  /** The decoded rows again: each point with its intensity appended. */
  function Rejoin(b: Buffer): (rows: seq<seq<real>>)
    requires Consistent(b)
    ensures |rows| == |b.pts| && forall k :: 0 <= k < |rows| ==> |rows[k]| == 4
  {
    seq(|b.pts|, k requires 0 <= k < |b.pts| => b.pts[k] + [b.intensity[k]])
  }

  /** Splitting loses nothing: the points and intensities rejoined and
      flattened are the raw buffer. */
  lemma SplitRoundTrip(raw: seq<real>)
    requires |raw| % 4 == 0
    ensures Flatten(Rejoin(Split(raw).value)) == raw
  {
    var rows := Rejoin(Split(raw).value);
    var decoded := Decode(raw).value;
    forall k | 0 <= k < |rows|
      ensures rows[k] == decoded.rows[k]
    {
      assert forall j :: 0 <= j < 4 ==> rows[k][j] == decoded.rows[k][j];
    }
    assert rows == decoded.rows;
    FlattenDecode(raw);
  }

  /** Any consistent buffer is what the callback makes of its own points
      and intensities laid out as a raw buffer. */
  lemma SplitOfRejoin(b: Buffer)
    requires Consistent(b)
    ensures Split(Flatten(Rejoin(b))) == Ok(b)
  {
    var rows := Rejoin(b);
    DecodeFlatten(Cloud(4, rows));
    FlattenLength(rows, 4);
    var c := Cloud(4, rows);
    assert Decode(Flatten(rows)) == Ok(c);
    var s := Split(Flatten(rows)).value;
    assert s == Buffer(TakeColumns(c, 3).rows, LastColumn(c));
    assert |s.pts| == |b.pts|;
    forall k | 0 <= k < |b.pts|
      ensures s.pts[k] == b.pts[k] && s.intensity[k] == b.intensity[k]
    {
      assert rows[k] == b.pts[k] + [b.intensity[k]];
      assert forall j :: 0 <= j < 3 ==> s.pts[k][j] == rows[k][j];
    }
    assert s.pts == b.pts && s.intensity == b.intensity;
  }

  /** A run of callbacks, in order. */
  function ReceiveAll(buf: Buffer, raws: seq<seq<real>>): (r: Buffer)
    ensures Consistent(buf) ==> Consistent(r)
  {
    if |raws| == 0 then buf else Receive(ReceiveAll(buf, raws[..|raws| - 1]), raws[|raws| - 1])
  }

  /** The buffer is consistent from the start and after every completed
      callback: between callbacks it holds one intensity per point. A
      callback writes its two entries one after the other, so a read that
      falls between the two writes is not covered here. */
  lemma AlwaysConsistent(raws: seq<seq<real>>)
    ensures Consistent(InitialBuffer)
    ensures Consistent(ReceiveAll(InitialBuffer, raws))
  {
  }

  /** After a run of callbacks, the buffer holds exactly the last
      well-formed measurement: nothing of earlier ones survives. */
  lemma {:induction false} LastGoodMeasurementWins(buf: Buffer, raws: seq<seq<real>>, i: nat)
    requires i < |raws| && |raws[i]| % 4 == 0
    requires forall j :: i < j < |raws| ==> |raws[j]| % 4 != 0
    ensures ReceiveAll(buf, raws) == Split(raws[i]).value
  {
    if i < |raws| - 1 {
      var init := raws[..|raws| - 1];
      LastGoodMeasurementWins(buf, init, i);
    }
  }

  // ---- placing the other vehicles ----

  /** The spawn candidates: waypoints strictly closer than `range` to the
      ego vehicle's spawn point, then strictly farther than 3 from it. */
  function SpawnCandidates(waypoints: seq<Simulator.Location>, ego: Simulator.Location, range: real,
                           distance: (Simulator.Location, Simulator.Location) -> real): (r: seq<Simulator.Location>)
    ensures |r| <= |waypoints|
    ensures forall i :: 0 <= i < |r| ==> r[i] in waypoints && 3.0 < distance(r[i], ego) < range
    ensures forall i :: 0 <= i < |waypoints| && 3.0 < distance(waypoints[i], ego) < range ==> waypoints[i] in r
  {
    var near := Filter(waypoints, (sp: Simulator.Location) => distance(sp, ego) < range);
    Filter(near, (sp: Simulator.Location) => distance(sp, ego) > 3.0)
  }

  /** The two comprehensions are one filter by the annulus, so the
      candidates keep the waypoints' order. */
  lemma SpawnCandidatesIsOneFilter(waypoints: seq<Simulator.Location>, ego: Simulator.Location, range: real,
                                   distance: (Simulator.Location, Simulator.Location) -> real)
    ensures SpawnCandidates(waypoints, ego, range, distance)
      == Filter(waypoints, (sp: Simulator.Location) => 3.0 < distance(sp, ego) < range)
  {
    var near := (sp: Simulator.Location) => distance(sp, ego) < range;
    var far := (sp: Simulator.Location) => distance(sp, ego) > 3.0;
    var annulus := (sp: Simulator.Location) => 3.0 < distance(sp, ego) < range;
    FilterFilter(waypoints, near, far, annulus);
  }

  /** No two positions of `s` hold the same value. */
  predicate Distinct<T(==)>(s: seq<T>)
  {
    forall i, j :: 0 <= i < j < |s| ==> s[i] != s[j]
  }

  /** `s` without its element at `i`. */
  function Remove<T>(s: seq<T>, i: nat): (r: seq<T>)
    requires i < |s|
    ensures |r| == |s| - 1
    ensures multiset(r) + multiset{s[i]} == multiset(s)
  {
    assert s == s[..i] + [s[i]] + s[i + 1..];
    s[..i] + s[i + 1..]
  }

  /** `n` picks without replacement. Pick `step` takes the element at
      `draws(step)` modulo the size of what is left. */
  function Picks<T>(pop: seq<T>, n: nat, draws: nat -> nat, step: nat): (r: seq<T>)
    requires n <= |pop|
    ensures |r| == n
    ensures multiset(r) <= multiset(pop)
    decreases n
  {
    if n == 0 then []
    else
      var i := draws(step) % |pop|;
      [pop[i]] + Picks(Remove(pop, i), n - 1, draws, step + 1)
  }

  /** `random.sample(population, k)`: fails when `k` is negative or larger
      than the population. Otherwise it returns `k` elements drawn
      without replacement. */
  function Sample<T>(pop: seq<T>, k: int, draws: nat -> nat): (r: Result<seq<T>>)
    ensures r.Ok? <==> 0 <= k <= |pop|
    ensures r.Err? ==> r.error == SampleLargerThanPopulation
    ensures r.Ok? ==> |r.value| == k && multiset(r.value) <= multiset(pop)
  {
    if k < 0 || k > |pop| then Err(SampleLargerThanPopulation) else Ok(Picks(pop, k, draws, 0))
  }

  /** Removing one element keeps the others distinct, and the removed
      element does not occur among them. */
  lemma RemoveFromDistinct<T>(s: seq<T>, i: nat)
    requires i < |s| && Distinct(s)
    ensures Distinct(Remove(s, i)) && s[i] !in Remove(s, i)
  {
    var rest := Remove(s, i);
    assert rest == s[..i] + s[i + 1..];
    forall a | 0 <= a < |rest|
      ensures rest[a] == s[if a < i then a else a + 1]
    {
    }
  }

  /** What does not occur in `b` does not occur in a sub-multiset of it. */
  lemma AbsentFromSubMultiset<T>(x: T, a: seq<T>, b: seq<T>)
    requires multiset(a) <= multiset(b) && x !in b
    ensures x !in a
  {
    assert multiset(b)[x] == 0;
  }

  /** An element outside a distinct sequence can be put in front of it. */
  lemma ConsDistinct<T>(x: T, s: seq<T>)
    requires Distinct(s) && x !in s
    ensures Distinct([x] + s)
  {
    var r := [x] + s;
    forall a, b | 0 <= a < b < |r|
      ensures r[a] != r[b]
    {
      assert r[b] == s[b - 1];
    }
  }

  /** Drawing without replacement from distinct candidates never picks the
      same candidate twice, so no two vehicles are sent to one spot. */
  lemma {:induction false} PicksOfDistinctAreDistinct<T>(pop: seq<T>, n: nat, draws: nat -> nat, step: nat)
    requires n <= |pop| && Distinct(pop)
    ensures Distinct(Picks(pop, n, draws, step))
    decreases n
  {
    if n > 0 {
      var i := draws(step) % |pop|;
      var rest := Remove(pop, i);
      RemoveFromDistinct(pop, i);
      PicksOfDistinctAreDistinct(rest, n - 1, draws, step + 1);
      var later := Picks(rest, n - 1, draws, step + 1);
      AbsentFromSubMultiset(pop[i], later, rest);
      ConsDistinct(pop[i], later);
    }
  }

  /** `random.choices(population, k=k)`: `k` picks with replacement, none
      when `k` is not positive. Asking for a positive number of picks from
      an empty population fails. */
  function Choices<T>(pop: seq<T>, k: int, draws: nat -> nat): (r: Result<seq<T>>)
    ensures r.Ok? <==> |pop| > 0 || k <= 0
    ensures r.Err? ==> r.error == ChoiceFromEmpty
    ensures r.Ok? ==> |r.value| == (if k < 0 then 0 else k)
    ensures r.Ok? ==> forall i :: 0 <= i < |r.value| ==> r.value[i] in pop
  {
    if k <= 0 then Ok([])
    else if |pop| == 0 then Err(ChoiceFromEmpty)
    else Ok(seq(k, i requires 0 <= i < k => pop[draws(i) % |pop|]))
  }

  /** Each pick of `random.choices` is a `random.choice` of its own, so
      the same blueprint may be picked for several vehicles. */
  lemma ChoicesAreIndependentChoices<T>(pop: seq<T>, k: int, draws: nat -> nat)
    requires |pop| > 0
    ensures forall i :: 0 <= i < |Choices(pop, k, draws).value| ==>
      Simulator.Choice(pop, draws(i)) == Ok(Choices(pop, k, draws).value[i])
  {
  }

  /** The spawn point with `location.z = 0.65`. */
  function Lowered(l: Simulator.Location): (r: Simulator.Location)
    ensures r.x == l.x && r.y == l.y && r.z == 0.65
  {
    Simulator.Location(l.x, l.y, 0.65)
  }

  /** What `try_spawn_actor` answers for each (blueprint, point) pair of
      the `zip`, the point lowered to `z = 0.65`. */
  function Attempts(bps: seq<Simulator.Blueprint>, points: seq<Simulator.Location>,
                    trySpawn: (Simulator.Blueprint, Simulator.Location) -> Option<int>): (a: seq<Option<int>>)
    ensures |a| == Min(|bps|, |points|)
    ensures forall j :: 0 <= j < |a| ==> a[j] == trySpawn(bps[j], Lowered(points[j]))
  {
    seq(Min(|bps|, |points|), j requires 0 <= j < Min(|bps|, |points|) => trySpawn(bps[j], Lowered(points[j])))
  }

  /** The positions of the answers that are actors, in increasing order. */
  function Successes(a: seq<Option<int>>): (idx: seq<nat>)
    ensures |idx| <= |a|
    ensures forall i :: 0 <= i < |idx| ==> idx[i] < |a| && a[idx[i]].Some?
    ensures forall i, i' :: 0 <= i < i' < |idx| ==> idx[i] < idx[i']
    ensures forall j :: 0 <= j < |a| && a[j].Some? ==> j in idx
  {
    if |a| == 0 then []
    else Successes(a[..|a| - 1]) + (if a[|a| - 1].Some? then [|a| - 1] else [])
  }

  /** The actors among the answers, in order: the i-th is the answer at
      the i-th successful position. */
  function Spawned(a: seq<Option<int>>): (r: seq<int>)
    ensures |r| == |Successes(a)|
    ensures forall i :: 0 <= i < |r| ==> a[Successes(a)[i]] == Some(r[i])
    ensures (forall j :: 0 <= j < |a| ==> a[j].Some?) ==> |r| == |a|
    ensures (forall j :: 0 <= j < |a| ==> a[j].None?) ==> r == []
  {
    if |a| == 0 then []
    else
      var before := Spawned(a[..|a| - 1]);
      match a[|a| - 1]
      case Some(id) => before + [id]
      case None => before
  }

  /** The `zip` loop: try each blueprint at its spawn point, lowered to
      `z = 0.65`, and keep the actors that spawned, in the order of the
      pairs. Each success gives exactly one actor and failures give none
      (`Spawned`). */
  function SpawnAll(bps: seq<Simulator.Blueprint>, points: seq<Simulator.Location>,
                    trySpawn: (Simulator.Blueprint, Simulator.Location) -> Option<int>): (r: seq<int>)
    ensures |r| <= Min(|bps|, |points|)
    ensures |r| == |Successes(Attempts(bps, points, trySpawn))|
    ensures forall i :: 0 <= i < |r| ==>
      var j := Successes(Attempts(bps, points, trySpawn))[i];
      j < Min(|bps|, |points|) && trySpawn(bps[j], Lowered(points[j])) == Some(r[i])
    ensures (forall j :: 0 <= j < Min(|bps|, |points|) ==> trySpawn(bps[j], Lowered(points[j])).Some?)
      ==> |r| == Min(|bps|, |points|)
    ensures (forall j :: 0 <= j < Min(|bps|, |points|) ==> trySpawn(bps[j], Lowered(points[j])).None?)
      ==> r == []
  {
    Spawned(Attempts(bps, points, trySpawn))
  }

  /** An id is among the actors kept exactly when some answer is that id. */
  lemma SpawnedAreExactlySomes(a: seq<Option<int>>, id: int)
    ensures id in Spawned(a) <==> Some(id) in a
  {
    var r, idx := Spawned(a), Successes(a);
    if id in r {
      var i :| 0 <= i < |r| && r[i] == id;
      assert a[idx[i]] == Some(id);
    }
    if Some(id) in a {
      var j :| 0 <= j < |a| && a[j] == Some(id);
      var i :| 0 <= i < |idx| && idx[i] == j;
      assert r[i] == id;
    }
  }

  /** An actor id is in the spawned list exactly when some pair's spawn
      returned it. */
  lemma SpawnedAreExactlySuccesses(bps: seq<Simulator.Blueprint>, points: seq<Simulator.Location>,
                                   trySpawn: (Simulator.Blueprint, Simulator.Location) -> Option<int>, id: int)
    ensures id in SpawnAll(bps, points, trySpawn) <==>
      exists j :: 0 <= j < Min(|bps|, |points|) && trySpawn(bps[j], Lowered(points[j])) == Some(id)
  {
    var a := Attempts(bps, points, trySpawn);
    SpawnedAreExactlySomes(a, id);
    if Some(id) in a {
      var j :| 0 <= j < |a| && a[j] == Some(id);
      assert trySpawn(bps[j], Lowered(points[j])) == Some(id);
    }
  }

  /** The vehicle placement of `main`: the ego spawn point is drawn from
      the map's spawn points. Then `nvehicles` distinct candidates and
      `nvehicles` blueprints are drawn, and each pair is tried. It fails
      when there are no spawn points, when there are too few candidates,
      or when vehicles are asked for from an empty blueprint library.
      Otherwise it holds at most `nvehicles` actors, all of which did
      spawn. */
  function SpawnOtherVehicles(spawnPoints: seq<Simulator.Location>, egoDraw: nat,
                              waypoints: seq<Simulator.Location>, range: real,
                              distance: (Simulator.Location, Simulator.Location) -> real,
                              nvehicles: int, library: seq<Simulator.Blueprint>,
                              sampleDraws: nat -> nat, choiceDraws: nat -> nat,
                              trySpawn: (Simulator.Blueprint, Simulator.Location) -> Option<int>): (r: Result<seq<int>>)
    ensures |spawnPoints| == 0 ==> r == Err(ChoiceFromEmpty)
    ensures r.Ok? <==> (|spawnPoints| > 0
      && 0 <= nvehicles <= |SpawnCandidates(waypoints, spawnPoints[egoDraw % |spawnPoints|], range, distance)|
      && (nvehicles == 0 || |library| > 0))
    ensures |spawnPoints| > 0
      && !(0 <= nvehicles <= |SpawnCandidates(waypoints, spawnPoints[egoDraw % |spawnPoints|], range, distance)|)
      ==> r == Err(SampleLargerThanPopulation)
    ensures r.Ok? ==> |r.value| <= nvehicles
  {
    var ego :- Simulator.Choice(spawnPoints, egoDraw);
    var candidates := SpawnCandidates(waypoints, ego, range, distance);
    var points :- Sample(candidates, nvehicles, sampleDraws);
    var bps :- Choices(library, nvehicles, choiceDraws);
    Ok(SpawnAll(bps, points, trySpawn))
  }

  /** Every actor the placement returns was spawned from a blueprint of
      the library at one of the candidate waypoints around the ego spawn
      point, lowered to `z = 0.65`. */
  lemma PlacedVehiclesComeFromCandidates(spawnPoints: seq<Simulator.Location>, egoDraw: nat,
                                         waypoints: seq<Simulator.Location>, range: real,
                                         distance: (Simulator.Location, Simulator.Location) -> real,
                                         nvehicles: int, library: seq<Simulator.Blueprint>,
                                         sampleDraws: nat -> nat, choiceDraws: nat -> nat,
                                         trySpawn: (Simulator.Blueprint, Simulator.Location) -> Option<int>, id: int)
    ensures var r := SpawnOtherVehicles(spawnPoints, egoDraw, waypoints, range, distance, nvehicles, library,
                                        sampleDraws, choiceDraws, trySpawn);
      r.Ok? && id in r.value ==>
        exists b, p :: (b in library && p in SpawnCandidates(waypoints, spawnPoints[egoDraw % |spawnPoints|], range, distance)
                        && trySpawn(b, Lowered(p)) == Some(id))
  {
    var r := SpawnOtherVehicles(spawnPoints, egoDraw, waypoints, range, distance, nvehicles, library,
                                sampleDraws, choiceDraws, trySpawn);
    if r.Ok? && id in r.value {
      var candidates := SpawnCandidates(waypoints, spawnPoints[egoDraw % |spawnPoints|], range, distance);
      var points := Sample(candidates, nvehicles, sampleDraws).value;
      var bps := Choices(library, nvehicles, choiceDraws).value;
      SpawnedAreExactlySuccesses(bps, points, trySpawn, id);
      var j :| 0 <= j < Min(|bps|, |points|) && trySpawn(bps[j], Lowered(points[j])) == Some(id);
      assert points[j] in candidates by {
        assert multiset(points)[points[j]] > 0;
      }
      assert bps[j] in library;
    }
  }
}
