# CODD lidar capture and fusion, modelled in Dafny

CODD captures lidar data in the CARLA simulator. Several vehicles each carry a
lidar, and their point clouds are fused into one cloud in the world frame. This project models the pure
point-cloud core under the simulator glue. It proves properties of that model:

- **Transform and fusion (vis.py).** `getTransform` builds a 4x4 matrix from a
  pose. `transformPoints` applies it to N x 3 or N x 4 points and carries the
  intensity column through. The `anim` loop fuses one frame's clouds.
  `updateBoundingBox` builds a box's eight corners and draws them as a 16-point
  polyline. Modules `Vis` and `Wireframe`, over `Linear` (4x4 matrices,
  determinant, adjugate inverse, with the cofactor identities in `Laplace`),
  `Rotation` (the rotation block is orthonormal, so pose matrices move clouds
  rigidly) and `Clouds` (numpy arrays as a width and rows).
- **Sensor decoding and the tick queue.** `lidar_callback` in
  genSnippetVis.py and genSnippet.py reshapes a flat buffer into rows of
  (x, y, z, intensity) and enqueues it. The main loop drains at most one
  item per vehicle per tick. Module `Sensor`.
- **Live fusion (genSnippetVis.py).** `transformPts`, the drain-transform-
  concatenate tick of `carlaEventLoop`, the blueprint filter and the spawn-point
  filter. Module `GenSnippetVis`.
- **Capture without a viewer (genSnippet.py).** Its drain loop. The
  timeout handler of that loop cannot run (see Findings). Module `GenSnippet`.
- **Single-car viewer (interactive_lidar.py).** The callback that splits a
  measurement into points and intensities, and the placement of the other
  vehicles. Module `InteractiveLidar`.

Floats are exact `real`s. cos and sin are opaque functions passed in a `Trig`
value. Randomness is a draw parameter. `try_spawn_actor` and
`Location.distance` are abstract function parameters. Exceptions become `Err`
values of `Outcome.Result`, one `Error` constructor per cause. The in-place
overwrite `pts[:,-1] = 1` appears in two forms. The `Transformed` record
returns both the result and the caller's array as the call leaves it.
`SplitIntensityInPlace` is the same overwrite on a Dafny array.

Three behaviours of the code are easy to miss:

- Every pose matrix is singular, because the bottom row of `getTransform` is
  all zeros (vis.py:19). So `inverse=True` raises on a pose matrix.
  `Vis.PoseTransformHasNoInverse` proves this. The inverse round trip holds
  for affine invertible matrices instead (`Vis.AffineRoundTrip`,
  `GenSnippetVis.TransformPtsRoundTrip`).
- An empty batch does not fuse into an empty frame. `np.concatenate([])`
  raises (vis.py:96, genSnippetVis.py:102).
- A `get` timeout in genSnippet.py raises NameError instead of being logged
  (see Findings).

## Model

| member | source | states |
|---|---|---|
| Clouds.Decode | genSnippetVis.py:64-65 | The reshape succeeds exactly when the buffer length is a multiple of 4; row k holds elements 4k..4k+3; otherwise ReshapeSizeMismatch |
| Clouds.FlattenDecode | genSnippetVis.py:64-65 | Flattening a decoded buffer gives the buffer back |
| Clouds.DecodeFlatten | genSnippetVis.py:64-65 | Decoding a flattened 4-column cloud gives the cloud back |
| Clouds.SetLastColumnToOne | vis.py:30 | `pts[:,-1] = 1` sets the last entry of every row to 1 and leaves the other entries and the shape alone |
| Clouds.AppendOnes | vis.py:34 | Appending a ones column adds one column and keeps the row count; row k is the old row k followed by 1 |
| Clouds.MatMulTransposed | vis.py:40 | `pts @ mat.T` needs exactly 4 columns (else MatmulShapeMismatch) and keeps the row count; entry i of row k is the dot product of row i of the matrix with row k of the points |
| Clouds.TakeColumns | vis.py:41 | `ptst[:,:n]` has n columns and the same row count; entry (k, j) is the old entry (k, j) for every j < n |
| Clouds.AppendColumn | vis.py:45 | Re-attaching the intensity column adds one column and keeps the row count; row k is the old row k followed by `col[k]` |
| Clouds.Concatenate | vis.py:96 | `np.concatenate(axis=0)` fails on an empty list (NothingToConcatenate) and on mixed widths; otherwise its row count is the sum of the parts' |
| Clouds.ConcatRowAt | vis.py:96 | Row k of part i is row `TotalRows(parts[..i]) + k` of the concatenation |
| Clouds.ConcatRowsFrom | vis.py:96 | Every row of the concatenation is a row of some part |
| Linear.Invert | vis.py:38-39 | `np.linalg.inv` fails exactly when the determinant is zero, and otherwise returns a left inverse |
| Linear.AdjugateTimes | vis.py:39 | The adjugate times the matrix is the determinant times the identity |
| Linear.ApplyMul | vis.py:40 | Applying two matrices in turn is applying their product |
| Wireframe.BoxEdgesAreAdjacency | vis.py:51 | The twelve listed edges are exactly the corner pairs whose signs differ in one axis |
| Wireframe.TwelveEdges | vis.py:51 | The box has twelve edges |
| Wireframe.WireframeVisitsEveryCorner | vis.py:56 | The index list has 16 entries, all below 8, and names every corner |
| Wireframe.WireframeStepsAreEdges | vis.py:56 | Every consecutive pair of the index list is a box edge, never a face or space diagonal |
| Wireframe.WireframeCoversEveryEdge | vis.py:56 | Every one of the twelve edges is drawn by some step |
| Wireframe.WireframeRepeats | vis.py:56 | The 15 steps draw exactly the twelve edges, and three vertical edges twice |
| Vis.GetTransform | vis.py:6-21 | The matrix has the location in its last column and an all-zero bottom row |
| Vis.ZeroBottomRowIsSingular | vis.py:19 | A zero bottom row makes the determinant zero, so inversion fails with SingularMatrix |
| Vis.ZeroAnglesOnlyTranslate | vis.py:9-19 | With all angles zero the matrix is the identity rotation plus the translation |
| Vis.HalfTurnYaw | vis.py:9-19 | A yaw of 180 degrees alone turns x and y around and keeps z |
| Vis.TransformPoints | vis.py:23-47 | Only 3 or 4 columns pass the product; the inverse fails on a singular matrix; width and row count are kept; row k's xyz is the first three components of M·(x,y,z,1); the intensity column comes back unchanged; the caller's 4-column array gets ones in its last column, a 3-column array is untouched |
| Vis.PoseTransformHasNoInverse | vis.py:38-40 | Applying any pose matrix with `inverse=True` raises SingularMatrix, whatever the points |
| Vis.ZeroAnglesAddLocation | vis.py:37-41 | At zero angles every point (3 or 4 columns) is moved by exactly the pose's location |
| Rotation.RotationKeepsLength | vis.py:12-18 | When cos² + sin² = 1 for pitch, yaw and roll, the 3x3 rotation block built from them turns every vector into one of the same length |
| Vis.PoseMovesRigidly | vis.py:6-21 | When the cosine and sine supplied satisfy cos² + sin² = 1, the pose matrix moves any two points so that their distance is unchanged: a cloud keeps its shape when moved into the world frame |
| Vis.RotationBlockKeepsDistance | vis.py:40-41 | When a matrix's rotation block keeps the length of the difference of two points, the transformed points are as far apart as the originals (the translation column cancels) |
| Vis.AffineRoundTrip | vis.py:37-45 | For an invertible matrix with bottom row 0,0,0,1, transforming and then inverse-transforming gives the points back |
| Vis.BoxCorners | vis.py:51-52 | The eight corners have x in ±w/2 and y in ±l/2; z is 0 for corners 0-3 and h for 4-7 |
| Vis.CornersOfAnEdge | vis.py:51-52 | For a non-degenerate box, two corners differ in exactly one coordinate exactly when they share an edge |
| Vis.GlobalCorners | vis.py:53 | Each corner is moved by the box's pose matrix |
| Vis.BoxRecordPose | vis.py:53 | A box record (x,y,z,yaw,pitch,…) gets the pose (x,y,z,pitch,yaw,0): yaw and pitch swapped into `getTransform`'s order, roll 0 |
| Vis.UpdateBoundingBox | vis.py:49-59 | The 16 polyline points are the global corners picked by the index list |
| Vis.BoundingBoxTracesEveryEdge | vis.py:56-59 | For every box edge some step of the drawn line joins its two global corners |
| Vis.BoundingBoxStepsFollowEdges | vis.py:56-59 | Every step of the drawn line joins the two ends of a box edge |
| Vis.GlobalClouds | vis.py:87-90 | Each vehicle's cloud keeps its width 4 and its row count in the world frame |
| Vis.GlobalRowAt | vis.py:87-89 | Row k of vehicle i in the world frame is its point moved by that vehicle's pose matrix, with its intensity |
| Vis.FuseFrame | vis.py:84-96 | A frame fuses exactly when there is a vehicle; the fused cloud has 4 columns and the sum of the per-vehicle row counts |
| Vis.FusedRowAt | vis.py:84-96 | Row k of vehicle i sits after the rows of the vehicles before it, moved by its pose matrix |
| Vis.RenderFrame | vis.py:80-98 | A frame shows the fused cloud, scalars equal to its 4th column, and one wireframe per box record |
| Vis.ScalarsAreIntensities | vis.py:97 | Each displayed scalar is the intensity its own vehicle measured for that point |
| Vis.FuseTwoSinglePoints | vis.py:84-96 | Two one-point clouds fuse into their two moved points, in vehicle order |
| Vis.TwoVehicleScenario | vis.py:84-96 | A vehicle at zero angles and one turned by 180 degrees of yaw fuse into the two expected world points with their intensities |
| Sensor.LidarCallback | genSnippetVis.py:63-66 | A buffer whose length is not a multiple of 4 raises and enqueues nothing; otherwise exactly (frame, vehicle id, decoded cloud, transform) is appended and the queue before it is kept |
| Sensor.Deliver | genSnippet.py:55-58 | A run of callbacks keeps the queue well formed and adds at most one item per measurement |
| Sensor.DeliveredItemsAreTaken | genSnippet.py:92-93 | One well-formed measurement per vehicle is drained completely, in arrival order, without a timeout; one vehicle more times out |
| Sensor.Drain | genSnippetVis.py:93-94 | The drain takes min(count, queued) items from the front, leaves the rest, and times out exactly when fewer than count are queued |
| Sensor.DrainQueue | genSnippetVis.py:93-94 | The one-get-at-a-time loop computes the same drain |
| Sensor.DrainKeepsWellFormed | genSnippetVis.py:93-94 | Taken and remaining items are still well formed |
| GenSnippetVis.TransformPts | genSnippetVis.py:72-84 | No columns raises ColumnIndexOutOfRange; only 4 columns pass the product; rows are kept; xyz is the forward or inverse matrix applied to (x,y,z,1); column 4 keeps the input's; the caller's last column becomes ones |
| GenSnippetVis.SplitIntensityInPlace | genSnippetVis.py:74-75 | On an array, the copied column is the input's last column and the array afterwards is the input with its last column set to ones |
| GenSnippetVis.TransformPtsAgreesWithViewer | genSnippetVis.py:72-84 | On 4-column clouds the live transform and the viewer's transform give the same result and leave the same array |
| GenSnippetVis.TransformPtsRoundTrip | genSnippetVis.py:78-83 | With an inverse matrix that undoes an affine matrix, transforming forward and back gives the cloud back |
| GenSnippetVis.TransformBatch | genSnippetVis.py:95-98 | Every taken cloud is transformed by its own sensor matrix; the batch fails exactly when some cloud is not 4 columns wide |
| GenSnippetVis.FuseBatch | genSnippetVis.py:102-105 | An empty batch raises NothingToConcatenate; otherwise the fused cloud has the summed row count and the log reports the last item's frame |
| GenSnippetVis.EventLoopTick | genSnippetVis.py:91-105 | A tick drains at most one item per vehicle; a timeout keeps what was taken; it fuses exactly when something was taken |
| GenSnippetVis.FusedTickRowAt | genSnippetVis.py:97-102 | Row k of the i-th taken item sits after the rows of the items before it, moved by its sensor matrix, with its intensity |
| GenSnippetVis.EligibleBlueprintsIsOneFilter | genSnippetVis.py:43-48 | The five comprehensions keep exactly the blueprints with 4 wheels whose id ends in none of the four excluded names, in library order |
| Simulator.Choice | genSnippetVis.py:49 | `random.choice` fails on an empty list and otherwise returns a member |
| GenSnippetVis.GetRandomBlueprint | genSnippetVis.py:42-49 | The chosen blueprint has four wheels and is none of the excluded models; it fails exactly when no blueprint is eligible |
| GenSnippetVis.EveryEligibleBlueprintCanBeChosen | genSnippetVis.py:42-49 | Every eligible blueprint is returned by some draw |
| GenSnippetVis.NearbySpawnPoints | genSnippetVis.py:125-127 | The kept spawn points are exactly those strictly within range/2 of the randomly chosen anchor; no spawn points raises |
| Seqs.Filter | genSnippetVis.py:44-48 | A comprehension keeps only elements that pass and keeps every one that does. It keeps each passing value as often as it occurs and drops every other value. What it keeps is a subsequence of the input, so the order is kept |
| Seqs.FilterFilter | genSnippetVis.py:44-48 | Two chained comprehensions are one comprehension by the conjunction |
| GenSnippet.Tick | genSnippet.py:91-97 | The tick drains at most one item per vehicle; `s` becomes the last item taken or keeps the previous tick's; a timeout raises NameError as written; an unassigned `s` raises UnboundLocalError |
| GenSnippet.TimeoutCrashes | genSnippet.py:91-95 | One vehicle and an empty queue: the script as written raises NameError where the corrected import logs the gap |
| GenSnippet.TimeoutIsLogged | genSnippet.py:94-97 | With `Empty` imported a timeout is logged, and the last frame taken (or the previous tick's) is reported |
| GenSnippet.ImportMattersOnlyOnTimeout | genSnippet.py:91-97 | The script as written and the corrected one agree exactly on the ticks without a timeout |
| GenSnippet.LoggedFrameIsLastDequeued | genSnippet.py:92-97 | After a full drain the logged frame is that of the last item dequeued |
| GenSnippet.Run | genSnippet.py:87-98 | A run of ticks that completes logs one line per tick |
| GenSnippet.SteadyRun | genSnippet.py:87-98 | When each tick brings one well-formed measurement per vehicle, every tick logs its own last arrival and never times out |
| InteractiveLidar.Split | interactive_lidar.py:16-20 | A buffer not a multiple of 4 long raises; otherwise `pts` row k is elements 4k..4k+2 and `intensity` k is element 4k+3, with equal lengths |
| InteractiveLidar.Receive | interactive_lidar.py:16-20 | A failed callback leaves the buffer as it was; a successful one keeps it consistent |
| InteractiveLidar.SplitRoundTrip | interactive_lidar.py:17-20 | Rejoining points and intensities and flattening gives the raw buffer back |
| InteractiveLidar.SplitOfRejoin | interactive_lidar.py:17-20 | Any consistent buffer is the split of its own flattened rows |
| InteractiveLidar.ReceiveAll | interactive_lidar.py:88-90 | Any run of callbacks keeps a consistent buffer consistent |
| InteractiveLidar.AlwaysConsistent | interactive_lidar.py:88-90 | The initial buffer, and the buffer after every completed callback, have one intensity per 3-coordinate point |
| InteractiveLidar.LastGoodMeasurementWins | interactive_lidar.py:19-20 | After a run of callbacks the buffer holds exactly the last well-formed measurement |
| InteractiveLidar.SpawnCandidates | interactive_lidar.py:69-71 | The candidates are exactly the waypoints strictly between 3 and `range` from the ego spawn point |
| InteractiveLidar.SpawnCandidatesIsOneFilter | interactive_lidar.py:70-71 | The two comprehensions are one filter by the annulus, in waypoint order |
| InteractiveLidar.Remove | interactive_lidar.py:72 | Taking out one element removes exactly that element from the multiset |
| InteractiveLidar.Picks | interactive_lidar.py:72 | n draws without replacement give n elements forming a sub-multiset of the population |
| InteractiveLidar.Sample | interactive_lidar.py:72 | `random.sample` fails exactly when k is negative or exceeds the population; otherwise k elements without replacement |
| InteractiveLidar.PicksOfDistinctAreDistinct | interactive_lidar.py:72 | Sampling distinct candidates never picks one twice |
| InteractiveLidar.Choices | interactive_lidar.py:74 | `random.choices` gives max(k,0) members of the population and fails only for positive k on an empty one |
| InteractiveLidar.ChoicesAreIndependentChoices | interactive_lidar.py:74 | Each pick of `random.choices` is a `random.choice` of its own |
| InteractiveLidar.Attempts | interactive_lidar.py:76-79 | One answer of `try_spawn_actor` per pair of the `zip` (as many as the shorter list), each for the point lowered to z = 0.65 |
| InteractiveLidar.Successes | interactive_lidar.py:80 | The positions of the answers that are actors, strictly increasing, covering every such position and no other |
| InteractiveLidar.Spawned | interactive_lidar.py:80-82 | The actors kept are the actors among the answers, one per success, in order: the i-th is the answer at the i-th successful position; all succeed gives all, none gives none |
| InteractiveLidar.SpawnAll | interactive_lidar.py:76-82 | The spawned list holds, in pair order, exactly one actor per pair whose spawn at the point lowered to z = 0.65 succeeded; all succeed gives all, none gives none |
| InteractiveLidar.SpawnedAreExactlySomes | interactive_lidar.py:80-82 | An id is among the actors kept exactly when some answer is that actor |
| InteractiveLidar.SpawnedAreExactlySuccesses | interactive_lidar.py:76-82 | An actor is in the spawned list exactly when some pair's spawn returned it |
| InteractiveLidar.SpawnOtherVehicles | interactive_lidar.py:47-83 | Placement fails with no spawn points, with too few candidates, or with vehicles asked of an empty library; otherwise at most `nvehicles` actors |
| InteractiveLidar.PlacedVehiclesComeFromCandidates | interactive_lidar.py:70-82 | Every actor placed was spawned from a library blueprint at one of the candidate waypoints (closer than `range` to the ego spawn point and farther than 3), lowered to z = 0.65 |

## Left out

- CARLA client, world, settings, traffic manager, actor spawning and `destroy`: calls into the simulator. Spawning appears only as the abstract `trySpawn`.
- Threads, `Queue.get(True, 5)` timing and the daemon event-loop threads: the queue is a sequence, and a `get` times out exactly when it is empty.
- Mayavi figures, `mlab.animate`, `mlab_source.reset`/`set`: rendering. `Vis.RenderFrame` states what one frame would hand to the renderer.
- Float arithmetic: the f4 byte decoding, the `np.half` cast (genSnippetVis.py:95), rounding in `np.linalg.inv` and the trigonometric values. The model uses exact reals and opaque cos/sin.
- Linear.Invert: returns the exact adjugate inverse whenever the determinant is non-zero, so nearly singular matrices are not modelled.
- The lidar mount height (genSnippetVis.py:37), blueprint attributes and lidar settings: constants handed to the simulator.
- HDF5 reading and writing: the playback viewer's `pcls`, `lidar_pose` and `bbs` arrays are parameters of `Vis.FuseFrame` and `Vis.RenderFrame`.
- The frame loop of `anim` is modelled one frame at a time.
- InteractiveLidar.AlwaysConsistent: the shared `buf` is updated without a lock. `lidar_callback` writes `buf['pts']` and `buf['intensity']` one after the other on the sensor thread (interactive_lidar.py:19-20), while `anim` reads both on the viewer thread (interactive_lidar.py:97). A read between the two writes can pair new points with old intensities. Consistency is stated only between completed callbacks.
- genDataset.py, argparse, logging, `time.sleep`: not part of this model.
- The `while` loop that spawns vehicles in genSnippetVis.py (lines 128-130): it calls `try_spawn_actor` again and again at random points until `nvehicles` vehicles are registered, so whether it ends depends on the simulator.
- The `spawn_actor` calls for the ego vehicle and its lidar in interactive_lidar.py (lines 51 and 66): they are made once, without retry, and are taken to succeed; when the point is occupied the simulator raises, and that exception lies outside the model.
- GenSnippetVis.EventLoopTick: drains first and transforms afterwards. When a cloud of the wrong width raises partway through the real loop, the items after it are still queued. The model reports the error but shows the full drain.
- Vis.TwoVehicleScenario: stated for any points and locations, not only for the concrete numbers of one example.
- Sensor.Deliver: states only that the queue stays well formed and grows by at most one item per measurement. Exact contents are stated by Sensor.LidarCallback and Sensor.DeliveredItemsAreTaken.
- Blueprint and spawn-point libraries are taken as given lists; `filter('vehicle')` and `generate_waypoints` are simulator calls.

## Findings

| source | as written | input that shows it | evidently intended | confidence | as-written member | corrected member |
|---|---|---|---|---|---|---|
| genSnippet.py:94 | `except queue.Empty` names a module that is never imported (only `Queue` is imported at line 7), so a `get` timeout raises NameError and ends the capture | one registered vehicle, empty queue, after a tick that logged a frame | `from queue import Queue, Empty` with `except Empty`, as in genSnippetVis.py:7 and 99: the gap is logged and the loop goes on | high; not executed | GenSnippet.TimeoutCrashes | GenSnippet.TimeoutIsLogged |
