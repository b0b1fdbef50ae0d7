/**
 The sensor queue shared by the capture scripts. Each vehicle's lidar
 callback decodes its measurement and puts one item on a class-wide FIFO
 queue. Once per simulation tick the main loop takes at most one item per
 registered vehicle, waiting a few seconds for each.

 The queue is the sequence of items in arrival order. Thread timing is
 reduced to which callbacks ran before the consumer's wait ended. An item
 that arrives during the wait is counted as already queued. A `get` times
 out exactly when the queue is empty.
 */
module Sensor {
  import opened Outcome
  import opened Linear
  import opened Clouds
  import Seqs

  /** A sensor's `carla.Transform`, reduced to the two matrices the scripts
      read from it (`get_matrix()` and `get_inverse_matrix()`). */
  datatype SensorTransform = SensorTransform(matrix: Mat4, inverseMatrix: Mat4)

  /** A lidar measurement as the simulator hands it to the callback: its
      frame number, the values of its raw float buffer, and the sensor's
      transform at capture time. */
  datatype LidarMeasurement = LidarMeasurement(frame: int, rawData: seq<real>, transform: SensorTransform)

  /** The tuple `(data.frame, self.id, point_cloud, data.transform)`. */
  datatype QueueItem = QueueItem(frame: int, vehicleId: int, cloud: Cloud, transform: SensorTransform)

  /** Every queued cloud has the four columns of a decoded buffer. */
  predicate WellFormedQueue(queue: seq<QueueItem>)
  {
    forall i :: 0 <= i < |queue| ==> queue[i].cloud.width == 4 && Rectangular(queue[i].cloud)
  }

  /** `Vehicle.lidar_callback`. The buffer is reshaped into rows of four,
      and the item goes to the back of the queue. A buffer whose length is
      not a multiple of four fails in the reshape, and nothing is queued. */
  function LidarCallback(queue: seq<QueueItem>, vehicleId: int, data: LidarMeasurement): (r: Result<seq<QueueItem>>)
    ensures r.Ok? <==> |data.rawData| % 4 == 0
    ensures r.Err? ==> r.error == ReshapeSizeMismatch
    ensures r.Ok? ==> |r.value| == |queue| + 1 && r.value[..|queue|] == queue
    ensures r.Ok? ==> var item := r.value[|queue|];
      item.frame == data.frame && item.vehicleId == vehicleId && item.transform == data.transform
      && item.cloud.width == 4 && Flatten(item.cloud.rows) == data.rawData
    ensures r.Ok? && WellFormedQueue(queue) ==> WellFormedQueue(r.value)
  {
    var cloud :- Decode(data.rawData);
    FlattenDecode(data.rawData);
    Ok(queue + [QueueItem(data.frame, vehicleId, cloud, data.transform)])
  }

  /** What one tick's drain leaves: the items taken in order, the items left
      for later ticks, and whether a `get` timed out. */
  datatype Drained = Drained(taken: seq<QueueItem>, rest: seq<QueueItem>, timedOut: bool)

  /** `for _ in range(count): s = sensorQueue.get(True, 5)`, stopped by the
      first timeout. It takes items by count only. Their frame numbers are
      never compared with the tick's, so a backlog from an earlier tick is
      taken as if it were current. */
  function Drain(queue: seq<QueueItem>, count: nat): (d: Drained)
    ensures d.taken + d.rest == queue
    ensures |d.taken| == Seqs.Min(count, |queue|)
    ensures d.timedOut <==> |queue| < count
  {
    if |queue| < count then Drained(queue, [], true) else Drained(queue[..count], queue[count..], false)
  }

  /** The drain as the loop runs it: one `get` at a time, leaving the loop
      at the first empty queue. */
  method DrainQueue(queue: seq<QueueItem>, count: nat) returns (taken: seq<QueueItem>, rest: seq<QueueItem>, timedOut: bool)
    ensures taken + rest == queue
    ensures |taken| == Seqs.Min(count, |queue|)
    ensures timedOut <==> |queue| < count
    ensures Drained(taken, rest, timedOut) == Drain(queue, count)
  {
    taken, rest, timedOut := [], queue, false;
    var i := 0;
    while i < count && !timedOut
      invariant i <= count
      invariant taken + rest == queue
      invariant |taken| == i
      invariant timedOut ==> rest == [] && i < count
      decreases count - i, if timedOut then 0 else 1
    {
      if |rest| == 0 {
        timedOut := true;
      } else {
        taken, rest := taken + [rest[0]], rest[1..];
        i := i + 1;
      }
    }
  }

  /** Taking items off a well-formed queue leaves both parts well-formed. */
  lemma DrainKeepsWellFormed(queue: seq<QueueItem>, count: nat)
    requires WellFormedQueue(queue)
    ensures WellFormedQueue(Drain(queue, count).taken) && WellFormedQueue(Drain(queue, count).rest)
  {
    var d := Drain(queue, count);
    forall i | 0 <= i < |d.taken|
      ensures d.taken[i] == queue[i]
    {
      assert (d.taken + d.rest)[i] == d.taken[i];
    }
    forall i | 0 <= i < |d.rest|
      ensures d.rest[i] == queue[|d.taken| + i]
    {
      assert (d.taken + d.rest)[|d.taken| + i] == d.rest[i];
    }
  }

  /** Delivering a run of measurements, one callback after another, from
      the given vehicles in order. A malformed buffer is skipped, as an
      exception in a callback leaves the queue as it was. */
  function Deliver(queue: seq<QueueItem>, arrivals: seq<(int, LidarMeasurement)>): (r: seq<QueueItem>)
    ensures WellFormedQueue(queue) ==> WellFormedQueue(r)
    ensures |queue| <= |r| <= |queue| + |arrivals|
  {
    if |arrivals| == 0 then queue
    else
      var last := arrivals[|arrivals| - 1];
      var before := Deliver(queue, arrivals[..|arrivals| - 1]);
      match LidarCallback(before, last.0, last.1)
      case Ok(after) => after
      case Err(_) => before
  }

  /** When every vehicle's measurement arrives before the wait ends and is
      well formed, a drain for that many vehicles takes them all, in
      arrival order, and does not time out. One vehicle short, it times out
      with exactly the delivered items taken. */
  lemma {:induction false} DeliveredItemsAreTaken(arrivals: seq<(int, LidarMeasurement)>)
    requires forall i :: 0 <= i < |arrivals| ==> |arrivals[i].1.rawData| % 4 == 0
    ensures |Deliver([], arrivals)| == |arrivals|
    ensures var d := Drain(Deliver([], arrivals), |arrivals|);
      !d.timedOut && |d.taken| == |arrivals| && d.rest == []
    ensures var d := Drain(Deliver([], arrivals), |arrivals| + 1);
      d.timedOut && |d.taken| == |arrivals|
    ensures forall i :: 0 <= i < |arrivals| ==>
      Deliver([], arrivals)[i].vehicleId == arrivals[i].0 && Deliver([], arrivals)[i].frame == arrivals[i].1.frame
  {
    if |arrivals| > 0 {
      var init := arrivals[..|arrivals| - 1];
      DeliveredItemsAreTaken(init);
      var before := Deliver([], init);
      var last := arrivals[|arrivals| - 1];
      assert LidarCallback(before, last.0, last.1).Ok?;
      var after := Deliver([], arrivals);
      assert after == LidarCallback(before, last.0, last.1).value;
      forall i | 0 <= i < |arrivals|
        ensures after[i].vehicleId == arrivals[i].0 && after[i].frame == arrivals[i].1.frame
      {
        if i < |init| {
          assert after[i] == after[..|init|][i] == before[i];
          assert init[i] == arrivals[i];
        }
      }
    }
  }
}
