/**
 The capture script without a viewer (genSnippet.py). Its vehicles and
 lidar callbacks are those of the live fusion script, and the callback
 feeds the same queue. Each tick the main loop takes one item per
 registered vehicle, throws the clouds away, and logs the sensor frame of
 the last item it took.

 The loop's timeout handler is written `except queue.Empty`, but the
 script binds only `Queue` from the `queue` module, so the name `queue` is
 unbound. Python evaluates the handler's expression only when an exception
 is in flight. So a tick without a timeout runs normally, and a tick with
 one raises NameError instead of logging. `Tick` takes whether `Empty` is
 reachable as a flag: `false` is the script as written, and `true` is the
 evidently intended `from queue import Queue, Empty` that the live fusion
 script uses.
 */
module GenSnippet {
  import opened Outcome
  import opened Sensor
  import Seqs

  /** The log line of a tick that got through: whether a timeout was
      logged as missing sensor data, and the sensor frame reported. */
  datatype TickLog = TickLog(missingLogged: bool, sensorFrame: int)

  /** One pass of the main loop: the drain, the value of `s` afterwards
      (`s` is a local of `main`, so it keeps the last item of an earlier
      tick), and the log line or the exception that ends the loop. */
  datatype SnippetTick = SnippetTick(drained: Drained, last: Option<QueueItem>, logged: Result<TickLog>)

  /** One pass of the main loop after `world.tick()`. `last` is what `s`
      held before the pass. */
  function Tick(queue: seq<QueueItem>, vehicles: nat, last: Option<QueueItem>, emptyImported: bool): (t: SnippetTick)
    ensures t.drained == Drain(queue, vehicles)
    ensures vehicles > 0 && |queue| > 0 ==> t.last == Some(queue[Seqs.Min(vehicles, |queue|) - 1])
    ensures vehicles == 0 || |queue| == 0 ==> t.last == last
    ensures t.logged.Ok? <==> t.last.Some? && (emptyImported || vehicles <= |queue|)
    ensures !emptyImported && |queue| < vehicles ==> t.logged == Err(NameNotDefined)
    ensures (emptyImported || vehicles <= |queue|) && t.last.None? ==> t.logged == Err(UnboundVariable)
    ensures t.logged.Ok? ==> t.logged.value == TickLog(|queue| < vehicles, t.last.value.frame)
  {
    var drained := Drain(queue, vehicles);
    var taken := drained.taken;
    assert forall i :: 0 <= i < |taken| ==> taken[i] == queue[i] by {
      forall i | 0 <= i < |taken|
        ensures taken[i] == queue[i]
      {
        assert (drained.taken + drained.rest)[i] == taken[i];
      }
    }
    var s := if |taken| > 0 then Some(taken[|taken| - 1]) else last;
    var logged :=
      if drained.timedOut && !emptyImported then Err(NameNotDefined)
      else if s.None? then Err(UnboundVariable)
      else Ok(TickLog(drained.timedOut, s.value.frame));
    SnippetTick(drained, s, logged)
  }

  /** As written: one vehicle whose measurement has not arrived, after a
      tick that did log a frame. The `get` times out, and the handler
      raises NameError, where with `Empty` imported the gap is logged and
      the previous frame reported. */
  lemma TimeoutCrashes(previous: QueueItem)
    ensures Tick([], 1, Some(previous), false).logged == Err(NameNotDefined)
    ensures Tick([], 1, Some(previous), true).logged == Ok(TickLog(true, previous.frame))
  {
  }

  /** With `Empty` imported, a timeout is logged and the loop goes on. It
      reports the frame of the last item taken, or of the previous tick's
      last item when nothing arrived. */
  lemma TimeoutIsLogged(queue: seq<QueueItem>, vehicles: nat, last: Option<QueueItem>)
    requires |queue| < vehicles
    requires |queue| > 0 || last.Some?
    ensures Tick(queue, vehicles, last, true).logged.Ok?
    ensures Tick(queue, vehicles, last, true).logged.value.missingLogged
    ensures |queue| > 0 ==> Tick(queue, vehicles, last, true).logged.value.sensorFrame == queue[|queue| - 1].frame
    ensures |queue| == 0 ==> Tick(queue, vehicles, last, true).logged.value.sensorFrame == last.value.frame
  {
  }

  /** The import only matters when a `get` times out: without a timeout the
      script as written and the corrected one do the same. */
  lemma ImportMattersOnlyOnTimeout(queue: seq<QueueItem>, vehicles: nat, last: Option<QueueItem>)
    ensures vehicles <= |queue| <==> Tick(queue, vehicles, last, false) == Tick(queue, vehicles, last, true)
  {
  }

  /** After a full drain, the logged frame is that of the last item taken,
      the `vehicles`-th item in the queue. Clouds are never looked at, so
      any backlog from earlier ticks is counted as this tick's data. */
  lemma LoggedFrameIsLastDequeued(queue: seq<QueueItem>, vehicles: nat, last: Option<QueueItem>, emptyImported: bool)
    requires 0 < vehicles <= |queue|
    ensures Tick(queue, vehicles, last, emptyImported).logged == Ok(TickLog(false, queue[vehicles - 1].frame))
    ensures Tick(queue, vehicles, last, emptyImported).drained.rest == queue[vehicles..]
  {
  }

  /** A run of ticks. Before tick `t` the callbacks in `arrivals[t]` run,
      in order. The run stops at the first tick that raises. */
  function Run(queue: seq<QueueItem>, last: Option<QueueItem>, arrivals: seq<seq<(int, LidarMeasurement)>>,
               vehicles: nat, emptyImported: bool): (r: Result<seq<TickLog>>)
    ensures r.Ok? ==> |r.value| == |arrivals|
    decreases |arrivals|
  {
    if |arrivals| == 0 then Ok([])
    else
      var t := Tick(Deliver(queue, arrivals[0]), vehicles, last, emptyImported);
      var log :- t.logged;
      var more :- Run(t.drained.rest, t.last, arrivals[1..], vehicles, emptyImported);
      Ok([log] + more)
  }

  /** Every measurement is well formed and every tick brings exactly one
      per vehicle. Then the queue is empty again after each tick, no tick
      times out, and each tick logs the frame of its last arrival. This
      holds with or without the broken import. */
  lemma {:induction false} SteadyRun(queue: seq<QueueItem>, last: Option<QueueItem>, arrivals: seq<seq<(int, LidarMeasurement)>>,
                                     vehicles: nat, emptyImported: bool)
    requires vehicles > 0 && queue == []
    requires forall t :: 0 <= t < |arrivals| ==> |arrivals[t]| == vehicles
    requires forall t, i :: 0 <= t < |arrivals| && 0 <= i < |arrivals[t]| ==> |arrivals[t][i].1.rawData| % 4 == 0
    ensures Run(queue, last, arrivals, vehicles, emptyImported).Ok?
    ensures forall t :: 0 <= t < |arrivals| ==>
      Run(queue, last, arrivals, vehicles, emptyImported).value[t] == TickLog(false, arrivals[t][vehicles - 1].1.frame)
    decreases |arrivals|
  {
    if |arrivals| > 0 {
      var a := arrivals[0];
      assert forall i :: 0 <= i < |a| ==> |a[i].1.rawData| % 4 == 0 by {
        forall i | 0 <= i < |a|
          ensures |a[i].1.rawData| % 4 == 0
        {
          assert |arrivals[0][i].1.rawData| % 4 == 0;
        }
      }
      DeliveredItemsAreTaken(a);
      var delivered := Deliver([], a);
      LoggedFrameIsLastDequeued(delivered, vehicles, last, emptyImported);
      var t := Tick(delivered, vehicles, last, emptyImported);
      assert t.drained.rest == [];
      var later := arrivals[1..];
      assert forall u :: 0 <= u < |later| ==> later[u] == arrivals[u + 1];
      SteadyRun([], t.last, later, vehicles, emptyImported);
      var more := Run([], t.last, later, vehicles, emptyImported).value;
      assert Run(queue, last, arrivals, vehicles, emptyImported) == Ok([t.logged.value] + more);
    }
  }
}
