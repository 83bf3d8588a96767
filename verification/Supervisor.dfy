/** The supervisor's mutable fields and the methods that update them; the loop and
    its helpers refine SupervisorSpec. */
module Supervisor {
  import opened Logs
  import opened SupervisorSpec

  class StreamingSupervisor {
    const c: Config

    var device: Option<Device>
    var deviceID: string
    var backoff: int
    var running: bool

    // the effects of the loop on the outside world, and the time of the last one
    var log: Log<Entry>
    var clock: int
    var built: nat

    ghost predicate Valid()
      reads this
    {
      ValidConfig(c) && deviceID == if device.Some? then device.value.id else ""
    }

    ghost function Abs(): State
      reads this
    {
      State(running, device, backoff, clock, built, log)
    }

    /** NewStreamingSupervisor, before Start. */
    constructor (c: Config, now: int)
      requires ValidConfig(c)
      ensures this.c == c && Valid() && Abs() == State(false, None, c.reconnectMin, now, 0, Empty)
    {
      this.c := c;
      device, deviceID, backoff, running := None, "", c.reconnectMin, false;
      log, clock, built := Empty, now, 0;
    }

    /** One call of the device builder, from now to done. */
    method BuildDevice(origin: Origin, now: int, id: string, ok: bool, done: int) returns (d: Option<Device>)
      modifies `log, `clock, `built
      ensures d == if ok then Some(Device(old(built), id)) else None
      ensures built == old(built) + (if ok then 1 else 0) && clock == done
      ensures log == Snoc(Snoc(old(log), BuildBegan(now, origin)), BuildEnded(done, origin, d))
    {
      d := None;
      if ok {
        d := Some(Device(built, id));
        built := built + 1;
      }
      log := Snoc(Snoc(log, BuildBegan(now, origin)), BuildEnded(done, origin, d));
      clock := done;
    }

    method SwapDevice(d: Device)
      modifies `device, `deviceID
      ensures device == Some(d) && deviceID == d.id
    {
      device, deviceID := Some(d), d.id;
    }

    method Teardown(closed: int, cause: Cause)
      modifies `device, `deviceID, `log, `clock
      ensures Abs() == CloseDevice(old(Abs()), closed, cause) && deviceID == ""
    {
      var d := device;
      device, deviceID := None, "";
      if d.Some? {
        log := Snoc(log, Closed(closed, d.value, cause));
      }
      clock := closed;
    }

    method Start(now: int, id: string, ok: bool, done: int)
      requires Valid() && Abs() == State(false, None, c.reconnectMin, now, 0, Empty)
      modifies this
      ensures Valid() && Abs() == Started(c, now, id, ok, done)
    {
      var d := BuildDevice(First, now, id, ok, done);
      if d.Some? {
        SwapDevice(d.value);
      }
      running := true;
    }

    method Answer(at: int, req: nat, outcome: Outcome)
      modifies `log, `clock
      ensures Abs() == Reply(old(Abs()), at, req, outcome)
    {
      log, clock := Snoc(log, RotateReplied(at, req, outcome)), at;
    }

    /** handleRotate: the pre-check, the re-check under the write lock, teardown,
        settle, rebuild. */
    method HandleRotate(e: Event)
      requires Valid() && e.Rotate?
      modifies this
      ensures Valid() && Abs() == OnRotate(old(Abs()), e)
    {
      log, clock := Snoc(log, RotateReceived(e.now, e.req, e.force, e.busyBefore, e.busyLocked)), e.now;
      if !e.force && e.busyBefore {
        Answer(e.now, e.req, SkippedActive);
        return;
      }
      if !e.force && e.busyLocked {
        Answer(e.now, e.req, SkippedActive);
        return;
      }
      if device.None? {
        Answer(e.now, e.req, Unavailable);
        return;
      }
      var torn := device.value;
      device, deviceID := None, "";
      log, clock := Snoc(log, Closed(e.closed, torn, Rotating)), e.closed;
      if e.settle.Interrupted? {
        Answer(e.settle.at, e.req, Unavailable);
        return;
      }
      var d := BuildDevice(Rotation, e.settle.at, e.settle.id, e.settle.ok, e.settle.done);
      if d.None? {
        Answer(e.settle.done, e.req, Unavailable);
        return;
      }
      device, deviceID := d, d.value.id;
      Answer(e.settle.done, e.req, Rotated(d.value.id));
    }

    /** One pass of the for loop. */
    method Iterate(e: Event)
      requires Valid() && Enabled(c, Abs(), e)
      modifies this
      ensures Valid() && Abs() == Step(c, old(Abs()), e)
    {
      match e
      case BackoffFires(now, id, ok, done) =>
        var d := BuildDevice(Reconnect, now, id, ok, done);
        if d.None? {
          backoff := GrowBackoff(backoff, c.reconnectMax);
        } else {
          SwapDevice(d.value);
        }
      case PollFires(now, reading, closed) =>
        var healthy := Healthy(c, reading, now);
        log, clock := Snoc(log, Polled(now, reading, healthy)), now;
        if healthy {
          backoff := c.reconnectMin;
        } else {
          Teardown(closed, Unhealthy);
        }
      case Rotate(_, _, _, _, _, _, _) => HandleRotate(e);
      case Stop(_, closed) =>
        Teardown(closed, Stopping);
        running := false;
    }

    /** The loop, given what the timers and channels deliver. */
    method Loop(script: seq<Event>)
      requires Valid() && Feasible(c, Abs(), script)
      modifies this
      ensures Valid() && Abs() == Run(c, old(Abs()), script)
    {
      var i := 0;
      while i < |script|
        invariant 0 <= i <= |script| && Valid()
        invariant Feasible(c, Abs(), script[i..])
        invariant Run(c, Abs(), script[i..]) == Run(c, old(Abs()), script)
      {
        assert script[i..][1..] == script[i + 1..];
        Iterate(script[i]);
        i := i + 1;
      }
    }
  }
}
