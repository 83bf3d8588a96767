/** What each iteration of the supervisor's loop does, stated on the log and the
    fields. */
module SupervisorLaws {
  import opened Durations
  import opened Logs
  import opened SupervisorSpec

  function StartOf(e: Entry): seq<(int, Origin)> { if e.BuildBegan? then [(e.at, e.origin)] else [] }

  function ResultOf(e: Entry): seq<(int, Origin, Option<Device>)> {
    if e.BuildEnded? then [(e.at, e.origin, e.result)] else []
  }

  function CloseOf(e: Entry): seq<(int, Device, Cause)> { if e.Closed? then [(e.at, e.device, e.cause)] else [] }

  function ReplyOf(e: Entry): seq<(int, nat, Outcome)> { if e.RotateReplied? then [(e.at, e.req, e.outcome)] else [] }

  /** Builds begun and ended, closes, and replies to rotate requests, each in order with
      its time. */
  datatype Trace = Trace(
    starts: seq<(int, Origin)>,
    results: seq<(int, Origin, Option<Device>)>,
    closes: seq<(int, Device, Cause)>,
    replies: seq<(int, nat, Outcome)>)

  const NOTHING := Trace([], [], [], [])

  function TraceOf(log: Log<Entry>): Trace {
    Trace(Pick(StartOf, log), Pick(ResultOf, log), Pick(CloseOf, log), Pick(ReplyOf, log))
  }

  function Plus(a: Trace, b: Trace): Trace {
    Trace(a.starts + b.starts, a.results + b.results, a.closes + b.closes, a.replies + b.replies)
  }

  /** Exactly this was added to the log. */
  predicate Adds(before: Log<Entry>, after: Log<Entry>, added: Trace) { TraceOf(after) == Plus(TraceOf(before), added) }

  function Builds(at: int, done: int, origin: Origin, result: Option<Device>): Trace {
    NOTHING.(starts := [(at, origin)], results := [(done, origin, result)])
  }

  /** The live device, if there is one, is closed. */
  function Closes(s: State, at: int, cause: Cause): Trace {
    NOTHING.(closes := if s.device.Some? then [(at, s.device.value, cause)] else [])
  }

  function Replies(at: int, req: nat, outcome: Outcome): Trace { NOTHING.(replies := [(at, req, outcome)]) }

  /** The one device is a new one for this tunnel, if the build succeeded. */
  predicate Built(s: State, t: State, id: string, ok: bool) {
    if ok then t.device.Some? && t.device.value.id == id
      && SerialsBelow(s.log, t.device.value.serial) else t.device.None?
  }

  predicate RotationObserved(s: State, e: Event, t: State)
    requires e.Rotate?
  {
    if !e.force && (e.busyBefore || e.busyLocked) then
      Adds(s.log, t.log, Replies(e.now, e.req, SkippedActive)) && t.device == s.device
    else if s.device.None? then
      Adds(s.log, t.log, Replies(e.now, e.req, Unavailable)) && t.device.None?
    else
      var closes := Closes(s, e.closed, Rotating);
      match e.settle
      case Interrupted(at) => Adds(s.log, t.log, Plus(closes, Replies(at, e.req, Unavailable))) && t.device.None?
      case Settled(at, id, ok, done) =>
        && Built(s, t, id, ok)
        && Adds(s.log, t.log, Plus(Plus(closes, Builds(at, done, Rotation, t.device)),
                                   Replies(done, e.req, if ok then Rotated(id) else Unavailable)))
  }

  /** What an observer sees of one iteration. */
  predicate Observed(c: Config, s: State, e: Event, t: State) {
    match e
    case BackoffFires(now, id, ok, done) =>
      && Built(s, t, id, ok) && Adds(s.log, t.log, Builds(now, done, Reconnect, t.device))
      && t.backoff == (if ok then s.backoff else Min(2 * s.backoff, c.reconnectMax)) && t.running
    case PollFires(now, reading, closed) =>
      if Unwell(c, reading, now) then
        t.device.None? && Adds(s.log, t.log, Closes(s, closed, Unhealthy)) && t.backoff == s.backoff && t.running
      else
        t.device == s.device && Adds(s.log, t.log, NOTHING) && t.backoff == c.reconnectMin && t.running
    case Rotate(_, _, _, _, _, _, _) => RotationObserved(s, e, t) && t.backoff == s.backoff && t.running
    case Stop(_, closed) => t.device.None? && Adds(s.log, t.log, Closes(s, closed, Stopping)) && !t.running
  }

  lemma {:induction false} AddsThen(l0: Log<Entry>, l1: Log<Entry>, l2: Log<Entry>, a: Trace, b: Trace)
    requires Adds(l0, l1, a) && Adds(l1, l2, b)
    ensures Adds(l0, l2, Plus(a, b))
  {
    PlusTwice(TraceOf(l0), a, b);
  }

  lemma {:induction false} PlusTwice(a: Trace, b: Trace, c: Trace)
    ensures Plus(Plus(a, b), c) == Plus(a, Plus(b, c))
  {
  }

  lemma {:induction false} PlusNothing(a: Trace)
    ensures Plus(NOTHING, a) == a
  {
  }

  lemma {:induction false} BuildAdds(s: State, origin: Origin, now: int, id: string, ok: bool, done: int)
    requires SerialsBelow(s.log, s.built) && s.device.None?
    ensures var t := Build(s, origin, now, id, ok, done);
            && Built(s, t, id, ok) && t.backoff == s.backoff && t.running == s.running
            && Adds(s.log, t.log, Builds(now, done, origin, t.device))
  {
    var t := Build(s, origin, now, id, ok, done);
    var began := Snoc(s.log, BuildBegan(now, origin));
    assert Adds(s.log, began, NOTHING.(starts := [(now, origin)]));
    assert Adds(began, t.log, NOTHING.(results := [(done, origin, t.device)]));
    AddsThen(s.log, began, t.log, NOTHING.(starts := [(now, origin)]), NOTHING.(results := [(done, origin, t.device)]));
  }

  lemma {:induction false} CloseAdds(s: State, closed: int, cause: Cause)
    ensures var t := CloseDevice(s, closed, cause); t.device.None? && Adds(s.log, t.log, Closes(s, closed, cause))
  {
  }

  lemma {:induction false} ReplyAdds(s: State, at: int, req: nat, outcome: Outcome)
    ensures Adds(s.log, Reply(s, at, req, outcome).log, Replies(at, req, outcome))
  {
  }

  lemma {:induction false} RotateObserved(s: State, e: Event)
    requires e.Rotate? && SerialsBelow(s.log, s.built)
    ensures RotationObserved(s, e, OnRotate(s, e))
  {
    var r := s.(clock := e.now, log := Snoc(s.log, RotateReceived(e.now, e.req, e.force, e.busyBefore, e.busyLocked)));
    var skips := !e.force && (e.busyBefore || e.busyLocked);
    assert Adds(s.log, r.log, NOTHING);
    if skips || s.device.None? {
      var outcome := if skips then SkippedActive else Unavailable;
      ReplyAdds(r, e.now, e.req, outcome);
      AddsThen(s.log, r.log, OnRotate(s, e).log, NOTHING, Replies(e.now, e.req, outcome));
      PlusNothing(Replies(e.now, e.req, outcome));
    } else {
      var torn := CloseDevice(r, e.closed, Rotating);
      CloseAdds(r, e.closed, Rotating);
      AddsThen(s.log, r.log, torn.log, NOTHING, Closes(s, e.closed, Rotating));
      PlusNothing(Closes(s, e.closed, Rotating));
      RebuildObserved(s, torn, e);
    }
  }

  lemma {:induction false} RebuildObserved(s: State, torn: State, e: Event)
    requires e.Rotate? && Adds(s.log, torn.log, Closes(s, e.closed, Rotating)) && torn.device.None?
    requires SerialsBelow(torn.log, torn.built) && SerialsBelow(s.log, torn.built)
    ensures var closes := Closes(s, e.closed, Rotating);
            match e.settle
            case Interrupted(at) =>
              var t := Reply(torn, at, e.req, Unavailable);
              Adds(s.log, t.log, Plus(closes, Replies(at, e.req, Unavailable))) && t.device.None?
            case Settled(at, id, ok, done) =>
              var outcome := if ok then Rotated(id) else Unavailable;
              var t := Reply(Build(torn, Rotation, at, id, ok, done), done, e.req, outcome);
              && Built(s, t, id, ok)
              && Adds(s.log, t.log,
                 Plus(Plus(closes, Builds(at, done, Rotation, t.device)), Replies(done, e.req, outcome)))
  {
    var closes := Closes(s, e.closed, Rotating);
    match e.settle
    case Interrupted(at) =>
      ReplyAdds(torn, at, e.req, Unavailable);
      AddsThen(s.log, torn.log, Reply(torn, at, e.req, Unavailable).log, closes, Replies(at, e.req, Unavailable));
    case Settled(at, id, ok, done) =>
      var b := Build(torn, Rotation, at, id, ok, done);
      var outcome := if ok then Rotated(id) else Unavailable;
      BuildAdds(torn, Rotation, at, id, ok, done);
      AddsThen(s.log, torn.log, b.log, closes, Builds(at, done, Rotation, b.device));
      ReplyAdds(b, done, e.req, outcome);
      AddsThen(s.log, b.log, Reply(b, done, e.req, outcome).log,
               Plus(closes, Builds(at, done, Rotation, b.device)), Replies(done, e.req, outcome));
  }

  lemma {:induction false} PollObserved(c: Config, s: State, now: int, reading: Reading, closed: int)
    requires ValidConfig(c) && s.running
    ensures Observed(c, s, PollFires(now, reading, closed), Step(c, s, PollFires(now, reading, closed)))
  {
    var t := s.(clock := now, log := Snoc(s.log, Polled(now, reading, Healthy(c, reading, now))));
    assert Adds(s.log, t.log, NOTHING);
    CloseAdds(t, closed, Unhealthy);
    AddsThen(s.log, t.log, CloseDevice(t, closed, Unhealthy).log, NOTHING, Closes(s, closed, Unhealthy));
    PlusNothing(Closes(s, closed, Unhealthy));
  }

  lemma {:induction false} StepObserved(c: Config, s: State, e: Event)
    requires ValidConfig(c) && Inv(c, s) && Enabled(c, s, e)
    ensures Observed(c, s, e, Step(c, s, e))
  {
    BackoffGrows(c, Failures(s.log));
    match e
    case BackoffFires(now, id, ok, done) =>
      BuildAdds(s, Reconnect, now, id, ok, done);
      GrowBackoffIsMin(s.backoff, c.reconnectMax);
    case PollFires(now, reading, closed) => PollObserved(c, s, now, reading, closed);
    case Rotate(_, _, _, _, _, _, _) => RotateObserved(s, e);
    case Stop(_, closed) => CloseAdds(s, closed, Stopping);
  }

  /** In every run, every further iteration has exactly its effect. A backoff that runs
      out builds once; a poll closes exactly an unwell device and resets the backoff
      otherwise; a rotation that is not forced and reads busy leaves the device alone
      and says so, and any other rotation of a live device closes it and, unless
      interrupted, builds the next; stopping closes. The first build leaves a device
      exactly if it succeeds. */
  lemma {:induction false} IterationsObserved(
    c: Config, now: int, id: string, ok: bool, done: int, es: seq<Event>, e: Event)
    requires ValidConfig(c) && now <= done && Feasible(c, Started(c, now, id, ok, done), es)
    requires Enabled(c, Run(c, Started(c, now, id, ok, done), es), e)
    ensures var s := Run(c, Started(c, now, id, ok, done), es); Observed(c, s, e, Step(c, s, e))
    ensures var s := Started(c, now, id, ok, done);
            && s.running && s.device.Some? == ok && (ok ==> s.device.value.id == id)
            && TraceOf(s.log) == Builds(now, done, First, s.device)
  {
    StartOk(c, now, id, ok, done);
    RunOk(c, Started(c, now, id, ok, done), es);
    StepObserved(c, Run(c, Started(c, now, id, ok, done), es), e);
    BuildAdds(State(true, None, c.reconnectMin, now, 0, Empty), First, now, id, ok, done);
    PlusNothing(TraceOf(Started(c, now, id, ok, done).log));
  }

  /** A running loop can always be brought to a live device of a given tunnel: by the
      backoff if there is none, else by a rotation that finds it idle. */
  lemma {:induction false} CanConnect(c: Config, s: State, id: string, req: nat) returns (e: Event)
    requires ValidConfig(c) && Inv(c, s) && s.running
    ensures Enabled(c, s, e) && (e.Rotate? ==> !e.force)
    ensures var t := Step(c, s, e); t.device.Some? && t.device.value.id == id && Inv(c, t)
  {
    BackoffGrows(c, Failures(s.log));
    if s.device.None? {
      e := BackoffFires(s.clock + s.backoff, id, true, s.clock + s.backoff);
    } else {
      var at := s.clock + c.rotateSettle;
      e := Rotate(s.clock, req, false, false, false, s.clock, Settled(at, id, true, at));
    }
    StepObserved(c, s, e);
    StepOk(c, s, e);
  }
}
