/** The streaming supervisor's loop goroutine: one device at a time, rebuilt after
    a backoff when it fails and after a settle when it is rotated. */
module SupervisorSpec {
  import opened Durations
  import opened Logs

  datatype Config = Config(reconnectMin: int, reconnectMax: int, pollInterval: int, rotateSettle: int,
    handshakeMaxAge: int)

  /** What the constructor insists on. */
  predicate ValidConfig(c: Config) {
    && 0 < c.reconnectMin <= c.reconnectMax <= MAX_DURATION
    && 0 < c.rotateSettle <= MAX_DURATION
    && 0 < c.pollInterval <= MAX_DURATION
    && 0 < c.handshakeMaxAge <= MAX_DURATION
  }

  // Backoff

  function Pow2(k: nat): nat { if k == 0 then 1 else 2 * Pow2(k - 1) }

  /** Double d up to max, in 64-bit arithmetic with the code's overflow guard. */
  function GrowBackoff(d: int, max: int): int {
    if d <= 0 then max
    else
      var doubled := Wrap(d * 2);
      if doubled > max || doubled <= 0 then max else doubled
  }

  /** The guard makes the wrapping doubling exact: for every positive 64-bit
      duration the result is the mathematical minimum. */
  lemma {:induction false} GrowBackoffIsMin(d: int, max: int)
    requires 0 < d <= MAX_DURATION && IsDuration(max)
    ensures GrowBackoff(d, max) == Min(2 * d, max)
  {
    if 2 * d <= MAX_DURATION {
      assert Wrap(2 * d) == 2 * d;
    } else {
      assert Wrap(2 * d) == 2 * d - 0x1_0000_0000_0000_0000;
    }
  }

  /** Where k failed reconnects leave the backoff. */
  function Backoff(c: Config, k: nat): int { Min(c.reconnectMin * Pow2(k), c.reconnectMax) }

  lemma {:induction false} BackoffGrows(c: Config, k: nat)
    requires ValidConfig(c)
    ensures c.reconnectMin <= Backoff(c, k) <= c.reconnectMax
    ensures GrowBackoff(Backoff(c, k), c.reconnectMax) == Backoff(c, k + 1)
  {
    PowPositive(k);
    assert c.reconnectMin * Pow2(k) >= c.reconnectMin by { MulAtLeast(c.reconnectMin, Pow2(k)); }
    GrowBackoffIsMin(Backoff(c, k), c.reconnectMax);
    assert c.reconnectMin * Pow2(k + 1) == 2 * (c.reconnectMin * Pow2(k)) by { MulTwice(c.reconnectMin, Pow2(k)); }
  }

  lemma {:induction false} PowPositive(k: nat)
    ensures Pow2(k) >= 1
  {
    if k > 0 { PowPositive(k - 1); }
  }

  lemma MulAtLeast(a: int, b: int)
    requires a > 0 && b >= 1
    ensures a * b >= a
  {
  }

  lemma MulTwice(a: int, b: int)
    ensures a * (2 * b) == 2 * (a * b)
  {
  }

  // The machine

  datatype Device = Device(serial: nat, id: string)

  datatype Origin = First | Reconnect | Rotation

  datatype Cause = Rotating | Unhealthy | Stopping

  datatype Outcome = Rotated(id: string) | SkippedActive | Unavailable

  datatype Entry =
    | BuildBegan(at: int, origin: Origin)
    | BuildEnded(at: int, origin: Origin, result: Option<Device>)
    | Closed(at: int, device: Device, cause: Cause)
    | Polled(at: int, reading: Reading, healthy: bool)
    | RotateReceived(at: int, req: nat, force: bool, busyBefore: bool, busyLocked: bool)
    | RotateReplied(at: int, req: nat, outcome: Outcome)

  /** What a device's health reporter, if it has one, answers. */
  datatype Reading = NoReporter | QueryError | NoHandshake | LastAt(t: int)

  predicate Healthy(c: Config, reading: Reading, now: int) {
    match reading
    case NoReporter => true
    case QueryError => false
    case NoHandshake => false
    case LastAt(t) => !(Sub(now, t) > c.handshakeMaxAge)
  }

  /** How the settle of a rotation ends: by cancellation, or by the timer followed
      by a build of tunnel `id` that succeeds or not. */
  datatype Settle = Interrupted(at: int) | Settled(at: int, id: string, ok: bool, done: int)

  /** One iteration of the loop. */
  datatype Event =
    | BackoffFires(now: int, id: string, ok: bool, done: int)
    | PollFires(now: int, reading: Reading, closed: int)
    | Rotate(now: int, req: nat, force: bool, busyBefore: bool, busyLocked: bool, closed: int, settle: Settle)
    | Stop(now: int, closed: int)

  datatype State = State(running: bool, device: Option<Device>, backoff: int, clock: int, built: nat, log: Log<Entry>)

  function Build(s: State, origin: Origin, now: int, id: string, ok: bool, done: int): State {
    var began := Snoc(s.log, BuildBegan(now, origin));
    if ok then
      var d := Device(s.built, id);
      s.(device := Some(d), clock := done, built := s.built + 1, log := Snoc(began, BuildEnded(done, origin, Some(d))))
    else
      s.(clock := done, log := Snoc(began, BuildEnded(done, origin, None)))
  }

  /** Start: one build attempt, then the loop with its backoff at the minimum. */
  function Started(c: Config, now: int, id: string, ok: bool, done: int): State {
    Build(State(true, None, c.reconnectMin, now, 0, Empty), First, now, id, ok, done)
  }

  function CloseDevice(s: State, closed: int, cause: Cause): State {
    if s.device.None? then s.(clock := closed)
    else s.(device := None, clock := closed, log := Snoc(s.log, Closed(closed, s.device.value, cause)))
  }

  predicate Enabled(c: Config, s: State, e: Event) {
    s.running && s.clock <= e.now &&
    match e
    case BackoffFires(now, _, _, done) => s.device.None? && s.clock + s.backoff <= now <= done
    case PollFires(now, _, closed) => s.device.Some? && s.clock + c.pollInterval <= now <= closed
    case Rotate(now, _, _, _, _, closed, settle) =>
      now <= closed && (match settle
                        case Interrupted(at) => closed <= at
                        case Settled(at, _, _, done) => closed + c.rotateSettle <= at <= done)
    case Stop(now, closed) => now <= closed
  }

  function Reply(s: State, at: int, req: nat, outcome: Outcome): State {
    s.(clock := at, log := Snoc(s.log, RotateReplied(at, req, outcome)))
  }

  function OnRotate(s: State, e: Event): State
    requires e.Rotate?
  {
    var s := s.(clock := e.now, log := Snoc(s.log, RotateReceived(e.now, e.req, e.force, e.busyBefore, e.busyLocked)));
    if !e.force && (e.busyBefore || e.busyLocked) then Reply(s, e.now, e.req, SkippedActive)
    else if s.device.None? then Reply(s, e.now, e.req, Unavailable)
    else
      var torn := CloseDevice(s, e.closed, Rotating);
      match e.settle
      case Interrupted(at) => Reply(torn, at, e.req, Unavailable)
      case Settled(at, id, ok, done) =>
        Reply(Build(torn, Rotation, at, id, ok, done), done, e.req, if ok then Rotated(id) else Unavailable)
  }

  function Step(c: Config, s: State, e: Event): State {
    match e
    case BackoffFires(now, id, ok, done) =>
      var t := Build(s, Reconnect, now, id, ok, done);
      if ok then t else t.(backoff := GrowBackoff(s.backoff, c.reconnectMax))
    case PollFires(now, reading, closed) =>
      var t := s.(clock := now, log := Snoc(s.log, Polled(now, reading, Healthy(c, reading, now))));
      if Healthy(c, reading, now) then t.(backoff := c.reconnectMin) else CloseDevice(t, closed, Unhealthy)
    case Rotate(_, _, _, _, _, _, _) => OnRotate(s, e)
    case Stop(_, closed) => CloseDevice(s, closed, Stopping).(running := false)
  }

  predicate Feasible(c: Config, s: State, es: seq<Event>)
    decreases |es|
  {
    es == [] || (Enabled(c, s, es[0]) && Feasible(c, Step(c, s, es[0]), es[1..]))
  }

  function Run(c: Config, s: State, es: seq<Event>): State
    decreases |es|
  {
    if es == [] then s else Run(c, Step(c, s, es[0]), es[1..])
  }

  // Reading a log

  function At(e: Entry): int { e.at }

  predicate IsTurn(e: Entry) { e.BuildBegan? || e.BuildEnded? || e.Closed? }

  /** The devices built and not yet closed. */
  function Open(log: Log<Entry>): set<Device> {
    match log
    case Empty => {}
    case Snoc(prev, e) =>
      if e.BuildEnded? && e.result.Some? then Open(prev) + {e.result.value}
      else if e.Closed? then Open(prev) - {e.device}
      else Open(prev)
  }

  predicate SerialsBelow(log: Log<Entry>, n: nat) {
    match log
    case Empty => true
    case Snoc(prev, e) => SerialsBelow(prev, n) && (e.BuildEnded? && e.result.Some? ==> e.result.value.serial < n)
  }

  /** The rotate requests received and not yet replied to, oldest first. */
  function Unreplied(log: Log<Entry>): seq<nat> {
    match log
    case Empty => []
    case Snoc(prev, e) =>
      if e.RotateReceived? then Unreplied(prev) + [e.req]
      else if e.RotateReplied? && Unreplied(prev) != [] then Unreplied(prev)[1..]
      else Unreplied(prev)
  }

  /** Failed reconnect builds since the last healthy poll or the start of the loop. */
  function Failures(log: Log<Entry>): nat {
    match log
    case Empty => 0
    case Snoc(prev, e) =>
      if e.Polled? && e.healthy then 0
      else if e.BuildEnded? && e.origin.Reconnect? && e.result.None? then Failures(prev) + 1
      else Failures(prev)
  }

  /** How long after every earlier close and attempt a build must come. */
  function Gap(c: Config, origin: Origin, failures: nat): int {
    match origin
    case First => 0
    case Reconnect => Backoff(c, failures)
    case Rotation => c.rotateSettle
  }

  /** The last rotate request received. */
  function Asked(log: Log<Entry>): (r: Option<Entry>)
    ensures r.Some? ==> r.value.RotateReceived?
  {
    match log
    case Empty => None
    case Snoc(prev, e) => if e.RotateReceived? then Some(e) else Asked(prev)
  }

  /** A rotation that must leave the device alone: not forced, and busy before the
      lock was taken or under it. */
  predicate Skips(e: Entry)
    requires e.RotateReceived?
  {
    !e.force && (e.busyBefore || e.busyLocked)
  }

  /** A device is unwell if its health could not be read, or it never shook hands, or
      did so longer ago than handshakeMaxAge. An age saturates at the longest
      duration, and a device without a reporter is never unwell. */
  predicate Unwell(c: Config, reading: Reading, at: int) {
    || reading.QueryError? || reading.NoHandshake?
    || (reading.LastAt? && c.handshakeMaxAge < MAX_DURATION && at - reading.t > c.handshakeMaxAge)
  }

  predicate EntryOk(c: Config, pre: Log<Entry>, e: Entry) {
    match e
    case BuildBegan(at, origin) =>
      && Open(pre) == {} && Spaced(At, IsTurn, pre, at, Gap(c, origin, Failures(pre)))
      && (origin.First? ==> pre.Empty?)
    case BuildEnded(_, _, result) => Open(pre) == {} && (result.Some? ==> SerialsBelow(pre, result.value.serial))
    case Closed(_, d, cause) =>
      && Open(pre) == {d} && pre.Snoc?
      && (cause.Rotating? <==> Unreplied(pre) != [])
      && (cause.Rotating? ==> pre.last.RotateReceived? && !Skips(pre.last))
      && (cause.Unhealthy? ==> pre.last.Polled? && !pre.last.healthy)
    case Polled(at, reading, healthy) =>
      && Open(pre) != {} && (healthy <==> !Unwell(c, reading, at))
      && Spaced(At, Anything(), pre, at, c.pollInterval)
    case RotateReceived(_, _, _, _, _) => Unreplied(pre) == []
    case RotateReplied(_, req, outcome) =>
      && Unreplied(pre) == [req] && Asked(pre).Some?
      && (outcome.SkippedActive? <==> Skips(Asked(pre).value))
      && match outcome
         case SkippedActive => pre.Snoc? && pre.last.RotateReceived?
         case Unavailable => Open(pre) == {}
         case Rotated(id) => exists d | d in Open(pre) :: Open(pre) == {d} && d.id == id
  }

  predicate LogOk(c: Config, log: Log<Entry>) {
    match log
    case Empty => true
    case Snoc(prev, e) => LogOk(c, prev) && EntryOk(c, prev, e)
  }

  predicate Inv(c: Config, s: State) {
    && LogOk(c, s.log)
    && Open(s.log) == (if s.device.Some? then {s.device.value} else {})
    && (!s.running ==> s.device.None?)
    && SerialsBelow(s.log, s.built)
    && Spaced(At, Anything(), s.log, s.clock, 0)
    && Unreplied(s.log) == []
    && s.backoff == Backoff(c, Failures(s.log))
  }

  lemma {:induction false} SerialsGrow(log: Log<Entry>, n: nat, m: nat)
    requires SerialsBelow(log, n) && n <= m
    ensures SerialsBelow(log, m)
  {
    if log.Snoc? { SerialsGrow(log.prev, n, m); }
  }

  /** A build that starts late enough keeps everything but the backoff clause. */
  lemma {:induction false} BuildOk(
    c: Config, s: State, origin: Origin, now: int, id: string, ok: bool, done: int, turn: int)
    requires ValidConfig(c) && LogOk(c, s.log) && Open(s.log) == {} && s.device.None? && SerialsBelow(s.log, s.built)
    requires Spaced(At, Anything(), s.log, turn, 0) && turn + Gap(c, origin, Failures(s.log)) <= now <= done
    requires origin.First? ==> s.log.Empty?
    ensures var t := Build(s, origin, now, id, ok, done);
            && LogOk(c, t.log) && Open(t.log) == (if ok then {t.device.value} else {}) && t.device.Some? == ok
            && SerialsBelow(t.log, t.built) && Spaced(At, Anything(), t.log, done, 0)
            && Unreplied(t.log) == Unreplied(s.log) && Asked(t.log) == Asked(s.log)
            && Failures(t.log) == Failures(s.log) + if origin.Reconnect? && !ok then 1 else 0
  {
    var gap := Gap(c, origin, Failures(s.log));
    BackoffGrows(c, Failures(s.log));
    SpacedFrom(At, IsTurn, s.log, turn, gap);
    SpacedLater(At, IsTurn, s.log, turn + gap, gap, now);
    SpacedLater(At, Anything(), s.log, turn, 0, done);
    SerialsGrow(s.log, s.built, s.built + 1);
    var began := Snoc(s.log, BuildBegan(now, origin));
    assert LogOk(c, began) && Open(began) == {} && SerialsBelow(began, s.built) && SerialsBelow(began, s.built + 1);
    assert Failures(began) == Failures(s.log) && Unreplied(began) == Unreplied(s.log);
  }

  lemma {:induction false} CloseOk(c: Config, s: State, closed: int, cause: Cause)
    requires LogOk(c, s.log) && Open(s.log) == (if s.device.Some? then {s.device.value} else {})
    requires SerialsBelow(s.log, s.built) && Spaced(At, Anything(), s.log, s.clock, 0) && s.clock <= closed
    requires cause.Rotating? <==> Unreplied(s.log) != []
    requires cause.Rotating? ==> s.log.Snoc? && s.log.last.RotateReceived? && !Skips(s.log.last)
    requires cause.Unhealthy? ==> s.log.Snoc? && s.log.last.Polled? && !s.log.last.healthy
    ensures var t := CloseDevice(s, closed, cause);
            && LogOk(c, t.log) && Open(t.log) == {} && t.device.None?
            && SerialsBelow(t.log, t.built) && Spaced(At, Anything(), t.log, closed, 0)
            && Unreplied(t.log) == Unreplied(s.log) && Asked(t.log) == Asked(s.log)
               && Failures(t.log) == Failures(s.log)
  {
    SpacedLater(At, Anything(), s.log, s.clock, 0, closed);
  }

  /** A reply that tells the truth about the one open request settles it. */
  lemma {:induction false} ReplyOk(c: Config, s: State, at: int, req: nat, outcome: Outcome)
    requires LogOk(c, s.log) && EntryOk(c, s.log, RotateReplied(at, req, outcome))
    requires Spaced(At, Anything(), s.log, s.clock, 0) && s.clock <= at && SerialsBelow(s.log, s.built)
    ensures var t := Reply(s, at, req, outcome);
            && LogOk(c, t.log) && Open(t.log) == Open(s.log) && SerialsBelow(t.log, t.built)
            && Spaced(At, Anything(), t.log, at, 0) && Unreplied(t.log) == [] && Failures(t.log) == Failures(s.log)
  {
    SpacedLater(At, Anything(), s.log, s.clock, 0, at);
  }

  lemma {:induction false} RotateOk(c: Config, s: State, e: Event)
    requires ValidConfig(c) && Inv(c, s) && Enabled(c, s, e) && e.Rotate?
    ensures Inv(c, OnRotate(s, e))
  {
    SpacedLater(At, Anything(), s.log, s.clock, 0, e.now);
    var r := s.(clock := e.now, log := Snoc(s.log, RotateReceived(e.now, e.req, e.force, e.busyBefore, e.busyLocked)));
    assert LogOk(c, r.log) && Open(r.log) == Open(s.log) && Unreplied(r.log) == [e.req]
      && Asked(r.log) == Some(r.log.last);
    if Skips(r.log.last) {
      ReplyOk(c, r, e.now, e.req, SkippedActive);
    } else if s.device.None? {
      ReplyOk(c, r, e.now, e.req, Unavailable);
    } else {
      CloseOk(c, r, e.closed, Rotating);
      RebuildOk(c, CloseDevice(r, e.closed, Rotating), e);
    }
  }

  /** The settle and the rebuild of a rotation that closed its device. */
  lemma {:induction false} RebuildOk(c: Config, s: State, e: Event)
    requires ValidConfig(c) && e.Rotate? && s.clock == e.closed && LogOk(c, s.log) && Open(s.log) == {}
               && s.device.None?
    requires SerialsBelow(s.log, s.built) && Spaced(At, Anything(), s.log, s.clock, 0)
    requires Unreplied(s.log) == [e.req] && Asked(s.log).Some? && !Skips(Asked(s.log).value)
    requires match e.settle
             case Interrupted(at) => e.closed <= at
             case Settled(at, _, _, done) => e.closed + c.rotateSettle <= at <= done
    requires s.backoff == Backoff(c, Failures(s.log)) && s.running
    ensures match e.settle
            case Interrupted(at) => Inv(c, Reply(s, at, e.req, Unavailable))
            case Settled(at, id, ok, done) =>
              Inv(c, Reply(Build(s, Rotation, at, id, ok, done), done, e.req, if ok then Rotated(id) else Unavailable))
  {
    match e.settle
    case Interrupted(at) => ReplyOk(c, s, at, e.req, Unavailable);
    case Settled(at, id, ok, done) =>
      BuildOk(c, s, Rotation, at, id, ok, done, e.closed);
      ReplyOk(c, Build(s, Rotation, at, id, ok, done), done, e.req, if ok then Rotated(id) else Unavailable);
  }

  lemma {:induction false} StepOk(c: Config, s: State, e: Event)
    requires ValidConfig(c) && Inv(c, s) && Enabled(c, s, e)
    ensures Inv(c, Step(c, s, e))
  {
    BackoffGrows(c, Failures(s.log));
    match e
    case BackoffFires(now, id, ok, done) => BuildOk(c, s, Reconnect, now, id, ok, done, s.clock);
    case PollFires(now, reading, closed) =>
      SpacedLater(At, Anything(), s.log, s.clock, 0, now);
      SpacedFrom(At, Anything(), s.log, s.clock, c.pollInterval);
      SpacedLater(At, Anything(), s.log, s.clock + c.pollInterval, c.pollInterval, now);
      var t := s.(clock := now, log := Snoc(s.log, Polled(now, reading, Healthy(c, reading, now))));
      if Healthy(c, reading, now) {
        assert Backoff(c, 0) == c.reconnectMin;
      } else {
        CloseOk(c, t, closed, Unhealthy);
      }
    case Rotate(_, _, _, _, _, _, _) => RotateOk(c, s, e);
    case Stop(_, closed) => CloseOk(c, s, closed, Stopping);
  }

  lemma {:induction false} RunOk(c: Config, s: State, es: seq<Event>)
    requires ValidConfig(c) && Inv(c, s) && Feasible(c, s, es)
    ensures Inv(c, Run(c, s, es))
    decreases |es|
  {
    if es != [] {
      StepOk(c, s, es[0]);
      RunOk(c, Step(c, s, es[0]), es[1..]);
    }
  }

  lemma {:induction false} StartOk(c: Config, now: int, id: string, ok: bool, done: int)
    requires ValidConfig(c) && now <= done
    ensures Inv(c, Started(c, now, id, ok, done))
  {
    BuildOk(c, State(true, None, c.reconnectMin, now, 0, Empty), First, now, id, ok, done, now);
    assert Backoff(c, 0) == c.reconnectMin;
  }

  /** Across startup, reconnects, rotations and shutdown: every build starts with
      no open device; a rotation's build comes at least rotateSettle after every
      earlier close and attempt, a reconnect's at least the backoff of the
      failures so far; a device is closed only while open, so once, and
      none is open after the loop has stopped; every rotate request is answered
      before the loop waits again, with an outcome that tells what happened to
      the device, and skipped if and only if it was not forced and one of its two
      readings was busy; a rotation closes a device only unskipped, and a poll
      only one whose health reading failed or is too old, pollInterval after
      whatever came before; and the backoff is min(reconnectMin * 2^k, reconnectMax) for k
      failed reconnects since the last healthy poll. */
  lemma {:induction false} SupervisorRuns(c: Config, now: int, id: string, ok: bool, done: int, es: seq<Event>)
    requires ValidConfig(c) && now <= done && Feasible(c, Started(c, now, id, ok, done), es)
    ensures var s := Run(c, Started(c, now, id, ok, done), es);
            && LogOk(c, s.log) && Unreplied(s.log) == []
            && Open(s.log) == (if s.device.Some? then {s.device.value} else {})
            && (!s.running ==> Open(s.log) == {})
            && s.backoff == Min(c.reconnectMin * Pow2(Failures(s.log)), c.reconnectMax)
  {
    StartOk(c, now, id, ok, done);
    RunOk(c, Started(c, now, id, ok, done), es);
  }
}
