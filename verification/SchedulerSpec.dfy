/** The on-demand scheduler as a small abstract machine: at most one device, a
    FIFO of zones with queued requests, and one pending wake-up at a time. The
    class in Scheduler.dfy refines it; the theorems about whole runs are in
    SchedulerTheorems.dfy. */
module SchedulerSpec {

  import opened Logs

  type Zone = string
  type Path = string

  /** The immutable options of a scheduler. `eligible` is the lookup table from
      tunnel ids to config paths. Times and durations are nanoseconds. */
  datatype Config = Config(settleDelay: int, grace: int, idleTTL: int, eligible: map<Zone, Path>)

  predicate ValidConfig(c: Config) {
    c.settleDelay > 0 && c.grace > 0 && c.idleTTL > 0 && "" !in c.eligible
  }

  /** A routed request; `id` stands for its private reply channel. */
  datatype Request = Request(id: nat, zone: Zone, path: Path)

  /** A device knows the config path it was built from; serials are never reused. */
  datatype Device = Device(serial: nat, path: Path)

  datatype Reply = Granted(device: Device) | BringUpFailed | Cancelled

  datatype Reason = Switched | IdledOut | Shutdown

  /** What an observer of the loop sees, in order, with the time it happens. */
  datatype Entry =
    | Dequeued(at: int, req: Request)
    | Replied(at: int, req: Request, reply: Reply)
    | Released(at: int)
    | SwitchBegan(at: int, zone: Zone)
    | BuildBegan(at: int, path: Path)
    | BuildEnded(at: int, result: Option<Device>)
    | Closed(at: int, device: Device, reason: Reason)

  /** How a live device is used: by `jobs` unreleased grants, or by none with the
      grace or the idle timer armed. */
  datatype Use = Serving(jobs: nat) | Grace(due: int) | Warm(due: int)

  datatype Phase =
    | Down
    | Settling(zone: Zone, batch: seq<Request>, due: int)
    | Live(zone: Zone, device: Device, use: Use)
    | Stopped

  datatype Queue = Queue(zone: Zone, reqs: seq<Request>)

  datatype State = State(phase: Phase, waiting: seq<Queue>, clock: int, built: nat, log: Log<Entry>)

  /** One arm of the select. A build takes from `now` to `done`; closing a device
      returns at `closed`; `order` is the order in which the pending map is walked. */
  datatype Event =
    | Arrive(now: int, req: Request)
    | SettleFires(now: int, ok: bool, done: int)
    | Release(now: int)
    | GraceFires(now: int, closed: int)
    | IdleFires(now: int, closed: int)
    | Cancel(now: int, closed: int, order: seq<Zone>)

  function Init(now: int): State {
    State(Down, [], now, 0, Empty)
  }

  // Queues

  function Zones(ws: seq<Queue>): seq<Zone> {
    seq(|ws|, i requires 0 <= i < |ws| => ws[i].zone)
  }

  function QueueFor(ws: seq<Queue>, z: Zone): seq<Request> {
    if ws == [] then []
    else if ws[0].zone == z then ws[0].reqs
    else QueueFor(ws[1..], z)
  }

  /** A request joins its zone's queue; a new zone goes to the back. */
  function Enqueue(ws: seq<Queue>, req: Request): seq<Queue> {
    if ws == [] then [Queue(req.zone, [req])]
    else if ws[0].zone == req.zone then [ws[0].(reqs := ws[0].reqs + [req])] + ws[1..]
    else [ws[0]] + Enqueue(ws[1..], req)
  }

  function Replies(log: Log<Entry>, at: int, reqs: seq<Request>, reply: Reply): Log<Entry> {
    if reqs == [] then log
    else Snoc(Replies(log, at, reqs[..|reqs| - 1], reply), Replied(at, reqs[|reqs| - 1], reply))
  }

  function CancelAll(log: Log<Entry>, at: int, ws: seq<Queue>, order: seq<Zone>): Log<Entry> {
    if order == [] then log
    else Replies(CancelAll(log, at, ws, order[..|order| - 1]), at, QueueFor(ws, order[|order| - 1]), Cancelled)
  }

  // Steps

  predicate Eligible(c: Config, req: Request) {
    req.zone in c.eligible && req.path == c.eligible[req.zone]
  }

  predicate Permutes(order: seq<Zone>, ws: seq<Queue>) {
    && (forall i, j | 0 <= i < j < |order| :: order[i] != order[j])
    && (forall i | 0 <= i < |order| :: order[i] in Zones(ws))
    && (forall i | 0 <= i < |ws| :: ws[i].zone in order)
  }

  /** When the select may take an arm: the clock does not run backwards, a timer
      fires only when armed and due, and a request has passed Route's lookup. */
  predicate Enabled(c: Config, s: State, e: Event) {
    s.clock <= e.now && !s.phase.Stopped? &&
    match e
    case Arrive(_, req) => Eligible(c, req)
    case SettleFires(now, _, done) => s.phase.Settling? && s.phase.due <= now <= done
    case Release(_) => true
    case GraceFires(now, closed) => s.phase.Live? && s.phase.use.Grace? && s.phase.use.due <= now <= closed
    case IdleFires(now, closed) => s.phase.Live? && s.phase.use.Warm? && s.phase.use.due <= now <= closed
    case Cancel(now, closed, order) => now <= closed && Permutes(order, s.waiting)
  }

  /** Begin a switch to the oldest waiting zone, if any. */
  function SwitchNext(c: Config, s: State, at: int): State {
    if s.waiting == [] then s.(phase := Down, clock := at)
    else s.(phase := Settling(s.waiting[0].zone, s.waiting[0].reqs, at + c.settleDelay),
            waiting := s.waiting[1..],
            clock := at,
            log := Snoc(s.log, SwitchBegan(at, s.waiting[0].zone)))
  }

  function OnArrive(c: Config, s: State, now: int, req: Request): State {
    var s := s.(clock := now, log := Snoc(s.log, Dequeued(now, req)));
    match s.phase
    case Down =>
      s.(phase := Settling(req.zone, [req], now + c.settleDelay), log := Snoc(s.log, SwitchBegan(now, req.zone)))
    case Settling(zone, batch, due) =>
      if zone == req.zone then s.(phase := Settling(zone, batch + [req], due))
      else s.(waiting := Enqueue(s.waiting, req))
    case Live(zone, device, use) =>
      if zone == req.zone then
        s.(phase := Live(zone, device, Serving(if use.Serving? then use.jobs + 1 else 1)),
           log := Snoc(s.log, Replied(now, req, Granted(device))))
      else
        s.(phase := Live(zone, device, if use.Warm? then Grace(now + c.grace) else use),
           waiting := Enqueue(s.waiting, req))
    case Stopped => s
  }

  function OnRelease(c: Config, s: State, now: int): State {
    var s := s.(clock := now, log := Snoc(s.log, Released(now)));
    if !s.phase.Live? then s
    else if s.phase.use.Serving? && s.phase.use.jobs > 1 then
      s.(phase := s.phase.(use := Serving(s.phase.use.jobs - 1)))
    else if s.waiting != [] then s.(phase := s.phase.(use := Grace(now + c.grace)))
    else s.(phase := s.phase.(use := Warm(now + c.idleTTL)))
  }

  function OnSettled(c: Config, s: State, now: int, ok: bool, done: int): State
    requires s.phase.Settling? && s.phase.zone in c.eligible
  {
    var zone, batch := s.phase.zone, s.phase.batch;
    var path := c.eligible[zone];
    if ok then
      var d := Device(s.built, path);
      State(Live(zone, d, Serving(|batch|)), s.waiting, done, s.built + 1,
            Replies(Snoc(Snoc(s.log, BuildBegan(now, path)), BuildEnded(done, Some(d))), done, batch, Granted(d)))
    else
      var log := Snoc(Snoc(s.log, BuildBegan(now, path)), BuildEnded(done, None));
      SwitchNext(c, s.(log := Replies(log, done, batch, BringUpFailed)), done)
  }

  function OnClose(s: State, closed: int, reason: Reason): State
    requires s.phase.Live?
  {
    s.(phase := Down, clock := closed, log := Snoc(s.log, Closed(closed, s.phase.device, reason)))
  }

  function OnCancel(s: State, now: int, closed: int, order: seq<Zone>): State {
    var batch := if s.phase.Settling? then s.phase.batch else [];
    var log := CancelAll(Replies(s.log, now, batch, Cancelled), now, s.waiting, order);
    s.(phase := Stopped, waiting := [], clock := closed,
       log := if s.phase.Live? then Snoc(log, Closed(closed, s.phase.device, Shutdown)) else log)
  }

  function Step(c: Config, s: State, e: Event): State
    requires Enabled(c, s, e) && Shape(c, s)
  {
    match e
    case Arrive(now, req) => OnArrive(c, s, now, req)
    case SettleFires(now, ok, done) => OnSettled(c, s, now, ok, done)
    case Release(now) => OnRelease(c, s, now)
    case GraceFires(_, closed) => SwitchNext(c, OnClose(s, closed, Switched), closed)
    case IdleFires(_, closed) => OnClose(s, closed, IdledOut)
    case Cancel(now, closed, order) => OnCancel(s, now, closed, order)
  }

  // The invariant the code never states

  predicate ForZone(c: Config, z: Zone, reqs: seq<Request>) {
    && z in c.eligible && reqs != []
    && forall i | 0 <= i < |reqs| :: reqs[i].zone == z && Eligible(c, reqs[i])
  }

  predicate WellQueued(c: Config, ws: seq<Queue>) {
    && (forall i | 0 <= i < |ws| :: ForZone(c, ws[i].zone, ws[i].reqs))
    && (forall i, j | 0 <= i < j < |ws| :: ws[i].zone != ws[j].zone)
  }

  predicate Absent(z: Zone, ws: seq<Queue>) {
    forall i | 0 <= i < |ws| :: ws[i].zone != z
  }

  /** Queues are non-empty and duplicate-free and never hold the current or
      settling zone; nothing waits without a wake-up that will serve it. */
  predicate Shape(c: Config, s: State) {
    && WellQueued(c, s.waiting)
    && match s.phase
       case Down => s.waiting == []
       case Stopped => s.waiting == []
       case Settling(zone, batch, _) => ForZone(c, zone, batch) && Absent(zone, s.waiting)
       case Live(zone, device, use) =>
         && zone in c.eligible && device.path == c.eligible[zone] && device.serial < s.built
         && Absent(zone, s.waiting)
         && match use
            case Serving(jobs) => jobs > 0
            case Grace(_) => s.waiting != []
            case Warm(_) => s.waiting == []
  }

  /** The recursive insertion, by position: an update in place or an append. */
  lemma {:induction false} EnqueueAt(ws: seq<Queue>, req: Request) returns (k: nat)
    ensures k <= |ws| && forall i | 0 <= i < k :: ws[i].zone != req.zone
    ensures k < |ws| ==> ws[k].zone == req.zone && Enqueue(ws, req) == ws[k := ws[k].(reqs := ws[k].reqs + [req])]
    ensures k == |ws| ==> Enqueue(ws, req) == ws + [Queue(req.zone, [req])]
  {
    if ws == [] || ws[0].zone == req.zone {
      k := 0;
    } else {
      var j := EnqueueAt(ws[1..], req);
      k := j + 1;
      assert ws == [ws[0]] + ws[1..];
    }
  }

  lemma {:induction false} EnqueueShape(c: Config, ws: seq<Queue>, req: Request)
    requires WellQueued(c, ws) && Eligible(c, req)
    ensures WellQueued(c, Enqueue(ws, req)) && Enqueue(ws, req) != []
    ensures forall z | Absent(z, ws) && z != req.zone :: Absent(z, Enqueue(ws, req))
  {
    var k := EnqueueAt(ws, req);
  }

  /** Every arm of the select keeps the invariant. */
  lemma {:induction false} StepShape(c: Config, s: State, e: Event)
    requires Enabled(c, s, e) && Shape(c, s)
    ensures Shape(c, Step(c, s, e))
  {
    match e
    case Arrive(_, req) => EnqueueShape(c, s.waiting, req);
    case _ =>
  }

  // Runs

  /** Every event of a schedule can be taken when its turn comes. */
  predicate Feasible(c: Config, s: State, es: seq<Event>)
    requires Shape(c, s)
    decreases |es|
  {
    es == [] || (Enabled(c, s, es[0]) && (StepShape(c, s, es[0]); Feasible(c, Step(c, s, es[0]), es[1..])))
  }

  function Run(c: Config, s: State, es: seq<Event>): (r: State)
    requires Shape(c, s) && Feasible(c, s, es)
    ensures Shape(c, r)
    decreases |es|
  {
    if es == [] then s else
      StepShape(c, s, es[0]);
      Run(c, Step(c, s, es[0]), es[1..])
  }
}
