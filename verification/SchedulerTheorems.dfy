/** Theorems about every run of the on-demand scheduler, stated on the log of
    what an observer sees: requests dequeued, replies, releases, switches,
    builds and closes. */
module SchedulerTheorems {
  import opened Logs
  import opened SchedulerSpec

  // Reading a log

  function At(e: Entry): int { e.at }

  function DequeuedIn(z: Zone): Entry -> seq<Request> {
    (e: Entry) => if e.Dequeued? && e.req.zone == z then [e.req] else []
  }

  function RepliedIn(z: Zone): Entry -> seq<Request> {
    (e: Entry) => if e.Replied? && e.req.zone == z then [e.req] else []
  }

  function SwitchZone(e: Entry): seq<Zone> {
    if e.SwitchBegan? then [e.zone] else []
  }

  predicate IsGrant(e: Entry) { e.Replied? && e.reply.Granted? }

  predicate IsRelease(e: Entry) { e.Released? }

  predicate IsAttempt(e: Entry) { e.BuildEnded? }

  /** A moment from which the provider's session must be left to settle. */
  predicate IsTurn(e: Entry) { e.BuildBegan? || e.BuildEnded? || e.Closed? }

  predicate IsUse(e: Entry) { IsGrant(e) || e.Released? }

  predicate IsDemand(e: Entry) { e.Dequeued? || e.Released? }

  /** The devices built and not yet closed. */
  function Open(log: Log<Entry>): set<Device> {
    match log
    case Empty => {}
    case Snoc(prev, e) =>
      if e.BuildEnded? && e.result.Some? then Open(prev) + {e.result.value}
      else if e.Closed? then Open(prev) - {e.device}
      else Open(prev)
  }

  /** Serials of all devices in the log are below n. */
  predicate SerialsBelow(log: Log<Entry>, n: nat) {
    match log
    case Empty => true
    case Snoc(prev, e) => SerialsBelow(prev, n) && (e.BuildEnded? && e.result.Some? ==> e.result.value.serial < n)
  }

  // What each entry of a log promises about everything before it

  predicate EntryOk(c: Config, pre: Log<Entry>, e: Entry) {
    match e
    case BuildBegan(at, _) => Open(pre) == {} && Spaced(At, IsTurn, pre, at, c.settleDelay)
    case BuildEnded(_, result) => Open(pre) == {} && (result.Some? ==> SerialsBelow(pre, result.value.serial))
    case Closed(at, d, reason) =>
      && Open(pre) == {d}
      && (reason.Switched? ==> Spaced(At, IsUse, pre, at, c.grace))
      && (reason.IdledOut? ==> Spaced(At, IsDemand, pre, at, c.idleTTL))
    case Replied(_, req, reply) =>
      reply.Granted? ==> Open(pre) == {reply.device} && reply.device.path == req.path && Eligible(c, req)
    case _ => true
  }

  predicate LogOk(c: Config, log: Log<Entry>) {
    match log
    case Empty => true
    case Snoc(prev, e) => LogOk(c, prev) && EntryOk(c, prev, e)
  }

  // Timers and devices

  /** An armed timer is far enough after everything it must keep away from. */
  predicate Timing(c: Config, s: State) {
    && Spaced(At, Anything(), s.log, s.clock, 0)
    && (s.phase.Settling? ==> Spaced(At, IsTurn, s.log, s.phase.due, c.settleDelay))
    && (s.phase.Live? && s.phase.use.Grace? ==> Spaced(At, IsUse, s.log, s.phase.use.due, c.grace))
    && (s.phase.Live? && s.phase.use.Warm? ==> Spaced(At, IsDemand, s.log, s.phase.use.due, c.idleTTL))
  }

  predicate Opened(s: State) {
    && Open(s.log) == (if s.phase.Live? then {s.phase.device} else {})
    && SerialsBelow(s.log, s.built)
  }

  predicate Inv(c: Config, s: State) {
    Shape(c, s) && Timing(c, s) && Opened(s) && LogOk(c, s.log)
  }

  lemma {:induction false} SerialsGrow(log: Log<Entry>, n: nat, m: nat)
    requires SerialsBelow(log, n) && n <= m
    ensures SerialsBelow(log, m)
  {
    if log.Snoc? { SerialsGrow(log.prev, n, m); }
  }

  lemma {:induction false} SpacedReplies(
    p: Entry -> bool, log: Log<Entry>, at: int, reqs: seq<Request>, reply: Reply, due: int, gap: int)
    requires Spaced(At, p, log, due, gap)
    requires forall req :: p(Replied(at, req, reply)) ==> due - at >= gap
    ensures Spaced(At, p, Replies(log, at, reqs, reply), due, gap)
    decreases |reqs|
  {
    if reqs != [] { SpacedReplies(p, log, at, reqs[..|reqs| - 1], reply, due, gap); }
  }

  lemma {:induction false} LogReplies(c: Config, log: Log<Entry>, at: int, reqs: seq<Request>, reply: Reply, n: nat)
    requires LogOk(c, log) && SerialsBelow(log, n)
    requires reply.Granted? ==> Open(log) == {reply.device}
    requires reply.Granted? ==> forall i | 0 <= i < |reqs| :: reply.device.path == reqs[i].path && Eligible(c, reqs[i])
    ensures LogOk(c, Replies(log, at, reqs, reply)) && SerialsBelow(Replies(log, at, reqs, reply), n)
    ensures Open(Replies(log, at, reqs, reply)) == Open(log)
    decreases |reqs|
  {
    if reqs != [] { LogReplies(c, log, at, reqs[..|reqs| - 1], reply, n); }
  }

  lemma {:induction false} LogCancels(c: Config, log: Log<Entry>, at: int, ws: seq<Queue>, order: seq<Zone>, n: nat)
    requires LogOk(c, log) && SerialsBelow(log, n) && Spaced(At, Anything(), log, at, 0)
    ensures var l := CancelAll(log, at, ws, order);
            LogOk(c, l) && SerialsBelow(l, n) && Open(l) == Open(log) && Spaced(At, Anything(), l, at, 0)
    decreases |order|
  {
    if order != [] {
      var k := |order| - 1;
      LogCancels(c, log, at, ws, order[..k], n);
      LogReplies(c, CancelAll(log, at, ws, order[..k]), at, QueueFor(ws, order[k]), Cancelled, n);
      SpacedReplies(Anything(), CancelAll(log, at, ws, order[..k]), at, QueueFor(ws, order[k]), Cancelled, at, 0);
    }
  }

  lemma {:induction false} InvArrive(c: Config, s: State, now: int, req: Request)
    requires ValidConfig(c) && Inv(c, s) && Enabled(c, s, Arrive(now, req))
    ensures var t := OnArrive(c, s, now, req); Timing(c, t) && Opened(t) && LogOk(c, t.log)
  {
    SpacedLater(At, Anything(), s.log, s.clock, 0, now);
    SpacedFrom(At, IsTurn, s.log, now, c.settleDelay);
    SpacedFrom(At, IsUse, s.log, now, c.grace);
  }

  lemma {:induction false} InvRelease(c: Config, s: State, now: int)
    requires ValidConfig(c) && Inv(c, s) && Enabled(c, s, Release(now))
    ensures var t := OnRelease(c, s, now); Timing(c, t) && Opened(t) && LogOk(c, t.log)
  {
    SpacedLater(At, Anything(), s.log, s.clock, 0, now);
    SpacedFrom(At, IsUse, s.log, now, c.grace);
    SpacedFrom(At, IsDemand, s.log, now, c.idleTTL);
  }

  lemma {:induction false} InvSwitch(c: Config, s: State, at: int)
    requires ValidConfig(c) && s.phase.Down? && s.clock <= at && Timing(c, s) && Opened(s) && LogOk(c, s.log)
    ensures var t := SwitchNext(c, s, at); Timing(c, t) && Opened(t) && LogOk(c, t.log)
  {
    SpacedLater(At, Anything(), s.log, s.clock, 0, at);
    SpacedFrom(At, IsTurn, s.log, at, c.settleDelay);
  }

  lemma {:induction false} InvClose(c: Config, s: State, now: int, closed: int, reason: Reason)
    requires ValidConfig(c) && Inv(c, s) && s.phase.Live? && s.clock <= now <= closed
    requires reason.Switched? ==> s.phase.use.Grace? && s.phase.use.due <= now
    requires reason.IdledOut? ==> s.phase.use.Warm? && s.phase.use.due <= now
    ensures var t := OnClose(s, closed, reason); Timing(c, t) && Opened(t) && LogOk(c, t.log)
  {
    SpacedLater(At, Anything(), s.log, s.clock, 0, closed);
    if reason.Switched? {
      SpacedLater(At, IsUse, s.log, s.phase.use.due, c.grace, closed);
    } else if reason.IdledOut? {
      SpacedLater(At, IsDemand, s.log, s.phase.use.due, c.idleTTL, closed);
    }
  }

  lemma {:induction false} InvSettled(c: Config, s: State, now: int, ok: bool, done: int)
    requires ValidConfig(c) && Inv(c, s) && Enabled(c, s, SettleFires(now, ok, done))
    ensures var t := OnSettled(c, s, now, ok, done); Timing(c, t) && Opened(t) && LogOk(c, t.log)
  {
    var path, batch := c.eligible[s.phase.zone], s.phase.batch;
    var d := Device(s.built, path);
    SpacedLater(At, Anything(), s.log, s.clock, 0, done);
    SpacedLater(At, IsTurn, s.log, s.phase.due, c.settleDelay, now);
    SerialsGrow(s.log, s.built, s.built + 1);
    var began := Snoc(s.log, BuildBegan(now, path));
    assert LogOk(c, began) && Open(began) == {} && SerialsBelow(began, s.built);
    var ended := Snoc(began, BuildEnded(done, if ok then Some(d) else None));
    var n := if ok then s.built + 1 else s.built;
    var reply := if ok then Granted(d) else BringUpFailed;
    LogReplies(c, ended, done, batch, reply, n);
    SpacedReplies(Anything(), ended, done, batch, reply, done, 0);
    if !ok {
      InvSwitch(c, State(Down, s.waiting, done, s.built, Replies(ended, done, batch, reply)), done);
    }
  }

  lemma {:induction false} InvCancel(c: Config, s: State, now: int, closed: int, order: seq<Zone>)
    requires ValidConfig(c) && Inv(c, s) && Enabled(c, s, Cancel(now, closed, order))
    ensures var t := OnCancel(s, now, closed, order); Timing(c, t) && Opened(t) && LogOk(c, t.log)
  {
    var batch := if s.phase.Settling? then s.phase.batch else [];
    SpacedLater(At, Anything(), s.log, s.clock, 0, now);
    var l := Replies(s.log, now, batch, Cancelled);
    LogReplies(c, s.log, now, batch, Cancelled, s.built);
    SpacedReplies(Anything(), s.log, now, batch, Cancelled, now, 0);
    LogCancels(c, l, now, s.waiting, order, s.built);
    SpacedLater(At, Anything(), CancelAll(l, now, s.waiting, order), now, 0, closed);
  }

  lemma {:induction false} StepInv(c: Config, s: State, e: Event)
    requires ValidConfig(c) && Inv(c, s) && Enabled(c, s, e)
    ensures Inv(c, Step(c, s, e))
  {
    StepShape(c, s, e);
    match e
    case Arrive(now, req) => InvArrive(c, s, now, req);
    case SettleFires(now, ok, done) => InvSettled(c, s, now, ok, done);
    case Release(now) => InvRelease(c, s, now);
    case GraceFires(now, closed) =>
      InvClose(c, s, now, closed, Switched);
      InvSwitch(c, OnClose(s, closed, Switched), closed);
    case IdleFires(now, closed) => InvClose(c, s, now, closed, IdledOut);
    case Cancel(now, closed, order) => InvCancel(c, s, now, closed, order);
  }

  lemma {:induction false} RunInv(c: Config, s: State, es: seq<Event>)
    requires ValidConfig(c) && Inv(c, s) && Feasible(c, s, es)
    ensures Inv(c, Run(c, s, es))
    decreases |es|
  {
    if es != [] {
      StepInv(c, s, es[0]);
      RunInv(c, Step(c, s, es[0]), es[1..]);
    }
  }

  /** Break before make with settle, warm time and grace, and right device: every
      build starts with no open device and at least settleDelay after every
      earlier close and build attempt; a device is closed only while it is the
      only open one, no sooner than its timer allows; a grant carries the open
      device, built from the path of the request's own zone. A stopped run has
      closed every device. */
  lemma {:induction false} BreakBeforeMake(c: Config, start: int, es: seq<Event>)
    requires ValidConfig(c) && Feasible(c, Init(start), es)
    ensures var s := Run(c, Init(start), es);
            LogOk(c, s.log) && (s.phase.Stopped? ==> Open(s.log) == {})
  {
    RunInv(c, Init(start), es);
  }

  // Every request is answered once, in order

  /** The requests of zone z that the loop has taken and not answered. */
  function Held(s: State, z: Zone): seq<Request> {
    if s.phase.Settling? && s.phase.zone == z then s.phase.batch else QueueFor(s.waiting, z)
  }

  /** For each zone, what was dequeued is what was answered followed by what is held. */
  predicate Books(s: State, z: Zone) {
    Pick(DequeuedIn(z), s.log) == Pick(RepliedIn(z), s.log) + Held(s, z)
  }

  lemma {:induction false} QueueForAbsent(ws: seq<Queue>, z: Zone)
    requires Absent(z, ws)
    ensures QueueFor(ws, z) == []
    decreases |ws|
  {
    if ws != [] { QueueForAbsent(ws[1..], z); }
  }

  lemma {:induction false} QueueForEnqueue(ws: seq<Queue>, req: Request, z: Zone)
    ensures QueueFor(Enqueue(ws, req), z) == QueueFor(ws, z) + (if req.zone == z then [req] else [])
    decreases |ws|
  {
    if ws != [] && ws[0].zone != req.zone {
      QueueForEnqueue(ws[1..], req, z);
    }
  }

  lemma {:induction false} QueueForZone(c: Config, ws: seq<Queue>, z: Zone)
    requires WellQueued(c, ws)
    ensures forall i | 0 <= i < |QueueFor(ws, z)| :: QueueFor(ws, z)[i].zone == z
    decreases |ws|
  {
    if ws != [] { QueueForZone(c, ws[1..], z); }
  }

  lemma {:induction false} PickReply(z: Zone, log: Log<Entry>, at: int, req: Request, reply: Reply)
    ensures var l := Snoc(log, Replied(at, req, reply));
            && Pick(RepliedIn(z), l) == Pick(RepliedIn(z), log) + (if req.zone == z then [req] else [])
            && Pick(DequeuedIn(z), l) == Pick(DequeuedIn(z), log)
  {
  }

  /** Replies to one zone's requests are exactly that zone's answers. */
  lemma {:induction false} PickReplies(z: Zone, log: Log<Entry>, at: int, reqs: seq<Request>, reply: Reply, home: Zone)
    requires forall i | 0 <= i < |reqs| :: reqs[i].zone == home
    ensures Pick(RepliedIn(z), Replies(log, at, reqs, reply)) ==
            Pick(RepliedIn(z), log) + if z == home then reqs else []
    ensures Pick(DequeuedIn(z), Replies(log, at, reqs, reply)) == Pick(DequeuedIn(z), log)
    decreases |reqs|
  {
    if reqs != [] {
      var k := |reqs| - 1;
      PickReplies(z, log, at, reqs[..k], reply, home);
      PickReply(z, Replies(log, at, reqs[..k], reply), at, reqs[k], reply);
      assert reqs[..k] + [reqs[k]] == reqs;
    }
  }

  lemma {:induction false} PickCancels(c: Config, z: Zone, log: Log<Entry>, at: int, ws: seq<Queue>, order: seq<Zone>)
    requires WellQueued(c, ws)
    requires forall i, j | 0 <= i < j < |order| :: order[i] != order[j]
    ensures Pick(RepliedIn(z), CancelAll(log, at, ws, order)) ==
              Pick(RepliedIn(z), log) + if z in order then QueueFor(ws, z) else []
    ensures Pick(DequeuedIn(z), CancelAll(log, at, ws, order)) == Pick(DequeuedIn(z), log)
    decreases |order|
  {
    if order != [] {
      var k := |order| - 1;
      var home, l := order[k], CancelAll(log, at, ws, order[..k]);
      QueueForZone(c, ws, home);
      PickCancels(c, z, log, at, ws, order[..k]);
      PickReplies(z, l, at, QueueFor(ws, home), Cancelled, home);
      assert z in order <==> z == home || z in order[..k];
      if z == home {
        assert z !in order[..k];
      }
    }
  }

  /** A request that is not granted at once is held, last of its zone. */
  lemma {:induction false} HeldArrive(c: Config, s: State, now: int, req: Request, z: Zone)
    requires !s.phase.Stopped? && (s.phase.Live? ==> s.phase.zone != req.zone) && (s.phase.Down? ==> s.waiting == [])
    ensures var t := OnArrive(c, s, now, req);
            && Held(t, z) == Held(s, z) + (if req.zone == z then [req] else [])
            && Pick(DequeuedIn(z), t.log) == Pick(DequeuedIn(z), s.log) + (if req.zone == z then [req] else [])
            && Pick(RepliedIn(z), t.log) == Pick(RepliedIn(z), s.log)
  {
    if s.phase.Live? || (s.phase.Settling? && s.phase.zone != req.zone) { QueueForEnqueue(s.waiting, req, z); }
  }

  lemma {:induction false} GrantedArrive(c: Config, s: State, now: int, req: Request, z: Zone)
    requires s.phase.Live? && s.phase.zone == req.zone
    ensures var t := OnArrive(c, s, now, req);
            && Held(t, z) == Held(s, z)
            && Pick(DequeuedIn(z), t.log) == Pick(DequeuedIn(z), s.log) + (if req.zone == z then [req] else [])
            && Pick(RepliedIn(z), t.log) == Pick(RepliedIn(z), s.log) + (if req.zone == z then [req] else [])
  {
  }

  lemma {:induction false} BooksArrive(c: Config, s: State, now: int, req: Request, z: Zone)
    requires Books(s, z) && !s.phase.Stopped?
    requires s.phase.Down? ==> s.waiting == []
    requires s.phase.Live? ==> Absent(s.phase.zone, s.waiting)
    ensures Books(OnArrive(c, s, now, req), z)
  {
    if s.phase.Live? && s.phase.zone == req.zone {
      QueueForAbsent(s.waiting, s.phase.zone);
      GrantedArrive(c, s, now, req, z);
    } else {
      HeldArrive(c, s, now, req, z);
    }
  }

  /** A switch moves the oldest queue into the batch and answers nothing. */
  lemma {:induction false} SwitchHolds(c: Config, s: State, at: int, z: Zone)
    requires WellQueued(c, s.waiting) && !s.phase.Settling?
    ensures var t := SwitchNext(c, s, at);
            && Held(t, z) == Held(s, z)
            && Pick(DequeuedIn(z), t.log) == Pick(DequeuedIn(z), s.log)
            && Pick(RepliedIn(z), t.log) == Pick(RepliedIn(z), s.log)
  {
    if s.waiting != [] {
      QueueForAbsent(s.waiting[1..], s.waiting[0].zone);
    }
  }

  lemma {:induction false} BooksSwitch(c: Config, s: State, at: int, z: Zone)
    requires WellQueued(c, s.waiting) && !s.phase.Settling? && Books(s, z)
    ensures Books(SwitchNext(c, s, at), z)
  {
    SwitchHolds(c, s, at, z);
  }

  /** Answering the whole batch leaves what waits. */
  lemma {:induction false} BooksAnswered(
    c: Config, s: State, log: Log<Entry>, at: int, reply: Reply, t: State, z: Zone)
    requires s.phase.Settling? && ForZone(c, s.phase.zone, s.phase.batch) && Absent(s.phase.zone, s.waiting)
               && Books(s, z)
    requires Pick(DequeuedIn(z), log) == Pick(DequeuedIn(z), s.log)
    requires Pick(RepliedIn(z), log) == Pick(RepliedIn(z), s.log)
    requires !t.phase.Settling? && t.waiting == s.waiting && t.log == Replies(log, at, s.phase.batch, reply)
    ensures Books(t, z)
  {
    var home := s.phase.zone;
    PickReplies(z, log, at, s.phase.batch, reply, home);
    QueueForAbsent(s.waiting, home);
  }

  lemma {:induction false} BooksSettled(c: Config, s: State, now: int, ok: bool, done: int, z: Zone)
    requires Shape(c, s) && Books(s, z) && Enabled(c, s, SettleFires(now, ok, done))
    ensures Books(OnSettled(c, s, now, ok, done), z)
  {
    var path, batch := c.eligible[s.phase.zone], s.phase.batch;
    var d := Device(s.built, path);
    var reply := if ok then Granted(d) else BringUpFailed;
    var ended := Snoc(Snoc(s.log, BuildBegan(now, path)), BuildEnded(done, if ok then Some(d) else None));
    var t := State(Down, s.waiting, done, s.built, Replies(ended, done, batch, reply));
    assert Pick(DequeuedIn(z), ended) == Pick(DequeuedIn(z), s.log);
    assert Pick(RepliedIn(z), ended) == Pick(RepliedIn(z), s.log);
    BooksAnswered(c, s, ended, done, reply, t, z);
    if !ok { BooksSwitch(c, t, done, z); }
  }

  /** Shutdown answers everything held. */
  lemma {:induction false} CancelPicks(c: Config, s: State, now: int, order: seq<Zone>, z: Zone)
    requires WellQueued(c, s.waiting)
    requires forall i, j | 0 <= i < j < |order| :: order[i] != order[j]
    requires z !in order ==> Absent(z, s.waiting)
    requires s.phase.Settling? ==> ForZone(c, s.phase.zone, s.phase.batch) && Absent(s.phase.zone, s.waiting)
    ensures var batch := if s.phase.Settling? then s.phase.batch else [];
            var m := CancelAll(Replies(s.log, now, batch, Cancelled), now, s.waiting, order);
            && Pick(DequeuedIn(z), m) == Pick(DequeuedIn(z), s.log)
            && Pick(RepliedIn(z), m) == Pick(RepliedIn(z), s.log) + Held(s, z)
  {
    var batch := if s.phase.Settling? then s.phase.batch else [];
    PickReplies(z, s.log, now, batch, Cancelled, if s.phase.Settling? then s.phase.zone else z);
    PickCancels(c, z, Replies(s.log, now, batch, Cancelled), now, s.waiting, order);
    if z !in order || (s.phase.Settling? && s.phase.zone == z) {
      QueueForAbsent(s.waiting, z);
    }
  }

  lemma {:induction false} BooksCancel(c: Config, s: State, now: int, closed: int, order: seq<Zone>, z: Zone)
    requires Books(s, z) && WellQueued(c, s.waiting)
    requires forall i, j | 0 <= i < j < |order| :: order[i] != order[j]
    requires z !in order ==> Absent(z, s.waiting)
    requires s.phase.Settling? ==> ForZone(c, s.phase.zone, s.phase.batch) && Absent(s.phase.zone, s.waiting)
    ensures Books(OnCancel(s, now, closed, order), z)
  {
    CancelPicks(c, s, now, order, z);
  }

  lemma {:induction false} StepBooks(c: Config, s: State, e: Event, z: Zone)
    requires Shape(c, s) && Books(s, z) && Enabled(c, s, e)
    ensures Books(Step(c, s, e), z)
  {
    match e
    case Arrive(now, req) => BooksArrive(c, s, now, req, z);
    case SettleFires(now, ok, done) => BooksSettled(c, s, now, ok, done, z);
    case GraceFires(_, closed) => BooksSwitch(c, OnClose(s, closed, Switched), closed, z);
    case Cancel(now, closed, order) => BooksCancel(c, s, now, closed, order, z);
    case _ =>
  }

  lemma {:induction false} RunBooks(c: Config, s: State, es: seq<Event>, z: Zone)
    requires Shape(c, s) && Feasible(c, s, es) && Books(s, z)
    ensures Books(Run(c, s, es), z)
    decreases |es|
  {
    if es != [] {
      StepBooks(c, s, es[0], z);
      StepShape(c, s, es[0]);
      RunBooks(c, Step(c, s, es[0]), es[1..], z);
    }
  }

  /** In every run and for every zone, the requests answered are a prefix of the
      requests dequeued, in the same order; once the loop has stopped they are
      all of them. So each dequeued request gets exactly one reply, in turn. */
  lemma {:induction false} AnsweredOnceInOrder(c: Config, start: int, es: seq<Event>, z: Zone)
    requires Feasible(c, Init(start), es)
    ensures var s := Run(c, Init(start), es);
            && Pick(DequeuedIn(z), s.log) == Pick(RepliedIn(z), s.log) + Held(s, z)
            && (s.phase.Stopped? ==> Pick(RepliedIn(z), s.log) == Pick(DequeuedIn(z), s.log))
  {
    RunBooks(c, Init(start), es, z);
  }

  /** No lost wakeup: whenever the loop waits with a request it has not answered,
      the settle or the grace timer is armed or a job is active. */
  lemma {:induction false} NoLostWakeup(c: Config, start: int, es: seq<Event>, z: Zone)
    requires Feasible(c, Init(start), es)
    requires var s := Run(c, Init(start), es); Pick(RepliedIn(z), s.log) != Pick(DequeuedIn(z), s.log)
    ensures var p := Run(c, Init(start), es).phase;
            p.Settling? || (p.Live? && (p.use.Grace? || (p.use.Serving? && p.use.jobs > 0)))
  {
    RunBooks(c, Init(start), es, z);
  }

  // No device is torn down under an unreleased grant

  function Jobs(s: State): nat {
    if s.phase.Live? && s.phase.use.Serving? then s.phase.use.jobs else 0
  }

  predicate Balanced(s: State) {
    Count(IsGrant, s.log) == Count(IsRelease, s.log) + Jobs(s)
  }

  /** Callers release each grant at most once, so releases never outnumber grants. */
  predicate Honest(c: Config, s: State, es: seq<Event>)
    requires Shape(c, s) && Feasible(c, s, es)
    decreases |es|
  {
    es == [] || (
      && (es[0].Release? ==> Count(IsRelease, s.log) < Count(IsGrant, s.log))
      && (StepShape(c, s, es[0]); Honest(c, Step(c, s, es[0]), es[1..])))
  }

  /** Every close outside shutdown happens with all grants released. */
  predicate ClosesIdle(log: Log<Entry>) {
    match log
    case Empty => true
    case Snoc(prev, e) =>
      ClosesIdle(prev) && (e.Closed? && !e.reason.Shutdown? ==> Count(IsGrant, prev) == Count(IsRelease, prev))
  }

  lemma {:induction false} CountReplies(log: Log<Entry>, at: int, reqs: seq<Request>, reply: Reply)
    requires ClosesIdle(log)
    ensures var l := Replies(log, at, reqs, reply);
            && Count(IsGrant, l) == Count(IsGrant, log) + (if reply.Granted? then |reqs| else 0)
            && Count(IsRelease, l) == Count(IsRelease, log)
            && Count(IsAttempt, l) == Count(IsAttempt, log)
            && Pick(SwitchZone, l) == Pick(SwitchZone, log)
            && ClosesIdle(l)
    decreases |reqs|
  {
    if reqs != [] { CountReplies(log, at, reqs[..|reqs| - 1], reply); }
  }

  lemma {:induction false} CountCancels(log: Log<Entry>, at: int, ws: seq<Queue>, order: seq<Zone>)
    requires ClosesIdle(log)
    ensures var l := CancelAll(log, at, ws, order);
            Count(IsGrant, l) == Count(IsGrant, log) && Count(IsRelease, l) == Count(IsRelease, log) && ClosesIdle(l)
    decreases |order|
  {
    if order != [] {
      var k := |order| - 1;
      CountCancels(log, at, ws, order[..k]);
      CountReplies(CancelAll(log, at, ws, order[..k]), at, QueueFor(ws, order[k]), Cancelled);
    }
  }

  lemma {:induction false} StepBalanced(c: Config, s: State, e: Event)
    requires Shape(c, s) && Enabled(c, s, e) && Balanced(s) && ClosesIdle(s.log)
    requires e.Release? ==> Count(IsRelease, s.log) < Count(IsGrant, s.log)
    ensures ClosesIdle(Step(c, s, e).log)
    ensures e.Cancel? || Balanced(Step(c, s, e))
  {
    match e
    case Arrive(now, req) =>
      var l := Snoc(s.log, Dequeued(now, req));
      assert Count(IsGrant, l) == Count(IsGrant, s.log) && Count(IsRelease, l) == Count(IsRelease, s.log);
    case Release(_) =>
    case GraceFires(_, closed) =>
      var l := Snoc(s.log, Closed(closed, s.phase.device, Switched));
      assert Count(IsGrant, l) == Count(IsGrant, s.log) && Count(IsRelease, l) == Count(IsRelease, s.log);
    case IdleFires(_, _) =>
    case SettleFires(now, ok, done) => SettledBalanced(c, s, now, ok, done);
    case Cancel(now, _, order) =>
      var batch := if s.phase.Settling? then s.phase.batch else [];
      CountReplies(s.log, now, batch, Cancelled);
      CountCancels(Replies(s.log, now, batch, Cancelled), now, s.waiting, order);
  }

  lemma {:induction false} SettledBalanced(c: Config, s: State, now: int, ok: bool, done: int)
    requires s.phase.Settling? && s.phase.zone in c.eligible && Balanced(s) && ClosesIdle(s.log)
    ensures Balanced(OnSettled(c, s, now, ok, done)) && ClosesIdle(OnSettled(c, s, now, ok, done).log)
  {
    var path := c.eligible[s.phase.zone];
    var d := Device(s.built, path);
    CountReplies(Snoc(Snoc(s.log, BuildBegan(now, path)), BuildEnded(done, if ok then Some(d) else None)),
                 done, s.phase.batch, if ok then Granted(d) else BringUpFailed);
  }

  /** In every run whose callers release each grant at most once, no device is
      closed with an unreleased grant except on shutdown, and the job counter is
      exactly grants minus releases until then. */
  lemma {:induction false} NoTeardownUnderGrant(c: Config, s: State, es: seq<Event>)
    requires Shape(c, s) && Balanced(s) && ClosesIdle(s.log)
    requires Feasible(c, s, es) && Honest(c, s, es)
    ensures var t := Run(c, s, es); ClosesIdle(t.log) && (t.phase.Stopped? || Balanced(t))
    decreases |es|
  {
    if es != [] {
      StepBalanced(c, s, es[0]);
      StepShape(c, s, es[0]);
      var t := Step(c, s, es[0]);
      if es[0].Cancel? {
        assert es[1..] == [];
      } else {
        NoTeardownUnderGrant(c, t, es[1..]);
      }
    }
  }

  // Zone fairness

  lemma {:induction false} CancelSwitches(log: Log<Entry>, at: int, ws: seq<Queue>, order: seq<Zone>)
    ensures Pick(SwitchZone, CancelAll(log, at, ws, order)) == Pick(SwitchZone, log)
    decreases |order|
  {
    if order != [] {
      var k := |order| - 1;
      CancelSwitches(log, at, ws, order[..k]);
      ReplySwitches(CancelAll(log, at, ws, order[..k]), at, QueueFor(ws, order[k]), Cancelled);
    }
  }

  lemma {:induction false} ReplySwitches(log: Log<Entry>, at: int, reqs: seq<Request>, reply: Reply)
    ensures Pick(SwitchZone, Replies(log, at, reqs, reply)) == Pick(SwitchZone, log)
    ensures Count(IsAttempt, Replies(log, at, reqs, reply)) == Count(IsAttempt, log)
    decreases |reqs|
  {
    if reqs != [] { ReplySwitches(log, at, reqs[..|reqs| - 1], reply); }
  }

  /** From s to t the switches in `started` began: none, or one to the oldest
      waiting zone; zones join the queue only at the back. */
  predicate Starts(s: State, t: State, started: seq<Zone>) {
    && Pick(SwitchZone, t.log) == Pick(SwitchZone, s.log) + started
    && (t.phase.Stopped? ==> started == [])
    && (started == [] && !t.phase.Stopped? ==> Zones(s.waiting) <= Zones(t.waiting))
    && (started != [] ==> |started| == 1)
    && (started != [] && s.waiting != [] ==> Zones(s.waiting) == started + Zones(t.waiting))
  }

  lemma {:induction false} ArriveStarts(c: Config, s: State, now: int, req: Request) returns (started: seq<Zone>)
    requires !s.phase.Stopped? && (s.phase.Down? ==> s.waiting == [])
    ensures Starts(s, OnArrive(c, s, now, req), started)
  {
    var k := EnqueueAt(s.waiting, req);
    started := if s.phase.Down? then [req.zone] else [];
  }

  lemma {:induction false} SettledStarts(
    c: Config, s: State, now: int, ok: bool, done: int) returns (started: seq<Zone>)
    requires s.phase.Settling? && s.phase.zone in c.eligible
    ensures Starts(s, OnSettled(c, s, now, ok, done), started)
  {
    var path := c.eligible[s.phase.zone];
    var d := Device(s.built, path);
    ReplySwitches(Snoc(Snoc(s.log, BuildBegan(now, path)), BuildEnded(done, if ok then Some(d) else None)),
                  done, s.phase.batch, if ok then Granted(d) else BringUpFailed);
    started := if !ok && s.waiting != [] then [s.waiting[0].zone] else [];
  }

  lemma {:induction false} StepSwitches(c: Config, s: State, e: Event) returns (started: seq<Zone>)
    requires Shape(c, s) && Enabled(c, s, e)
    ensures Starts(s, Step(c, s, e), started)
  {
    started := [];
    match e
    case Arrive(now, req) => started := ArriveStarts(c, s, now, req);
    case SettleFires(now, ok, done) => started := SettledStarts(c, s, now, ok, done);
    case GraceFires(_, _) => started := [s.waiting[0].zone];
    case Cancel(now, _, order) =>
      var batch := if s.phase.Settling? then s.phase.batch else [];
      ReplySwitches(s.log, now, batch, Cancelled);
      CancelSwitches(Replies(s.log, now, batch, Cancelled), now, s.waiting, order);
    case _ =>
  }

  /** The zones started agree with the waiting zones w as far as both go; those not
      started yet are still waiting, in front. */
  predicate InTurn(w: seq<Zone>, started: seq<Zone>, end: State) {
    && (started <= w || w <= started)
    && (|started| < |w| && !end.phase.Stopped? ==> w[|started|..] <= Zones(end.waiting))
  }

  lemma {:induction false} InTurnStep(w: seq<Zone>, first: seq<Zone>, w1: seq<Zone>, rest: seq<Zone>, end: State)
    requires first == [] ==> w <= w1
    requires first != [] && w != [] ==> w == first + w1
    requires first != [] ==> |first| == 1
    requires InTurn(w1, rest, end)
    ensures InTurn(w, first + rest, end)
  {
    if first == [] {
      assert first + rest == rest;
    }
  }

  lemma {:induction false} InTurnFrom(s: State, t: State, first: seq<Zone>, rest: seq<Zone>, end: State)
    requires Starts(s, t, first) && !t.phase.Stopped?
    requires Pick(SwitchZone, end.log) == Pick(SwitchZone, t.log) + rest && InTurn(Zones(t.waiting), rest, end)
    ensures Pick(SwitchZone, end.log) == Pick(SwitchZone, s.log) + (first + rest)
    ensures InTurn(Zones(s.waiting), first + rest, end)
  {
    InTurnStep(Zones(s.waiting), first, Zones(t.waiting), rest, end);
  }

  /** Zone fairness: from any state, the switches of any continuation begin with
      the waiting zones in their order — the zone at index k is started as
      exactly the (k+1)-th next switch, and no later zone overtakes it. */
  lemma {:induction false} ZonesInTurn(c: Config, s: State, es: seq<Event>) returns (started: seq<Zone>)
    requires Shape(c, s) && Feasible(c, s, es)
    ensures Pick(SwitchZone, Run(c, s, es).log) == Pick(SwitchZone, s.log) + started
    ensures InTurn(Zones(s.waiting), started, Run(c, s, es))
    decreases |es|
  {
    started := [];
    if es != [] {
      var first := StepSwitches(c, s, es[0]);
      StepShape(c, s, es[0]);
      var t := Step(c, s, es[0]);
      if t.phase.Stopped? {
        assert es[1..] == [];
      } else {
        var rest := ZonesInTurn(c, t, es[1..]);
        started := first + rest;
        InTurnFrom(s, t, first, rest, Run(c, t, es[1..]));
      }
    }
  }

  // Bounded waiting

  predicate Answered(log: Log<Entry>, req: Request) {
    match log
    case Empty => false
    case Snoc(prev, e) => Answered(prev, req) || (e.Replied? && e.req == req)
  }

  lemma {:induction false} AnsweredReplies(log: Log<Entry>, at: int, reqs: seq<Request>, reply: Reply, req: Request)
    ensures Answered(Replies(log, at, reqs, reply), req) == (Answered(log, req) || req in reqs)
    decreases |reqs|
  {
    if reqs != [] {
      var k := |reqs| - 1;
      AnsweredReplies(log, at, reqs[..k], reply, req);
      assert reqs == reqs[..k] + [reqs[k]];
    }
  }

  lemma {:induction false} AnsweredCancels(log: Log<Entry>, at: int, ws: seq<Queue>, order: seq<Zone>, req: Request)
    ensures Answered(log, req) ==> Answered(CancelAll(log, at, ws, order), req)
    ensures (exists z | z in order :: req in QueueFor(ws, z)) ==> Answered(CancelAll(log, at, ws, order), req)
    decreases |order|
  {
    if order != [] {
      var k := |order| - 1;
      AnsweredCancels(log, at, ws, order[..k], req);
      AnsweredReplies(CancelAll(log, at, ws, order[..k]), at, QueueFor(ws, order[k]), Cancelled, req);
      assert order == order[..k] + [order[k]];
    }
  }

  /** Where an unanswered request stands: behind k waiting zones, or in the batch
      of the switch in flight. */
  predicate Stands(s: State, req: Request, k: int) {
    if k == -1 then s.phase.Settling? && req in s.phase.batch
    else 0 <= k < |s.waiting| && req in s.waiting[k].reqs
  }

  /** How many bring-up attempts may still end before the request is answered. */
  function Attempts(s: State, k: int): int {
    k + 1 + if s.phase.Settling? then 1 else 0
  }

  lemma {:induction false} QueueForAt(c: Config, ws: seq<Queue>, k: nat)
    requires WellQueued(c, ws) && k < |ws|
    ensures QueueFor(ws, ws[k].zone) == ws[k].reqs
    decreases k
  {
    if k > 0 { QueueForAt(c, ws[1..], k - 1); }
  }

  /** One event answers the request, or moves it no further back and uses up every
      attempt that ends. */
  lemma {:induction false} StepWaiting(c: Config, s: State, e: Event, req: Request, k: int) returns (j: int)
    requires Shape(c, s) && Enabled(c, s, e) && Stands(s, req, k)
    ensures var t := Step(c, s, e);
            Answered(t.log, req) ||
            (Stands(t, req, j) && Attempts(t, j) + Count(IsAttempt, t.log) <= Attempts(s, k) + Count(IsAttempt, s.log))
  {
    j := k;
    match e
    case Arrive(_, r) => var _ := EnqueueAt(s.waiting, r);
    case SettleFires(now, ok, done) =>
      var path := c.eligible[s.phase.zone];
      var d := Device(s.built, path);
      var ended := Snoc(Snoc(s.log, BuildBegan(now, path)), BuildEnded(done, if ok then Some(d) else None));
      var reply := if ok then Granted(d) else BringUpFailed;
      AnsweredReplies(ended, done, s.phase.batch, reply, req);
      ReplySwitches(ended, done, s.phase.batch, reply);
      if !ok { j := k - 1; }
    case GraceFires(_, _) => j := k - 1;
    case Cancel(now, _, order) =>
      var batch := if s.phase.Settling? then s.phase.batch else [];
      AnsweredReplies(s.log, now, batch, Cancelled, req);
      AnsweredCancels(Replies(s.log, now, batch, Cancelled), now, s.waiting, order, req);
      if k >= 0 { QueueForAt(c, s.waiting, k); }
    case _ =>
  }

  lemma {:induction false} StepAnswered(c: Config, s: State, e: Event, req: Request)
    requires Shape(c, s) && Enabled(c, s, e) && Answered(s.log, req)
    ensures Answered(Step(c, s, e).log, req)
  {
    match e
    case SettleFires(now, ok, done) =>
      var path := c.eligible[s.phase.zone];
      var d := Device(s.built, path);
      AnsweredReplies(Snoc(Snoc(s.log, BuildBegan(now, path)), BuildEnded(done, if ok then Some(d) else None)),
                      done, s.phase.batch, if ok then Granted(d) else BringUpFailed, req);
    case Cancel(now, _, order) =>
      var batch := if s.phase.Settling? then s.phase.batch else [];
      AnsweredReplies(s.log, now, batch, Cancelled, req);
      AnsweredCancels(Replies(s.log, now, batch, Cancelled), now, s.waiting, order, req);
    case _ =>
  }

  lemma {:induction false} RunAnswered(c: Config, s: State, es: seq<Event>, req: Request)
    requires Shape(c, s) && Feasible(c, s, es) && Answered(s.log, req)
    ensures Answered(Run(c, s, es).log, req)
    decreases |es|
  {
    if es != [] {
      StepAnswered(c, s, es[0], req);
      StepShape(c, s, es[0]);
      RunAnswered(c, Step(c, s, es[0]), es[1..], req);
    }
  }

  /** Bounded waiting: in any continuation, a request standing behind k waiting
      zones has been answered by the time k + 1 further bring-up attempts have
      ended, one more if a switch was already in flight. */
  lemma {:induction false} BoundedWaiting(c: Config, s: State, es: seq<Event>, req: Request, k: int)
    requires Shape(c, s) && Feasible(c, s, es) && Stands(s, req, k)
    requires Count(IsAttempt, Run(c, s, es).log) - Count(IsAttempt, s.log) >= Attempts(s, k)
    ensures Answered(Run(c, s, es).log, req)
    decreases |es|
  {
    if es != [] {
      var j := StepWaiting(c, s, es[0], req, k);
      StepShape(c, s, es[0]);
      var t := Step(c, s, es[0]);
      if Answered(t.log, req) {
        RunAnswered(c, t, es[1..], req);
      } else {
        BoundedWaiting(c, t, es[1..], req, j);
      }
    }
  }
}
