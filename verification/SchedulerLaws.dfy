/** What each event of the on-demand scheduler does, when its timers are due, and that
    whatever it has queued it can still serve: stated on the log and the phase. */
module SchedulerLaws {
  import opened Logs
  import opened SchedulerSpec
  import opened SchedulerTheorems

  // What an event adds to the log

  function Answer(e: Entry): seq<(int, Request, Reply)> { if e.Replied? then [(e.at, e.req, e.reply)] else [] }

  function Begin(e: Entry): seq<(int, Zone)> { if e.SwitchBegan? then [(e.at, e.zone)] else [] }

  function BuildStart(e: Entry): seq<(int, Path)> { if e.BuildBegan? then [(e.at, e.path)] else [] }

  function BuildResult(e: Entry): seq<(int, Option<Device>)> { if e.BuildEnded? then [(e.at, e.result)] else [] }

  function Close(e: Entry): seq<(int, Device, Reason)> { if e.Closed? then [(e.at, e.device, e.reason)] else [] }

  function Each(at: int, reqs: seq<Request>, reply: Reply): seq<(int, Request, Reply)> {
    seq(|reqs|, i requires 0 <= i < |reqs| => (at, reqs[i], reply))
  }

  function EachQueue(at: int, ws: seq<Queue>, order: seq<Zone>): seq<(int, Request, Reply)> {
    if order == [] then []
    else EachQueue(at, ws, order[..|order| - 1]) + Each(at, QueueFor(ws, order[|order| - 1]), Cancelled)
  }

  /** Answers, switches begun, builds begun and ended, and closes, each in order with its
      time. */
  datatype Trace = Trace(
    answers: seq<(int, Request, Reply)>,
    switches: seq<(int, Zone)>,
    builds: seq<(int, Path)>,
    results: seq<(int, Option<Device>)>,
    closes: seq<(int, Device, Reason)>)

  function TraceOf(log: Log<Entry>): Trace {
    Trace(Pick(Answer, log), Pick(Begin, log), Pick(BuildStart, log), Pick(BuildResult, log), Pick(Close, log))
  }

  function Plus(a: Trace, b: Trace): Trace {
    Trace(a.answers + b.answers, a.switches + b.switches, a.builds + b.builds, a.results + b.results, a.closes +
      b.closes)
  }

  const NOTHING := Trace([], [], [], [], [])

  function Answers(xs: seq<(int, Request, Reply)>): Trace { NOTHING.(answers := xs) }

  function Begins(zs: seq<(int, Zone)>): Trace { NOTHING.(switches := zs) }

  function Closes(at: int, d: Device, reason: Reason): Trace { NOTHING.(closes := [(at, d, reason)]) }

  /** Exactly this was added to the log. */
  predicate Adds(before: Log<Entry>, after: Log<Entry>, added: Trace) {
    TraceOf(after) == Plus(TraceOf(before), added)
  }

  predicate SameDevice(s: State, t: State) {
    && Open(t.log) == Open(s.log) && t.phase.Live? == s.phase.Live?
    && (s.phase.Live? ==> t.phase.zone == s.phase.zone && t.phase.device == s.phase.device)
  }

  /** The oldest waiting zone's turn has come: its requests are the batch now. */
  predicate Switches(s: State, t: State) {
    if s.waiting == [] then t.phase.Down? && t.waiting == []
    else
      && t.phase.Settling? && t.phase.zone == s.waiting[0].zone && t.phase.batch == s.waiting[0].reqs
      && t.waiting == s.waiting[1..]
  }

  function Oldest(s: State, at: int): seq<(int, Zone)> { if s.waiting == [] then [] else [(at, s.waiting[0].zone)] }

  /** What an observer sees of one event. */
  predicate Observed(c: Config, s: State, e: Event, t: State) {
    match e
    case Arrive(now, req) =>
      if s.phase.Live? && s.phase.zone == req.zone then
        && Adds(s.log, t.log, Answers([(now, req, Granted(s.phase.device))])) && SameDevice(s, t)
        && t.phase.use == Serving(Jobs(s) + 1) && t.waiting == s.waiting
      else
        && Adds(s.log, t.log, Begins(if s.phase.Down? then [(now, req.zone)] else [])) && SameDevice(s, t)
        && (s.phase.Down? ==> t.phase.Settling? && t.phase.zone == req.zone && t.phase.batch == [req])
        && Held(t, req.zone) == Held(s, req.zone) + [req]
    case SettleFires(now, ok, done) =>
      s.phase.Settling? && s.phase.zone in c.eligible &&
      var zone, batch, path := s.phase.zone, s.phase.batch, c.eligible[s.phase.zone];
      if ok then
        && t.phase.Live? && t.phase.zone == zone && t.phase.device.path == path && Open(t.log) == {t.phase.device}
        && SerialsBelow(s.log, t.phase.device.serial)
        && t.phase.use == Serving(|batch|) && t.waiting == s.waiting
        && Adds(s.log, t.log,
           Trace(Each(done, batch, Granted(t.phase.device)), [], [(now, path)], [(done, Some(t.phase.device))], []))
      else
        && Open(t.log) == {} && Switches(s, t)
        && Adds(s.log, t.log,
           Trace(Each(done, batch, BringUpFailed), Oldest(s, done), [(now, path)], [(done, None)], []))
    case Release(_) =>
      && Adds(s.log, t.log, NOTHING) && SameDevice(s, t) && t.waiting == s.waiting
      && (s.phase.Live? ==> Jobs(t) == if Jobs(s) > 0 then Jobs(s) - 1 else 0)
      && (!s.phase.Live? ==> t.phase == s.phase)
    case GraceFires(_, closed) =>
      && s.phase.Live? && s.waiting != [] && Open(t.log) == {} && Switches(s, t)
      && Adds(s.log, t.log, Plus(Closes(closed, s.phase.device, Switched), Begins(Oldest(s, closed))))
    case IdleFires(_, closed) =>
      && s.phase.Live? && Adds(s.log, t.log, Closes(closed, s.phase.device, IdledOut))
      && Open(t.log) == {} && t.phase.Down? && t.waiting == []
    case Cancel(now, closed, order) =>
      && Open(t.log) == {} && t.phase.Stopped? && t.waiting == []
      && var batch := if s.phase.Settling? then s.phase.batch else [];
         var closes := if s.phase.Live? then Closes(closed, s.phase.device, Shutdown) else NOTHING;
         Adds(s.log, t.log, Plus(Answers(Each(now, batch, Cancelled) + EachQueue(now, s.waiting, order)), closes))
  }

  lemma {:induction false} PlusTwice(a: Trace, b: Trace, c: Trace)
    ensures Plus(Plus(a, b), c) == Plus(a, Plus(b, c))
  {
  }

  lemma {:induction false} AddsThen(l0: Log<Entry>, l1: Log<Entry>, l2: Log<Entry>, a: Trace, b: Trace)
    requires Adds(l0, l1, a) && Adds(l1, l2, b)
    ensures Adds(l0, l2, Plus(a, b))
  {
    PlusTwice(TraceOf(l0), a, b);
  }

  lemma {:induction false} AddsReply(log: Log<Entry>, at: int, req: Request, reply: Reply)
    ensures Adds(log, Snoc(log, Replied(at, req, reply)), Answers([(at, req, reply)]))
  {
  }

  lemma {:induction false} AddsReplies(log: Log<Entry>, at: int, reqs: seq<Request>, reply: Reply)
    ensures Adds(log, Replies(log, at, reqs, reply), Answers(Each(at, reqs, reply)))
    ensures Open(Replies(log, at, reqs, reply)) == Open(log)
    decreases |reqs|
  {
    if reqs != [] {
      var k := |reqs| - 1;
      var l := Replies(log, at, reqs[..k], reply);
      AddsReplies(log, at, reqs[..k], reply);
      AddsReply(l, at, reqs[k], reply);
      AddsThen(log, l, Snoc(l, Replied(at, reqs[k], reply)), Answers(Each(at, reqs[..k], reply)),
        Answers([(at, reqs[k], reply)]));
      assert Each(at, reqs, reply) == Each(at, reqs[..k], reply) + [(at, reqs[k], reply)];
    }
  }

  lemma {:induction false} AddsCancels(log: Log<Entry>, at: int, ws: seq<Queue>, order: seq<Zone>)
    ensures Adds(log, CancelAll(log, at, ws, order), Answers(EachQueue(at, ws, order)))
    ensures Open(CancelAll(log, at, ws, order)) == Open(log)
    decreases |order|
  {
    if order != [] {
      var k := |order| - 1;
      var l, reqs := CancelAll(log, at, ws, order[..k]), QueueFor(ws, order[k]);
      AddsCancels(log, at, ws, order[..k]);
      AddsReplies(l, at, reqs, Cancelled);
      AddsThen(log, l, Replies(l, at, reqs, Cancelled), Answers(EachQueue(at, ws, order[..k])),
        Answers(Each(at, reqs, Cancelled)));
    }
  }

  lemma {:induction false} DequeueAdds(log: Log<Entry>, now: int, req: Request)
    ensures var l := Snoc(log, Dequeued(now, req));
            && Adds(log, l, NOTHING)
            && Adds(log, Snoc(l, SwitchBegan(now, req.zone)), Begins([(now, req.zone)]))
            && forall reply :: Adds(log, Snoc(l, Replied(now, req, reply)), Answers([(now, req, reply)]))
  {
    var l := Snoc(log, Dequeued(now, req));
    assert Adds(log, l, NOTHING);
    assert Adds(l, Snoc(l, SwitchBegan(now, req.zone)), Begins([(now, req.zone)]));
    AddsThen(log, l, Snoc(l, SwitchBegan(now, req.zone)), NOTHING, Begins([(now, req.zone)]));
    forall reply
      ensures Adds(log, Snoc(l, Replied(now, req, reply)), Answers([(now, req, reply)]))
    {
      AddsReply(l, now, req, reply);
      AddsThen(log, l, Snoc(l, Replied(now, req, reply)), NOTHING, Answers([(now, req, reply)]));
    }
  }

  lemma {:induction false} ArriveObserved(c: Config, s: State, now: int, req: Request)
    requires Shape(c, s) && Enabled(c, s, Arrive(now, req))
    ensures Observed(c, s, Arrive(now, req), OnArrive(c, s, now, req))
  {
    DequeueAdds(s.log, now, req);
    if !(s.phase.Live? && s.phase.zone == req.zone) { HeldArrive(c, s, now, req, req.zone); }
  }

  function Attempt(now: int, path: Path, done: int, result: Option<Device>): Trace {
    NOTHING.(builds := [(now, path)], results := [(done, result)])
  }

  lemma {:induction false} AttemptAdds(log: Log<Entry>, now: int, path: Path, result: Option<Device>, done: int)
    ensures Adds(log, Snoc(Snoc(log, BuildBegan(now, path)), BuildEnded(done, result)),
              Attempt(now, path, done, result))
  {
    var began := Snoc(log, BuildBegan(now, path));
    var a, b := NOTHING.(builds := [(now, path)]), NOTHING.(results := [(done, result)]);
    assert Adds(log, began, a);
    assert Adds(began, Snoc(began, BuildEnded(done, result)), b);
    AddsThen(log, began, Snoc(began, BuildEnded(done, result)), a, b);
  }

  lemma {:induction false} AnsweredAttempt(
    log: Log<Entry>, now: int, path: Path, result: Option<Device>, done: int, batch: seq<Request>, reply: Reply)
    ensures var ended := Snoc(Snoc(log, BuildBegan(now, path)), BuildEnded(done, result));
            && Adds(log, Replies(ended, done, batch, reply),
                    Attempt(now, path, done, result).(answers := Each(done, batch, reply)))
            && Open(Replies(ended, done, batch, reply)) == Open(ended)
  {
    var ended := Snoc(Snoc(log, BuildBegan(now, path)), BuildEnded(done, result));
    AttemptAdds(log, now, path, result, done);
    AddsReplies(ended, done, batch, reply);
    AddsThen(log, ended, Replies(ended, done, batch, reply), Attempt(now, path, done, result),
      Answers(Each(done, batch, reply)));
  }

  lemma {:induction false} SwitchObserved(c: Config, s: State, at: int)
    ensures var t := SwitchNext(c, s, at);
            Adds(s.log, t.log, Begins(Oldest(s, at))) && Open(t.log) == Open(s.log) && Switches(s, t)
  {
  }

  lemma {:induction false} BroughtUp(c: Config, s: State, now: int, done: int)
    requires Shape(c, s) && Opened(s) && s.phase.Settling?
    ensures Observed(c, s, SettleFires(now, true, done), OnSettled(c, s, now, true, done))
  {
    var path := c.eligible[s.phase.zone];
    var d := Device(s.built, path);
    AnsweredAttempt(s.log, now, path, Some(d), done, s.phase.batch, Granted(d));
  }

  lemma {:induction false} GivenUp(c: Config, s: State, now: int, done: int)
    requires Shape(c, s) && Opened(s) && s.phase.Settling?
    ensures Observed(c, s, SettleFires(now, false, done), OnSettled(c, s, now, false, done))
  {
    var path, batch := c.eligible[s.phase.zone], s.phase.batch;
    AnsweredAttempt(s.log, now, path, None, done, batch, BringUpFailed);
    var ended := Snoc(Snoc(s.log, BuildBegan(now, path)), BuildEnded(done, None));
    var failed := s.(log := Replies(ended, done, batch, BringUpFailed));
    SwitchObserved(c, failed, done);
    AddsThen(s.log, failed.log, SwitchNext(c, failed, done).log,
             Attempt(now, path, done, None).(answers := Each(done, batch, BringUpFailed)), Begins(Oldest(s, done)));
  }

  lemma {:induction false} CloseAdds(s: State, closed: int, reason: Reason)
    requires s.phase.Live? && Open(s.log) == {s.phase.device}
    ensures var t := OnClose(s, closed, reason);
            Adds(s.log, t.log, Closes(closed, s.phase.device, reason)) && Open(t.log) == {} && t.phase.Down?
  {
  }

  lemma {:induction false} ReleaseObserved(c: Config, s: State, now: int)
    requires Shape(c, s)
    ensures Observed(c, s, Release(now), OnRelease(c, s, now))
  {
  }

  lemma {:induction false} CloseObserved(c: Config, s: State, e: Event)
    requires Shape(c, s) && Opened(s) && Enabled(c, s, e) && (e.GraceFires? || e.IdleFires?)
    ensures Observed(c, s, e, Step(c, s, e))
  {
    var reason := if e.GraceFires? then Switched else IdledOut;
    var down := OnClose(s, e.closed, reason);
    CloseAdds(s, e.closed, reason);
    if e.GraceFires? {
      SwitchObserved(c, down, e.closed);
      AddsThen(s.log, down.log, SwitchNext(c, down, e.closed).log,
               Closes(e.closed, s.phase.device, Switched), Begins(Oldest(s, e.closed)));
    }
  }

  lemma {:induction false} CancelObserved(c: Config, s: State, now: int, closed: int, order: seq<Zone>)
    requires Shape(c, s) && Opened(s)
    ensures Observed(c, s, Cancel(now, closed, order), OnCancel(s, now, closed, order))
  {
    var batch := if s.phase.Settling? then s.phase.batch else [];
    var l := Replies(s.log, now, batch, Cancelled);
    var m := CancelAll(l, now, s.waiting, order);
    AddsReplies(s.log, now, batch, Cancelled);
    AddsCancels(l, now, s.waiting, order);
    AddsThen(s.log, l, m, Answers(Each(now, batch, Cancelled)), Answers(EachQueue(now, s.waiting, order)));
    var answers := Answers(Each(now, batch, Cancelled) + EachQueue(now, s.waiting, order));
    if s.phase.Live? {
      CloseAdds(s.(log := m), closed, Shutdown);
      AddsThen(s.log, m, OnClose(s.(log := m), closed, Shutdown).log, answers,
        Closes(closed, s.phase.device, Shutdown));
    } else {
      PlusTwice(TraceOf(s.log), answers, NOTHING);
      assert Plus(TraceOf(m), NOTHING) == TraceOf(m);
    }
  }

  /** In every run, every further event has exactly its effect. A same-zone arrival at a
      live device is granted that device; any other arrival is held, last of its
      zone. When the settle timer fires and the build succeeds, the whole batch is
      granted the new device, built from the zone's own path, and counted as jobs;
      when it fails, the whole batch is refused and the oldest waiting zone is next.
      Grace closes and moves on to the oldest zone, the idle TTL closes, and shutdown
      closes and cancels everything held. */
  lemma {:induction false} EventsObserved(c: Config, start: int, es: seq<Event>, e: Event)
    requires ValidConfig(c) && Feasible(c, Init(start), es) && Enabled(c, Run(c, Init(start), es), e)
    ensures var s := Run(c, Init(start), es); Observed(c, s, e, Step(c, s, e))
  {
    RunInv(c, Init(start), es);
    var s := Run(c, Init(start), es);
    match e
    case Arrive(now, req) => ArriveObserved(c, s, now, req);
    case SettleFires(now, ok, done) => if ok { BroughtUp(c, s, now, done); } else { GivenUp(c, s, now, done); }
    case Cancel(now, closed, order) => CancelObserved(c, s, now, closed, order);
    case Release(now) => ReleaseObserved(c, s, now);
    case _ => CloseObserved(c, s, e);
  }

  // When timers are due

  predicate IsDequeue(e: Entry) { e.Dequeued? }

  predicate IsReply(e: Entry) { e.Replied? }

  predicate IsSwitch(e: Entry) { e.SwitchBegan? }

  /** The time of the last entry that satisfies p. */
  function LastAt(p: Entry -> bool, log: Log<Entry>): Option<int> {
    match log
    case Empty => None
    case Snoc(prev, e) => if p(e) then Some(e.at) else LastAt(p, prev)
  }

  /** Since when a request has been waiting for a device in no one's use: from the last
      release if there was one waiting then, else from the first request after it. */
  function WaitingSince(log: Log<Entry>): Option<int> {
    match log
    case Empty => None
    case Snoc(prev, e) =>
      if e.Released? then (if Count(IsDequeue, prev) > Count(IsReply, prev) then Some(e.at) else None)
      else if IsGrant(e) then None
      else if e.Dequeued? && WaitingSince(prev).None? then Some(e.at)
      else WaitingSince(prev)
  }

  function Total(ws: seq<Queue>): nat { if ws == [] then 0 else |ws[0].reqs| + Total(ws[1..]) }

  /** How many dequeued requests are unanswered. */
  function Backlog(s: State): nat { Total(s.waiting) + if s.phase.Settling? then |s.phase.batch| else 0 }

  predicate Exact(c: Config, s: State) {
    match s.phase
    case Settling(_, _, due) => LastAt(IsSwitch, s.log) == Some(due - c.settleDelay)
    case Live(_, _, Grace(due)) => WaitingSince(s.log) == Some(due - c.grace)
    case Live(_, _, Warm(due)) => WaitingSince(s.log) == None && LastAt(IsRelease, s.log) == Some(due - c.idleTTL)
    case _ => true
  }

  predicate Accounted(s: State) {
    s.phase.Stopped? || Count(IsDequeue, s.log) == Count(IsReply, s.log) + Backlog(s)
  }

  lemma {:induction false} TotalEnqueue(ws: seq<Queue>, req: Request)
    ensures Total(Enqueue(ws, req)) == Total(ws) + 1
    decreases |ws|
  {
    if ws != [] && ws[0].zone != req.zone {
      TotalEnqueue(ws[1..], req);
      assert Enqueue(ws, req)[1..] == Enqueue(ws[1..], req);
    } else if ws != [] {
      assert Enqueue(ws, req)[1..] == ws[1..];
    }
  }

  lemma {:induction false} TotalPositive(c: Config, ws: seq<Queue>)
    requires WellQueued(c, ws)
    ensures Total(ws) > 0 <==> ws != []
  {
    if ws != [] { assert ForZone(c, ws[0].zone, ws[0].reqs); }
  }

  lemma {:induction false} CountAnswers(log: Log<Entry>, at: int, reqs: seq<Request>, reply: Reply)
    ensures Count(IsDequeue, Replies(log, at, reqs, reply)) == Count(IsDequeue, log)
    ensures Count(IsReply, Replies(log, at, reqs, reply)) == Count(IsReply, log) + |reqs|
    decreases |reqs|
  {
    if reqs != [] { CountAnswers(log, at, reqs[..|reqs| - 1], reply); }
  }

  lemma {:induction false} ArriveExact(c: Config, s: State, now: int, req: Request)
    requires Shape(c, s) && Exact(c, s) && Accounted(s) && Enabled(c, s, Arrive(now, req))
    ensures var t := OnArrive(c, s, now, req); Exact(c, t) && Accounted(t)
  {
    TotalEnqueue(s.waiting, req);
  }

  lemma {:induction false} SettledExact(c: Config, s: State, now: int, ok: bool, done: int)
    requires Shape(c, s) && Accounted(s) && Enabled(c, s, SettleFires(now, ok, done))
    ensures var t := OnSettled(c, s, now, ok, done); Exact(c, t) && Accounted(t)
  {
    var path, batch := c.eligible[s.phase.zone], s.phase.batch;
    var d := Device(s.built, path);
    CountAnswers(Snoc(Snoc(s.log, BuildBegan(now, path)), BuildEnded(done, if ok then Some(d) else None)),
                 done, batch, if ok then Granted(d) else BringUpFailed);
  }

  lemma {:induction false} ReleaseExact(c: Config, s: State, now: int)
    requires Shape(c, s) && Exact(c, s) && Accounted(s) && Enabled(c, s, Release(now))
    ensures var t := OnRelease(c, s, now); Exact(c, t) && Accounted(t)
  {
    TotalPositive(c, s.waiting);
  }

  lemma {:induction false} StepExact(c: Config, s: State, e: Event)
    requires Shape(c, s) && Exact(c, s) && Accounted(s) && Enabled(c, s, e)
    ensures Exact(c, Step(c, s, e)) && Accounted(Step(c, s, e))
  {
    match e
    case Arrive(now, req) => ArriveExact(c, s, now, req);
    case SettleFires(now, ok, done) => SettledExact(c, s, now, ok, done);
    case Release(now) => ReleaseExact(c, s, now);
    case _ =>
  }

  lemma {:induction false} RunExact(c: Config, s: State, es: seq<Event>)
    requires Shape(c, s) && Exact(c, s) && Accounted(s) && Feasible(c, s, es)
    ensures Exact(c, Run(c, s, es)) && Accounted(Run(c, s, es))
    decreases |es|
  {
    if es != [] {
      StepExact(c, s, es[0]);
      StepShape(c, s, es[0]);
      RunExact(c, Step(c, s, es[0]), es[1..]);
    }
  }

  /** In every run an armed timer is due exactly its delay after the one moment that
      armed it: settle after the switch began, grace after another zone first waited
      for the idle device (later arrivals do not push it back), and the idle TTL
      after the last release. The unanswered requests are those held. */
  lemma {:induction false} TimersExact(c: Config, start: int, es: seq<Event>)
    requires Feasible(c, Init(start), es)
    ensures var s := Run(c, Init(start), es);
            Exact(c, s) && (!s.phase.Stopped? ==> Count(IsDequeue, s.log) == Count(IsReply, s.log) + Backlog(s))
  {
    RunExact(c, Init(start), es);
  }

  // Whatever is held can still be served

  predicate GrantedTo(log: Log<Entry>, req: Request) {
    match log
    case Empty => false
    case Snoc(prev, e) => GrantedTo(prev, req) || (IsGrant(e) && e.req == req)
  }

  lemma {:induction false} GrantReplies(log: Log<Entry>, at: int, reqs: seq<Request>, d: Device, req: Request)
    requires req in reqs
    ensures GrantedTo(Replies(log, at, reqs, Granted(d)), req)
    decreases |reqs|
  {
    var k := |reqs| - 1;
    if req != reqs[k] {
      assert req in reqs[..k];
      GrantReplies(log, at, reqs[..k], d, req);
    }
  }

  lemma {:induction false} First(c: Config, s: State, e: Event, rest: seq<Event>)
    requires Shape(c, s) && Enabled(c, s, e)
    ensures Shape(c, Step(c, s, e))
    ensures Feasible(c, Step(c, s, e), rest) ==>
              Feasible(c, s, [e] + rest) && Run(c, s, [e] + rest) == Run(c, Step(c, s, e), rest)
  {
    StepShape(c, s, e);
    assert ([e] + rest)[1..] == rest;
  }

  function Later(a: int, b: int): int { if a >= b then a else b }

  /** What has to happen next for the request at position k to be served. */
  function NextFor(s: State): Event {
    match s.phase
    case Settling(_, _, due) => SettleFires(Later(s.clock, due), true, Later(s.clock, due))
    case Live(_, _, Grace(due)) => GraceFires(Later(s.clock, due), Later(s.clock, due))
    case _ => Release(s.clock)
  }

  function Distance(s: State): nat {
    if s.phase.Settling? then 2 else if s.phase.Live? && s.phase.use.Serving? then 1 else 0
  }

  lemma {:induction false} NextMoves(c: Config, s: State, req: Request, k: int) returns (j: int)
    requires Shape(c, s) && Stands(s, req, k)
    ensures Enabled(c, s, NextFor(s))
    ensures var t := Step(c, s, NextFor(s));
            if k == -1 then GrantedTo(t.log, req)
            else Stands(t, req, j) && (j < k || (j == k && (Distance(t) < Distance(s) || Jobs(t) < Jobs(s))))
                 && Distance(t) <= (if j < k then 2 else Distance(s))
  {
    j := k;
    match s.phase
    case Settling(zone, batch, due) =>
      if k == -1 {
        var now, path := Later(s.clock, due), c.eligible[zone];
        var d := Device(s.built, path);
        GrantReplies(Snoc(Snoc(s.log, BuildBegan(now, path)), BuildEnded(now, Some(d))), now, batch, d, req);
      }
    case Live(_, _, use) => if use.Grace? { j := k - 1; }
    case _ =>
  }

  /** From any state of the loop, a request it holds can still be granted: by the
      timers running out, builds succeeding and jobs being released. */
  lemma {:induction false} CanServe(c: Config, s: State, req: Request, k: int) returns (es: seq<Event>)
    requires Shape(c, s) && Stands(s, req, k)
    ensures Feasible(c, s, es) && GrantedTo(Run(c, s, es).log, req)
    decreases k, Distance(s), Jobs(s)
  {
    var e := NextFor(s);
    var j := NextMoves(c, s, req, k);
    var t := Step(c, s, e);
    First(c, s, e, []);
    var rest := [];
    if k >= 0 { rest := CanServe(c, t, req, j); }
    First(c, s, e, rest);
    es := [e] + rest;
  }

  lemma {:induction false} StandsAfter(c: Config, s: State, now: int, req: Request) returns (k: int)
    requires Shape(c, s) && Enabled(c, s, Arrive(now, req))
    ensures var t := OnArrive(c, s, now, req); GrantedTo(t.log, req) || Stands(t, req, k)
  {
    k := -1;
    if s.phase.Live? || (s.phase.Settling? && s.phase.zone != req.zone) {
      var i := EnqueueAt(s.waiting, req);
      k := i;
    }
  }

  /** In every run that has not stopped, an eligible request arriving at any time can
      be served: some continuation ends with its grant. */
  lemma {:induction false} EveryArrivalServable(c: Config, start: int, es: seq<Event>, now: int, req: Request)
    returns (rest: seq<Event>)
    requires Feasible(c, Init(start), es) && Enabled(c, Run(c, Init(start), es), Arrive(now, req))
    ensures var s := Run(c, Init(start), es);
            Feasible(c, s, [Arrive(now, req)] + rest) && GrantedTo(Run(c, s, [Arrive(now, req)] + rest).log, req)
  {
    var s := Run(c, Init(start), es);
    var k := StandsAfter(c, s, now, req);
    First(c, s, Arrive(now, req), []);
    var t := Step(c, s, Arrive(now, req));
    rest := [];
    if !GrantedTo(t.log, req) { rest := CanServe(c, t, req, k); }
    First(c, s, Arrive(now, req), rest);
  }
}
