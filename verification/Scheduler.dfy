/** The scheduler's Run loop as the code keeps it: a map of pending queues beside
    a FIFO of zone ids, a job counter and three optional timers. Each arm of the
    select refines one step of SchedulerSpec. */
module Scheduler {
  import opened Logs
  import opened SchedulerSpec

  type Pending = map<Zone, seq<Request>>

  /** The zones of a FIFO whose queue still holds requests, in order. */
  function Undrained(fifo: seq<Zone>, pending: Pending): seq<Zone> {
    if fifo == [] then []
    else
      var z := fifo[|fifo| - 1];
      Undrained(fifo[..|fifo| - 1], pending) + if z in pending && pending[z] != [] then [z] else []
  }

  lemma {:induction false} UndrainedAll(fifo: seq<Zone>, pending: Pending)
    requires forall i | 0 <= i < |fifo| :: fifo[i] in pending && pending[fifo[i]] != []
    ensures Undrained(fifo, pending) == fifo
    decreases |fifo|
  {
    if fifo != [] {
      UndrainedAll(fifo[..|fifo| - 1], pending);
    }
  }

  /** Indexing a Go map: a missing key reads as an empty queue. */
  function Lookup(pending: Pending, z: Zone): seq<Request> {
    if z in pending then pending[z] else []
  }

  /** The FIFO lists the keys of the pending map once each. */
  ghost predicate IndexedBy(fifo: seq<Zone>, pending: Pending) {
    && (forall i | 0 <= i < |fifo| :: fifo[i] in pending)
    && (forall i, j | 0 <= i < j < |fifo| :: fifo[i] != fifo[j])
    && (forall z | z in pending :: z in fifo)
  }

  /** The pair of structures as one sequence of queues. */
  ghost function QueuesOf(fifo: seq<Zone>, pending: Pending): seq<Queue>
    requires IndexedBy(fifo, pending)
  {
    seq(|fifo|, i requires 0 <= i < |fifo| => Queue(fifo[i], pending[fifo[i]]))
  }

  lemma {:induction false} NoQueues()
    ensures IndexedBy([], map[]) && QueuesOf([], map[]) == []
  {
  }

  lemma {:induction false} EnqueueKnown(fifo: seq<Zone>, pending: Pending, req: Request)
    requires IndexedBy(fifo, pending) && req.zone in pending
    ensures var pending' := pending[req.zone := pending[req.zone] + [req]];
            IndexedBy(fifo, pending') && QueuesOf(fifo, pending') == Enqueue(QueuesOf(fifo, pending), req)
  {
    var ws := QueuesOf(fifo, pending);
    var k := EnqueueAt(ws, req);
    var i :| 0 <= i < |fifo| && fifo[i] == req.zone;
    assert ws[i].zone == req.zone;
    assert k == i;
  }

  lemma {:induction false} EnqueueFresh(fifo: seq<Zone>, pending: Pending, req: Request)
    requires IndexedBy(fifo, pending) && req.zone !in pending
    ensures var fifo', pending' := fifo + [req.zone], pending[req.zone := [req]];
            IndexedBy(fifo', pending') && QueuesOf(fifo', pending') == Enqueue(QueuesOf(fifo, pending), req)
  {
    var ws := QueuesOf(fifo, pending);
    var k := EnqueueAt(ws, req);
    assert forall j | 0 <= j < |ws| :: ws[j].zone == fifo[j];
    var fifo', pending' := fifo + [req.zone], pending[req.zone := [req]];
    assert forall z | z in pending' :: z in fifo' by {
      assert fifo'[|fifo|] == req.zone;
    }
  }

  lemma {:induction false} RemoveIndexed(fifo: seq<Zone>, pending: Pending, k: nat)
    requires IndexedBy(fifo, pending) && k < |fifo|
    ensures IndexedBy(fifo[..k] + fifo[k + 1..], pending - {fifo[k]})
  {
    var fifo', pending' := fifo[..k] + fifo[k + 1..], pending - {fifo[k]};
    forall z | z in pending'
      ensures z in fifo'
    {
      var i :| 0 <= i < |fifo| && fifo[i] == z;
      assert z == if i < k then fifo'[i] else fifo'[i - 1];
    }
  }

  lemma {:induction false} RemoveQueue(fifo: seq<Zone>, pending: Pending, k: nat)
    requires IndexedBy(fifo, pending) && k < |fifo|
    ensures var fifo', pending' := fifo[..k] + fifo[k + 1..], pending - {fifo[k]};
            && IndexedBy(fifo', pending')
            && QueuesOf(fifo', pending') == QueuesOf(fifo, pending)[..k] + QueuesOf(fifo, pending)[k + 1..]
  {
    RemoveIndexed(fifo, pending, k);
  }

  lemma {:induction false} QueueAt(fifo: seq<Zone>, pending: Pending, z: Zone)
    requires IndexedBy(fifo, pending) && z in pending
    ensures QueueFor(QueuesOf(fifo, pending), z) == pending[z]
  {
    var k :| 0 <= k < |fifo| && fifo[k] == z;
    QueueForFirst(QueuesOf(fifo, pending), z, k);
  }

  lemma {:induction false} QueueForFirst(ws: seq<Queue>, z: Zone, k: nat)
    requires k < |ws| && ws[k].zone == z && Absent(z, ws[..k])
    ensures QueueFor(ws, z) == ws[k].reqs
    decreases k
  {
    if k > 0 {
      assert ws[..k][0].zone != z;
      assert ws[..k][1..] == ws[1..][..k - 1];
      QueueForFirst(ws[1..], z, k - 1);
    }
  }

  lemma {:induction false} OrderIsKeys(fifo: seq<Zone>, pending: Pending, order: seq<Zone>)
    requires IndexedBy(fifo, pending) && Permutes(order, QueuesOf(fifo, pending))
    ensures forall z :: z in order <==> z in pending
  {
    var ws := QueuesOf(fifo, pending);
    forall z | z in pending
      ensures z in order
    {
      var i :| 0 <= i < |fifo| && fifo[i] == z;
      assert ws[i].zone == z;
    }
  }

  lemma {:induction false} CancelNext(log: Log<Entry>, at: int, ws: seq<Queue>, order: seq<Zone>, i: nat)
    requires i < |order|
    ensures CancelAll(log, at, ws, order[..i + 1]) ==
              Replies(CancelAll(log, at, ws, order[..i]), at, QueueFor(ws, order[i]), Cancelled)
  {
    assert order[..i + 1][..i] == order[..i];
  }

  class OnDemandScheduler {
    const c: Config

    var currentZone: Zone
    var currentDevice: Option<Device>
    var activeJobs: int
    var pending: Pending
    var pendingFIFO: seq<Zone>
    var graceTimer: Option<int>
    var idleTimer: Option<int>
    var settling: bool
    var settleZone: Zone
    var settleConfigPath: Path
    var settleBatch: seq<Request>
    var settleTimer: Option<int>
    var stopped: bool

    // the effects of the loop on the outside world, and the time of the last one
    var log: Log<Entry>
    var clock: int
    var built: nat

    /** Which combinations of the loop's variables occur between two selects. */
    ghost predicate Coherent()
      reads this
    {
      && (settling ==>
            currentDevice.None? && settleTimer.Some? && settleZone in c.eligible
              && settleConfigPath == c.eligible[settleZone])
      && (!settling ==> settleTimer.None?)
      && (currentDevice.None? ==> currentZone == "" && activeJobs == 0 && graceTimer.None? && idleTimer.None?)
      && (currentDevice.Some? ==>
            if activeJobs == 0 then graceTimer.Some? != idleTimer.Some?
            else activeJobs > 0 && graceTimer.None? && idleTimer.None?)
      && (stopped ==> currentDevice.None?)
    }

    ghost function Current(): Phase
      requires Coherent()
      reads this
    {
      if stopped then Stopped
      else if settling then Settling(settleZone, settleBatch, settleTimer.value)
      else if currentDevice.None? then Down
      else Live(currentZone, currentDevice.value,
                if activeJobs > 0 then Serving(activeJobs)
                else if graceTimer.Some? then Grace(graceTimer.value)
                else Warm(idleTimer.value))
    }

    ghost function Abs(): State
      requires IndexedBy(pendingFIFO, pending) && Coherent()
      reads this
    {
      State(Current(), QueuesOf(pendingFIFO, pending), clock, built, log)
    }

    /** The variables represent some abstract state. */
    ghost predicate Rep()
      reads this
    {
      ValidConfig(c) && IndexedBy(pendingFIFO, pending) && Coherent()
    }

    ghost predicate Valid()
      reads this
    {
      Rep() && Shape(c, Abs())
    }

    constructor (c: Config, now: int)
      requires ValidConfig(c)
      ensures Valid() && this.c == c && Abs() == Init(now)
    {
      this.c := c;
      currentZone, currentDevice, activeJobs := "", None, 0;
      pending, pendingFIFO := map[], [];
      graceTimer, idleTimer, settleTimer := None, None, None;
      settling, settleZone, settleConfigPath, settleBatch := false, "", "", [];
      stopped, log, clock, built := false, Empty, now, 0;
    }

    // The closures of Run

    method GrantAll(reqs: seq<Request>, d: Device, now: int)
      modifies `activeJobs, `log
      ensures activeJobs == old(activeJobs) + |reqs|
      ensures log == Replies(old(log), now, reqs, Granted(d))
    {
      var i := 0;
      while i < |reqs|
        invariant 0 <= i <= |reqs|
        invariant activeJobs == old(activeJobs) + i
        invariant log == Replies(old(log), now, reqs[..i], Granted(d))
      {
        activeJobs := activeJobs + 1;
        log := Snoc(log, Replied(now, reqs[i], Granted(d)));
        assert reqs[..i + 1][..i] == reqs[..i];
        i := i + 1;
      }
      assert reqs[..i] == reqs;
    }

    method FailAll(reqs: seq<Request>, err: Reply, now: int)
      modifies `log
      ensures log == Replies(old(log), now, reqs, err)
    {
      var i := 0;
      while i < |reqs|
        invariant 0 <= i <= |reqs|
        invariant log == Replies(old(log), now, reqs[..i], err)
      {
        log := Snoc(log, Replied(now, reqs[i], err));
        assert reqs[..i + 1][..i] == reqs[..i];
        i := i + 1;
      }
      assert reqs[..i] == reqs;
    }

    method EnqueuePending(req: Request)
      requires IndexedBy(pendingFIFO, pending)
      modifies `pending, `pendingFIFO
      ensures IndexedBy(pendingFIFO, pending)
                && QueuesOf(pendingFIFO, pending) == Enqueue(old(QueuesOf(pendingFIFO, pending)), req)
    {
      if req.zone !in pending {
        EnqueueFresh(pendingFIFO, pending, req);
        pendingFIFO := pendingFIFO + [req.zone];
        pending := pending[req.zone := [req]];
      } else {
        EnqueueKnown(pendingFIFO, pending, req);
        pending := pending[req.zone := pending[req.zone] + [req]];
      }
    }

    method Teardown(closed: int, reason: Reason)
      modifies `currentDevice, `currentZone, `log
      ensures currentDevice.None?
      ensures old(currentDevice).None? ==> log == old(log) && currentZone == old(currentZone)
      ensures old(currentDevice).Some? ==>
                currentZone == "" && log == Snoc(old(log), Closed(closed, old(currentDevice).value, reason))
    {
      if currentDevice.None? { return; }
      var d := currentDevice.value;
      currentDevice, currentZone := None, "";
      log := Snoc(log, Closed(closed, d, reason));
    }

    /** The in-place two-pointer pass. */
    method CompactFIFO()
      modifies `pendingFIFO
      ensures pendingFIFO == Undrained(old(pendingFIFO), pending)
    {
      ghost var was := pendingFIFO;
      var w, i := 0, 0;
      while i < |pendingFIFO|
        invariant 0 <= w <= i <= |pendingFIFO| == |was|
        invariant pendingFIFO[..w] == Undrained(was[..i], pending)
        invariant pendingFIFO[i..] == was[i..]
      {
        ghost var before := pendingFIFO;
        var z := pendingFIFO[i];
        assert z == was[i] && was[..i + 1][..i] == was[..i];
        assert before[i + 1..] == before[i..][1..] == was[i + 1..];
        if z in pending && pending[z] != [] {
          pendingFIFO := pendingFIFO[w := z];
          assert pendingFIFO[..w + 1] == before[..w] + [z] && pendingFIFO[i + 1..] == before[i + 1..];
          w := w + 1;
        }
        i := i + 1;
      }
      assert was[..i] == was;
      pendingFIFO := pendingFIFO[..w];
    }

    /** The index of the oldest pending zone other than `exclude`. */
    method FindNextZone(exclude: Zone) returns (k: nat)
      requires forall z | z in pendingFIFO :: z in pending && pending[z] != []
      ensures k <= |pendingFIFO| && (k < |pendingFIFO| ==> pendingFIFO[k] != exclude)
      ensures forall j | 0 <= j < k :: pendingFIFO[j] == exclude
    {
      k := 0;
      while k < |pendingFIFO|
        invariant 0 <= k <= |pendingFIFO|
        invariant forall j | 0 <= j < k :: pendingFIFO[j] == exclude
      {
        var z := pendingFIFO[k];
        if z != exclude && z in pending && pending[z] != [] { return; }
        k := k + 1;
      }
    }

    /** Takes the oldest pending zone other than `exclude` out of both structures. */
    method PickNextZone(exclude: Zone) returns (zone: Zone, reqs: seq<Request>, ghost k: nat)
      requires IndexedBy(pendingFIFO, pending) && "" !in pendingFIFO
      requires forall z | z in pending :: pending[z] != []
      modifies `pending, `pendingFIFO
      ensures IndexedBy(pendingFIFO, pending) && k <= |old(pendingFIFO)|
      ensures forall j | 0 <= j < k :: old(pendingFIFO)[j] == exclude
      ensures k == |old(pendingFIFO)| ==> zone == "" && pending == old(pending) && pendingFIFO == old(pendingFIFO)
      ensures k < |old(pendingFIFO)| ==>
                && zone == old(pendingFIFO)[k] && zone != "" && zone != exclude && reqs == old(pending)[zone]
                && QueuesOf(pendingFIFO, pending) ==
                   old(QueuesOf(pendingFIFO, pending)[..k] + QueuesOf(pendingFIFO, pending)[k + 1..])
    {
      UndrainedAll(pendingFIFO, pending);
      CompactFIFO();
      var i := FindNextZone(exclude);
      k := i;
      if i == |pendingFIFO| { return "", [], i; }
      zone := pendingFIFO[i];
      reqs := pending[zone];
      RemoveQueue(pendingFIFO, pending, i);
      pending := pending - {zone};
      pendingFIFO := pendingFIFO[..i] + pendingFIFO[i + 1..];
    }

    /** With no zone to pass over, that is the head of the queues, if there is one. */
    method TakeOldest(exclude: Zone) returns (zone: Zone, reqs: seq<Request>)
      requires ValidConfig(c) && IndexedBy(pendingFIFO, pending) && WellQueued(c, QueuesOf(pendingFIFO, pending))
      requires Absent(exclude, QueuesOf(pendingFIFO, pending))
      modifies `pending, `pendingFIFO
      ensures IndexedBy(pendingFIFO, pending)
      ensures old(pendingFIFO) == [] ==> zone == "" && pendingFIFO == []
      ensures old(pendingFIFO) != [] ==>
                && zone in c.eligible && zone != ""
                && old(QueuesOf(pendingFIFO, pending)) == [Queue(zone, reqs)] + QueuesOf(pendingFIFO, pending)
    {
      ghost var ws := QueuesOf(pendingFIFO, pending);
      QueuesEligible();
      assert pendingFIFO != [] ==> ws[0].zone == pendingFIFO[0] != exclude;
      ghost var k;
      zone, reqs, k := PickNextZone(exclude);
      assert k == 0;
      assert ws != [] ==> ws == [ws[0]] + (ws[..0] + ws[1..]);
    }

    method HasCrossZonePending() returns (found: bool)
      ensures found <==> exists z | z in pending :: z != currentZone && pending[z] != []
    {
      var todo := pending.Keys;
      while todo != {}
        invariant todo <= pending.Keys
        invariant forall z | z in pending && z !in todo :: z == currentZone || pending[z] == []
        decreases |todo|
      {
        var z :| z in todo;
        if z != currentZone && pending[z] != [] { return true; }
        todo := todo - {z};
      }
      return false;
    }

    method BeginSwitch(zone: Zone, configPath: Path, batch: seq<Request>, closed: int)
      modifies `currentDevice, `currentZone, `log, `settling, `settleZone, `settleConfigPath, `settleBatch,
               `graceTimer, `idleTimer, `settleTimer, `clock
      ensures currentDevice.None? && settling && graceTimer.None? && idleTimer.None?
      ensures settleZone == zone && settleConfigPath == configPath && settleBatch == batch
      ensures settleTimer == Some(closed + c.settleDelay) && clock == closed
      ensures currentZone == if old(currentDevice).Some? then "" else old(currentZone)
      ensures old(currentDevice).None? ==> log == Snoc(old(log), SwitchBegan(closed, zone))
      ensures old(currentDevice).Some? ==>
                log == Snoc(Snoc(old(log), Closed(closed, old(currentDevice).value, Switched)),
                  SwitchBegan(closed, zone))
    {
      Teardown(closed, Switched);
      settling, settleZone, settleConfigPath, settleBatch := true, zone, configPath, batch;
      graceTimer, idleTimer := None, None;
      log := Snoc(log, SwitchBegan(closed, zone));
      settleTimer, clock := Some(closed + c.settleDelay), closed;
    }

    static method RemoveFIFO(ss: seq<Zone>, v: Zone) returns (r: seq<Zone>)
      ensures v !in ss ==> r == ss
      ensures v in ss ==> exists i | 0 <= i < |ss| :: ss[i] == v && v !in ss[..i] && r == ss[..i] + ss[i + 1..]
    {
      var i := 0;
      while i < |ss|
        invariant 0 <= i <= |ss| && v !in ss[..i]
      {
        if ss[i] == v { return ss[..i] + ss[i + 1..]; }
        i := i + 1;
      }
      return ss;
    }

    lemma {:induction false} QueuesEligible()
      requires ValidConfig(c) && IndexedBy(pendingFIFO, pending) && WellQueued(c, QueuesOf(pendingFIFO, pending))
      ensures forall z | z in pending :: pending[z] != [] && z in c.eligible && z != ""
      ensures "" !in pendingFIFO
    {
      var ws := QueuesOf(pendingFIFO, pending);
      forall z | z in pending
        ensures pending[z] != [] && z in c.eligible
      {
        var i :| 0 <= i < |pendingFIFO| && pendingFIFO[i] == z;
        assert ForZone(c, ws[i].zone, ws[i].reqs);
      }
    }

    /** The zone of a live device is never queued, so any queue is cross-zone. */
    lemma {:induction false} CrossIsAny()
      requires ValidConfig(c) && IndexedBy(pendingFIFO, pending) && WellQueued(c, QueuesOf(pendingFIFO, pending))
      requires Absent(currentZone, QueuesOf(pendingFIFO, pending))
      ensures (exists z | z in pending :: z != currentZone && pending[z] != []) <==> pendingFIFO != []
    {
      QueuesEligible();
      if pendingFIFO != [] {
        assert QueuesOf(pendingFIFO, pending)[0].zone == pendingFIFO[0];
      }
    }

    /** Between two selects: an unanswered request has a wake-up that will serve it,
        an idle device has exactly one timer, and nothing is pending without a
        device or a switch in flight, under an armed idle timer, or for the
        zone that is live or settling. */
    lemma {:induction false} WakeupArmed()
      requires Valid() && !stopped
      ensures pending != map[] || settling ==> settleTimer.Some? || graceTimer.Some? || activeJobs > 0
      ensures currentDevice.Some? && activeJobs == 0 ==> graceTimer.Some? != idleTimer.Some?
      ensures graceTimer.Some? || idleTimer.Some? || currentDevice.None? ==> activeJobs == 0
      ensures idleTimer.Some? || (currentDevice.None? && !settling) ==> pending == map[]
      ensures currentZone !in pending && (settling ==> settleZone !in pending)
    {
      QueuesEligible();
      var ws := QueuesOf(pendingFIFO, pending);
      assert pendingFIFO == [] ==> pending == map[];
      assert forall i | 0 <= i < |ws| :: ws[i].zone == pendingFIFO[i];
    }

    // The arms of the select

    /** Taking the head of the FIFO and settling for it is SwitchNext. */
    method StartNextIfPending(done: int)
      requires Rep() && !stopped && !settling && currentDevice.None?
      requires WellQueued(c, QueuesOf(pendingFIFO, pending))
      modifies this
      ensures Rep() && Abs() == SwitchNext(c, old(Abs()), done)
    {
      ghost var ws := QueuesOf(pendingFIFO, pending);
      QueuesEligible();
      var zone, reqs := TakeOldest("");
      if zone == "" {
        clock := done;
        return;
      }
      assert ws[1..] == QueuesOf(pendingFIFO, pending);
      BeginSwitch(zone, c.eligible[zone], reqs, done);
    }

    /** case req := <-reqCh */
    method OnRequest(req: Request, now: int)
      requires Valid() && Enabled(c, Abs(), Arrive(now, req))
      modifies this
      ensures Valid() && Abs() == Step(c, old(Abs()), Arrive(now, req))
    {
      StepShape(c, Abs(), Arrive(now, req));
      if settling {
        RequestWhileSettling(req, now);
      } else if currentDevice.Some? {
        RequestWhileLive(req, now);
      } else {
        RequestWhileDown(req, now);
      }
    }

    method RequestWhileSettling(req: Request, now: int)
      requires Rep() && settling && !stopped
      modifies this
      ensures Rep() && Abs() == OnArrive(c, old(Abs()), now, req)
    {
      log, clock := Snoc(log, Dequeued(now, req)), now;
      if req.zone == settleZone {
        settleBatch := settleBatch + [req];
      } else {
        EnqueuePending(req);
      }
    }

    method RequestWhileLive(req: Request, now: int)
      requires Rep() && !settling && currentDevice.Some?
      modifies this
      ensures Rep() && Abs() == OnArrive(c, old(Abs()), now, req)
    {
      log, clock := Snoc(log, Dequeued(now, req)), now;
      if currentZone == req.zone {
        activeJobs := activeJobs + 1;
        log := Snoc(log, Replied(now, req, Granted(currentDevice.value)));
        graceTimer, idleTimer := None, None;
        return;
      }
      EnqueuePending(req);
      if activeJobs == 0 && graceTimer.None? {
        graceTimer, idleTimer := Some(now + c.grace), None;
      }
    }

    method RequestWhileDown(req: Request, now: int)
      requires Rep() && !settling && currentDevice.None? && !stopped
      requires pendingFIFO == [] && Eligible(c, req)
      modifies this
      ensures Rep() && Abs() == OnArrive(c, old(Abs()), now, req)
    {
      assert pending == map[];
      log, clock := Snoc(log, Dequeued(now, req)), now;
      var batch := FoldSame(req);
      NoQueues();
      BeginSwitch(req.zone, req.path, batch, now);
    }

    /** Folds queued requests of the same zone into the batch; when down there are none. */
    method FoldSame(req: Request) returns (batch: seq<Request>)
      requires pending == map[] && pendingFIFO == []
      modifies `pending, `pendingFIFO
      ensures batch == [req] && pending == map[] && pendingFIFO == []
    {
      var samePending := Lookup(pending, req.zone);
      pending := pending - {req.zone};
      pendingFIFO := RemoveFIFO(pendingFIFO, req.zone);
      batch := [req] + samePending;
    }

    /** case <-settleTimer: finishSwitch, with the builder's verdict `ok`. */
    method OnSettleTimer(now: int, ok: bool, done: int)
      requires Valid() && Enabled(c, Abs(), SettleFires(now, ok, done))
      modifies this
      ensures Valid() && Abs() == Step(c, old(Abs()), SettleFires(now, ok, done))
      ensures old(settling) && old(settleZone) in c.eligible
      ensures ok ==>
                && currentZone == old(settleZone) && activeJobs == |old(settleBatch)|
                && currentDevice.Some? && currentDevice.value.path == c.eligible[old(settleZone)]
      ensures !ok ==> currentDevice.None? && activeJobs == 0 && settling == old(pendingFIFO != [])
    {
      StepShape(c, Abs(), SettleFires(now, ok, done));
      FinishSwitch(now, ok, done);
    }

    method FinishSwitch(now: int, ok: bool, done: int)
      requires Rep() && !stopped && settling && settleBatch != []
      requires WellQueued(c, QueuesOf(pendingFIFO, pending))
      modifies this
      ensures Rep() && Abs() == OnSettled(c, old(Abs()), now, ok, done)
    {
      var zone, configPath, batch := LeaveSettling();
      log := Snoc(log, BuildBegan(now, configPath));
      if ok {
        BringUp(zone, configPath, batch, done);
      } else {
        GiveUp(batch, done);
      }
    }

    method LeaveSettling() returns (zone: Zone, configPath: Path, batch: seq<Request>)
      modifies `settling, `settleTimer, `settleZone, `settleConfigPath, `settleBatch
      ensures zone == old(settleZone) && configPath == old(settleConfigPath) && batch == old(settleBatch)
      ensures !settling && settleTimer.None?
    {
      zone, configPath, batch := settleZone, settleConfigPath, settleBatch;
      settling, settleTimer := false, None;
      settleZone, settleConfigPath, settleBatch := "", "", [];
    }

    method GiveUp(batch: seq<Request>, done: int)
      requires Rep() && !stopped && !settling && currentDevice.None? && WellQueued(c, QueuesOf(pendingFIFO, pending))
      modifies this
      ensures Rep()
      ensures var ended := Replies(Snoc(old(log), BuildEnded(done, None)), done, batch, BringUpFailed);
              Abs() == SwitchNext(c, old(Abs()).(log := ended), done)
    {
      log := Snoc(log, BuildEnded(done, None));
      FailAll(batch, BringUpFailed, done);
      StartNextIfPending(done);
    }

    method BringUp(zone: Zone, configPath: Path, batch: seq<Request>, done: int)
      requires Rep() && !stopped && !settling && currentDevice.None? && batch != []
      modifies this
      ensures Rep()
      ensures var d := Device(old(built), configPath);
              Abs() == State(Live(zone, d, Serving(|batch|)), old(QueuesOf(pendingFIFO, pending)), done, old(built) + 1,
                             Replies(Snoc(old(log), BuildEnded(done, Some(d))), done, batch, Granted(d)))
    {
      var d := Device(built, configPath);
      built, clock := built + 1, done;
      log := Snoc(log, BuildEnded(done, Some(d)));
      currentZone, currentDevice := zone, Some(d);
      GrantAll(batch, d, done);
    }

    /** case <-releaseCh */
    method OnReleased(now: int)
      requires Valid() && Enabled(c, Abs(), Release(now))
      modifies this
      ensures Valid() && Abs() == Step(c, old(Abs()), Release(now))
    {
      StepShape(c, Abs(), Release(now));
      CountRelease(now);
    }

    /** When no switch is in flight, cross-zone work is any pending work. */
    method CrossPending() returns (cross: bool)
      requires ValidConfig(c) && IndexedBy(pendingFIFO, pending) && WellQueued(c, QueuesOf(pendingFIFO, pending))
      requires currentDevice.Some? ==> Absent(currentZone, QueuesOf(pendingFIFO, pending))
      requires currentDevice.None? ==> pendingFIFO == []
      ensures cross <==> pendingFIFO != []
    {
      if currentDevice.Some? { CrossIsAny(); }
      cross := HasCrossZonePending();
    }

    method CountRelease(now: int)
      requires Rep() && !stopped && WellQueued(c, QueuesOf(pendingFIFO, pending))
      requires currentDevice.Some? ==> Absent(currentZone, QueuesOf(pendingFIFO, pending))
      requires currentDevice.None? && !settling ==> pendingFIFO == []
      modifies this
      ensures Rep() && Abs() == OnRelease(c, old(Abs()), now)
    {
      log, clock := Snoc(log, Released(now)), now;
      if activeJobs > 0 { activeJobs := activeJobs - 1; }
      if activeJobs > 0 || settling { return; }
      ArmAfterLast(now);
    }

    /** The last job is gone: grace if another zone waits, else the idle TTL. */
    method ArmAfterLast(now: int)
      requires ValidConfig(c) && IndexedBy(pendingFIFO, pending) && WellQueued(c, QueuesOf(pendingFIFO, pending))
      requires currentDevice.Some? ==> Absent(currentZone, QueuesOf(pendingFIFO, pending))
      requires currentDevice.None? ==> pendingFIFO == [] && graceTimer.None? && idleTimer.None?
      modifies `graceTimer, `idleTimer
      ensures currentDevice.None? ==> graceTimer.None? && idleTimer.None?
      ensures currentDevice.Some? && pendingFIFO != [] ==> graceTimer == Some(now + c.grace) && idleTimer.None?
      ensures currentDevice.Some? && pendingFIFO == [] ==> idleTimer == Some(now + c.idleTTL) && graceTimer.None?
    {
      var cross := CrossPending();
      if cross {
        graceTimer, idleTimer := Some(now + c.grace), None;
      } else if currentDevice.Some? {
        idleTimer, graceTimer := Some(now + c.idleTTL), None;
      }
    }

    /** case <-graceTimer */
    method OnGraceTimer(now: int, closed: int)
      requires Valid() && Enabled(c, Abs(), GraceFires(now, closed))
      modifies this
      ensures Valid() && Abs() == Step(c, old(Abs()), GraceFires(now, closed))
    {
      StepShape(c, Abs(), GraceFires(now, closed));
      assert Abs().waiting == QueuesOf(pendingFIFO, pending);
      LeaveZone(closed);
    }

    method LeaveZone(closed: int)
      requires Rep() && !stopped && !settling && currentDevice.Some? && graceTimer.Some? && pendingFIFO != []
      requires WellQueued(c, QueuesOf(pendingFIFO, pending)) && Absent(currentZone, QueuesOf(pendingFIFO, pending))
      modifies this
      ensures Rep() && Abs() == SwitchNext(c, OnClose(old(Abs()), closed, Switched), closed)
    {
      ghost var ws := QueuesOf(pendingFIFO, pending);
      graceTimer := None;
      var zone, queued := TakeOldest(currentZone);
      if zone == "" {
        // the code falls back to the idle timer here; the queue is never empty
        assert false;
      }
      assert ws[1..] == QueuesOf(pendingFIFO, pending);
      BeginSwitch(zone, c.eligible[zone], queued, closed);
    }

    /** case <-idleTimer */
    method OnIdleTimer(now: int, closed: int)
      requires Valid() && Enabled(c, Abs(), IdleFires(now, closed))
      modifies this
      ensures Valid() && Abs() == Step(c, old(Abs()), IdleFires(now, closed))
    {
      idleTimer := None;
      if currentDevice.Some? && activeJobs == 0 {
        Teardown(closed, IdledOut);
        clock := closed;
      }
    }

    /** Fail every pending request, ranging over the map in the given order. */
    method DrainPending(now: int, order: seq<Zone>)
      requires IndexedBy(pendingFIFO, pending) && Permutes(order, QueuesOf(pendingFIFO, pending))
      modifies `pending, `log
      ensures pending == map[]
      ensures log == CancelAll(old(log), now, old(QueuesOf(pendingFIFO, pending)), order)
    {
      ghost var ws := QueuesOf(pendingFIFO, pending);
      OrderIsKeys(pendingFIFO, pending, order);
      forall z | z in pending
        ensures QueueFor(ws, z) == pending[z]
      {
        QueueAt(pendingFIFO, pending, z);
      }
      RangePending(now, order, ws);
    }

    /** The loop, for any order that visits every key once. */
    method RangePending(now: int, order: seq<Zone>, ghost ws: seq<Queue>)
      requires forall z :: z in order <==> z in pending
      requires forall i, j | 0 <= i < j < |order| :: order[i] != order[j]
      requires forall z | z in pending :: QueueFor(ws, z) == pending[z]
      modifies `pending, `log
      ensures pending == map[]
      ensures log == CancelAll(old(log), now, ws, order)
    {
      ghost var all := pending;
      ghost var gone: set<Zone> := {};
      var i := 0;
      while i < |order|
        invariant 0 <= i <= |order|
        invariant pending == all - gone
        invariant forall j | 0 <= j < i :: order[j] in gone
        invariant forall j | i <= j < |order| :: order[j] !in gone
        invariant log == CancelAll(old(log), now, ws, order[..i])
      {
        var zone := order[i];
        assert zone in all;
        FailAll(pending[zone], Cancelled, now);
        pending, gone := pending - {zone}, gone + {zone};
        CancelNext(old(log), now, ws, order, i);
        i := i + 1;
      }
      assert order[..i] == order;
      assert forall z | z in all :: z in gone;
    }

    /** case <-ctx.Done(): `order` is the order in which the map is ranged over. */
    method OnCancelled(now: int, closed: int, order: seq<Zone>)
      requires Valid() && Enabled(c, Abs(), Cancel(now, closed, order))
      modifies this
      ensures Valid() && Abs() == Step(c, old(Abs()), Cancel(now, closed, order))
    {
      StepShape(c, Abs(), Cancel(now, closed, order));
      ShutDown(now, closed, order);
    }

    method ShutDown(now: int, closed: int, order: seq<Zone>)
      requires Rep() && !stopped && Permutes(order, QueuesOf(pendingFIFO, pending))
      modifies this
      ensures Rep() && Abs() == OnCancel(old(Abs()), now, closed, order)
    {
      ghost var s := Abs();
      ghost var batch := if settling then settleBatch else [];
      if settling {
        FailAll(settleBatch, Cancelled, now);
        settleBatch := [];
      }
      ghost var l := log;
      assert l == Replies(s.log, now, batch, Cancelled);
      DrainPending(now, order);
      assert log == CancelAll(l, now, s.waiting, order);
      Teardown(closed, Shutdown);
      Exit(closed);
    }

    /** Run has returned: its local variables are gone. */
    method Exit(closed: int)
      requires ValidConfig(c) && currentDevice.None? && pending == map[]
      modifies `stopped, `clock, `pendingFIFO, `activeJobs, `currentZone, `graceTimer, `idleTimer, `settleTimer,
               `settling
      ensures Rep() && Abs() == State(Stopped, [], closed, old(built), old(log))
    {
      NoQueues();
      DropTimers();
      stopped, clock := true, closed;
      pendingFIFO, activeJobs, currentZone := [], 0, "";
    }

    method DropTimers()
      modifies `graceTimer, `idleTimer, `settleTimer, `settling
      ensures graceTimer.None? && idleTimer.None? && settleTimer.None? && !settling
    {
      graceTimer, idleTimer, settleTimer, settling := None, None, None, false;
    }

    /** The for-select loop, given what the channels and timers deliver. */
    method Run(script: seq<Event>)
      requires Valid() && Feasible(c, Abs(), script)
      modifies this
      ensures Valid() && Abs() == SchedulerSpec.Run(c, old(Abs()), script)
    {
      var i := 0;
      while i < |script|
        invariant 0 <= i <= |script|
        invariant Valid() && Feasible(c, Abs(), script[i..])
        invariant SchedulerSpec.Run(c, Abs(), script[i..]) == SchedulerSpec.Run(c, old(Abs()), script)
      {
        assert script[i..][1..] == script[i + 1..];
        Select(script[i]);
        i := i + 1;
      }
    }

    method Select(e: Event)
      requires Valid() && Enabled(c, Abs(), e)
      modifies this
      ensures Valid() && Abs() == Step(c, old(Abs()), e)
    {
      match e
      case Arrive(now, req) => OnRequest(req, now);
      case SettleFires(now, ok, done) => OnSettleTimer(now, ok, done);
      case Release(now) => OnReleased(now);
      case GraceFires(now, closed) => OnGraceTimer(now, closed);
      case IdleFires(now, closed) => OnIdleTimer(now, closed);
      case Cancel(now, closed, order) => OnCancelled(now, closed, order);
    }
  }
}
