/** Proxy sessions against the supervisor's loop goroutine, interleaved in atomic
    steps. A session counts itself on the activeSessions gauge, reads the device
    under the read lock, uses it and uncounts itself; the loop re-checks the
    gauge under the write lock before it takes the device away. */
module RotationGate {
  import opened Logs

  type DeviceId = nat

  /** Where the request handler of a session is. */
  datatype Handler =
    | Counted
    | Reading
    | Read(seen: Option<DeviceId>)
    | Dialed(conn: Option<DeviceId>)
    | ConnClosed
    | HandedOff
    | Returned

  /** Where the goroutine that owns a CONNECT tunnel is. */
  datatype Tunnel = NotSpawned | Copying(conn: DeviceId) | TunnelClosed | Finished

  datatype Kind = Http | Connect

  /** `decrements` counts how often the session took itself off the gauge. */
  datatype Session = Session(kind: Kind, handler: Handler, tunnel: Tunnel, handedOff: bool, decrements: nat)

  /** Why a device was closed. */
  datatype Cause = IdleRotation | ForcedRotation | Unhealthy | Stopping

  /** Where the loop goroutine is; from Locked to Rechecked it holds the write lock. */
  datatype Loop =
    | Waiting
    | PreChecked(force: bool)
    | Locked(force: bool)
    | Rechecked(force: bool)
    | Closing(device: DeviceId, cause: Cause)
    | Rebuilding

  datatype State = State(
    sessions: map<nat, Session>,
    gauge: int,
    device: Option<DeviceId>,
    built: nat,
    closed: map<DeviceId, Cause>,
    loop: Loop)

  datatype Action =
    // sessions
    | Begin(i: nat, kind: Kind)
    | RLock(i: nat)
    | ReadDevice(i: nat)
    | RUnlock(i: nat)
    | CloseConn(i: nat)
    | HandOff(i: nat)
    | Return(i: nat)
    | CloseTunnel(i: nat)
    | Finish(i: nat)
    // the loop goroutine
    | PreCheck(force: bool)
    | Lock
    | Recheck
    | Clear
    | Close
    | Rebuild(ok: bool)
    | Reconnect
    | Teardown(cause: Cause)

  function Init(): State { State(map[], 0, None, 0, map[], Waiting) }

  predicate WriteLocked(s: State) { s.loop.Locked? || s.loop.Rechecked? }

  predicate HoldsReadLock(x: Session) { x.handler.Reading? || x.handler.Read? }

  ghost predicate NoReader(s: State) {
    forall i | i in s.sessions :: !HoldsReadLock(s.sessions[i])
  }

  /** The device the session has read or has connections through. */
  function Held(x: Session): Option<DeviceId> {
    if x.tunnel.Copying? then Some(x.tunnel.conn)
    else if x.handler.Read? then x.handler.seen
    else if x.handler.Dialed? then x.handler.conn
    else None
  }

  ghost predicate Enabled(s: State, a: Action) {
    match a
    case Begin(i, _) => i !in s.sessions
    case RLock(i) => i in s.sessions && s.sessions[i].handler.Counted? && !WriteLocked(s)
    case ReadDevice(i) => i in s.sessions && s.sessions[i].handler.Reading?
    case RUnlock(i) => i in s.sessions && s.sessions[i].handler.Read?
    case CloseConn(i) => i in s.sessions && s.sessions[i].handler.Dialed? && s.sessions[i].handler.conn.Some?
    case HandOff(i) =>
      i in s.sessions && s.sessions[i].kind.Connect? && s.sessions[i].handler.Dialed?
        && s.sessions[i].handler.conn.Some?
    case Return(i) =>
      && i in s.sessions
      && var h := s.sessions[i].handler;
         h == Dialed(None) || h.ConnClosed? || h.HandedOff?
    case CloseTunnel(i) => i in s.sessions && s.sessions[i].tunnel.Copying?
    case Finish(i) => i in s.sessions && s.sessions[i].tunnel.TunnelClosed?
    case PreCheck(force) => s.loop.Waiting? && (force || !(s.gauge > 0))
    case Lock => s.loop.PreChecked? && NoReader(s)
    case Recheck => s.loop.Locked?
    case Clear => s.loop.Rechecked?
    case Close => s.loop.Closing?
    case Rebuild(ok) => s.loop.Rebuilding? && (ok ==> NoReader(s))
    case Reconnect => s.loop.Waiting? && s.device.None? && NoReader(s)
    case Teardown(cause) => s.loop.Waiting? && NoReader(s) && (cause.Unhealthy? || cause.Stopping?)
  }

  function Put(s: State, i: nat, x: Session): State { s.(sessions := s.sessions[i := x]) }

  ghost function Apply(s: State, a: Action): State
    requires Enabled(s, a)
  {
    match a
    case Begin(i, kind) => Put(s, i, Session(kind, Counted, NotSpawned, false, 0)).(gauge := s.gauge + 1)
    case RLock(i) => Put(s, i, s.sessions[i].(handler := Reading))
    case ReadDevice(i) => Put(s, i, s.sessions[i].(handler := Read(s.device)))
    case RUnlock(i) => Put(s, i, s.sessions[i].(handler := Dialed(s.sessions[i].handler.seen)))
    case CloseConn(i) => Put(s, i, s.sessions[i].(handler := ConnClosed))
    case HandOff(i) =>
      Put(s, i, s.sessions[i].(handler := HandedOff, tunnel := Copying(s.sessions[i].handler.conn.value),
        handedOff := true))
    case Return(i) =>
      var x := s.sessions[i].(handler := Returned);
      if x.handedOff then Put(s, i, x)
      else Put(s, i, x.(decrements := x.decrements + 1)).(gauge := s.gauge - 1)
    case CloseTunnel(i) => Put(s, i, s.sessions[i].(tunnel := TunnelClosed))
    case Finish(i) =>
      Put(s, i, s.sessions[i].(tunnel := Finished, decrements := s.sessions[i].decrements + 1)).(gauge := s.gauge - 1)
    case PreCheck(force) => s.(loop := PreChecked(force))
    case Lock => s.(loop := Locked(s.loop.force))
    case Recheck => s.(loop := if !s.loop.force && s.gauge > 0 then Waiting else Rechecked(s.loop.force))
    case Clear =>
      if s.device.None? then s.(loop := Waiting)
      else s.(device := None, loop := Closing(s.device.value, if s.loop.force then ForcedRotation else IdleRotation))
    case Close =>
      s.(closed := s.closed[s.loop.device := s.loop.cause],
         loop := if s.loop.cause.IdleRotation? || s.loop.cause.ForcedRotation? then Rebuilding else Waiting)
    case Rebuild(ok) =>
      if ok then s.(device := Some(s.built), built := s.built + 1, loop := Waiting) else s.(loop := Waiting)
    case Reconnect => s.(device := Some(s.built), built := s.built + 1)
    case Teardown(cause) =>
      if s.device.None? then s else s.(device := None, loop := Closing(s.device.value, cause))
  }

  // Invariants

  /** The sessions that still owe the gauge a decrement. */
  ghost function Owing(sessions: map<nat, Session>): set<nat> {
    set i | i in sessions && sessions[i].decrements == 0
  }

  /** Exactly one of the handler's defer and the tunnel goroutine's defer counts
      the session off, and only when nothing is held any more. */
  predicate SessionOk(x: Session) {
    && x.handedOff == !x.tunnel.NotSpawned?
    && (x.handedOff ==> x.kind.Connect? && (x.handler.HandedOff? || x.handler.Returned?))
    && (x.handler.HandedOff? ==> x.handedOff)
    && x.decrements == (if (x.handler.Returned? && !x.handedOff) || x.tunnel.Finished? then 1 else 0)
  }

  /** What the rest of the state guarantees a session: a device it holds was not
      closed by an idle rotation and is not about to be, and a zero gauge seen
      under the write lock means it holds none. */
  predicate Safe(s: State, x: Session) {
    && SessionOk(x)
    && (WriteLocked(s) ==> !HoldsReadLock(x))
    && (Held(x).Some? ==>
          var d := Held(x).value;
          && d < s.built && s.loop != Rechecked(false) && s.loop != Closing(d, IdleRotation)
          && (d in s.closed ==> !s.closed[d].IdleRotation?))
  }

  /** Devices are fresh, and neither the live one nor the one being closed is closed. */
  ghost predicate DevicesOk(s: State) {
    && (forall d | d in s.closed :: d < s.built)
    && (s.device.Some? ==> s.device.value < s.built && s.device.value !in s.closed)
    && (s.loop.Closing? ==> s.loop.device < s.built && s.loop.device !in s.closed && s.device.None?)
  }

  ghost predicate Inv(s: State) {
    && (forall i | i in s.sessions :: Safe(s, s.sessions[i]))
    && s.gauge == |Owing(s.sessions)|
    && DevicesOk(s)
  }

  /** Changing one session moves it in or out of the owing set, or neither. */
  lemma {:induction false} OwingPut(sessions: map<nat, Session>, i: nat, x: Session)
    ensures Owing(sessions[i := x]) == if x.decrements == 0 then Owing(sessions) + {i} else Owing(sessions) - {i}
  {
  }

  lemma {:induction false} HoldersOwe(s: State)
    requires Inv(s) && s.gauge <= 0
    ensures forall i | i in s.sessions :: Held(s.sessions[i]).None?
  {
    assert Owing(s.sessions) == {};
    forall i | i in s.sessions
      ensures Held(s.sessions[i]).None?
    {
      assert i !in Owing(s.sessions);
      assert Safe(s, s.sessions[i]);
    }
  }

  predicate OfSession(a: Action) {
    a.Begin? || a.RLock? || a.ReadDevice? || a.RUnlock? || a.CloseConn? || a.HandOff? || a.Return? || a.CloseTunnel?
      || a.Finish?
  }

  function Owes(s: State, i: nat): nat {
    if i in s.sessions && s.sessions[i].decrements == 0 then 1 else 0
  }

  /** A session's own step leaves it safe and keeps its part of the gauge. */
  lemma {:induction false} SessionStep(s: State, a: Action)
    requires Enabled(s, a) && OfSession(a) && DevicesOk(s)
    requires a.i in s.sessions ==> Safe(s, s.sessions[a.i])
    ensures var t := Apply(s, a);
            && t == s.(sessions := s.sessions[a.i := t.sessions[a.i]], gauge := t.gauge)
            && Safe(s, t.sessions[a.i])
            && t.gauge - s.gauge == Owes(t, a.i) - Owes(s, a.i)
  {
  }

  /** Replacing one session by a safe one keeps the invariant. */
  lemma {:induction false} PutInv(s: State, i: nat, x: Session, gauge: int)
    requires Inv(s) && Safe(s, x)
    requires gauge - s.gauge == (if x.decrements == 0 then 1 else 0) - Owes(s, i)
    ensures Inv(s.(sessions := s.sessions[i := x], gauge := gauge))
  {
    var t := s.(sessions := s.sessions[i := x], gauge := gauge);
    OwingPut(s.sessions, i, x);
    forall j | j in t.sessions
      ensures Safe(t, t.sessions[j])
    {
      assert j != i ==> Safe(s, s.sessions[j]);
    }
  }

  lemma {:induction false} LoopStep(s: State, a: Action)
    requires Inv(s) && Enabled(s, a) && !OfSession(a)
    ensures Inv(Apply(s, a))
  {
    if a.Recheck? && !(s.gauge > 0) { HoldersOwe(s); }
    var t := Apply(s, a);
    assert DevicesOk(t);
    forall i | i in t.sessions
      ensures Safe(t, t.sessions[i])
    {
      assert Safe(s, s.sessions[i]);
    }
  }

  lemma {:induction false} StepInv(s: State, a: Action)
    requires Inv(s) && Enabled(s, a)
    ensures Inv(Apply(s, a))
  {
    if OfSession(a) {
      SessionStep(s, a);
      PutInv(s, a.i, Apply(s, a).sessions[a.i], Apply(s, a).gauge);
    } else {
      LoopStep(s, a);
    }
  }

  // Runs

  ghost predicate Feasible(s: State, acts: seq<Action>)
    decreases |acts|
  {
    acts == [] || (Enabled(s, acts[0]) && Feasible(Apply(s, acts[0]), acts[1..]))
  }

  ghost function Run(s: State, acts: seq<Action>): State
    requires Feasible(s, acts)
    decreases |acts|
  {
    if acts == [] then s else Run(Apply(s, acts[0]), acts[1..])
  }

  lemma {:induction false} RunInv(s: State, acts: seq<Action>)
    requires Inv(s) && Feasible(s, acts)
    ensures Inv(Run(s, acts))
    decreases |acts|
  {
    if acts != [] {
      StepInv(s, acts[0]);
      RunInv(Apply(s, acts[0]), acts[1..]);
    }
  }

  /** The deferred decrement has run: the handler's, or the tunnel's after a hand-off. */
  predicate Done(x: Session) {
    if x.handedOff then x.tunnel.Finished? else x.handler.Returned?
  }

  /** In every interleaving of any number of sessions with the loop: a device that
      a session has read or is using is never one that a non-forced rotation
      closed, nor the one such a rotation is about to close; no session reads a
      closed device; and the gauge is the number of sessions not yet counted
      off, each of which is counted off exactly once. */
  lemma {:induction false} IdleRotationSparesSessions(acts: seq<Action>, i: nat, d: DeviceId)
    requires Feasible(Init(), acts) && i in Run(Init(), acts).sessions
    ensures var s := Run(Init(), acts);
            && (Held(s.sessions[i]) == Some(d) ==>
                  (d in s.closed ==> !s.closed[d].IdleRotation?) && s.loop != Closing(d, IdleRotation))
            && (s.device == Some(d) ==> d !in s.closed)
            && s.gauge == |Owing(s.sessions)|
            && s.sessions[i].decrements == (if Done(s.sessions[i]) then 1 else 0)
  {
    RunInv(Init(), acts);
    assert Safe(Run(Init(), acts), Run(Init(), acts).sessions[i]);
  }

  /** An unforced rotation gets past its lock exactly if no session is counted. */
  lemma {:induction false} UnforcedProceedsExactly(acts: seq<Action>)
    requires Feasible(Init(), acts) && Run(Init(), acts).loop.Locked?
    ensures var s := Run(Init(), acts);
            if s.loop.force || Owing(s.sessions) == {} then Apply(s, Recheck).loop == Rechecked(s.loop.force)
            else Apply(s, Recheck) == s.(loop := Waiting)
  {
    RunInv(Init(), acts);
  }

  /** What each step of a session holds on to: reading takes the live device, dialing
      and handing off keep it, closing lets go. */
  lemma {:induction false} SessionHolds(s: State, a: Action)
    requires Enabled(s, a) && OfSession(a) && (a.i in s.sessions ==> Safe(s, s.sessions[a.i]))
    ensures var t := Apply(s, a);
            && (a.ReadDevice? ==> Held(t.sessions[a.i]) == s.device)
            && (a.RUnlock? || a.HandOff? ==> Held(t.sessions[a.i]) == Held(s.sessions[a.i]))
            && (a.CloseConn? || a.CloseTunnel? || a.Begin? || a.RLock? ==> Held(t.sessions[a.i]).None?)
            && (a.Return? && !s.sessions[a.i].handedOff ==> Held(t.sessions[a.i]).None?)
  {
  }

  /** From any moment the loop waits on a live device no one is reading, a rotation that
      is forced or finds no session counted closes it and can bring up the next. */
  lemma {:induction false} RotationCloses(s: State, d: DeviceId, force: bool) returns (acts: seq<Action>, t: State)
    requires s.loop.Waiting? && s.device == Some(d) && NoReader(s) && (force || s.gauge <= 0)
    ensures Feasible(s, acts) && Run(s, acts) == t && t.sessions == s.sessions && t.loop.Waiting?
    ensures t.closed == s.closed[d := if force then ForcedRotation else IdleRotation] && t.device == Some(s.built)
  {
    var s1 := Apply(s, PreCheck(force));
    var s2 := Apply(s1, Lock);
    var s3 := Apply(s2, Recheck);
    var s4 := Apply(s3, Clear);
    var s5 := Apply(s4, Close);
    t := Apply(s5, Rebuild(true));
    acts := Cons(s5, Rebuild(true), [], t);
    acts := Cons(s4, Close, acts, t);
    acts := Cons(s3, Clear, acts, t);
    acts := Cons(s2, Recheck, acts, t);
    acts := Cons(s1, Lock, acts, t);
    acts := Cons(s, PreCheck(force), acts, t);
  }

  /** The exemption is real: a forced rotation does close a device in use. */
  lemma {:induction false} ForcedRotationDropsSessions() returns (acts: seq<Action>)
    ensures Feasible(Init(), acts)
    ensures var s := Run(Init(), acts);
            0 in s.sessions && Held(s.sessions[0]) == Some(0) && 0 in s.closed && s.closed[0].ForcedRotation?
  {
    var s0 := Init();
    var s1 := Apply(s0, Reconnect);
    var s2 := Apply(s1, Begin(0, Http));
    var s3 := Apply(s2, RLock(0));
    var s4 := Apply(s3, ReadDevice(0));
    var s5 := Apply(s4, RUnlock(0));
    var rest, t := RotationCloses(s5, 0, true);
    acts := Cons(s4, RUnlock(0), rest, t);
    acts := Cons(s3, ReadDevice(0), acts, t);
    acts := Cons(s2, RLock(0), acts, t);
    acts := Cons(s1, Begin(0, Http), acts, t);
    acts := Cons(s0, Reconnect, acts, t);
  }

  lemma {:induction false} Cons(s: State, a: Action, rest: seq<Action>, end: State) returns (acts: seq<Action>)
    requires Enabled(s, a) && Feasible(Apply(s, a), rest) && Run(Apply(s, a), rest) == end
    ensures acts == [a] + rest && Feasible(s, acts) && Run(s, acts) == end
  {
    acts := [a] + rest;
    assert acts[1..] == rest;
  }
}
