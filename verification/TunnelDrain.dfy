/** The tunnel-drain notification of the proxy service: tunnel goroutines count
    themselves down and the one that reaches zero closes and replaces the notify
    channel; WaitTunnels callers read the channel under the mutex, re-check the
    count and block. Channels are numbered in the order they are made. */
module TunnelDrain {
  import opened Logs

  datatype Tunnel = Running | ReachedZero | Holding | ClosedIt | Replaced | Gone

  datatype Waiter =
    | Checking
    | WantChannel
    | HasMutex
    | GotChannel(ch: nat)
    | Rechecking(ch: nat)
    | Blocked(ch: nat)
    | ReturnedNil
    | ReturnedErr

  datatype Owner = ByTunnel(i: nat) | ByWaiter(w: nat)

  datatype State = State(
    count: int,
    tunnels: map<nat, Tunnel>,
    waiters: map<nat, Waiter>,
    current: nat,
    closed: set<nat>,
    mutex: Option<Owner>)

  datatype Action =
    | Spawn(i: nat)
    | Exit(i: nat)
    | LockTunnel(i: nat)
    | CloseChannel(i: nat)
    | ReplaceChannel(i: nat)
    | UnlockTunnel(i: nat)
    | Call(w: nat)
    | Check(w: nat)
    | LockWaiter(w: nat)
    | ReadChannel(w: nat)
    | UnlockWaiter(w: nat)
    | Recheck(w: nat)
    | Wake(w: nat)
    | Expire(w: nat)

  function Init(): State { State(0, map[], map[], 0, {}, None) }

  predicate Enabled(s: State, a: Action) {
    match a
    case Spawn(i) => i !in s.tunnels
    case Exit(i) => i in s.tunnels && s.tunnels[i].Running?
    case LockTunnel(i) => i in s.tunnels && s.tunnels[i].ReachedZero? && s.mutex.None?
    case CloseChannel(i) => i in s.tunnels && s.tunnels[i].Holding?
    case ReplaceChannel(i) => i in s.tunnels && s.tunnels[i].ClosedIt?
    case UnlockTunnel(i) => i in s.tunnels && s.tunnels[i].Replaced?
    case Call(w) => w !in s.waiters
    case Check(w) => w in s.waiters && s.waiters[w].Checking?
    case LockWaiter(w) => w in s.waiters && s.waiters[w].WantChannel? && s.mutex.None?
    case ReadChannel(w) => w in s.waiters && s.waiters[w].HasMutex?
    case UnlockWaiter(w) => w in s.waiters && s.waiters[w].GotChannel?
    case Recheck(w) => w in s.waiters && s.waiters[w].Rechecking?
    case Wake(w) => w in s.waiters && s.waiters[w].Blocked? && s.waiters[w].ch in s.closed
    case Expire(w) => w in s.waiters && s.waiters[w].Blocked?
  }

  function SetTunnel(s: State, i: nat, t: Tunnel): State { s.(tunnels := s.tunnels[i := t]) }

  function SetWaiter(s: State, w: nat, x: Waiter): State { s.(waiters := s.waiters[w := x]) }

  function Apply(s: State, a: Action): State
    requires Enabled(s, a)
  {
    match a
    case Spawn(i) => SetTunnel(s, i, Running).(count := s.count + 1)
    case Exit(i) => SetTunnel(s, i, if s.count - 1 == 0 then ReachedZero else Gone).(count := s.count - 1)
    case LockTunnel(i) => SetTunnel(s, i, Holding).(mutex := Some(ByTunnel(i)))
    case CloseChannel(i) => SetTunnel(s, i, ClosedIt).(closed := s.closed + {s.current})
    case ReplaceChannel(i) => SetTunnel(s, i, Replaced).(current := s.current + 1)
    case UnlockTunnel(i) => SetTunnel(s, i, Gone).(mutex := None)
    case Call(w) => SetWaiter(s, w, Checking)
    case Check(w) => SetWaiter(s, w, if s.count == 0 then ReturnedNil else WantChannel)
    case LockWaiter(w) => SetWaiter(s, w, HasMutex).(mutex := Some(ByWaiter(w)))
    case ReadChannel(w) => SetWaiter(s, w, GotChannel(s.current))
    case UnlockWaiter(w) => SetWaiter(s, w, Rechecking(s.waiters[w].ch)).(mutex := None)
    case Recheck(w) => SetWaiter(s, w, if s.count == 0 then ReturnedNil else Blocked(s.waiters[w].ch))
    case Wake(w) => SetWaiter(s, w, Checking)
    case Expire(w) => SetWaiter(s, w, ReturnedErr)
  }

  // Invariants

  function Active(tunnels: map<nat, Tunnel>): set<nat> {
    set i | i in tunnels && tunnels[i].Running?
  }

  /** A goroutine that reached zero and has yet to close the channel. */
  predicate Closer(t: Tunnel) { t.ReachedZero? || t.Holding? }

  predicate CloserPending(s: State) {
    exists i | i in s.tunnels :: Closer(s.tunnels[i])
  }

  predicate TunnelOk(s: State, i: nat, t: Tunnel) {
    (t.Holding? || t.ClosedIt? || t.Replaced?) == (s.mutex == Some(ByTunnel(i)))
  }

  predicate WaiterOk(s: State, w: nat, x: Waiter) {
    && (x.HasMutex? || x.GotChannel?) == (s.mutex == Some(ByWaiter(w)))
    && (x.GotChannel? || x.Rechecking? || x.Blocked? ==> x.ch <= s.current)
    && (x.Blocked? && x.ch !in s.closed ==> x.ch == s.current && (s.count > 0 || CloserPending(s)))
  }

  /** Exactly the replaced channels are closed, plus the current one between its
      close and its replacement. */
  predicate ChannelsOk(s: State) {
    && (forall c | c in s.closed :: c <= s.current)
    && (forall c | 0 <= c < s.current :: c in s.closed)
    && (s.current in s.closed <==>
          s.mutex.Some? && s.mutex.value.ByTunnel? && s.mutex.value.i in s.tunnels
            && s.tunnels[s.mutex.value.i].ClosedIt?)
  }

  predicate MutexOk(s: State) {
    s.mutex.Some? ==> match s.mutex.value case ByTunnel(i) => i in s.tunnels case ByWaiter(w) => w in s.waiters
  }

  predicate Inv(s: State) {
    && MutexOk(s)
    && s.count == |Active(s.tunnels)|
    && ChannelsOk(s)
    && (forall i | i in s.tunnels :: TunnelOk(s, i, s.tunnels[i]))
    && (forall w | w in s.waiters :: WaiterOk(s, w, s.waiters[w]))
  }

  predicate OfTunnel(a: Action) {
    a.Spawn? || a.Exit? || a.LockTunnel? || a.CloseChannel? || a.ReplaceChannel? || a.UnlockTunnel?
  }

  lemma {:induction false} ActivePut(tunnels: map<nat, Tunnel>, i: nat, t: Tunnel)
    ensures Active(tunnels[i := t]) == if t.Running? then Active(tunnels) + {i} else Active(tunnels) - {i}
  {
  }

  /** A tunnel step keeps a wake-up pending for every blocked waiter. */
  lemma {:induction false} WakeupKept(s: State, a: Action)
    requires Inv(s) && Enabled(s, a) && OfTunnel(a)
    requires s.count > 0 || CloserPending(s)
    ensures var t := Apply(s, a); t.count > 0 || CloserPending(t) || a.CloseChannel?
  {
    var t := Apply(s, a);
    var i := a.i;
    ActivePut(s.tunnels, i, t.tunnels[i]);
    if a.Exit? && t.count == 0 {
      assert Closer(t.tunnels[i]);
    } else if s.count <= 0 {
      var j :| j in s.tunnels && Closer(s.tunnels[j]);
      if a.LockTunnel? {
        assert Closer(t.tunnels[i]);
      } else if !a.CloseChannel? && j != i {
        assert Closer(t.tunnels[j]);
      }
    }
  }

  /** The part of the state a tunnel step changes. */
  lemma {:induction false} TunnelOwnStep(s: State, a: Action)
    requires Inv(s) && Enabled(s, a) && OfTunnel(a)
    ensures var t := Apply(s, a);
            && t.waiters == s.waiters && t.tunnels == s.tunnels[a.i := t.tunnels[a.i]]
            && MutexOk(t) && ChannelsOk(t) && TunnelOk(t, a.i, t.tunnels[a.i])
            && s.closed <= t.closed && (t.closed == s.closed || t.current in t.closed) && s.current <= t.current
            && (t.current != s.current ==> s.current in s.closed)
            && (a.CloseChannel? ==> t.current == s.current && t.current in t.closed)
            && (t.mutex == s.mutex || (s.mutex.None? && t.mutex == Some(ByTunnel(a.i)))
                  || (s.mutex == Some(ByTunnel(a.i)) && t.mutex.None?))
  {
    assert a.i in s.tunnels ==> TunnelOk(s, a.i, s.tunnels[a.i]);
  }

  lemma {:induction false} CountStep(s: State, a: Action)
    requires s.count == |Active(s.tunnels)| && Enabled(s, a) && OfTunnel(a)
    ensures var t := Apply(s, a); t.count == |Active(t.tunnels)|
  {
    ActivePut(s.tunnels, a.i, Apply(s, a).tunnels[a.i]);
  }

  lemma {:induction false} TunnelStep(s: State, a: Action)
    requires Inv(s) && Enabled(s, a) && OfTunnel(a)
    ensures Inv(Apply(s, a))
  {
    var t := Apply(s, a);
    TunnelOwnStep(s, a);
    CountStep(s, a);
    if s.count > 0 || CloserPending(s) { WakeupKept(s, a); }
    forall j | j in t.tunnels
      ensures TunnelOk(t, j, t.tunnels[j])
    {
      assert j != a.i ==> TunnelOk(s, j, s.tunnels[j]);
    }
    forall w | w in t.waiters
      ensures WaiterOk(t, w, t.waiters[w])
    {
      assert WaiterOk(s, w, s.waiters[w]);
    }
  }

  lemma {:induction false} WaiterStep(s: State, a: Action)
    requires Inv(s) && Enabled(s, a) && !OfTunnel(a)
    ensures Inv(Apply(s, a))
  {
    var w, t := a.w, Apply(s, a);
    assert w in s.waiters ==> WaiterOk(s, w, s.waiters[w]);
    assert CloserPending(s) ==> CloserPending(t);
    forall i | i in t.tunnels
      ensures TunnelOk(t, i, t.tunnels[i])
    {
      assert TunnelOk(s, i, s.tunnels[i]);
    }
    forall v | v in t.waiters
      ensures WaiterOk(t, v, t.waiters[v])
    {
      assert v != w ==> WaiterOk(s, v, s.waiters[v]);
    }
  }

  lemma {:induction false} StepInv(s: State, a: Action)
    requires Inv(s) && Enabled(s, a)
    ensures Inv(Apply(s, a))
  {
    if OfTunnel(a) { TunnelStep(s, a); } else { WaiterStep(s, a); }
  }

  // Runs

  predicate Feasible(s: State, acts: seq<Action>)
    decreases |acts|
  {
    acts == [] || (Enabled(s, acts[0]) && Feasible(Apply(s, acts[0]), acts[1..]))
  }

  function Run(s: State, acts: seq<Action>): State
    requires Feasible(s, acts)
    decreases |acts|
  {
    if acts == [] then s else Run(Apply(s, acts[0]), acts[1..])
  }

  lemma {:induction false} RunInv(s: State, acts: seq<Action>)
    requires Inv(s) && Feasible(s, acts)
    ensures Inv(Run(s, acts))
    decreases |acts|
  {
    if acts != [] {
      StepInv(s, acts[0]);
      RunInv(Apply(s, acts[0]), acts[1..]);
    }
  }

  /** No lost wakeup, in every interleaving: a waiter blocked on an unclosed
      channel holds the current one, while tunnels remain or a goroutine that
      reached zero has yet to close it; so once the tunnels have drained and the
      closers are done, every blocked waiter can wake. No channel is closed
      twice, and the count is the number of running tunnels. */
  lemma {:induction false} NoLostWakeup(acts: seq<Action>, w: nat, i: nat)
    requires Feasible(Init(), acts)
    ensures var s := Run(Init(), acts);
            && (w in s.waiters && s.waiters[w].Blocked? && s.waiters[w].ch !in s.closed ==>
                  s.waiters[w].ch == s.current && (s.count > 0 || CloserPending(s)))
            && (w in s.waiters && s.waiters[w].Blocked? && s.count == 0 && !CloserPending(s) ==> Enabled(s, Wake(w)))
            && (Enabled(s, CloseChannel(i)) ==> s.current !in s.closed)
            && s.count == |Active(s.tunnels)|
  {
    RunInv(Init(), acts);
    var s := Run(Init(), acts);
    assert w in s.waiters ==> WaiterOk(s, w, s.waiters[w]);
    assert i in s.tunnels ==> TunnelOk(s, i, s.tunnels[i]);
  }

  /** A nil return means the count was zero at some moment during the call. */
  lemma {:induction false} NilSawZero(s: State, acts: seq<Action>, w: nat) returns (k: nat)
    requires Feasible(s, acts) && w in Run(s, acts).waiters && Run(s, acts).waiters[w].ReturnedNil?
    requires w in s.waiters ==> !s.waiters[w].ReturnedNil?
    ensures k <= |acts| && Feasible(s, acts[..k])
    ensures var m := Run(s, acts[..k]);
            m.count == 0 && w in m.waiters && (m.waiters[w].Checking? || m.waiters[w].Rechecking?)
    decreases |acts|
  {
    var t := Apply(s, acts[0]);
    if w in t.waiters && t.waiters[w].ReturnedNil? {
      k := 0;
      assert acts[..0] == [];
    } else {
      var j := NilSawZero(t, acts[1..], w);
      k := j + 1;
      assert acts[..k][1..] == acts[1..][..j] && acts[..k][0] == acts[0];
    }
  }

  /** An error return means the context expired while that caller was blocked. */
  lemma {:induction false} ErrSawExpiry(s: State, acts: seq<Action>, w: nat) returns (k: nat)
    requires Feasible(s, acts) && w in Run(s, acts).waiters && Run(s, acts).waiters[w].ReturnedErr?
    requires w in s.waiters ==> !s.waiters[w].ReturnedErr?
    ensures k < |acts| && Feasible(s, acts[..k]) && acts[k] == Expire(w)
    ensures var m := Run(s, acts[..k]); w in m.waiters && m.waiters[w].Blocked?
    decreases |acts|
  {
    var t := Apply(s, acts[0]);
    if w in t.waiters && t.waiters[w].ReturnedErr? {
      k := 0;
      assert acts[..0] == [];
    } else {
      var j := ErrSawExpiry(t, acts[1..], w);
      k := j + 1;
      assert acts[..k][1..] == acts[1..][..j] && acts[..k][0] == acts[0];
    }
  }

  lemma {:induction false} ReturnedStays(s: State, acts: seq<Action>, w: nat)
    requires Feasible(s, acts) && w in s.waiters && (s.waiters[w].ReturnedNil? || s.waiters[w].ReturnedErr?)
    ensures w in Run(s, acts).waiters && Run(s, acts).waiters[w] == s.waiters[w]
    decreases |acts|
  {
    if acts != [] { ReturnedStays(Apply(s, acts[0]), acts[1..], w); }
  }

  /** In every run a caller has returned an error if and only if its context expired. */
  lemma {:induction false} ErrExactly(s: State, acts: seq<Action>, w: nat)
    requires Feasible(s, acts) && (w in s.waiters ==> !s.waiters[w].ReturnedErr?)
    ensures Expire(w) in acts <==> w in Run(s, acts).waiters && Run(s, acts).waiters[w].ReturnedErr?
    decreases |acts|
  {
    if acts != [] {
      var t := Apply(s, acts[0]);
      assert acts == [acts[0]] + acts[1..];
      if acts[0] == Expire(w) {
        ReturnedStays(t, acts[1..], w);
      } else {
        ErrExactly(t, acts[1..], w);
      }
    }
  }

  /** A goroutine that is to close the channel took the count to zero by its own exit. */
  lemma {:induction false} CloserSawZero(s: State, acts: seq<Action>, i: nat) returns (k: nat)
    requires Feasible(s, acts) && i in Run(s, acts).tunnels && Closer(Run(s, acts).tunnels[i])
    requires i in s.tunnels ==> s.tunnels[i].Running?
    ensures k < |acts| && acts[k] == Exit(i) && Feasible(s, acts[..k]) && Enabled(Run(s, acts[..k]), Exit(i))
    ensures Apply(Run(s, acts[..k]), Exit(i)).count == 0
    decreases |acts|
  {
    var t := Apply(s, acts[0]);
    if i in t.tunnels && !t.tunnels[i].Running? {
      k := 0;
      assert acts[..0] == [];
      if t.tunnels[i].Gone? { StaysGone(t, acts[1..], i); }
    } else {
      var j := CloserSawZero(t, acts[1..], i);
      k := j + 1;
      assert acts[..k][1..] == acts[1..][..j] && acts[..k][0] == acts[0];
    }
  }

  lemma {:induction false} StaysGone(s: State, acts: seq<Action>, i: nat)
    requires Feasible(s, acts) && i in s.tunnels && s.tunnels[i].Gone?
    ensures i in Run(s, acts).tunnels && Run(s, acts).tunnels[i].Gone?
    decreases |acts|
  {
    if acts != [] { StaysGone(Apply(s, acts[0]), acts[1..], i); }
  }

  // Once the tunnels have drained

  predicate Drained(s: State) { s.count == 0 && !CloserPending(s) }

  /** How many steps of its own a caller still has to take to return nil. */
  function StepsLeft(x: Waiter): nat {
    match x
    case WantChannel => 4
    case HasMutex => 3
    case GotChannel(_) => 2
    case Blocked(_) => 2
    case Rechecking(_) => 1
    case Checking => 1
    case ReturnedNil => 0
    case ReturnedErr => 0
  }

  predicate OwnStep(a: Action, w: nat) { !OfTunnel(a) && a.w == w }

  function OwnSteps(acts: seq<Action>, w: nat): nat {
    if acts == [] then 0 else (if OwnStep(acts[0], w) then 1 else 0) + OwnSteps(acts[1..], w)
  }

  /** No new tunnel, and the context of w lives on. */
  predicate Undisturbed(acts: seq<Action>, w: nat) {
    forall i | 0 <= i < |acts| :: !acts[i].Spawn? && acts[i] != Expire(w)
  }

  lemma {:induction false} DrainedStays(s: State, a: Action)
    requires Inv(s) && Drained(s) && Enabled(s, a) && !a.Spawn?
    ensures Drained(Apply(s, a))
  {
    assert Active(s.tunnels) == {};
    assert forall i | i in s.tunnels :: i !in Active(s.tunnels);
    var t := Apply(s, a);
    assert forall i | i in t.tunnels :: !Closer(t.tunnels[i]) by {
      assert forall i | i in s.tunnels :: !Closer(s.tunnels[i]);
    }
  }

  lemma {:induction false} DrainedStep(s: State, a: Action, w: nat)
    requires Inv(s) && Drained(s) && Enabled(s, a) && !a.Spawn? && a != Expire(w)
    requires w in s.waiters && !s.waiters[w].ReturnedErr?
    ensures var t := Apply(s, a);
            && w in t.waiters && !t.waiters[w].ReturnedErr?
            && StepsLeft(t.waiters[w]) == StepsLeft(s.waiters[w]) - (if OwnStep(a, w) then 1 else 0)
  {
  }

  lemma {:induction false} DrainedRun(s: State, acts: seq<Action>, w: nat)
    requires Inv(s) && Drained(s) && Feasible(s, acts) && Undisturbed(acts, w)
    requires w in s.waiters && !s.waiters[w].ReturnedErr?
    ensures var t := Run(s, acts);
            && Inv(t) && Drained(t) && w in t.waiters && !t.waiters[w].ReturnedErr?
            && StepsLeft(t.waiters[w]) == StepsLeft(s.waiters[w]) - OwnSteps(acts, w)
    decreases |acts|
  {
    if acts != [] {
      assert !acts[0].Spawn? && acts[0] != Expire(w);
      assert Undisturbed(acts[1..], w) by { assert forall i | 0 <= i < |acts| - 1 :: acts[1..][i] == acts[i + 1]; }
      StepInv(s, acts[0]);
      DrainedStays(s, acts[0]);
      DrainedStep(s, acts[0], w);
      DrainedRun(Apply(s, acts[0]), acts[1..], w);
    }
  }

  /** The step a caller takes next. */
  function NextStep(x: Waiter, w: nat): Action {
    match x
    case WantChannel => LockWaiter(w)
    case HasMutex => ReadChannel(w)
    case GotChannel(_) => UnlockWaiter(w)
    case Rechecking(_) => Recheck(w)
    case Blocked(_) => Wake(w)
    case _ => Check(w)
  }

  /** Once drained, in every run and every continuation without a new tunnel or an
      expiry: each own step of a caller brings it one nearer to returning nil, it has
      returned nil after as many as were left, and until then its next step is open
      to it, except that the mutex may have to be waited for. A blocked caller is two
      steps away. */
  lemma {:induction false} DrainedCallersReturn(acts: seq<Action>, more: seq<Action>, w: nat)
    requires Feasible(Init(), acts) && Drained(Run(Init(), acts))
    requires w in Run(Init(), acts).waiters && !Run(Init(), acts).waiters[w].ReturnedErr?
    requires Feasible(Run(Init(), acts), more) && Undisturbed(more, w)
    ensures var s := Run(Init(), acts);
            var t := Run(s, more);
            && w in t.waiters && OwnSteps(more, w) <= StepsLeft(s.waiters[w])
            && (t.waiters[w].ReturnedNil? <==> OwnSteps(more, w) == StepsLeft(s.waiters[w]))
            && (!t.waiters[w].ReturnedNil? ==>
                  Enabled(t, NextStep(t.waiters[w], w)) || (t.waiters[w].WantChannel? && t.mutex.Some?))
  {
    RunInv(Init(), acts);
    var s := Run(Init(), acts);
    DrainedRun(s, more, w);
    if StepsLeft(Run(s, more).waiters[w]) > 0 { CanStep(Run(s, more), w); }
  }

  lemma {:induction false} CanStep(s: State, w: nat)
    requires Inv(s) && Drained(s) && w in s.waiters && StepsLeft(s.waiters[w]) > 0
    ensures Enabled(s, NextStep(s.waiters[w], w)) || (s.waiters[w].WantChannel? && s.mutex.Some?)
  {
    assert WaiterOk(s, w, s.waiters[w]);
  }
}
