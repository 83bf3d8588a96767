/** Theorems about every interleaving of submissions, workers and GC passes. */
module JobTheorems {
  import opened Durations
  import opened JobGc
  import opened JobLifecycle
  import opened JobRecord
  import opened JobStore
  import opened Logs

  // Runs

  predicate Feasible(g: Config, n: nat, s: State, acts: seq<Action>)
    decreases |acts|
  {
    acts == [] || (Enabled(n, s, acts[0]) && Feasible(g, n, Apply(g, n, s, acts[0]), acts[1..]))
  }

  function Run(g: Config, n: nat, s: State, acts: seq<Action>): State
    requires Feasible(g, n, s, acts)
    decreases |acts|
  {
    if acts == [] then s else Run(g, n, Apply(g, n, s, acts[0]), acts[1..])
  }

  /** A process starts on whatever bytes it finds in the store. */
  function Init(b: Bucket, clock: Time): State { State(b, map[], 0, Resting, clock, map[], {}) }

  predicate AllWellShaped(b: Bucket) { forall k | k in b :: WellShaped(b[k]) }

  lemma {:induction false} RunRecords(g: Config, n: nat, s: State, acts: seq<Action>, all: bool)
    requires ValidConfig(g) && RecordsOk(g, s, all) && Feasible(g, n, s, acts)
    ensures RecordsOk(g, Run(g, n, s, acts), all)
    decreases |acts|
  {
    if acts != [] {
      StepRecords(g, n, s, acts[0], all);
      RunRecords(g, n, Apply(g, n, s, acts[0]), acts[1..], all);
    }
  }

  // Steps that leave the store alone

  /** Neither a committed write, nor a winning swap, nor a batch. */
  predicate Quiet(s: State, a: Action)
    requires a.Swap? ==> a.j in s.jobs
  {
    if a.Write? then !a.ok else if a.Swap? then !Wins(s, a) else OfJob(a) || a.PassBegins?
  }

  lemma {:induction false} QuietStep(g: Config, n: nat, s: State, a: Action)
    requires Enabled(n, s, a) && Quiet(s, a)
    ensures var t := Apply(g, n, s, a); t.bucket == s.bucket && t.lives == s.lives && t.moved == s.moved
  {
  }

  // Slots

  lemma {:induction false} RunSlots(g: Config, n: nat, s: State, acts: seq<Action>)
    requires SlotsOk(n, s) && Feasible(g, n, s, acts)
    ensures SlotsOk(n, Run(g, n, s, acts))
    decreases |acts|
  {
    if acts != [] {
      StepSlots(g, n, s, acts[0]);
      RunSlots(g, n, Apply(g, n, s, acts[0]), acts[1..]);
    }
  }

  lemma {:induction false} HolderCounts(s: State, n: nat, j: nat)
    requires SlotsOk(n, s)
    ensures Holding(s.jobs, j) <= s.slots
  {
    if Holding(s.jobs, j) == 1 { assert j in SlotHolders(s.jobs); }
  }

  lemma {:induction false} JobAfter(g: Config, n: nat, s: State, a: Action)
    requires Enabled(n, s, a) && OfJob(a)
    ensures var t := Apply(g, n, s, a);
            && a.j in t.jobs && Holding(t.jobs, a.j) - Holding(s.jobs, a.j) ==
               (if a.Claim? then 1 else if a.Surrender? || a.Release? then -1 else 0)
            && (a.QueueFull? || a.Surrender? || a.Release? ==> t.jobs[a.j].pc.Over?)
            && ((a.Drain? || a.Write?) && !a.ok ==> t.jobs[a.j].pc.Failing?)
            && (a.Swap? ==> t.jobs[a.j].pc.Swapped?)
  {
  }

  /** What one step does to the slots, and which outcomes leave the store alone. */
  predicate SlotStep(n: nat, s: State, a: Action, t: State)
    requires Enabled(n, s, a) && (OfJob(a) ==> a.j in t.jobs)
  {
    && t.slots == s.slots + (if a.Claim? then 1 else if a.Surrender? || a.Release? then -1 else 0)
    && (Quiet(s, a) ==> t.bucket == s.bucket && t.lives == s.lives)
    && (a.QueueFull? ==> Quiet(s, a) && s.slots == n && t.jobs[a.j].pc.Over?)
    && (a.Drain? && !a.ok ==> Quiet(s, a) && Enabled(n, t, Surrender(a.j)))
    && (a.Write? && !a.ok ==> Quiet(s, a) && Enabled(n, t, Surrender(a.j)))
    && (a.Surrender? || a.Release? ==> Quiet(s, a) && t.jobs[a.j].pc.Over?)
    && (a.Swap? ==> Enabled(n, t, Release(a.j)))
  }

  lemma {:induction false} SlotStepHolds(g: Config, n: nat, s: State, a: Action)
    requires SlotsOk(n, s) && Enabled(n, s, a)
    ensures SlotStep(n, s, a, Apply(g, n, s, a))
  {
    if Quiet(s, a) { QuietStep(g, n, s, a); }
    if OfJob(a) {
      SlotEffect(g, n, s, a);
      JobAfter(g, n, s, a);
      HolderCounts(s, n, a.j);
    }
  }

  /** Slots: in every run, the occupied slots are exactly the jobs past their claim
      and not yet over, never more than the limit, and a submission is turned away
      exactly when they are used up. A further step takes a slot
      only by claiming and returns one only by giving up or releasing, which
      ends its job. A full queue, a body that cannot be drained and a write that
      fails leave the store and its history alone; the latter two still hold the
      slot and can give it back. */
  lemma {:induction false} SlotConservation(g: Config, n: nat, b: Bucket, clock: Time, acts: seq<Action>, a: Action)
    requires Feasible(g, n, Init(b, clock), acts) && Enabled(n, Run(g, n, Init(b, clock), acts), a)
    ensures var s := Run(g, n, Init(b, clock), acts);
            && s.slots == |SlotHolders(s.jobs)| <= n && SlotStep(n, s, a, Apply(g, n, s, a))
            && forall j | j in s.jobs && s.jobs[j].pc.Looked? ::
                 && (Enabled(n, s, Claim(j)) <==> |SlotHolders(s.jobs)| < n)
                 && (Enabled(n, s, QueueFull(j)) <==> |SlotHolders(s.jobs)| == n)
  {
    RunSlots(g, n, Init(b, clock), acts);
    SlotStepHolds(g, n, Run(g, n, Init(b, clock), acts), a);
  }

  // One stage per pass

  /** A stored record that looks no older than the fraction of a second of `now` to
      whichever batch its status is due for. */
  predicate JustMoved(w: Stored, now: Time) {
    && w.Wire? && !w.status.Unknown?
    && (w.status.Tombstone? ==> w.evictedAt == Some(Unix(now)))
    && (IsTerminal(w.status) ==> w.updatedAt >= Unix(now))
  }

  predicate MovedOk(s: State) {
    && ClockOk(s)
    && (s.gc.Resting? || s.gc.Timeouts? ==> s.moved == {})
    && (!s.gc.Resting? ==> forall k | k in s.moved :: k in s.bucket && JustMoved(s.bucket[k], s.gc.now))
  }

  lemma {:induction false} MovedByBatch(g: Config, now: Time, w: Stored)
    requires now > ZERO_TIME
    ensures Hits(TimesOut(g, now), w) ==> JustMoved(AfterTimeouts(g, now, w), now)
    ensures Hits(Expires(g, now), w) ==> JustMoved(Rewritten(Expires(g, now), Bury(now), w), now)
  {
  }

  lemma {:induction false} MovedBySwap(s: State, a: Action)
    requires a.Swap? && a.j in s.jobs && Wins(s, a) && MovedOk(s) && !s.gc.Resting? && s.clock <= a.now
    ensures JustMoved(OnSwap(s, a).bucket[s.jobs[a.j].tag], s.gc.now)
  {
    UnixGrows(s.gc.now, a.now);
  }

  lemma {:induction false} UnixGrows(t: Time, u: Time)
    requires t <= u
    ensures Unix(t) <= Unix(u) && Trunc(t) <= Trunc(u)
  {
  }

  lemma {:induction false} StepMoved(g: Config, n: nat, s: State, a: Action)
    requires MovedOk(s) && Enabled(n, s, a)
    ensures MovedOk(Apply(g, n, s, a))
  {
    var t := Apply(g, n, s, a);
    if Quiet(s, a) {
      QuietStep(g, n, s, a);
    } else if !t.gc.Resting? {
      forall k | k in t.moved
        ensures k in t.bucket && JustMoved(t.bucket[k], t.gc.now)
      {
        if !OfJob(a) {
          MovedByBatch(g, s.gc.now, s.bucket[k]);
        } else if a.Swap? {
          MovedBySwap(s, a);
        }
      }
    }
  }

  lemma {:induction false} RunMoved(g: Config, n: nat, s: State, acts: seq<Action>)
    requires MovedOk(s) && Feasible(g, n, s, acts)
    ensures MovedOk(Run(g, n, s, acts))
    decreases |acts|
  {
    if acts != [] {
      StepMoved(g, n, s, acts[0]);
      RunMoved(g, n, Apply(g, n, s, acts[0]), acts[1..]);
    }
  }

  lemma {:induction false} JustMovedStays(g: Config, now: Time, w: Stored)
    requires JustMoved(w, now) && g.completeTTL >= SECOND - 1 && g.tombstoneTTL >= SECOND - 1
    ensures !Hits(Expires(g, now), w) && !Hits(Forgets(g, now), w)
  {
    if IsTerminal(w.status) {
      assert w.updatedAt * SECOND >= Trunc(now);
      assert now - w.updatedAt * SECOND <= SECOND - 1;
    }
  }

  /** One stage per pass, for every content of the store and every interleaving,
      overlapping submissions included, and whichever batches fail: with TTLs of
      at least a second less a nanosecond, no batch acts on a record that an
      earlier batch of the same pass has acted on. */
  lemma {:induction false} OneStagePerPass(g: Config, n: nat, b: Bucket, clock: Time, acts: seq<Action>)
    requires ZERO_TIME < clock && Feasible(g, n, Init(b, clock), acts)
    requires g.completeTTL >= SECOND - 1 && g.tombstoneTTL >= SECOND - 1
    ensures var s := Run(g, n, Init(b, clock), acts);
            && (s.gc.Timeouts? ==> s.moved == {})
            && (s.gc.Tombstones? ==> s.moved !! Matches(s.bucket, Expires(g, s.gc.now)))
            && (s.gc.Deletes? ==> s.moved !! Matches(s.bucket, Forgets(g, s.gc.now)))
  {
    RunMoved(g, n, Init(b, clock), acts);
    var s := Run(g, n, Init(b, clock), acts);
    if !s.gc.Resting? {
      forall k | k in s.moved
        ensures !Hits(Expires(g, s.gc.now), s.bucket[k]) && !Hits(Forgets(g, s.gc.now), s.bucket[k])
      {
        JustMovedStays(g, s.gc.now, s.bucket[k]);
      }
    }
  }

  // Lifecycle

  function StatusOf(b: Bucket, k: Tag): Option<Status> {
    if k in b && b[k].Wire? then Some(b[k].status) else None
  }

  /** pending -> completed, failed or failed_timeout -> tombstone -> absent -> pending. */
  predicate Legal(from: Option<Status>, to: Option<Status>) {
    || from == to
    || (from.None? && to == Some(Pending))
    || (from == Some(Pending) && to.Some? && IsTerminal(to.value))
    || (from.Some? && IsTerminal(from.value) && to == Some(Tombstone))
    || (from == Some(Tombstone) && to.None?)
  }

  ghost predicate LegalStep(s: State, t: State) {
    forall k :: Legal(StatusOf(s.bucket, k), StatusOf(t.bucket, k))
  }

  /** A pending record about to be written over a readable record that is not pending. */
  predicate Reopens(s: State, a: Action)
    requires a.Write? ==> a.j in s.jobs
  {
    a.Write? && a.ok && StatusOf(s.bucket, s.jobs[a.j].tag).Some?
      && StatusOf(s.bucket, s.jobs[a.j].tag) != Some(Pending)
  }

  lemma {:induction false} BatchesLegal(g: Config, n: nat, s: State, a: Action)
    requires Enabled(n, s, a) && !OfJob(a)
    ensures LegalStep(s, Apply(g, n, s, a))
  {
  }

  lemma {:induction false} SwapLegal(s: State, a: Action)
    requires a.Swap? && a.j in s.jobs && Wins(s, a)
    ensures LegalStep(s, OnSwap(s, a))
  {
  }

  /** Exactly which steps break the lifecycle order, for every state, so in every run
      on every store: the write of a submission whose lookup is out of date,
      over a record that is no longer pending. */
  lemma {:induction false} LifecycleExactly(g: Config, n: nat, s: State, a: Action)
    requires Enabled(n, s, a)
    ensures LegalStep(s, Apply(g, n, s, a)) <==> !Reopens(s, a)
  {
    var t := Apply(g, n, s, a);
    if Quiet(s, a) {
      QuietStep(g, n, s, a);
    } else if !OfJob(a) {
      BatchesLegal(g, n, s, a);
    } else if a.Swap? {
      SwapLegal(s, a);
    } else {
      var tag := s.jobs[a.j].tag;
      assert StatusOf(t.bucket, tag) == Some(Pending);
      assert forall k | k != tag :: StatusOf(t.bucket, k) == StatusOf(s.bucket, k);
      assert Legal(StatusOf(s.bucket, tag), StatusOf(t.bucket, tag)) <==> !Reopens(s, a);
    }
  }

  // The bookkeeping the results are stated on

  /** The tags a pass is said to have acted on are those whose status its batches have
      changed so far. */
  lemma {:induction false} MovedExactly(g: Config, n: nat, s: State, a: Action)
    requires Enabled(n, s, a)
    ensures var t := Apply(g, n, s, a);
            if a.TimeoutBatch? || a.TombstoneBatch? then
              forall k :: k in t.moved <==> k in s.moved || StatusOf(t.bucket, k) != StatusOf(s.bucket, k)
            else t.moved == if a.DeleteBatch? then {} else s.moved
  {
  }

  /** What a step adds to the history of a record: its birth, how and when it left
      pending, when it was buried; and nothing else. */
  predicate Told(s: State, a: Action, t: State, k: Tag)
    requires k in s.lives && k in t.lives && (a.Write? || a.Swap? ==> a.j in s.jobs)
  {
    if StatusOf(t.bucket, k) == StatusOf(s.bucket, k) then t.lives[k] == s.lives[k]
    else if a.Swap? then
      s.jobs[a.j].tag == k && t.lives[k] == s.lives[k].(left := Some(a.now), report := Some(ReportOf(a.response)))
    else if a.TimeoutBatch? then
      s.gc.Timeouts? && t.lives[k] == s.lives[k].(left := Some(s.gc.now), expired := true)
    else a.TombstoneBatch? && s.gc.Tombstones? && t.lives[k] == s.lives[k].(evicted := Some(s.gc.now))
  }

  /** Every record this process wrote has a history until it is gone, and the history
      tells what happened to it. */
  lemma {:induction false} HistoryTold(g: Config, n: nat, s: State, a: Action, k: Tag)
    requires Enabled(n, s, a) && s.lives.Keys <= s.bucket.Keys
    ensures var t := Apply(g, n, s, a);
            var writes := a.Write? && a.ok && s.jobs[a.j].tag == k;
            && (k in t.lives <==> (k in s.lives || writes) && k in t.bucket)
            && (writes ==> t.lives[k] == Life(a.j, s.jobs[a.j].pc.born, None, false, None, None))
            && (k in s.lives && k in t.lives && !writes ==> Told(s, a, t, k))
  {
    if Quiet(s, a) {
      QuietStep(g, n, s, a);
    } else if !OfJob(a) {
      BatchTold(g, n, s, a, k);
    }
  }

  lemma {:induction false} BatchTold(g: Config, n: nat, s: State, a: Action, k: Tag)
    requires Enabled(n, s, a) && !OfJob(a) && s.lives.Keys <= s.bucket.Keys
    ensures var t := Apply(g, n, s, a);
            (k in t.lives <==> k in s.lives && k in t.bucket) && (k in s.lives && k in t.lives ==> Told(s, a, t, k))
  {
  }

  // Serialised submissions

  /** Between its lookup and its write of the pending record. */
  predicate InWindow(pc: Pc) { pc.Looked? || pc.Claimed? || pc.Drained? || pc.Stamped? }

  predicate WindowOk(s: State) {
    && (forall j | j in s.jobs && InWindow(s.jobs[j].pc) :: s.jobs[j].tag !in s.bucket)
    && (forall i, j | i in s.jobs && j in s.jobs && i != j && InWindow(s.jobs[i].pc) && InWindow(s.jobs[j].pc) ::
          s.jobs[i].tag != s.jobs[j].tag)
  }

  /** No two submissions of the same tag overlap between lookup and write. */
  predicate Serial(s: State, a: Action) {
    a.Lookup? ==> forall j | j in s.jobs && InWindow(s.jobs[j].pc) :: s.jobs[j].tag != a.tag
  }

  predicate Serialised(g: Config, n: nat, s: State, acts: seq<Action>)
    requires Feasible(g, n, s, acts)
    decreases |acts|
  {
    acts == [] || (Serial(s, acts[0]) && Serialised(g, n, Apply(g, n, s, acts[0]), acts[1..]))
  }

  /** Only a write adds a tag, its own, and its job leaves the window with it; only a
      lookup that found nothing opens a window. */
  lemma {:induction false} StepKeys(g: Config, n: nat, s: State, a: Action)
    requires Enabled(n, s, a)
    ensures var t := Apply(g, n, s, a);
            && t.bucket.Keys <= s.bucket.Keys + (if a.Write? && a.ok then {s.jobs[a.j].tag} else {})
            && (!OfJob(a) ==> t.jobs == s.jobs)
            && (OfJob(a) ==> a.j in t.jobs && t.jobs == s.jobs[a.j := t.jobs[a.j]])
            && (OfJob(a) && a.j in s.jobs ==> t.jobs[a.j].tag == s.jobs[a.j].tag)
            && (OfJob(a) && a.j in s.jobs && InWindow(t.jobs[a.j].pc) ==> InWindow(s.jobs[a.j].pc))
            && (a.Write? ==> InWindow(s.jobs[a.j].pc) && !InWindow(t.jobs[a.j].pc))
            && (OfJob(a) && a.j !in s.jobs ==> a.Lookup? && t.jobs[a.j].tag == a.tag && a.tag !in s.bucket)
  {
  }

  lemma {:induction false} StepWindow(g: Config, n: nat, s: State, a: Action)
    requires WindowOk(s) && Enabled(n, s, a) && Serial(s, a)
    ensures WindowOk(Apply(g, n, s, a))
  {
    StepKeys(g, n, s, a);
    WindowKept(s, Apply(g, n, s, a), a);
  }

  lemma {:induction false} WindowKept(s: State, t: State, a: Action)
    requires WindowOk(s) && Serial(s, a) && (a.Write? ==> a.j in s.jobs)
    requires t.bucket.Keys <= s.bucket.Keys + (if a.Write? && a.ok then {s.jobs[a.j].tag} else {})
    requires if OfJob(a) then a.j in t.jobs && t.jobs == s.jobs[a.j := t.jobs[a.j]] else t.jobs == s.jobs
    requires OfJob(a) && a.j in s.jobs ==> t.jobs[a.j].tag == s.jobs[a.j].tag
    requires OfJob(a) && a.j in s.jobs && InWindow(t.jobs[a.j].pc) ==> InWindow(s.jobs[a.j].pc)
    requires a.Write? ==> InWindow(s.jobs[a.j].pc) && !InWindow(t.jobs[a.j].pc)
    requires OfJob(a) && a.j !in s.jobs ==> a.Lookup? && t.jobs[a.j].tag == a.tag && a.tag !in s.bucket
    ensures WindowOk(t)
  {
  }

  lemma {:induction false} RunWindow(g: Config, n: nat, s: State, acts: seq<Action>)
    requires WindowOk(s) && Feasible(g, n, s, acts) && Serialised(g, n, s, acts)
    ensures WindowOk(Run(g, n, s, acts))
    decreases |acts|
  {
    if acts != [] {
      StepWindow(g, n, s, acts[0]);
      RunWindow(g, n, Apply(g, n, s, acts[0]), acts[1..]);
    }
  }

  lemma {:induction false} LeavesOnce(g: Config, n: nat, s: State, a: Action, k: Tag)
    requires ValidConfig(g) && RecordsOk(g, s, false) && WindowOk(s) && Enabled(n, s, a)
    requires k in s.lives && s.lives[k].left.Some?
    ensures var t := Apply(g, n, s, a);
            k in t.lives ==> t.lives[k].left == s.lives[k].left && t.lives[k].report == s.lives[k].report
  {
    assert EntryOk(g, s.bucket[k], s.lives, k);
    if Quiet(s, a) { QuietStep(g, n, s, a); }
  }

  lemma {:induction false} SafeStep(g: Config, n: nat, s: State, a: Action, k: Tag)
    requires ValidConfig(g) && RecordsOk(g, s, false) && WindowOk(s) && Enabled(n, s, a)
    ensures var t := Apply(g, n, s, a);
            && Legal(StatusOf(s.bucket, k), StatusOf(t.bucket, k))
            && (a.Swap? && StatusOf(s.bucket, s.jobs[a.j].tag) != Some(Pending) ==> t.bucket == s.bucket)
            && (k in s.lives && k in t.lives && s.lives[k].left.Some? ==>
                  t.lives[k].left == s.lives[k].left && t.lives[k].report == s.lives[k].report)
  {
    LifecycleExactly(g, n, s, a);
    if k in s.lives && s.lives[k].left.Some? { LeavesOnce(g, n, s, a, k); }
    if a.Swap? && StatusOf(s.bucket, s.jobs[a.j].tag) != Some(Pending) { QuietStep(g, n, s, a); }
  }

  /** In every run with serialised submissions, on every store, each further step
      moves each record along the lifecycle or not at all; a record leaves
      pending once, whoever contends for it, and a worker that comes after
      changes nothing. On a store of well-shaped records a response is stored
      iff the record completed or failed, and an eviction time iff it is a
      tombstone. */
  lemma {:induction false} LifecycleSafety(
    g: Config, n: nat, b: Bucket, clock: Time, acts: seq<Action>, a: Action, k: Tag)
    requires ValidConfig(g) && ZERO_TIME < clock
    requires Feasible(g, n, Init(b, clock), acts) && Serialised(g, n, Init(b, clock), acts)
    requires Enabled(n, Run(g, n, Init(b, clock), acts), a)
    ensures var s := Run(g, n, Init(b, clock), acts);
            var t := Apply(g, n, s, a);
            && Legal(StatusOf(s.bucket, k), StatusOf(t.bucket, k))
            && (AllWellShaped(b) ==> AllWellShaped(s.bucket))
            && (a.Swap? && StatusOf(s.bucket, s.jobs[a.j].tag) != Some(Pending) ==> t.bucket == s.bucket)
            && (k in s.lives && k in t.lives && s.lives[k].left.Some? ==>
                  t.lives[k].left == s.lives[k].left && t.lives[k].report == s.lives[k].report)
  {
    RunRecords(g, n, Init(b, clock), acts, false);
    RunWindow(g, n, Init(b, clock), acts);
    var s := Run(g, n, Init(b, clock), acts);
    SafeStep(g, n, s, a, k);
    if AllWellShaped(b) { StaysWellShaped(g, n, b, clock, acts); }
  }

  lemma {:induction false} StaysWellShaped(g: Config, n: nat, b: Bucket, clock: Time, acts: seq<Action>)
    requires ValidConfig(g) && ZERO_TIME < clock && Feasible(g, n, Init(b, clock), acts) && AllWellShaped(b)
    ensures AllWellShaped(Run(g, n, Init(b, clock), acts).bucket)
  {
    RunRecords(g, n, Init(b, clock), acts, true);
    var s := Run(g, n, Init(b, clock), acts);
    assert forall k | k in s.bucket :: EntryOk(g, s.bucket[k], s.lives, k);
  }

  // How soon a tag can be reused

  lemma {:induction false} ReuseStep(g: Config, n: nat, s: State, a: Action, k: Tag)
    requires ValidConfig(g) && RecordsOk(g, s, false) && Enabled(n, s, a)
    requires k in s.lives && k !in Apply(g, n, s, a).bucket
    ensures a.DeleteBatch? && s.lives[k].left.Some? && s.lives[k].evicted.Some?
    ensures Outlives(s.lives[k].evicted.value, s.lives[k].left.value, g.completeTTL)
    ensures Outlives(s.gc.now, s.lives[k].evicted.value, g.tombstoneTTL)
    ensures s.lives[k].expired ==> Outlives(s.lives[k].left.value, s.lives[k].born, g.pendingTimeout)
  {
    var w := s.bucket[k];
    assert EntryOk(g, w, s.lives, k);
    if Quiet(s, a) { QuietStep(g, n, s, a); }
    assert a.DeleteBatch?;
    AgedBeyond(s.gc.now, w.evictedAt.value, g.tombstoneTTL);
  }

  /** A whole-second TTL loses at most one fraction to truncation, not two. */
  lemma {:induction false} WholeSeconds(left: Time, evicted: Time, ttl: int)
    requires evicted > Trunc(left) + ttl && ttl % SECOND == 0
    ensures Trunc(evicted) >= Trunc(left) + ttl
  {
    var c := ttl / SECOND;
    assert ttl == c * SECOND;
    assert Trunc(left) + ttl == (Unix(left) + c) * SECOND;
    assert Unix(evicted) >= Unix(left) + c;
  }

  /** Tag reuse bound despite truncation at every write: in every run on every store,
      a tag of this process becomes absent only by a GC pass, more than
      completeTTL + tombstoneTTL - 2s after it left pending (- 1s when
      completeTTL is whole seconds), and more than pendingTimeout + completeTTL
      + tombstoneTTL - 3s after its submission stamp when its worker never
      reported. */
  lemma {:induction false} TagReuseBound(
    g: Config, n: nat, b: Bucket, clock: Time, acts: seq<Action>, a: Action, k: Tag)
    requires ValidConfig(g) && ZERO_TIME < clock && Feasible(g, n, Init(b, clock), acts)
    requires Enabled(n, Run(g, n, Init(b, clock), acts), a)
    requires k in Run(g, n, Init(b, clock), acts).lives && k !in Apply(g, n, Run(g, n, Init(b, clock), acts), a).bucket
    ensures var s := Run(g, n, Init(b, clock), acts);
            var h := s.lives[k];
            && a.DeleteBatch? && h.left.Some?
            && s.gc.now > h.left.value + g.completeTTL + g.tombstoneTTL - 2 * SECOND
            && (g.completeTTL % SECOND == 0 ==> s.gc.now > h.left.value + g.completeTTL + g.tombstoneTTL - SECOND)
            && (h.expired ==> s.gc.now > h.born + g.pendingTimeout + g.completeTTL + g.tombstoneTTL - 3 * SECOND)
  {
    RunRecords(g, n, Init(b, clock), acts, false);
    var s := Run(g, n, Init(b, clock), acts);
    ReuseStep(g, n, s, a, k);
    var h := s.lives[k];
    if g.completeTTL % SECOND == 0 { WholeSeconds(h.left.value, h.evicted.value, g.completeTTL); }
  }
}
