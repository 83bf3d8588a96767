/** The async job pool, its workers and the garbage collector over one store,
    interleaved in atomic steps: store transactions, slot claims and clock reads. */
module JobLifecycle {
  import opened Durations
  import opened JobGc
  import opened JobRecord
  import opened JobStore
  import opened Logs

  /** Where a SubmitOrFetch call, and then its worker, is. */
  datatype Pc =
    | Looked               // Get found no record
    | Claimed              // holds a slot
    | Drained
    | Stamped(born: Time)  // has read the clock for its pending record
    | Failing              // about to give its slot back
    | Put(born: Time)
    | Forwarding(born: Time)
    | Swapped              // the worker's compare-and-swap is over
    | Over

  datatype Job = Job(tag: Tag, pc: Pc)

  datatype Gc = Resting | Timeouts(now: Time) | Tombstones(now: Time) | Deletes(now: Time)

  /** What a worker reports. */
  datatype Report = Success(response: Response) | Failure

  /** History of the record now stored under a tag: which job wrote it, when it was
      stamped, when it left pending (whether the GC timed it out, or what the worker
      that won reported) and when it became a tombstone, each by the clock before
      truncation. */
  datatype Life = Life(
    owner: nat, born: Time, left: Option<Time>, expired: bool, report: Option<Report>, evicted: Option<Time>)

  function ReportOf(response: Option<Response>): Report {
    if response.Some? then Success(response.value) else Failure
  }

  /** `lives` covers the tags submitted in this process; `moved` the tags the
      current GC pass has acted on. */
  datatype State = State(
    bucket: Bucket,
    jobs: map<nat, Job>,
    slots: nat,
    gc: Gc,
    clock: Time,
    lives: map<Tag, Life>,
    moved: set<Tag>)

  datatype Action =
    | Lookup(j: nat, tag: Tag)
    | Claim(j: nat)
    | QueueFull(j: nat)
    | Drain(j: nat, ok: bool)
    | Stamp(j: nat, now: Time)
    | Write(j: nat, ok: bool)
    | Surrender(j: nat)
    | Spawn(j: nat)
    | Swap(j: nat, now: Time, response: Option<Response>, ok: bool)
    | Release(j: nat)
    | PassBegins(now: Time)
    | TimeoutBatch(ok: bool)
    | TombstoneBatch(ok: bool)
    | DeleteBatch(ok: bool)

  const BAD_GATEWAY := Response(502, [], "upstream error")

  predicate Enabled(maxConcurrent: nat, s: State, a: Action) {
    match a
    case Lookup(j, tag) => j !in s.jobs && tag !in s.bucket
    case Claim(j) => j in s.jobs && s.jobs[j].pc.Looked? && s.slots < maxConcurrent
    case QueueFull(j) => j in s.jobs && s.jobs[j].pc.Looked? && s.slots >= maxConcurrent
    case Drain(j, _) => j in s.jobs && s.jobs[j].pc.Claimed?
    case Stamp(j, now) => j in s.jobs && s.jobs[j].pc.Drained? && s.clock <= now
    case Write(j, _) => j in s.jobs && s.jobs[j].pc.Stamped?
    case Surrender(j) => j in s.jobs && s.jobs[j].pc.Failing? && s.slots > 0
    case Spawn(j) => j in s.jobs && s.jobs[j].pc.Put?
    case Swap(j, now, _, _) => j in s.jobs && s.jobs[j].pc.Forwarding? && s.clock <= now
    case Release(j) => j in s.jobs && s.jobs[j].pc.Swapped? && s.slots > 0
    case PassBegins(now) => s.gc.Resting? && s.clock <= now
    case TimeoutBatch(_) => s.gc.Timeouts?
    case TombstoneBatch(_) => s.gc.Tombstones?
    case DeleteBatch(_) => s.gc.Deletes?
  }

  function Goto(s: State, j: nat, pc: Pc): State
    requires j in s.jobs
  {
    s.(jobs := s.jobs[j := s.jobs[j].(pc := pc)])
  }

  /** The worker's mutation: completed with the upstream's response, or failed with
      a synthetic one. */
  function Finish(now: Time, response: Option<Response>): Record -> Record {
    (r: Record) => r.(status := if response.Some? then Completed else Failed,
                      updatedAt := now,
                      response := Some(if response.Some? then response.value else BAD_GATEWAY))
  }

  function OnWrite(s: State, j: nat): State
    requires j in s.jobs && s.jobs[j].pc.Stamped?
  {
    var tag, born := s.jobs[j].tag, s.jobs[j].pc.born;
    Goto(s, j, Put(born)).(
      bucket := s.bucket[tag := Marshal(NewPendingRecord(tag, born)).value],
      lives := s.lives[tag := Life(j, born, None, false, None, None)])
  }

  predicate Wins(s: State, a: Action)
    requires a.Swap? && a.j in s.jobs
  {
    a.ok && Swappable(s.bucket, s.jobs[a.j].tag, Pending, Finish(a.now, a.response))
  }

  function OnSwap(s: State, a: Action): State
    requires a.Swap? && a.j in s.jobs
  {
    var tag := s.jobs[a.j].tag;
    var t := Goto(s, a.j, Swapped).(clock := a.now);
    if !Wins(s, a) then t
    else
      var w := Marshal(Finish(a.now, a.response)(Unmarshal(s.bucket[tag]).value)).value;
      t.(bucket := s.bucket[tag := w],
         lives := if tag in s.lives
           then s.lives[tag := s.lives[tag].(left := Some(a.now), report := Some(ReportOf(a.response)))]
                  else s.lives)
  }

  /** The tags a batch acts on: all matches, or none if its transaction fails. */
  function BatchHits(b: Bucket, filter: Record -> bool, mutate: Record -> Record, ok: bool): set<Tag> {
    if ok && Decodable(b) && Storable(b, filter, mutate) then Matches(b, filter) else {}
  }

  function OnTimeouts(g: Config, s: State, ok: bool): State
    requires s.gc.Timeouts?
  {
    var now := s.gc.now;
    var b := Batch(s.bucket, TimesOut(g, now), TimeOut(now), ok);
    var hit := BatchHits(s.bucket, TimesOut(g, now), TimeOut(now), ok);
    s.(bucket := b, gc := Tombstones(now), moved := s.moved + hit,
       lives := map k | k in s.lives ::
                  if k in hit then s.lives[k].(left := Some(now), expired := true) else s.lives[k])
  }

  function OnTombstones(g: Config, s: State, ok: bool): State
    requires s.gc.Tombstones?
  {
    var now := s.gc.now;
    var b := Batch(s.bucket, Expires(g, now), Bury(now), ok);
    var hit := BatchHits(s.bucket, Expires(g, now), Bury(now), ok);
    s.(bucket := b, gc := Deletes(now), moved := s.moved + hit,
       lives := map k | k in s.lives :: if k in hit then s.lives[k].(evicted := Some(now)) else s.lives[k])
  }

  function OnDeletes(g: Config, s: State, ok: bool): State
    requires s.gc.Deletes?
  {
    var now := s.gc.now;
    var b := BatchDelete(s.bucket, Forgets(g, now), ok);
    s.(bucket := b, gc := Resting, moved := {}, lives := map k | k in s.lives && k in b :: s.lives[k])
  }

  function Apply(g: Config, maxConcurrent: nat, s: State, a: Action): State
    requires Enabled(maxConcurrent, s, a)
  {
    match a
    case Lookup(j, tag) => s.(jobs := s.jobs[j := Job(tag, Looked)])
    case Claim(j) => Goto(s, j, Claimed).(slots := s.slots + 1)
    case QueueFull(j) => Goto(s, j, Over)
    case Drain(j, ok) => Goto(s, j, if ok then Drained else Failing)
    case Stamp(j, now) => Goto(s, j, Stamped(now)).(clock := now)
    case Write(j, ok) => if ok then OnWrite(s, j) else Goto(s, j, Failing)
    case Surrender(j) => Goto(s, j, Over).(slots := s.slots - 1)
    case Spawn(j) => Goto(s, j, Forwarding(s.jobs[j].pc.born))
    case Swap(_, _, _, _) => OnSwap(s, a)
    case Release(j) => Goto(s, j, Over).(slots := s.slots - 1)
    case PassBegins(now) => s.(gc := Timeouts(now), clock := now)
    case TimeoutBatch(ok) => OnTimeouts(g, s, ok)
    case TombstoneBatch(ok) => OnTombstones(g, s, ok)
    case DeleteBatch(ok) => OnDeletes(g, s, ok)
  }

  // Slots

  predicate HoldsSlot(pc: Pc) { !pc.Looked? && !pc.Over? }

  function SlotHolders(jobs: map<nat, Job>): set<nat> {
    set j | j in jobs && HoldsSlot(jobs[j].pc)
  }

  predicate SlotsOk(n: nat, s: State) { s.slots == |SlotHolders(s.jobs)| && s.slots <= n }

  predicate OfJob(a: Action) { !a.PassBegins? && !a.TimeoutBatch? && !a.TombstoneBatch? && !a.DeleteBatch? }

  function Holding(jobs: map<nat, Job>, j: nat): nat {
    if j in jobs && HoldsSlot(jobs[j].pc) then 1 else 0
  }

  /** Changing one job changes the number of holders by what it held and holds. */
  lemma {:induction false} HoldersCount(jobs: map<nat, Job>, j: nat, x: Job)
    ensures |SlotHolders(jobs[j := x])| == |SlotHolders(jobs)| - Holding(jobs, j) + Holding(jobs[j := x], j)
  {
    var before, after := SlotHolders(jobs), SlotHolders(jobs[j := x]);
    assert after == if HoldsSlot(x.pc) then before + {j} else before - {j};
  }

  lemma {:induction false} SlotEffect(g: Config, n: nat, s: State, a: Action)
    requires Enabled(n, s, a) && OfJob(a)
    ensures var t := Apply(g, n, s, a);
            && a.j in t.jobs && t.jobs == s.jobs[a.j := t.jobs[a.j]]
            && t.slots == s.slots - Holding(s.jobs, a.j) + Holding(t.jobs, a.j)
  {
  }

  lemma {:induction false} StepSlots(g: Config, n: nat, s: State, a: Action)
    requires SlotsOk(n, s) && Enabled(n, s, a)
    ensures SlotsOk(n, Apply(g, n, s, a))
    ensures OfJob(a) ==>
              Apply(g, n, s, a).slots == s.slots - Holding(s.jobs, a.j) + Holding(Apply(g, n, s, a).jobs, a.j)
    ensures !OfJob(a) ==> Apply(g, n, s, a).slots == s.slots
  {
    var t := Apply(g, n, s, a);
    if OfJob(a) {
      SlotEffect(g, n, s, a);
      HoldersCount(s.jobs, a.j, t.jobs[a.j]);
    }
  }

  // Records and their history

  /** A response is present iff completed or failed; EvictedAt is set iff tombstone. */
  predicate WellShaped(w: Stored) {
    && w.Wire? && !w.status.Unknown?
    && w.response.Some? == (w.status.Completed? || w.status.Failed?)
    && w.evictedAt.Some? == w.status.Tombstone?
  }

  /** At `now` a stamp, truncated by storage, is older than `ttl`; an age saturates, so
      nothing outlives the longest duration. */
  predicate Outlives(now: Time, stamp: Time, ttl: int) { ttl < MAX_DURATION && now > Trunc(stamp) + ttl }

  /** The stored stamps are the truncated history, and each stage lasted its time. */
  predicate Agrees(g: Config, w: Stored, h: Life) {
    && w.Wire?
    && (h.expired ==> h.left.Some? && Outlives(h.left.value, h.born, g.pendingTimeout))
    && (h.evicted.Some? ==> h.left.Some? && Outlives(h.evicted.value, h.left.value, g.completeTTL))
    && w.createdAt == Unix(h.born)
    && (h.expired ==> h.report.None?)
    && match w.status
       case Pending => h.left.None? && h.evicted.None? && !h.expired && h.report.None? && w.updatedAt == Unix(h.born)
       case Completed =>
         && h.left.Some? && h.evicted.None? && !h.expired && w.updatedAt == Unix(h.left.value)
         && h.report.Some? && h.report.value.Success? && w.response == Some(h.report.value.response)
       case Failed =>
         && h.left.Some? && h.evicted.None? && !h.expired && w.updatedAt == Unix(h.left.value)
         && h.report == Some(Failure) && w.response == Some(Response(502, [], "upstream error"))
       case FailedTimeout => h.left.Some? && h.evicted.None? && h.expired && w.updatedAt == Unix(h.left.value)
       case Tombstone =>
         h.evicted.Some? && w.evictedAt == Some(Unix(h.evicted.value)) && w.updatedAt == Unix(h.evicted.value)
       case Unknown(_) => false
  }

  predicate EntryOk(g: Config, w: Stored, lives: map<Tag, Life>, k: Tag) {
    WellShaped(w) && (k in lives ==> w.tag == k && Agrees(g, w, lives[k]))
  }

  predicate ClockOk(s: State) {
    ZERO_TIME < s.clock && (!s.gc.Resting? ==> ZERO_TIME < s.gc.now <= s.clock)
  }

  /** Every record with a history is sound; with `all`, so is every other one. */
  predicate RecordsOk(g: Config, s: State, all: bool) {
    && ClockOk(s)
    && s.lives.Keys <= s.bucket.Keys
    && forall k | k in s.bucket && (all || k in s.lives) :: EntryOk(g, s.bucket[k], s.lives, k)
  }

  lemma {:induction false} AgedBeyond(now: Time, stamp: int, ttl: int)
    requires IsDuration(ttl) && Sub(now, stamp * SECOND) > ttl
    ensures ttl < MAX_DURATION && now > stamp * SECOND + ttl
  {
  }

  /** A stored stamp is past a TTL. */
  predicate Past(now: Time, stamp: int, ttl: int) { ttl < MAX_DURATION && now > stamp * SECOND + ttl }

  lemma {:induction false} TimeoutEntry(g: Config, w: Stored, lives: map<Tag, Life>, k: Tag, now: Time)
    requires ValidConfig(g) && EntryOk(g, w, lives, k)
    ensures Hits(TimesOut(g, now), w) <==> w.status.Pending? && Past(now, w.updatedAt, g.pendingTimeout)
    ensures var w' := AfterTimeouts(g, now, w);
            && WellShaped(w') && (!Hits(TimesOut(g, now), w) ==> w' == w)
            && (Hits(TimesOut(g, now), w) ==>
                  w.status.Pending? && w'.status.FailedTimeout? && w'.updatedAt == Unix(now))
            && (Hits(TimesOut(g, now), w) && k in lives ==>
                  w'.tag == k && Agrees(g, w', lives[k].(left := Some(now), expired := true)))
  {
    if Hits(TimesOut(g, now), w) {
      AgedBeyond(now, w.updatedAt, g.pendingTimeout);
    }
  }

  lemma {:induction false} TombstoneEntry(g: Config, w: Stored, lives: map<Tag, Life>, k: Tag, now: Time)
    requires ValidConfig(g) && EntryOk(g, w, lives, k) && now > ZERO_TIME
    ensures Hits(Expires(g, now), w) <==> IsTerminal(w.status) && Past(now, w.updatedAt, g.completeTTL)
    ensures var w' := Rewritten(Expires(g, now), Bury(now), w);
            && WellShaped(w') && (!Hits(Expires(g, now), w) ==> w' == w)
            && (Hits(Expires(g, now), w) ==>
                  IsTerminal(w.status) && w'.status.Tombstone? && w'.evictedAt == Some(Unix(now)))
            && (Hits(Expires(g, now), w) && k in lives ==>
                  w'.tag == k && Agrees(g, w', lives[k].(evicted := Some(now))))
  {
    if Hits(Expires(g, now), w) {
      AgedBeyond(now, w.updatedAt, g.completeTTL);
    }
  }

  lemma {:induction false} DeleteEntry(g: Config, w: Stored, lives: map<Tag, Life>, k: Tag, now: Time)
    requires ValidConfig(g) && EntryOk(g, w, lives, k)
    ensures Hits(Forgets(g, now), w) <==> w.status.Tombstone? && Past(now, w.evictedAt.value, g.tombstoneTTL)
    ensures k in lives ==>
              (Hits(Forgets(g, now), w) <==>
                 lives[k].evicted.Some? && Outlives(now, lives[k].evicted.value, g.tombstoneTTL))
  {
  }

  lemma {:induction false} TimeoutsOk(g: Config, s: State, ok: bool, all: bool)
    requires ValidConfig(g) && RecordsOk(g, s, all) && s.gc.Timeouts?
    ensures RecordsOk(g, OnTimeouts(g, s, ok), all)
  {
    var t := OnTimeouts(g, s, ok);
    forall k | k in t.bucket && (all || k in t.lives)
      ensures EntryOk(g, t.bucket[k], t.lives, k)
    {
      assert EntryOk(g, s.bucket[k], s.lives, k);
      TimeoutEntry(g, s.bucket[k], s.lives, k, s.gc.now);
    }
  }

  lemma {:induction false} TombstonesOk(g: Config, s: State, ok: bool, all: bool)
    requires ValidConfig(g) && RecordsOk(g, s, all) && s.gc.Tombstones?
    ensures RecordsOk(g, OnTombstones(g, s, ok), all)
  {
    var t := OnTombstones(g, s, ok);
    forall k | k in t.bucket && (all || k in t.lives)
      ensures EntryOk(g, t.bucket[k], t.lives, k)
    {
      assert EntryOk(g, s.bucket[k], s.lives, k);
      TombstoneEntry(g, s.bucket[k], s.lives, k, s.gc.now);
    }
  }

  lemma {:induction false} DeletesOk(g: Config, s: State, ok: bool, all: bool)
    requires ValidConfig(g) && RecordsOk(g, s, all) && s.gc.Deletes?
    ensures RecordsOk(g, OnDeletes(g, s, ok), all)
  {
    var t := OnDeletes(g, s, ok);
    forall k | k in t.bucket && (all || k in t.lives)
      ensures EntryOk(g, t.bucket[k], t.lives, k)
    {
      assert EntryOk(g, s.bucket[k], s.lives, k);
    }
  }

  lemma {:induction false} SwapOk(g: Config, s: State, a: Action, all: bool)
    requires RecordsOk(g, s, all) && a.Swap? && a.j in s.jobs && s.clock <= a.now
    ensures RecordsOk(g, OnSwap(s, a), all)
  {
    var t := OnSwap(s, a);
    forall k | k in t.bucket && (all || k in t.lives)
      ensures EntryOk(g, t.bucket[k], t.lives, k)
    {
      assert EntryOk(g, s.bucket[k], s.lives, k);
    }
  }

  lemma {:induction false} WriteOk(g: Config, s: State, j: nat, all: bool)
    requires RecordsOk(g, s, all) && j in s.jobs && s.jobs[j].pc.Stamped?
    ensures RecordsOk(g, OnWrite(s, j), all)
  {
    var t := OnWrite(s, j);
    forall k | k in t.bucket && (all || k in t.lives)
      ensures EntryOk(g, t.bucket[k], t.lives, k)
    {
      assert k != s.jobs[j].tag ==> EntryOk(g, s.bucket[k], s.lives, k);
    }
  }

  lemma {:induction false} StepRecords(g: Config, n: nat, s: State, a: Action, all: bool)
    requires ValidConfig(g) && RecordsOk(g, s, all) && Enabled(n, s, a)
    ensures RecordsOk(g, Apply(g, n, s, a), all)
  {
    var t := Apply(g, n, s, a);
    match a
    case TimeoutBatch(ok) => TimeoutsOk(g, s, ok, all);
    case TombstoneBatch(ok) => TombstonesOk(g, s, ok, all);
    case DeleteBatch(ok) => DeletesOk(g, s, ok, all);
    case Swap(_, _, _, _) => SwapOk(g, s, a, all);
    case Write(j, true) => WriteOk(g, s, j, all);
    case _ => assert t.bucket == s.bucket && t.lives == s.lives;
  }
}
