/** Garbage collection and crash recovery over the job store. */
module JobGc {
  import opened Durations
  import opened JobRecord
  import opened JobStore
  import opened Logs

  datatype Config = Config(pendingTimeout: int, completeTTL: int, tombstoneTTL: int)

  predicate ValidConfig(g: Config) {
    IsDuration(g.pendingTimeout) && IsDuration(g.completeTTL) && IsDuration(g.tombstoneTTL)
  }

  predicate IsTerminal(s: Status) { s.Completed? || s.Failed? || s.FailedTimeout? }

  // The filters and mutations of the three batches of a pass at `now`

  function TimesOut(g: Config, now: Time): Record -> bool {
    (r: Record) => r.status.Pending? && Sub(now, r.updatedAt) > g.pendingTimeout
  }

  function TimeOut(now: Time): Record -> Record {
    (r: Record) => r.(status := FailedTimeout, updatedAt := now)
  }

  function Expires(g: Config, now: Time): Record -> bool {
    (r: Record) => IsTerminal(r.status) && Sub(now, r.updatedAt) > g.completeTTL
  }

  function Bury(now: Time): Record -> Record {
    (r: Record) => r.(status := Tombstone, response := None, evictedAt := now, updatedAt := now)
  }

  function Forgets(g: Config, now: Time): Record -> bool {
    (r: Record) => r.status.Tombstone? && Sub(now, r.evictedAt) > g.tombstoneTTL
  }

  function IsPending(): Record -> bool { (r: Record) => r.status.Pending? }

  // One pass

  function Batch(b: Bucket, filter: Record -> bool, mutate: Record -> Record, committed: bool): Bucket {
    if committed && Decodable(b) && Storable(b, filter, mutate) then Transitioned(b, filter, mutate) else b
  }

  function BatchDelete(b: Bucket, filter: Record -> bool, committed: bool): Bucket {
    if committed && Decodable(b) then Deleted(b, filter) else b
  }

  /** passOnce, with the fate of each batch's transaction. */
  method PassOnce(store: Store, g: Config, now: Time, c1: bool, c2: bool, c3: bool)
    returns (timedOut: nat, tombstoned: nat, deleted: nat)
    modifies store
    ensures var b0 := old(store.bucket);
            var b1 := Batch(b0, TimesOut(g, now), TimeOut(now), c1);
            var b2 := Batch(b1, Expires(g, now), Bury(now), c2);
            && store.bucket == BatchDelete(b2, Forgets(g, now), c3)
            && timedOut == (if c1 && Decodable(b0) then |Matches(b0, TimesOut(g, now))| else 0)
            && tombstoned == (if c2 && Decodable(b1) then |Matches(b1, Expires(g, now))| else 0)
            && deleted == (if c3 && Decodable(b2) then |Matches(b2, Forgets(g, now))| else 0)
  {
    var r1 := store.BatchTransition(TimesOut(g, now), TimeOut(now), c1);
    timedOut := if r1.Ok? then r1.value else 0;
    var r2 := store.BatchTransition(Expires(g, now), Bury(now), c2);
    tombstoned := if r2.Ok? then r2.value else 0;
    var r3 := store.BatchDelete(Forgets(g, now), c3);
    deleted := if r3.Ok? then r3.value else 0;
  }

  lemma {:induction false} DropsPending(b: Bucket)
    requires Decodable(b)
    ensures var d := Deleted(b, IsPending());
            && (forall k :: k in d <==> k in b && !Unmarshal(b[k]).value.status.Pending?)
            && (forall k | k in d :: d[k] == b[k])
            && |Matches(b, IsPending())| == |b| - |d|
  {
    var d, hit := Deleted(b, IsPending()), Matches(b, IsPending());
    assert b.Keys == d.Keys + hit && d.Keys !! hit;
  }

  /** RunRecovery drops exactly the pending records, or fails and changes nothing. */
  method RunRecovery(store: Store, committed: bool) returns (r: Result<nat>)
    modifies store
    ensures r.Ok? <==> committed && old(Decodable(store.bucket))
    ensures r.Ok? ==>
              && r.value == |old(store.bucket)| - |store.bucket|
              && (forall k :: k in store.bucket <==>
                    k in old(store.bucket) && !Unmarshal(old(store.bucket)[k]).value.status.Pending?)
              && (forall k | k in store.bucket :: store.bucket[k] == old(store.bucket)[k])
    ensures r.Err? ==> store.bucket == old(store.bucket)
  {
    r := store.BatchDelete(IsPending(), committed);
    if r.Ok? { DropsPending(old(store.bucket)); }
  }

  // One stage per pass

  function Fraction(now: Time): int { now % SECOND }

  function AfterTimeouts(g: Config, now: Time, w: Stored): Stored { Rewritten(TimesOut(g, now), TimeOut(now), w) }

  function AfterTombstones(g: Config, now: Time, w: Stored): Stored {
    Rewritten(Expires(g, now), Bury(now), AfterTimeouts(g, now, w))
  }

  /** How many of the three batches of an undisturbed pass at `now` act on a record. */
  function Stages(g: Config, now: Time, w: Stored): nat {
    (if Hits(TimesOut(g, now), w) then 1 else 0)
    + (if Hits(Expires(g, now), AfterTimeouts(g, now, w)) then 1 else 0)
    + (if Hits(Forgets(g, now), AfterTombstones(g, now, w)) then 1 else 0)
  }

  lemma {:induction false} AgeOfNow(now: Time)
    ensures Sub(now, Trunc(now)) == Fraction(now)
  {
  }

  /** What a batch leaves behind, read back. */
  lemma {:induction false} ReadsBack(filter: Record -> bool, mutate: Record -> Record, w: Stored)
    requires Unmarshal(w).Some? && !mutate(Unmarshal(w).value).status.Unknown?
    ensures Unmarshal(Rewritten(filter, mutate, w)) ==
            Some(if filter(Unmarshal(w).value) then Truncated(mutate(Unmarshal(w).value)) else Unmarshal(w).value)
  {
    StoredReadsTruncated(mutate(Unmarshal(w).value));
  }

  /** The pass does not always hold a record to one stage: storing `now` truncates
      it, so the record already looks Fraction(now) old to the next batch. It
      advances more than one stage exactly when that fraction exceeds the TTL
      of the stage it has just entered. */
  lemma {:induction false} OneStageExactly(g: Config, now: Time, w: Stored)
    ensures Stages(g, now, w) <= 1 <==>
            && !(Hits(TimesOut(g, now), w) && Fraction(now) > g.completeTTL)
            && !(Hits(Expires(g, now), w) && Fraction(now) > g.tombstoneTTL)
  {
    AgeOfNow(now);
    if Unmarshal(w).Some? {
      ReadsBack(TimesOut(g, now), TimeOut(now), w);
      var w1 := AfterTimeouts(g, now, w);
      ReadsBack(Expires(g, now), Bury(now), w1);
    }
  }

  /** With both TTLs at least a nanosecond short of a second, every pass is
      one-stage for every record. */
  lemma {:induction false} SecondTTLsAreOneStage(g: Config, now: Time, w: Stored)
    requires g.completeTTL >= SECOND - 1 && g.tombstoneTTL >= SECOND - 1
    ensures Stages(g, now, w) <= 1
  {
    OneStageExactly(g, now, w);
  }

  /** Below that, some record skips a stage: a pending one is buried in the pass
      that times it out, or a finished one is deleted in the pass that buries it. */
  lemma {:induction false} ShorterTTLSkips(g: Config) returns (now: Time, w: Stored)
    requires ValidConfig(g)
    requires (g.completeTTL < SECOND - 1 && g.pendingTimeout < MAX_DURATION)
               || (g.tombstoneTTL < SECOND - 1 && g.completeTTL < MAX_DURATION)
    ensures Stages(g, now, w) > 1
  {
    var early := g.completeTTL < SECOND - 1 && g.pendingTimeout < MAX_DURATION;
    now := ((if early then g.pendingTimeout else g.completeTTL) / SECOND + 1) * SECOND + SECOND - 1;
    w := Wire("tag", if early then Pending else Completed, 0, 0, None, None);
    assert Fraction(now) == SECOND - 1;
    OneStageExactly(g, now, w);
  }
}
