/** The two races the store's compare-and-swap does not close, as concrete runs, and
    from exactly when the second one is possible. */
module JobRaces {
  import opened Durations
  import opened JobGc
  import opened JobLifecycle
  import opened JobOutcomes
  import opened JobOwnership
  import opened JobRecord
  import opened JobStore
  import opened JobTheorems
  import opened Logs

  predicate Reaches(g: Config, n: nat, s: State, acts: seq<Action>, t: State) {
    Feasible(g, n, s, acts) && Run(g, n, s, acts) == t
  }

  /** Submissions are serialised and every worker that reports is prompt. */
  predicate Orderly(g: Config, n: nat, s: State, acts: seq<Action>)
    requires Feasible(g, n, s, acts)
  {
    Serialised(g, n, s, acts) && AllPrompt(g, n, s, acts)
  }

  /** One more action at the end of a run. */
  lemma {:induction false} Then(g: Config, n: nat, s: State, acts: seq<Action>, t: State, a: Action)
    requires Reaches(g, n, s, acts, t) && Enabled(n, t, a)
    ensures Reaches(g, n, s, acts + [a], Apply(g, n, t, a))
    ensures Orderly(g, n, s, acts) && Serial(t, a) && Prompt(g, t, a) ==> Orderly(g, n, s, acts + [a])
    decreases |acts|
  {
    if acts != [] {
      Then(g, n, Apply(g, n, s, acts[0]), acts[1..], t, a);
      assert (acts + [a])[1..] == acts[1..] + [a];
    }
  }

  function PendingWire(tag: Tag, born: Time): Stored { Marshal(NewPendingRecord(tag, born)).value }

  /** A submission that finds no record gets as far as its drained body. */
  lemma {:induction false} Drains(g: Config, n: nat, s0: State, acts0: seq<Action>, s: State, j: nat, tag: Tag)
    returns (acts: seq<Action>, t: State)
    requires Reaches(g, n, s0, acts0, s) && s.slots < n && j !in s.jobs && tag !in s.bucket
    ensures Reaches(g, n, s0, acts, t) && t == s.(jobs := s.jobs[j := Job(tag, Drained)], slots := s.slots + 1)
    ensures Orderly(g, n, s0, acts0) && Serial(s, Lookup(j, tag)) ==> Orderly(g, n, s0, acts)
  {
    var s1 := s.(jobs := s.jobs[j := Job(tag, Looked)]);
    Then(g, n, s0, acts0, s, Lookup(j, tag));
    var s2 := s.(jobs := s.jobs[j := Job(tag, Claimed)], slots := s.slots + 1);
    assert s2 == Apply(g, n, s1, Claim(j));
    var acts1 := acts0 + [Lookup(j, tag)];
    Then(g, n, s0, acts1, s1, Claim(j));
    t := s.(jobs := s.jobs[j := Job(tag, Drained)], slots := s.slots + 1);
    assert t == Apply(g, n, s2, Drain(j, true));
    Then(g, n, s0, acts1 + [Claim(j)], s2, Drain(j, true));
    acts := acts1 + [Claim(j)] + [Drain(j, true)];
  }

  /** It reads the clock for its pending record. */
  lemma {:induction false} ReadsClock(
    g: Config, n: nat, s0: State, acts0: seq<Action>, s: State, j: nat, tag: Tag)
    returns (acts: seq<Action>, t: State)
    requires Reaches(g, n, s0, acts0, s) && j in s.jobs && s.jobs[j] == Job(tag, Drained)
    ensures Reaches(g, n, s0, acts, t) && (Orderly(g, n, s0, acts0) ==> Orderly(g, n, s0, acts))
    ensures t == s.(jobs := s.jobs[j := Job(tag, Stamped(s.clock))])
  {
    Then(g, n, s0, acts0, s, Stamp(j, s.clock));
    acts, t := acts0 + [Stamp(j, s.clock)], s.(jobs := s.jobs[j := Job(tag, Stamped(s.clock))]);
    assert t == Apply(g, n, s, Stamp(j, s.clock));
  }

  /** From there, undisturbed, it writes that record and starts its worker. */
  lemma {:induction false} Submits(g: Config, n: nat, s0: State, acts0: seq<Action>, s: State, j: nat, tag: Tag)
    returns (acts: seq<Action>, t: State)
    requires Reaches(g, n, s0, acts0, s) && j in s.jobs && s.jobs[j] == Job(tag, Drained)
    ensures Reaches(g, n, s0, acts, t) && (Orderly(g, n, s0, acts0) ==> Orderly(g, n, s0, acts))
    ensures t == s.(jobs := s.jobs[j := Job(tag, Forwarding(s.clock))],
                    bucket := s.bucket[tag := PendingWire(tag, s.clock)],
                    lives := s.lives[tag := Life(j, s.clock, None, false, None, None)])
  {
    var acts1, s1 := ReadsClock(g, n, s0, acts0, s, j, tag);
    var s2 := s.(jobs := s.jobs[j := Job(tag, Put(s.clock))],
                 bucket := s.bucket[tag := PendingWire(tag, s.clock)],
                 lives := s.lives[tag := Life(j, s.clock, None, false, None, None)]);
    assert s2 == Apply(g, n, s1, Write(j, true));
    Then(g, n, s0, acts1, s1, Write(j, true));
    t := s2.(jobs := s.jobs[j := Job(tag, Forwarding(s.clock))]);
    assert t == Apply(g, n, s2, Spawn(j));
    Then(g, n, s0, acts1 + [Write(j, true)], s2, Spawn(j));
    acts := acts1 + [Write(j, true)] + [Spawn(j)];
  }

  /** Its worker reports and wins. */
  lemma {:induction false} Completes(
    g: Config, n: nat, s0: State, acts0: seq<Action>, s: State, j: nat, tag: Tag, response: Option<Response>)
    returns (acts: seq<Action>, t: State)
    requires Reaches(g, n, s0, acts0, s) && j in s.jobs && s.jobs[j] == Job(tag, Forwarding(s.clock))
    requires tag in s.bucket && s.bucket[tag] == PendingWire(tag, s.clock)
    ensures Reaches(g, n, s0, acts, t) && StatusOf(t.bucket, tag) == Some(if response.Some? then Completed else Failed)
    ensures Fetch(t.bucket, tag) == Some(Reported(ReportOf(response)))
    ensures j in t.jobs && t.jobs == s.jobs[j := Job(tag, Swapped)] && t.slots == s.slots
  {
    var swap := Swap(j, s.clock, response, true);
    Then(g, n, s0, acts0, s, swap);
    acts, t := acts0 + [swap], Apply(g, n, s, swap);
    WinnerAnswers(s, swap);
  }

  /** From any state of any run, a submission that finds no record and a free slot can
      go through: its client is told what the worker reported, and the slot is free
      again. */
  lemma {:induction false} SubmissionGoesThrough(
    g: Config, n: nat, s0: State, acts0: seq<Action>, s: State, j: nat, tag: Tag, response: Option<Response>)
    returns (acts: seq<Action>, t: State)
    requires Reaches(g, n, s0, acts0, s) && s.slots < n && j !in s.jobs && tag !in s.bucket
    ensures Reaches(g, n, s0, acts, t) && t.slots == s.slots
              && Fetch(t.bucket, tag) == Some(Reported(ReportOf(response)))
  {
    var acts1, s1 := Drains(g, n, s0, acts0, s, j, tag);
    var acts2, s2 := Submits(g, n, s0, acts1, s1, j, tag);
    var acts3, s3 := Completes(g, n, s0, acts2, s2, j, tag, response);
    Then(g, n, s0, acts3, s3, Release(j));
    acts, t := acts3 + [Release(j)], Apply(g, n, s3, Release(j));
  }

  /** Overlapping submissions of one tag: both look it up before either writes; the
      second write then takes a completed record back to pending. */
  lemma {:induction false} OverlapReopensRecord(g: Config, n: nat, tag: Tag) returns (acts: seq<Action>, a: Action)
    requires n >= 2
    ensures Feasible(g, n, Init(map[], 0), acts) && Enabled(n, Run(g, n, Init(map[], 0), acts), a)
    ensures var s := Run(g, n, Init(map[], 0), acts);
            && Reopens(s, a) && StatusOf(s.bucket, tag) == Some(Completed)
            && StatusOf(Apply(g, n, s, a).bucket, tag) == Some(Pending)
  {
    var s0 := Init(map[], 0);
    var acts1, s1 := Drains(g, n, s0, [], s0, 1, tag);
    var acts2, s2 := ReadsClock(g, n, s0, acts1, s1, 1, tag);
    var acts3, s3 := Drains(g, n, s0, acts2, s2, 2, tag);
    var acts4, s4 := Submits(g, n, s0, acts3, s3, 2, tag);
    var acts5, s5 := Completes(g, n, s0, acts4, s4, 2, tag, Some(BAD_GATEWAY));
    acts, a := acts5, Write(1, true);
  }

  // A worker that reports too late

  /** A GC pass with the given fate of each batch. */
  lemma {:induction false} Passes(
    g: Config, n: nat, s0: State, acts0: seq<Action>, s: State, now: Time, c1: bool, c2: bool, c3: bool)
    returns (acts: seq<Action>, t: State)
    requires Reaches(g, n, s0, acts0, s) && s.gc.Resting? && s.clock <= now
    ensures Reaches(g, n, s0, acts, t) && (Orderly(g, n, s0, acts0) ==> Orderly(g, n, s0, acts))
    ensures t.jobs == s.jobs && t.slots == s.slots && t.clock == now && t.gc.Resting?
    ensures t.lives.Keys <= t.bucket.Keys
    ensures t.bucket ==
              BatchDelete(Batch(Batch(s.bucket, TimesOut(g, now), TimeOut(now), c1), Expires(g, now), Bury(now), c2),
                Forgets(g, now), c3)
  {
    Then(g, n, s0, acts0, s, PassBegins(now));
    var s1 := Apply(g, n, s, PassBegins(now));
    var acts1 := acts0 + [PassBegins(now)];
    Then(g, n, s0, acts1, s1, TimeoutBatch(c1));
    var s2 := Apply(g, n, s1, TimeoutBatch(c1));
    var acts2 := acts1 + [TimeoutBatch(c1)];
    Then(g, n, s0, acts2, s2, TombstoneBatch(c2));
    var s3 := Apply(g, n, s2, TombstoneBatch(c2));
    Then(g, n, s0, acts2 + [TombstoneBatch(c2)], s3, DeleteBatch(c3));
    acts, t := acts2 + [TombstoneBatch(c2)] + [DeleteBatch(c3)], Apply(g, n, s3, DeleteBatch(c3));
  }

  /** Moments at which a record stamped `born` is timed out, buried and forgotten. */
  predicate Schedule(g: Config, born: Time, l: Time, e: Time, d: Time) {
    && ZERO_TIME < born <= l <= e <= d
    && Outlives(l, born, g.pendingTimeout) && Outlives(e, l, g.completeTTL) && Outlives(d, e, g.tombstoneTTL)
  }

  lemma {:induction false} Older(now: Time, stamp: Time, ttl: int)
    requires IsDuration(ttl) && Outlives(now, stamp, ttl)
    ensures Sub(now, Trunc(stamp)) > ttl
  {
  }

  lemma {:induction false} AgesOut(g: Config, tag: Tag, born: Time, l: Time, e: Time, d: Time)
    requires ValidConfig(g) && Schedule(g, born, l, e, d)
    ensures var b0 := map[tag := PendingWire(tag, born)];
            var b1 := Batch(b0, TimesOut(g, l), TimeOut(l), true);
            var b2 := Batch(b1, Expires(g, e), Bury(e), true);
            BatchDelete(b2, Forgets(g, d), true) == map[]
  {
    Older(l, born, g.pendingTimeout);
    Older(e, l, g.completeTTL);
    Older(d, e, g.tombstoneTTL);
    var b0 := map[tag := PendingWire(tag, born)];
    var w1 := Wire(tag, FailedTimeout, Unix(born), Unix(l), None, None);
    assert Transitioned(b0, TimesOut(g, l), TimeOut(l)) == map[tag := w1];
    var b1 := Batch(b0, TimesOut(g, l), TimeOut(l), true);
    assert b1 == map[tag := w1];
    var w2 := Wire(tag, Tombstone, Unix(born), Unix(e), Some(Unix(e)), None);
    assert Transitioned(b1, Expires(g, e), Bury(e)) == map[tag := w2];
    var b2 := Batch(b1, Expires(g, e), Bury(e), true);
    assert b2 == map[tag := w2];
    assert Deleted(b2, Forgets(g, d)) == map[];
  }

  /** Three passes, each with only the batch that applies succeeding. */
  lemma {:induction false} RecordAgesOut(
    g: Config, n: nat, s0: State, acts0: seq<Action>, s: State, tag: Tag, born: Time, l: Time, e: Time, d: Time)
    returns (acts: seq<Action>, t: State)
    requires ValidConfig(g) && Schedule(g, born, l, e, d)
    requires Reaches(g, n, s0, acts0, s) && s.gc.Resting? && s.clock == born
    requires s.bucket == map[tag := PendingWire(tag, born)]
    ensures Reaches(g, n, s0, acts, t) && (Orderly(g, n, s0, acts0) ==> Orderly(g, n, s0, acts))
    ensures t.jobs == s.jobs && t.slots == s.slots && t.clock == d && t.bucket == map[]
  {
    var acts1, s1 := Passes(g, n, s0, acts0, s, l, true, false, false);
    var acts2, s2 := Passes(g, n, s0, acts1, s1, e, false, true, false);
    acts, t := Passes(g, n, s0, acts2, s2, d, false, false, true);
    AgesOut(g, tag, born, l, e, d);
  }

  /** In an orderly run, the swap of a worker whose record was stamped `born` wins at
      `now` against the record of another submission under its tag. */
  ghost predicate HitsLater(
    g: Config, n: nat, b: Bucket, clock: Time, acts: seq<Action>, a: Action, born: Time, now: Time) {
    && ZERO_TIME < clock && Feasible(g, n, Init(b, clock), acts) && Orderly(g, n, Init(b, clock), acts)
    && var s := Run(g, n, Init(b, clock), acts);
       && a.Swap? && a.now == now && Enabled(n, s, a) && s.jobs[a.j].pc.born == born && Wins(s, a)
       && s.jobs[a.j].tag in s.lives && s.lives[s.jobs[a.j].tag].owner != a.j
  }

  /** A first submission, stamped `born`, with its worker under way. */
  lemma {:induction false} FirstSubmits(g: Config, n: nat, tag: Tag, born: Time) returns (acts: seq<Action>, t: State)
    requires n >= 1
    ensures Reaches(g, n, Init(map[], born), acts, t) && Orderly(g, n, Init(map[], born), acts)
    ensures t.jobs == map[1 := Job(tag, Forwarding(born))] && t.slots == 1 && t.gc.Resting? && t.clock == born
    ensures t.bucket == map[tag := PendingWire(tag, born)]
  {
    var s0 := Init(map[], born);
    var acts1, s1 := Drains(g, n, s0, [], s0, 1, tag);
    acts, t := Submits(g, n, s0, acts1, s1, 1, tag);
    assert t.jobs == map[1 := Job(tag, Forwarding(born))];
  }

  /** Once its tag can have been reused, a worker can complete a later record. */
  lemma {:induction false} LateWorkerCompletesLaterRecord(
    g: Config, n: nat, tag: Tag, born: Time, l: Time, e: Time, d: Time, now: Time)
    returns (acts: seq<Action>, a: Action)
    requires ValidConfig(g) && n >= 2 && Schedule(g, born, l, e, d) && d <= now
    ensures HitsLater(g, n, map[], born, acts, a, born, now)
  {
    var s0 := Init(map[], born);
    var acts2, s2 := FirstSubmits(g, n, tag, born);
    var acts3, s3 := RecordAgesOut(g, n, s0, acts2, s2, tag, born, l, e, d);
    var acts4, s4 := Drains(g, n, s0, acts3, s3, 2, tag);
    var acts5, s5 := Submits(g, n, s0, acts4, s4, 2, tag);
    acts, a := acts5, Swap(1, now, None, true);
  }

  // From exactly when

  lemma {:induction false} SameSecond(x: Time, y: Time)
    requires Trunc(y) <= x <= y
    ensures Trunc(x) == Trunc(y)
  {
    UnixGrows(x, y);
  }

  /** The earliest moments make a schedule that ends at the earliest reuse. */
  lemma {:induction false} EarliestSchedule(g: Config, born: Time) returns (l: Time, e: Time, d: Time)
    requires ZERO_TIME < born && g.pendingTimeout >= 0 && g.completeTTL >= 0 && g.tombstoneTTL >= 0
    requires Reusable(g, born, EarliestReuse(g, born))
    ensures Schedule(g, born, l, e, d) && d == EarliestReuse(g, born)
  {
    l := Max(born, TimesOutAt(g, born));
    if l == born { SameSecond(TimesOutAt(g, born), born); }
    e := Max(l, BuriedAt(g, born));
    if e == l { SameSecond(BuriedAt(g, born), l); }
    d := Max(e, ForgottenAt(g, born));
  }

  lemma {:induction false} NotBeforeReuse(
    g: Config, n: nat, b: Bucket, clock: Time, acts: seq<Action>, a: Action, born: Time, now: Time)
    requires ValidConfig(g) && HitsLater(g, n, b, clock, acts, a, born, now)
    ensures n >= 2 && Reusable(g, born, now)
  {
    var s := Run(g, n, Init(b, clock), acts);
    if n <= 1 { RunSole(g, n, Init(b, clock), acts); }
    if Prompt(g, s, a) { SwapHitsOwnRecord(g, n, b, clock, acts, a); }
  }

  /** Exactly when a worker's swap can complete a later submission's record although
      submissions are serialised and all earlier reports were prompt: there are
      two slots, and the swap comes no sooner than the earliest reuse of its tag. */
  lemma {:induction false} LateSwapExactly(g: Config, n: nat, born: Time, now: Time)
    requires ValidConfig(g) && g.pendingTimeout >= 0 && g.completeTTL >= 0 && g.tombstoneTTL >= 0
    requires ZERO_TIME < born
    ensures (exists b, clock, acts, a :: HitsLater(g, n, b, clock, acts, a, born, now)) <==>
            n >= 2 && Reusable(g, born, now)
  {
    if n >= 2 && Reusable(g, born, now) {
      var l, e, d := EarliestSchedule(g, born);
      var acts, a := LateWorkerCompletesLaterRecord(g, n, "tag", born, l, e, d, now);
    }
    forall b, clock, acts, a | HitsLater(g, n, b, clock, acts, a, born, now)
      ensures n >= 2 && Reusable(g, born, now)
    {
      NotBeforeReuse(g, n, b, clock, acts, a, born, now);
    }
  }
}
