/** Whose record a worker's compare-and-swap completes, and from when it can be the
    record of a later submission under the same tag. */
module JobOwnership {
  import opened Durations
  import opened JobGc
  import opened JobLifecycle
  import opened JobRecord
  import opened JobStore
  import opened JobTheorems
  import opened Logs

  function Max(a: int, b: int): int { if a >= b then a else b }

  /** The first moment a record stored at `stamp` is older than `ttl`: storage has
      truncated the stamp. */
  function AgedAt(stamp: Time, ttl: int): Time { Trunc(stamp) + ttl + 1 }

  /** When a pending record stamped `born` can time out, be buried and be forgotten at
      the earliest. */
  function TimesOutAt(g: Config, born: Time): Time { AgedAt(born, g.pendingTimeout) }
  function BuriedAt(g: Config, born: Time): Time { AgedAt(TimesOutAt(g, born), g.completeTTL) }
  function ForgottenAt(g: Config, born: Time): Time { AgedAt(BuriedAt(g, born), g.tombstoneTTL) }

  /** The earliest moment the tag of a submission stamped `born` can be reused while
      its worker has not reported. */
  function EarliestReuse(g: Config, born: Time): Time {
    Max(Max(born, TimesOutAt(g, born)), Max(BuriedAt(g, born), ForgottenAt(g, born)))
  }

  /** Whether the tag of such a submission can have been reused by `now`. A TTL of the
      longest duration never runs out. */
  predicate Reusable(g: Config, born: Time, now: Time) {
    && g.pendingTimeout < MAX_DURATION && g.completeTTL < MAX_DURATION && g.tombstoneTTL < MAX_DURATION
    && now >= EarliestReuse(g, born)
  }

  /** For TTLs of whole seconds it is simply their sum after the stored stamp. */
  lemma {:induction false} WholeSecondReuse(g: Config, born: Time)
    requires g.pendingTimeout % SECOND == 0 && g.completeTTL % SECOND == 0 && g.tombstoneTTL % SECOND == 0
    requires g.pendingTimeout >= 0 && g.completeTTL >= 0 && g.tombstoneTTL >= 0
    requires g.pendingTimeout + g.completeTTL + g.tombstoneTTL >= SECOND
    ensures EarliestReuse(g, born) == Trunc(born) + g.pendingTimeout + g.completeTTL + g.tombstoneTTL + 1
  {
    AgedWhole(born, g.pendingTimeout);
    AgedWhole(TimesOutAt(g, born), g.completeTTL);
  }

  /** With the shipped 5 minutes, 1 hour and 24 hours: 25 hours and 5 minutes. */
  lemma {:induction false} ShippedReuse(born: Time)
    ensures EarliestReuse(Config(300 * SECOND, 3600 * SECOND, 86400 * SECOND), born) == Trunc(born) + 90300 * SECOND + 1
  {
    WholeSecondReuse(Config(300 * SECOND, 3600 * SECOND, 86400 * SECOND), born);
  }

  lemma {:induction false} AgedWhole(stamp: Time, ttl: int)
    requires ttl % SECOND == 0
    ensures Trunc(AgedAt(stamp, ttl)) == Trunc(stamp) + ttl
  {
    var c := ttl / SECOND;
    assert AgedAt(stamp, ttl) == (Unix(stamp) + c) * SECOND + 1;
  }

  lemma {:induction false} AgedGrows(x: Time, y: Time, ttl: int)
    requires x <= y
    ensures AgedAt(x, ttl) <= AgedAt(y, ttl)
  {
    UnixGrows(x, y);
  }

  // Ownership

  /** The worker's swap comes before its tag could have been reused. */
  predicate Prompt(g: Config, s: State, a: Action)
    requires a.Swap? ==> a.j in s.jobs && s.jobs[a.j].pc.Forwarding?
  {
    a.Swap? ==> !Reusable(g, s.jobs[a.j].pc.born, a.now)
  }

  predicate AllPrompt(g: Config, n: nat, s: State, acts: seq<Action>)
    requires Feasible(g, n, s, acts)
    decreases |acts|
  {
    acts == [] || (Prompt(g, s, acts[0]) && AllPrompt(g, n, Apply(g, n, s, acts[0]), acts[1..]))
  }

  predicate Unreported(pc: Pc) { pc.Put? || pc.Forwarding? }

  /** The record under the tag of job j, if any, is the one j wrote, and no worker has
      completed it. */
  predicate Holds(s: State, j: nat)
    requires j in s.jobs && Unreported(s.jobs[j].pc)
  {
    var k := s.jobs[j].tag;
    && k in s.lives && s.lives[k].owner == j && s.lives[k].born == s.jobs[j].pc.born
    && (s.lives[k].left.Some? ==> s.lives[k].expired)
  }

  /** A job that has not reported still holds its record, or its tag could already
      have been reused. */
  predicate Owns(g: Config, s: State, j: nat)
    requires j in s.jobs && Unreported(s.jobs[j].pc)
  {
    Holds(s, j) || Reusable(g, s.jobs[j].pc.born, s.clock)
  }

  predicate Stamps(pc: Pc) { pc.Stamped? || Unreported(pc) }

  /** The history lies in the past. */
  predicate PastOk(s: State) {
    && (forall j | j in s.jobs && Stamps(s.jobs[j].pc) :: s.jobs[j].pc.born <= s.clock)
    && (forall k | k in s.lives && s.lives[k].left.Some? :: s.lives[k].left.value <= s.clock)
    && (forall k | k in s.lives && s.lives[k].evicted.Some? :: s.lives[k].evicted.value <= s.clock)
  }

  predicate OwnershipOk(g: Config, s: State) {
    && RecordsOk(g, s, false) && WindowOk(s) && PastOk(s)
    && forall j | j in s.jobs && Unreported(s.jobs[j].pc) :: Owns(g, s, j)
  }

  lemma {:induction false} StepPast(g: Config, n: nat, s: State, a: Action)
    requires ClockOk(s) && PastOk(s) && Enabled(n, s, a)
    ensures PastOk(Apply(g, n, s, a))
  {
    StampsPast(g, n, s, a);
    if Quiet(s, a) { QuietStep(g, n, s, a); }
  }

  lemma {:induction false} StampsPast(g: Config, n: nat, s: State, a: Action)
    requires PastOk(s) && Enabled(n, s, a)
    ensures var t := Apply(g, n, s, a);
            s.clock <= t.clock && forall j | j in t.jobs && Stamps(t.jobs[j].pc) :: t.jobs[j].pc.born <= t.clock
  {
  }

  /** A record j still held can only disappear once the tag may be reused. */
  lemma {:induction false} ForgottenLate(g: Config, n: nat, s: State, a: Action, j: nat)
    requires ValidConfig(g) && RecordsOk(g, s, false) && PastOk(s) && Enabled(n, s, a)
    requires j in s.jobs && Unreported(s.jobs[j].pc) && Holds(s, j) && s.jobs[j].tag !in Apply(g, n, s, a).bucket
    ensures Reusable(g, s.jobs[j].pc.born, s.clock)
  {
    var h := s.lives[s.jobs[j].tag];
    ReuseStep(g, n, s, a, s.jobs[j].tag);
    AgedGrows(TimesOutAt(g, h.born), h.left.value, g.completeTTL);
    AgedGrows(BuriedAt(g, h.born), h.evicted.value, g.tombstoneTTL);
  }

  /** What happens to the history under a tag whose record stays. */
  lemma {:induction false} KeptHistory(g: Config, n: nat, s: State, a: Action, k: Tag)
    requires ValidConfig(g) && RecordsOk(g, s, false) && WindowOk(s) && Enabled(n, s, a) && k in s.lives
    ensures var t := Apply(g, n, s, a);
            k in t.bucket ==>
              && k in t.lives && t.lives[k].owner == s.lives[k].owner && t.lives[k].born == s.lives[k].born
              && (t.lives[k].left.Some? && !t.lives[k].expired ==>
                    (s.lives[k].left.Some? && !s.lives[k].expired) || (a.Swap? && s.jobs[a.j].tag == k && Wins(s, a)))
  {
    assert EntryOk(g, s.bucket[k], s.lives, k);
    if Quiet(s, a) { QuietStep(g, n, s, a); }
  }

  lemma {:induction false} KeepsOwner(g: Config, n: nat, s: State, a: Action, j: nat)
    requires ValidConfig(g) && OwnershipOk(g, s) && Enabled(n, s, a) && Prompt(g, s, a)
    requires j in s.jobs && Unreported(s.jobs[j].pc)
    requires j in Apply(g, n, s, a).jobs && Unreported(Apply(g, n, s, a).jobs[j].pc)
    ensures Owns(g, Apply(g, n, s, a), j)
  {
    var k, t := s.jobs[j].tag, Apply(g, n, s, a);
    StepTag(g, n, s, a, j);
    StepClock(g, n, s, a, j);
    assert Owns(g, s, j);
    if a.Swap? { assert Owns(g, s, a.j); }
    if Holds(s, j) {
      KeptHistory(g, n, s, a, k);
      if k !in t.bucket { ForgottenLate(g, n, s, a, j); }
    }
  }

  lemma {:induction false} StepClock(g: Config, n: nat, s: State, a: Action, j: nat)
    requires Enabled(n, s, a) && j in s.jobs && Unreported(s.jobs[j].pc)
    ensures var t := Apply(g, n, s, a);
            && s.clock <= t.clock && (a.Swap? ==> t.clock == a.now && !Unreported(t.jobs[a.j].pc))
            && (Unreported(t.jobs[j].pc) ==> t.jobs[j].pc.born == s.jobs[j].pc.born)
  {
  }

  /** A job becomes unreported by its write, which stores its own record. */
  lemma {:induction false} BecomesOwner(g: Config, n: nat, s: State, a: Action, j: nat)
    requires Enabled(n, s, a) && (j in s.jobs ==> !Unreported(s.jobs[j].pc))
    requires j in Apply(g, n, s, a).jobs && Unreported(Apply(g, n, s, a).jobs[j].pc)
    ensures Holds(Apply(g, n, s, a), j)
  {
  }

  lemma {:induction false} StepOwnership(g: Config, n: nat, s: State, a: Action)
    requires ValidConfig(g) && OwnershipOk(g, s) && Enabled(n, s, a) && Serial(s, a) && Prompt(g, s, a)
    ensures OwnershipOk(g, Apply(g, n, s, a))
  {
    var t := Apply(g, n, s, a);
    StepRecords(g, n, s, a, false);
    StepWindow(g, n, s, a);
    StepPast(g, n, s, a);
    forall j | j in t.jobs && Unreported(t.jobs[j].pc)
      ensures Owns(g, t, j)
    {
      if j in s.jobs && Unreported(s.jobs[j].pc) {
        KeepsOwner(g, n, s, a, j);
      } else {
        BecomesOwner(g, n, s, a, j);
      }
    }
  }

  lemma {:induction false} RunOwnership(g: Config, n: nat, s: State, acts: seq<Action>)
    requires ValidConfig(g) && OwnershipOk(g, s)
    requires Feasible(g, n, s, acts) && Serialised(g, n, s, acts) && AllPrompt(g, n, s, acts)
    ensures OwnershipOk(g, Run(g, n, s, acts))
    decreases |acts|
  {
    if acts != [] {
      StepOwnership(g, n, s, acts[0]);
      RunOwnership(g, n, Apply(g, n, s, acts[0]), acts[1..]);
    }
  }

  /** If every worker so far was prompt and this one is too, a swap that wins
      completes the record of its own submission. */
  lemma {:induction false} SwapHitsOwnRecord(g: Config, n: nat, b: Bucket, clock: Time, acts: seq<Action>, a: Action)
    requires ValidConfig(g) && ZERO_TIME < clock && Feasible(g, n, Init(b, clock), acts)
    requires Serialised(g, n, Init(b, clock), acts) && AllPrompt(g, n, Init(b, clock), acts)
    requires a.Swap? && Enabled(n, Run(g, n, Init(b, clock), acts), a) && Prompt(g, Run(g, n, Init(b, clock), acts), a)
    ensures Holds(Run(g, n, Init(b, clock), acts), a.j)
  {
    RunOwnership(g, n, Init(b, clock), acts);
    assert Owns(g, Run(g, n, Init(b, clock), acts), a.j);
  }

  // One slot

  /** With a single slot, a job that has not reported keeps every other submission
      out, so no other record can be under its tag. */
  predicate SoleOk(s: State) {
    forall j | j in s.jobs && Unreported(s.jobs[j].pc) && s.jobs[j].tag in s.lives :: s.lives[s.jobs[j].tag].owner == j
  }

  lemma {:induction false} TwoHolders(s: State, n: nat, i: nat, j: nat)
    requires SlotsOk(n, s) && i != j && Holding(s.jobs, i) == 1 && Holding(s.jobs, j) == 1
    ensures n >= 2
  {
    var both := {i, j};
    assert both <= SlotHolders(s.jobs);
    SubsetSize(both, SlotHolders(s.jobs));
  }

  lemma {:induction false} SubsetSize<T>(a: set<T>, b: set<T>)
    requires a <= b
    ensures |a| <= |b|
    decreases |a|
  {
    if a != {} {
      var x :| x in a;
      SubsetSize(a - {x}, b - {x});
    }
  }

  lemma {:induction false} OwnerKept(g: Config, n: nat, s: State, a: Action, k: Tag)
    requires Enabled(n, s, a) && k in Apply(g, n, s, a).lives
    ensures var t := Apply(g, n, s, a);
            || (k in s.lives && t.lives[k].owner == s.lives[k].owner)
            || (a.Write? && s.jobs[a.j].tag == k && t.lives[k].owner == a.j)
  {
    if Quiet(s, a) { QuietStep(g, n, s, a); }
  }

  lemma {:induction false} NoOtherWrite(n: nat, s: State, a: Action, j: nat)
    requires n <= 1 && SlotsOk(n, s) && Enabled(n, s, a) && j in s.jobs && Unreported(s.jobs[j].pc)
    ensures !a.Write?
  {
    if a.Write? {
      assert a.j != j && Holding(s.jobs, a.j) == 1 && Holding(s.jobs, j) == 1;
      TwoHolders(s, n, a.j, j);
    }
  }

  lemma {:induction false} SoleKept(g: Config, n: nat, s: State, a: Action, j: nat)
    requires n <= 1 && SlotsOk(n, s) && SoleOk(s) && Enabled(n, s, a)
    requires var t := Apply(g, n, s, a); j in t.jobs && Unreported(t.jobs[j].pc) && t.jobs[j].tag in t.lives
    ensures var t := Apply(g, n, s, a); t.lives[t.jobs[j].tag].owner == j
  {
    if j in s.jobs && Unreported(s.jobs[j].pc) {
      StepTag(g, n, s, a, j);
      NoOtherWrite(n, s, a, j);
      OwnerKept(g, n, s, a, s.jobs[j].tag);
    } else {
      BecomesOwner(g, n, s, a, j);
    }
  }

  lemma {:induction false} StepTag(g: Config, n: nat, s: State, a: Action, j: nat)
    requires Enabled(n, s, a) && j in s.jobs
    ensures j in Apply(g, n, s, a).jobs && Apply(g, n, s, a).jobs[j].tag == s.jobs[j].tag
  {
  }

  lemma {:induction false} StepSole(g: Config, n: nat, s: State, a: Action)
    requires n <= 1 && SlotsOk(n, s) && SoleOk(s) && Enabled(n, s, a)
    ensures SoleOk(Apply(g, n, s, a))
  {
    var t := Apply(g, n, s, a);
    forall j | j in t.jobs && Unreported(t.jobs[j].pc) && t.jobs[j].tag in t.lives
      ensures t.lives[t.jobs[j].tag].owner == j
    {
      SoleKept(g, n, s, a, j);
    }
  }

  lemma {:induction false} RunSole(g: Config, n: nat, s: State, acts: seq<Action>)
    requires n <= 1 && SlotsOk(n, s) && SoleOk(s) && Feasible(g, n, s, acts)
    ensures SoleOk(Run(g, n, s, acts))
    decreases |acts|
  {
    if acts != [] {
      StepSole(g, n, s, acts[0]);
      StepSlots(g, n, s, acts[0]);
      RunSole(g, n, Apply(g, n, s, acts[0]), acts[1..]);
    }
  }
}
