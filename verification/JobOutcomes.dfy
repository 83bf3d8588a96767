/** What a client that fetches a tag is told, over every interleaving. */
module JobOutcomes {
  import opened JobGc
  import opened JobLifecycle
  import opened JobRecord
  import opened JobStore
  import opened JobTheorems
  import opened Logs

  datatype Outcome = OutcomePending | OutcomeCompleted(response: Response) | OutcomeTombstoned

  const EMPTY_RESPONSE := Response(0, [], "")

  function OutcomeForRecord(r: Record): Outcome {
    match r.status
    case Pending => OutcomePending
    case Completed => OutcomeCompleted(if r.response.Some? then r.response.value else EMPTY_RESPONSE)
    case Failed => OutcomeCompleted(if r.response.Some? then r.response.value else EMPTY_RESPONSE)
    case FailedTimeout => OutcomeCompleted(if r.response.Some? then r.response.value else EMPTY_RESPONSE)
    case Tombstone => OutcomeTombstoned
    case Unknown(_) => OutcomePending
  }

  /** The answer for a tag with a readable record. */
  function Fetch(b: Bucket, k: Tag): Option<Outcome> {
    var r := Read(b, k);
    if r.Ok? && r.value.Some? then Some(OutcomeForRecord(r.value.value)) else None
  }

  /** Pending until a response or nothing, then the same response until gone. */
  predicate Follows(before: Option<Outcome>, after: Option<Outcome>) {
    || before == after
    || (before.None? && after == Some(OutcomePending))
    || (before == Some(OutcomePending) && after.Some? && after.value.OutcomeCompleted?)
    || (before.Some? && before.value.OutcomeCompleted? && after == Some(OutcomeTombstoned))
    || (before == Some(OutcomeTombstoned) && after.None?)
  }

  lemma {:induction false} BatchesFollow(g: Config, n: nat, s: State, a: Action, k: Tag)
    requires Enabled(n, s, a) && !OfJob(a)
    ensures Follows(Fetch(s.bucket, k), Fetch(Apply(g, n, s, a).bucket, k))
  {
  }

  lemma {:induction false} SwapFollows(s: State, a: Action, k: Tag)
    requires a.Swap? && a.j in s.jobs && Wins(s, a)
    ensures Follows(Fetch(s.bucket, k), Fetch(OnSwap(s, a).bucket, k))
  {
  }

  /** Exactly which steps take back an answer, for every state: a write over a tag that
      has one other than pending. */
  lemma {:induction false} AnswersExactly(g: Config, n: nat, s: State, a: Action)
    requires Enabled(n, s, a)
    ensures (forall k :: Follows(Fetch(s.bucket, k), Fetch(Apply(g, n, s, a).bucket, k))) <==>
            !(a.Write? && a.ok && Fetch(s.bucket, s.jobs[a.j].tag) !in {None, Some(OutcomePending)})
  {
    var t := Apply(g, n, s, a);
    if Quiet(s, a) {
      QuietStep(g, n, s, a);
    } else if !OfJob(a) {
      forall k ensures Follows(Fetch(s.bucket, k), Fetch(t.bucket, k)) { BatchesFollow(g, n, s, a, k); }
    } else if a.Swap? {
      forall k ensures Follows(Fetch(s.bucket, k), Fetch(t.bucket, k)) { SwapFollows(s, a, k); }
    } else {
      var tag := s.jobs[a.j].tag;
      assert Fetch(t.bucket, tag) == Some(OutcomePending);
      assert forall k | k != tag :: Fetch(t.bucket, k) == Fetch(s.bucket, k);
      assert Follows(Fetch(s.bucket, tag), Fetch(t.bucket, tag)) <==>
        Fetch(s.bucket, tag) in {None, Some(OutcomePending)};
    }
  }

  /** In every run with serialised submissions, on every store, what fetching a tag
      returns only moves from pending to a response, which then never changes,
      to gone. A job the GC timed out answers with the empty response, and any
      other finished job with a stored one. If all records were well shaped at
      the start, every stored tag has an answer. */
  lemma {:induction false} AnswersAreStable(
    g: Config, n: nat, b: Bucket, clock: Time, acts: seq<Action>, a: Action, k: Tag)
    requires ValidConfig(g) && ZERO_TIME < clock
    requires Feasible(g, n, Init(b, clock), acts) && Serialised(g, n, Init(b, clock), acts)
    requires Enabled(n, Run(g, n, Init(b, clock), acts), a)
    ensures var s := Run(g, n, Init(b, clock), acts);
            && Follows(Fetch(s.bucket, k), Fetch(Apply(g, n, s, a).bucket, k))
            && (AllWellShaped(b) ==> (Fetch(s.bucket, k).Some? <==> k in s.bucket))
            && (k in s.lives ==> k in s.bucket && Fetch(s.bucket, k) == Some(OutcomeOf(s.lives[k])))
  {
    RunRecords(g, n, Init(b, clock), acts, false);
    RunWindow(g, n, Init(b, clock), acts);
    var s := Run(g, n, Init(b, clock), acts);
    AnswersExactly(g, n, s, a);
    if AllWellShaped(b) { StaysWellShaped(g, n, b, clock, acts); }
    if k in s.lives { HistoryTells(g, s.bucket[k], s.lives, k); }
  }

  /** The answer told from the record's history alone. */
  function OutcomeOf(h: Life): Outcome {
    if h.left.None? then OutcomePending
    else if h.evicted.Some? then OutcomeTombstoned
    else if h.report.None? then OutcomeCompleted(Response(0, [], ""))
    else Reported(h.report.value)
  }

  /** What a client is told of a report: the response, or that the upstream failed. */
  function Reported(r: Report): Outcome {
    OutcomeCompleted(if r.Success? then r.response else Response(502, [], "upstream error"))
  }

  lemma {:induction false} HistoryTells(g: Config, w: Stored, lives: map<Tag, Life>, k: Tag)
    requires EntryOk(g, w, lives, k) && k in lives
    ensures Unmarshal(w).Some? && OutcomeOf(lives[k]) == OutcomeForRecord(Unmarshal(w).value)
  {
  }

  // The winner's report

  /** A winning swap stores what its worker reported, as the client will be told it. */
  lemma {:induction false} WinnerAnswers(s: State, a: Action)
    requires a.Swap? && a.j in s.jobs && Wins(s, a)
    ensures var t, tag := OnSwap(s, a), s.jobs[a.j].tag;
            && StatusOf(t.bucket, tag) == Some(if a.response.Some? then Completed else Failed)
            && Fetch(t.bucket, tag) ==
               Some(OutcomeCompleted(if a.response.Some? then a.response.value
                 else Response(502, [], "upstream error")))
  {
  }

  /** The tag answers gone at some moment of the run. */
  predicate Buried(g: Config, n: nat, s: State, acts: seq<Action>, k: Tag)
    requires Feasible(g, n, s, acts)
    decreases |acts|
  {
    || Fetch(s.bucket, k) == Some(OutcomeTombstoned)
    || (acts != [] && Buried(g, n, Apply(g, n, s, acts[0]), acts[1..], k))
  }

  lemma {:induction false} StandsUntilBuried(g: Config, n: nat, s: State, acts: seq<Action>, k: Tag)
    requires WindowOk(s) && Feasible(g, n, s, acts) && Serialised(g, n, s, acts)
    requires Fetch(s.bucket, k).Some? && Fetch(s.bucket, k).value.OutcomeCompleted?
    ensures Buried(g, n, s, acts, k) || Fetch(Run(g, n, s, acts).bucket, k) == Fetch(s.bucket, k)
    decreases |acts|
  {
    if acts != [] {
      var t := Apply(g, n, s, acts[0]);
      AnswersExactly(g, n, s, acts[0]);
      assert Follows(Fetch(s.bucket, k), Fetch(t.bucket, k));
      StepWindow(g, n, s, acts[0]);
      if Fetch(t.bucket, k) == Fetch(s.bucket, k) { StandsUntilBuried(g, n, t, acts[1..], k); }
    }
  }

  /** In every run with serialised submissions, on every store: once a worker has won,
      its tag answers exactly what that worker reported (the upstream's response, or
      502 "upstream error"), until it answers gone. */
  lemma {:induction false} WinnerIsAnswered(
    g: Config, n: nat, b: Bucket, clock: Time, acts: seq<Action>, a: Action, later: seq<Action>)
    requires Feasible(g, n, Init(b, clock), acts) && Serialised(g, n, Init(b, clock), acts)
    requires a.Swap? && Enabled(n, Run(g, n, Init(b, clock), acts), a) && Wins(Run(g, n, Init(b, clock), acts), a)
    requires Feasible(g, n, Apply(g, n, Run(g, n, Init(b, clock), acts), a), later)
    requires Serialised(g, n, Apply(g, n, Run(g, n, Init(b, clock), acts), a), later)
    ensures var s := Run(g, n, Init(b, clock), acts);
            var t, k := Apply(g, n, s, a), s.jobs[a.j].tag;
            || Buried(g, n, t, later, k)
            || Fetch(Run(g, n, t, later).bucket, k) ==
               Some(OutcomeCompleted(if a.response.Some? then a.response.value
                 else Response(502, [], "upstream error")))
  {
    var s := Run(g, n, Init(b, clock), acts);
    RunWindow(g, n, Init(b, clock), acts);
    StepWindow(g, n, s, a);
    WinnerAnswers(s, a);
    StandsUntilBuried(g, n, Apply(g, n, s, a), later, s.jobs[a.j].tag);
  }
}
