module Calls {
  import opened Wrappers
  import opened Errors
  import B = Breaker

  // Any number of concurrent calls through one governed upstream (crates/moaray/src/governed.rs), as a step
  // system. Every await is a point where other calls may run, and one where the call's future may be dropped;
  // code between two awaits that touches shared state more than once is split into separate steps. A step
  // performs the effects of the guards that go out of scope in it.

  /** `passthrough` and `chat` share one retry loop; `passthrough_stream` tries once. */
  datatype Kind = Unary | Streaming

  datatype Policy = Policy(
    breaker: B.Config,
    maxConcurrency: Option<nat>,
    retryEnabled: bool,
    retryLimit: nat)
  {
    /** The semaphore's size; an unset or zero cap means unbounded. */
    function Cap(): Option<nat> {
      if maxConcurrency.Some? && maxConcurrency.value > 0 then maxConcurrency else None
    }

    function MaxRetries(kind: Kind): nat {
      if kind == Unary && retryEnabled then retryLimit else 0
    }
  }

  datatype Phase =
    | Gated        // past the breaker, before the token bucket
    | Waiting      // past the bucket, waiting for a permit
    | Calling      // waiting for the upstream
    | BackingOff   // sleeping before another attempt
    | Settled      // outcome reported; the permit goes with the response
    | Finished

  /** How a call ended, as far as the breaker is concerned. */
  datatype Ending = Live | Rejected | Answered(answer: Result<(), Error>) | Cancelled

  datatype Report = Report(success: bool, admission: B.Admission)

  datatype Call = Call(
    kind: Kind,
    admission: B.Admission,
    phase: Phase,
    permit: bool,
    attempt: nat,
    answers: seq<Result<(), Error>>,
    ending: Ending,
    reports: seq<Report>,
    releases: nat)
  {
    /** The call still owes the breaker its token: a probe guard or a breaker guard is alive. */
    predicate OwnsToken() { phase.Gated? || phase.Waiting? || phase.Calling? || phase.BackingOff? }
  }

  datatype System = System(
    now: B.Instant,
    breaker: B.Inner,
    history: seq<B.Event>,
    available: nat,
    calls: map<nat, Call>)

  function Start(p: Policy): System {
    System(0, B.INITIAL, [], if p.Cap().Some? then p.Cap().value else 0, map[])
  }

  datatype Action =
    | Tick(nanos: nat)
    | Arrive(id: nat, kind: Kind)
    | BucketAllows(id: nat)
    | BucketDenies(id: nat)
    | PermitGranted(id: nat)
    | AdmissionDropped(id: nat)
    | UpstreamAnswers(id: nat, answer: Result<(), Error>)
    | SleepOver(id: nat)
    | CallDropped(id: nat)
    | PermitDropped(id: nat)

  predicate Enabled(p: Policy, s: System, a: Action) {
    match a
    case Tick(_) => true
    case Arrive(id, _) => id !in s.calls
    case BucketAllows(id) => id in s.calls && s.calls[id].phase == Gated
    case BucketDenies(id) => id in s.calls && s.calls[id].phase == Gated
    case PermitGranted(id) =>
      id in s.calls && s.calls[id].phase == Waiting && (p.Cap().Some? ==> s.available > 0)
    case AdmissionDropped(id) => id in s.calls && s.calls[id].phase == Waiting
    case UpstreamAnswers(id, _) => id in s.calls && s.calls[id].phase == Calling
    case SleepOver(id) => id in s.calls && s.calls[id].phase == BackingOff
    case CallDropped(id) => id in s.calls && (s.calls[id].phase == Calling || s.calls[id].phase == BackingOff)
    case PermitDropped(id) => id in s.calls && s.calls[id].phase == Settled
  }

  function Put(s: System, id: nat, c: Call): System { s.(calls := s.calls[id := c]) }

  function Notify(p: Policy, s: System, e: B.Event): System {
    s.(breaker := B.Step(p.breaker, s.breaker, e), history := s.history + [e])
  }

  /** `ProbeReleaseGuard::drop`: armed only for a probe admission. */
  function DropProbeGuard(p: Policy, s: System, id: nat, c: Call): System {
    var done := c.(phase := Finished, ending := Rejected);
    if c.admission == B.Probe then Put(Notify(p, s, B.ProbeReleased), id, done.(releases := c.releases + 1))
    else Put(s, id, done)
  }

  predicate CountsAsSuccess(e: Ending) {
    e.Answered? && (e.answer.Ok? || !e.answer.error.CountsAgainstBreaker())
  }

  /** `BreakerGuard::drop`: report what was finalized, or a failure when nothing was. */
  function DropBreakerGuard(p: Policy, s: System, id: nat, c: Call, ending: Ending): System {
    var success := CountsAsSuccess(ending);
    var event := if success then B.Succeeded(c.admission) else B.Failed(s.now, c.admission);
    Put(Notify(p, s, event), id,
        c.(phase := Settled, ending := ending, reports := c.reports + [Report(success, c.admission)]))
  }

  /** Whether the retry loop goes round again on this answer. */
  predicate Retries(p: Policy, c: Call, answer: Result<(), Error>) {
    answer.Err? && c.attempt < p.MaxRetries(c.kind) && answer.error.IsRetryable()
  }

  function Exec(p: Policy, s: System, a: Action): System
    requires Enabled(p, s, a)
  {
    match a
    case Tick(nanos) => s.(now := s.now + nanos)
    case Arrive(id, kind) =>
      var (_, admission) := B.Check(p.breaker, s.breaker, s.now);
      var checked := Notify(p, s, B.Checked(s.now));
      if admission.None? then checked
      else Put(checked, id, Call(kind, admission.value, Gated, false, 0, [], Live, [], 0))
    case BucketAllows(id) => Put(s, id, s.calls[id].(phase := Waiting))
    case BucketDenies(id) => DropProbeGuard(p, s, id, s.calls[id])
    case PermitGranted(id) =>
      var c := s.calls[id].(phase := Calling, permit := p.Cap().Some?);
      Put(if p.Cap().Some? then s.(available := s.available - 1) else s, id, c)
    case AdmissionDropped(id) => DropProbeGuard(p, s, id, s.calls[id])
    case UpstreamAnswers(id, answer) =>
      var c := s.calls[id].(answers := s.calls[id].answers + [answer]);
      if Retries(p, c, answer) then Put(s, id, c.(phase := BackingOff, attempt := c.attempt + 1))
      else DropBreakerGuard(p, s, id, c, Answered(answer))
    case SleepOver(id) => Put(s, id, s.calls[id].(phase := Calling))
    case CallDropped(id) => DropBreakerGuard(p, s, id, s.calls[id], Cancelled)
    case PermitDropped(id) =>
      var c := s.calls[id];
      Put(if c.permit then s.(available := s.available + 1) else s, id, c.(phase := Finished, permit := false))
  }

  /** Running a schedule; `None` when some action is not enabled where it is due. */
  function Play(p: Policy, s: System, schedule: seq<Action>): Option<System>
    decreases |schedule|
  {
    if schedule == [] then Some(s)
    else if !Enabled(p, s, schedule[0]) then None
    else Play(p, Exec(p, s, schedule[0]), schedule[1..])
  }

  // ---------------------------------------------------------------------------------------------
  // The invariant
  // ---------------------------------------------------------------------------------------------

  /** The first `n` answers were failures to connect. */
  predicate UnavailableUpTo(answers: seq<Result<(), Error>>, n: int) {
    forall i :: 0 <= i < n && i < |answers| ==> answers[i] == Err(UpstreamUnavailable)
  }

  /** Bookkeeping of one call. */
  predicate CallOk(p: Policy, c: Call) {
    match c.phase
    case Gated => !c.permit && c.attempt == 0 && c.answers == [] && c.reports == [] && c.releases == 0 && c.ending.Live?
    case Waiting => !c.permit && c.attempt == 0 && c.answers == [] && c.reports == [] && c.releases == 0 && c.ending.Live?
    case Calling => InFlight(p, c)
    case BackingOff => InFlight(p, c) && c.attempt >= 1
    case Settled => c.permit == p.Cap().Some? && ReportedOnce(p, c)
    case Finished => !c.permit && (ReportedOnce(p, c) || TurnedAway(c))
  }

  predicate InFlight(p: Policy, c: Call) {
    && c.permit == p.Cap().Some? && c.reports == [] && c.releases == 0 && c.ending.Live?
    && |c.answers| == c.attempt <= p.MaxRetries(c.kind)
    && UnavailableUpTo(c.answers, |c.answers|)
  }

  /** An admitted call that is over: one report, under its own token, saying how it ended. */
  predicate ReportedOnce(p: Policy, c: Call) {
    && (c.ending.Answered? || c.ending.Cancelled?)
    && c.reports == [Report(CountsAsSuccess(c.ending), c.admission)] && c.releases == 0
    && |c.answers| <= 1 + p.MaxRetries(c.kind)
    && (c.ending.Cancelled? ==> UnavailableUpTo(c.answers, |c.answers|))
    && (c.ending.Answered? ==>
          c.answers != [] && c.answers[|c.answers|-1] == c.ending.answer
          && UnavailableUpTo(c.answers, |c.answers| - 1)
          && (c.ending.answer == Err(UpstreamUnavailable) ==> |c.answers| == 1 + p.MaxRetries(c.kind)))
  }

  /** A call that never reached the upstream: no report, and a probe slot given back exactly once. */
  predicate TurnedAway(c: Call) {
    && c.ending.Rejected? && c.answers == [] && c.reports == []
    && c.releases == (if c.admission == B.Probe then 1 else 0)
  }

  function LiveProbes(calls: map<nat, Call>): set<nat> {
    set id | id in calls && calls[id].OwnsToken() && calls[id].admission == B.Probe
  }

  function PermitHolders(calls: map<nat, Call>): set<nat> {
    set id | id in calls && calls[id].permit
  }

  function Reporters(calls: map<nat, Call>): set<nat> {
    set id | id in calls && calls[id].reports != []
  }

  function Outcomes(h: seq<B.Event>): nat {
    if h == [] then 0
    else Outcomes(h[..|h|-1]) + (if h[|h|-1].Succeeded? || h[|h|-1].Failed? then 1 else 0)
  }

  /** The slot flag is set exactly while one call owns an unsettled probe token. */
  predicate SingleProbe(s: System) {
    && (forall i, j :: i in LiveProbes(s.calls) && j in LiveProbes(s.calls) ==> i == j)
    && (s.breaker.probeInFlight <==> LiveProbes(s.calls) != {})
  }

  predicate PermitsConserved(p: Policy, s: System) {
    p.Cap().Some? ==> s.available + |PermitHolders(s.calls)| == p.Cap().value
  }

  predicate CallsOk(p: Policy, s: System) {
    forall id :: id in s.calls ==> CallOk(p, s.calls[id])
  }

  /** What one step relies on. */
  predicate Core(p: Policy, s: System) {
    B.WellFormed(p.breaker, s.breaker) && CallsOk(p, s) && SingleProbe(s) && PermitsConserved(p, s)
  }

  /** The breaker is what its history makes it, and each report is one outcome in that history. */
  predicate Ledger(p: Policy, s: System) {
    s.breaker == B.After(p.breaker, s.history) && Outcomes(s.history) == |Reporters(s.calls)|
  }

  lemma StepWellFormed(cfg: B.Config, g: B.Inner, e: B.Event)
    requires B.WellFormed(cfg, g)
    ensures B.WellFormed(cfg, B.Step(cfg, g, e))
  {
  }

  function One(b: bool): nat { if b then 1 else 0 }

  lemma PutProbes(calls: map<nat, Call>, id: nat, c: Call)
    ensures LiveProbes(calls[id := c])
         == if c.OwnsToken() && c.admission == B.Probe then LiveProbes(calls) + {id} else LiveProbes(calls) - {id}
  {
  }

  lemma PutPermits(calls: map<nat, Call>, id: nat, c: Call)
    ensures |PermitHolders(calls[id := c])| + One(id in calls && calls[id].permit)
         == |PermitHolders(calls)| + One(c.permit)
  {
    var others := PermitHolders(calls) - {id};
    assert PermitHolders(calls) == if id in calls && calls[id].permit then others + {id} else others;
    assert PermitHolders(calls[id := c]) == if c.permit then others + {id} else others;
  }

  lemma PutReporters(calls: map<nat, Call>, id: nat, c: Call)
    ensures |Reporters(calls[id := c])| + One(id in calls && calls[id].reports != [])
         == |Reporters(calls)| + One(c.reports != [])
  {
    var others := Reporters(calls) - {id};
    assert Reporters(calls) == if id in calls && calls[id].reports != [] then others + {id} else others;
    assert Reporters(calls[id := c]) == if c.reports != [] then others + {id} else others;
  }

  /** A call that keeps its token, or never had one, only moves permits. */
  lemma MoveKeeps(p: Policy, s: System, id: nat, c: Call, available: nat)
    requires Core(p, s) && id in s.calls && CallOk(p, c)
    requires c.admission == s.calls[id].admission && c.OwnsToken() == s.calls[id].OwnsToken()
    requires p.Cap().Some? ==> available + One(c.permit) == s.available + One(s.calls[id].permit)
    ensures Core(p, s.(available := available, calls := s.calls[id := c]))
  {
    PutProbes(s.calls, id, c);
    PutPermits(s.calls, id, c);
    assert LiveProbes(s.calls[id := c]) == LiveProbes(s.calls);
  }

  /** A call that gives its token back: a probe frees the slot, a normal call leaves it alone. */
  lemma SettleKeeps(p: Policy, s: System, id: nat, c: Call, g: B.Inner, h: seq<B.Event>)
    requires Core(p, s) && id in s.calls && CallOk(p, c) && B.WellFormed(p.breaker, g)
    requires c.admission == s.calls[id].admission && s.calls[id].OwnsToken() && !c.OwnsToken()
    requires c.permit == s.calls[id].permit
    requires g.probeInFlight == if c.admission == B.Probe then false else s.breaker.probeInFlight
    ensures Core(p, s.(breaker := g, history := h, calls := s.calls[id := c]))
  {
    PutProbes(s.calls, id, c);
    PutPermits(s.calls, id, c);
    if c.admission == B.Probe {
      assert id in LiveProbes(s.calls);
      assert LiveProbes(s.calls[id := c]) == {};
    } else {
      assert LiveProbes(s.calls[id := c]) == LiveProbes(s.calls);
    }
  }

  /** A newcomer: a probe takes the free slot, a normal call leaves the flag alone. */
  lemma AdmitKeeps(p: Policy, s: System, id: nat, c: Call, g: B.Inner, h: seq<B.Event>)
    requires Core(p, s) && id !in s.calls && CallOk(p, c) && c.phase == Gated && B.WellFormed(p.breaker, g)
    requires c.admission == B.Probe ==> !s.breaker.probeInFlight && g.probeInFlight
    requires c.admission == B.Normal ==> g.probeInFlight == s.breaker.probeInFlight
    ensures Core(p, s.(breaker := g, history := h, calls := s.calls[id := c]))
  {
    PutProbes(s.calls, id, c);
    PutPermits(s.calls, id, c);
    if c.admission == B.Normal {
      assert LiveProbes(s.calls[id := c]) == LiveProbes(s.calls);
    } else {
      assert LiveProbes(s.calls[id := c]) == {id};
    }
  }

  lemma ArriveKeeps(p: Policy, s: System, id: nat, kind: Kind)
    requires Core(p, s) && id !in s.calls
    ensures Core(p, Exec(p, s, Arrive(id, kind)))
  {
    var (g, admission) := B.Check(p.breaker, s.breaker, s.now);
    StepWellFormed(p.breaker, s.breaker, B.Checked(s.now));
    if admission.Some? {
      var c := Call(kind, admission.value, Gated, false, 0, [], Live, [], 0);
      AdmitKeeps(p, s, id, c, g, s.history + [B.Checked(s.now)]);
    }
  }

  lemma ProbeGuardKeeps(p: Policy, s: System, id: nat)
    requires Core(p, s) && id in s.calls && (s.calls[id].phase == Gated || s.calls[id].phase == Waiting)
    ensures Core(p, DropProbeGuard(p, s, id, s.calls[id]))
  {
    var c := s.calls[id];
    var done := c.(phase := Finished, ending := Rejected, releases := c.releases + One(c.admission == B.Probe));
    if c.admission == B.Probe {
      assert id in LiveProbes(s.calls);
      StepWellFormed(p.breaker, s.breaker, B.ProbeReleased);
      SettleKeeps(p, s, id, done, B.Release(s.breaker), s.history + [B.ProbeReleased]);
    } else {
      SettleKeeps(p, s, id, done, s.breaker, s.history);
    }
  }

  lemma BreakerGuardKeeps(p: Policy, s: System, id: nat, c: Call, ending: Ending)
    requires Core(p, s) && id in s.calls && s.calls[id].OwnsToken()
    requires c.admission == s.calls[id].admission && c.permit == s.calls[id].permit == p.Cap().Some?
    requires c.reports == [] && ReportedOnce(p, c.(ending := ending, reports := [Report(CountsAsSuccess(ending), c.admission)]))
    ensures Core(p, DropBreakerGuard(p, s, id, c, ending))
  {
    var success := CountsAsSuccess(ending);
    var event := if success then B.Succeeded(c.admission) else B.Failed(s.now, c.admission);
    StepWellFormed(p.breaker, s.breaker, event);
    if c.admission == B.Probe {
      assert id in LiveProbes(s.calls);
    }
    var done := c.(phase := Settled, ending := ending, reports := c.reports + [Report(success, c.admission)]);
    assert done.reports == [Report(success, c.admission)];
    SettleKeeps(p, s, id, done, B.Step(p.breaker, s.breaker, event), s.history + [event]);
  }

  lemma RetryKeeps(p: Policy, s: System, id: nat, answer: Result<(), Error>)
    requires Core(p, s) && id in s.calls && s.calls[id].phase == Calling && Retries(p, s.calls[id], answer)
    ensures var c := s.calls[id];
      Core(p, Put(s, id, c.(answers := c.answers + [answer], phase := BackingOff, attempt := c.attempt + 1)))
  {
    var c := s.calls[id];
    MoveKeeps(p, s, id, c.(answers := c.answers + [answer], phase := BackingOff, attempt := c.attempt + 1), s.available);
  }

  lemma LastAnswerIsReported(p: Policy, s: System, id: nat, answer: Result<(), Error>)
    requires Core(p, s) && id in s.calls && s.calls[id].phase == Calling && !Retries(p, s.calls[id], answer)
    ensures var c := s.calls[id];
      ReportedOnce(p, c.(answers := c.answers + [answer], ending := Answered(answer),
                         reports := [Report(CountsAsSuccess(Answered(answer)), c.admission)]))
  {
  }

  lemma AnswerKeeps(p: Policy, s: System, id: nat, answer: Result<(), Error>)
    requires Core(p, s) && Enabled(p, s, UpstreamAnswers(id, answer))
    ensures Core(p, Exec(p, s, UpstreamAnswers(id, answer)))
  {
    if Retries(p, s.calls[id], answer) {
      RetryKeeps(p, s, id, answer);
    } else {
      LastAnswerIsReported(p, s, id, answer);
      BreakerGuardKeeps(p, s, id, s.calls[id].(answers := s.calls[id].answers + [answer]), Answered(answer));
    }
  }

  /** Every step of every call keeps the invariant. */
  lemma StepKeepsCore(p: Policy, s: System, a: Action)
    requires Core(p, s) && Enabled(p, s, a)
    ensures Core(p, Exec(p, s, a))
  {
    match a
    case Tick(_) =>
    case Arrive(id, kind) => ArriveKeeps(p, s, id, kind);
    case BucketAllows(id) => MoveKeeps(p, s, id, s.calls[id].(phase := Waiting), s.available);
    case BucketDenies(id) => ProbeGuardKeeps(p, s, id);
    case PermitGranted(id) =>
      MoveKeeps(p, s, id, s.calls[id].(phase := Calling, permit := p.Cap().Some?),
                if p.Cap().Some? then s.available - 1 else s.available);
    case AdmissionDropped(id) => ProbeGuardKeeps(p, s, id);
    case UpstreamAnswers(id, answer) => AnswerKeeps(p, s, id, answer);
    case SleepOver(id) => MoveKeeps(p, s, id, s.calls[id].(phase := Calling), s.available);
    case CallDropped(id) => BreakerGuardKeeps(p, s, id, s.calls[id], Cancelled);
    case PermitDropped(id) =>
      MoveKeeps(p, s, id, s.calls[id].(phase := Finished, permit := false),
                if s.calls[id].permit then s.available + 1 else s.available);
  }

  /** What the history says, step by step. */
  lemma HistoryGrows(p: Policy, s: System, e: B.Event)
    requires s.breaker == B.After(p.breaker, s.history)
    ensures Notify(p, s, e).breaker == B.After(p.breaker, s.history + [e])
    ensures Outcomes(s.history + [e]) == Outcomes(s.history) + One(e.Succeeded? || e.Failed?)
  {
    assert (s.history + [e])[..|s.history|] == s.history;
  }

  /** This step made call `id` report. */
  predicate ReportsNow(before: map<nat, Call>, after: map<nat, Call>, id: nat) {
    id in after && after[id].reports != [] && (id in before ==> before[id].reports == [])
  }

  /** A step tells the breaker one thing or nothing. */
  lemma BreakerStep(p: Policy, s: System, a: Action)
    requires Enabled(p, s, a)
    ensures var t := Exec(p, s, a);
      || (t.history == s.history && t.breaker == s.breaker)
      || (&& |t.history| == |s.history| + 1 && t.history[..|s.history|] == s.history
          && t.breaker == B.Step(p.breaker, s.breaker, t.history[|s.history|]))
  {
  }

  /** It is an outcome exactly when the step makes a call report. */
  lemma OutcomeStep(p: Policy, s: System, a: Action)
    requires Core(p, s) && Enabled(p, s, a)
    ensures var t := Exec(p, s, a);
      (!a.Tick? && ReportsNow(s.calls, t.calls, a.id))
      <==> |t.history| > |s.history| && (t.history[|s.history|].Succeeded? || t.history[|s.history|].Failed?)
  {
  }

  lemma HistoryStep(p: Policy, s: System, a: Action)
    requires Core(p, s) && s.breaker == B.After(p.breaker, s.history) && Enabled(p, s, a)
    ensures var t := Exec(p, s, a);
      && t.breaker == B.After(p.breaker, t.history)
      && Outcomes(t.history) == Outcomes(s.history) + One(!a.Tick? && ReportsNow(s.calls, t.calls, a.id))
  {
    var t := Exec(p, s, a);
    BreakerStep(p, s, a);
    OutcomeStep(p, s, a);
    if t.history != s.history {
      var e := t.history[|s.history|];
      assert t.history == s.history + [e];
      HistoryGrows(p, s, e);
    }
  }

  lemma ReportersStep(p: Policy, s: System, a: Action)
    requires Core(p, s) && Enabled(p, s, a)
    ensures var t := Exec(p, s, a);
      |Reporters(t.calls)| == |Reporters(s.calls)| + One(!a.Tick? && ReportsNow(s.calls, t.calls, a.id))
  {
    var t := Exec(p, s, a);
    if !a.Tick? && a.id in t.calls {
      PutReporters(s.calls, a.id, t.calls[a.id]);
    }
  }

  lemma StepKeepsLedger(p: Policy, s: System, a: Action)
    requires Core(p, s) && Ledger(p, s) && Enabled(p, s, a)
    ensures Ledger(p, Exec(p, s, a))
  {
    HistoryStep(p, s, a);
    ReportersStep(p, s, a);
  }

  // ---------------------------------------------------------------------------------------------
  // Every run
  // ---------------------------------------------------------------------------------------------

  lemma {:induction false} RunKeepsInvariant(p: Policy, s: System, schedule: seq<Action>)
    requires Core(p, s) && Ledger(p, s) && Play(p, s, schedule).Some?
    ensures Core(p, Play(p, s, schedule).value) && Ledger(p, Play(p, s, schedule).value)
    decreases |schedule|
  {
    if schedule != [] {
      StepKeepsCore(p, s, schedule[0]);
      StepKeepsLedger(p, s, schedule[0]);
      RunKeepsInvariant(p, Exec(p, s, schedule[0]), schedule[1..]);
    }
  }

  /** `s` can be reached from a fresh upstream by some interleaving of calls. */
  ghost predicate Reachable(p: Policy, s: System) {
    exists schedule :: Play(p, Start(p), schedule) == Some(s)
  }

  lemma StartIsCore(p: Policy)
    ensures Core(p, Start(p)) && Ledger(p, Start(p))
  {
    assert LiveProbes(Start(p).calls) == {} && PermitHolders(Start(p).calls) == {} && Reporters(Start(p).calls) == {};
  }

  lemma ReachableInvariant(p: Policy, s: System)
    requires Reachable(p, s)
    ensures Core(p, s) && Ledger(p, s)
  {
    var schedule :| Play(p, Start(p), schedule) == Some(s);
    StartIsCore(p);
    RunKeepsInvariant(p, Start(p), schedule);
  }

  /**
    Single probe: in every reachable state the slot flag is set exactly while one live call owns an
    unsettled probe token, and then the breaker is half-open. A closed or open breaker has no live
    probe, so no stale probe can ever report to it.
  */
  lemma SingleProbeAlways(p: Policy, s: System)
    requires Reachable(p, s)
    ensures |LiveProbes(s.calls)| == One(s.breaker.probeInFlight)
    ensures LiveProbes(s.calls) != {} ==> s.breaker.state == B.HalfOpen
  {
    ReachableInvariant(p, s);
    if id :| id in LiveProbes(s.calls) {
      assert LiveProbes(s.calls) == {id};
    }
  }

  /**
    Settle exactly once: while a call is live it has told the breaker nothing; once it is over it has
    either made exactly one report, under its own admission, or it never reached the upstream and gave
    a reserved probe slot back exactly once (a normal admission gives nothing back).
  */
  lemma SettlesExactlyOnce(p: Policy, s: System, id: nat)
    requires Reachable(p, s) && id in s.calls
    ensures var c := s.calls[id];
      if c.OwnsToken() then c.reports == [] && c.releases == 0
      else if c.ending.Rejected? then c.reports == [] && c.releases == One(c.admission == B.Probe) && c.answers == []
      else c.reports == [Report(CountsAsSuccess(c.ending), c.admission)] && c.releases == 0
  {
    ReachableInvariant(p, s);
  }

  /** The outcomes the breaker ever saw are exactly one per reporting call, in every interleaving. */
  lemma OutcomesAreReports(p: Policy, s: System)
    requires Reachable(p, s)
    ensures s.breaker == B.After(p.breaker, s.history)
    ensures Outcomes(s.history) == |Reporters(s.calls)|
  {
    ReachableInvariant(p, s);
  }

  /** The call was dropped, or its upstream was down, timed out or answered with a server error. */
  predicate Faulted(c: Call) {
    || c.ending.Cancelled?
    || (c.ending.Answered? && c.ending.answer.Err?
        && (c.ending.answer.error.UpstreamError? || c.ending.answer.error.UpstreamTimeout? || c.ending.answer.error.UpstreamUnavailable?))
  }

  predicate AnyFaulted(calls: map<nat, Call>) {
    exists id :: id in calls && Faulted(calls[id])
  }

  /** Every failure the breaker saw was a fault of some call. */
  predicate FailuresExplained(s: System) {
    B.HasFailure(s.history) ==> AnyFaulted(s.calls)
  }

  /** A fault stays on record. */
  lemma FaultsStay(p: Policy, s: System, a: Action)
    requires Core(p, s) && Enabled(p, s, a) && AnyFaulted(s.calls)
    ensures AnyFaulted(Exec(p, s, a).calls)
  {
    var id :| id in s.calls && Faulted(s.calls[id]);
    assert CallOk(p, s.calls[id]);
    var t := Exec(p, s, a);
    assert id in t.calls && t.calls[id].ending == s.calls[id].ending;
  }

  lemma NewFailureIsFault(p: Policy, s: System, a: Action)
    requires Core(p, s) && Enabled(p, s, a)
    requires var h := Exec(p, s, a).history; |h| > |s.history| && h[|s.history|].Failed?
    ensures AnyFaulted(Exec(p, s, a).calls)
  {
    var t := Exec(p, s, a);
    assert a.id in t.calls && Faulted(t.calls[a.id]);
  }

  lemma StepExplains(p: Policy, s: System, a: Action)
    requires Core(p, s) && FailuresExplained(s) && Enabled(p, s, a)
    ensures FailuresExplained(Exec(p, s, a))
  {
    var t := Exec(p, s, a);
    BreakerStep(p, s, a);
    if AnyFaulted(s.calls) {
      FaultsStay(p, s, a);
    } else if B.HasFailure(t.history) {
      assert forall k :: 0 <= k < |s.history| ==> t.history[k] == s.history[k] && !s.history[k].Failed?;
      NewFailureIsFault(p, s, a);
    }
  }

  lemma {:induction false} RunExplains(p: Policy, s: System, schedule: seq<Action>)
    requires Core(p, s) && FailuresExplained(s) && Play(p, s, schedule).Some?
    ensures FailuresExplained(Play(p, s, schedule).value)
    decreases |schedule|
  {
    if schedule != [] {
      StepKeepsCore(p, s, schedule[0]);
      StepExplains(p, s, schedule[0]);
      RunExplains(p, Exec(p, s, schedule[0]), schedule[1..]);
    }
  }

  /**
    Only faults of the upstream trip it: as long as no call was dropped in flight and every error the
    upstream gave was a client error, throttling or another of the caller's making, however many there
    were, the breaker is as it was at the start.
  */
  lemma OnlyFaultsTrip(p: Policy, s: System)
    requires Reachable(p, s) && !AnyFaulted(s.calls)
    ensures s.breaker == B.INITIAL
  {
    ReachableInvariant(p, s);
    var schedule :| Play(p, Start(p), schedule) == Some(s);
    StartIsCore(p);
    RunExplains(p, Start(p), schedule);
    B.NoFailureNoTrip(p.breaker, s.history);
  }

  /**
    Retry discipline, in the settings' own terms. A streaming call, and any call when retries are off,
    asks the upstream once; no call asks more than `1 + retryLimit` times; every answer but the last is a
    failure to connect; and a call gives up on that failure only after the last attempt it is allowed.
  */
  lemma RetryDiscipline(p: Policy, s: System, id: nat)
    requires Reachable(p, s) && id in s.calls
    ensures var c := s.calls[id];
      && (c.kind == Streaming || !p.retryEnabled ==> |c.answers| <= 1)
      && |c.answers| <= 1 + p.retryLimit
      && (forall i :: 0 <= i < |c.answers| - 1 ==> c.answers[i] == Err(UpstreamUnavailable))
      && (c.ending.Answered? ==> |c.answers| >= 1 && c.answers[|c.answers|-1] == c.ending.answer)
      && (c.ending.Cancelled? ==> forall a :: a in c.answers ==> a == Err(UpstreamUnavailable))
      && (c.ending == Answered(Err(UpstreamUnavailable)) ==>
            |c.answers| == if c.kind == Unary && p.retryEnabled then 1 + p.retryLimit else 1)
  {
    ReachableInvariant(p, s);
  }

  /**
    Free permits plus those held by calls and open streams always make up the configured cap, and every
    call in flight holds one. Without a cap, or with one of zero, no call ever waits for a permit.
  */
  lemma PermitsAlwaysConserved(p: Policy, s: System)
    requires Reachable(p, s)
    ensures p.maxConcurrency.Some? && p.maxConcurrency.value > 0 ==>
      && s.available + |PermitHolders(s.calls)| == p.maxConcurrency.value
      && forall id ::
        id in s.calls && (s.calls[id].phase == Calling || s.calls[id].phase == BackingOff) ==> id in PermitHolders(s.calls)
    ensures p.maxConcurrency == None || p.maxConcurrency == Some(0) ==>
      forall id :: id in s.calls && s.calls[id].phase == Waiting ==> Enabled(p, s, PermitGranted(id))
  {
    ReachableInvariant(p, s);
  }

  /**
    The breaker never wedges: with no live call, a check at `now` is refused if and only if the
    breaker is open and `openMs` milliseconds have not passed since it was last reported a failure; and
    an admission outside Closed is a probe.
  */
  lemma NeverWedges(p: Policy, s: System, now: B.Instant)
    requires Reachable(p, s) && (forall id :: id in s.calls ==> !s.calls[id].OwnsToken())
    ensures s.breaker.state == B.Open ==> s.breaker.openedAt.Some?
    ensures B.Check(p.breaker, s.breaker, now).1 ==
      if s.breaker.state == B.Closed then Some(B.Normal)
      else if s.breaker.state == B.Open && now < s.breaker.openedAt.value + p.breaker.openMs * 1_000_000 && p.breaker.openMs > 0 then None
      else Some(B.Probe)
  {
    ReachableInvariant(p, s);
    if id :| id in LiveProbes(s.calls) {
      assert false;
    }
  }

  // ---------------------------------------------------------------------------------------------
  // Late failures
  // ---------------------------------------------------------------------------------------------

  function LiveNormals(calls: map<nat, Call>): set<nat> {
    set id | id in calls && calls[id].OwnsToken() && calls[id].admission == B.Normal
  }

  /** A failure reported to an open breaker: it starts the cool-down again. */
  predicate IsRestart(p: Policy, s: System, a: Action)
    requires Enabled(p, s, a)
  {
    var h := Exec(p, s, a).history;
    s.breaker.state == B.Open && |h| > |s.history| && h[|h|-1].Failed?
  }

  function Restarts(p: Policy, s: System, schedule: seq<Action>): nat
    requires Play(p, s, schedule).Some?
    decreases |schedule|
  {
    if schedule == [] then 0
    else One(IsRestart(p, s, schedule[0])) + Restarts(p, Exec(p, s, schedule[0]), schedule[1..])
  }

  /** The breaker is not closed anywhere along the run. */
  predicate StaysTripped(p: Policy, s: System, schedule: seq<Action>)
    requires Play(p, s, schedule).Some?
    decreases |schedule|
  {
    && s.breaker.state != B.Closed
    && (schedule != [] ==> StaysTripped(p, Exec(p, s, schedule[0]), schedule[1..]))
  }

  predicate IsLiveNormal(calls: map<nat, Call>, id: nat) {
    id in calls && calls[id].OwnsToken() && calls[id].admission == B.Normal
  }

  lemma PutNormals(calls: map<nat, Call>, id: nat, c: Call)
    ensures |LiveNormals(calls[id := c])| + One(IsLiveNormal(calls, id))
         == |LiveNormals(calls)| + One(c.OwnsToken() && c.admission == B.Normal)
  {
    var others := LiveNormals(calls) - {id};
    assert LiveNormals(calls) == if IsLiveNormal(calls, id) then others + {id} else others;
    assert LiveNormals(calls[id := c]) == if c.OwnsToken() && c.admission == B.Normal then others + {id} else others;
  }

  /** Outside Closed no step adds a live normal call, and each restart uses one up. */
  lemma RestartUsesUpANormal(p: Policy, s: System, a: Action)
    requires Core(p, s) && Enabled(p, s, a) && s.breaker.state != B.Closed
    ensures One(IsRestart(p, s, a)) + |LiveNormals(Exec(p, s, a).calls)| <= |LiveNormals(s.calls)|
  {
    var t := Exec(p, s, a);
    if !a.Tick? && a.id in t.calls {
      PutNormals(s.calls, a.id, t.calls[a.id]);
      assert IsLiveNormal(t.calls, a.id) ==> IsLiveNormal(s.calls, a.id);
      if IsRestart(p, s, a) {
        assert a.id !in LiveProbes(s.calls);
        assert IsLiveNormal(s.calls, a.id) && !IsLiveNormal(t.calls, a.id);
      }
    }
  }

  /**
    After a trip, late normal failures restart the cool-down at most as often as there were normal
    calls live at the trip, however long the breaker stays tripped.
  */
  lemma {:induction false} LateFailuresBounded(p: Policy, s: System, schedule: seq<Action>)
    requires Core(p, s) && Play(p, s, schedule).Some? && StaysTripped(p, s, schedule)
    ensures Restarts(p, s, schedule) + |LiveNormals(Play(p, s, schedule).value.calls)| <= |LiveNormals(s.calls)|
    decreases |schedule|
  {
    if schedule != [] {
      RestartUsesUpANormal(p, s, schedule[0]);
      StepKeepsCore(p, s, schedule[0]);
      LateFailuresBounded(p, Exec(p, s, schedule[0]), schedule[1..]);
    }
  }

  // ---------------------------------------------------------------------------------------------
  // The back-off shift
  // ---------------------------------------------------------------------------------------------

  /** The 64-bit shift by `attempt - 1` that a sleeping call has just computed is in range. */
  predicate ShiftsDefined(s: System) {
    forall id :: id in s.calls && s.calls[id].phase == BackingOff ==> s.calls[id].attempt - 1 < 64
  }

  const UNREACHABLE: Action := UpstreamAnswers(0, Err(UpstreamUnavailable))

  /** `n` failed attempts of call 0, each followed by its sleep. */
  function Rounds(n: nat): seq<Action> {
    if n == 0 then [] else [UNREACHABLE, SleepOver(0)] + Rounds(n - 1)
  }

  lemma {:induction false} RoundsRun(p: Policy, s: System, n: nat)
    requires 0 in s.calls && s.calls[0].phase == Calling && s.calls[0].kind == Unary
    requires s.calls[0].attempt + n < p.MaxRetries(Unary)
    ensures var t := Play(p, s, Rounds(n) + [UNREACHABLE]);
      t.Some? && 0 in t.value.calls && t.value.calls[0].phase == BackingOff
      && t.value.calls[0].attempt == s.calls[0].attempt + n + 1
    decreases n
  {
    var once := Exec(p, s, UNREACHABLE);
    if n == 0 {
      assert Rounds(0) + [UNREACHABLE] == [UNREACHABLE] + [];
      PlayCons(p, s, UNREACHABLE, []);
    } else {
      var next := Exec(p, once, SleepOver(0));
      var later := Rounds(n - 1) + [UNREACHABLE];
      RoundsRun(p, next, n - 1);
      PlayCons(p, once, SleepOver(0), later);
      PlayCons(p, s, UNREACHABLE, [SleepOver(0)] + later);
      assert Rounds(n) + [UNREACHABLE] == [UNREACHABLE] + ([SleepOver(0)] + later);
    }
  }

  lemma {:induction false} PlayCons(p: Policy, s: System, a: Action, later: seq<Action>)
    requires Enabled(p, s, a)
    ensures Play(p, s, [a] + later) == Play(p, Exec(p, s, a), later)
  {
    assert ([a] + later)[1..] == later;
  }

  /** The first call of a fresh upstream gets past all gates. */
  lemma FirstCallGetsThrough(p: Policy)
    ensures Enabled(p, Start(p), Arrive(0, Unary))
    ensures var s1 := Exec(p, Start(p), Arrive(0, Unary));
      && Enabled(p, s1, BucketAllows(0))
      && var s2 := Exec(p, s1, BucketAllows(0));
      0 in s2.calls && s2.calls[0].phase == Waiting && s2.calls[0].kind == Unary && s2.calls[0].attempt == 0
      && s2.available == Start(p).available
  {
  }

  /** A schedule in which one call against a dead upstream uses all its retries. */
  lemma LastBackoffReached(p: Policy) returns (s: System)
    requires p.MaxRetries(Unary) > 0
    ensures Reachable(p, s) && 0 in s.calls
    ensures s.calls[0].phase == BackingOff && s.calls[0].attempt == p.MaxRetries(Unary)
  {
    var n := p.MaxRetries(Unary) - 1;
    var plan := Rounds(n) + [UNREACHABLE];
    FirstCallGetsThrough(p);
    var s1 := Exec(p, Start(p), Arrive(0, Unary));
    var s2 := Exec(p, s1, BucketAllows(0));
    var s3 := Exec(p, s2, PermitGranted(0));
    RoundsRun(p, s3, n);
    s := Play(p, s3, plan).value;
    PlayCons(p, s2, PermitGranted(0), plan);
    PlayCons(p, s1, BucketAllows(0), [PermitGranted(0)] + plan);
    PlayCons(p, Start(p), Arrive(0, Unary), [BucketAllows(0)] + ([PermitGranted(0)] + plan));
  }

  /**
    Configuration validation puts no bound on the retry limit, and the back-off shift needs one: it is
    in range in every reachable state if and only if the effective limit is at most 64.
  */
  lemma ShiftDefinedIffLimitSmall(p: Policy)
    ensures (forall s :: Reachable(p, s) ==> ShiftsDefined(s)) <==> p.MaxRetries(Unary) <= 64
  {
    if p.MaxRetries(Unary) <= 64 {
      forall s | Reachable(p, s) ensures ShiftsDefined(s) {
        ReachableInvariant(p, s);
      }
    } else {
      var s := LastBackoffReached(p);
      assert !ShiftsDefined(s);
    }
  }
}
