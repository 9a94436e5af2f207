/**
  One governed call as the source writes it (crates/moaray/src/governed.rs): guards with a mutable
  flag acted on when they are dropped, and a retry loop. What each await gives back is an input, so
  is the point where the call's future is dropped. Each method is proved to be a run of the step
  system in module Calls, and so inherits every theorem proved there.
*/
module Governed {
  import opened Wrappers
  import opened Errors
  import B = Breaker
  import C = Calls

  const U64_MAX: nat := 0xFFFF_FFFF_FFFF_FFFF

  /**
    `backoff_ms.saturating_mul(1 << (attempt - 1))`. A shift by 64 or more stops a debug build; a
    release build shifts by the amount modulo 64.
  */
  function BackoffMs(base: nat, attempt: nat): nat
    requires 1 <= attempt
  {
    var product := base * Power2((attempt - 1) % 64);
    if product > U64_MAX then U64_MAX else product
  }

  function Power2(n: nat): nat { if n == 0 then 1 else 2 * Power2(n - 1) }

  /** Back-off starts over after 64 attempts. */
  lemma BackoffStartsOver(base: nat, attempt: nat)
    requires 1 <= attempt
    ensures BackoffMs(base, attempt + 64) == BackoffMs(base, attempt)
  {
    assert (attempt - 1 + 64) % 64 == (attempt - 1) % 64;
  }

  /** While the product fits in 64 bits each sleep is twice the one before; then it stays at the maximum. */
  lemma BackoffDoubles(base: nat, attempt: nat)
    requires 1 <= attempt < 64 && base <= U64_MAX
    ensures BackoffMs(base, 1) == base
    ensures BackoffMs(base, attempt + 1)
      == if 2 * BackoffMs(base, attempt) <= U64_MAX then 2 * BackoffMs(base, attempt) else U64_MAX
  {
    var k := Power2(attempt - 1);
    assert (attempt - 1) % 64 == attempt - 1 && attempt % 64 == attempt;
    assert Power2(attempt) == 2 * k;
    assert base * (2 * k) == 2 * (base * k);
    assert Power2(0) == 1;
  }

  /** What the world does to one call. `None` from `upstream` means the future is dropped there. */
  datatype Script = Script(
    start: B.Instant,
    bucketAllows: bool,
    permitGranted: bool,
    upstream: nat -> Option<Result<(), Error>>,
    sleepCompletes: nat -> bool,
    elapsed: nat)

  datatype Outcome = Returned(answer: Result<(), Error>) | FutureDropped

  class ProbeReleaseGuard {
    const breaker: B.CircuitBreaker
    var armed: bool

    constructor (breaker: B.CircuitBreaker, admission: B.Admission)
      ensures this.breaker == breaker && armed == (admission == B.Probe)
    {
      this.breaker := breaker;
      armed := admission == B.Probe;
    }

    method Disarm()
      modifies this
      ensures !armed
    {
      armed := false;
    }

    method Drop()
      requires breaker.Valid()
      modifies breaker
      ensures breaker.Valid()
      ensures breaker.history == old(breaker.history) + (if armed then [B.ProbeReleased] else [])
      ensures breaker.View() == if armed then B.Release(old(breaker.View())) else old(breaker.View())
    {
      if armed {
        breaker.ReleaseProbe();
      }
    }
  }

  datatype BreakerAction = Success | Failure

  class BreakerGuard {
    const breaker: B.CircuitBreaker
    const admission: B.Admission
    var action: Option<BreakerAction>

    constructor (breaker: B.CircuitBreaker, admission: B.Admission)
      ensures this.breaker == breaker && this.admission == admission && action == None
    {
      this.breaker := breaker;
      this.admission := admission;
      action := None;
    }

    method Succeed()
      modifies this
      ensures action == Some(Success)
    {
      action := Some(Success);
    }

    method Record(e: Error)
      modifies this
      ensures action == Some(Success) || action == Some(Failure)
      ensures action == Some(Failure) <==> e.UpstreamError? || e.UpstreamTimeout? || e.UpstreamUnavailable?
    {
      action := Some(if e.CountsAgainstBreaker() then Failure else Success);
    }

    /** An un-finalized call counts as a failure. */
    method Drop(now: B.Instant)
      requires breaker.Valid()
      modifies breaker
      ensures breaker.Valid()
      ensures var e := if action == Some(Success) then B.Succeeded(admission) else B.Failed(now, admission);
        && breaker.history == old(breaker.history) + [e]
        && breaker.View() == B.Step(breaker.cfg, old(breaker.View()), e)
    {
      match action {
        case Some(Success) => breaker.OnSuccessAt(admission);
        case _ => breaker.OnFailureAt(now, admission);
      }
    }
  }

  lemma {:induction false} PlayAppend(p: C.Policy, s: C.System, schedule: seq<C.Action>, a: C.Action)
    requires C.Play(p, s, schedule).Some? && C.Enabled(p, C.Play(p, s, schedule).value, a)
    ensures C.Play(p, s, schedule + [a]) == Some(C.Exec(p, C.Play(p, s, schedule).value, a))
    decreases |schedule|
  {
    if schedule == [] {
      assert schedule + [a] == [a];
      assert C.Play(p, C.Exec(p, s, a), [a][1..]) == Some(C.Exec(p, s, a));
    } else {
      assert (schedule + [a])[1..] == schedule[1..] + [a];
      PlayAppend(p, C.Exec(p, s, schedule[0]), schedule[1..], a);
    }
  }

  /** A schedule together with where it leads. */
  datatype Trace = Trace(schedule: seq<C.Action>, end: C.System)
  {
    ghost predicate Follows(p: C.Policy, s: C.System) { C.Play(p, s, schedule) == Some(end) }
  }

  function Extend(p: C.Policy, tr: Trace, a: C.Action): Trace
    requires C.Enabled(p, tr.end, a)
  {
    Trace(tr.schedule + [a], C.Exec(p, tr.end, a))
  }

  lemma ExtendFollows(p: C.Policy, s: C.System, tr: Trace, a: C.Action)
    requires tr.Follows(p, s) && C.Enabled(p, tr.end, a)
    ensures Extend(p, tr, a).Follows(p, s)
  {
    PlayAppend(p, s, tr.schedule, a);
  }

  predicate CanStart(p: C.Policy, s: C.System, id: nat, x: Script) {
    id !in s.calls && s.now == x.start && (x.permitGranted && p.Cap().Some? ==> s.available > 0)
  }

  function GatesResult(p: C.Policy, s: C.System, x: Script): Option<Result<B.Admission, Error>> {
    match B.Check(p.breaker, s.breaker, x.start).1
    case None => Some(Err(CircuitOpen))
    case Some(admission) =>
      if !x.bucketAllows then Some(Err(RateLimited))
      else if !x.permitGranted then None
      else Some(Ok(admission))
  }

  /** Where the step system stands once the gates are through with the call. */
  function GatesEnd(p: C.Policy, s: C.System, id: nat, kind: C.Kind, x: Script): C.System
    requires CanStart(p, s, id, x)
  {
    var s1 := C.Exec(p, s, C.Arrive(id, kind));
    if id !in s1.calls then s1
    else if !x.bucketAllows then C.Exec(p, s1, C.BucketDenies(id))
    else
      var s2 := C.Exec(p, s1, C.BucketAllows(id));
      C.Exec(p, s2, if x.permitGranted then C.PermitGranted(id) else C.AdmissionDropped(id))
  }

  lemma GatesRun(p: C.Policy, s: C.System, id: nat, kind: C.Kind, x: Script) returns (tr: Trace)
    requires CanStart(p, s, id, x)
    ensures tr.Follows(p, s) && tr.end == GatesEnd(p, s, id, kind, x)
  {
    tr := Trace([], s);
    ExtendFollows(p, s, tr, C.Arrive(id, kind));
    tr := Extend(p, tr, C.Arrive(id, kind));
    if id in tr.end.calls {
      if !x.bucketAllows {
        ExtendFollows(p, s, tr, C.BucketDenies(id));
        tr := Extend(p, tr, C.BucketDenies(id));
      } else {
        ExtendFollows(p, s, tr, C.BucketAllows(id));
        tr := Extend(p, tr, C.BucketAllows(id));
        var last := if x.permitGranted then C.PermitGranted(id) else C.AdmissionDropped(id);
        ExtendFollows(p, s, tr, last);
        tr := Extend(p, tr, last);
      }
    }
  }

  /** The call's entry once the gates are through with it: none, in flight, or turned away. */
  lemma GatesCalls(p: C.Policy, s: C.System, id: nat, kind: C.Kind, x: Script)
    requires CanStart(p, s, id, x)
    ensures var t := GatesEnd(p, s, id, kind, x);
      && t.now == s.now
      && t.calls == match B.Check(p.breaker, s.breaker, x.start).1
                    case None => s.calls
                    case Some(admission) =>
                      if x.bucketAllows && x.permitGranted then
                        s.calls[id := C.Call(kind, admission, C.Calling, p.Cap().Some?, 0, [], C.Live, [], 0)]
                      else
                        s.calls[id := C.Call(kind, admission, C.Finished, false, 0, [], C.Rejected, [], C.One(admission == B.Probe))]
  {
  }

  /** What the gates do to the shared state: the check, a probe given back on refusal, a permit on success. */
  lemma GatesShared(p: C.Policy, s: C.System, id: nat, kind: C.Kind, x: Script)
    requires CanStart(p, s, id, x)
    ensures var t := GatesEnd(p, s, id, kind, x);
      var (g, admission) := B.Check(p.breaker, s.breaker, x.start);
      var admitted := admission.Some? && x.bucketAllows && x.permitGranted;
      var releases := admission == Some(B.Probe) && !admitted;
      && t.breaker == (if releases then B.Release(g) else g)
      && t.history == s.history + [B.Checked(x.start)] + (if releases then [B.ProbeReleased] else [])
      && t.available == s.available - C.One(admitted && p.Cap().Some?)
  {
  }

  /** Call `id` is the only new one, admitted and not over. */
  ghost predicate InFlightTrace(p: C.Policy, s: C.System, tr: Trace, id: nat, kind: C.Kind, admission: B.Admission) {
    && tr.Follows(p, s) && id !in s.calls && id in tr.end.calls && tr.end.now == s.now
    && var c := tr.end.calls[id];
    && tr.end.calls == s.calls[id := c]
    && (c.phase == C.Calling || c.phase == C.BackingOff)
    && c.kind == kind && c.admission == admission && c.permit == p.Cap().Some?
    && c.reports == [] && c.ending.Live?
  }

  /** The gates either end the call, and it has no answer on record, or leave it in flight. */
  lemma GatesOutcome(p: C.Policy, s: C.System, id: nat, kind: C.Kind, x: Script, tr: Trace)
    requires CanStart(p, s, id, x) && tr.Follows(p, s) && tr.end == GatesEnd(p, s, id, kind, x)
    ensures match GatesResult(p, s, x)
      case None => EndsAs(s, tr.end, id, kind, FutureDropped) && Unanswered(tr.end, id)
      case Some(Err(e)) => EndsAs(s, tr.end, id, kind, Returned(Err(e))) && Unanswered(tr.end, id)
      case Some(Ok(admission)) => InFlightTrace(p, s, tr, id, kind, admission) && Fresh(tr.end.calls[id])
  {
    GatesCalls(p, s, id, kind, x);
  }

  predicate Unanswered(t: C.System, id: nat) { id in t.calls ==> t.calls[id].ending.Rejected? }

  predicate Fresh(c: C.Call) { c.phase == C.Calling && c.attempt == 0 && c.answers == [] }

  /** The answers on record are the upstream's, in order. */
  predicate Heard(x: Script, c: C.Call) {
    forall k :: 0 <= k < |c.answers| ==> x.upstream(k) == Some(c.answers[k])
  }

  /** A call that is over heard the upstream up to its last attempt, and was dropped only at an await. */
  predicate FollowedScript(x: Script, c: C.Call) {
    && Heard(x, c)
    && (c.ending.Cancelled? ==> x.upstream(|c.answers|).None? || !x.sleepCompletes(|c.answers|))
  }

  /**
    What the script makes of an admitted call that may ask `limit` times more after `retries` retries: it
    asked again after each failure to connect and each completed sleep, and it ended with the first other
    answer, with that failure once the limit is reached, or where its future was dropped.
  */
  predicate Plays(x: Script, limit: nat, retries: nat, r: Outcome) {
    && retries <= limit
    && (forall k :: 0 <= k < retries ==> x.upstream(k) == Some(Err(UpstreamUnavailable)))
    && (forall k :: 1 <= k < retries ==> x.sleepCompletes(k))
    && match r
       case Returned(answer) =>
         && (retries > 0 ==> x.sleepCompletes(retries)) && x.upstream(retries) == Some(answer)
         && (answer == Err(UpstreamUnavailable) ==> retries == limit)
       case FutureDropped => if retries > 0 && !x.sleepCompletes(retries) then true else x.upstream(retries).None?
  }

  /** What a call comes to, from the breaker's word on, in terms of the settings alone. */
  predicate ComesTo(admission: Option<B.Admission>, x: Script, limit: nat, retries: nat, r: Outcome) {
    if admission.None? then r == Returned(Err(CircuitOpen)) && retries == 0
    else if !x.bucketAllows then r == Returned(Err(RateLimited)) && retries == 0
    else if !x.permitGranted then r == FutureDropped && retries == 0
    else Plays(x, limit, retries, r)
  }

  /** The upstream is at fault, or nobody waited for its answer. */
  predicate Faulted(r: Outcome) {
    match r
    case FutureDropped => true
    case Returned(Ok(_)) => false
    case Returned(Err(e)) => e.UpstreamError? || e.UpstreamTimeout? || e.UpstreamUnavailable?
  }

  /** The one report of an admitted call. */
  function ReportOf(admission: B.Admission, x: Script, r: Outcome): B.Event {
    if Faulted(r) then B.Failed(x.start + x.elapsed, admission) else B.Succeeded(admission)
  }

  /** What the breaker is told of a call: the check; a probe given back if a later gate refused; else its outcome. */
  ghost predicate Tells(before: seq<B.Event>, after: seq<B.Event>, admission: Option<B.Admission>, x: Script, r: Outcome) {
    if admission.Some? && x.bucketAllows && x.permitGranted then
      after == before + [B.Checked(x.start)] + [ReportOf(admission.value, x, r)]
    else
      after == before + [B.Checked(x.start)] + (if admission == Some(B.Probe) then [B.ProbeReleased] else [])
  }

  /** The script leaves no choice. */
  lemma ComesToOne(admission: Option<B.Admission>, x: Script, limit: nat, m: nat, q: Outcome, n: nat, r: Outcome)
    requires ComesTo(admission, x, limit, m, q) && ComesTo(admission, x, limit, n, r)
    ensures m == n && q == r
  {
  }

  /** Nothing other calls can see differs. */
  predicate SameShared(s: C.System, t: C.System) {
    t.breaker == s.breaker && t.history == s.history && t.available == s.available
  }

  lemma RetryStep(p: C.Policy, s: C.System, tr: Trace, id: nat, kind: C.Kind, admission: B.Admission, e: Error) returns (next: Trace)
    requires InFlightTrace(p, s, tr, id, kind, admission) && tr.end.calls[id].phase == C.Calling
    requires C.Retries(p, tr.end.calls[id], Err(e))
    ensures InFlightTrace(p, s, next, id, kind, admission) && SameShared(tr.end, next.end)
    ensures next.end.calls[id].phase == C.BackingOff && next.end.calls[id].attempt == tr.end.calls[id].attempt + 1
    ensures next.end.calls[id].answers == tr.end.calls[id].answers + [Err(e)]
  {
    ExtendFollows(p, s, tr, C.UpstreamAnswers(id, Err(e)));
    next := Extend(p, tr, C.UpstreamAnswers(id, Err(e)));
  }

  lemma WakeStep(p: C.Policy, s: C.System, tr: Trace, id: nat, kind: C.Kind, admission: B.Admission) returns (next: Trace)
    requires InFlightTrace(p, s, tr, id, kind, admission) && tr.end.calls[id].phase == C.BackingOff
    ensures InFlightTrace(p, s, next, id, kind, admission) && SameShared(tr.end, next.end)
    ensures next.end.calls[id] == tr.end.calls[id].(phase := C.Calling)
  {
    ExtendFollows(p, s, tr, C.SleepOver(id));
    next := Extend(p, tr, C.SleepOver(id));
  }

  predicate CanClose(p: C.Policy, t: C.System, id: nat, r: Outcome) {
    && id in t.calls && (t.calls[id].phase == C.Calling || t.calls[id].phase == C.BackingOff)
    && (r.Returned? ==> t.calls[id].phase == C.Calling && !C.Retries(p, t.calls[id], r.answer))
  }

  /** An open stream keeps its permit. */
  predicate KeepsPermit(kind: C.Kind, r: Outcome) { kind == C.Streaming && r.Returned? && r.answer.Ok? }

  function LastStep(id: nat, r: Outcome): C.Action {
    if r.Returned? then C.UpstreamAnswers(id, r.answer) else C.CallDropped(id)
  }

  /** The last steps of a call in flight: time passes, it answers or is dropped, its permit goes back. */
  function CloseEnd(p: C.Policy, t: C.System, id: nat, r: Outcome, nanos: nat): C.System
    requires CanClose(p, t, id, r)
  {
    var later := C.Exec(p, t, C.Tick(nanos));
    var over := C.Exec(p, later, LastStep(id, r));
    if KeepsPermit(t.calls[id].kind, r) then over else C.Exec(p, over, C.PermitDropped(id))
  }

  function EndingOf(r: Outcome): C.Ending { if r.Returned? then C.Answered(r.answer) else C.Cancelled }

  lemma CloseRun(p: C.Policy, s: C.System, tr: Trace, id: nat, r: Outcome, nanos: nat) returns (done: Trace)
    requires tr.Follows(p, s) && CanClose(p, tr.end, id, r)
    ensures done.Follows(p, s) && done.end == CloseEnd(p, tr.end, id, r, nanos)
  {
    ExtendFollows(p, s, tr, C.Tick(nanos));
    var later := Extend(p, tr, C.Tick(nanos));
    ExtendFollows(p, s, later, LastStep(id, r));
    done := Extend(p, later, LastStep(id, r));
    if !KeepsPermit(tr.end.calls[id].kind, r) {
      ExtendFollows(p, s, done, C.PermitDropped(id));
      done := Extend(p, done, C.PermitDropped(id));
    }
  }

  /** What closing does to the shared state: one report to the breaker, and the permit. */
  lemma CloseShared(p: C.Policy, t: C.System, id: nat, r: Outcome, nanos: nat)
    requires CanClose(p, t, id, r) && t.calls[id].permit == p.Cap().Some?
    ensures var c := t.calls[id];
      var e := if C.CountsAsSuccess(EndingOf(r)) then B.Succeeded(c.admission) else B.Failed(t.now + nanos, c.admission);
      var end := CloseEnd(p, t, id, r, nanos);
      && end.breaker == B.Step(p.breaker, t.breaker, e)
      && end.history == t.history + [e]
      && end.available == t.available + C.One(p.Cap().Some? && !KeepsPermit(c.kind, r))
  {
  }

  /** What closing does to the call. */
  lemma CloseCall(p: C.Policy, t: C.System, id: nat, r: Outcome, nanos: nat)
    requires CanClose(p, t, id, r)
    ensures var c := t.calls[id];
      var end := CloseEnd(p, t, id, r, nanos);
      && id in end.calls && end.calls == t.calls[id := end.calls[id]]
      && end.calls[id].kind == c.kind && end.calls[id].ending == EndingOf(r)
      && end.calls[id].phase == (if KeepsPermit(c.kind, r) then C.Settled else C.Finished)
      && end.calls[id].answers == c.answers + (if r.Returned? then [r.answer] else [])
  {
  }

  /** Call `id` is the only one that changed, and it ended as `r` says. */
  ghost predicate EndsAs(s: C.System, end: C.System, id: nat, kind: C.Kind, r: Outcome) {
    if id !in end.calls then end.calls == s.calls && r == Returned(Err(CircuitOpen))
    else
      var c := end.calls[id];
      && end.calls == s.calls[id := c] && c.kind == kind
      && match c.ending
         case Rejected => c.phase == C.Finished && (r == Returned(Err(RateLimited)) || r.FutureDropped?)
         case Cancelled => c.phase == C.Finished && r.FutureDropped?
         case Answered(answer) =>
           r == Returned(answer)
           && c.phase == if kind == C.Streaming && answer.Ok? then C.Settled else C.Finished
         case Live => false
  }

  class GovernedProvider {
    const breaker: B.CircuitBreaker
    const policy: C.Policy
    const backoffMs: nat
    var available: nat

    constructor (policy: C.Policy, backoffMs: nat)
      ensures this.policy == policy && this.backoffMs == backoffMs
      ensures fresh(breaker) && Mirrors(C.Start(policy))
    {
      this.policy := policy;
      this.backoffMs := backoffMs;
      available := if policy.Cap().Some? then policy.Cap().value else 0;
      breaker := new B.CircuitBreaker(policy.breaker);
    }

    /** The objects hold what the step system's state says. */
    ghost predicate Mirrors(s: C.System)
      reads this, breaker
    {
      && breaker.cfg == policy.breaker && breaker.Valid()
      && breaker.View() == s.breaker && breaker.history == s.history
      && available == s.available
    }

    /**
      The admission gates in order: breaker, token bucket, semaphore. The probe guard lives from the
      breaker check to the end of the method and is disarmed only when every gate let the call pass.
    */
    method Admit(ghost id: nat, ghost kind: C.Kind, x: Script, ghost s: C.System)
      returns (r: Option<Result<B.Admission, Error>>)
      requires Mirrors(s) && CanStart(policy, s, id, x)
      modifies this, breaker
      ensures Mirrors(GatesEnd(policy, s, id, kind, x))
      ensures r == GatesResult(policy, s, x)
    {
      GatesShared(policy, s, id, kind, x);
      var admission := breaker.CheckAt(x.start);
      if admission.None? {
        return Some(Err(CircuitOpen));
      }
      var probeGuard := new ProbeReleaseGuard(breaker, admission.value);
      if !x.bucketAllows {
        r := Some(Err(RateLimited));
      } else if !x.permitGranted {
        r := None;
      } else {
        if policy.Cap().Some? {
          available := available - 1;
        }
        probeGuard.Disarm();
        r := Some(Ok(admission.value));
      }
      probeGuard.Drop();
    }

    /** `BreakerGuard` and then the permit go out of scope. */
    method Finish(guard: BreakerGuard, now: B.Instant, keepPermit: bool)
      requires guard.breaker == breaker && breaker.Valid() && breaker.cfg == policy.breaker
      modifies this, breaker
      ensures var e := if guard.action == Some(Success) then B.Succeeded(guard.admission) else B.Failed(now, guard.admission);
        && breaker.Valid() && breaker.history == old(breaker.history) + [e]
        && breaker.View() == B.Step(policy.breaker, old(breaker.View()), e)
      ensures available == old(available) + C.One(policy.Cap().Some? && !keepPermit)
    {
      guard.Drop(now);
      if policy.Cap().Some? && !keepPermit {
        available := available + 1;
      }
    }

    /**
      The retry loop of an admitted call, up to the point where its guards are dropped. Only the
      guard's own flag changes: the breaker learns nothing before the call is over.
    */
    method Attempts(guard: BreakerGuard, x: Script, ghost id: nat, ghost s: C.System, ghost from: Trace)
      returns (r: Outcome, sleeps: seq<nat>, ghost tr: Trace)
      requires InFlightTrace(policy, s, from, id, C.Unary, guard.admission)
      requires from.end.calls[id].phase == C.Calling && from.end.calls[id].attempt == 0 && guard.action == None
      requires from.end.calls[id].answers == []
      modifies guard
      ensures InFlightTrace(policy, s, tr, id, C.Unary, guard.admission) && SameShared(from.end, tr.end)
      ensures Heard(x, tr.end.calls[id])
      ensures var n := |tr.end.calls[id].answers|;
        if r.Returned? then x.upstream(n) == Some(r.answer) else x.upstream(n).None? || !x.sleepCompletes(n)
      ensures r.FutureDropped? ==> guard.action == None
      ensures r.Returned? ==>
        && tr.end.calls[id].phase == C.Calling && !C.Retries(policy, tr.end.calls[id], r.answer)
        && guard.action == Some(if C.CountsAsSuccess(C.Answered(r.answer)) then Success else Failure)
      ensures |sleeps| == tr.end.calls[id].attempt
      ensures Plays(x, if policy.retryEnabled then policy.retryLimit else 0, |sleeps|, r)
      ensures forall k :: 0 <= k < |sleeps| ==> sleeps[k] == BackoffMs(backoffMs, k + 1)
    {
      hide BackoffMs, C.Exec, C.Enabled, C.Play;
      sleeps := [];
      tr := from;
      var attempt := 0;
      while true
        invariant InFlightTrace(policy, s, tr, id, C.Unary, guard.admission) && SameShared(from.end, tr.end)
        invariant tr.end.calls[id].phase == C.Calling && guard.action == None
        invariant tr.end.calls[id].attempt == attempt == |sleeps| <= policy.MaxRetries(C.Unary)
        invariant |tr.end.calls[id].answers| == attempt && Heard(x, tr.end.calls[id])
        invariant forall k :: 0 <= k < attempt ==> x.upstream(k) == Some(Err(UpstreamUnavailable))
        invariant forall k :: 1 <= k <= attempt ==> x.sleepCompletes(k)
        invariant forall k :: 0 <= k < |sleeps| ==> sleeps[k] == BackoffMs(backoffMs, k + 1)
        decreases policy.MaxRetries(C.Unary) - attempt
      {
        var result := x.upstream(attempt);
        if result.None? {
          return FutureDropped, sleeps, tr;
        }
        match result.value {
          case Ok(_) =>
            guard.Succeed();
            return Returned(result.value), sleeps, tr;
          case Err(e) =>
            if attempt < policy.MaxRetries(C.Unary) && e.IsRetryable() {
              attempt := attempt + 1;
              sleeps := sleeps + [BackoffMs(backoffMs, attempt)];
              tr := RetryStep(policy, s, tr, id, C.Unary, guard.admission, e);
              if !x.sleepCompletes(attempt) {
                return FutureDropped, sleeps, tr;
              }
              tr := WakeStep(policy, s, tr, id, C.Unary, guard.admission);
            } else {
              guard.Record(e);
              return Returned(Err(e)), sleeps, tr;
            }
        }
      }
    }

    /** The one attempt of a stream. */
    method Handshake(guard: BreakerGuard, x: Script) returns (r: Outcome)
      requires guard.action == None
      modifies guard
      ensures r == match x.upstream(0) case None => FutureDropped case Some(answer) => Returned(answer)
      ensures guard.action ==
        if r.Returned? then Some(if C.CountsAsSuccess(C.Answered(r.answer)) then Success else Failure) else None
    {
      var result := x.upstream(0);
      r := if result.None? then FutureDropped else Returned(result.value);
      match result {
        case None =>
        case Some(Ok(_)) => guard.Succeed();
        case Some(Err(e)) => guard.Record(e);
      }
    }

    /** The guards of an admitted call go out of scope: its outcome is reported, its permit goes back. */
    method Conclude(guard: BreakerGuard, ghost id: nat, kind: C.Kind, r: Outcome, x: Script, ghost s: C.System, ghost tr: Trace)
      returns (ghost done: Trace)
      requires Mirrors(tr.end) && InFlightTrace(policy, s, tr, id, kind, guard.admission) && CanClose(policy, tr.end, id, r)
      requires guard.breaker == breaker && tr.end.now == x.start
      requires guard.action == if r.Returned? then Some(if C.CountsAsSuccess(C.Answered(r.answer)) then Success else Failure) else None
      requires Heard(x, tr.end.calls[id])
      requires var n := |tr.end.calls[id].answers|;
        if r.Returned? then x.upstream(n) == Some(r.answer) else x.upstream(n).None? || !x.sleepCompletes(n)
      modifies this, breaker
      ensures done.Follows(policy, s) && Mirrors(done.end) && EndsAs(s, done.end, id, kind, r)
      ensures id in done.end.calls && FollowedScript(x, done.end.calls[id])
      ensures breaker.history == old(breaker.history) + [ReportOf(guard.admission, x, r)]
      ensures available == old(available) + C.One(policy.Cap().Some? && !KeepsPermit(kind, r))
    {
      hide C.Exec, C.Enabled, C.Play, CloseEnd;
      done := CloseRun(policy, s, tr, id, r, x.elapsed);
      CloseShared(policy, tr.end, id, r, x.elapsed);
      CloseCall(policy, tr.end, id, r, x.elapsed);
      Finish(guard, x.start + x.elapsed, KeepsPermit(kind, r));
    }

    /**
      `passthrough` and `chat`: gates, then attempts until one is final. The result, the breaker, the
      permits and the call's own record are those of a run of the step system; `sleeps` are the
      back-off times actually started, in milliseconds. Result and number of sleeps are those the script
      leaves open, given the breaker's word and the retry settings.
    */
    method Unary(ghost id: nat, x: Script, ghost s: C.System)
      returns (r: Outcome, sleeps: seq<nat>, ghost tr: Trace)
      requires Mirrors(s) && CanStart(policy, s, id, x)
      modifies this, breaker
      ensures tr.Follows(policy, s) && Mirrors(tr.end)
      ensures EndsAs(s, tr.end, id, C.Unary, r)
      ensures id in tr.end.calls && !tr.end.calls[id].ending.Rejected? ==> FollowedScript(x, tr.end.calls[id])
      ensures ComesTo(B.Check(policy.breaker, old(breaker.View()), x.start).1, x,
                      if policy.retryEnabled then policy.retryLimit else 0, |sleeps|, r)
      ensures Tells(old(breaker.history), breaker.history, B.Check(policy.breaker, old(breaker.View()), x.start).1, x, r)
      ensures available == old(available)
      ensures forall k :: 0 <= k < |sleeps| ==> sleeps[k] == BackoffMs(backoffMs, k + 1)
    {
      hide C.Exec, C.Enabled, C.Play, GatesEnd, FollowedScript, BackoffMs;
      var admitted := Admit(id, C.Unary, x, s);
      tr := GatesRun(policy, s, id, C.Unary, x);
      GatesOutcome(policy, s, id, C.Unary, x, tr);
      GatesShared(policy, s, id, C.Unary, x);
      if admitted.None? {
        return FutureDropped, [], tr;
      }
      if admitted.value.Err? {
        return Returned(Err(admitted.value.error)), [], tr;
      }
      var guard := new BreakerGuard(breaker, admitted.value.value);
      r, sleeps, tr := Attempts(guard, x, id, s, tr);
      tr := Conclude(guard, id, C.Unary, r, x, s, tr);
    }

    /**
      `passthrough_stream`: one attempt. After a successful handshake the breaker has its outcome and
      the permit travels with the response body.
    */
    method Stream(ghost id: nat, x: Script, ghost s: C.System) returns (r: Outcome, ghost tr: Trace)
      requires Mirrors(s) && CanStart(policy, s, id, x)
      modifies this, breaker
      ensures tr.Follows(policy, s) && Mirrors(tr.end)
      ensures EndsAs(s, tr.end, id, C.Streaming, r)
      ensures id in tr.end.calls && !tr.end.calls[id].ending.Rejected? ==> FollowedScript(x, tr.end.calls[id])
      ensures ComesTo(B.Check(policy.breaker, old(breaker.View()), x.start).1, x, 0, 0, r)
      ensures Tells(old(breaker.history), breaker.history, B.Check(policy.breaker, old(breaker.View()), x.start).1, x, r)
      ensures available < old(available) <==>
        policy.maxConcurrency.Some? && policy.maxConcurrency.value > 0 && r.Returned? && r.answer.Ok?
      ensures old(available) - 1 <= available <= old(available)
    {
      hide C.Exec, C.Enabled, C.Play, GatesEnd, FollowedScript;
      var admitted := Admit(id, C.Streaming, x, s);
      tr := GatesRun(policy, s, id, C.Streaming, x);
      GatesOutcome(policy, s, id, C.Streaming, x, tr);
      GatesShared(policy, s, id, C.Streaming, x);
      if admitted.None? {
        return FutureDropped, tr;
      }
      if admitted.value.Err? {
        return Returned(Err(admitted.value.error)), tr;
      }
      var guard := new BreakerGuard(breaker, admitted.value.value);
      r := Handshake(guard, x);
      tr := Conclude(guard, id, C.Streaming, r, x, s, tr);
    }
  }
}
