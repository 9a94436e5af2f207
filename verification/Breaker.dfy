/** The per-upstream circuit breaker (crates/moaray/src/breaker.rs). */
module Breaker {
  import opened Wrappers

  // `Inner` is the mutex-held record as a value and `Check`/`OnSuccess`/`OnFailure`/`Release` are its
  // transitions. `CircuitBreaker` is the object the gateway shares between calls; its methods are proved
  // against those transitions. The second half of the file gives a meaning to an event history that
  // mentions no counter at all (`PhaseOf`) and proves that the counters compute it.

  newtype u32 = x: int | 0 <= x < 0x1_0000_0000

  /** A monotonic clock reading, in nanoseconds. */
  type Instant = nat

  const NANOS_PER_MILLI: nat := 1_000_000

  datatype State = Closed | Open | HalfOpen

  datatype Admission = Normal | Probe

  datatype Config = Config(failureThreshold: u32, openMs: nat, halfOpenSuccesses: u32)
  {
    function Cooldown(): nat { openMs * NANOS_PER_MILLI }
    /** The number of failures in a row that really trips: a threshold of 0 behaves as 1. */
    function TripAt(): nat { if failureThreshold == 0 then 1 else failureThreshold as nat }
    /** The number of probe successes that really closes: 0 behaves as 1. */
    function CloseAt(): nat { if halfOpenSuccesses == 0 then 1 else halfOpenSuccesses as nat }
  }

  datatype Inner = Inner(
    state: State,
    consecutiveFailures: nat,
    consecutiveSuccesses: nat,
    openedAt: Option<Instant>,
    probeInFlight: bool)

  const INITIAL := Inner(Closed, 0, 0, None, false)

  /** `Instant::duration_since`: zero when `later` is before `earlier`. */
  function Elapsed(earlier: Instant, later: Instant): nat {
    if later < earlier then 0 else later - earlier
  }

  function Check(cfg: Config, g: Inner, now: Instant): (r: (Inner, Option<Admission>)) {
    match g.state
    case Closed => (g, Some(Normal))
    case HalfOpen =>
      if g.probeInFlight then (g, None) else (g.(probeInFlight := true), Some(Probe))
    case Open =>
      if g.openedAt.Some? && Elapsed(g.openedAt.value, now) >= cfg.Cooldown() then
        (g.(state := HalfOpen, consecutiveSuccesses := 0, probeInFlight := true), Some(Probe))
      else (g, None)
  }

  function OnSuccess(cfg: Config, g: Inner, admission: Admission): Inner {
    match g.state
    case Closed => g.(consecutiveFailures := 0)
    case HalfOpen =>
      if admission == Probe then
        if g.consecutiveSuccesses + 1 >= cfg.halfOpenSuccesses as nat then
          Inner(Closed, 0, 0, None, false)
        else g.(probeInFlight := false, consecutiveSuccesses := g.consecutiveSuccesses + 1)
      else g
    case Open => g
  }

  function OnFailure(cfg: Config, g: Inner, now: Instant, admission: Admission): Inner {
    match g.state
    case Closed =>
      var failures := g.consecutiveFailures + 1;
      if failures >= cfg.failureThreshold as nat then
        g.(consecutiveFailures := failures, state := Open, openedAt := Some(now))
      else g.(consecutiveFailures := failures)
    case HalfOpen =>
      if admission == Probe then
        g.(state := Open, openedAt := Some(now), consecutiveSuccesses := 0, probeInFlight := false)
      else g
    case Open => g.(openedAt := Some(now))
  }

  function Release(g: Inner): Inner {
    if g.state == HalfOpen then g.(probeInFlight := false) else g
  }

  /** What every reachable breaker satisfies, whatever callers do with their tokens. */
  predicate WellFormed(cfg: Config, g: Inner) {
    && (g.state == Closed ==> g.consecutiveFailures < cfg.TripAt() && g.openedAt.None?)
    && (g.state == HalfOpen ==> g.consecutiveSuccesses < cfg.CloseAt())
    && (g.state != HalfOpen ==> g.consecutiveSuccesses == 0 && !g.probeInFlight)
    && (g.state != Closed ==> g.openedAt.Some?)
    && g.consecutiveFailures <= cfg.TripAt()
  }

  // ---------------------------------------------------------------------------------------------
  // Histories
  // ---------------------------------------------------------------------------------------------

  datatype Event =
    | Checked(now: Instant)
    | Succeeded(admission: Admission)
    | Failed(now: Instant, admission: Admission)
    | ProbeReleased

  function Step(cfg: Config, g: Inner, e: Event): Inner {
    match e
    case Checked(now) => Check(cfg, g, now).0
    case Succeeded(a) => OnSuccess(cfg, g, a)
    case Failed(now, a) => OnFailure(cfg, g, now, a)
    case ProbeReleased => Release(g)
  }

  /** The breaker after a history, oldest event first. */
  function After(cfg: Config, h: seq<Event>): Inner {
    if h == [] then INITIAL else Step(cfg, After(cfg, h[..|h|-1]), h[|h|-1])
  }

  lemma {:induction false} AfterWellFormed(cfg: Config, h: seq<Event>)
    ensures WellFormed(cfg, After(cfg, h))
  {
    if h != [] {
      AfterWellFormed(cfg, h[..|h|-1]);
    }
  }

  // ---------------------------------------------------------------------------------------------
  // The meaning of a history, without counters
  // ---------------------------------------------------------------------------------------------

  /** How many failures end the window, ignoring events that are not outcomes. */
  function FailureRun(w: seq<Event>): nat {
    if w == [] then 0
    else
      var rest := w[..|w|-1];
      match w[|w|-1]
      case Failed(_, _) => FailureRun(rest) + 1
      case Succeeded(_) => 0
      case _ => FailureRun(rest)
  }

  /** How many probe successes the window holds. */
  function ProbeSuccesses(w: seq<Event>): nat {
    if w == [] then 0
    else ProbeSuccesses(w[..|w|-1]) + (if w[|w|-1] == Succeeded(Probe) then 1 else 0)
  }

  /** When the last failure of any kind was reported. */
  function LastFailure(h: seq<Event>): Option<Instant> {
    if h == [] then None
    else if h[|h|-1].Failed? then Some(h[|h|-1].now)
    else LastFailure(h[..|h|-1])
  }

  /** Whether the probe slot is taken at the end of a half-open window that opened with a probe. */
  function SlotTaken(w: seq<Event>): bool {
    if w == [] then true
    else
      match w[|w|-1]
      case Checked(_) => true
      case ProbeReleased => false
      case Succeeded(Probe) => false
      case _ => SlotTaken(w[..|w|-1])
  }

  /** Which era a history is in and at which index that era began. */
  datatype Phase = ClosedSince(start: nat) | Opened | HalfOpenSince(start: nat)

  /**
    The era of a history, decided only by looking back at the events of the current era: a run of
    `TripAt` failures ends a closed era, a check that comes a full cool-down after the last reported
    failure ends an open one, and a probe failure or `CloseAt` probe successes end a half-open one.
  */
  function PhaseOf(cfg: Config, h: seq<Event>): (p: Phase)
    ensures !p.Opened? ==> p.start <= |h|
  {
    if h == [] then ClosedSince(0)
    else
      var before := h[..|h|-1];
      var e := h[|h|-1];
      match PhaseOf(cfg, before)
      case ClosedSince(i) => if FailureRun(h[i..]) >= cfg.TripAt() then Opened else ClosedSince(i)
      case Opened =>
        if e.Checked? && LastFailure(before).Some?
           && Elapsed(LastFailure(before).value, e.now) >= cfg.Cooldown()
        then HalfOpenSince(|h|) else Opened
      case HalfOpenSince(i) =>
        if e.Failed? && e.admission == Probe then Opened
        else if ProbeSuccesses(h[i..]) >= cfg.CloseAt() then ClosedSince(|h|)
        else HalfOpenSince(i)
  }

  /** The stored record says exactly what the history says. */
  predicate Agrees(cfg: Config, g: Inner, h: seq<Event>) {
    match PhaseOf(cfg, h)
    case ClosedSince(i) =>
      && g.state == Closed && g.consecutiveFailures == FailureRun(h[i..])
      && g.consecutiveSuccesses == 0 && g.openedAt == None && !g.probeInFlight
    case Opened =>
      && g.state == Open && g.openedAt == LastFailure(h) && g.openedAt.Some?
      && g.consecutiveSuccesses == 0 && !g.probeInFlight
    case HalfOpenSince(i) =>
      && g.state == HalfOpen && g.openedAt.Some?
      && g.consecutiveSuccesses == ProbeSuccesses(h[i..])
      && g.probeInFlight == SlotTaken(h[i..])
  }

  lemma {:induction false} RunNext(h: seq<Event>, i: nat, e: Event)
    requires i <= |h|
    ensures FailureRun((h + [e])[i..]) ==
      if e.Failed? then FailureRun(h[i..]) + 1 else if e.Succeeded? then 0 else FailureRun(h[i..])
  {
    var w := (h + [e])[i..];
    assert w == h[i..] + [e] && w[..|w|-1] == h[i..];
  }

  lemma {:induction false} ClosedPhaseNext(cfg: Config, h: seq<Event>, e: Event)
    requires PhaseOf(cfg, h).ClosedSince?
    ensures var i := PhaseOf(cfg, h).start;
      PhaseOf(cfg, h + [e]) == if FailureRun((h + [e])[i..]) >= cfg.TripAt() then Opened else ClosedSince(i)
  {
    assert (h + [e])[..|h|] == h;
  }

  lemma {:induction false} FailureNext(h: seq<Event>, e: Event)
    ensures e.Failed? ==> LastFailure(h + [e]) == Some(e.now)
  {
  }

  lemma {:induction false} ClosedStepAgrees(cfg: Config, g: Inner, h: seq<Event>, e: Event)
    requires PhaseOf(cfg, h).ClosedSince? && Agrees(cfg, g, h) && WellFormed(cfg, g)
    ensures Agrees(cfg, Step(cfg, g, e), h + [e])
  {
    RunNext(h, PhaseOf(cfg, h).start, e);
    ClosedPhaseNext(cfg, h, e);
    FailureNext(h, e);
  }

  lemma {:induction false} OpenStepAgrees(cfg: Config, g: Inner, h: seq<Event>, e: Event)
    requires PhaseOf(cfg, h).Opened? && Agrees(cfg, g, h)
    ensures Agrees(cfg, Step(cfg, g, e), h + [e])
  {
    assert (h + [e])[..|h|] == h && (h + [e])[|h|+1..] == [];
  }

  lemma {:induction false} HalfOpenStepAgrees(cfg: Config, g: Inner, h: seq<Event>, e: Event)
    requires PhaseOf(cfg, h).HalfOpenSince? && Agrees(cfg, g, h) && WellFormed(cfg, g)
    ensures Agrees(cfg, Step(cfg, g, e), h + [e])
  {
    var i := PhaseOf(cfg, h).start;
    var w := (h + [e])[i..];
    assert (h + [e])[..|h|] == h && (h + [e])[|h|+1..] == [] && w[..|w|-1] == h[i..];
  }

  /** Refinement: after any history whatever, the counters and flags are the look-back values. */
  lemma {:induction false} RefinesHistory(cfg: Config, h: seq<Event>)
    ensures Agrees(cfg, After(cfg, h), h)
  {
    if h == [] {
    } else {
      var before, e := h[..|h|-1], h[|h|-1];
      RefinesHistory(cfg, before);
      AfterWellFormed(cfg, before);
      assert before + [e] == h;
      match PhaseOf(cfg, before)
      case ClosedSince(_) => ClosedStepAgrees(cfg, After(cfg, before), before, e);
      case Opened => OpenStepAgrees(cfg, After(cfg, before), before, e);
      case HalfOpenSince(_) => HalfOpenStepAgrees(cfg, After(cfg, before), before, e);
    }
  }

  predicate HasFailure(h: seq<Event>) {
    exists i :: 0 <= i < |h| && h[i].Failed?
  }

  /** Without a failure the breaker never leaves its initial state. */
  lemma {:induction false} NoFailureNoTrip(cfg: Config, h: seq<Event>)
    requires !HasFailure(h)
    ensures After(cfg, h) == INITIAL
  {
    if h != [] {
      assert !h[|h|-1].Failed?;
      assert forall i :: 0 <= i < |h| - 1 ==> h[..|h|-1][i] == h[i];
      NoFailureNoTrip(cfg, h[..|h|-1]);
    }
  }

  /** The window ends in a failure, and in at least `failureThreshold` of them in a row. */
  predicate EndsTripped(cfg: Config, w: seq<Event>) {
    FailureRun(w) >= 1 && FailureRun(w) >= cfg.failureThreshold as nat
  }

  /** No prefix of the window ends so. */
  predicate NeverTrips(cfg: Config, w: seq<Event>) {
    forall j :: 0 <= j <= |w| ==> !EndsTripped(cfg, w[..j])
  }

  /**
    Exact trip point. The closed era that began after `h` is still the current one after `h + w` if
    and only if no prefix of `w` ends in `failureThreshold` failures in a row, or in one if that is zero;
    and it is the first such prefix that opens the breaker.
  */
  lemma {:induction false} ClosedEraIsExact(cfg: Config, h: seq<Event>, w: seq<Event>)
    requires PhaseOf(cfg, h) == ClosedSince(|h|)
    ensures PhaseOf(cfg, h + w) == ClosedSince(|h|) <==> NeverTrips(cfg, w)
    ensures w != [] && NeverTrips(cfg, w[..|w|-1]) && !NeverTrips(cfg, w)
      ==> After(cfg, h + w).state == Open
  {
    if w == [] {
      assert h + w == h;
    } else {
      var n := |w| - 1;
      var shorter := w[..n];
      ClosedEraIsExact(cfg, h, shorter);
      assert (h + w)[..|h + w| - 1] == h + shorter;
      assert (h + w)[|h|..] == w;
      NeverTripsLonger(cfg, w);
      RefinesHistory(cfg, h + w);
    }
  }

  lemma NeverTripsLonger(cfg: Config, w: seq<Event>)
    requires w != []
    ensures NeverTrips(cfg, w) <==> NeverTrips(cfg, w[..|w|-1]) && !EndsTripped(cfg, w)
  {
    var n := |w| - 1;
    if NeverTrips(cfg, w) {
      assert w[..|w|] == w;
      assert !EndsTripped(cfg, w);
      forall j | 0 <= j <= n ensures !EndsTripped(cfg, w[..n][..j]) {
        assert w[..n][..j] == w[..j];
      }
    }
    if NeverTrips(cfg, w[..n]) && !EndsTripped(cfg, w) {
      forall j | 0 <= j <= |w| ensures !EndsTripped(cfg, w[..j]) {
        if j <= n {
          assert w[..n][..j] == w[..j];
        } else {
          assert w[..j] == w;
        }
      }
    }
  }

  predicate IsProbeFailure(e: Event) { e.Failed? && e.admission == Probe }

  predicate HasProbeFailure(w: seq<Event>) {
    exists i :: 0 <= i < |w| && IsProbeFailure(w[i])
  }

  lemma {:induction false} ProbesNext(w: seq<Event>)
    requires w != []
    ensures HasProbeFailure(w) <==> HasProbeFailure(w[..|w|-1]) || IsProbeFailure(w[|w|-1])
    ensures ProbeSuccesses(w) == ProbeSuccesses(w[..|w|-1]) + (if w[|w|-1] == Succeeded(Probe) then 1 else 0)
  {
    var before := w[..|w|-1];
    if HasProbeFailure(w) && !IsProbeFailure(w[|w|-1]) {
      var i :| 0 <= i < |w| && IsProbeFailure(w[i]);
      assert IsProbeFailure(before[i]);
    }
    if HasProbeFailure(before) {
      var i :| 0 <= i < |before| && IsProbeFailure(before[i]);
      assert IsProbeFailure(w[i]);
    }
  }

  /**
    Exact length of a half-open era. The one that began after `h` is still the current one after
    `h + w` if and only if `w` has no probe failure and no or fewer than `halfOpenSuccesses` probe
    successes. The event that ends it re-opens the breaker exactly if it is a probe failure, and otherwise it is the probe
    success that completes the count and closes the breaker. Outcomes of normal calls change nothing.
  */
  lemma {:induction false} HalfOpenEraIsExact(cfg: Config, h: seq<Event>, w: seq<Event>)
    requires PhaseOf(cfg, h) == HalfOpenSince(|h|)
    ensures PhaseOf(cfg, h + w) == HalfOpenSince(|h|) 
      <==> !HasProbeFailure(w) && (ProbeSuccesses(w) == 0 || ProbeSuccesses(w) < cfg.halfOpenSuccesses as nat)
    ensures w != [] && PhaseOf(cfg, h + w[..|w|-1]) == HalfOpenSince(|h|) ==>
      var last, g := w[|w|-1], After(cfg, h + w);
      && (g.state == Open <==> IsProbeFailure(last))
      && (g.state == Closed <==> last == Succeeded(Probe) && ProbeSuccesses(w) >= cfg.halfOpenSuccesses as nat)
      && (last == Succeeded(Normal) || (last.Failed? && last.admission == Normal) ==> g == After(cfg, h + w[..|w|-1]))
  {
    if w == [] {
      assert h + w == h;
    } else {
      var shorter := w[..|w|-1];
      HalfOpenEraIsExact(cfg, h, shorter);
      ProbesNext(w);
      assert (h + w)[..|h + w| - 1] == h + shorter;
      assert (h + w)[|h|..] == w && (h + shorter)[|h|..] == shorter;
      RefinesHistory(cfg, h + shorter);
      AfterWellFormed(cfg, h + shorter);
      RefinesHistory(cfg, h + w);
    }
  }

  /**
    Exact length of an open era, in the settings' own terms: each failure reported starts its cool-down
    again, nothing but a check ends it, and a check ends it, as the single probe, exactly if `openMs`
    milliseconds have passed since the last failure. A check that comes earlier is refused.
  */
  lemma {:induction false} OpenEraIsExact(cfg: Config, h: seq<Event>, e: Event)
    requires After(cfg, h).state == Open
    ensures After(cfg, h).openedAt.Some? && After(cfg, h).openedAt == LastFailure(h)
    ensures var g, t := After(cfg, h + [e]), After(cfg, h).openedAt.value;
      match e
      case Checked(now) =>
        if now >= t + cfg.openMs * 1_000_000 || cfg.openMs == 0
        then g.state == HalfOpen && g.probeInFlight && Check(cfg, After(cfg, h), now).1 == Some(Probe)
        else g == After(cfg, h) && Check(cfg, After(cfg, h), now).1 == None
      case Failed(now, _) => g == After(cfg, h).(openedAt := Some(now))
      case _ => g == After(cfg, h)
  {
    RefinesHistory(cfg, h);
    assert (h + [e])[..|h|] == h;
  }

  // ---------------------------------------------------------------------------------------------
  // The shared object
  // ---------------------------------------------------------------------------------------------

  class CircuitBreaker {
    const cfg: Config
    var state: State
    var consecutiveFailures: u32
    var consecutiveSuccesses: u32
    var openedAt: Option<Instant>
    var probeInFlight: bool
    ghost var history: seq<Event>

    function View(): Inner
      reads this
    {
      Inner(state, consecutiveFailures as nat, consecutiveSuccesses as nat, openedAt, probeInFlight)
    }

    ghost predicate Valid()
      reads this
    {
      View() == After(cfg, history)
    }

    constructor (cfg: Config)
      ensures Valid() && this.cfg == cfg && history == [] && View() == INITIAL
    {
      this.cfg := cfg;
      state := Closed;
      consecutiveFailures, consecutiveSuccesses := 0, 0;
      openedAt := None;
      probeInFlight := false;
      history := [];
    }

    method CheckAt(now: Instant) returns (r: Option<Admission>)
      requires Valid()
      modifies this
      ensures Valid() && history == old(history) + [Checked(now)]
      ensures (View(), r) == Check(cfg, old(View()), now)
    {
      match state {
        case Closed => r := Some(Normal);
        case HalfOpen =>
          if probeInFlight {
            r := None;
          } else {
            probeInFlight := true;
            r := Some(Probe);
          }
        case Open =>
          if openedAt.Some? && Elapsed(openedAt.value, now) >= cfg.Cooldown() {
            state := HalfOpen;
            consecutiveSuccesses := 0;
            probeInFlight := true;
            r := Some(Probe);
          } else {
            r := None;
          }
      }
      history := history + [Checked(now)];
      assert history[..|history|-1] == old(history);
    }

    method OnSuccessAt(admission: Admission)
      requires Valid()
      modifies this
      ensures Valid() && history == old(history) + [Succeeded(admission)]
      ensures View() == OnSuccess(cfg, old(View()), admission)
    {
      AfterWellFormed(cfg, history);
      match state {
        case Closed => consecutiveFailures := 0;
        case HalfOpen =>
          if admission == Probe {
            probeInFlight := false;
            consecutiveSuccesses := consecutiveSuccesses + 1;
            if consecutiveSuccesses >= cfg.halfOpenSuccesses {
              state := Closed;
              consecutiveFailures, consecutiveSuccesses := 0, 0;
              openedAt := None;
            }
          }
        case Open =>
      }
      history := history + [Succeeded(admission)];
      assert history[..|history|-1] == old(history);
    }

    method OnFailureAt(now: Instant, admission: Admission)
      requires Valid()
      modifies this
      ensures Valid() && history == old(history) + [Failed(now, admission)]
      ensures View() == OnFailure(cfg, old(View()), now, admission)
    {
      AfterWellFormed(cfg, history);
      match state {
        case Closed =>
          consecutiveFailures := consecutiveFailures + 1;
          if consecutiveFailures >= cfg.failureThreshold {
            state := Open;
            openedAt := Some(now);
          }
        case HalfOpen =>
          if admission == Probe {
            state := Open;
            openedAt := Some(now);
            consecutiveSuccesses := 0;
            probeInFlight := false;
          }
        case Open => openedAt := Some(now);
      }
      history := history + [Failed(now, admission)];
      assert history[..|history|-1] == old(history);
    }

    method ReleaseProbe()
      requires Valid()
      modifies this
      ensures Valid() && history == old(history) + [ProbeReleased]
      ensures View() == Release(old(View()))
    {
      if state == HalfOpen {
        probeInFlight := false;
      }
      history := history + [ProbeReleased];
      assert history[..|history|-1] == old(history);
    }
  }
}
