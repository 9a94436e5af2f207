/** Shutdown of the usage writer under a deadline (crates/moaray-store/src/lib.rs). */
module UsageShutdown {
  import opened Wrappers
  import opened UsageStore
  import opened UsageProgress

  // A flush, its acknowledgement, the stop and the join each either happen or time out, while senders, the
  // writer and the clock go on. All four waits compare the clock with one deadline, fixed at the call. The
  // handle holds a sender until it returns, so the channel stays open that long.

  /** Where `flush_and_join` is. */
  datatype Handle = NotCalled | Flushing | AwaitingAck(ack: nat) | Stopping | Joining | Joined | Detached

  /**
    `late` says that some wait was given up, `flushed` how many rows had been accepted at a flush whose
    acknowledgement was awaited to the end.
  */
  datatype World<T> = World(store: Store<T>, handle: Handle, now: nat, deadline: nat, late: bool, flushed: Option<nat>)
  {
    predicate Overdue() { now >= deadline }

    predicate Waits() { WaitsLeft(handle) > 0 }

    predicate Returned() { handle.Joined? || handle.Detached? }
  }

  datatype Move<T> =
    | Others(a: Action<T>)
    | TimePasses(ticks: nat)
    | Called(timeout: nat)
    | FlushSent(ack: nat)
    | FlushTimesOut
    | AckArrives
    | AckTimesOut
    | StopSent
    | StopTimesOut
    | Joins
    | Detaches

  predicate Enabled<T>(w: World<T>, m: Move<T>) {
    match m
    case Others(a) =>
      !a.SendFlush? && !a.SendStop? && (a.SendersGone? ==> w.Returned()) && UsageStore.Enabled(w.store, a)
    case TimePasses(_) => true
    case Called(_) => w.handle.NotCalled?
    case FlushSent(ack) => w.handle.Flushing? && UsageStore.Enabled(w.store, SendFlush(ack))
    case FlushTimesOut => w.handle.Flushing? && w.Overdue()
    case AckArrives => w.handle.AwaitingAck? && w.handle.ack in w.store.acked && w.handle.ack in w.store.flushMarks
    case AckTimesOut => w.handle.AwaitingAck? && w.Overdue()
    case StopSent => w.handle.Stopping? && UsageStore.Enabled(w.store, SendStop)
    case StopTimesOut => w.handle.Stopping? && w.Overdue()
    case Joins => w.handle.Joining? && w.store.pc.Exited?
    case Detaches => w.handle.Joining? && w.Overdue()
  }

  function Exec<T>(w: World<T>, m: Move<T>): World<T>
    requires Enabled(w, m)
  {
    match m
    case Others(a) => w.(store := UsageStore.Exec(w.store, a))
    case TimePasses(ticks) => w.(now := w.now + ticks)
    case Called(timeout) => w.(handle := Flushing, deadline := w.now + timeout)
    case FlushSent(ack) => w.(store := UsageStore.Exec(w.store, SendFlush(ack)), handle := AwaitingAck(ack))
    case FlushTimesOut => w.(handle := Stopping, late := true)
    case AckArrives => w.(handle := Stopping, flushed := Some(w.store.flushMarks[w.handle.ack]))
    case AckTimesOut => w.(handle := Stopping, late := true)
    case StopSent => w.(store := UsageStore.Exec(w.store, SendStop), handle := Joining)
    case StopTimesOut => w.(handle := Joining, late := true)
    case Joins => w.(handle := Joined)
    case Detaches => w.(handle := Detached, late := true)
  }

  function Play<T>(w: World<T>, moves: seq<Move<T>>): Option<World<T>>
    decreases |moves|
  {
    if moves == [] then Some(w)
    else if !Enabled(w, moves[0]) then None
    else Play(Exec(w, moves[0]), moves[1..])
  }

  function Start<T>(capacity: nat, batch: nat): World<T> { World(New(capacity, batch), NotCalled, 0, 0, false, None) }

  /** What is known of the rows accepted up to `n`. */
  ghost predicate Durable<T>(s: Store<T>, n: nat) {
    && n <= |s.accepted| && s.accepted[..n] <= Concat(s.batches)
    && (s.failures == 0 ==> s.accepted[..n] <= s.db)
  }

  // ---- the invariant ----

  /** What the handle has sent so far is what the store has seen of flushes and stops. */
  ghost predicate InStep<T>(s: Store<T>, h: Handle) {
    match h
    case NotCalled => s.open && s.stopMark.None? && s.flushMarks == map[]
    case Flushing => s.open && s.stopMark.None? && s.flushMarks == map[]
    case AwaitingAck(ack) => s.open && s.stopMark.None? && s.flushMarks.Keys == {ack} && Standing(s, ack)
    case Stopping => s.open && s.stopMark.None?
    case Joining => s.open
    case Joined => s.pc.Exited?
    case Detached => true
  }

  /** A wait was given up only after the deadline; without that, each wait was rewarded. */
  predicate Timely<T>(w: World<T>) {
    && (w.late ==> w.Overdue())
    && (w.late ==> !w.handle.NotCalled?)
    && (!w.late && (w.handle.Stopping? || w.handle.Joining? || w.handle.Joined?) ==> w.flushed.Some?)
    && (!w.late && (w.handle.Joining? || w.handle.Joined?) ==> w.store.stopMark.Some?)
    && (w.handle.Detached? ==> w.late)
  }

  ghost predicate Sound<T>(w: World<T>) {
    && Inv(w.store) && Tidy(w.store) && InStep(w.store, w.handle) && Timely(w)
    && (w.flushed.Some? ==> w.flushed.value <= |Concat(w.store.batches)|)
  }

  lemma {:induction false} StoreMovesOn<T>(s: Store<T>, a: Action<T>)
    requires Inv(s) && Tidy(s) && UsageStore.Enabled(s, a)
    ensures var t := UsageStore.Exec(s, a);
      && Inv(t) && Tidy(t) && |Concat(s.batches)| <= |Concat(t.batches)|
      && (s.pc.Exited? ==> t.pc.Exited?) && (s.stopMark.Some? ==> t.stopMark.Some?)
  {
    hide Inv, Tidy;
    StepKeepsInvariant(s, a);
    StepKeepsTidy(s, a);
    var t := UsageStore.Exec(s, a);
    if t.batches != s.batches {
      assert t.batches[..|t.batches|-1] == s.batches;
    }
  }

  lemma {:induction false} OthersKeepInStep<T>(s: Store<T>, h: Handle, a: Action<T>)
    requires Inv(s) && Tidy(s) && InStep(s, h) && UsageStore.Enabled(s, a) && !a.SendFlush? && !a.SendStop?
    requires a.SendersGone? ==> h.Joined? || h.Detached?
    ensures InStep(UsageStore.Exec(s, a), h)
  {
    hide Inv, Tidy, Standing;
    if h.AwaitingAck? {
      StepKeepsStanding(s, a, h.ack);
    }
  }

  lemma {:induction false} MoveKeepsSound<T>(w: World<T>, m: Move<T>)
    requires Sound(w) && Enabled(w, m)
    ensures Sound(Exec(w, m))
  {
    hide Inv, Tidy, Standing, UsageStore.Enabled, UsageStore.Exec, Concat;
    match m
    case Others(a) =>
      StoreMovesOn(w.store, a);
      OthersKeepInStep(w.store, w.handle, a);
    case FlushSent(ack) =>
      StoreMovesOn(w.store, SendFlush(ack));
      FlushStands(w.store, ack);
    case StopSent =>
      StoreMovesOn(w.store, SendStop);
      StopIsMarked(w.store);
    case AckArrives => AckedIsWritten(w.store, w.handle.ack);
    case _ =>
  }

  lemma FlushStands<T>(s: Store<T>, ack: nat)
    requires UsageStore.Enabled(s, SendFlush(ack))
    ensures var t := UsageStore.Exec(s, SendFlush(ack));
      && t.open == s.open && t.stopMark == s.stopMark && t.flushMarks.Keys == s.flushMarks.Keys + {ack} && Standing(t, ack)
  {
    assert UsageStore.Exec(s, SendFlush(ack)).queue[|s.queue|] == Flush(ack);
  }

  lemma StopIsMarked<T>(s: Store<T>)
    requires UsageStore.Enabled(s, SendStop)
    ensures UsageStore.Exec(s, SendStop).stopMark.Some? && UsageStore.Exec(s, SendStop).open == s.open
  {
  }

  lemma AckedIsWritten<T>(s: Store<T>, ack: nat)
    requires Inv(s) && ack in s.acked
    ensures ack in s.flushMarks && s.flushMarks[ack] <= |Concat(s.batches)|
  {
  }

  lemma {:induction false} RunKeepsSound<T>(w: World<T>, moves: seq<Move<T>>)
    requires Sound(w) && Play(w, moves).Some?
    ensures Sound(Play(w, moves).value)
    decreases |moves|
  {
    hide Sound, Enabled, Exec;
    if moves != [] {
      MoveKeepsSound(w, moves[0]);
      RunKeepsSound(Exec(w, moves[0]), moves[1..]);
    }
  }

  lemma {:induction false} ReachedIsSound<T>(capacity: nat, batch: nat, moves: seq<Move<T>>)
    requires Play(Start(capacity, batch), moves).Some?
    ensures Sound(Play(Start(capacity, batch), moves).value)
  {
    hide Play, Inv, Tidy;
    ReachedIsTidy<T>(capacity, batch, []);
    RunKeepsSound(Start<T>(capacity, batch), moves);
  }

  lemma WrittenIsDurable<T>(s: Store<T>, n: nat)
    requires Inv(s) && n <= |Concat(s.batches)|
    ensures Durable(s, n)
  {
    hide Marks, Sizes, Concat;
    PrefixOfAccepted(s, n);
  }

  lemma ExitedIsWritten<T>(s: Store<T>)
    requires Inv(s) && s.pc.Exited?
    ensures s.stop ==> s.stopMark.Some? && s.stopMark.value <= |Concat(s.batches)|
    ensures !s.stop ==> |s.accepted| <= |Concat(s.batches)|
  {
    assert Taken(s) == Concat(s.batches);
    if !s.stop {
      assert RowsOf(s.queue) == [];
    }
  }

  /** Stopped by the handle, or by the last sender. */
  ghost predicate ExitDurable<T>(s: Store<T>) {
    if s.stop then s.stopMark.Some? && Durable(s, s.stopMark.value) else Durable(s, |s.accepted|)
  }

  /**
    What shutdown achieves, whichever of its waits time out: if the flush was acknowledged in time, the
    rows accepted before it are durable even if the writer is then detached; if the writer was joined,
    so are the rows accepted before the stop, or all rows if the writer left because the senders did.
  */
  lemma {:induction false} ShutdownIsHonest<T>(capacity: nat, batch: nat, moves: seq<Move<T>>)
    requires Play(Start(capacity, batch), moves).Some?
    ensures var w := Play(Start(capacity, batch), moves).value;
      && (w.flushed.Some? ==> Durable(w.store, w.flushed.value))
      && (w.handle.Joined? ==> ExitDurable(w.store))
  {
    hide Inv, Tidy, Durable, Play, Concat;
    ReachedIsSound(capacity, batch, moves);
    var w := Play(Start<T>(capacity, batch), moves).value;
    if w.flushed.Some? {
      WrittenIsDurable(w.store, w.flushed.value);
    }
    if w.handle.Joined? {
      ExitedIsWritten(w.store);
      WrittenIsDurable(w.store, if w.store.stop then w.store.stopMark.value else |w.store.accepted|);
    }
  }

  /**
    Nothing is given up before the deadline: a call that has returned earlier has joined the writer, had
    its flush acknowledged and its stop accepted; and a call that detached returned at the deadline or
    later.
  */
  lemma {:induction false} EarlyReturnIsComplete<T>(capacity: nat, batch: nat, moves: seq<Move<T>>)
    requires Play(Start(capacity, batch), moves).Some?
    requires Play(Start(capacity, batch), moves).value.Returned()
    ensures var w := Play(Start(capacity, batch), moves).value;
      && (!w.Overdue() ==> w.handle.Joined? && w.flushed.Some? && w.store.stopMark.Some? && ExitDurable(w.store))
      && (w.handle.Detached? ==> w.Overdue())
  {
    hide Inv, Tidy, Durable, Play, Concat;
    ReachedIsSound(capacity, batch, moves);
    ShutdownIsHonest(capacity, batch, moves);
  }

  // ---- the call returns ----

  /** Waits still ahead of the caller. */
  function WaitsLeft(h: Handle): nat {
    match h
    case Flushing => 4
    case AwaitingAck(_) => 3
    case Stopping => 2
    case Joining => 1
    case _ => 0
  }

  function GiveUp<T>(h: Handle): Move<T>
    requires WaitsLeft(h) > 0
  {
    match h
    case Flushing => FlushTimesOut
    case AwaitingAck(_) => AckTimesOut
    case Stopping => StopTimesOut
    case Joining => Detaches
  }

  function AfterGivingUp(h: Handle): Handle
    requires WaitsLeft(h) > 0
  {
    if h.Joining? then Detached else if h.Stopping? then Joining else Stopping
  }

  /** Giving up every wait that is left. */
  function GiveUps<T>(h: Handle): seq<Move<T>>
    decreases WaitsLeft(h)
  {
    if WaitsLeft(h) == 0 then [] else [GiveUp(h)] + GiveUps(AfterGivingUp(h))
  }

  function OwnMoves<T>(moves: seq<Move<T>>): nat {
    if moves == [] then 0 else (if moves[0].Others? || moves[0].TimePasses? then 0 else 1) + OwnMoves(moves[1..])
  }

  lemma {:induction false} GivingUpReturns<T>(w: World<T>)
    requires w.Overdue() && (w.Waits() || w.Returned())
    ensures Play(w, GiveUps(w.handle)).Some?
    ensures var v := Play(w, GiveUps(w.handle)).value;
      v.Returned() && v.store == w.store && v.now == w.now
    decreases WaitsLeft(w.handle)
  {
    if w.Waits() {
      var m: Move<T> := GiveUp(w.handle);
      var later: seq<Move<T>> := GiveUps(AfterGivingUp(w.handle));
      assert ([m] + later)[1..] == later;
      GivingUpReturns(Exec(w, m));
    }
  }

  lemma {:induction false} DeadlineStays<T>(w: World<T>, later: seq<Move<T>>)
    requires !w.handle.NotCalled? && Play(w, later).Some?
    ensures var v := Play(w, later).value;
      && !v.handle.NotCalled? && v.deadline == w.deadline && v.now >= w.now
      && WaitsLeft(v.handle) + OwnMoves(later) <= WaitsLeft(w.handle)
    decreases |later|
  {
    hide UsageStore.Enabled, UsageStore.Exec;
    if later != [] {
      DeadlineStays(Exec(w, later[0]), later[1..]);
    }
  }

  /** Letting n units of time pass is enough for the call to return, whatever the writer does. */
  ghost predicate WaitingReturns<T>(w: World<T>, n: nat) {
    var wait: Move<T> := TimePasses(n);
    var waited := Play(w, [wait] + GiveUps(w.handle));
    waited.Some? && waited.value.Returned() && waited.value.store == w.store && waited.value.now == w.now + n
  }

  /**
    The call returns once its time has passed. All waits share the deadline fixed at the call. Before it
    no wait can be given up; from then on, whatever senders and writer do in between, the wait the call
    is in can be, and so can the rest without any help, so that letting the time pass is always enough;
    and over the whole call the handle makes at most four moves, so it never waits again for what it has
    given up.
  */
  lemma {:induction false} ReturnsOnceOverdue<T>(
    capacity: nat, batch: nat, before: seq<Move<T>>, timeout: nat, later: seq<Move<T>>)
    requires Play(Start(capacity, batch), before + [Called(timeout)] + later).Some?
    ensures var run := before + [Called(timeout)];
      && Play(Start(capacity, batch), run).Some?
      && var c, w := Play(Start(capacity, batch), run).value, Play(Start(capacity, batch), run + later).value;
      && w.deadline == c.now + timeout
      && OwnMoves(later) + WaitsLeft(w.handle) <= 4
      && (w.Waits() ==> (Enabled(w, GiveUp(w.handle)) <==> w.now >= c.now + timeout))
      && (w.now >= c.now + timeout ==>
            && Play(w, GiveUps(w.handle)).Some?
            && var v := Play(w, GiveUps(w.handle)).value;
            v.Returned() && v.store == w.store && v.now == w.now)
      && forall n: nat :: w.now + n >= c.now + timeout ==> WaitingReturns(w, n)
  {
    var start := Start<T>(capacity, batch);
    var run := before + [Called(timeout)];
    PlayConcat(start, run, later);
    PlayConcat(start, before, [Called(timeout)]);
    var b := Play(start, before).value;
    var call: seq<Move<T>> := [Called(timeout)];
    assert call[1..] == [];
    var c := Play(start, run).value;
    DeadlineStays(c, later);
    var w := Play(c, later).value;
    if w.Overdue() {
      GivingUpReturns(w);
    }
    forall n: nat | w.now + n >= c.now + timeout
      ensures WaitingReturns(w, n)
    {
      var last := Exec(w, TimePasses(n));
      GivingUpReturns(last);
      var rest: seq<Move<T>> := GiveUps(w.handle);
      var wait: Move<T> := TimePasses(n);
      assert ([wait] + rest)[1..] == rest;
    }
  }

  lemma {:induction false} PlayConcat<T>(w: World<T>, a: seq<Move<T>>, b: seq<Move<T>>)
    requires Play(w, a + b).Some?
    ensures Play(w, a).Some? && Play(w, a + b) == Play(Play(w, a).value, b)
    decreases |a|
  {
    hide Enabled, Exec;
    if a == [] {
      assert a + b == b;
    } else {
      assert (a + b)[1..] == a[1..] + b;
      PlayConcat(Exec(w, a[0]), a[1..], b);
    }
  }

  // ---- and if the writer is given the time, shutdown gets all it waits for ----

  /**
    A flush or a stop that the handle has sent is not lost: while the handle waits, the writer, left alone
    for at most `Work` steps, acknowledges the flush or leaves, whichever transactions fail. In
    particular the writer never leaves before the stop was sent, so the channel still has its receiver.
  */
  lemma {:induction false} WriterAnswersHandle<T>(capacity: nat, batch: nat, moves: seq<Move<T>>, schedule: seq<Action<T>>)
    requires Play(Start(capacity, batch), moves).Some?
    requires var s := Play(Start(capacity, batch), moves).value.store;
      AllByWriter(schedule) && UsageStore.Play(s, schedule).Some?
    ensures var w := Play(Start(capacity, batch), moves).value;
      var t := UsageStore.Play(w.store, schedule).value;
      && (w.handle.Flushing? || w.handle.AwaitingAck? || w.handle.Stopping? ==> !t.pc.Exited?)
      && |schedule| <= Work(w.store)
      && (Stuck(t) && w.handle.AwaitingAck? ==> w.handle.ack in t.acked)
      && (Stuck(t) && w.handle.Joining? && !w.late ==> t.pc.Exited?)
  {
    hide Play, UsageStore.Play, Inv, Tidy, Standing, Work;
    ReachedIsSound(capacity, batch, moves);
    var w := Play(Start<T>(capacity, batch), moves).value;
    StepsAreWork(w.store, schedule);
    RunIsTidy(w.store, schedule);
    var t := UsageStore.Play(w.store, schedule).value;
    ExitNeedsCause(t);
    if w.handle.AwaitingAck? {
      WriterMarksStay(w.store, schedule);
      OnlyFlushStandsFrom(w.store, schedule, w.handle.ack);
      if Stuck(t) {
        StandingThenAcked(t, w.handle.ack);
      }
    }
    if Stuck(t) && w.handle.Joining? && !w.late {
      StuckOutcome(t);
    }
  }

  lemma ExitNeedsCause<T>(t: Store<T>)
    requires Inv(t)
    ensures t.pc.Exited? && t.open ==> t.stopMark.Some?
    ensures Ended(t)
  {
  }

  lemma StandingThenAcked<T>(t: Store<T>, ack: nat)
    requires Tidy(t) && Stuck(t) && !t.pc.Exited? && Standing(t, ack)
    ensures ack in t.acked
  {
  }

  lemma {:induction false} WriterMarksStay<T>(s: Store<T>, schedule: seq<Action<T>>)
    requires AllByWriter(schedule) && UsageStore.Play(s, schedule).Some?
    ensures UsageStore.Play(s, schedule).value.flushMarks == s.flushMarks
    decreases |schedule|
  {
    if schedule != [] {
      WriterMarksStay(UsageStore.Exec(s, schedule[0]), schedule[1..]);
    }
  }
}
