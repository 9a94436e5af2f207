module UsageProgress {
  import opened Wrappers
  import opened UsageStore

  // What the usage writer gets done when it is left alone: it leaves after a stop, and it answers flushes.

  predicate ByWriter<T>(a: Action<T>) {
    a.Recv? || a.RecvDisconnected? || a.TryRecv? || a.DrainEnds? || a.Write? || a.Ack? || a.LastWrite?
  }

  predicate AllByWriter<T>(schedule: seq<Action<T>>) {
    forall i :: 0 <= i < |schedule| ==> ByWriter(schedule[i])
  }

  /** The writer has left, or blocks for a message that only a sender can bring. */
  predicate Stuck<T>(s: Store<T>) {
    s.pc.Exited? || (s.pc.Receiving? && s.queue == [] && s.open)
  }

  /** The writer's next step; which transaction succeeds is not its choice. */
  function NextStep<T>(s: Store<T>): Action<T>
    requires !Stuck(s)
  {
    match s.pc
    case Receiving => if s.queue == [] then RecvDisconnected else Recv
    case Draining => if |s.buf| < s.batch && s.queue != [] then TryRecv else DrainEnds
    case Writing => Write(true)
    case Acking => Ack
    case FinalWrite => LastWrite(true)
  }

  /** `Stuck` means what it says, and there is never a choice between two kinds of step. */
  lemma StuckIffNoStep<T>(s: Store<T>, a: Action<T>)
    requires ByWriter(a)
    ensures Enabled(s, a) ==> !Stuck(s) && (a == NextStep(s) || a.Write? || a.LastWrite?)
    ensures !Stuck(s) ==> Enabled(s, NextStep(s)) && ByWriter(NextStep(s))
  {
  }

  /** An upper bound on the steps left: at most four for each message, and the rest of this turn. */
  function Work<T>(s: Store<T>): nat {
    4 * |s.queue| +
    match s.pc
    case Draining => 5
    case Writing => 4
    case Acking => 3
    case Receiving => 2
    case FinalWrite => 1
    case Exited => 0
  }

  // ---- what holds of every reachable store, beyond the invariant of UsageStore ----

  ghost predicate FlushesDiffer<T>(q: seq<Msg<T>>) {
    forall i, j :: 0 <= i < j < |q| && q[i].Flush? ==> q[i] != q[j]
  }

  /** No flush of the queue is among these. */
  ghost predicate NoneOf<T>(q: seq<Msg<T>>, acks: set<nat>) {
    forall ack :: Flush(ack) in q ==> ack !in acks
  }

  /** The stop is not forgotten, no turn begins with it pending, and no flush is in two places. */
  ghost predicate Tidy<T>(s: Store<T>) {
    && (s.stopMark.Some? <==> s.stop || Stop in s.queue)
    && (s.pc.Receiving? ==> !s.stop && s.pendingAck.None?)
    && FlushesDiffer(s.queue)
    && (s.pendingAck.Some? ==> Flush(s.pendingAck.value) !in s.queue && s.pendingAck.value !in s.acked)
    && NoneOf(s.queue, s.acked)
  }

  lemma {:induction false} SendIsTidy<T>(s: Store<T>, m: Msg<T>, t: Store<T>)
    requires Inv(s) && Tidy(s)
    requires m.Flush? ==> m.ack !in s.flushMarks
    requires t.queue == s.queue + [m] && t.pc == s.pc && t.stop == s.stop && t.pendingAck == s.pendingAck && t.acked == s.acked
    requires t.stopMark == s.stopMark || t.stopMark.Some?
    requires m.Stop? <==> t.stopMark != s.stopMark || (m.Stop? && s.stopMark.Some?)
    ensures Tidy(t)
  {
    hide Order, Sizes;
    if m.Flush? {
      forall i | 0 <= i < |s.queue| ensures s.queue[i] != m {
        assert MarkAt(s, i);
      }
    }
  }

  lemma {:induction false} TailDiffers<T>(q: seq<Msg<T>>)
    requires q != [] && FlushesDiffer(q)
    ensures FlushesDiffer(q[1..]) && (q[0].Flush? ==> q[0] !in q[1..])
  {
    forall i, j | 0 <= i < j < |q[1..]| && q[1..][i].Flush? ensures q[1..][i] != q[1..][j] {
      assert q[i+1] != q[j+1];
    }
  }

  lemma {:induction false} HeadOrTail<T>(q: seq<Msg<T>>, m: Msg<T>)
    requires q != []
    ensures m in q <==> m == q[0] || m in q[1..]
  {
    assert q == [q[0]] + q[1..];
  }

  lemma {:induction false} TailNoneOf<T>(q: seq<Msg<T>>, acks: set<nat>)
    requires q != [] && NoneOf(q, acks)
    ensures NoneOf(q[1..], acks)
  {
    forall ack | Flush(ack) in q[1..] ensures ack !in acks {
      HeadOrTail(q, Flush(ack));
    }
  }

  lemma {:induction false} TakeIsTidy<T>(s: Store<T>, pc: Pc)
    requires Tidy(s) && s.queue != [] && !pc.Receiving?
    ensures Tidy(Take(s).(pc := pc))
  {
    TailDiffers(s.queue);
    TailNoneOf(s.queue, s.acked);
    HeadOrTail(s.queue, Stop);
    if s.pendingAck.Some? {
      HeadOrTail(s.queue, Flush(s.pendingAck.value));
    }
    if s.queue[0].Flush? {
      assert s.queue[0] == Flush(s.queue[0].ack) && s.queue[0] in s.queue && s.queue[0].ack !in s.acked;
    }
    hide FlushesDiffer, NoneOf;
  }

  lemma {:induction false} StepKeepsTidy<T>(s: Store<T>, a: Action<T>)
    requires Inv(s) && Tidy(s) && Enabled(s, a)
    ensures Tidy(Exec(s, a))
  {
    hide Inv, FlushesDiffer;
    match a
    case Record(rec) => if CanSend(s) { SendIsTidy(s, Row(rec), Exec(s, a)); }
    case SendFlush(ack) => SendIsTidy(s, Flush(ack), Exec(s, a));
    case SendStop => SendIsTidy(s, Stop, Exec(s, a));
    case Recv => TakeIsTidy(s, Draining);
    case TryRecv => TakeIsTidy(s, Exec(s, a).pc);
    case _ =>
  }

  lemma {:induction false} RunIsTidy<T>(s: Store<T>, schedule: seq<Action<T>>)
    requires Inv(s) && Tidy(s) && Play(s, schedule).Some?
    ensures Inv(Play(s, schedule).value) && Tidy(Play(s, schedule).value)
    decreases |schedule|
  {
    hide Inv, Tidy, Enabled, Exec;
    if schedule != [] {
      StepKeepsInvariant(s, schedule[0]);
      StepKeepsTidy(s, schedule[0]);
      RunIsTidy(Exec(s, schedule[0]), schedule[1..]);
    }
  }

  lemma {:induction false} ReachedIsTidy<T>(capacity: nat, batch: nat, schedule: seq<Action<T>>)
    requires Play(New(capacity, batch), schedule).Some?
    ensures Inv(Play(New(capacity, batch), schedule).value) && Tidy(Play(New(capacity, batch), schedule).value)
  {
    hide Play;
    var s: Store<T> := New(capacity, batch);
    assert Concat(s.batches) == [];
    RunIsTidy(s, schedule);
  }

  // ---- the writer leaves ----

  lemma {:induction false} StepIsWork<T>(s: Store<T>, a: Action<T>)
    requires Enabled(s, a) && ByWriter(a)
    ensures var t := Exec(s, a);
      Work(t) < Work(s) && t.stopMark == s.stopMark && t.open == s.open && t.batch == s.batch
  {
  }

  lemma {:induction false} StepsAreWork<T>(s: Store<T>, schedule: seq<Action<T>>)
    requires AllByWriter(schedule) && Play(s, schedule).Some?
    ensures var t := Play(s, schedule).value;
      |schedule| + Work(t) <= Work(s) && t.stopMark == s.stopMark && t.open == s.open && t.batch == s.batch
    decreases |schedule|
  {
    hide Enabled, Exec, Work;
    if schedule != [] {
      StepIsWork(s, schedule[0]);
      StepsAreWork(Exec(s, schedule[0]), schedule[1..]);
    }
  }

  lemma {:induction false} StuckOutcome<T>(t: Store<T>)
    requires Ended(t) && Tidy(t) && Stuck(t)
    ensures t.pc.Exited? <==> t.stopMark.Some? || !t.open
  {
  }

  /**
    The writer always gets there: from every reachable state it can take at most `Work` steps before it is
    stuck, whichever transactions fail, and when it is stuck it has left if and only if the stop was sent
    or the senders are gone.
  */
  lemma {:induction false} WriterLeavesIff<T>(capacity: nat, batch: nat, before: seq<Action<T>>, s: Store<T>, schedule: seq<Action<T>>)
    requires Play(New(capacity, batch), before) == Some(s)
    requires AllByWriter(schedule) && Play(s, schedule).Some?
    ensures var t := Play(s, schedule).value;
      && |schedule| + Work(t) <= Work(s)
      && (!Stuck(t) ==> Enabled(t, NextStep(t)))
      && (Stuck(t) ==> (t.pc.Exited? <==> s.stopMark.Some? || !s.open))
  {
    hide Tidy, Play, Enabled;
    ReachedIsTidy(capacity, batch, before);
    RunIsTidy(s, schedule);
    StepsAreWork(s, schedule);
    var t := Play(s, schedule).value;
    if Stuck(t) {
      StuckOutcome(t);
    } else {
      StuckIffNoStep(t, NextStep(t));
    }
  }

  /** In particular some run of the writer alone is complete. */
  lemma {:induction false} WriterCanFinish<T>(s: Store<T>) returns (schedule: seq<Action<T>>)
    ensures AllByWriter(schedule) && Play(s, schedule).Some? && Stuck(Play(s, schedule).value)
    decreases Work(s)
  {
    schedule := [];
    if !Stuck(s) {
      var a := NextStep(s);
      StuckIffNoStep(s, a);
      StepIsWork(s, a);
      var later := WriterCanFinish(Exec(s, a));
      schedule := [a] + later;
      assert schedule[1..] == later;
    }
  }

  // ---- which flushes are answered ----

  /** The flush is waiting, in the writer's hands, or answered. */
  ghost predicate Standing<T>(s: Store<T>, ack: nat) {
    Flush(ack) in s.queue || s.pendingAck == Some(ack) || ack in s.acked
  }

  lemma {:induction false} TakeStanding<T>(s: Store<T>, ack: nat)
    requires s.queue != []
    ensures Standing(Take(s), ack) <==>
      Flush(ack) in s.queue || ack in s.acked || (s.pendingAck == Some(ack) && !s.queue[0].Flush?)
    ensures Take(s).acked == s.acked && Take(s).flushMarks == s.flushMarks
  {
    HeadOrTail(s.queue, Flush(ack));
  }

  /** The drain finds another flush while this one is in the writer's hands. */
  predicate Overtakes<T>(s: Store<T>, a: Action<T>, ack: nat) {
    a.TryRecv? && s.pendingAck == Some(ack) && s.queue != [] && s.queue[0].Flush?
  }

  lemma {:induction false} StepDropsIff<T>(s: Store<T>, a: Action<T>, ack: nat)
    requires Tidy(s) && Enabled(s, a)
    ensures Standing(s, ack) ==> (!Standing(Exec(s, a), ack) <==> Overtakes(s, a, ack))
    ensures !Standing(s, ack) && ack in s.flushMarks ==> !Standing(Exec(s, a), ack)
    ensures s.flushMarks.Keys <= Exec(s, a).flushMarks.Keys
  {
    hide FlushesDiffer, NoneOf, Take;
    match a
    case Recv => TakeStanding(s.(pendingAck := None), ack);
    case TryRecv => TakeStanding(s, ack);
    case _ =>
  }

  lemma {:induction false} SentStands<T>(s: Store<T>, a: Action<T>, ack: nat)
    requires Inv(s) && Enabled(s, a) && ack !in s.flushMarks
    ensures ack in Exec(s, a).flushMarks ==> Standing(Exec(s, a), ack)
    ensures !Overtakes(s, a, ack)
  {
    hide Order, Sizes, Ended;
    if a == SendFlush(ack) {
      assert Exec(s, a).queue[|s.queue|] == Flush(ack);
    }
  }

  predicate SomeStepOvertakes<T>(s: Store<T>, schedule: seq<Action<T>>, ack: nat)
    requires Play(s, schedule).Some?
    decreases |schedule|
  {
    schedule != [] && (Overtakes(s, schedule[0], ack) || SomeStepOvertakes(Exec(s, schedule[0]), schedule[1..], ack))
  }

  lemma {:induction false} DroppedStays<T>(s: Store<T>, schedule: seq<Action<T>>, ack: nat)
    requires Inv(s) && Tidy(s) && Play(s, schedule).Some? && ack in s.flushMarks && !Standing(s, ack)
    ensures !Standing(Play(s, schedule).value, ack)
    decreases |schedule|
  {
    hide Inv, Tidy, Standing, Enabled, Exec;
    if schedule != [] {
      StepKeepsInvariant(s, schedule[0]);
      StepKeepsTidy(s, schedule[0]);
      StepDropsIff(s, schedule[0], ack);
      DroppedStays(Exec(s, schedule[0]), schedule[1..], ack);
    }
  }

  lemma {:induction false} DroppedFromIff<T>(s: Store<T>, schedule: seq<Action<T>>, ack: nat)
    requires Inv(s) && Tidy(s) && Play(s, schedule).Some?
    requires ack in s.flushMarks ==> Standing(s, ack)
    ensures var t := Play(s, schedule).value;
      ack in t.flushMarks ==> (!Standing(t, ack) <==> SomeStepOvertakes(s, schedule, ack))
    decreases |schedule|
  {
    hide Inv, Tidy, Standing, Overtakes, Enabled, Exec;
    if schedule != [] {
      var a, later := schedule[0], schedule[1..];
      StepKeepsInvariant(s, a);
      StepKeepsTidy(s, a);
      StepDropsIff(s, a, ack);
      if ack !in s.flushMarks {
        SentStands(s, a, ack);
      }
      if Overtakes(s, a, ack) && ack in s.flushMarks {
        DroppedStays(Exec(s, a), later, ack);
      } else {
        DroppedFromIff(Exec(s, a), later, ack);
      }
    }
  }

  /**
    The one way to lose a flush: after any run of senders, writer and shutdown, a flush that was sent is
    neither waiting nor in the writer's hands nor answered exactly if at some step of the run the drain
    found another flush while this one was in the writer's hands.
  */
  lemma {:induction false} DroppedIffOvertaken<T>(capacity: nat, batch: nat, schedule: seq<Action<T>>, ack: nat)
    requires Play(New(capacity, batch), schedule).Some?
    requires ack in Play(New(capacity, batch), schedule).value.flushMarks
    ensures !Standing(Play(New(capacity, batch), schedule).value, ack) <==> SomeStepOvertakes(New(capacity, batch), schedule, ack)
  {
    hide Inv, Tidy;
    ReachedIsTidy<T>(capacity, batch, []);
    DroppedFromIff(New<T>(capacity, batch), schedule, ack);
  }

  lemma {:induction false} FlushMarksGrow<T>(s: Store<T>, schedule: seq<Action<T>>)
    requires Play(s, schedule).Some?
    ensures s.flushMarks.Keys <= Play(s, schedule).value.flushMarks.Keys
    decreases |schedule|
  {
    if schedule != [] {
      FlushMarksGrow(Exec(s, schedule[0]), schedule[1..]);
    }
  }

  lemma {:induction false} StepKeepsStanding<T>(s: Store<T>, a: Action<T>, ack: nat)
    requires Inv(s) && Tidy(s) && Enabled(s, a) && Exec(s, a).flushMarks.Keys <= {ack}
    requires ack in s.flushMarks ==> Standing(s, ack)
    ensures ack in Exec(s, a).flushMarks ==> Standing(Exec(s, a), ack)
  {
    hide Order, Sizes, Ended, FlushesDiffer;
    if ack in s.flushMarks {
      StepDropsIff(s, a, ack);
      assert a.TryRecv? ==> MarkAt(s, 0);
    }
  }

  lemma {:induction false} OnlyFlushStandsFrom<T>(s: Store<T>, schedule: seq<Action<T>>, ack: nat)
    requires Inv(s) && Tidy(s) && Play(s, schedule).Some? && Play(s, schedule).value.flushMarks.Keys <= {ack}
    requires ack in s.flushMarks ==> Standing(s, ack)
    ensures ack in Play(s, schedule).value.flushMarks ==> Standing(Play(s, schedule).value, ack)
    decreases |schedule|
  {
    hide Inv, Tidy, Standing, Enabled, Exec;
    if schedule != [] {
      StepKeepsInvariant(s, schedule[0]);
      StepKeepsTidy(s, schedule[0]);
      FlushMarksGrow(Exec(s, schedule[0]), schedule[1..]);
      StepKeepsStanding(s, schedule[0], ack);
      OnlyFlushStandsFrom(Exec(s, schedule[0]), schedule[1..], ack);
    }
  }

  /** Where only one flush was ever sent, as the one shutdown does, none is dropped, whatever the schedule. */
  lemma {:induction false} OnlyFlushStands<T>(capacity: nat, batch: nat, schedule: seq<Action<T>>, ack: nat)
    requires Play(New(capacity, batch), schedule).Some?
    requires Play(New(capacity, batch), schedule).value.flushMarks.Keys == {ack}
    ensures Standing(Play(New(capacity, batch), schedule).value, ack)
  {
    hide Inv, Tidy;
    var s: Store<T> := New(capacity, batch);
    ReachedIsTidy<T>(capacity, batch, []);
    OnlyFlushStandsFrom(s, schedule, ack);
  }

  /** How many messages a drain with room for `room` rows takes: rows, up to the first that is none. */
  function DrainLength<T>(room: nat, q: seq<Msg<T>>): (k: nat)
    ensures k <= |q|
    ensures forall i :: 0 <= i < k - 1 ==> q[i].Row?
  {
    if room == 0 || q == [] then 0
    else if q[0].Row? then 1 + DrainLength(room - 1, q[1..])
    else 1
  }

  /** How many messages a whole turn takes: one, and what the drain finds. */
  function TurnLength<T>(batch: nat, q: seq<Msg<T>>): (k: nat)
    requires q != [] && batch >= 1
    ensures 1 <= k <= |q|
    ensures forall i :: 1 <= i < k - 1 ==> q[i].Row?
  {
    1 + DrainLength(if q[0].Row? then batch - 1 else batch, q[1..])
  }

  /** The queue cut into turns, up to the turn that takes the stop. */
  ghost function Turns<T>(batch: nat, q: seq<Msg<T>>): seq<seq<Msg<T>>>
    requires batch >= 1
    decreases |q|
  {
    if q == [] then []
    else
      var k := TurnLength(batch, q);
      [q[..k]] + (if Stop in q[..k] then [] else Turns(batch, q[k..]))
  }

  /** The flush a turn answers. */
  function LastFlush<T>(turn: seq<Msg<T>>): Option<nat> {
    if turn == [] then None
    else if LastFlush(turn[1..]).Some? then LastFlush(turn[1..])
    else if turn[0].Flush? then Some(turn[0].ack)
    else None
  }

  function AckSet(ack: Option<nat>): set<nat> { if ack.Some? then {ack.value} else {} }

  function Answered<T>(turns: seq<seq<Msg<T>>>): set<nat> {
    if turns == [] then {} else AckSet(LastFlush(turns[0])) + Answered(turns[1..])
  }

  /** What a turn that is draining, and the turns after it, will answer. */
  ghost function DrainAnswers<T>(room: nat, batch: nat, stop: bool, pending: Option<nat>, q: seq<Msg<T>>): set<nat>
    requires batch >= 1
  {
    var k := DrainLength(room, q);
    AckSet(if LastFlush(q[..k]).Some? then LastFlush(q[..k]) else pending)
    + if stop || Stop in q[..k] then {} else Answered(Turns(batch, q[k..]))
  }

  /** The flushes the writer will answer if nobody sends any more. */
  ghost function Promised<T>(s: Store<T>): set<nat>
    requires s.batch >= 1 && |s.buf| <= s.batch
  {
    match s.pc
    case Receiving => Answered(Turns(s.batch, s.queue))
    case Draining => DrainAnswers(s.batch - |s.buf|, s.batch, s.stop, s.pendingAck, s.queue)
    case Writing => AckSet(s.pendingAck) + if s.stop then {} else Answered(Turns(s.batch, s.queue))
    case Acking => AckSet(s.pendingAck) + if s.stop then {} else Answered(Turns(s.batch, s.queue))
    case FinalWrite => {}
    case Exited => {}
  }

  lemma {:induction false} TurnAnswers<T>(batch: nat, q: seq<Msg<T>>)
    requires batch >= 1 && q != []
    ensures Answered(Turns(batch, q)) ==
      DrainAnswers(if q[0].Row? then batch - 1 else batch, batch, q[0].Stop?, if q[0].Flush? then Some(q[0].ack) else None, q[1..])
  {
    hide DrainLength;
    var k := TurnLength(batch, q);
    var turn, d := q[..k], q[1..][..k-1];
    StopInCons(q[0], d);
    assert turn == [q[0]] + d && turn[1..] == d && q[k..] == q[1..][k-1..];
    var later := if Stop in turn then [] else Turns(batch, q[k..]);
    assert Turns(batch, q) == [turn] + later;
    AnsweredCons(turn, later);
  }

  lemma {:induction false} StopInCons<T>(m: Msg<T>, d: seq<Msg<T>>)
    ensures Stop in [m] + d <==> m.Stop? || Stop in d
  {
  }

  lemma {:induction false} AnsweredCons<T>(turn: seq<Msg<T>>, later: seq<seq<Msg<T>>>)
    ensures Answered([turn] + later) == AckSet(LastFlush(turn)) + Answered(later)
  {
    assert ([turn] + later)[1..] == later;
  }

  lemma {:induction false} DrainRow<T>(room: nat, batch: nat, stop: bool, pending: Option<nat>, q: seq<Msg<T>>)
    requires batch >= 1 && room > 0 && q != [] && q[0].Row?
    ensures DrainAnswers(room, batch, stop, pending, q) == DrainAnswers(room - 1, batch, stop, pending, q[1..])
  {
    hide Turns, Answered;
    var k := DrainLength(room, q);
    assert k == 1 + DrainLength(room - 1, q[1..]);
    var d := q[1..][..k-1];
    StopInCons(q[0], d);
    assert q[..k] == [q[0]] + d && q[..k][1..] == d && q[k..] == q[1..][k-1..];
  }

  lemma {:induction false} DrainOther<T>(room: nat, batch: nat, stop: bool, pending: Option<nat>, q: seq<Msg<T>>)
    requires batch >= 1 && room > 0 && q != [] && !q[0].Row?
    ensures DrainAnswers(room, batch, stop, pending, q) ==
      if q[0].Stop? then AckSet(pending) else {q[0].ack} + if stop then {} else Answered(Turns(batch, q[1..]))
  {
    hide Turns, Answered;
    assert DrainLength(room, q) == 1;
    assert q[..1] == [q[0]] && [q[0]][1..] == [];
    assert LastFlush([q[0]]) == if q[0].Flush? then Some(q[0].ack) else None;
  }

  /** Each step of the writer pays out of what was promised. */
  lemma {:induction false} StepKeepsPromise<T>(s: Store<T>, a: Action<T>)
    requires Sizes(s) && Tidy(s) && Enabled(s, a) && ByWriter(a) && Sizes(Exec(s, a))
    ensures var t := Exec(s, a);
      t.acked + Promised(t) == s.acked + Promised(s)
  {
    hide DrainAnswers, DrainLength, Turns, LastFlush, Answered, FlushesDiffer, NoneOf;
    match a
    case Recv => TurnAnswers(s.batch, s.queue);
    case TryRecv =>
      if s.queue[0].Row? {
        DrainRow(s.batch - |s.buf|, s.batch, s.stop, s.pendingAck, s.queue);
      } else {
        DrainOther(s.batch - |s.buf|, s.batch, s.stop, s.pendingAck, s.queue);
      }
    case DrainEnds => DrainNone(s.batch - |s.buf|, s.batch, s.stop, s.pendingAck, s.queue);
    case RecvDisconnected => NoTurns<T>(s.batch);
    case _ =>
  }

  lemma {:induction false} NoTurns<T>(batch: nat)
    requires batch >= 1
    ensures var q: seq<Msg<T>> := []; Answered(Turns(batch, q)) == {}
  {
  }

  lemma {:induction false} DrainNone<T>(room: nat, batch: nat, stop: bool, pending: Option<nat>, q: seq<Msg<T>>)
    requires batch >= 1 && (room == 0 || q == [])
    ensures DrainAnswers(room, batch, stop, pending, q) == AckSet(pending) + if stop then {} else Answered(Turns(batch, q))
  {
    assert q[..0] == [] && q[0..] == q;
  }

  lemma {:induction false} RunKeepsPromise<T>(s: Store<T>, schedule: seq<Action<T>>)
    requires Inv(s) && Tidy(s) && AllByWriter(schedule) && Play(s, schedule).Some?
    ensures var t := Play(s, schedule).value;
      Sizes(t) && t.acked + Promised(t) == s.acked + Promised(s)
    decreases |schedule|
  {
    hide Tidy, Enabled, Exec, Promised;
    if schedule != [] {
      StepKeepsInvariant(s, schedule[0]);
      StepKeepsTidy(s, schedule[0]);
      StepKeepsPromise(s, schedule[0]);
      RunKeepsPromise(Exec(s, schedule[0]), schedule[1..]);
    }
  }

  /** In its turn, the flush comes first and another one ends the drain. */
  ghost predicate Overtaken<T>(turn: seq<Msg<T>>, ack: nat) {
    turn != [] && turn[0] == Flush(ack) && turn[|turn|-1].Flush? && turn[|turn|-1] != Flush(ack)
  }

  ghost predicate AnswersIt<T>(turn: seq<Msg<T>>, ack: nat) {
    Flush(ack) in turn && !Overtaken(turn, ack)
  }

  lemma {:induction false} RowsHaveNoFlush<T>(q: seq<Msg<T>>)
    requires forall i :: 0 <= i < |q| - 1 ==> q[i].Row?
    ensures LastFlush(q) == if q != [] && q[|q|-1].Flush? then Some(q[|q|-1].ack) else None
  {
    if q != [] {
      RowsHaveNoFlush(q[1..]);
    }
  }

  lemma {:induction false} TurnAnswersIff<T>(turn: seq<Msg<T>>, ack: nat)
    requires turn != [] && (forall i :: 1 <= i < |turn| - 1 ==> turn[i].Row?) && FlushesDiffer(turn)
    ensures LastFlush(turn) == Some(ack) <==> AnswersIt(turn, ack)
  {
    RowsHaveNoFlush(turn[1..]);
  }

  ghost predicate SomeTurnAnswers<T>(turns: seq<seq<Msg<T>>>, ack: nat) {
    exists i :: 0 <= i < |turns| && AnswersIt(turns[i], ack)
  }

  /** A turn answers each flush in it that is not overtaken; so among turns, exactly those. */
  lemma {:induction false} AnsweredIff<T>(batch: nat, q: seq<Msg<T>>, ack: nat)
    requires batch >= 1 && FlushesDiffer(q)
    ensures ack in Answered(Turns(batch, q)) <==> SomeTurnAnswers(Turns(batch, q), ack)
    decreases |q|
  {
    if q != [] {
      var k := TurnLength(batch, q);
      var later := if Stop in q[..k] then [] else Turns(batch, q[k..]);
      assert Turns(batch, q) == [q[..k]] + later && ([q[..k]] + later)[1..] == later;
      TurnAnswersIff(q[..k], ack);
      if Stop !in q[..k] {
        AnsweredIff(batch, q[k..], ack);
      }
      assert SomeTurnAnswers(Turns(batch, q), ack) <==> AnswersIt(q[..k], ack) || SomeTurnAnswers(later, ack) by {
        FirstOrLater(q[..k], later, ack);
      }
    }
  }

  lemma {:induction false} FirstOrLater<T>(first: seq<Msg<T>>, later: seq<seq<Msg<T>>>, ack: nat)
    ensures SomeTurnAnswers([first] + later, ack) <==> AnswersIt(first, ack) || SomeTurnAnswers(later, ack)
  {
    var all := [first] + later;
    assert all[0] == first;
    if SomeTurnAnswers(later, ack) {
      var i :| 0 <= i < |later| && AnswersIt(later[i], ack);
      assert AnswersIt(all[i+1], ack);
    }
    if SomeTurnAnswers(all, ack) && !AnswersIt(first, ack) {
      var i :| 0 <= i < |all| && AnswersIt(all[i], ack);
      assert AnswersIt(later[i-1], ack);
    }
  }

  /**
    Exactly which queued flushes are answered. When the writer, about to block, finds a queue and nobody
    sends any more, a flush is answered if and only if some turn takes it, at the latest the one that
    takes the stop, and does not overtake it.
  */
  lemma {:induction false} FlushAnsweredIff<T>(
    capacity: nat, batch: nat, before: seq<Action<T>>, s: Store<T>, schedule: seq<Action<T>>, ack: nat)
    requires Play(New(capacity, batch), before) == Some(s) && s.pc.Receiving? && Flush(ack) in s.queue
    requires AllByWriter(schedule) && Play(s, schedule).Some? && Stuck(Play(s, schedule).value)
    ensures s.batch >= 1
    ensures ack in Play(s, schedule).value.acked <==> SomeTurnAnswers(Turns(s.batch, s.queue), ack)
  {
    hide Play, Turns, Order, Marks;
    ReachedIsTidy(capacity, batch, before);
    RunKeepsPromise(s, schedule);
    NoTurns<T>(Play(s, schedule).value.batch);
    AnsweredIff(s.batch, s.queue, ack);
  }

  const TWO_FLUSHES: seq<Msg<nat>> := [Flush(0), Flush(1)]

  /** Two flushes in a row are one turn, and only the second is answered. */
  lemma {:induction false} SecondFlushOvertakesFirst(batch: nat)
    requires batch >= 1
    ensures Turns(batch, TWO_FLUSHES) == [TWO_FLUSHES]
    ensures !SomeTurnAnswers(Turns(batch, TWO_FLUSHES), 0) && SomeTurnAnswers(Turns(batch, TWO_FLUSHES), 1)
  {
    assert TWO_FLUSHES[1..] == [Flush(1)];
    assert TurnLength(batch, TWO_FLUSHES) == 2 && TWO_FLUSHES[..2] == TWO_FLUSHES && TWO_FLUSHES[2..] == [];
    assert TWO_FLUSHES[0] == Flush(0) && TWO_FLUSHES[1] == Flush(1);
    assert AnswersIt([TWO_FLUSHES][0], 1);
  }
}
