/** The usage writer (crates/moaray-store/src/lib.rs) as a step system. */
module UsageStore {
  import opened Wrappers
  import opened Sequences

  // Producers never wait; a bounded queue feeds one writer thread that stores rows in batches, and shutdown
  // is a flush/stop protocol. The queue is a first-in first-out channel, the row type a parameter; a batch
  // insert is one atomic transaction that may fail.

  datatype Msg<T> = Row(rec: T) | Flush(ack: nat) | Stop

  datatype Pc = Receiving | Draining | Writing | Acking | FinalWrite | Exited

  /**
    The channel, the writer's locals and the database; below them, what an observer outside could
    note: rows accepted, counts, how many rows had been accepted when a flush or the stop was sent.
  */
  datatype Store<T> = Store(
    capacity: nat,
    batch: nat,
    open: bool,
    queue: seq<Msg<T>>,
    pc: Pc,
    buf: seq<T>,
    stop: bool,
    pendingAck: Option<nat>,
    db: seq<T>,
    batches: seq<seq<T>>,
    failures: nat,
    acked: set<nat>,
    accepted: seq<T>,
    recorded: nat,
    dropped: nat,
    flushMarks: map<nat, nat>,
    stopMark: Option<nat>)

  /** `SqliteSink::new`: capacity and batch size are at least 1. */
  function New<T>(capacity: nat, batch: nat): Store<T> {
    Store(if capacity == 0 then 1 else capacity, if batch == 0 then 1 else batch,
          true, [], Receiving, [], false, None, [], [], 0, {}, [], 0, 0, map[], None)
  }

  datatype Action<T> =
    | Record(rec: T)
    | SendFlush(ack: nat)
    | SendStop
    | SendersGone
    | Recv
    | RecvDisconnected
    | TryRecv
    | DrainEnds
    | Write(succeeds: bool)
    | Ack
    | LastWrite(succeeds: bool)

  predicate CanSend<T>(s: Store<T>) { s.open && !s.pc.Exited? && |s.queue| < s.capacity }

  predicate Enabled<T>(s: Store<T>, a: Action<T>) {
    match a
    case Record(_) => s.open
    case SendFlush(ack) => CanSend(s) && ack !in s.flushMarks
    case SendStop => CanSend(s) && s.stopMark.None?
    case SendersGone => s.open
    case Recv => s.pc.Receiving? && s.queue != []
    case RecvDisconnected => s.pc.Receiving? && s.queue == [] && !s.open
    case TryRecv => s.pc.Draining? && |s.buf| < s.batch && s.queue != []
    case DrainEnds => s.pc.Draining? && (|s.buf| >= s.batch || s.queue == [])
    case Write(_) => s.pc.Writing?
    case Ack => s.pc.Acking?
    case LastWrite(_) => s.pc.FinalWrite?
  }

  /** Taking the head of the queue into the writer's locals. */
  function Take<T>(s: Store<T>): Store<T>
    requires s.queue != []
  {
    var t := s.(queue := s.queue[1..]);
    match s.queue[0]
    case Row(rec) => t.(buf := s.buf + [rec])
    case Flush(ack) => t.(pendingAck := Some(ack))
    case Stop => t.(stop := true)
  }

  /** `flush_batch` of a non-empty buffer. */
  function WriteBuffer<T>(s: Store<T>, succeeds: bool): Store<T> {
    if s.buf == [] then s
    else s.(buf := [], batches := s.batches + [s.buf],
            db := if succeeds then s.db + s.buf else s.db,
            failures := if succeeds then s.failures else s.failures + 1)
  }

  function Exec<T>(s: Store<T>, a: Action<T>): Store<T>
    requires Enabled(s, a)
  {
    match a
    case Record(rec) =>
      if CanSend(s) then s.(queue := s.queue + [Row(rec)], accepted := s.accepted + [rec], recorded := s.recorded + 1)
      else s.(recorded := s.recorded + 1, dropped := s.dropped + 1)
    case SendFlush(ack) => s.(queue := s.queue + [Flush(ack)], flushMarks := s.flushMarks[ack := |s.accepted|])
    case SendStop => s.(queue := s.queue + [Stop], stopMark := Some(|s.accepted|))
    case SendersGone => s.(open := false)
    case Recv => Take(s.(pendingAck := None)).(pc := Draining)
    case RecvDisconnected => s.(pc := FinalWrite)
    case TryRecv => Take(s).(pc := if s.queue[0].Row? then Draining else Writing)
    case DrainEnds => s.(pc := Writing)
    case Write(succeeds) => WriteBuffer(s, succeeds).(pc := Acking)
    case Ack =>
      s.(acked := if s.pendingAck.Some? then s.acked + {s.pendingAck.value} else s.acked,
         pendingAck := None,
         pc := if s.stop then FinalWrite else Receiving)
    case LastWrite(succeeds) => WriteBuffer(s, succeeds).(pc := Exited)
  }

  function Play<T>(s: Store<T>, schedule: seq<Action<T>>): Option<Store<T>>
    decreases |schedule|
  {
    if schedule == [] then Some(s)
    else if !Enabled(s, schedule[0]) then None
    else Play(Exec(s, schedule[0]), schedule[1..])
  }

  // ---- the invariant ----

  function RowsOf<T>(msgs: seq<Msg<T>>): seq<T> {
    if msgs == [] then []
    else if msgs[0].Row? then [msgs[0].rec] + RowsOf(msgs[1..])
    else RowsOf(msgs[1..])
  }

  function Concat<T>(batches: seq<seq<T>>): seq<T> {
    if batches == [] then [] else Concat(batches[..|batches|-1]) + batches[|batches|-1]
  }

  lemma {:induction false} RowsOfConcat<T>(a: seq<Msg<T>>, b: seq<Msg<T>>)
    ensures RowsOf(a + b) == RowsOf(a) + RowsOf(b)
  {
    if a == [] {
      assert a + b == b;
    } else {
      assert (a + b)[1..] == a[1..] + b;
      RowsOfConcat(a[1..], b);
    }
  }

  /** Rows the writer has taken out of the queue. */
  function Taken<T>(s: Store<T>): seq<T> { Concat(s.batches) + s.buf }

  /** How many rows were accepted before the message at `i` of the queue was sent. */
  function Before<T>(s: Store<T>, i: nat): nat
    requires i <= |s.queue|
  {
    |Taken(s)| + |RowsOf(s.queue[..i])|
  }

  predicate MarkAt<T>(s: Store<T>, i: nat)
    requires i < |s.queue|
  {
    match s.queue[i]
    case Row(_) => true
    case Flush(ack) => ack in s.flushMarks && s.flushMarks[ack] == Before(s, i)
    case Stop => s.stopMark == Some(Before(s, i))
  }

  /** Marks tell the truth: in the queue, in the writer's hands, and once acknowledged. */
  predicate Marks<T>(s: Store<T>) {
    && (forall i :: 0 <= i < |s.queue| ==> MarkAt(s, i))
    && (s.pendingAck.Some? ==> s.pendingAck.value in s.flushMarks && s.flushMarks[s.pendingAck.value] <= |Taken(s)|)
    && (s.pendingAck.Some? && s.pc.Acking? ==> s.flushMarks[s.pendingAck.value] <= |Concat(s.batches)|)
    && (forall ack :: ack in s.acked ==> ack in s.flushMarks && s.flushMarks[ack] <= |Concat(s.batches)|)
    && (s.stop ==> s.stopMark.Some? && s.stopMark.value <= |Taken(s)|)
  }

  predicate Sizes<T>(s: Store<T>) {
    && s.capacity >= 1 && s.batch >= 1
    && |s.queue| <= s.capacity && |s.buf| <= s.batch
    && (forall i :: 0 <= i < |s.batches| ==> 1 <= |s.batches[i]| <= s.batch)
    && s.recorded == |s.accepted| + s.dropped
    && (s.pc.Receiving? || s.pc.Acking? || s.pc.FinalWrite? || s.pc.Exited? ==> s.buf == [])
  }

  ghost predicate Order<T>(s: Store<T>) {
    && Taken(s) + RowsOf(s.queue) == s.accepted
    && (s.failures == 0 ==> s.db == Concat(s.batches))
  }

  predicate Ended<T>(s: Store<T>) {
    s.pc.FinalWrite? || s.pc.Exited? ==> s.stop || (s.queue == [] && !s.open)
  }

  ghost predicate Inv<T>(s: Store<T>) { Sizes(s) && Order(s) && Marks(s) && Ended(s) }

  lemma SendKeeps<T>(s: Store<T>, m: Msg<T>, t: Store<T>)
    requires Inv(s) && CanSend(s)
    requires t == s.(queue := s.queue + [m], accepted := t.accepted, recorded := t.recorded, flushMarks := t.flushMarks, stopMark := t.stopMark)
    requires match m
      case Row(rec) => t.accepted == s.accepted + [rec] && t.recorded == s.recorded + 1 && t.flushMarks == s.flushMarks && t.stopMark == s.stopMark
      case Flush(ack) => ack !in s.flushMarks && t.accepted == s.accepted && t.recorded == s.recorded
        && t.flushMarks == s.flushMarks[ack := |s.accepted|] && t.stopMark == s.stopMark
      case Stop =>
        s.stopMark.None? && t.accepted == s.accepted && t.recorded == s.recorded
        && t.flushMarks == s.flushMarks && t.stopMark == Some(|s.accepted|)
    ensures Inv(t)
  {
    RowsOfConcat(s.queue, [m]);
    assert Taken(t) + (RowsOf(s.queue) + RowsOf([m])) == s.accepted + RowsOf([m]);
    forall i | 0 <= i < |t.queue| ensures MarkAt(t, i) {
      assert t.queue[..i] == s.queue[..i];
      if i < |s.queue| {
        assert MarkAt(s, i);
      } else {
        assert s.queue[..i] == s.queue;
      }
    }
  }

  /** Taking a message moves its row, if it has one, from the queue to the writer, and shifts the marks. */
  lemma TakeMoves<T>(s: Store<T>)
    requires s.queue != []
    ensures RowsOf(s.queue) == RowsOf([s.queue[0]]) + RowsOf(Take(s).queue)
    ensures Taken(Take(s)) == Taken(s) + RowsOf([s.queue[0]])
    ensures forall i :: 0 <= i < |Take(s).queue| ==> Before(Take(s), i) == Before(s, i + 1)
  {
    var t := Take(s);
    assert s.queue == [s.queue[0]] + t.queue;
    RowsOfConcat([s.queue[0]], t.queue);
    assert [s.queue[0]][1..] == [];
    forall i | 0 <= i < |t.queue| ensures Before(t, i) == Before(s, i + 1) {
      assert s.queue[..i+1] == [s.queue[0]] + t.queue[..i];
      RowsOfConcat([s.queue[0]], t.queue[..i]);
    }
  }

  lemma TakeMarks<T>(s: Store<T>, pc: Pc)
    requires Marks(s) && s.queue != [] && !pc.Acking?
    ensures Marks(Take(s).(pc := pc))
  {
    var t := Take(s).(pc := pc);
    TakeMoves(s);
    assert MarkAt(s, 0) && s.queue[..0] == [];
    assert |Taken(t)| >= |Taken(s)|;
    forall i | 0 <= i < |t.queue| ensures MarkAt(t, i) {
      assert MarkAt(s, i + 1);
      assert Before(t, i) == Before(Take(s), i);
    }
  }

  lemma TakeOrder<T>(s: Store<T>, pc: Pc)
    requires Order(s) && s.queue != []
    ensures Order(Take(s).(pc := pc))
  {
    TakeMoves(s);
    var t := Take(s).(pc := pc);
    assert Taken(t) == Taken(Take(s));
    Regroup(Taken(s), RowsOf([s.queue[0]]), RowsOf(t.queue));
  }

  lemma TakeSizes<T>(s: Store<T>, pc: Pc)
    requires Sizes(s) && s.queue != [] && |s.buf| < s.batch && (pc.Draining? || pc.Writing?)
    ensures Sizes(Take(s).(pc := pc)) && Ended(Take(s).(pc := pc))
  {
  }

  lemma TakeKeeps<T>(s: Store<T>, pc: Pc)
    requires Inv(s) && s.queue != [] && |s.buf| < s.batch && !s.pc.Exited? && !s.pc.FinalWrite?
    requires pc.Draining? || pc.Writing?
    ensures Inv(Take(s).(pc := pc))
  {
    TakeMarks(s, pc);
    TakeOrder(s, pc);
    TakeSizes(s, pc);
  }

  lemma WriteKeeps<T>(s: Store<T>, succeeds: bool, pc: Pc)
    requires Inv(s) && ((s.pc.Writing? && pc.Acking?) || (s.pc.FinalWrite? && pc.Exited?))
    ensures Inv(WriteBuffer(s, succeeds).(pc := pc))
  {
    var t := WriteBuffer(s, succeeds).(pc := pc);
    if s.buf != [] {
      assert t.batches[..|t.batches|-1] == s.batches;
    }
    assert Taken(t) == Taken(s);
    forall i | 0 <= i < |t.queue| ensures MarkAt(t, i) {
      assert MarkAt(s, i);
    }
  }

  /** Steps that leave the queue, the buffer and the batches alone leave the marks in the queue alone. */
  lemma SameQueue<T>(s: Store<T>, t: Store<T>)
    requires Marks(s) && t.queue == s.queue && t.buf == s.buf && t.batches == s.batches
    requires t.flushMarks == s.flushMarks && t.stopMark == s.stopMark
    ensures forall i :: 0 <= i < |t.queue| ==> MarkAt(t, i)
  {
    forall i | 0 <= i < |t.queue| ensures MarkAt(t, i) {
      assert MarkAt(s, i);
    }
  }

  /** Steps of the writer or of a sender that move no message. */
  lemma QuietKeeps<T>(s: Store<T>, a: Action<T>)
    requires Inv(s) && Enabled(s, a)
    requires a.SendersGone? || a.RecvDisconnected? || a.DrainEnds? || a.Ack? || (a.Record? && !CanSend(s))
    ensures Inv(Exec(s, a))
  {
    SameQueue(s, Exec(s, a));
  }

  lemma RecvKeeps<T>(s: Store<T>)
    requires Inv(s) && Enabled(s, Recv)
    ensures Inv(Exec(s, Recv))
  {
    var ready := s.(pendingAck := None);
    SameQueue(s, ready);
    TakeKeeps(ready, Draining);
  }

  lemma StepKeepsInvariant<T>(s: Store<T>, a: Action<T>)
    requires Inv(s) && Enabled(s, a)
    ensures Inv(Exec(s, a))
  {
    match a
    case Record(rec) => if CanSend(s) { SendKeeps(s, Row(rec), Exec(s, a)); } else { QuietKeeps(s, a); }
    case SendFlush(ack) => SendKeeps(s, Flush(ack), Exec(s, a));
    case SendStop => SendKeeps(s, Stop, Exec(s, a));
    case Recv => RecvKeeps(s);
    case TryRecv => TakeKeeps(s, if s.queue[0].Row? then Draining else Writing);
    case Write(succeeds) => WriteKeeps(s, succeeds, Acking);
    case LastWrite(succeeds) => WriteKeeps(s, succeeds, Exited);
    case _ => QuietKeeps(s, a);
  }

  // ---------------------------------------------------------------------------------------------
  // Every run
  // ---------------------------------------------------------------------------------------------

  lemma {:induction false} RunKeepsInvariant<T>(s: Store<T>, schedule: seq<Action<T>>)
    requires Inv(s) && Play(s, schedule).Some?
    ensures Inv(Play(s, schedule).value)
    decreases |schedule|
  {
    if schedule != [] {
      StepKeepsInvariant(s, schedule[0]);
      RunKeepsInvariant(Exec(s, schedule[0]), schedule[1..]);
    }
  }

  lemma {:induction false} Reached<T>(capacity: nat, batch: nat, schedule: seq<Action<T>>)
    requires Play(New(capacity, batch), schedule).Some?
    ensures Inv(Play(New(capacity, batch), schedule).value)
  {
    var s: Store<T> := New(capacity, batch);
    assert Concat(s.batches) == [];
    RunKeepsInvariant(s, schedule);
  }

  /**
    Nothing lost, duplicated or reordered: at every instant the batches attempted so far, the writer's
    buffer and the queued rows, in that order, are exactly the accepted rows; and with no failed batch
    the database holds exactly the attempted ones. So each dequeued row is in exactly one batch.
  */
  lemma {:induction false} NothingLostOrReordered<T>(capacity: nat, batch: nat, schedule: seq<Action<T>>)
    requires Play(New(capacity, batch), schedule).Some?
    ensures var s := Play(New(capacity, batch), schedule).value;
      && Concat(s.batches) + s.buf + RowsOf(s.queue) == s.accepted
      && (s.failures == 0 ==> s.db + s.buf + RowsOf(s.queue) == s.accepted)
  {
    Reached(capacity, batch, schedule);
  }

  /** Batches have 1 to `batch` rows, the queue never exceeds its capacity, and every row is counted once. */
  lemma {:induction false} SizesAlwaysBounded<T>(capacity: nat, batch: nat, schedule: seq<Action<T>>)
    requires Play(New(capacity, batch), schedule).Some?
    ensures var s := Play(New(capacity, batch), schedule).value;
      && |s.queue| <= (if capacity == 0 then 1 else capacity) && |s.buf| <= (if batch == 0 then 1 else batch)
      && (forall i :: 0 <= i < |s.batches| ==> 1 <= |s.batches[i]| <= if batch == 0 then 1 else batch)
      && s.recorded == |s.accepted| + s.dropped
  {
    Reached(capacity, batch, schedule);
    SettingsStay<T>(New(capacity, batch), schedule);
  }

  lemma {:induction false} SettingsStay<T>(s: Store<T>, schedule: seq<Action<T>>)
    requires Play(s, schedule).Some?
    ensures Play(s, schedule).value.capacity == s.capacity && Play(s, schedule).value.batch == s.batch
    decreases |schedule|
  {
    if schedule != [] {
      SettingsStay(Exec(s, schedule[0]), schedule[1..]);
    }
  }

  /** A row is dropped exactly if the queue is full or the writer has left; otherwise it joins the end of the queue. */
  lemma {:induction false} RowIsDroppedIff<T>(capacity: nat, batch: nat, schedule: seq<Action<T>>, rec: T)
    requires Play(New(capacity, batch), schedule).Some? && Enabled(Play(New(capacity, batch), schedule).value, Record(rec))
    ensures var s := Play(New(capacity, batch), schedule).value;
      var t := Exec(s, Record(rec));
      if |s.queue| == (if capacity == 0 then 1 else capacity) || s.pc.Exited?
      then t.queue == s.queue && t.accepted == s.accepted && t.dropped == s.dropped + 1
      else t.queue == s.queue + [Row(rec)] && t.accepted == s.accepted + [rec] && t.dropped == s.dropped
  {
    Reached(capacity, batch, schedule);
    SettingsStay<T>(New(capacity, batch), schedule);
  }

  /** An acknowledged flush means that every row accepted before it was sent has been through a batch. */
  lemma {:induction false} FlushAckIsDurable<T>(capacity: nat, batch: nat, schedule: seq<Action<T>>, ack: nat)
    requires Play(New(capacity, batch), schedule).Some?
    requires ack in Play(New(capacity, batch), schedule).value.acked
    ensures var s := Play(New(capacity, batch), schedule).value;
      && ack in s.flushMarks && s.flushMarks[ack] <= |s.accepted|
      && s.accepted[..s.flushMarks[ack]] <= Concat(s.batches)
      && (s.failures == 0 ==> s.accepted[..s.flushMarks[ack]] <= s.db)
  {
    Reached(capacity, batch, schedule);
    var s := Play(New(capacity, batch), schedule).value;
    PrefixOfAccepted(s, s.flushMarks[ack]);
  }

  lemma PrefixOfAccepted<T>(s: Store<T>, n: nat)
    requires Order(s) && n <= |Concat(s.batches)|
    ensures n <= |s.accepted| && s.accepted[..n] <= Concat(s.batches)
  {
    assert s.accepted == Concat(s.batches) + (s.buf + RowsOf(s.queue));
    assert s.accepted[..n] == Concat(s.batches)[..n];
  }

  /**
    When the writer has exited, every row accepted before the stop was sent has been through a batch;
    if no stop made it exit, every accepted row has.
  */
  lemma {:induction false} ExitIsDurable<T>(capacity: nat, batch: nat, schedule: seq<Action<T>>)
    requires Play(New(capacity, batch), schedule).Some?
    requires Play(New(capacity, batch), schedule).value.pc.Exited?
    ensures var s := Play(New(capacity, batch), schedule).value;
      && (s.stop ==> s.stopMark.Some? && s.stopMark.value <= |s.accepted|
                     && s.accepted[..s.stopMark.value] <= Concat(s.batches)
                     && (s.failures == 0 ==> s.accepted[..s.stopMark.value] <= s.db))
      && (!s.stop ==> Concat(s.batches) == s.accepted && (s.failures == 0 ==> s.db == s.accepted))
  {
    Reached(capacity, batch, schedule);
    var s := Play(New(capacity, batch), schedule).value;
    assert Taken(s) == Concat(s.batches);
    if s.stop {
      PrefixOfAccepted(s, s.stopMark.value);
    } else {
      assert RowsOf(s.queue) == [];
    }
  }

  /** The write after the loop never has anything to write: each turn of the loop leaves the buffer empty. */
  lemma {:induction false} LastWriteIsEmpty<T>(capacity: nat, batch: nat, schedule: seq<Action<T>>)
    requires Play(New(capacity, batch), schedule).Some?
    requires Play(New(capacity, batch), schedule).value.pc.FinalWrite?
    ensures Play(New(capacity, batch), schedule).value.buf == []
  {
    Reached(capacity, batch, schedule);
  }
}
