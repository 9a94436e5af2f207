/**
  The moves of the writer loop as steps of the usage store. Messages are sent whenever they are, at the
  latest before they are taken: `k` of them have been taken, `p` have been sent, the rest of those wait.
*/
module UsageRuns {
  import opened Wrappers
  import opened UsageStore

  /** Flushes wait on channels of their own, and the stop is sent once. */
  ghost predicate WellSent<T>(messages: seq<Msg<T>>) {
    forall i, j :: 0 <= i < j < |messages| && !messages[i].Row? ==> messages[i] != messages[j]
  }

  /** A schedule together with where it leads. */
  datatype Trace<T> = Trace(run: seq<Action<T>>, end: Store<T>)
  {
    ghost predicate Follows(start: Store<T>) { Play(start, run) == Some(end) }
  }

  lemma {:induction false} PlayAppend<T>(start: Store<T>, run: seq<Action<T>>, a: Action<T>)
    requires Play(start, run).Some? && Enabled(Play(start, run).value, a)
    ensures Play(start, run + [a]) == Some(Exec(Play(start, run).value, a))
    decreases |run|
  {
    hide Enabled, Exec;
    if run == [] {
      assert run + [a] == [a] && [a][1..] == [];
    } else {
      assert (run + [a])[1..] == run[1..] + [a];
      PlayAppend(Exec(start, run[0]), run[1..], a);
    }
  }

  function Extend<T>(tr: Trace<T>, a: Action<T>): Trace<T>
    requires Enabled(tr.end, a)
  {
    Trace(tr.run + [a], Exec(tr.end, a))
  }

  lemma ExtendFollows<T>(start: Store<T>, tr: Trace<T>, a: Action<T>)
    requires tr.Follows(start) && Enabled(tr.end, a)
    ensures Extend(tr, a).Follows(start)
  {
    hide Enabled, Exec;
    PlayAppend(start, tr.run, a);
  }

  function SendOf<T>(m: Msg<T>): Action<T> {
    match m
    case Row(rec) => Record(rec)
    case Flush(ack) => SendFlush(ack)
    case Stop => SendStop
  }

  /** What a message puts into the buffer. */
  function RowsIn<T>(m: Msg<T>): seq<T> { if m.Row? then [m.rec] else [] }

  function AckOf<T>(m: Msg<T>, before: Option<nat>): Option<nat> { if m.Flush? then Some(m.ack) else before }

  /** The writer's local variables. */
  datatype Locals<T> = Locals(buf: seq<T>, stop: bool, pendingAck: Option<nat>)

  function Taking<T>(l: Locals<T>, m: Msg<T>): Locals<T> {
    Locals(l.buf + RowsIn(m), l.stop || m.Stop?, AckOf(m, l.pendingAck))
  }

  lemma TakingMeans<T>(l: Locals<T>, m: Msg<T>)
    ensures Taking(l, m) ==
      match m
      case Row(rec) => l.(buf := l.buf + [rec])
      case Flush(ack) => l.(pendingAck := Some(ack))
      case Stop => l.(stop := true)
  {
    assert l.buf + [] == l.buf;
  }

  /** What the writer has done for the world. */
  datatype Deeds<T> = Deeds(batches: seq<seq<T>>, db: seq<T>, acks: seq<nat>)

  /** What the store records of the first `k` messages having been sent. */
  ghost predicate Records<T>(s: Store<T>, messages: seq<Msg<T>>, k: nat) {
    && k <= |messages| && s.accepted == RowsOf(messages[..k])
    && (forall a :: a in s.flushMarks <==> Flush(a) in messages[..k])
    && (s.stopMark.Some? <==> Stop in messages[..k])
  }

  /** The store is where the writer is: the first `p` messages sent, the first `k` taken, the others waiting. */
  ghost predicate Attuned<T>(s: Store<T>, messages: seq<Msg<T>>, k: nat, p: nat, l: Locals<T>, d: Deeds<T>) {
    && k <= p <= |messages| && s.queue == messages[k..p] && s.open
    && Records(s, messages, p)
    && s.buf == l.buf && s.stop == l.stop && s.pendingAck == l.pendingAck
    && s.batches == d.batches && s.db == d.db && (forall a :: a in s.acked <==> a in d.acks)
  }

  /** The next message has not been sent before. */
  lemma CanSendNext<T>(s: Store<T>, messages: seq<Msg<T>>, p: nat)
    requires WellSent(messages) && p < |messages| && Records(s, messages, p) && CanSend(s)
    ensures Enabled(s, SendOf(messages[p]))
  {
    var m := messages[p];
    if !m.Row? {
      forall i | 0 <= i < p ensures messages[..p][i] != m {
        assert messages[i] == messages[..p][i];
      }
      assert m !in messages[..p];
    }
  }

  lemma {:induction false} SentIsRecorded<T>(s: Store<T>, messages: seq<Msg<T>>, p: nat)
    requires p < |messages| && Records(s, messages, p) && Enabled(s, SendOf(messages[p])) && CanSend(s)
    ensures var t := Exec(s, SendOf(messages[p]));
      && Records(t, messages, p + 1)
      && t == s.(queue := s.queue + [messages[p]], accepted := t.accepted, recorded := t.recorded,
                 flushMarks := t.flushMarks, stopMark := t.stopMark)
  {
    var m := messages[p];
    assert messages[..p+1] == messages[..p] + [m];
    RowsOfConcat(messages[..p], [m]);
    assert [m][1..] == [];
    assert RowsOf([m]) == RowsIn(m);
  }

  /** The trace has brought the store to where the writer is. */
  ghost predicate Tracks<T>(
    start: Store<T>, tr: Trace<T>, messages: seq<Msg<T>>, k: nat, p: nat, l: Locals<T>, d: Deeds<T>)
  {
    && tr.Follows(start) && tr.end.batch == start.batch && tr.end.capacity == start.capacity
    && Attuned(tr.end, messages, k, p, l, d)
  }

  /** Another message arrives while there is room in the queue. */
  lemma SendStep<T>(start: Store<T>, tr: Trace<T>, messages: seq<Msg<T>>, k: nat, p: nat, l: Locals<T>, d: Deeds<T>) returns (next: Trace<T>)
    requires WellSent(messages) && p < |messages| && !tr.end.pc.Exited?
    requires k <= p < k + start.capacity && Tracks(start, tr, messages, k, p, l, d)
    ensures Tracks(start, next, messages, k, p + 1, l, d) && next.end.pc == tr.end.pc
  {
    hide Records;
    CanSendNext(tr.end, messages, p);
    SentIsRecorded(tr.end, messages, p);
    ExtendFollows(start, tr, SendOf(messages[p]));
    next := Extend(tr, SendOf(messages[p]));
    assert messages[k..p+1] == messages[k..p] + [messages[p]];
  }

  /** `n` of them arrive. */
  lemma {:induction false} SendSteps<T>(
    start: Store<T>, tr: Trace<T>, messages: seq<Msg<T>>, k: nat, p: nat, n: nat, l: Locals<T>, d: Deeds<T>) returns (next: Trace<T>)
    requires WellSent(messages) && p + n <= |messages| && !tr.end.pc.Exited?
    requires k <= p && p + n <= k + start.capacity && Tracks(start, tr, messages, k, p, l, d)
    ensures Tracks(start, next, messages, k, p + n, l, d) && next.end.pc == tr.end.pc
    decreases n
  {
    hide Tracks, WellSent;
    if n == 0 {
      next := tr;
    } else {
      next := SendSteps(start, tr, messages, k, p, n - 1, l, d);
      next := SendStep(start, next, messages, k, p + n - 1, l, d);
    }
  }

  /** A waiting message is received by the blocking call. */
  lemma RecvStep<T>(start: Store<T>, tr: Trace<T>, messages: seq<Msg<T>>, k: nat, p: nat, d: Deeds<T>) returns (next: Trace<T>)
    requires tr.end.pc.Receiving? && k < p <= |messages| && Tracks(start, tr, messages, k, p, Locals([], false, None), d)
    ensures Tracks(start, next, messages, k + 1, p, Taking(Locals([], false, None), messages[k]), d) && next.end.pc.Draining?
  {
    hide Records;
    assert messages[k..p][0] == messages[k] && messages[k..p][1..] == messages[k+1..p];
    ExtendFollows(start, tr, Recv);
    next := Extend(tr, Recv);
    assert [] + RowsIn(messages[k]) == RowsIn(messages[k]);
    TakenIsRecorded(tr.end, next.end, messages, p);
  }

  /** Records speak of what was sent, not of what the writer does with it. */
  lemma TakenIsRecorded<T>(s: Store<T>, t: Store<T>, messages: seq<Msg<T>>, k: nat)
    requires Records(s, messages, k) && t.accepted == s.accepted && t.flushMarks == s.flushMarks && t.stopMark == s.stopMark
    ensures Records(t, messages, k)
  {
  }

  /** A waiting message is found by the poll. */
  lemma PollStep<T>(start: Store<T>, tr: Trace<T>, messages: seq<Msg<T>>, k: nat, p: nat, l: Locals<T>, d: Deeds<T>) returns (next: Trace<T>)
    requires tr.end.pc.Draining? && k < p <= |messages| && |l.buf| < start.batch && Tracks(start, tr, messages, k, p, l, d)
    ensures Tracks(start, next, messages, k + 1, p, Taking(l, messages[k]), d)
    ensures next.end.pc == if messages[k].Row? then Draining else Writing
  {
    hide Records;
    ExtendFollows(start, tr, TryRecv);
    next := Extend(tr, TryRecv);
    assert messages[k..p][1..] == messages[k+1..p];
    TakenIsRecorded(tr.end, next.end, messages, p);
  }

  /** Nothing is waiting, or the buffer is full. */
  lemma DrainedStep<T>(start: Store<T>, tr: Trace<T>, messages: seq<Msg<T>>, k: nat, p: nat, l: Locals<T>, d: Deeds<T>) returns (next: Trace<T>)
    requires tr.end.pc.Draining? && (k == p || |l.buf| >= start.batch) && Tracks(start, tr, messages, k, p, l, d)
    ensures Tracks(start, next, messages, k, p, l, d) && next.end.pc.Writing?
  {
    ExtendFollows(start, tr, DrainEnds);
    next := Extend(tr, DrainEnds);
  }

  function Wrote<T>(d: Deeds<T>, buf: seq<T>, succeeds: bool): Deeds<T> {
    if buf == [] then d else Deeds(d.batches + [buf], if succeeds then d.db + buf else d.db, d.acks)
  }

  function Acked<T>(d: Deeds<T>, ack: Option<nat>): Deeds<T> {
    if ack.None? then d else d.(acks := d.acks + [ack.value])
  }

  /** The second half of a turn: write, acknowledge, and go on or leave. */
  lemma SettleStep<T>(
    start: Store<T>, tr: Trace<T>, messages: seq<Msg<T>>, k: nat, p: nat, l: Locals<T>, d: Deeds<T>, succeeds: bool)
    returns (next: Trace<T>)
    requires tr.end.pc.Writing? && Tracks(start, tr, messages, k, p, l, d)
    ensures Tracks(start, next, messages, k, p, Locals([], l.stop, None), Acked(Wrote(d, l.buf, succeeds), l.pendingAck))
    ensures next.end.pc == if l.stop then FinalWrite else Receiving
  {
    ExtendFollows(start, tr, Write(succeeds));
    var written := Extend(tr, Write(succeeds));
    ExtendFollows(start, written, Ack);
    next := Extend(written, Ack);
  }

  /** What is known of the store once the writer has left its loop. */
  ghost predicate Left<T>(s: Store<T>, messages: seq<Msg<T>>, k: nat, p: nat, d: Deeds<T>) {
    && k <= p <= |messages| && Records(s, messages, p) && s.queue == messages[k..p] && s.buf == []
    && s.batches == d.batches && s.db == d.db && (forall a :: a in s.acked <==> a in d.acks)
  }

  /** The trace has brought the store to where the writer left it, at the write after the loop or beyond. */
  ghost predicate Departs<T>(start: Store<T>, tr: Trace<T>, messages: seq<Msg<T>>, k: nat, p: nat, d: Deeds<T>) {
    tr.Follows(start) && Left(tr.end, messages, k, p, d)
  }

  lemma StoppedDeparts<T>(start: Store<T>, tr: Trace<T>, messages: seq<Msg<T>>, k: nat, p: nat, d: Deeds<T>)
    requires Tracks(start, tr, messages, k, p, Locals([], true, None), d)
    ensures Departs(start, tr, messages, k, p, d)
  {
  }

  /** Nothing is waiting, the senders are gone, and so is the writer. */
  lemma DisconnectStep<T>(start: Store<T>, tr: Trace<T>, messages: seq<Msg<T>>, k: nat, d: Deeds<T>) returns (next: Trace<T>)
    requires tr.end.pc.Receiving? && Tracks(start, tr, messages, k, k, Locals([], false, None), d)
    ensures Departs(start, next, messages, k, k, d) && next.end.pc.FinalWrite?
  {
    ExtendFollows(start, tr, SendersGone);
    var gone := Extend(tr, SendersGone);
    ExtendFollows(start, gone, RecvDisconnected);
    next := Extend(gone, RecvDisconnected);
  }

  /** The write after the loop. */
  lemma LastStep<T>(start: Store<T>, tr: Trace<T>, messages: seq<Msg<T>>, k: nat, p: nat, d: Deeds<T>, succeeds: bool) returns (next: Trace<T>)
    requires tr.end.pc.FinalWrite? && Departs(start, tr, messages, k, p, d)
    ensures Departs(start, next, messages, k, p, d) && next.end.pc.Exited?
  {
    ExtendFollows(start, tr, LastWrite(succeeds));
    next := Extend(tr, LastWrite(succeeds));
  }
}
