/**
  The writer thread as the source writes it (crates/moaray-store/src/lib.rs): one loop that blocks for a
  message, drains greedily up to a batch, writes, and acknowledges. What already waits in the queue at
  the start, how many messages arrive before each receive, and which transaction succeeds are inputs.
*/
module UsageWriter {
  import opened Wrappers
  import opened Sequences
  import opened UsageStore
  import opened UsageRuns

  function Min(a: nat, b: nat): nat { if a <= b then a else b }

  /** The receiving end: the messages that wait in the queue, and those still to be sent, in order. */
  class Receiver<T> {
    const capacity: nat
    var queue: seq<Msg<T>>
    var coming: seq<Msg<T>>

    predicate Valid()
      reads this
    {
      1 <= capacity && |queue| <= capacity
    }

    constructor (capacity: nat, queue: seq<Msg<T>>, coming: seq<Msg<T>>)
      requires 1 <= capacity && |queue| <= capacity
      ensures Valid() && this.capacity == capacity && this.queue == queue && this.coming == coming
    {
      this.capacity, this.queue, this.coming := capacity, queue, coming;
    }

    /** How many of `n` messages get in: as many as are left to send and find room. */
    function Admits(n: nat): (a: nat)
      requires Valid()
      reads this
      ensures a <= |coming| && |queue| + a <= capacity
    {
      Min(n, Min(capacity - |queue|, |coming|))
    }

    method Arrive(a: nat)
      requires Valid() && a <= |coming| && |queue| + a <= capacity
      modifies this
      ensures Valid() && queue == old(queue) + old(coming[..a]) && coming == old(coming[a..])
    {
      queue, coming := queue + coming[..a], coming[a..];
    }

    /**
      Blocks for the next message, after `n` more may have arrived; `None` when nothing waits and all
      senders are gone. `a` messages have arrived when it returns.
    */
    method Recv(n: nat) returns (m: Option<Msg<T>>, a: nat)
      requires Valid()
      modifies this
      ensures Valid() && a <= |old(coming)| && |old(queue)| + a <= capacity && coming == old(coming)[a..]
      ensures m.None? <==> old(queue) + old(coming) == []
      ensures m.None? ==> a == 0 && queue == []
      ensures m.Some? ==> [m.value] + queue == old(queue) + old(coming)[..a]
    {
      a := Admits(n);
      if |queue| + a == 0 && coming != [] {
        a := 1;
      }
      Arrive(a);
      if queue == [] {
        return None, a;
      }
      m := Some(queue[0]);
      queue := queue[1..];
    }

    /** Takes the next message only if one waits, after `n` more may have arrived. */
    method TryRecv(n: nat) returns (m: Option<Msg<T>>, a: nat)
      requires Valid()
      modifies this
      ensures Valid() && a == old(Admits(n)) && coming == old(coming)[a..]
      ensures m.None? ==> old(queue) + old(coming)[..a] == [] && queue == []
      ensures m.Some? ==> [m.value] + queue == old(queue) + old(coming)[..a]
    {
      a := Admits(n);
      Arrive(a);
      if queue == [] {
        return None, a;
      }
      m := Some(queue[0]);
      queue := queue[1..];
    }

    /** Of `messages` the first `k` have been taken and the first `p` sent. */
    ghost predicate At(messages: seq<Msg<T>>, k: nat, p: nat)
      reads this
    {
      Valid() && k <= p <= |messages| && queue == messages[k..p] && coming == messages[p..]
    }
  }

  /** Taking one message out of what waits and what arrives. */
  lemma TakenOne<T>(messages: seq<Msg<T>>, k: nat, p: nat, a: nat, m: Msg<T>, queue: seq<Msg<T>>)
    requires k <= p && p + a <= |messages| && [m] + queue == messages[k..p] + messages[p..][..a]
    ensures k < p + a && m == messages[k] && queue == messages[k+1..p+a] && messages[p..][a..] == messages[p+a..]
  {
    assert messages[k..p] + messages[p..][..a] == messages[k..p+a];
    assert ([m] + queue)[0] == m && ([m] + queue)[1..] == queue;
    assert messages[k..p+a][1..] == messages[k+1..p+a];
  }

  class Connection<T> {
    var rows: seq<T>

    constructor ()
      ensures rows == []
    {
      rows := [];
    }

    /** One transaction: all rows or none. */
    method FlushBatch(batch: seq<T>, succeeds: bool)
      modifies this
      ensures rows == if succeeds then old(rows) + batch else old(rows)
    {
      if succeeds {
        rows := rows + batch;
      }
    }
  }

  /** The rows of the batches whose transaction succeeded. */
  function Kept<T>(batches: seq<seq<T>>, ok: nat -> bool): seq<T> {
    if batches == [] then []
    else Kept(batches[..|batches|-1], ok) + (if ok(|batches|-1) then batches[|batches|-1] else [])
  }

  lemma {:induction false} AllKept<T>(batches: seq<seq<T>>, ok: nat -> bool)
    requires forall i :: 0 <= i < |batches| ==> ok(i)
    ensures Kept(batches, ok) == Concat(batches)
  {
    if batches != [] {
      AllKept(batches[..|batches|-1], ok);
    }
  }

  lemma {:induction false} KeptMore<T>(batches: seq<seq<T>>, b: seq<T>, ok: nat -> bool)
    ensures Kept(batches + [b], ok) == Kept(batches, ok) + (if ok(|batches|) then b else [])
    ensures Concat(batches + [b]) == Concat(batches) + b
  {
    assert (batches + [b])[..|batches|] == batches;
  }

  /** What the database holds after one more turn. */
  lemma StoredNext<T>(base: seq<T>, batches: seq<seq<T>>, b: seq<T>, ok: nat -> bool)
    ensures var all, more := if b == [] then batches else batches + [b], if ok(|batches|) then b else [];
      Kept(all, ok) == Kept(batches, ok) + more && (base + Kept(batches, ok)) + more == base + Kept(all, ok)
  {
    KeptMore(batches, b, ok);
    Regroup(base, Kept(batches, ok), if ok(|batches|) then b else []);
  }

  /** What the writer knows after taking one more message. */
  lemma OneMore<T>(messages: seq<Msg<T>>, k: nat)
    requires k < |messages|
    ensures messages[k..][1..] == messages[k+1..]
    ensures RowsOf(messages[..k+1]) == RowsOf(messages[..k]) + (if messages[k].Row? then [messages[k].rec] else [])
  {
    assert messages[..k+1] == messages[..k] + [messages[k]];
    RowsOfConcat(messages[..k], [messages[k]]);
    assert [messages[k]][1..] == [];
  }

  /** Each acknowledgement answered a flush consumed by then, with everything consumed by then written. */
  ghost predicate AcksSound<T>(messages: seq<Msg<T>>, acks: seq<nat>, ackedAt: seq<nat>, k: nat, written: seq<T>)
    requires k <= |messages|
  {
    && |ackedAt| == |acks|
    && forall i :: 0 <= i < |acks| ==>
      ackedAt[i] <= k && Flush(acks[i]) in messages[..ackedAt[i]] && RowsOf(messages[..ackedAt[i]]) <= written
  }

  /** What the loop has achieved after consuming `k` messages, between two turns. */
  ghost predicate Progress<T>(
    messages: seq<Msg<T>>, k: nat, batches: seq<seq<T>>, batch: nat, acks: seq<nat>, ackedAt: seq<nat>)
  {
    && k <= |messages|
    && Concat(batches) == RowsOf(messages[..k])
    && (forall i :: 0 <= i < |batches| ==> 1 <= |batches[i]| <= batch)
    && AcksSound(messages, acks, ackedAt, k, Concat(batches))
  }

  lemma ProgressGrows<T>(
    messages: seq<Msg<T>>, k: nat, batches: seq<seq<T>>, batch: nat, acks: seq<nat>, ackedAt: seq<nat>,
    buf: seq<T>, k2: nat, ack: Option<nat>, ok: nat -> bool)
    requires Progress(messages, k, batches, batch, acks, ackedAt) && k <= k2 <= |messages| && |buf| <= batch
    requires Concat(batches) + buf == RowsOf(messages[..k2])
    requires ack.Some? ==> Flush(ack.value) in messages[..k2]
    ensures var all := if buf == [] then batches else batches + [buf];
      && Progress(messages, k2, all, batch, if ack.Some? then acks + [ack.value] else acks, if ack.Some? then ackedAt + [k2] else ackedAt)
      && Kept(all, ok) == Kept(batches, ok) + (if ok(|batches|) then buf else [])
  {
    KeptMore(batches, buf, ok);
    var all := if buf == [] then batches else batches + [buf];
    assert Concat(all) == RowsOf(messages[..k2]);
    forall i | 0 <= i < |acks| ensures RowsOf(messages[..ackedAt[i]]) <= Concat(all) {
      assert RowsOf(messages[..ackedAt[i]]) <= Concat(batches) <= Concat(all);
    }
  }

  lemma {:induction false} NothingYet<T>(messages: seq<Msg<T>>, capacity: nat, batch: nat)
    ensures var start: Store<T> := New(capacity, batch);
      && Tracks(start, Trace([], start), messages, 0, 0, Locals([], false, None), Deeds([], [], []))
      && start.pc.Receiving?
    ensures Progress(messages, 0, [], batch, [], [])
  {
    assert messages[..0] == [] && messages[0..0] == [];
  }

  /** The store with the messages in the queue that wait there at the start. */
  lemma {:induction false} Prefilled<T>(messages: seq<Msg<T>>, capacity: nat, batch: nat, p: nat) returns (tr: Trace<T>)
    requires WellSent(messages) && p <= |messages| && p <= capacity
    ensures Tracks(New(capacity, batch), tr, messages, 0, p, Locals([], false, None), Deeds([], [], []))
    ensures tr.end.pc.Receiving?
  {
    hide Tracks, WellSent;
    NothingYet(messages, capacity, batch);
    var start: Store<T> := New(capacity, batch);
    tr := SendSteps(start, Trace([], start), messages, 0, 0, p, Locals([], false, None), Deeds([], [], []));
  }

  /**
    The loop consumes some first `k` messages, of those that waited at the start and those that came
    later: all of them, or up to and possibly beyond the stop. Its batches hold exactly the rows among
    those, in order, each batch of 1 to `batch` rows; the database gains the batches that succeeded; and
    every acknowledgement answers a flush among the messages consumed by the time it was sent, when
    nothing consumed was still unwritten. If every flush has a channel of its own and the stop is sent
    once, all this is a run of the usage store, from any queue to the one left behind.
  */
  method WriterLoop<T>(conn: Connection<T>, rx: Receiver<T>, batch: nat, arrivals: nat -> nat, ok: nat -> bool)
    returns (ghost k: nat, ghost p: nat, ghost d: Deeds<T>, acks: seq<nat>, ghost ackedAt: seq<nat>, ghost tr: Trace<T>)
    requires batch >= 1 && rx.Valid()
    modifies conn, rx
    ensures Progress(old(rx.queue + rx.coming), k, d.batches, batch, acks, ackedAt)
    ensures rx.At(old(rx.queue + rx.coming), k, p)
    ensures k == |old(rx.queue + rx.coming)| || Stop in old(rx.queue + rx.coming)[..k]
    ensures d.db == Kept(d.batches, ok) && conn.rows == old(conn.rows) + d.db && d.acks == acks
    ensures WellSent(old(rx.queue + rx.coming)) ==>
      tr.end.pc.Exited? && Departs(New(rx.capacity, batch), tr, old(rx.queue + rx.coming), k, p, d)
  {
    hide Tracks, Departs, Kept, AcksSound, New, WellSent;
    ghost var messages := rx.queue + rx.coming;
    ghost var start: Store<T> := New(rx.capacity, batch);
    assert start.batch == batch && start.capacity == rx.capacity by {
      Sized<T>(rx.capacity, batch);
    }
    var buf: seq<T> := [];
    var stop := false;
    var polls, writes := 0, 0;
    acks, ackedAt, d, k, p := [], [], Deeds([], [], []), 0, |rx.queue|;
    tr := Trace([], start);
    NothingYet(messages, rx.capacity, batch);
    NothingKept<T>(ok);
    if WellSent(messages) {
      tr := Prefilled(messages, rx.capacity, batch, p);
    }
    ghost var gone := false;
    while !stop
      invariant Progress(messages, k, d.batches, batch, acks, ackedAt)
      invariant rx.At(messages, k, p) && buf == [] && writes == |d.batches|
      invariant stop ==> Stop in messages[..k]
      invariant d.db == Kept(d.batches, ok) && conn.rows == old(conn.rows) + d.db && d.acks == acks
      invariant WellSent(messages) ==>
        Tracks(start, tr, messages, k, p, Locals([], stop, None), d) && tr.end.pc == if stop then FinalWrite else Receiving
      decreases |messages| - k, !stop
    {
      ghost var was, done := k, d;
      var pendingAck, left;
      left, buf, stop, pendingAck, polls, k, p, tr := Gather(rx, batch, arrivals, polls, messages, k, p, Concat(d.batches), start, tr, d);
      if left {
        gone := true;
        break;
      }
      ProgressGrows(messages, was, d.batches, batch, acks, ackedAt, buf, k, pendingAck, ok);
      if WellSent(messages) {
        tr := SettleStep(start, tr, messages, k, p, Locals(buf, stop, pendingAck), d, ok(writes));
      }
      d := Acked(Wrote(d, buf, ok(writes)), pendingAck);
      StoredNext(old(conn.rows), done.batches, buf, ok);
      if buf != [] {
        conn.FlushBatch(buf, ok(writes));
        writes := writes + 1;
        buf := [];
      }
      if pendingAck.Some? {
        acks := acks + [pendingAck.value];
        ackedAt := ackedAt + [k];
      }
    }
    if WellSent(messages) {
      if gone {
        tr := DisconnectStep(start, tr, messages, k, d);
      } else {
        StoppedDeparts(start, tr, messages, k, p, d);
      }
      tr := LastStep(start, tr, messages, k, p, d, ok(writes));
    }
    FinalDrain(conn, buf, ok(writes));
  }

  lemma NothingKept<T>(ok: nat -> bool)
    ensures var none: seq<seq<T>> := []; Kept(none, ok) == []
  {
  }

  lemma Sized<T>(capacity: nat, batch: nat)
    requires capacity >= 1 && batch >= 1
    ensures New<T>(capacity, batch).batch == batch && New<T>(capacity, batch).capacity == capacity
  {
  }

  /** The write after the loop, of what is left in the buffer. */
  method FinalDrain<T>(conn: Connection<T>, buf: seq<T>, succeeds: bool)
    modifies conn
    ensures conn.rows == if buf != [] && succeeds then old(conn.rows) + buf else old(conn.rows)
  {
    if buf != [] {
      conn.FlushBatch(buf, succeeds);
    }
  }

  /** The first half of a turn: block for one message, then drain. `left` when there is none to come. */
  method Gather<T>(
    rx: Receiver<T>, batch: nat, arrivals: nat -> nat, polls0: nat,
    ghost messages: seq<Msg<T>>, ghost k0: nat, ghost p0: nat, ghost before: seq<T>,
    ghost start: Store<T>, ghost tr0: Trace<T>, ghost d: Deeds<T>)
    returns (left: bool, buf: seq<T>, stop: bool, pendingAck: Option<nat>, polls: nat, ghost k: nat, ghost p: nat, ghost tr: Trace<T>)
    requires batch >= 1 && rx.At(messages, k0, p0) && before == RowsOf(messages[..k0])
    requires start.batch == batch && start.capacity == rx.capacity
    requires WellSent(messages) ==> tr0.end.pc.Receiving? && Tracks(start, tr0, messages, k0, p0, Locals([], false, None), d)
    modifies rx
    ensures k0 <= k && p0 <= p && rx.At(messages, k, p) && |buf| <= batch
    ensures before + buf == RowsOf(messages[..k])
    ensures stop ==> Stop in messages[..k]
    ensures pendingAck.Some? ==> Flush(pendingAck.value) in messages[..k]
    ensures left ==> k == k0 == p == p0 == |messages| && buf == [] && !stop && tr == tr0
    ensures !left ==> k0 < k
    ensures WellSent(messages) && !left ==>
      tr.end.pc.Writing? && Tracks(start, tr, messages, k, p, Locals(buf, stop, pendingAck), d)
  {
    hide Tracks, Taking, WellSent, RowsOf, New;
    buf, stop, pendingAck, polls, k, p, tr := [], false, None, polls0 + 1, k0, p0, tr0;
    var first, a := rx.Recv(arrivals(polls0));
    left := first.None?;
    if left {
      return;
    }
    TakenOne(messages, k, p, a, first.value, rx.queue);
    OneMore(messages, k);
    if WellSent(messages) {
      tr := SendSteps(start, tr, messages, k, p, a, Locals([], false, None), d);
      tr := RecvStep(start, tr, messages, k, p + a, d);
      TakingMeans(Locals([], false, None), messages[k]);
    }
    k, p := k + 1, p + a;
    assert rx.At(messages, k, p);
    match first.value {
      case Row(rec) => buf := buf + [rec];
      case Flush(ack) => pendingAck := Some(ack);
      case Stop => stop := true;
    }
    buf, stop, pendingAck, polls, k, p, tr :=
      Drain(rx, batch, arrivals, polls, buf, stop, pendingAck, messages, k, p, before, start, tr, d);
  }

  /** The greedy drain: what waits, up to the batch size, ending at a flush or the stop. */
  method Drain<T>(
    rx: Receiver<T>, batch: nat, arrivals: nat -> nat, polls0: nat, buf0: seq<T>, stop0: bool, ack0: Option<nat>,
    ghost messages: seq<Msg<T>>, ghost k0: nat, ghost p0: nat, ghost before: seq<T>,
    ghost start: Store<T>, ghost tr0: Trace<T>, ghost d: Deeds<T>)
    returns (buf: seq<T>, stop: bool, pendingAck: Option<nat>, polls: nat, ghost k: nat, ghost p: nat, ghost tr: Trace<T>)
    requires rx.At(messages, k0, p0) && |buf0| <= batch
    requires before + buf0 == RowsOf(messages[..k0])
    requires stop0 ==> Stop in messages[..k0]
    requires ack0.Some? ==> Flush(ack0.value) in messages[..k0]
    requires start.batch == batch && start.capacity == rx.capacity
    requires WellSent(messages) ==> tr0.end.pc.Draining? && Tracks(start, tr0, messages, k0, p0, Locals(buf0, stop0, ack0), d)
    modifies rx
    ensures k0 <= k && p0 <= p && rx.At(messages, k, p) && |buf| <= batch
    ensures before + buf == RowsOf(messages[..k])
    ensures stop ==> Stop in messages[..k]
    ensures pendingAck.Some? ==> Flush(pendingAck.value) in messages[..k]
    ensures WellSent(messages) ==>
      tr.end.pc.Writing? && Tracks(start, tr, messages, k, p, Locals(buf, stop, pendingAck), d)
  {
    hide Tracks, Taking, WellSent, RowsOf;
    buf, stop, pendingAck, polls, k, p, tr := buf0, stop0, ack0, polls0, k0, p0, tr0;
    while |buf| < batch
      invariant k0 <= k && p0 <= p && rx.At(messages, k, p) && |buf| <= batch
      invariant before + buf == RowsOf(messages[..k])
      invariant stop ==> Stop in messages[..k]
      invariant pendingAck.Some? ==> Flush(pendingAck.value) in messages[..k]
      invariant WellSent(messages) ==>
        tr.end.pc.Draining? && Tracks(start, tr, messages, k, p, Locals(buf, stop, pendingAck), d)
      decreases |messages| - k
    {
      var m, a := rx.TryRecv(arrivals(polls));
      polls := polls + 1;
      if m.None? {
        break;
      }
      TakenOne(messages, k, p, a, m.value, rx.queue);
      OneMore(messages, k);
      if WellSent(messages) {
        tr := SendSteps(start, tr, messages, k, p, a, Locals(buf, stop, pendingAck), d);
        tr := PollStep(start, tr, messages, k, p + a, Locals(buf, stop, pendingAck), d);
        TakingMeans(Locals(buf, stop, pendingAck), messages[k]);
      }
      k, p := k + 1, p + a;
      match m.value {
        case Row(rec) => buf := buf + [rec];
        case Flush(ack) =>
          pendingAck := Some(ack);
          break;
        case Stop =>
          stop := true;
          break;
      }
    }
    if WellSent(messages) && tr.end.pc.Draining? {
      tr := DrainedStep(start, tr, messages, k, p, Locals(buf, stop, pendingAck), d);
    }
  }
}
