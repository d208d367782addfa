/** The queue between an adapter and the stream bridge: values and waiting readers, first in first out. */
module EventQueue {
  import opened Common

  /** A reader's promise settled with a value, or with "done". */
  datatype Settled<T> = Settled(ticket: nat, result: Option<T>)

  /** `settled` is the log of resolved promises; a ticket numbers each call of `next`. */
  datatype State<T> = State(buffered: seq<T>, waiters: seq<nat>, closed: bool, issued: nat, settled: seq<Settled<T>>)

  datatype Op<T> = Push(value: T) | Close | Next

  function Empty<T>(): State<T> {
    State([], [], false, 0, [])
  }

  function AllDone<T>(waiters: seq<nat>): seq<Settled<T>> {
    if waiters == [] then [] else [Settled(waiters[0], None)] + AllDone(waiters[1..])
  }

  /** Is there room for one more value: a waiting reader, or space in the buffer. */
  predicate Room<T>(s: State<T>, maxBuffered: nat) {
    s.waiters != [] || |s.buffered| < maxBuffered
  }

  function Step<T>(s: State<T>, op: Op<T>, maxBuffered: nat): State<T> {
    match op
    case Push(v) =>
      if s.closed || !Room(s, maxBuffered) then s
      else if s.waiters != [] then
        s.(waiters := s.waiters[1..], settled := s.settled + [Settled(s.waiters[0], Some(v))])
      else s.(buffered := s.buffered + [v])
    case Close =>
      if s.closed then s
      else s.(closed := true, waiters := [], settled := s.settled + AllDone(s.waiters))
    case Next =>
      if s.buffered != [] then
        s.(buffered := s.buffered[1..], issued := s.issued + 1,
           settled := s.settled + [Settled(s.issued, Some(s.buffered[0]))])
      else if s.closed then s.(issued := s.issued + 1, settled := s.settled + [Settled(s.issued, None)])
      else s.(issued := s.issued + 1, waiters := s.waiters + [s.issued])
  }

  function Run<T>(ops: seq<Op<T>>, maxBuffered: nat): State<T> {
    if ops == [] then Empty() else Step(Run(ops[..|ops| - 1], maxBuffered), ops[|ops| - 1], maxBuffered)
  }

  // ---- What a history of calls should give ----

  function Nexts<T>(ops: seq<Op<T>>): nat {
    if ops == [] then 0 else Nexts(ops[..|ops| - 1]) + if ops[|ops| - 1].Next? then 1 else 0
  }

  predicate Closed<T>(ops: seq<Op<T>>) {
    exists i :: 0 <= i < |ops| && ops[i].Close?
  }

  /** The values a history accepts: pushed before the close, with fewer than the bound unread. */
  function Accepted<T>(ops: seq<Op<T>>, maxBuffered: nat): seq<T> {
    if ops == [] then []
    else
      var init, op := ops[..|ops| - 1], ops[|ops| - 1];
      var a := Accepted(init, maxBuffered);
      if op.Push? && !Closed(init) && |a| - Nexts(init) < maxBuffered then a + [op.value] else a
  }

  function Min(a: nat, b: nat): nat {
    if a < b then a else b
  }

  /** The k-th call of `next` gets the k-th accepted value, or "done" once there are none left to come. */
  function Due<T>(k: nat, accepted: seq<T>): Settled<T> {
    Settled(k, if k < |accepted| then Some(accepted[k]) else None)
  }

  ghost predicate InOrder<T>(s: State<T>, accepted: seq<T>, nexts: nat, closed: bool) {
    && s.closed == closed && s.issued == nexts
    && s.buffered == accepted[Min(nexts, |accepted|)..]
    && |s.waiters| == (if closed || nexts < |accepted| then 0 else nexts - |accepted|)
    && (forall i :: 0 <= i < |s.waiters| ==> s.waiters[i] == |accepted| + i)
    && |s.settled| == (if closed then nexts else Min(nexts, |accepted|))
    && (forall k :: 0 <= k < |s.settled| ==> s.settled[k] == Due(k, accepted))
  }

  lemma {:induction false} AllDoneAt<T>(waiters: seq<nat>)
    ensures |AllDone<T>(waiters)| == |waiters|
    ensures forall i :: 0 <= i < |waiters| ==> AllDone<T>(waiters)[i] == Settled(waiters[i], None)
  {
    if waiters != [] {
      AllDoneAt<T>(waiters[1..]);
    }
  }

  lemma {:induction false} ClosedSnoc<T>(ops: seq<Op<T>>)
    requires ops != []
    ensures Closed(ops) <==> Closed(ops[..|ops| - 1]) || ops[|ops| - 1].Close?
  {
    if Closed(ops[..|ops| - 1]) {
      var i :| 0 <= i < |ops| - 1 && ops[..|ops| - 1][i].Close?;
      assert ops[i].Close?;
    }
    if Closed(ops) && !ops[|ops| - 1].Close? {
      var i :| 0 <= i < |ops| && ops[i].Close?;
      assert ops[..|ops| - 1][i].Close?;
    }
  }

  /**
   * After every history the buffer holds the accepted values not yet read, the waiters are the calls no
   * value has reached, and promises settle once each, in call order, with the value of their turn.
   */
  lemma {:induction false} QueueIsFifo<T>(ops: seq<Op<T>>, maxBuffered: nat)
    ensures InOrder(Run(ops, maxBuffered), Accepted(ops, maxBuffered), Nexts(ops), Closed(ops))
  {
    if ops != [] {
      var init, op := ops[..|ops| - 1], ops[|ops| - 1];
      QueueIsFifo(init, maxBuffered);
      ClosedSnoc(ops);
      AllDoneAt<T>(Run(init, maxBuffered).waiters);
      StepKeepsOrder(Run(init, maxBuffered), op, maxBuffered, Accepted(init, maxBuffered), Nexts(init));
    }
  }

  lemma {:induction false} StepKeepsOrder<T>(s: State<T>, op: Op<T>, maxBuffered: nat, a: seq<T>, nexts: nat)
    requires InOrder(s, a, nexts, s.closed)
    ensures InOrder(Step(s, op, maxBuffered),
      if op.Push? && !s.closed && |a| - nexts < maxBuffered then a + [op.value] else a,
      nexts + (if op.Next? then 1 else 0), s.closed || op.Close?)
  {
    AllDoneAt<T>(s.waiters);
  }

  /** Values and waiters never coexist, nothing is lost or duplicated, and every call settles once a close comes. */
  lemma {:induction false} NothingIsLost<T>(ops: seq<Op<T>>, maxBuffered: nat)
    ensures var s, a := Run(ops, maxBuffered), Accepted(ops, maxBuffered);
      && (s.buffered == [] || s.waiters == [])
      && |s.buffered| <= maxBuffered
      && a == Delivered(s.settled) + s.buffered
      && (Closed(ops) ==> s.waiters == [] && |s.settled| == Nexts(ops))
  {
    var s, a := Run(ops, maxBuffered), Accepted(ops, maxBuffered);
    QueueIsFifo(ops, maxBuffered);
    BufferIsBounded(ops, maxBuffered);
    DeliveredInOrder(s.settled, a);
  }

  lemma {:induction false} BufferIsBounded<T>(ops: seq<Op<T>>, maxBuffered: nat)
    ensures |Run(ops, maxBuffered).buffered| <= maxBuffered
  {
    if ops != [] {
      BufferIsBounded(ops[..|ops| - 1], maxBuffered);
    }
  }

  /** The values among the settlements, in settlement order. */
  function Delivered<T>(log: seq<Settled<T>>): seq<T> {
    if log == [] then []
    else
      var last := log[|log| - 1].result;
      Delivered(log[..|log| - 1]) + if last.Some? then [last.value] else []
  }

  lemma {:induction false} DeliveredInOrder<T>(log: seq<Settled<T>>, a: seq<T>)
    requires forall k :: 0 <= k < |log| ==> log[k] == Due(k, a)
    ensures Delivered(log) == a[..Min(|log|, |a|)]
  {
    if log != [] {
      DeliveredInOrder(log[..|log| - 1], a);
    }
  }

  /** A push on an open queue throws exactly when the bound's worth of accepted values is unread. */
  lemma {:induction false} OverflowMeansBacklog<T>(ops: seq<Op<T>>, maxBuffered: nat)
    ensures !Closed(ops) ==>
      (Room(Run(ops, maxBuffered), maxBuffered) <==> |Accepted(ops, maxBuffered)| - Nexts(ops) < maxBuffered)
  {
    QueueIsFifo(ops, maxBuffered);
  }

  // ---- The queue object ----

  class AsyncEventQueue<T> {
    const maxBuffered: nat
    var buffered: seq<T>
    var waiters: seq<nat>
    var closed: bool
    // The next promise; a counter stands for object identity.
    var issued: nat
    ghost var settled: seq<Settled<T>>

    ghost function View(): State<T>
      reads this
    {
      State(buffered, waiters, closed, issued, settled)
    }

    constructor (maxBuffered: nat := 10_000)
      ensures View() == Empty() && this.maxBuffered == maxBuffered
    {
      this.maxBuffered := maxBuffered;
      buffered, waiters, closed, issued, settled := [], [], false, 0, [];
    }

    /** Resolve the oldest waiting reader. */
    method Settle(result: Option<T>)
      requires waiters != []
      modifies this`waiters, this`settled
      ensures waiters == old(waiters)[1..] && settled == old(settled) + [Settled(old(waiters)[0], result)]
    {
      settled := settled + [Settled(waiters[0], result)];
      waiters := waiters[1..];
    }

    method Push(value: T) returns (thrown: bool)
      modifies this`buffered, this`waiters, this`settled
      ensures View() == Step(old(View()), Op.Push(value), maxBuffered)
      ensures thrown <==> !old(closed) && !Room(old(View()), maxBuffered)
    {
      thrown := false;
      if closed {
        return;
      }
      if waiters != [] {
        Settle(Some(value));
        return;
      }
      if |buffered| >= maxBuffered {
        return true;
      }
      buffered := buffered + [value];
    }

    method Close()
      modifies this`closed, this`waiters, this`settled
      ensures View() == Step(old(View()), Op.Close, maxBuffered)
    {
      if closed {
        return;
      }
      closed := true;
      while waiters != []
        invariant closed
        invariant settled + AllDone(waiters) == old(settled) + AllDone(old(waiters))
        decreases |waiters|
      {
        Settle(None);
      }
      assert settled + [] == settled;
    }

    method Next() returns (ticket: nat)
      modifies this`buffered, this`waiters, this`settled, this`issued
      ensures View() == Step(old(View()), Op.Next, maxBuffered) && ticket == old(issued)
    {
      ticket := issued;
      issued := issued + 1;
      if buffered != [] {
        settled := settled + [Settled(ticket, Some(buffered[0]))];
        buffered := buffered[1..];
      } else if closed {
        settled := settled + [Settled(ticket, None)];
      } else {
        waiters := waiters + [ticket];
      }
    }
  }
}
