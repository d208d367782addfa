/** The gate that holds requests while the runtime drains, and the promises it settles. */
module DrainGates {
  import opened Common

  datatype Outcome = Resumed | TimedOut | ShutDown | Aborted

  /** A wait that came to an end. */
  datatype Settled = Settled(waiter: nat, outcome: Outcome)

  /** The waiters in the order they came, and every settlement so far. */
  datatype Gate = Gate(draining: bool, closed: bool, waiters: seq<nat>, settled: seq<Settled>)

  const OPEN: Gate := Gate(false, false, [], [])

  predicate Increasing(s: seq<nat>) {
    forall i, j :: 0 <= i < j < |s| ==> s[i] < s[j]
  }

  function Without(s: seq<nat>, x: nat): (r: seq<nat>)
    ensures forall y :: y in r <==> y in s && y != x
    ensures Increasing(s) ==> Increasing(r)
  {
    if s == [] then []
    else
      var r := Without(s[1..], x);
      assert s == [s[0]] + s[1..];
      assert Increasing(s) ==> Increasing(s[1..]) && forall y :: y in s[1..] ==> s[0] < y;
      assert forall i :: 0 <= i < |r| ==> r[i] in s[1..];
      if s[0] == x then r else [s[0]] + r
  }

  function Each(waiters: seq<nat>, outcome: Outcome): (r: seq<Settled>)
    ensures |r| == |waiters|
  {
    seq(|waiters|, i requires 0 <= i < |waiters| => Settled(waiters[i], outcome))
  }

  function Drained(g: Gate): Gate {
    g.(draining := true)
  }

  function Resume(g: Gate): Gate {
    if g.closed then g else Gate(false, false, [], g.settled + Each(g.waiters, Resumed))
  }

  function Close(g: Gate): Gate {
    Gate(true, true, [], g.settled + Each(g.waiters, ShutDown))
  }

  /** What a wait comes to at once; `None` when it has to wait. */
  function AtOnce(g: Gate, aborted: bool): Option<Outcome> {
    if g.closed then Some(ShutDown)
    else if !g.draining then Some(Resumed)
    else if aborted then Some(Aborted)
    else None
  }

  function Wait(g: Gate, waiter: nat, aborted: bool): Gate {
    match AtOnce(g, aborted)
    case Some(outcome) => g.(settled := g.settled + [Settled(waiter, outcome)])
    case None => g.(waiters := g.waiters + [waiter])
  }

  /** A timer or an abort ends a wait that is still on. */
  function Finish(g: Gate, waiter: nat, outcome: Outcome): Gate {
    if waiter in g.waiters
    then g.(waiters := Without(g.waiters, waiter), settled := g.settled + [Settled(waiter, outcome)])
    else g
  }

  lemma {:induction false} FirstOut(s: seq<nat>)
    requires s != [] && Increasing(s)
    ensures Without(s, s[0]) == s[1..]
  {
    NotThere(s[1..], s[0]);
  }

  lemma {:induction false} NotThere(s: seq<nat>, x: nat)
    requires x !in s
    ensures Without(s, x) == s
  {
    if s != [] {
      NotThere(s[1..], x);
    }
  }

  // ---- Runs of the gate ----

  datatype Op = ToDrain | ToResume | ToClose | ToWait(aborted: bool) | ToTimeOut(waiter: nat) | ToAbort(waiter: nat)

  /** The gate and the number of waits begun, which names the next one. */
  datatype State = State(gate: Gate, begun: nat)

  function Step(s: State, op: Op): State {
    match op
    case ToDrain => s.(gate := Drained(s.gate))
    case ToResume => s.(gate := Resume(s.gate))
    case ToClose => s.(gate := Close(s.gate))
    case ToWait(aborted) => State(Wait(s.gate, s.begun, aborted), s.begun + 1)
    case ToTimeOut(waiter) => s.(gate := Finish(s.gate, waiter, TimedOut))
    case ToAbort(waiter) => s.(gate := Finish(s.gate, waiter, Aborted))
  }

  function Run(s: State, ops: seq<Op>): State {
    if ops == [] then s else Step(Run(s, ops[..|ops| - 1]), ops[|ops| - 1])
  }

  const START: State := State(OPEN, 0)

  ghost predicate SettledOnce(settled: seq<Settled>) {
    forall i, j :: 0 <= i < j < |settled| ==> settled[i].waiter != settled[j].waiter
  }

  ghost predicate HasSettled(settled: seq<Settled>, waiter: nat) {
    exists i :: 0 <= i < |settled| && settled[i].waiter == waiter
  }

  /** Only a draining gate that is not shut down holds waiters; every wait is on or settled, once. */
  ghost predicate Sound(s: State) {
    && Increasing(s.gate.waiters)
    && (s.gate.waiters != [] ==> s.gate.draining && !s.gate.closed)
    && (s.gate.closed ==> s.gate.draining)
    && SettledOnce(s.gate.settled)
    && (forall w :: w in s.gate.waiters ==> w < s.begun && !HasSettled(s.gate.settled, w))
    && (forall i :: 0 <= i < |s.gate.settled| ==> s.gate.settled[i].waiter < s.begun)
    && (forall w: nat :: w < s.begun ==> w in s.gate.waiters || HasSettled(s.gate.settled, w))
  }

  lemma {:induction false} SettleOne(settled: seq<Settled>, one: Settled)
    requires SettledOnce(settled) && !HasSettled(settled, one.waiter)
    ensures SettledOnce(settled + [one])
    ensures forall w :: HasSettled(settled + [one], w) <==> HasSettled(settled, w) || w == one.waiter
  {
    var all := settled + [one];
    forall w ensures HasSettled(all, w) <==> HasSettled(settled, w) || w == one.waiter {
      if HasSettled(settled, w) {
        var i :| 0 <= i < |settled| && settled[i].waiter == w;
        assert all[i].waiter == w;
      }
      assert all[|settled|] == one;
    }
  }

  lemma {:induction false} SettleEach(settled: seq<Settled>, waiters: seq<nat>, outcome: Outcome)
    requires SettledOnce(settled) && Increasing(waiters) && forall w :: w in waiters ==> !HasSettled(settled, w)
    ensures SettledOnce(settled + Each(waiters, outcome))
    ensures forall w :: HasSettled(settled + Each(waiters, outcome), w) <==> HasSettled(settled, w) || w in waiters
  {
    if waiters == [] {
      assert settled + Each(waiters, outcome) == settled;
    } else {
      var n := |waiters| - 1;
      SettleEach(settled, waiters[..n], outcome);
      assert settled + Each(waiters, outcome) == (settled + Each(waiters[..n], outcome))
          + [Settled(waiters[n], outcome)];
      assert waiters == waiters[..n] + [waiters[n]];
      assert waiters[n] !in waiters[..n];
      SettleOne(settled + Each(waiters[..n], outcome), Settled(waiters[n], outcome));
    }
  }

  lemma {:induction false} WaitIsSound(s: State, aborted: bool)
    requires Sound(s)
    ensures Sound(Step(s, ToWait(aborted)))
  {
    hide SettledOnce, HasSettled;
    var g, s' := s.gate, Step(s, ToWait(aborted));
    if HasSettled(g.settled, s.begun) {
      SettledBefore(s, s.begun);
    }
    var done := AtOnce(g, aborted);
    if done.Some? {
      SettleOne(g.settled, Settled(s.begun, done.value));
    } else {
      assert s'.gate.settled == g.settled;
      assert forall w :: w in s'.gate.waiters <==> w in g.waiters || w == s.begun;
      assert forall i :: 0 <= i < |g.waiters| ==> g.waiters[i] in g.waiters;
      assert Increasing(s'.gate.waiters);
    }
  }

  lemma {:induction false} StepIsSound(s: State, op: Op)
    requires Sound(s)
    ensures Sound(Step(s, op))
  {
    hide SettledOnce, HasSettled;
    var g := s.gate;
    match op {
      case ToDrain =>
      case ToResume =>
        SettleEach(g.settled, g.waiters, Resumed);
        SettledWereBegun(s, Resumed);
      case ToClose =>
        SettleEach(g.settled, g.waiters, ShutDown);
        SettledWereBegun(s, ShutDown);
      case ToWait(aborted) => WaitIsSound(s, aborted);
      case ToTimeOut(waiter) =>
        if waiter in g.waiters {
          SettleOne(g.settled, Settled(waiter, TimedOut));
        }
      case ToAbort(waiter) =>
        if waiter in g.waiters {
          SettleOne(g.settled, Settled(waiter, Aborted));
        }
    }
  }

  lemma {:induction false} SettledWereBegun(s: State, outcome: Outcome)
    requires Sound(s)
    ensures var all := s.gate.settled + Each(s.gate.waiters, outcome);
      forall i :: 0 <= i < |all| ==> all[i].waiter < s.begun
  {
    hide HasSettled, SettledOnce;
    forall i | 0 <= i < |s.gate.waiters|
      ensures Each(s.gate.waiters, outcome)[i].waiter < s.begun
    {
      assert s.gate.waiters[i] in s.gate.waiters;
    }
  }

  lemma {:induction false} SettledBefore(s: State, w: nat)
    requires Sound(s) && HasSettled(s.gate.settled, w)
    ensures w < s.begun
  {
  }

  /** Over every run, each wait begun is still on or was settled exactly once, and is never both. */
  lemma {:induction false} EveryWaitSettlesOnce(ops: seq<Op>)
    ensures Sound(Run(START, ops))
  {
    if ops != [] {
      EveryWaitSettlesOnce(ops[..|ops| - 1]);
      StepIsSound(Run(START, ops[..|ops| - 1]), ops[|ops| - 1]);
    }
  }

  /** A settlement is never taken back or changed. */
  lemma {:induction false} SettlementsStay(s: State, ops: seq<Op>)
    ensures s.gate.settled <= Run(s, ops).gate.settled
  {
    if ops != [] {
      SettlementsStay(s, ops[..|ops| - 1]);
    }
  }

  /** A wait still on is let through by a resume, in the order the waits began. */
  lemma {:induction false} ResumeSettlesInOrder(ops: seq<Op>)
    ensures var g, g' := Run(START, ops).gate, Run(START, ops + [ToResume]).gate;
      if g.closed then g' == g && g.waiters == []
      else
        && !g'.draining && g'.waiters == [] && Increasing(g.waiters)
        && g'.settled == g.settled + Each(g.waiters, Resumed)
  {
    EveryWaitSettlesOnce(ops);
    assert (ops + [ToResume])[..|ops|] == ops;
  }

  /** A wait begun over any run: told at once of a shutdown, let through, told of its own abort, or put last. */
  lemma {:induction false} WaitBegins(ops: seq<Op>, aborted: bool)
    ensures var s, s' := Run(START, ops), Run(START, ops + [ToWait(aborted)]);
      && s'.begun == s.begun + 1 && s'.gate.draining == s.gate.draining && s'.gate.closed == s.gate.closed
      && (if s.gate.closed || !s.gate.draining || aborted then
            && s'.gate.waiters == s.gate.waiters
            && s'.gate.settled == s.gate.settled + [Settled(s.begun,
                 if s.gate.closed then ShutDown else if s.gate.draining then Aborted else Resumed)]
          else s'.gate.waiters == s.gate.waiters + [s.begun] && s'.gate.settled == s.gate.settled)
  {
    assert (ops + [ToWait(aborted)])[..|ops|] == ops;
  }

  /** A wait still on is settled as timed out by its timer and as aborted by its signal; no other wait is touched. */
  lemma {:induction false} WaitEnds(ops: seq<Op>, waiter: nat)
    requires waiter in Run(START, ops).gate.waiters
    ensures var g := Run(START, ops).gate;
      && Run(START, ops + [ToTimeOut(waiter)]).gate.settled == g.settled + [Settled(waiter, TimedOut)]
      && Run(START, ops + [ToAbort(waiter)]).gate.settled == g.settled + [Settled(waiter, Aborted)]
      && forall op :: op in {ToTimeOut(waiter), ToAbort(waiter)} ==>
           var g' := Run(START, ops + [op]).gate;
           && g'.draining && !g'.closed
           && forall w :: w in g'.waiters <==> w in g.waiters && w != waiter
  {
    EveryWaitSettlesOnce(ops);
    assert (ops + [ToTimeOut(waiter)])[..|ops|] == ops;
    assert (ops + [ToAbort(waiter)])[..|ops|] == ops;
  }

  /** A drain holds what comes, a shutdown tells every waiter so, in the order the waits began. */
  lemma {:induction false} DrainAndClose(ops: seq<Op>)
    ensures var g := Run(START, ops).gate;
      && Run(START, ops + [ToDrain]).gate == Gate(true, g.closed, g.waiters, g.settled)
      && var g' := Run(START, ops + [ToClose]).gate;
      && g'.draining && g'.closed && g'.waiters == [] && |g'.settled| == |g.settled| + |g.waiters|
      && g.settled <= g'.settled
      && forall i :: 0 <= i < |g.waiters| ==> g'.settled[|g.settled| + i] == Settled(g.waiters[i], ShutDown)
  {
    assert (ops + [ToDrain])[..|ops|] == ops;
    assert (ops + [ToClose])[..|ops|] == ops;
  }

  /** Nothing is let through a gate that was shut down. */
  lemma {:induction false} ClosedForGood(s: State, ops: seq<Op>)
    requires Sound(s) && s.gate.closed
    ensures var g := Run(s, ops).gate;
      && g.closed && g.draining && g.waiters == []
      && forall i :: |s.gate.settled| <= i < |g.settled| ==> g.settled[i].outcome == ShutDown
  {
    if ops != [] {
      ClosedForGood(s, ops[..|ops| - 1]);
    }
  }

  // ---- The gate object ----

  class DrainGate {
    var draining: bool
    var closed: bool
    var waiters: seq<nat>
    var settled: seq<Settled>

    function View(): Gate
      reads this
    {
      Gate(draining, closed, waiters, settled)
    }

    constructor ()
      ensures View() == OPEN
    {
      draining, closed, waiters, settled := false, false, [], [];
    }

    method Drain()
      modifies this`draining
      ensures View() == Drained(old(View()))
    {
      draining := true;
    }

    method FinishWait(waiter: nat, outcome: Outcome)
      modifies this`waiters, this`settled
      ensures View() == Finish(old(View()), waiter, outcome)
    {
      if waiter !in waiters {
        return;
      }
      waiters := Without(waiters, waiter);
      settled := settled + [Settled(waiter, outcome)];
    }

    /** Finish every wait, over a copy of the list each one leaves. */
    method SettleAll(outcome: Outcome)
      requires Increasing(waiters)
      modifies this`waiters, this`settled
      ensures waiters == [] && settled == old(settled) + Each(old(waiters), outcome)
    {
      var all := waiters;
      for i := 0 to |all|
        invariant waiters == all[i..] && settled == old(settled) + Each(all[..i], outcome)
      {
        FirstOut(waiters);
        FinishWait(all[i], outcome);
        assert Each(all[..i + 1], outcome) == Each(all[..i], outcome) + [Settled(all[i], outcome)];
      }
      assert all[..|all|] == all;
    }

    method ResumeWaits()
      requires Increasing(waiters)
      modifies this`draining, this`waiters, this`settled
      ensures View() == Resume(old(View()))
    {
      if closed {
        return;
      }
      draining := false;
      SettleAll(Resumed);
    }

    method CloseGate()
      requires Increasing(waiters)
      modifies this
      ensures View() == Close(old(View()))
    {
      draining := true;
      closed := true;
      SettleAll(ShutDown);
    }

    method BeginWait(waiter: nat, aborted: bool) returns (outcome: Option<Outcome>)
      modifies this`waiters, this`settled
      ensures View() == Wait(old(View()), waiter, aborted) && outcome == AtOnce(old(View()), aborted)
    {
      if closed {
        outcome := Some(ShutDown);
      } else if !draining {
        outcome := Some(Resumed);
      } else if aborted {
        outcome := Some(Aborted);
      } else {
        waiters := waiters + [waiter];
        return None;
      }
      settled := settled + [Settled(waiter, outcome.value)];
    }
  }
}
