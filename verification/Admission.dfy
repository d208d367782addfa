/**
 * Which requests the server runs as turns: the gate and the turn counter together, one step for each handler's
 * synchronous prefix. A resume runs the requests it lets through before any other handler starts.
 */
module Admission {
  import G = DrainGates
  import T = TurnCounter

  /** A streaming turn or a compaction waits for a drain to end; any other request is refused meanwhile. */
  datatype Kind = Streaming | Compaction | Other

  /** What became of a request; `Gone` is a held stream whose client had left when the drain ended. */
  datatype Fate = Admitted(turn: nat) | Refused | Held(kind: Kind) | TurnedAway(outcome: G.Outcome) | Gone

  /** Requests are numbered in order of arrival, and a waiter of the gate is a request's number. */
  datatype Server = Server(gate: G.Gate, turns: T.State, fates: seq<Fate>, broken: set<nat>)

  const START: Server := Server(G.OPEN, T.START, [], {})

  datatype Event =
    | Arrive(kind: Kind, aborted: bool)
    | DrainRequested
    | ResumeRequested
    | ShuttingDown
    | HoldExpired(request: nat)
    | ClientLeft(request: nat)
    | StreamBroke(request: nat)
    | TurnEvent(op: T.Op)

  /** What the control routes report. */
  datatype Activity = Activity(accepting: bool, activeTurns: nat)

  function Report(s: Server): Activity {
    Activity(!s.gate.draining, |s.turns.active|)
  }

  function Track(s: Server, aborted: bool): T.State {
    var turns := T.Step(s.turns, T.Track);
    if aborted then T.Step(turns, T.ClientAbort(s.turns.nextId, "client left")) else turns
  }

  function Arrival(s: Server, kind: Kind, aborted: bool): Server {
    var request := |s.fates|;
    if !s.gate.draining then s.(turns := Track(s, aborted), fates := s.fates + [Admitted(s.turns.nextId)])
    else if kind == Other then s.(fates := s.fates + [Refused])
    else
      var waited := s.(gate := G.Wait(s.gate, request, aborted));
      match G.AtOnce(s.gate, aborted)
      case Some(outcome) => waited.(fates := s.fates + [TurnedAway(outcome)])
      case None => waited.(fates := s.fates + [Held(kind)])
  }

  /** A held request goes on: it becomes a turn unless its stream is gone. */
  function Continue(s: Server, request: nat): Server
    requires request < |s.fates|
  {
    if request in s.broken then s.(fates := s.fates[request := Gone])
    else s.(turns := T.Step(s.turns, T.Track), fates := s.fates[request := Admitted(s.turns.nextId)])
  }

  predicate Known(s: Server, requests: seq<nat>) {
    forall i :: 0 <= i < |requests| ==> requests[i] < |s.fates|
  }

  function ContinueAll(s: Server, requests: seq<nat>): Server
    requires Known(s, requests)
    decreases |requests|
  {
    if requests == [] then s else ContinueAll(Continue(s, requests[0]), requests[1..])
  }

  function TurnAwayAll(s: Server, requests: seq<nat>, outcome: G.Outcome): Server
    requires Known(s, requests)
    decreases |requests|
  {
    if requests == [] then s
    else TurnAwayAll(s.(fates := s.fates[requests[0] := TurnedAway(outcome)]), requests[1..], outcome)
  }

  function EndWait(s: Server, request: nat, outcome: G.Outcome): Server {
    if request in s.gate.waiters && request < |s.fates|
    then s.(gate := G.Finish(s.gate, request, outcome), fates := s.fates[request := TurnedAway(outcome)])
    else s
  }

  function Step(s: Server, e: Event): Server
    requires Known(s, s.gate.waiters)
  {
    match e
    case Arrive(kind, aborted) => Arrival(s, kind, aborted)
    case DrainRequested => s.(gate := G.Drained(s.gate))
    case ResumeRequested =>
      if s.gate.closed then s else ContinueAll(s.(gate := G.Resume(s.gate)), s.gate.waiters)
    case ShuttingDown => TurnAwayAll(s.(gate := G.Close(s.gate)), s.gate.waiters, G.ShutDown)
    case HoldExpired(request) => EndWait(s, request, G.TimedOut)
    case ClientLeft(request) => EndWait(s, request, G.Aborted)
    case StreamBroke(request) =>
      if request < |s.fates| && s.fates[request] == Held(Streaming) then s.(broken := s.broken + {request}) else s
    case TurnEvent(op) => if op.Track? then s else s.(turns := T.Step(s.turns, op))
  }

  // ---- Every request is accounted for ----

  datatype Standing = Ran | Waits | Away

  function StandingOf(f: Fate): Standing {
    match f
    case Admitted(_) => Ran
    case Held(_) => Waits
    case _ => Away
  }

  function Count(fates: seq<Fate>, standing: Standing): nat {
    if fates == [] then 0
    else Count(fates[..|fates| - 1], standing) + if StandingOf(fates[|fates| - 1]) == standing then 1 else 0
  }

  lemma {:induction false} CountUpdated(fates: seq<Fate>, r: nat, f: Fate, standing: Standing)
    requires r < |fates|
    ensures Count(fates[r := f], standing)
         == Count(fates, standing) - (if StandingOf(fates[r]) == standing then 1 else 0)
             + (if StandingOf(f) == standing then 1 else 0)
  {
    var n, fates' := |fates| - 1, fates[r := f];
    if r == n {
      assert fates'[..n] == fates[..n];
    } else {
      assert fates'[..n] == fates[..n][r := f];
      CountUpdated(fates[..n], r, f, standing);
    }
  }

  lemma {:induction false} CountAdded(fates: seq<Fate>, f: Fate, standing: Standing)
    ensures Count(fates + [f], standing) == Count(fates, standing) + (if StandingOf(f) == standing then 1 else 0)
  {
    assert (fates + [f])[..|fates|] == fates;
  }

  lemma {:induction false} CountsCover(fates: seq<Fate>)
    ensures Count(fates, Ran) + Count(fates, Waits) + Count(fates, Away) == |fates|
  {
    if fates != [] {
      CountsCover(fates[..|fates| - 1]);
    }
  }

  /** Turns and requests agree when `waiting` are the requests still held. */
  ghost predicate Tied(s: Server, waiting: seq<nat>) {
    && G.Increasing(waiting) && Known(s, waiting)
    && (forall r: nat :: r < |s.fates| ==> (s.fates[r].Held? <==> r in waiting))
    && Count(s.fates, Waits) == |waiting|
    && T.Accounted(s.turns) && |s.turns.active| + |s.turns.released| == s.turns.nextId - 1
    && Count(s.fates, Ran) == s.turns.nextId - 1
  }

  ghost predicate Sound(s: Server) {
    && Tied(s, s.gate.waiters)
    && (s.gate.waiters != [] ==> s.gate.draining && !s.gate.closed)
    && (s.gate.closed ==> s.gate.draining)
  }

  /** A turn that ran is active or released, and only tracking makes a new one. */
  lemma {:induction false} TurnsAddUp(t: T.State, op: T.Op)
    requires T.Accounted(t) && |t.active| + |t.released| == t.nextId - 1
    ensures var t' := T.Step(t, op);
      && T.Accounted(t') && |t'.active| + |t'.released| == t'.nextId - 1
      && (if op.Track? then t'.nextId == t.nextId + 1 && t'.active.Keys == t.active.Keys + {t.nextId}
          else t'.nextId == t.nextId && t'.active.Keys <= t.active.Keys)
  {
    hide T.Accounted;
    T.StepIsAccounted(t, op);
    var t' := T.Step(t, op);
    assert |t'.active| == |t'.active.Keys| && |t.active| == |t.active.Keys|;
    match op {
      case Track =>
        NewTurn(t);
        assert t'.active.Keys == t.active.Keys + {t.nextId};
      case Bind(_, _) => assert t'.active.Keys == t.active.Keys;
      case Interrupt(_, _) => assert t'.active.Keys == t.active.Keys;
      case CancelAll(_) => assert t'.active.Keys == t.active.Keys;
      case ClientAbort(_, _) => assert t'.active.Keys == t.active.Keys;
      case Release(id) =>
        assert t'.active.Keys == t.active.Keys - {id};
    }
  }

  lemma {:induction false} NewTurn(t: T.State)
    requires T.Accounted(t)
    ensures t.nextId !in t.active
  {
  }

  lemma {:induction false} ContinueTied(s: Server, waiting: seq<nat>)
    requires waiting != [] && Tied(s, waiting)
    ensures Tied(Continue(s, waiting[0]), waiting[1..])
    ensures Continue(s, waiting[0]).gate == s.gate
  {
    hide T.Accounted, T.Step, Count;
    var r, rest := waiting[0], waiting[1..];
    assert waiting == [r] + rest;
    TurnsAddUp(s.turns, T.Track);
    var f := if r in s.broken then Gone else Admitted(s.turns.nextId);
    CountUpdated(s.fates, r, f, Waits);
    CountUpdated(s.fates, r, f, Ran);
    assert s.fates[r].Held?;
    assert r !in rest;
  }

  lemma {:induction false} ContinueAllTied(s: Server, waiting: seq<nat>)
    requires Tied(s, waiting)
    ensures Tied(ContinueAll(s, waiting), []) && ContinueAll(s, waiting).gate == s.gate
    decreases |waiting|
  {
    hide Tied;
    TiedKnows(s, waiting);
    if waiting != [] {
      ContinueTied(s, waiting);
      ContinueAllTied(Continue(s, waiting[0]), waiting[1..]);
    }
  }

  lemma {:induction false} TiedKnows(s: Server, waiting: seq<nat>)
    requires Tied(s, waiting)
    ensures Known(s, waiting) && (waiting == [] ==> Tied(s, []))
  {
  }

  lemma {:induction false} AwayTied(s: Server, waiting: seq<nat>, r: nat, outcome: G.Outcome, gate: G.Gate)
    requires r in waiting && Tied(s, waiting)
    ensures Known(s, waiting)
      && Tied(s.(gate := gate, fates := s.fates[r := TurnedAway(outcome)]), G.Without(waiting, r))
  {
    hide T.Accounted;
    var rest := G.Without(waiting, r);
    assert r < |s.fates| && s.fates[r].Held?;
    CountUpdated(s.fates, r, TurnedAway(outcome), Waits);
    CountUpdated(s.fates, r, TurnedAway(outcome), Ran);
    OneFewer(waiting, r);
    forall i | 0 <= i < |rest| ensures rest[i] < |s.fates| {
      assert rest[i] in rest;
    }
  }

  lemma {:induction false} OneFewer(waiting: seq<nat>, r: nat)
    requires r in waiting && G.Increasing(waiting)
    ensures |G.Without(waiting, r)| == |waiting| - 1
  {
    if waiting[0] == r {
      G.FirstOut(waiting);
    } else {
      assert waiting == [waiting[0]] + waiting[1..];
      OneFewer(waiting[1..], r);
    }
  }

  lemma {:induction false} TurnAwayAllTied(s: Server, waiting: seq<nat>, outcome: G.Outcome)
    requires Tied(s, waiting)
    ensures Tied(TurnAwayAll(s, waiting, outcome), [])
    ensures TurnAwayAll(s, waiting, outcome).gate == s.gate && TurnAwayAll(s, waiting, outcome).turns == s.turns
    decreases |waiting|
  {
    hide Tied;
    TiedKnows(s, waiting);
    if waiting != [] {
      AwayTied(s, waiting, waiting[0], outcome, s.gate);
      TiedKnowsIncreasing(s, waiting);
      G.FirstOut(waiting);
      TurnAwayAllTied(s.(fates := s.fates[waiting[0] := TurnedAway(outcome)]), waiting[1..], outcome);
    }
  }

  lemma {:induction false} TiedKnowsIncreasing(s: Server, waiting: seq<nat>)
    requires Tied(s, waiting)
    ensures G.Increasing(waiting)
  {
  }

  /** One more request, held or not, leaves the others as they were. */
  lemma {:induction false} AddedTied(s: Server, f: Fate, gate: G.Gate)
    requires Tied(s, s.gate.waiters) && !f.Admitted?
    requires gate.waiters == if f.Held? then s.gate.waiters + [|s.fates|] else s.gate.waiters
    ensures Tied(s.(gate := gate, fates := s.fates + [f]), gate.waiters)
  {
    hide T.Accounted, Count, T.Step;
    CountAdded(s.fates, f, Waits);
    CountAdded(s.fates, f, Ran);
    HeldAdded(s, f, gate);
  }

  lemma {:induction false} HeldAdded(s: Server, f: Fate, gate: G.Gate)
    requires G.Increasing(s.gate.waiters) && Known(s, s.gate.waiters)
    requires forall r: nat :: r < |s.fates| ==> (s.fates[r].Held? <==> r in s.gate.waiters)
    requires gate.waiters == if f.Held? then s.gate.waiters + [|s.fates|] else s.gate.waiters
    ensures var s' := s.(gate := gate, fates := s.fates + [f]);
      && G.Increasing(gate.waiters) && Known(s', gate.waiters)
      && (forall r: nat :: r < |s'.fates| ==> (s'.fates[r].Held? <==> r in gate.waiters))
  {
    if f.Held? {
      assert forall w :: w in gate.waiters <==> w in s.gate.waiters || w == |s.fates|;
    }
    assert |s.fates| !in s.gate.waiters;
  }

  lemma {:induction false} TrackedTied(s: Server, aborted: bool)
    requires Tied(s, [])
    ensures Tied(s.(turns := Track(s, aborted), fates := s.fates + [Admitted(s.turns.nextId)]), [])
  {
    hide T.Accounted, Count, T.Step;
    CountAdded(s.fates, Admitted(s.turns.nextId), Waits);
    CountAdded(s.fates, Admitted(s.turns.nextId), Ran);
    TurnsAddUp(s.turns, T.Track);
    TurnsAddUp(T.Step(s.turns, T.Track), T.ClientAbort(s.turns.nextId, "client left"));
  }

  lemma {:induction false} ArrivalSound(s: Server, kind: Kind, aborted: bool)
    requires Sound(s)
    ensures Sound(Arrival(s, kind, aborted))
  {
    hide Tied, Track, Known;
    var done := G.AtOnce(s.gate, aborted);
    if !s.gate.draining {
      TrackedTied(s, aborted);
    } else if kind == Other {
      AddedTied(s, Refused, s.gate);
    } else {
      AddedTied(s, if done.Some? then TurnedAway(done.value) else Held(kind), G.Wait(s.gate, |s.fates|, aborted));
    }
  }

  lemma {:induction false} StepIsSound(s: Server, e: Event)
    requires Sound(s)
    ensures Known(s, s.gate.waiters) && Sound(Step(s, e))
  {
    hide T.Accounted, T.Step, Count;
    match e {
      case Arrive(kind, aborted) => ArrivalSound(s, kind, aborted);
      case DrainRequested =>
      case ResumeRequested =>
        if !s.gate.closed {
          ContinueAllTied(s.(gate := G.Resume(s.gate)), s.gate.waiters);
        }
      case ShuttingDown => TurnAwayAllTied(s.(gate := G.Close(s.gate)), s.gate.waiters, G.ShutDown);
      case HoldExpired(request) => EndWaitSound(s, request, G.TimedOut);
      case ClientLeft(request) => EndWaitSound(s, request, G.Aborted);
      case StreamBroke(request) =>
      case TurnEvent(op) => TurnsAddUp(s.turns, op);
    }
  }

  lemma {:induction false} EndWaitSound(s: Server, request: nat, outcome: G.Outcome)
    requires Sound(s)
    ensures Sound(EndWait(s, request, outcome))
  {
    hide T.Accounted, Count;
    if request in s.gate.waiters {
      AwayTied(s, s.gate.waiters, request, outcome, G.Finish(s.gate, request, outcome));
    }
  }

  /** A server reached by some run. */
  type Running = s: Server | Sound(s) ghost witness Fresh()

  ghost function Fresh(): (s: Server)
    ensures Sound(s) && s == START
  {
    START
  }

  function Run(s: Running, events: seq<Event>): (r: Running)
    ensures Sound(r)
  {
    if events == [] then s
    else
      var before := Run(s, events[..|events| - 1]);
      StepIsSound(before, events[|events| - 1]);
      Step(before, events[|events| - 1])
  }

  /**
   * Over every run, the requests that arrived are the active turns, the finished ones, the held ones and those
   * turned away: no held request is counted as active, and none is lost or run twice.
   */
  lemma {:induction false} RequestsAreConserved(events: seq<Event>)
    ensures var s := Run(Fresh(), events);
      && |s.fates| == |s.turns.active| + |s.turns.released| + |s.gate.waiters| + Count(s.fates, Away)
      && Count(s.fates, Ran) == |s.turns.active| + |s.turns.released|
      && (forall r: nat :: r < |s.fates| ==> (s.fates[r].Held? <==> r in s.gate.waiters))
  {
    CountsCover(Run(Fresh(), events).fates);
  }

  // ---- When turns start ----

  /** How many of these held requests can still run. */
  function Runnable(waiting: seq<nat>, broken: set<nat>): nat {
    if waiting == [] then 0 else (if waiting[0] in broken then 0 else 1) + Runnable(waiting[1..], broken)
  }

  /** The turns numbered `low` up to but not including `high` became active, and no others. */
  ghost predicate Started(s: Server, s': Server, low: nat, high: nat) {
    && s'.turns.nextId == high && low <= high
    && forall t: nat :: t in s'.turns.active && t !in s.turns.active <==> low <= t < high
  }

  lemma {:induction false} ContinueStarts(s: Server, request: nat)
    requires request < |s.fates| && T.Accounted(s.turns)
    ensures var s', n := Continue(s, request), if request in s.broken then 0 else 1;
      && T.Accounted(s'.turns) && s'.broken == s.broken && |s'.fates| == |s.fates|
      && Started(s, s', s.turns.nextId, s.turns.nextId + n) && s.turns.active.Keys <= s'.turns.active.Keys
  {
    hide T.Accounted;
    T.StepIsAccounted(s.turns, T.Track);
    NewTurn(s.turns);
  }

  lemma {:induction false} StartedBoth(s: Server, s1: Server, s2: Server, a: nat, b: nat, c: nat)
    requires Started(s, s1, a, b) && Started(s1, s2, b, c)
    requires s.turns.active.Keys <= s1.turns.active.Keys <= s2.turns.active.Keys
    ensures Started(s, s2, a, c)
  {
    assert forall t: nat :: t in s.turns.active ==> t in s1.turns.active.Keys;
    assert forall t: nat :: t in s1.turns.active ==> t in s2.turns.active.Keys;
    forall t: nat ensures t in s2.turns.active && t !in s.turns.active <==> a <= t < c {
      assert t in s1.turns.active && t !in s.turns.active <==> a <= t < b;
      assert t in s2.turns.active && t !in s1.turns.active <==> b <= t < c;
    }
  }

  lemma {:induction false} ContinueAllStarts(s: Server, waiting: seq<nat>)
    requires Known(s, waiting) && T.Accounted(s.turns)
    ensures var s' := ContinueAll(s, waiting);
      && Started(s, s', s.turns.nextId, s.turns.nextId + Runnable(waiting, s.broken))
      && s.turns.active.Keys <= s'.turns.active.Keys
    decreases |waiting|
  {
    hide T.Accounted, T.Step, Started, Continue;
    if waiting == [] {
      StartsNone(s);
    } else {
      var s1, rest := Continue(s, waiting[0]), waiting[1..];
      ContinueStarts(s, waiting[0]);
      ContinueAllStarts(s1, rest);
      var a := s.turns.nextId;
      StartedNext(s, s1, a, a + if waiting[0] in s.broken then 0 else 1);
      StartedBoth(s, s1, ContinueAll(s1, rest), a, s1.turns.nextId, a + Runnable(waiting, s.broken));
    }
  }

  lemma {:induction false} StartsNone(s: Server)
    ensures Started(s, s, s.turns.nextId, s.turns.nextId)
  {
  }

  lemma {:induction false} StartedNext(s: Server, s': Server, low: nat, high: nat)
    requires Started(s, s', low, high)
    ensures s'.turns.nextId == high && low <= high
  {
  }

  /** What each request becomes when it goes on. */
  function FateOnResume(s: Server, waiting: seq<nat>, i: nat): Fate
    requires i < |waiting|
  {
    if waiting[i] in s.broken then Gone else Admitted(s.turns.nextId + Runnable(waiting[..i], s.broken))
  }

  lemma {:induction false} ContinueFates(s: Server, request: nat)
    requires request < |s.fates|
    ensures var s', n := Continue(s, request), if request in s.broken then 0 else 1;
      && s'.turns.nextId == s.turns.nextId + n && s'.broken == s.broken
      && s'.fates == s.fates[request := if request in s.broken then Gone else Admitted(s.turns.nextId)]
  {
    hide T.Step;
    TrackCounts(s.turns);
  }

  lemma {:induction false} OthersKeepFates(s: Server, waiting: seq<nat>)
    requires Known(s, waiting)
    ensures var s' := ContinueAll(s, waiting);
      |s'.fates| == |s.fates| && forall r: nat :: r < |s.fates| && r !in waiting ==> s'.fates[r] == s.fates[r]
    decreases |waiting|
  {
    hide Continue;
    if waiting != [] {
      ContinueFates(s, waiting[0]);
      assert waiting == [waiting[0]] + waiting[1..];
      OthersKeepFates(Continue(s, waiting[0]), waiting[1..]);
    }
  }

  lemma {:induction false} FateOf(s: Server, waiting: seq<nat>, i: nat)
    requires Known(s, waiting) && G.Increasing(waiting) && i < |waiting|
    ensures |ContinueAll(s, waiting).fates| == |s.fates|
    ensures ContinueAll(s, waiting).fates[waiting[i]] == FateOnResume(s, waiting, i)
    decreases |waiting|
  {
    hide Continue;
    var s1, rest := Continue(s, waiting[0]), waiting[1..];
    ContinueFates(s, waiting[0]);
    OthersKeepFates(s, waiting);
    if i == 0 {
      assert waiting[0] !in rest;
      OthersKeepFates(s1, rest);
    } else {
      FateOf(s1, rest, i - 1);
      assert waiting[..i][1..] == rest[..i - 1];
    }
  }

  lemma {:induction false} ContinueAllFates(s: Server, waiting: seq<nat>)
    requires Known(s, waiting) && G.Increasing(waiting)
    ensures var s' := ContinueAll(s, waiting);
      && |s'.fates| == |s.fates|
      && (forall r: nat :: r < |s.fates| && r !in waiting ==> s'.fates[r] == s.fates[r])
      && forall i :: 0 <= i < |waiting| ==> s'.fates[waiting[i]] == FateOnResume(s, waiting, i)
  {
    hide ContinueAll, FateOnResume;
    OthersKeepFates(s, waiting);
    forall i | 0 <= i < |waiting|
      ensures ContinueAll(s, waiting).fates[waiting[i]] == FateOnResume(s, waiting, i)
    {
      FateOf(s, waiting, i);
    }
  }

  lemma {:induction false} TrackCounts(t: T.State)
    ensures T.Step(t, T.Track).nextId == t.nextId + 1
  {
  }

  lemma {:induction false} TurnAwayAllKeeps(s: Server, waiting: seq<nat>, outcome: G.Outcome)
    requires Known(s, waiting)
    ensures var s' := TurnAwayAll(s, waiting, outcome);
      && s'.turns == s.turns && |s'.fates| == |s.fates|
      && forall r: nat :: r < |s.fates| ==> s'.fates[r] == if r in waiting then TurnedAway(outcome) else s.fates[r]
    decreases |waiting|
  {
    if waiting != [] {
      assert waiting == [waiting[0]] + waiting[1..];
      TurnAwayAllKeeps(s.(fates := s.fates[waiting[0] := TurnedAway(outcome)]), waiting[1..], outcome);
    }
  }

  function Starts(s: Server, e: Event): nat {
    match e
    case Arrive(_, _) => if s.gate.draining then 0 else 1
    case ResumeRequested => if s.gate.closed then 0 else Runnable(s.gate.waiters, s.broken)
    case _ => 0
  }

  /**
   * Exactly when turns start: a request arriving while nothing drains starts one, a resume starts those it lets
   * through, and nothing else starts any.
   */
  lemma {:induction false} TurnsStartExactlyWhen(s: Running, e: Event)
    ensures Known(s, s.gate.waiters)
    ensures Started(s, Step(s, e), s.turns.nextId, s.turns.nextId + Starts(s, e))
  {
    hide T.Step, T.Accounted, Count;
    match e {
      case Arrive(kind, aborted) =>
        NewTurn(s.turns);
        TurnsAddUp(s.turns, T.Track);
        TrackKeys(s, aborted);
      case ResumeRequested => ContinueAllStarts(s.(gate := G.Resume(s.gate)), s.gate.waiters);
      case ShuttingDown => TurnAwayAllKeeps(s.(gate := G.Close(s.gate)), s.gate.waiters, G.ShutDown);
      case TurnEvent(op) => TurnsAddUp(s.turns, op);
      case _ =>
    }
  }

  lemma {:induction false} TrackKeys(s: Running, aborted: bool)
    ensures Track(s, aborted).active.Keys == s.turns.active.Keys + {s.turns.nextId}
    ensures Track(s, aborted).nextId == s.turns.nextId + 1
  {
  }

  /**
   * Proven idleness holds: from a server that drains with no active turn, over any events but a resume, it goes
   * on draining and no turn ever becomes active.
   */
  lemma {:induction false} IdleUntilResume(s: Running, events: seq<Event>)
    requires Report(s) == Activity(false, 0) && ResumeRequested !in events
    ensures Report(Run(s, events)) == Activity(false, 0) && Run(s, events).turns.nextId == s.turns.nextId
  {
    if events != [] {
      var init, e := events[..|events| - 1], events[|events| - 1];
      assert e in events && e != ResumeRequested;
      IdleUntilResume(s, init);
      var before := Run(s, init);
      TurnsStartExactlyWhen(before, e);
      StaysDraining(before, e);
      NothingActive(before, Run(s, events));
    }
  }

  lemma {:induction false} NothingActive(s: Server, s': Server)
    requires |s.turns.active| == 0 && Started(s, s', s.turns.nextId, s.turns.nextId)
    ensures |s'.turns.active| == 0
  {
    assert forall t :: t !in s.turns.active;
    assert s'.turns.active.Keys == {};
    assert |s'.turns.active| == |s'.turns.active.Keys|;
  }

  lemma {:induction false} StaysDraining(s: Running, e: Event)
    requires s.gate.draining && e != ResumeRequested
    ensures Step(s, e).gate.draining
  {
    hide T.Step, T.Accounted, Count;
    if e.ShuttingDown? {
      TurnAwayAllTied(s.(gate := G.Close(s.gate)), s.gate.waiters, G.ShutDown);
    }
  }

  /** A resume runs every held request that can still run, in order of arrival, and holds none back. */
  lemma {:induction false} ResumeAdmitsInOrder(s: Running)
    requires !s.gate.closed
    ensures Known(s, s.gate.waiters) && |Run(s, [ResumeRequested]).fates| == |s.fates|
    ensures var s' := Run(s, [ResumeRequested]);
      && Report(s').accepting && s'.gate.waiters == []
      && (forall i :: 0 <= i < |s.gate.waiters| ==>
            s'.fates[s.gate.waiters[i]] == FateOnResume(s, s.gate.waiters, i))
      && forall r: nat :: r < |s.fates| && r !in s.gate.waiters ==> s'.fates[r] == s.fates[r]
  {
    RunOne(s, ResumeRequested);
    ContinueAllFates(s.(gate := G.Resume(s.gate)), s.gate.waiters);
    ContinueAllTied(s.(gate := G.Resume(s.gate)), s.gate.waiters);
  }

  lemma {:induction false} RunOne(s: Running, e: Event)
    ensures Known(s, s.gate.waiters) && Run(s, [e]) == Step(s, e)
  {
    assert [e][..0] == [];
  }

  /** Once shutting down, no request is held and no turn ever starts again, resumed or not. */
  lemma {:induction false} NothingAfterShutdown(s: Running, events: seq<Event>)
    requires s.gate.closed
    ensures var s' := Run(s, events); s'.gate.closed && s'.gate.waiters == [] && s'.turns.nextId == s.turns.nextId
  {
    if events != [] {
      var init, e := events[..|events| - 1], events[|events| - 1];
      NothingAfterShutdown(s, init);
      TurnsStartExactlyWhen(Run(s, init), e);
      StaysClosed(Run(s, init), e);
    }
  }

  lemma {:induction false} StaysClosed(s: Running, e: Event)
    requires s.gate.closed
    ensures Step(s, e).gate.closed
  {
    hide T.Step, T.Accounted, Count;
    if e.ShuttingDown? {
      TurnAwayAllTied(s.(gate := G.Close(s.gate)), s.gate.waiters, G.ShutDown);
    }
  }

  /** A request that is not held keeps its fate for good, so each held one is answered once. */
  lemma {:induction false} FatesAreFinal(s: Running, events: seq<Event>, r: nat)
    requires r < |s.fates| && !s.fates[r].Held?
    ensures var s' := Run(s, events); r < |s'.fates| && s'.fates[r] == s.fates[r]
  {
    if events != [] {
      FatesAreFinal(s, events[..|events| - 1], r);
      StepKeepsFate(Run(s, events[..|events| - 1]), events[|events| - 1], r);
    }
  }

  lemma {:induction false} StepKeepsFate(s: Running, e: Event, r: nat)
    requires r < |s.fates| && !s.fates[r].Held?
    ensures r < |Step(s, e).fates| && Step(s, e).fates[r] == s.fates[r]
  {
    hide T.Step, T.Accounted, Count;
    match e {
      case ResumeRequested => ContinueAllFates(s.(gate := G.Resume(s.gate)), s.gate.waiters);
      case ShuttingDown => TurnAwayAllKeeps(s.(gate := G.Close(s.gate)), s.gate.waiters, G.ShutDown);
      case _ =>
    }
  }

  // ---- What becomes of a request ----

  /**
   * While the server drains, a live streaming turn or compaction is held and put last among the waiters, an aborted
   * one is turned away as aborted, one that comes after a shutdown as shut down, and any other kind is refused. No
   * turn starts, and nothing else changes.
   */
  lemma {:induction false} ArrivesWhileDraining(s: Running, kind: Kind, aborted: bool)
    requires s.gate.draining
    ensures var s', r := Run(s, [Arrive(kind, aborted)]), |s.fates|;
      && |s'.fates| == r + 1 && s'.fates[..r] == s.fates && s'.turns == s.turns && s'.broken == s.broken
      && s'.gate.draining && s'.gate.closed == s.gate.closed
      && s'.fates[r] == (
           if kind.Other? then Refused
           else if s.gate.closed then TurnedAway(G.ShutDown)
           else if aborted then TurnedAway(G.Aborted)
           else Held(kind))
      && s'.gate.waiters == s.gate.waiters + (if kind.Other? || s.gate.closed || aborted then [] else [r])
  {
    RunOne(s, Arrive(kind, aborted));
  }

  /** While it does not drain, every request becomes a turn at once; one whose client has left starts aborted. */
  lemma {:induction false} ArrivesWhileOpen(s: Running, kind: Kind, aborted: bool)
    requires !s.gate.draining
    ensures var s', r, t := Run(s, [Arrive(kind, aborted)]), |s.fates|, s.turns.nextId;
      && |s'.fates| == r + 1 && s'.fates[..r] == s.fates && s'.fates[r] == Admitted(t) && s'.gate == s.gate
      && t !in s.turns.active && t in s'.turns.active
      && (s'.turns.active[t].abort.Some? <==> aborted) && s'.turns.active[t].identity.None?
      && forall id :: id in s.turns.active ==> id in s'.turns.active && s'.turns.active[id] == s.turns.active[id]
  {
    RunOne(s, Arrive(kind, aborted));
    NewTurn(s.turns);
  }

  /** The drain route stops new turns and touches nothing else. */
  lemma {:induction false} DrainsOnly(s: Running)
    ensures var s' := Run(s, [DrainRequested]);
      && !Report(s').accepting && s'.gate.waiters == s.gate.waiters && s'.gate.closed == s.gate.closed
      && s'.turns == s.turns && s'.fates == s.fates && s'.broken == s.broken
  {
    RunOne(s, DrainRequested);
  }

  /** What happens to a tracked turn happens in the counter, and to no request. */
  lemma {:induction false} TurnsGoOn(s: Running, op: T.Op)
    requires !op.Track?
    ensures var s' := Run(s, [TurnEvent(op)]);
      s'.turns == T.Run(s.turns, [op]) && s'.gate == s.gate && s'.fates == s.fates && s'.broken == s.broken
  {
    RunOne(s, TurnEvent(op));
    assert [op][..0] == [];
  }

  /** The events that end the hold of a request. */
  predicate EndsHold(e: Event, r: nat) {
    e in {ResumeRequested, ShuttingDown, HoldExpired(r), ClientLeft(r)}
  }

  lemma {:induction false} StillHeld(s: Running, e: Event, r: nat)
    requires r < |s.fates| && s.fates[r].Held? && !EndsHold(e, r)
    ensures r < |Step(s, e).fates| && Step(s, e).fates[r] == s.fates[r]
    ensures r in Step(s, e).broken <==> r in s.broken || (e == StreamBroke(r) && s.fates[r] == Held(Streaming))
  {
    hide T.Step, T.Accounted, Count;
  }

  lemma {:induction false} StillHeldAfter(s: Running, events: seq<Event>, r: nat)
    requires r < |s.fates| && s.fates[r].Held? && r !in s.broken && forall e :: e in events ==> !EndsHold(e, r)
    ensures var s' := Run(s, events);
      && r < |s'.fates| && s'.fates[r] == s.fates[r]
      && (r in s'.broken <==> StreamBroke(r) in events && s.fates[r] == Held(Streaming))
  {
    if events != [] {
      var init, e := events[..|events| - 1], events[|events| - 1];
      assert forall e' :: e' in events <==> e' in init || e' == e;
      StillHeldAfter(s, init, r);
      StillHeld(Run(s, init), e, r);
    }
  }

  lemma {:induction false} HoldEndsAs(s: Running, e: Event, r: nat)
    requires r < |s.fates| && s.fates[r].Held? && EndsHold(e, r)
    ensures var s' := Step(s, e);
      && r < |s'.fates| && r !in s'.gate.waiters
      && match e
         case HoldExpired(_) => s'.fates[r] == TurnedAway(G.TimedOut)
         case ClientLeft(_) => s'.fates[r] == TurnedAway(G.Aborted)
         case ShuttingDown => s'.fates[r] == TurnedAway(G.ShutDown)
         case _ => if r in s.broken then s'.fates[r] == Gone else s'.fates[r].Admitted?
  {
    hide T.Step, T.Accounted, Count;
    assert r in s.gate.waiters;
    match e {
      case ResumeRequested =>
        ContinueAllFates(s.(gate := G.Resume(s.gate)), s.gate.waiters);
        ContinueAllTied(s.(gate := G.Resume(s.gate)), s.gate.waiters);
      case ShuttingDown =>
        TurnAwayAllKeeps(s.(gate := G.Close(s.gate)), s.gate.waiters, G.ShutDown);
        TurnAwayAllTied(s.(gate := G.Close(s.gate)), s.gate.waiters, G.ShutDown);
      case _ =>
    }
  }

  lemma {:induction false} RunBoth(s: Running, events: seq<Event>, e: Event, later: seq<Event>)
    ensures Run(s, events + [e] + later) == Run(Run(s, events + [e]), later)
    decreases |later|
  {
    if later == [] {
      assert events + [e] + later == events + [e];
    } else {
      RunBoth(s, events, e, later[..|later| - 1]);
      assert (events + [e] + later)[..|events + [e] + later| - 1] == events + [e] + later[..|later| - 1];
    }
  }

  /**
   * Over every run, a held request keeps waiting until the first event that ends its hold, and that event alone
   * decides for good: a resume makes it a turn, unless its stream broke meanwhile; an expired hold times it out, a
   * client that leaves aborts it, a shutdown turns it away.
   */
  lemma {:induction false} HeldUntilDecided(s: Running, waiting: seq<Event>, e: Event, later: seq<Event>, r: nat)
    requires r < |s.fates| && s.fates[r].Held? && r !in s.broken
    requires (forall x :: x in waiting ==> !EndsHold(x, r)) && EndsHold(e, r)
    ensures var s1, s' := Run(s, waiting), Run(s, waiting + [e] + later);
      && r < |s1.fates| && s1.fates[r] == s.fates[r] && r < |s'.fates|
      && match e
         case HoldExpired(_) => s'.fates[r] == TurnedAway(G.TimedOut)
         case ClientLeft(_) => s'.fates[r] == TurnedAway(G.Aborted)
         case ShuttingDown => s'.fates[r] == TurnedAway(G.ShutDown)
         case _ =>
           if StreamBroke(r) in waiting && s.fates[r] == Held(Streaming) then s'.fates[r] == Gone
           else s'.fates[r].Admitted?
  {
    StillHeldAfter(s, waiting, r);
    assert (waiting + [e])[..|waiting|] == waiting;
    HoldEndsAs(Run(s, waiting), e, r);
    RunBoth(s, waiting, e, later);
    FatesAreFinal(Run(s, waiting + [e]), later, r);
  }

  // ---- The server object ----

  class Daemon {
    const gate: G.DrainGate
    const turns: T.HttpTurnCounter
    var fates: seq<Fate>
    var broken: set<nat>

    ghost function View(): Server
      reads this, gate, turns
    {
      Server(gate.View(), turns.View(), fates, broken)
    }

    constructor ()
      ensures View() == START && Sound(View())
      ensures fresh(gate) && fresh(turns)
    {
      gate := new G.DrainGate();
      turns := new T.HttpTurnCounter();
      fates, broken := [], {};
    }

    method ReportActivity() returns (a: Activity)
      ensures a == Report(View())
    {
      var active := turns.Count();
      a := Activity(!gate.draining, active);
    }

    method HandleDrain() returns (a: Activity)
      requires Sound(View())
      modifies gate
      ensures View() == Step(old(View()), DrainRequested) && a == Report(View())
    {
      gate.Drain();
      a := ReportActivity();
    }

    /** The requests go on after the answer is made, so it does not count them yet. */
    method HandleResume() returns (a: Activity)
      requires Sound(View())
      modifies this, gate, turns
      ensures View() == Step(old(View()), ResumeRequested)
      ensures a == Activity(!old(gate.closed), |old(turns.active)|)
    {
      hide T.Step, Sound, Tied;
      SoundParts(View());
      var waiting := gate.waiters;
      gate.ResumeWaits();
      a := ReportActivity();
      if gate.closed {
        return;
      }
      for i := 0 to |waiting|
        invariant gate.View() == old(G.Resume(gate.View())) && Known(View(), waiting)
        invariant ContinueAll(View(), waiting[i..]) == Step(old(View()), ResumeRequested)
      {
        assert waiting[i..][1..] == waiting[i + 1..];
        if waiting[i] in broken {
          fates := fates[waiting[i] := Gone];
        } else {
          var turn := turns.TrackTurn();
          fates := fates[waiting[i] := Admitted(turn)];
        }
      }
    }

    /** A request for a turn, of any kind. */
    method Receive(kind: Kind, aborted: bool)
      requires Sound(View())
      modifies this, gate, turns
      ensures View() == Step(old(View()), Arrive(kind, aborted))
    {
      hide T.Step, Tied;
      if !gate.draining {
        var turn := turns.TrackTurn();
        if aborted {
          turns.AbortByClient(turn, "client left");
        }
        fates := fates + [Admitted(turn)];
      } else if kind == Other {
        fates := fates + [Refused];
      } else {
        var outcome := gate.BeginWait(|fates|, aborted);
        fates := fates + [if outcome.Some? then TurnedAway(outcome.value) else Held(kind)];
      }
    }

    method ShutDownNow()
      requires Sound(View())
      modifies this, gate
      ensures View() == Step(old(View()), ShuttingDown)
    {
      hide Sound, Tied;
      SoundParts(View());
      var waiting := gate.waiters;
      gate.CloseGate();
      for i := 0 to |waiting|
        invariant gate.View() == old(G.Close(gate.View())) && Known(View(), waiting)
        invariant TurnAwayAll(View(), waiting[i..], G.ShutDown) == Step(old(View()), ShuttingDown)
      {
        assert waiting[i..][1..] == waiting[i + 1..];
        fates := fates[waiting[i] := TurnedAway(G.ShutDown)];
      }
    }

    method EndHold(request: nat, expired: bool)
      requires Sound(View())
      modifies this, gate
      ensures View() == Step(old(View()), if expired then HoldExpired(request) else ClientLeft(request))
    {
      hide Tied;
      SoundParts(View());
      var outcome := if expired then G.TimedOut else G.Aborted;
      if request in gate.waiters {
        fates := fates[request := TurnedAway(outcome)];
      }
      gate.FinishWait(request, outcome);
    }

    /** The shutdown route: granted only while draining, with no HTTP turn and no browser turn active. */
    method HandleShutdown(browser: nat) returns (granted: bool)
      ensures granted <==> Report(View()) == Activity(false, 0) && browser == 0
    {
      var active := turns.Count();
      granted := gate.draining && active == 0 && browser == 0;
    }
  }

  lemma {:induction false} SoundParts(s: Server)
    requires Sound(s)
    ensures G.Increasing(s.gate.waiters) && Known(s, s.gate.waiters)
    ensures (forall w :: w in s.gate.waiters ==> w < |s.fates|) && (s.gate.closed ==> s.gate.draining)
  {
  }

  /** A granted shutdown cuts no turn short: until a resume comes in, whatever else happens, none becomes active. */
  lemma {:induction false} ShutdownCutsNothingShort(s: Running, events: seq<Event>)
    requires Report(s) == Activity(false, 0) && ResumeRequested !in events
    ensures var s' := Run(s, events + [ShuttingDown]);
      |s'.turns.active| == 0 && s'.gate.closed && s'.gate.waiters == []
  {
    hide T.Step, T.Accounted, Count;
    var all := events + [ShuttingDown];
    assert all[..|events|] == events;
    IdleUntilResume(s, all);
    var s1 := Run(s, events);
    TurnAwayAllTied(s1.(gate := G.Close(s1.gate)), s1.gate.waiters, G.ShutDown);
  }
}
