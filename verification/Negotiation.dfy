/** The service client that drains the daemon before it stops or restarts it, and the lease it gets. */
module Negotiation {
  import opened Common
  import opened Admission

  datatype Action = AskDrain | AskResume

  /** A reply as the client reads it: `None` where a count is no integer or a flag is missing. */
  datatype Reply = Reply(activeHttp: Option<int>, activeBrowser: Option<int>, accepting: Option<bool>)

  datatype Answer = Faithful | Lost | Foreign(reply: Reply)

  /**
   * How one control call goes: what the daemon does meanwhile, whether the call reaches it, the browser turns
   * it then counts, and what comes back.
   */
  datatype Call = Call(before: seq<Event>, reaches: bool, browser: nat, answer: Answer)

  /** A daemon, the calls still to come, and the actions attempted so far. */
  datatype World = World(daemon: Running, calls: seq<Call>, attempted: seq<Action>)

  function EventOf(action: Action): Event {
    match action
    case AskDrain => DrainRequested
    case AskResume => ResumeRequested
  }

  /** A call that reaches nobody fails, and so does every call once the daemon is out of reach. */
  const UNREACHED: Call := Call([], false, 0, Lost)

  function NextCall(w: World): Call {
    if w.calls == [] then UNREACHED else w.calls[0]
  }

  function Deliver(daemon: Running, action: Action, call: Call): Running {
    var now := Run(daemon, call.before);
    if call.reaches then Run(now, [EventOf(action)]) else now
  }

  /** The report is made before a resume's requests go on. */
  function AnswerOf(daemon: Running, action: Action, call: Call): Result<Reply> {
    match call.answer
    case Foreign(reply) => Ok(reply)
    case Lost => Err("no answer")
    case Faithful =>
      if !call.reaches then Err("no answer")
      else
        var now := Run(daemon, call.before);
        var report := if action.AskResume? then Activity(!now.gate.closed, Report(now).activeTurns)
                      else Report(Run(now, [EventOf(action)]));
        Ok(Reply(Some(report.activeTurns), Some(call.browser), Some(report.accepting)))
  }

  function Control(w: World, action: Action): (World, Result<Reply>) {
    var call := NextCall(w);
    (World(Deliver(w.daemon, action, call), if w.calls == [] then [] else w.calls[1..], w.attempted + [action]),
     AnswerOf(w.daemon, action, call))
  }

  class Client {
    var world: World

    constructor (world: World)
      ensures this.world == world
    {
      this.world := world;
    }

    method Ask(action: Action) returns (r: Result<Reply>)
      modifies this
      ensures world == Control(old(world), action).0 && r == Control(old(world), action).1
    {
      var next := Control(world, action);
      world := next.0;
      r := next.1;
    }
  }

  predicate ProvesIdle(r: Result<Reply>) {
    r.Ok? && r.value.accepting == Some(false)
    && r.value.activeHttp.Some? && r.value.activeHttp.value <= 0
    && r.value.activeBrowser.Some? && r.value.activeBrowser.value <= 0
  }

  class Lease {
    var drained: bool

    constructor ()
      ensures drained
    {
      drained := true;
    }

    /** Resume the daemon once; a failed release may be tried again. */
    method Release(client: Client) returns (r: Result<()>)
      modifies this, client
      ensures !old(drained) ==> client.world == old(client.world) && r == Ok(())
      ensures old(drained) ==> client.world == Control(old(client.world), AskResume).0
      ensures old(drained) ==> (r.Ok? <==> Control(old(client.world), AskResume).1.Ok?)
      ensures drained <==> r.Err?
    {
      if drained {
        var answer := client.Ask(AskResume);
        if answer.Err? {
          return Err(answer.error);
        }
        drained := false;
      }
      r := Ok(());
    }
  }

  /** What a negotiation does to the world, and whether it ends with a lease. */
  function Negotiated(w: World): (World, bool) {
    var (w1, answer) := Control(w, AskDrain);
    if ProvesIdle(answer) then (w1, true) else (Control(w1, AskResume).0, false)
  }

  method NegotiateDrain(client: Client) returns (lease: Option<Lease>)
    modifies client
    ensures client.world == Negotiated(old(client.world)).0
    ensures lease.Some? <==> Negotiated(old(client.world)).1
    ensures lease.Some? ==> fresh(lease.value) && lease.value.drained
  {
    var failed := true;
    var answer := client.Ask(AskDrain);
    if answer.Ok? {
      var health := answer.value;
      if health.activeHttp.Some? && health.activeBrowser.Some? && health.accepting == Some(false) {
        if !(health.activeHttp.value > 0 || health.activeBrowser.value > 0) {
          failed := false;
        }
      }
    }
    if failed {
      var _ := client.Ask(AskResume);
      return None;
    }
    var held := new Lease();
    lease := Some(held);
  }

  /**
   * A lease granted on the daemon's own answer means idleness that lasts: the daemon drains with no active turn,
   * and over any events but a resume none becomes active. Such a lease is granted exactly when the call reached
   * it, it answered, and no HTTP or browser turn was active.
   */
  lemma {:induction false} LeaseMeansIdle(w: World, later: seq<Event>)
    requires !NextCall(w).answer.Foreign? && ResumeRequested !in later
    ensures var call := NextCall(w);
      Negotiated(w).1 <==> call.reaches && call.answer.Faithful? && call.browser == 0
                           && Report(Run(w.daemon, call.before)).activeTurns == 0
    ensures Negotiated(w).1 ==>
      Report(Negotiated(w).0.daemon) == Activity(false, 0)
          && Report(Run(Negotiated(w).0.daemon, later)) == Activity(false, 0)
  {
    var call := NextCall(w);
    var now := Run(w.daemon, call.before);
    RunOne(now, DrainRequested);
    if Negotiated(w).1 {
      IdleUntilResume(Negotiated(w).0.daemon, later);
    }
  }

  /** Every failed negotiation attempts exactly one resume after its drain; a granted one attempts none. */
  lemma {:induction false} FailureCompensates(w: World)
    ensures Negotiated(w).0.attempted == w.attempted + if Negotiated(w).1 then [AskDrain] else [AskDrain, AskResume]
  {
    assert w.attempted + [AskDrain] + [AskResume] == w.attempted + [AskDrain, AskResume];
  }

  /**
   * What a failed negotiation leaves: if its resume reached the daemon, turns are accepted again and none is
   * held, unless the daemon is shutting down.
   */
  lemma {:induction false} FailureReopens(w: World)
    requires !Negotiated(w).1 && |w.calls| >= 2 && w.calls[1].reaches
    ensures var daemon := Negotiated(w).0.daemon;
      daemon.gate.waiters == [] && (daemon.gate.draining <==> daemon.gate.closed)
  {
    var w1 := Control(w, AskDrain).0;
    var now := Run(w1.daemon, w.calls[1].before);
    RunOne(now, ResumeRequested);
    if now.gate.closed {
      NothingAfterShutdown(now, [ResumeRequested]);
    } else {
      ResumeAdmitsInOrder(now);
    }
  }

  lemma {:induction false} ResumedAndRequested(daemon: Running)
    requires !daemon.gate.closed && daemon.gate.waiters == [] && |daemon.turns.active| == 0
    ensures Report(Run(daemon, [ResumeRequested, Arrive(Streaming, false)])).activeTurns == 1
  {
    hide Sound, Step;
    var events := [ResumeRequested, Arrive(Streaming, false)];
    assert events[..1] == [ResumeRequested];
    RunOne(daemon, ResumeRequested);
    var resumed := Run(daemon, [ResumeRequested]);
    NothingToContinue(daemon);
    TrackKeys(resumed, false);
    assert |resumed.turns.active.Keys| == 0;
    assert Track(resumed, false).active.Keys == {resumed.turns.nextId};
    ArrivesOpen(resumed);
  }

  lemma {:induction false} NothingToContinue(daemon: Running)
    requires !daemon.gate.closed && daemon.gate.waiters == []
    ensures Known(daemon, daemon.gate.waiters)
    ensures Step(daemon, ResumeRequested).turns == daemon.turns && !Step(daemon, ResumeRequested).gate.draining
  {
    hide Sound;
  }

  lemma {:induction false} ArrivesOpen(daemon: Running)
    requires !daemon.gate.draining
    ensures Known(daemon, daemon.gate.waiters) && Step(daemon, Arrive(Streaming, false)).turns == Track(daemon, false)
  {
    hide Track;
  }

  /** With a second controller the lease proves nothing: its resume lets a new turn in. */
  lemma {:induction false} SecondControllerBreaksTheLease()
    ensures var w := World(Fresh(), [Call([], true, 0, Faithful)], []);
      && Negotiated(w).1
      && Report(Run(Negotiated(w).0.daemon, [ResumeRequested, Arrive(Streaming, false)])).activeTurns == 1
  {
    hide Sound, Step;
    var w := World(Fresh(), [Call([], true, 0, Faithful)], []);
    LeaseMeansIdle(w, []);
    RunOne(Fresh(), DrainRequested);
    DrainedIs(Fresh());
    ResumedAndRequested(Negotiated(w).0.daemon);
  }

  lemma {:induction false} DrainedIs(daemon: Running)
    ensures Known(daemon, daemon.gate.waiters)
    ensures var s := Step(daemon, DrainRequested);
      && s.gate.waiters == daemon.gate.waiters && s.gate.closed == daemon.gate.closed && s.turns == daemon.turns
  {
  }
}
