/**
 * How a response ends: every terminal is traced back to the input that caused it, a stall to the silence before
 * it, and a terminal for an upstream throw to the item that was open.
 */
module BridgeEnds {
  import opened Common
  import opened Bridge
  import opened BridgeOrder
  import opened BridgeItems
  import opened BridgeRefinement

  // ---- Causes ----

  function FinalDetail(e: Event): Detail
    requires Final(e)
  {
    match e
    case Done(MaxTokens, _) => Reason("max_output_tokens")
    case Done(ContentFilter, _) => Reason("content_filter")
    case Done(_, _) => NoDetail
    case Incomplete(reason, _) => Reason(reason)
    case Error(message) => AdapterFailure(message)
  }

  /** The detail of the terminal an input calls for; `None` when it calls for none. */
  function Calls(cfg: Config, s: State, x: Input): Option<Detail> {
    if s.w.closed || !s.l.stepping then None
    else
      match x
      case EventInput(e, _) => if Final(e) then Some(FinalDetail(e)) else None
      case EndInput => Some(Reason("adapter_eof"))
      case ThrowInput => Some(ProxyFailure)
      case TickInput(at) => if at - s.l.lastAt >= cfg.stallMs then Some(Reason("upstream_stall_timeout")) else None
      case _ => None
  }

  /** While the wire is open the timer is on, and it holds its tongue exactly while no pull is being served. */
  ghost predicate Waiting(s: State) {
    !s.w.closed ==> s.l.beat && (s.l.gated <==> !s.l.stepping)
  }

  /** The terminals written, and whether the wire could be written to. */
  ghost predicate EndsWith(s: State, s': State, detail: Option<Detail>) {
    && (s'.l.reported.Some? ==>
          && detail.Some? && OrderOf(s'.w.frames).Some? && OrderOf(s'.w.frames).value.end.Some?
          && OrderOf(s'.w.frames).value.end.value.detail == detail.value)
    && (detail.Some? && s.w.room.None? ==> s'.l.reported.Some?)
  }

  lemma {:induction false} EmitEndEnds(s: State, s1: State, status: Status, detail: Detail, endTurn: Option<bool>)
    requires Midway(s) && !s.w.closed && s.l.reported.None? && Keeps(s, s1)
    ensures var s' := EmitEnd(s1, status, detail, endTurn);
      EndsWith(s, s', Some(detail)) && Concluded(s') && s'.l == s.l.(reported := s'.l.reported)
  {
    KeepsMidway(s, s1);
    EmitEndShows(s1, status, detail, endTurn);
    EmitEndConcludes(s1, status, detail, endTurn);
  }

  lemma {:induction false} ShutEnds(s: State, s1: State, detail: Option<Detail>)
    requires Concluded(s1) && EndsWith(s, s1, detail)
    ensures EndsWith(s, Shut(s1), detail) && Shut(s1).l == s1.l
  {
    ShutKeepsEnd(s1);
  }

  lemma {:induction false} FinalEnds(cfg: Config, s: State, e: Event)
    requires Midway(s) && !s.w.closed && s.l.reported.None? && Final(e)
    ensures var s' := Process(cfg, s, e);
      EndsWith(s, s', Some(FinalDetail(e))) && Concluded(s') && s'.l == s.l.(reported := s'.l.reported)
  {
    hide CloseAll, FlushHiddenEnvelope, EmitEnd, Keeps, Midway, Concluded, EndsWith, CompactionItem;
    CloseAndFlushKeeps(cfg, s);
    CloseAllKeeps(cfg, s);
    match e {
      case Done(stop, endTurn) =>
        var s2 := FlushHiddenEnvelope(CloseAll(cfg, s));
        var s3 := if cfg.compaction then CompactionItem(s2) else s2;
        CompactionKeeps(s, s2);
        EmitEndEnds(s, s3, Truncated, Reason("max_output_tokens"), endTurn);
        EmitEndEnds(s, s3, Truncated, Reason("content_filter"), endTurn);
        EmitEndEnds(s, s3, Completed, NoDetail, endTurn);
      case Incomplete(reason, endTurn) =>
        EmitEndEnds(s, FlushHiddenEnvelope(CloseAll(cfg, s)), Truncated, Reason(reason), endTurn);
      case Error(message) => EmitEndEnds(s, CloseAll(cfg, s), Failed, AdapterFailure(message), None);
    }
  }

  lemma {:induction false} CompactionKeeps(s: State, s2: State)
    requires Keeps(s, s2)
    ensures Keeps(s, CompactionItem(s2))
  {
    CompleteKeeps(s2.(i := s2.i.(nextId := s2.i.nextId + 1)), s2.i.outputIndex,
        Item(s2.i.nextId, Compaction(s2.p.compaction)));
  }

  // ---- One step ----

  /** Closing the stream after a terminal changes neither it nor what was reported. */
  lemma {:induction false} EndedLoopEnds(cfg: Config, s: State, s1: State, detail: Option<Detail>)
    requires Concluded(s1) && EndsWith(s, s1, detail)
    ensures EndsWith(s, AfterLoop(cfg, Terminated(s1)), detail)
  {
    hide Concluded, EndsWith, OrderOf, Shut, CloseAll;
    var t := Terminated(s1);
    var t1 := t.(l := t.l.(beat := false));
    LifeAside(s, s1, t1, detail);
    ShutEnds(s, t1, detail);
    var t2 := Shut(t1);
    LifeAside(s, t2, t2.(l := t2.l.(gated := true, stepping := false)), detail);
  }

  lemma {:induction false} LifeAside(s: State, s1: State, s2: State, detail: Option<Detail>)
    requires EndsWith(s, s1, detail) && s2.w == s1.w && s2.l.reported == s1.l.reported
    ensures EndsWith(s, s2, detail)
    ensures Concluded(s1) && s2.l.cancelled == s1.l.cancelled ==> Concluded(s2)
  {
  }

  lemma {:induction false} Unreported(s: State, s': State)
    requires s'.l.reported.None?
    ensures EndsWith(s, s', None)
  {
  }

  lemma {:induction false} SilentEnd(cfg: Config, s: State)
    requires Midway(s) && !s.w.closed && s.l.reported.None? && !s.l.terminated && s.l.upstreamDone
    ensures EndsWith(s, AfterLoop(cfg, s), Some(Reason("adapter_eof")))
  {
    hide Concluded, EndsWith, OrderOf, Shut, CloseAll, EmitEnd, Keeps, Midway;
    var s1 := s.(l := s.l.(beat := false));
    MidwayAside(s, s1);
    CloseAllKeeps(cfg, s1);
    EmitEndEnds(s1, CloseAll(cfg, s1), Truncated, Reason("adapter_eof"), None);
    var ended := EmitEnd(CloseAll(cfg, s1), Truncated, Reason("adapter_eof"), None);
    FromSameWire(s, s1, ended, Some(Reason("adapter_eof")));
    var s2 := ended.(l := ended.l.(terminated := true));
    LifeAside(s, ended, s2, Some(Reason("adapter_eof")));
    ShutEnds(s, s2, Some(Reason("adapter_eof")));
    var s3 := Shut(s2);
    LifeAside(s, s3, s3.(l := s3.l.(gated := true, stepping := false)), Some(Reason("adapter_eof")));
  }

  lemma {:induction false} MidwayAside(s: State, s1: State)
    requires Midway(s) && !s.w.closed && s1.w == s.w && s1.l.reported == s.l.reported && s1.l.cancelled == s.l.cancelled
    ensures Midway(s1)
  {
  }

  lemma {:induction false} FromSameWire(s: State, s0: State, s': State, detail: Option<Detail>)
    requires EndsWith(s0, s', detail) && s0.w == s.w
    ensures EndsWith(s, s', detail)
  {
  }

  lemma {:induction false} PumpsOn(cfg: Config, s: State)
    requires s.l.reported.None? && !s.l.upstreamDone && !s.l.terminated
    ensures LoopHead(cfg, s).l.reported.None?
  {
  }

  lemma {:induction false} ProcessUnreported(cfg: Config, s: State, e: Event)
    requires !Final(e)
    ensures Process(cfg, s, e).l == s.l
  {
    hide Process;
    ProcessKeeps(cfg, s, e);
  }

  /** A terminal is written by an input that calls for it, with its detail, and by no other. */
  lemma {:induction false} StepEnds(cfg: Config, s: State, x: Input)
    requires OrderInv(s) && Waiting(s) && s.l.reported.None?
    ensures EndsWith(s, Next(cfg, s, x), Calls(cfg, s, x))
  {
    hide Concluded, EndsWith, OrderOf, Shut, CloseAll, EmitEnd, Keeps, Midway, AfterLoop, LoopHead, Process, OrderInv;
    NextKeepsOrder(cfg, s, x);
    if s.w.closed {
      Unreported(s, Next(cfg, s, x));
    } else {
      OpenMeansIdle(s);
      InvIsMidway(s);
      match x {
        case PullInput =>
          var s0 := s.(l := s.l.(stepping := true, gated := false, emittedAtStart := s.w.emitted));
          PumpsOn(cfg, s0);
          Unreported(s, Next(cfg, s, x));
        case EventInput(e, at) => EventEnds(cfg, s, e, at);
        case EndInput =>
          var s0 := s.(l := s.l.(upstreamDone := true));
          MidwayAside(s, s0);
          if s.l.stepping {
            SilentEnd(cfg, s0);
            FromSameWire(s, s0, Next(cfg, s, x), Calls(cfg, s, x));
          } else {
            Unreported(s, Next(cfg, s, x));
          }
        case ThrowInput => ThrowEnds(cfg, s);
        case TickInput(at) => TickEnds(cfg, s, at);
        case CancelInput => Unreported(s, Next(cfg, s, x));
        case TearInput(room) => Unreported(s, Next(cfg, s, x));
      }
    }
  }

  lemma {:induction false} OpenMeansIdle(s: State)
    requires OrderInv(s) && !s.w.closed
    ensures !s.l.terminated && !s.l.upstreamDone && !s.l.cancelled && s.l.reported.None?
  {
  }

  lemma {:induction false} EventEnds(cfg: Config, s: State, e: Event, at: int)
    requires OrderInv(s) && !s.w.closed
    ensures EndsWith(s, Deliver(cfg, s, e, at), Calls(cfg, s, EventInput(e, at)))
  {
    hide Concluded, EndsWith, OrderOf, Shut, CloseAll, EmitEnd, Keeps, Midway, AfterLoop, LoopHead, Process, OrderInv;
    OpenMeansIdle(s);
    InvIsMidway(s);
    var s0, s' := s.(l := s.l.(lastAt := at)), Deliver(cfg, s, e, at);
    MidwayAside(s, s0);
    if !s.l.stepping {
      Unreported(s, s');
    } else if Final(e) {
      FinalEnds(cfg, s0, e);
      EndedLoopEnds(cfg, s0, Process(cfg, s0, e), Some(FinalDetail(e)));
      FromSameWire(s, s0, s', Some(FinalDetail(e)));
    } else {
      ProcessUnreported(cfg, s0, e);
      PumpsOn(cfg, Process(cfg, s0, e));
      PumpsOn(cfg, s0);
      if e.TextDelta? {
        PumpsOn(cfg, s0.(p := s0.p.(compaction := s0.p.compaction + e.text)));
      }
      Unreported(s, s');
    }
  }

  lemma {:induction false} ThrowEnds(cfg: Config, s: State)
    requires OrderInv(s) && !s.w.closed
    ensures EndsWith(s, UpstreamThrow(cfg, s), Calls(cfg, s, ThrowInput))
  {
    hide Concluded, EndsWith, OrderOf, Shut, CloseAll, EmitEnd, Keeps, Midway, AfterLoop, FlushHiddenRaw, OrderInv;
    OpenMeansIdle(s);
    InvIsMidway(s);
    if s.l.stepping {
      FlushKeeps(s);
      EmitEndEnds(s, FlushHiddenRaw(s), Failed, ProxyFailure, None);
      EndedLoopEnds(cfg, s, EmitEnd(FlushHiddenRaw(s), Failed, ProxyFailure, None), Some(ProxyFailure));
    } else {
      Unreported(s, s);
    }
  }

  lemma {:induction false} TickEnds(cfg: Config, s: State, at: int)
    requires OrderInv(s) && Waiting(s) && !s.w.closed
    ensures EndsWith(s, Tick(cfg, s, at), Calls(cfg, s, TickInput(at)))
  {
    hide Concluded, EndsWith, OrderOf, Shut, CloseAll, EmitEnd, Keeps, Midway, OrderInv;
    OpenMeansIdle(s);
    InvIsMidway(s);
    if s.l.stepping && at - s.l.lastAt >= cfg.stallMs {
      var detail := Reason("upstream_stall_timeout");
      CloseAllKeeps(cfg, s);
      EmitEndEnds(s, CloseAll(cfg, s), Truncated, detail, None);
      var s1 := EmitEnd(CloseAll(cfg, s), Truncated, detail, None);
      ShutEnds(s, s1, Some(detail));
      LifeAside(s, Shut(s1), Tick(cfg, s, at), Some(detail));
    } else {
      Unreported(s, Tick(cfg, s, at));
    }
  }

  // ---- Waiting ----

  lemma {:induction false} AfterLoopWaits(cfg: Config, s: State)
    requires s.w.closed || s.l.terminated || s.l.upstreamDone || s.l.beat
    ensures Waiting(AfterLoop(cfg, s))
  {
    hide CloseAll, EmitEnd;
  }

  lemma {:induction false} LoopWaits(cfg: Config, s: State)
    requires s.w.closed || s.l.terminated || (s.l.beat && s.l.stepping && !s.l.gated)
    ensures Waiting(LoopHead(cfg, s)) && Waiting(AfterLoop(cfg, s))
  {
    hide AfterLoop;
    AfterLoopWaits(cfg, s);
  }

  lemma {:induction false} StepWaits(cfg: Config, s: State, x: Input)
    requires Waiting(s)
    ensures Waiting(Next(cfg, s, x))
  {
    hide CloseAll, EmitEnd, AfterLoop, LoopHead, Process, Waiting;
    WaitingMeans(s);
    match x {
      case PullInput =>
        LoopWaits(cfg, s.(l := s.l.(stepping := true, gated := false, emittedAtStart := s.w.emitted)));
        WaitingMeans(Next(cfg, s, x));
      case EventInput(e, at) => DeliverWaits(cfg, s, e, at);
      case EndInput => AfterLoopWaits(cfg, s.(l := s.l.(upstreamDone := true)));
      case ThrowInput =>
        AfterLoopWaits(cfg, s);
        LoopWaits(cfg, Terminated(EmitEnd(FlushHiddenRaw(s), Failed, ProxyFailure, None)));
      case TickInput(at) => WaitingMeans(Next(cfg, s, x));
      case CancelInput => WaitingMeans(Next(cfg, s, x));
      case TearInput(room) => WaitingMeans(Next(cfg, s, x));
    }
  }

  lemma {:induction false} WaitingMeans(s: State)
    ensures Waiting(s) <==> (!s.w.closed ==> s.l.beat && (s.l.gated <==> !s.l.stepping))
  {
  }

  lemma {:induction false} DeliverWaits(cfg: Config, s: State, e: Event, at: int)
    requires Waiting(s)
    ensures Waiting(Deliver(cfg, s, e, at))
  {
    hide CloseAll, EmitEnd, AfterLoop, LoopHead, Process;
    var s0 := s.(l := s.l.(lastAt := at));
    if s.l.stepping {
      if Final(e) {
        LoopWaits(cfg, Terminated(Process(cfg, s0, e)));
      } else {
        ProcessUnreported(cfg, s0, e);
        StaysClosed(cfg, s0, e);
        LoopWaits(cfg, Process(cfg, s0, e));
      }
      LoopWaits(cfg, s0);
      if e.TextDelta? {
        LoopWaits(cfg, s0.(p := s0.p.(compaction := s0.p.compaction + e.text)));
      }
    }
  }

  lemma {:induction false} StaysClosed(cfg: Config, s: State, e: Event)
    requires !Final(e)
    ensures s.w.closed ==> Process(cfg, s, e).w.closed
  {
    hide Process;
    ProcessKeeps(cfg, s, e);
  }

  lemma {:induction false} RunWaits(cfg: Config, now: int, xs: seq<Input>)
    ensures Waiting(Run(cfg, now, xs)) && OrderInv(Run(cfg, now, xs))
  {
    hide Next, OrderInv, Waiting;
    RunKeepsOrder(cfg, now, xs);
    if xs == [] {
      WaitingMeans(Start(now));
    } else {
      RunWaits(cfg, now, xs[..|xs| - 1]);
      StepWaits(cfg, Run(cfg, now, xs[..|xs| - 1]), xs[|xs| - 1]);
    }
  }

  // ---- Runs ----

  /** When the last event was taken from the adapter, or the stream began. */
  function LastArrival(cfg: Config, now: int, xs: seq<Input>): int {
    if xs == [] then now
    else
      var init, x := xs[..|xs| - 1], xs[|xs| - 1];
      if x.EventInput? && Run(cfg, now, init).l.stepping then x.at else LastArrival(cfg, now, init)
  }

  lemma {:induction false} FinalArrival(cfg: Config, s: State, e: Event)
    requires Final(e)
    ensures Process(cfg, s, e).l.lastAt == s.l.lastAt
  {
    hide CloseAll, FlushHiddenEnvelope, EmitEnd, CompactionItem, Extends;
    CloseAndFlushKeeps(cfg, s);
    CloseAllKeeps(cfg, s);
    match e {
      case Done(stop, endTurn) =>
        var s2 := FlushHiddenEnvelope(CloseAll(cfg, s));
        CompactionKeeps(s, s2);
        var s3 := if cfg.compaction then CompactionItem(s2) else s2;
        ReportKeepsArrival(s3, Truncated, Reason("max_output_tokens"), endTurn);
        ReportKeepsArrival(s3, Truncated, Reason("content_filter"), endTurn);
        ReportKeepsArrival(s3, Completed, NoDetail, endTurn);
      case Incomplete(reason, endTurn) =>
        ReportKeepsArrival(FlushHiddenEnvelope(CloseAll(cfg, s)), Truncated, Reason(reason), endTurn);
      case Error(message) => ReportKeepsArrival(CloseAll(cfg, s), Failed, AdapterFailure(message), None);
    }
  }

  lemma {:induction false} ReportKeepsArrival(s: State, status: Status, detail: Detail, endTurn: Option<bool>)
    ensures EmitEnd(s, status, detail, endTurn).l.lastAt == s.l.lastAt
  {
  }

  lemma {:induction false} AfterLoopArrival(cfg: Config, s: State)
    ensures AfterLoop(cfg, s).l.lastAt == s.l.lastAt && LoopHead(cfg, s).l.lastAt == s.l.lastAt
  {
    hide CloseAll;
    CloseAllKeeps(cfg, s.(l := s.l.(beat := false)));
  }

  lemma {:induction false} ArrivalAfterEvent(cfg: Config, s: State, e: Event, at: int)
    requires s.l.stepping
    ensures Deliver(cfg, s, e, at).l.lastAt == at
  {
    hide Process, AfterLoop, LoopHead;
    var s0 := s.(l := s.l.(lastAt := at));
    AfterLoopArrival(cfg, s0);
    if Final(e) {
      FinalArrival(cfg, s0, e);
      AfterLoopArrival(cfg, Terminated(Process(cfg, s0, e)));
    } else {
      ProcessUnreported(cfg, s0, e);
      AfterLoopArrival(cfg, Process(cfg, s0, e));
    }
    if e.TextDelta? {
      AfterLoopArrival(cfg, s0.(p := s0.p.(compaction := s0.p.compaction + e.text)));
    }
  }

  lemma {:induction false} SameArrival(cfg: Config, s: State, x: Input)
    ensures Next(cfg, s, x).l.lastAt == if x.EventInput? && s.l.stepping then x.at else s.l.lastAt
  {
    hide CloseAll, FlushHiddenRaw, Process, AfterLoop, LoopHead;
    match x {
      case PullInput =>
        AfterLoopArrival(cfg, s.(l := s.l.(stepping := true, gated := false, emittedAtStart := s.w.emitted)));
      case EventInput(e, at) =>
        if s.l.stepping {
          ArrivalAfterEvent(cfg, s, e, at);
        }
      case EndInput => AfterLoopArrival(cfg, s.(l := s.l.(upstreamDone := true)));
      case ThrowInput =>
        FlushKeeps(s);
        AfterLoopArrival(cfg, s);
        AfterLoopArrival(cfg, Terminated(EmitEnd(FlushHiddenRaw(s), Failed, ProxyFailure, None)));
      case TickInput(at) => CloseAllKeeps(cfg, s);
      case CancelInput =>
      case TearInput(room) =>
    }
  }

  lemma {:induction false} ArrivalIsTracked(cfg: Config, now: int, xs: seq<Input>)
    ensures Run(cfg, now, xs).l.lastAt == LastArrival(cfg, now, xs)
  {
    hide Next;
    if xs != [] {
      ArrivalIsTracked(cfg, now, xs[..|xs| - 1]);
      SameArrival(cfg, Run(cfg, now, xs[..|xs| - 1]), xs[|xs| - 1]);
    }
  }

  /** One more input writes a terminal exactly when it calls for one, unless the controller broke. */
  lemma {:induction false} TerminalExactlyWhen(cfg: Config, now: int, xs: seq<Input>, x: Input)
    requires Run(cfg, now, xs).l.reported.None?
    ensures var s, s' := Run(cfg, now, xs), Run(cfg, now, xs + [x]);
      && (s'.l.reported.Some? ==>
            Calls(cfg, s, x).Some? && |Terminals(s'.w.frames)| == 1
                && Terminals(s'.w.frames)[0].detail == Calls(cfg, s, x).value)
      && (s.w.room.None? ==> (s'.l.reported.Some? <==> Calls(cfg, s, x).Some?))
  {
    hide Next, Calls, OrderInv, Waiting, WellOrdered;
    RunWaits(cfg, now, xs);
    assert (xs + [x])[..|xs|] == xs;
    StepEnds(cfg, Run(cfg, now, xs), x);
    RunKeepsOrder(cfg, now, xs + [x]);
    if Run(cfg, now, xs + [x]).l.reported.Some? {
      EndIsTerminal(Run(cfg, now, xs + [x]));
    }
  }

  lemma {:induction false} EndIsTerminal(s: State)
    requires OrderInv(s) && s.l.reported.Some?
    ensures OrderOf(s.w.frames).Some? && OrderOf(s.w.frames).value.end.Some?
    ensures Terminals(s.w.frames) == [OrderOf(s.w.frames).value.end.value]
  {
    OrderCounts(s.w.frames);
  }

  /** Every terminal has a cause: an input of the run that called for it, with its detail, on an open wire. */
  lemma {:induction false} TerminalHasACause(cfg: Config, now: int, xs: seq<Input>) returns (k: nat)
    requires Run(cfg, now, xs).l.reported.Some?
    ensures k < |xs| && Run(cfg, now, xs[..k]).l.reported.None?
    ensures |Terminals(Run(cfg, now, xs).w.frames)| == 1
    ensures Calls(cfg, Run(cfg, now, xs[..k]), xs[k]) == Some(Terminals(Run(cfg, now, xs).w.frames)[0].detail)
    ensures Run(cfg, now, xs).w.frames == Run(cfg, now, xs[..k + 1]).w.frames
  {
    hide Next, Calls, Terminals, WellOrdered;
    var init, x := xs[..|xs| - 1], xs[|xs| - 1];
    assert init + [x] == xs;
    if Run(cfg, now, init).l.reported.None? {
      k := |init|;
      assert xs[..k] == init && xs[..k + 1] == xs;
      TerminalExactlyWhen(cfg, now, init, x);
    } else {
      k := TerminalHasACause(cfg, now, init);
      assert xs[..k] == init[..k] && xs[..k + 1] == init[..k + 1] && xs[k] == init[k];
      ExactlyOneTerminal(cfg, now, init);
      WireOnlyGrows(cfg, now, init, [x]);
    }
  }

  /**
   * A stall ends the turn at a tick exactly when an event is being waited for and none has arrived for the whole
   * budget; with a broken controller it may go unwritten.
   */
  lemma {:induction false} StallNeedsSilence(cfg: Config, now: int, xs: seq<Input>, at: int)
    requires Run(cfg, now, xs).l.reported.None?
    ensures var s, s' := Run(cfg, now, xs), Run(cfg, now, xs + [TickInput(at)]);
      var silent := !s.w.closed && s.l.stepping && at - LastArrival(cfg, now, xs) >= cfg.stallMs;
      && (s'.l.reported.Some? ==>
            && silent && |Terminals(s'.w.frames)| == 1
            && Terminals(s'.w.frames)[0].detail == Reason("upstream_stall_timeout"))
      && (s.w.room.None? && silent ==> s'.l.reported.Some?)
  {
    hide Next, OrderInv, Waiting, WellOrdered, Terminals;
    TerminalExactlyWhen(cfg, now, xs, TickInput(at));
    ArrivalIsTracked(cfg, now, xs);
  }

  /** A terminal that says so comes from such a tick, unless the adapter itself gave this reason. */
  lemma {:induction false} StallHasACause(cfg: Config, now: int, xs: seq<Input>) returns (k: nat)
    requires Run(cfg, now, xs).l.reported.Some?
    requires Terminals(Run(cfg, now, xs).w.frames) != []
      && Terminals(Run(cfg, now, xs).w.frames)[0].detail == Reason("upstream_stall_timeout")
    ensures k < |xs| && Run(cfg, now, xs[..k]).l.stepping
    ensures
      || (xs[k].TickInput? && xs[k].at - LastArrival(cfg, now, xs[..k]) >= cfg.stallMs)
      || (xs[k].EventInput? && xs[k].event.Incomplete? && xs[k].event.reason == "upstream_stall_timeout")
  {
    hide Run, Terminals;
    k := TerminalHasACause(cfg, now, xs);
    ArrivalIsTracked(cfg, now, xs[..k]);
  }

  // ---- Keep-alive, pump and caller ----

  /**
   * Over every run, a tick within the silence budget of an awaited event sends one heartbeat and changes nothing
   * else.
   */
  lemma {:induction false} EarlyTickBeats(cfg: Config, now: int, xs: seq<Input>, at: int)
    requires at - LastArrival(cfg, now, xs) < cfg.stallMs
    ensures var s, s' := Run(cfg, now, xs), Run(cfg, now, xs + [TickInput(at)]);
      if s.w.closed || !s.l.stepping then s' == s
      else
        && s'.i == s.i && s'.p == s.p && s'.l == s.l
        && (s.w.room != Some(0) ==> s'.w.frames == s.w.frames + [Sent(None, Heartbeat)] && !s'.w.closed)
        && (s.w.room == Some(0) ==> s'.w.frames == s.w.frames && s'.w.closed)
  {
    hide CloseAll, EmitEnd, Shut, OrderInv;
    RunWaits(cfg, now, xs);
    ArrivalIsTracked(cfg, now, xs);
    assert (xs + [TickInput(at)])[..|xs|] == xs;
  }

  /** Before the gate opens, after the wire is closed, or once the turn is over, the timer does nothing at all. */
  lemma {:induction false} IdleTickIsSilent(cfg: Config, now: int, xs: seq<Input>, at: int)
    requires Run(cfg, now, xs).w.closed || !Run(cfg, now, xs).l.stepping
    ensures Run(cfg, now, xs + [TickInput(at)]) == Run(cfg, now, xs)
  {
    hide CloseAll, EmitEnd, Shut, OrderInv;
    RunWaits(cfg, now, xs);
    assert (xs + [TickInput(at)])[..|xs|] == xs;
  }

  /** How many frames there were when the reader last asked for more. */
  function AskedAt(cfg: Config, now: int, xs: seq<Input>): nat {
    if xs == [] then 0
    else
      var init := xs[..|xs| - 1];
      var s := Run(cfg, now, init);
      if xs[|xs| - 1].PullInput? && !s.l.stepping && !s.w.closed then |s.w.frames| else AskedAt(cfg, now, init)
  }

  /** The bridge counts the frames, and remembers the count of the last pull. */
  predicate Counts(s: State, asked: nat) {
    !s.w.closed ==> s.w.emitted == |s.w.frames| && s.l.emittedAtStart == asked
  }

  predicate CountsOn(w: Wire, w': Wire) {
    w.emitted == |w.frames| ==> w'.emitted == |w'.frames|
  }

  lemma {:induction false} EmitCounts(w: Wire, f: Frame)
    ensures CountsOn(w, Emit(w, f)) && CountsOn(w, EmitPlain(w, f))
  {
  }

  lemma {:induction false} FlushesCount(cfg: Config, s: State)
    ensures CountsOn(s.w, FlushHiddenEnvelope(s).w) && CountsOn(s.w, FlushHiddenRaw(s).w)
    ensures CountsOn(s.w, CloseMessage(s).w) && CountsOn(s.w, CloseReasoning(s).w)
    ensures CountsOn(s.w, CloseRaw(s).w) && CountsOn(s.w, CloseTool(cfg, s).w)
  {
    hide FlushHiddenEnvelope, FlushHiddenRaw, CloseMessage, CloseReasoning, CloseRaw, CloseTool, CountsOn;
    HiddenCount(s);
    ItemsCount(s);
    ToolCounts(cfg, s);
  }

  lemma {:induction false} HiddenCount(s: State)
    ensures CountsOn(s.w, FlushHiddenEnvelope(s).w) && CountsOn(s.w, FlushHiddenRaw(s).w)
  {
  }

  lemma {:induction false} ItemsCount(s: State)
    ensures CountsOn(s.w, CloseMessage(s).w) && CountsOn(s.w, CloseReasoning(s).w) && CountsOn(s.w, CloseRaw(s).w)
  {
    hide TakeEnvelope;
  }

  lemma {:induction false} ToolCounts(cfg: Config, s: State)
    ensures CountsOn(s.w, CloseTool(cfg, s).w)
  {
    hide CallBody;
  }

  lemma {:induction false} CloseAllCounts(cfg: Config, s: State)
    ensures CountsOn(s.w, CloseAll(cfg, s).w)
  {
    hide CloseMessage, CloseReasoning, CloseRaw, CloseTool, FlushHiddenRaw;
    FlushesCount(cfg, s);
    FlushesCount(cfg, CloseMessage(s));
    FlushesCount(cfg, CloseReasoning(CloseMessage(s)));
    FlushesCount(cfg, CloseRaw(CloseReasoning(CloseMessage(s))));
    FlushesCount(cfg, FlushHiddenRaw(CloseRaw(CloseReasoning(CloseMessage(s)))));
  }

  lemma {:induction false} TextCounts(cfg: Config, s: State, text: Text, phase: Option<Phase>)
    ensures CountsOn(s.w, OnText(cfg, s, text, phase).w)
  {
    hide CloseMessage, CloseReasoning, CloseRaw, CloseTool, FlushHiddenRaw, OpenMessage, AppendMessage;
    FlushesCount(cfg, s);
    FlushesCount(cfg, CloseReasoning(s));
    FlushesCount(cfg, CloseRaw(CloseReasoning(s)));
    FlushesCount(cfg, FlushHiddenRaw(CloseRaw(CloseReasoning(s))));
    var s1 := CloseTool(cfg, FlushHiddenRaw(CloseRaw(CloseReasoning(s))));
    FlushesCount(cfg, s1);
    var s2 := if s1.i.message.Some? && s1.i.message.value.phase != phase then CloseMessage(s1) else s1;
    OpeningsCount(s2, phase);
    var s3 := if s2.i.message.None? then OpenMessage(s2, phase) else s2;
    AppendsCount(s3, text);
  }

  lemma {:induction false} OpeningsCount(s: State, phase: Option<Phase>)
    ensures CountsOn(s.w, OpenMessage(s, phase).w) && OpenMessage(s, phase).i.message.Some?
    ensures CountsOn(s.w, OpenReasoning(s).w) && OpenReasoning(s).i.reasoning.Some?
    ensures CountsOn(s.w, OpenRaw(s).w) && OpenRaw(s).i.raw.Some?
  {
  }

  lemma {:induction false} AppendsCount(s: State, text: Text)
    ensures s.i.message.Some? ==> CountsOn(s.w, AppendMessage(s, text).w)
    ensures s.i.reasoning.Some? ==> CountsOn(s.w, AppendReasoning(s, text).w)
    ensures s.i.raw.Some? ==> CountsOn(s.w, AppendRaw(s, text).w)
  {
  }

  lemma {:induction false} ThinkingCounts(cfg: Config, s: State, text: Text)
    ensures CountsOn(s.w, OnThinking(cfg, s, text).w)
  {
    hide CloseMessage, CloseRaw, CloseTool, FlushHiddenRaw, OpenReasoning, AppendReasoning;
    if !cfg.hide {
      FlushesCount(cfg, s);
      FlushesCount(cfg, CloseMessage(s));
      FlushesCount(cfg, CloseRaw(CloseMessage(s)));
      FlushesCount(cfg, FlushHiddenRaw(CloseRaw(CloseMessage(s))));
      var s1 := CloseTool(cfg, FlushHiddenRaw(CloseRaw(CloseMessage(s))));
      OpeningsCount(s1, None);
      AppendsCount(if s1.i.reasoning.None? then OpenReasoning(s1) else s1, text);
    }
  }

  lemma {:induction false} RawCounts(cfg: Config, s: State, text: Text)
    ensures CountsOn(s.w, OnRaw(cfg, s, text).w)
  {
    hide CloseMessage, CloseReasoning, CloseTool, OpenRaw, AppendRaw;
    if !cfg.hide {
      FlushesCount(cfg, s);
      FlushesCount(cfg, CloseMessage(s));
      FlushesCount(cfg, CloseReasoning(CloseMessage(s)));
      var s1 := CloseTool(cfg, CloseReasoning(CloseMessage(s)));
      OpeningsCount(s1, None);
      AppendsCount(if s1.i.raw.None? then OpenRaw(s1) else s1, text);
    }
  }

  lemma {:induction false} ProcessCounts(cfg: Config, s: State, e: Event)
    requires !Final(e)
    ensures CountsOn(s.w, Process(cfg, s, e).w)
  {
    hide OnText, OnThinking, OnRaw, CloseAll, FlushHiddenEnvelope, CloseTool, Emit;
    match e {
      case Boundary =>
        CloseAllCounts(cfg, s);
        FlushesCount(cfg, CloseAll(cfg, s));
      case TextDelta(text, phase) => TextCounts(cfg, s, text, phase);
      case ThinkingDelta(text) => ThinkingCounts(cfg, s, text);
      case ThinkingSignature(signature) => FlushesCount(cfg, s.(p := s.p.(sig := signature)));
      case RawDelta(text) => RawCounts(cfg, s, text);
      case ToolStart(callId, name) =>
        CloseAllCounts(cfg, s);
        var s1 := CloseAll(cfg, s);
        var body := CallStarted(cfg.tools, callId, ToolName(cfg.tools, name), ToolNamespace(cfg.tools, name));
        EmitCounts(s1.w, Added(s1.i.outputIndex, Item(s1.i.nextId, body)));
      case ToolDelta(arguments) => ArgumentsCount(cfg, s, arguments);
      case ToolEnd => FlushesCount(cfg, s);
      case _ =>
    }
  }

  lemma {:induction false} ArgumentsCount(cfg: Config, s: State, arguments: Text)
    ensures CountsOn(s.w, OnToolDelta(cfg, s, arguments).w)
  {
  }

  lemma {:induction false} RunCounts(cfg: Config, now: int, xs: seq<Input>)
    ensures Counts(Run(cfg, now, xs), AskedAt(cfg, now, xs))
  {
    if xs != [] {
      hide Next, Counts, AskedAt;
      RunCounts(cfg, now, xs[..|xs| - 1]);
      RunKeepsOrder(cfg, now, xs[..|xs| - 1]);
      StepCounts(cfg, Run(cfg, now, xs[..|xs| - 1]), xs[|xs| - 1], AskedAt(cfg, now, xs[..|xs| - 1]));
      AskedNext(cfg, now, xs);
    }
  }

  lemma {:induction false} AskedNext(cfg: Config, now: int, xs: seq<Input>)
    requires xs != []
    ensures var init := xs[..|xs| - 1];
      var s := Run(cfg, now, init);
      AskedAt(cfg, now, xs) ==
        if xs[|xs| - 1].PullInput? && !s.l.stepping && !s.w.closed then |s.w.frames| else AskedAt(cfg, now, init)
  {
  }

  lemma {:induction false} StepCounts(cfg: Config, s: State, x: Input, asked: nat)
    requires Counts(s, asked) && OrderInv(s)
    ensures Counts(Next(cfg, s, x), if x.PullInput? && !s.l.stepping && !s.w.closed then |s.w.frames| else asked)
  {
    hide Process, CloseAll, FlushHiddenRaw, EmitEnd, OnDone, OnIncomplete, OnError, OrderInv;
    NextKeepsOrder(cfg, s, x);
    if !s.w.closed {
      OpenMeansIdle(s);
      if x.EventInput? && !Final(x.event) {
        ProcessKeeps(cfg, s.(l := s.l.(lastAt := x.at)), x.event);
        ProcessCounts(cfg, s.(l := s.l.(lastAt := x.at)), x.event);
      }
    }
  }

  /**
   * Backpressure over every run: a pull on an idle open wire starts a step; the step takes events for as long as none
   * of them puts a frame on the wire, and is over with the first that does, until the reader asks again.
   */
  lemma {:induction false} PumpsUntilOutput(cfg: Config, now: int, xs: seq<Input>, e: Event, at: int)
    requires !Run(cfg, now, xs).w.closed && !Final(e)
    ensures var s, s' := Run(cfg, now, xs), Run(cfg, now, xs + [EventInput(e, at)]);
      && (!s.l.stepping ==> s' == s && Run(cfg, now, xs + [PullInput]).l.stepping)
      && (s.l.stepping && !s'.w.closed ==> (s'.l.stepping <==> |s'.w.frames| == AskedAt(cfg, now, xs)))
  {
    hide Process, OrderInv;
    var s := Run(cfg, now, xs);
    RunCounts(cfg, now, xs);
    RunCounts(cfg, now, xs + [EventInput(e, at)]);
    RunKeepsOrder(cfg, now, xs);
    OpenMeansIdle(s);
    assert (xs + [EventInput(e, at)])[..|xs|] == xs && (xs + [PullInput])[..|xs|] == xs;
    ProcessKeeps(cfg, s.(l := s.l.(lastAt := at)), e);
    ProcessCounts(cfg, s.(l := s.l.(lastAt := at)), e);
  }

  /** The caller is told once for each final event, throw and stall, and for a cancel, but not for a mere end. */
  lemma {:induction false} CallerIsTold(cfg: Config, now: int, xs: seq<Input>, x: Input)
    requires !Run(cfg, now, xs).w.closed
    ensures var s, s' := Run(cfg, now, xs), Run(cfg, now, xs + [x]);
      s'.l.cancels == s.l.cancels + if x.CancelInput? || (Calls(cfg, s, x).Some? && !x.EndInput?) then 1 else 0
  {
    hide Process, CloseAll, FlushHiddenRaw, OrderInv, OnDone, OnIncomplete, OnError;
    var s := Run(cfg, now, xs);
    RunWaits(cfg, now, xs);
    OpenMeansIdle(s);
    assert (xs + [x])[..|xs|] == xs;
    FlushKeeps(s);
    CloseAllKeeps(cfg, s);
    CloseAllKeeps(cfg, s.(l := s.l.(upstreamDone := true, beat := false)));
    if x.EventInput? {
      var s0 := s.(l := s.l.(lastAt := x.at));
      if Final(x.event) {
        InvIsMidway(s);
        MidwayAside(s, s0);
        FinalEnds(cfg, s0, x.event);
      } else {
        ProcessKeeps(cfg, s0, x.event);
      }
    }
  }

  // ---- Throws ----

  lemma {:induction false} EndsAnnounceNothing(frames: seq<Sent>, more: seq<Sent>)
    requires frames <= more && forall i :: |frames| <= i < |more| ==> !more[i].frame.Added? && !more[i].frame.ItemDone?
    ensures Announcements(more) == Announcements(frames) && Completions(more) == Completions(frames)
    decreases |more|
  {
    if |more| > |frames| {
      EndsAnnounceNothing(frames, more[..|more| - 1]);
    } else {
      assert more == frames;
    }
  }

  /** After a throw every announced item is completed exactly when no item was open. */
  lemma {:induction false} ThrowLeavesOpenItem(cfg: Config, s: State)
    requires ItemsInv(cfg, s) && s.p.hiddenRaw == [] && !s.w.closed && s.l.stepping && !s.l.terminated
    ensures var frames := UpstreamThrow(cfg, s).w.frames;
      |Announcements(frames)| == |Completions(frames)| <==> NothingOpen(s.i)
  {
    hide CloseAll, OneOpen;
    FlushHiddenRawIsIdle(s);
    AcceptedMeans(cfg, s.w.frames);
    EndsAnnounceNothing(s.w.frames, UpstreamThrow(cfg, s).w.frames);
  }

  /**
   * A terminal for an upstream throw comes from a throw input, and then every announced item was completed
   * exactly when no item was open at that moment.
   */
  lemma {:induction false} ThrownTerminal(cfg: Config, now: int, xs: seq<Input>) returns (k: nat)
    requires InputsFit(cfg, now, xs)
    requires Run(cfg, now, xs).l.reported.Some? && Terminals(Run(cfg, now, xs).w.frames) != []
    requires Terminals(Run(cfg, now, xs).w.frames)[0].detail == ProxyFailure
    ensures k < |xs| && xs[k].ThrowInput?
    ensures var frames := Run(cfg, now, xs).w.frames;
      Announcements(frames) == Places(Terminals(frames)[0].output) <==> NothingOpen(Run(cfg, now, xs[..k]).i)
  {
    hide Terminals, OneOpen, NothingOpen, Places, Announcements, Completions, Next;
    k := TerminalHasACause(cfg, now, xs);
    var s := Run(cfg, now, xs[..k]);
    FitsBefore(cfg, now, xs, k);
    StrictReaderAccepts(cfg, now, xs[..k]);
    RunWaits(cfg, now, xs[..k]);
    OpenMeansIdle(s);
    assert xs[..k + 1][..k] == xs[..k] && xs[..k + 1][k] == xs[k];
    ThrowIs(cfg, now, xs[..k + 1]);
    FitsBefore(cfg, now, xs, k + 1);
    ThrowFlushes(cfg, s);
    if FlushHiddenRaw(s).w.closed {
      ThrowIsSilent(cfg, s);
      ExactlyOneTerminal(cfg, now, xs[..k + 1]);
    } else {
      ThrowLeavesOpenItem(cfg, FlushHiddenRaw(s));
    }
    TerminalListsEveryItem(cfg, now, xs);
    PlacesCount(Run(cfg, now, xs).w.frames);
  }

  /** Hidden raw reasoning that waits at a throw gets its item before the terminal. */
  lemma {:induction false} ThrowFlushes(cfg: Config, s: State)
    requires ItemsInv(cfg, s) && InputFits(cfg, s, ThrowInput) && s.l.stepping && !s.l.terminated
    ensures var s1 := FlushHiddenRaw(s);
      && ItemsInv(cfg, s1) && s1.p.hiddenRaw == [] && (NothingOpen(s1.i) <==> NothingOpen(s.i)) && s1.l == s.l
      && UpstreamThrow(cfg, s1) == UpstreamThrow(cfg, s)
  {
    hide OneOpen, Reads, AfterLoop, EmitEnd;
    FlushHiddenRawReads(cfg, s);
  }

  lemma {:induction false} ThrowIsSilent(cfg: Config, s: State)
    requires s.l.stepping && !s.l.terminated && FlushHiddenRaw(s).w.closed && s.l.reported.None?
    ensures UpstreamThrow(cfg, s).l.reported.None?
  {
  }

  lemma {:induction false} ThrowIs(cfg: Config, now: int, xs: seq<Input>)
    requires xs != [] && xs[|xs| - 1] == ThrowInput
    ensures Run(cfg, now, xs) == UpstreamThrow(cfg, Run(cfg, now, xs[..|xs| - 1]))
  {
  }

  lemma {:induction false} FitsBefore(cfg: Config, now: int, xs: seq<Input>, k: nat)
    requires InputsFit(cfg, now, xs) && k <= |xs|
    ensures InputsFit(cfg, now, xs[..k])
  {
    if k < |xs| {
      FitsBefore(cfg, now, xs[..|xs| - 1], k);
      assert xs[..|xs| - 1][..k] == xs[..k];
    } else {
      assert xs[..k] == xs;
    }
  }

  lemma {:induction false} PlacesCount(frames: seq<Sent>)
    requires Terminals(frames) != [] && Completions(frames) == Indexed(Terminals(frames)[0].output)
    requires Places(Terminals(frames)[0].output) <= Announcements(frames)
    ensures Announcements(frames) == Places(Terminals(frames)[0].output) <==>
      |Announcements(frames)| == |Completions(frames)|
  {
    hide Terminals, Announcements, Completions;
  }
}
