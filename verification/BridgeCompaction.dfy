/** A compaction turn shows nothing but its summary: one item at a proper end, holding all the text the adapter sent. */
module BridgeCompaction {
  import opened Common
  import opened Bridge
  import opened BridgeOrder
  import opened BridgeReadable
  import opened BridgeEnds
  import opened BridgeRefinement
  import opened BridgeContents

  /** What a compaction turn ends with. */
  predicate Summarises(t: Terminal, fed: seq<Event>) {
    if fed != [] && fed[|fed| - 1].Done? then |t.output| == 1 && t.output[0].body == Compaction(AllSaid(fed))
    else t.output == []
  }

  /** Nothing is shown yet, and all the text is collected. */
  predicate Collects(s: State, fed: seq<Event>) {
    Quiet(s) && s.i.finished == [] && s.p.compaction == AllSaid(fed)
  }

  ghost predicate CompactKept(s: State, fed: seq<Event>) {
    && OrderInv(s)
    && (!s.w.closed ==> Collects(s, fed) && !EndsFinal(fed))
    && (s.l.reported.Some? ==> Summarises(OrderOf(s.w.frames).value.end.value, fed))
  }

  lemma {:induction false} OpenCollects(s: State, fed: seq<Event>)
    requires CompactKept(s, fed) && !s.w.closed
    ensures Midway(s) && s.l.reported.None? && !s.l.terminated && !s.l.upstreamDone
    ensures Collects(s, fed) && !EndsFinal(fed)
  {
    hide Collects, Summarises;
    InvIsMidway(s);
    FlowingHasNoEnd(s.w.frames);
  }

  lemma {:induction false} CollectsAside(s: State, s': State, fed: seq<Event>)
    requires Collects(s, fed) && s'.i == s.i && s'.p == s.p
    ensures Collects(s', fed)
  {
  }

  lemma {:induction false} FinalCompacts(cfg: Config, s: State, fed: seq<Event>, e: Event)
    requires Collects(s, fed) && Midway(s) && s.l.reported.None? && Final(e) && cfg.compaction
    ensures var s' := AfterLoop(cfg, Terminated(Process(cfg, s, e)));
      OrderInv(s') ==> CompactKept(s', fed + [e])
  {
    hide Process, Concluded, AfterLoop, OrderInv, Midway, Collects, Summarises;
    if e.Done? {
      DoneCompacts(cfg, s, fed, e);
    } else {
      OtherCompacts(cfg, s, fed, e);
    }
    EndedLoop(cfg, Process(cfg, s, e));
  }

  /** The terminal written by this state, if it was written at all. */
  ghost predicate Written(s: State, fed: seq<Event>) {
    Concluded(s) && (s.l.reported.Some? ==> Summarises(OrderOf(s.w.frames).value.end.value, fed))
  }

  lemma {:induction false} DoneCompacts(cfg: Config, s: State, fed: seq<Event>, e: Event)
    requires Collects(s, fed) && Midway(s) && s.l.reported.None? && e.Done? && cfg.compaction
    ensures Written(Process(cfg, s, e), fed + [e])
  {
    hide CloseAll, FlushHiddenEnvelope, EmitEnd, Concluded, Midway, AllSaid, Keeps, CompactionItem, OrderOf;
    SaidNext(fed, e, None);
    SummaryItem(cfg, s, fed);
    var s3 := CompactionItem(FlushHiddenEnvelope(CloseAll(cfg, s)));
    EmitEndShows(s3, Truncated, Reason("max_output_tokens"), e.doneEndTurn);
    EmitEndShows(s3, Truncated, Reason("content_filter"), e.doneEndTurn);
    EmitEndShows(s3, Completed, NoDetail, e.doneEndTurn);
  }

  lemma {:induction false} SummaryItem(cfg: Config, s: State, fed: seq<Event>)
    requires Collects(s, fed) && Midway(s) && s.l.reported.None?
    ensures var s3 := CompactionItem(FlushHiddenEnvelope(CloseAll(cfg, s)));
      && Midway(s3) && s3.l.reported.None?
      && |s3.i.finished| == 1 && s3.i.finished[0].body == Compaction(AllSaid(fed))
  {
    hide CloseAll, FlushHiddenEnvelope, Midway, AllSaid, Keeps, Emit;
    ClosingIsIdle(cfg, s);
    CloseAndFlushKeeps(cfg, s);
    var s2 := FlushHiddenEnvelope(CloseAll(cfg, s));
    StillMidway(s, s2);
    FlushedText(s);
    CompactionKeeps(s2, s2) by { KeepsItself(s2); }
    StillMidway(s2, CompactionItem(s2));
  }

  lemma {:induction false} KeepsItself(s: State)
    ensures Keeps(s, s)
  {
  }

  lemma {:induction false} OtherCompacts(cfg: Config, s: State, fed: seq<Event>, e: Event)
    requires Collects(s, fed) && Midway(s) && s.l.reported.None? && (e.Incomplete? || e.Error?)
    ensures Written(Process(cfg, s, e), fed + [e])
  {
    hide CloseAll, FlushHiddenEnvelope, EmitEnd, Concluded, Midway, AllSaid, Keeps;
    ClosingIsIdle(cfg, s);
    CloseAndFlushKeeps(cfg, s);
    var s2 := FlushHiddenEnvelope(CloseAll(cfg, s));
    StillMidway(s, s2);
    match e {
      case Incomplete(reason, endTurn) => EmitEndShows(s2, Truncated, Reason(reason), endTurn);
      case Error(message) => EmitEndShows(s, Failed, AdapterFailure(message), None);
    }
  }

  lemma {:induction false} FlushedText(s: State)
    ensures FlushHiddenEnvelope(s).p.compaction == s.p.compaction
  {
    hide Emit;
  }

  lemma {:induction false} EventCompacts(cfg: Config, s: State, fed: seq<Event>, e: Event, at: int)
    requires CompactKept(s, fed) && s.l.stepping && !s.w.closed && cfg.compaction
    ensures CompactKept(Deliver(cfg, s, e, at), fed + [e])
  {
    hide Process, AfterLoop, LoopHead, OrderInv, Quiet, Midway;
    OpenCollects(s, fed);
    DeliverKeepsOrder(cfg, s, e, at);
    var s0 := s.(l := s.l.(lastAt := at));
    CollectsAside(s, s0, fed);
    MidwayLater(s, s0);
    SaidNext(fed, e, None);
    if Final(e) {
      FinalCompacts(cfg, s0, fed, e);
    } else {
      var s1 := if e.TextDelta? then s0.(p := s0.p.(compaction := s0.p.compaction + e.text)) else s0;
      StillQuiet(s0, s1);
      PumpIsQuiet(cfg, s1);
      CollectsAside(s1, LoopHead(cfg, s1), fed + [e]);
    }
  }

  lemma {:induction false} StillQuiet(s: State, s': State)
    requires Quiet(s) && s'.i == s.i && s'.p == s.p.(compaction := s'.p.compaction)
    ensures Quiet(s')
  {
  }

  lemma {:induction false} SilentCompacts(cfg: Config, s: State, fed: seq<Event>, x: Input)
    requires CompactKept(s, fed) && !s.w.closed && (x.EndInput? || x.TickInput?) && s.l.stepping
    ensures CompactKept(Next(cfg, s, x), fed)
  {
    hide CloseAll, EmitEnd, Shut, Quiet, Concluded, Midway, OrderInv;
    OpenCollects(s, fed);
    NextKeepsOrder(cfg, s, x);
    var s1 := if x.EndInput? then s.(l := s.l.(upstreamDone := true, beat := false)) else s;
    CollectsAside(s, s1, fed);
    MidwayLater(s, s1);
    ClosingIsIdle(cfg, s1);
    var detail := Reason(if x.EndInput? then "adapter_eof" else "upstream_stall_timeout");
    EmitEndShows(s1, Truncated, detail, None);
    var ended := EmitEnd(s1, Truncated, detail, None);
    var done := if x.EndInput? then ended.(l := ended.l.(terminated := true)) else ended;
    ConcludedLater(ended, done);
    ShutKeepsEnd(done);
    ShutCloses(done);
    if x.TickInput? {
      CollectsAside(s, s.(w := EmitPlain(s.w, Heartbeat)), fed);
    }
  }

  lemma {:induction false} ThrowCompacts(cfg: Config, s: State, fed: seq<Event>)
    requires CompactKept(s, fed) && s.l.stepping && !s.w.closed
    ensures CompactKept(UpstreamThrow(cfg, s), fed)
  {
    hide EmitEnd, AfterLoop, Concluded, Midway, OrderInv;
    OpenCollects(s, fed);
    NextKeepsOrder(cfg, s, ThrowInput);
    EmitEndShows(s, Failed, ProxyFailure, None);
    EndedLoop(cfg, EmitEnd(s, Failed, ProxyFailure, None));
  }

  lemma {:induction false} NextCompacts(cfg: Config, s: State, fed: seq<Event>, x: Input)
    requires CompactKept(s, fed) && cfg.compaction && Waiting(s)
    ensures CompactKept(Next(cfg, s, x), if x.EventInput? && s.l.stepping && !s.w.closed then fed + [x.event] else fed)
  {
    hide Collects, Summarises, AfterLoop, LoopHead, Process, OrderInv, CloseAll, FlushHiddenRaw, EmitEnd, Shut;
    NextKeepsOrder(cfg, s, x);
    if s.w.closed {
      ClosedCompacts(cfg, s, fed, x);
    } else {
      OpenCollects(s, fed);
      match x {
        case PullInput =>
          var s0 := s.(l := s.l.(stepping := true, gated := false, emittedAtStart := s.w.emitted));
          PumpIsQuiet(cfg, s0);
          CollectsAside(s, LoopHead(cfg, s0), fed);
        case EventInput(e, at) => if s.l.stepping { EventCompacts(cfg, s, fed, e, at); }
        case EndInput => if s.l.stepping { SilentCompacts(cfg, s, fed, x); }
        case ThrowInput => if s.l.stepping { ThrowCompacts(cfg, s, fed); }
        case TickInput(at) => if s.l.stepping { SilentCompacts(cfg, s, fed, x); }
        case CancelInput =>
        case TearInput(room) => CollectsAside(s, TearDown(s, room), fed);
      }
    }
  }

  lemma {:induction false} ClosedCompacts(cfg: Config, s: State, fed: seq<Event>, x: Input)
    requires CompactKept(s, fed) && s.w.closed
    ensures CompactKept(Next(cfg, s, x), fed)
  {
    hide Next, Summarises, Collects, OrderInv;
    NextKeepsOrder(cfg, s, x);
  }

  lemma {:induction false} RunCompacts(cfg: Config, now: int, xs: seq<Input>)
    requires cfg.compaction
    ensures CompactKept(Run(cfg, now, xs), Fed(cfg, now, xs))
  {
    hide Next;
    if xs == [] {
      OrderOfSnoc([], Sent(Some(0), Created));
    } else {
      hide CompactKept;
      var init := xs[..|xs| - 1];
      RunCompacts(cfg, now, init);
      assert Fed(cfg, now, init) + [] == Fed(cfg, now, init);
      RunWaits(cfg, now, init);
      NextCompacts(cfg, Run(cfg, now, init), Fed(cfg, now, init), xs[|xs| - 1]);
    }
  }

  /**
   * Over every run of a compaction turn: after a proper end the response is one compaction item that holds all the text
   * the adapter sent, in order; after any other end it is empty.
   */
  lemma {:induction false} SummaryHoldsAllText(cfg: Config, now: int, xs: seq<Input>)
    requires cfg.compaction && Run(cfg, now, xs).l.reported.Some?
    ensures |Terminals(Run(cfg, now, xs).w.frames)| == 1
    ensures Summarises(Terminals(Run(cfg, now, xs).w.frames)[0], Fed(cfg, now, xs))
  {
    hide Summarises, Collects, OrderInv;
    RunCompacts(cfg, now, xs);
    RunKeepsOrder(cfg, now, xs);
    OrderedTerminals(Run(cfg, now, xs));
  }
}
