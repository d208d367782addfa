/**
 * Signed and redacted reasoning: which envelopes a response holds, told from the adapter's events alone. A visible
 * thought carries the envelope that was complete when it closed; hidden thoughts travel inside one.
 */
module BridgeSeals {
  import opened Common
  import opened Bridge
  import opened BridgeOrder
  import opened BridgeItems
  import opened BridgeRefinement
  import opened BridgeEnds
  import opened BridgeContents

  /** An envelope, and whether the thought it belongs to is visible. */
  datatype Seal = Seal(visible: bool, envelope: Envelope)

  /**
   * What has been sealed, and what waits: the last signature, the redacted blocks, the thoughts hidden since the last
   * seal, and whether a visible thought is open.
   */
  datatype Sealing = Sealing(open: bool, sig: Text, red: seq<Text>, unseen: Text, done: seq<Seal>)

  /** A seal is made when there is something to sign or redact. */
  function Sealed(q: Sealing, visible: bool): Sealing {
    var made := if q.sig == [] && q.red == [] then [] else
      [Seal(visible, Envelope(q.sig, q.red, if visible then [] else q.unseen))];
    Sealing(false, [], [], if visible then q.unseen else [], q.done + made)
  }

  function EndThought(q: Sealing): Sealing {
    if q.open then Sealed(q, true) else q
  }

  /** Output of another kind ends a visible thought; a boundary and a proper end also seal what was hidden. */
  function SealingOf(hidden: bool, fed: seq<Event>): Sealing {
    if fed == [] then Sealing(false, [], [], [], [])
    else
      var q := SealingOf(hidden, fed[..|fed| - 1]);
      match fed[|fed| - 1]
      case ThinkingDelta(text) => if hidden then q.(unseen := q.unseen + text) else q.(open := true)
      case ThinkingSignature(signature) =>
        if q.open then q.(sig := signature) else Sealed(q.(sig := signature), false)
      case RedactedThinking(data) => q.(red := q.red + [data])
      case RawDelta(_) => if hidden then q else EndThought(q)
      case TextDelta(_, _) => EndThought(q)
      case ToolStart(_, _) => EndThought(q)
      case Boundary => Sealed(EndThought(q), false)
      case Done(_, _) => Sealed(EndThought(q), false)
      case Incomplete(_, _) => Sealed(EndThought(q), false)
      case Error(_) => EndThought(q)
      case _ => q
  }

  /** The seals among the items; an envelope of text alone is raw reasoning. */
  function SealIn(b: Body): seq<Seal> {
    match b
    case Reasoning(summary, Some(e)) => if e.sig == [] && e.red == [] then [] else [Seal(summary.Some?, e)]
    case _ => []
  }

  function Seals(items: seq<Item>): seq<Seal> {
    if items == [] then [] else Seals(items[..|items| - 1]) + SealIn(items[|items| - 1].body)
  }

  lemma {:induction false} OneMoreSeal(items: seq<Item>, item: Item)
    ensures Seals(items + [item]) == Seals(items) + SealIn(item.body)
  {
    assert (items + [item])[..|items|] == items;
  }

  /** The bridge's books agree with the events. */
  predicate Agree(cfg: Config, s: State, q: Sealing) {
    && HiddenKept(cfg, s)
    && q == Sealing(s.i.reasoning.Some?, s.p.sig, s.p.red, s.p.hiddenThinking, Seals(s.i.finished))
    && (s.p.sig != [] ==> s.i.reasoning.Some?)
  }

  lemma {:induction false} CloseMessageSeals(cfg: Config, s: State, q: Sealing)
    requires Agree(cfg, s, q)
    ensures Agree(cfg, CloseMessage(s), q) && CloseMessage(s).p == s.p
  {
    hide Emit;
    if s.i.message.Some? {
      var m := s.i.message.value;
      OneMoreSeal(s.i.finished, Item(m.id, Message(m.text, m.phase)));
    }
  }

  lemma {:induction false} CloseReasoningSeals(cfg: Config, s: State, q: Sealing)
    requires Agree(cfg, s, q)
    ensures Agree(cfg, CloseReasoning(s), EndThought(q))
  {
    hide Emit;
    if s.i.reasoning.Some? {
      var r := s.i.reasoning.value;
      OneMoreSeal(s.i.finished, Item(r.id, Reasoning(Some(r.text), TakeEnvelope(s.p, []).0)));
    }
  }

  lemma {:induction false} CloseRawSeals(cfg: Config, s: State, q: Sealing)
    requires Agree(cfg, s, q)
    ensures Agree(cfg, CloseRaw(s), q)
  {
    hide Emit;
    if s.i.raw.Some? {
      var r := s.i.raw.value;
      OneMoreSeal(s.i.finished, Item(r.id, RawReasoning(r.text)));
    }
  }

  lemma {:induction false} FlushRawSeals(cfg: Config, s: State, q: Sealing)
    requires Agree(cfg, s, q)
    ensures Agree(cfg, FlushHiddenRaw(s), q)
  {
    hide Emit;
    if s.p.hiddenRaw != [] {
      OneMoreSeal(s.i.finished, Item(s.i.nextId, Reasoning(None, Some(Envelope([], [], s.p.hiddenRaw)))));
    }
  }

  lemma {:induction false} CloseToolSeals(cfg: Config, s: State, q: Sealing)
    requires Agree(cfg, s, q)
    ensures Agree(cfg, CloseTool(cfg, s), q)
  {
    hide Emit, CallBody;
    if s.i.tool.Some? {
      var t := s.i.tool.value;
      CallsSealNothing(cfg, t);
      OneMoreSeal(s.i.finished, Item(t.id, CallBody(cfg.tools, t.callId, t.name, t.namespace, t.args)));
    }
  }

  lemma {:induction false} CallsSealNothing(cfg: Config, t: OpenTool)
    ensures SealIn(CallBody(cfg.tools, t.callId, t.name, t.namespace, t.args)) == []
  {
  }

  lemma {:induction false} FlushEnvelopeSeals(cfg: Config, s: State, q: Sealing)
    requires HiddenKept(cfg, s) && s.i.reasoning.None?
    requires q == Sealing(false, s.p.sig, s.p.red, s.p.hiddenThinking, Seals(s.i.finished))
    ensures Agree(cfg, FlushHiddenEnvelope(s), Sealed(q, false))
  {
    hide Emit;
    var encrypted := TakeEnvelope(s.p, s.p.hiddenThinking).0;
    if encrypted.Some? {
      OneMoreSeal(s.i.finished, Item(s.i.nextId, Reasoning(None, encrypted)));
    }
  }

  lemma {:induction false} CloseAllSeals(cfg: Config, s: State, q: Sealing)
    requires Agree(cfg, s, q)
    ensures Agree(cfg, CloseAll(cfg, s), EndThought(q))
  {
    hide Agree, EndThought;
    var s1 := CloseMessage(s);
    var s2 := CloseReasoning(s1);
    var s3 := CloseRaw(s2);
    CloseMessageSeals(cfg, s, q);
    CloseReasoningSeals(cfg, s1, q);
    CloseRawSeals(cfg, s2, EndThought(q));
    FlushRawSeals(cfg, s3, EndThought(q));
    CloseToolSeals(cfg, FlushHiddenRaw(s3), EndThought(q));
  }

  lemma {:induction false} AllSealed(cfg: Config, s: State, q: Sealing)
    requires Agree(cfg, s, q)
    ensures Agree(cfg, FlushHiddenEnvelope(CloseAll(cfg, s)), Sealed(EndThought(q), false))
  {
    hide CloseAll, FlushHiddenEnvelope;
    CloseAllSeals(cfg, s, q);
    FlushEnvelopeSeals(cfg, CloseAll(cfg, s), EndThought(q));
  }

  lemma {:induction false} TextSeals(cfg: Config, s: State, q: Sealing, text: Text, to: Option<Phase>)
    requires Agree(cfg, s, q)
    ensures Agree(cfg, OnText(cfg, s, text, to), EndThought(q))
  {
    hide Agree, EndThought, CloseMessage, CloseReasoning, CloseRaw, FlushHiddenRaw, CloseTool, OpenMessage;
    hide AppendMessage;
    var s1 := CloseReasoning(s);
    var s2 := CloseRaw(s1);
    var s3 := FlushHiddenRaw(s2);
    var s4 := CloseTool(cfg, s3);
    var q' := EndThought(q);
    CloseReasoningSeals(cfg, s, q);
    CloseRawSeals(cfg, s1, q');
    FlushRawSeals(cfg, s2, q');
    CloseToolSeals(cfg, s3, q');
    CloseMessageSeals(cfg, s4, q');
    MessageSealsNothing(cfg, BeforeText(cfg, s, to), q', text, to);
  }

  lemma {:induction false} MessageSealsNothing(cfg: Config, s: State, q: Sealing, text: Text, to: Option<Phase>)
    requires Agree(cfg, s, q)
    ensures Agree(cfg, AppendMessage(if s.i.message.None? then OpenMessage(s, to) else s, text), q)
  {
    hide Emit;
  }

  lemma {:induction false} ThinkingSeals(cfg: Config, s: State, q: Sealing, text: Text)
    requires Agree(cfg, s, q)
    ensures Agree(cfg, OnThinking(cfg, s, text), if cfg.hide then q.(unseen := q.unseen + text) else q.(open := true))
  {
    hide CloseMessage, CloseRaw, FlushHiddenRaw, CloseTool, Seals, Emit;
    if !cfg.hide {
      var s1 := CloseMessage(s);
      var s2 := CloseRaw(s1);
      var s3 := FlushHiddenRaw(s2);
      CloseMessageSeals(cfg, s, q);
      CloseRawSeals(cfg, s1, q);
      FlushRawSeals(cfg, s2, q);
      CloseToolSeals(cfg, s3, q);
      ThinkingParts(cfg, s);
    }
  }

  lemma {:induction false} RawSeals(cfg: Config, s: State, q: Sealing, text: Text)
    requires Agree(cfg, s, q)
    ensures Agree(cfg, OnRaw(cfg, s, text), if cfg.hide then q else EndThought(q))
  {
    hide CloseMessage, CloseReasoning, CloseTool, Seals, Emit, EndThought;
    if !cfg.hide {
      var s1 := CloseMessage(s);
      var s2 := CloseReasoning(s1);
      CloseMessageSeals(cfg, s, q);
      CloseReasoningSeals(cfg, s1, q);
      CloseToolSeals(cfg, s2, EndThought(q));
      RawParts(cfg, s);
    }
  }

  lemma {:induction false} SignatureSeals(cfg: Config, s: State, q: Sealing, signature: Text)
    requires Agree(cfg, s, q)
    ensures Agree(cfg, OnSignature(s, signature),
      if q.open then q.(sig := signature) else Sealed(q.(sig := signature), false))
  {
    hide FlushHiddenEnvelope, Seals;
    var s1 := s.(p := s.p.(sig := signature));
    if s1.i.reasoning.None? {
      FlushEnvelopeSeals(cfg, s1, q.(sig := signature));
    }
  }

  lemma {:induction false} CallSeals(cfg: Config, s: State, q: Sealing, callId: string, name: string)
    requires Agree(cfg, s, q)
    ensures Agree(cfg, OnToolStart(cfg, s, callId, name), EndThought(q))
  {
    hide CloseAll, Emit, Seals, EndThought;
    CloseAllSeals(cfg, s, q);
  }

  lemma {:induction false} ProcessSeals(cfg: Config, s: State, fed: seq<Event>, e: Event)
    requires Agree(cfg, s, SealingOf(cfg.hide, fed)) && !Final(e)
    ensures Agree(cfg, Process(cfg, s, e), SealingOf(cfg.hide, fed + [e]))
  {
    hide OnText, OnThinking, OnRaw, OnToolStart, OnToolDelta, OnSignature, CloseAll, FlushHiddenEnvelope, CloseTool;
    hide Agree, EndThought, Sealed;
    assert (fed + [e])[..|fed|] == fed;
    var q := SealingOf(cfg.hide, fed);
    match e {
      case HeartbeatEvent =>
      case Boundary => AllSealed(cfg, s, q);
      case TextDelta(text, to) => TextSeals(cfg, s, q, text, to);
      case ThinkingDelta(text) => ThinkingSeals(cfg, s, q, text);
      case ThinkingSignature(signature) => SignatureSeals(cfg, s, q, signature);
      case RedactedThinking(data) => RedactedWaits(cfg, s, q, data);
      case RawDelta(text) => RawSeals(cfg, s, q, text);
      case ToolStart(callId, name) => CallSeals(cfg, s, q, callId, name);
      case ToolDelta(arguments) =>
        OnlyArguments(cfg, s, arguments, None);
        ArgumentsSealNothing(cfg, s, OnToolDelta(cfg, s, arguments), q);
      case ToolEnd => CloseToolSeals(cfg, s, q);
    }
  }

  lemma {:induction false} RedactedWaits(cfg: Config, s: State, q: Sealing, data: Text)
    requires Agree(cfg, s, q)
    ensures Agree(cfg, s.(p := s.p.(red := s.p.red + [data])), q.(red := q.red + [data]))
  {
  }

  lemma {:induction false} ArgumentsSealNothing(cfg: Config, s: State, s': State, q: Sealing)
    requires Agree(cfg, s, q) && s'.p == s.p && s'.i == s.i.(tool := s'.i.tool)
    ensures Agree(cfg, s', q)
  {
  }

  // ---- Runs ----

  /** The seals of a terminal: all that was signed or redacted when it was written. */
  predicate SealsTold(cfg: Config, t: Terminal, fed: seq<Event>) {
    var q := SealingOf(cfg.hide, fed);
    Seals(t.output) == if t.detail == ProxyFailure then q.done else EndThought(q).done
  }

  ghost predicate SealKept(cfg: Config, s: State, fed: seq<Event>) {
    && OrderInv(s)
    && (!s.w.closed ==> Agree(cfg, s, SealingOf(cfg.hide, fed)))
    && (s.l.reported.Some? ==> SealsTold(cfg, OrderOf(s.w.frames).value.end.value, fed))
  }

  lemma {:induction false} OpenAgrees(cfg: Config, s: State, fed: seq<Event>)
    requires SealKept(cfg, s, fed) && !s.w.closed
    ensures Midway(s) && s.l.reported.None? && !s.l.terminated && !s.l.upstreamDone
    ensures Agree(cfg, s, SealingOf(cfg.hide, fed))
  {
    hide Agree, SealsTold;
    InvIsMidway(s);
    FlowingHasNoEnd(s.w.frames);
  }

  lemma {:induction false} AgreeAside(cfg: Config, s: State, s': State, q: Sealing)
    requires Agree(cfg, s, q) && s'.i == s.i && s'.p == s.p
    ensures Agree(cfg, s', q)
  {
  }

  /** The seals once everything is closed, with or without the hidden ones. */
  lemma {:induction false} FinalSeals(cfg: Config, s: State, fed: seq<Event>, e: Event)
    requires Agree(cfg, s, SealingOf(cfg.hide, fed)) && Final(e)
    ensures var last := if e.Error? then CloseAll(cfg, s) else FlushHiddenEnvelope(CloseAll(cfg, s));
      Seals(last.i.finished) == EndThought(SealingOf(cfg.hide, fed + [e])).done
  {
    hide CloseAll, FlushHiddenEnvelope;
    assert (fed + [e])[..|fed|] == fed;
    CloseAllSeals(cfg, s, SealingOf(cfg.hide, fed));
    AllSealed(cfg, s, SealingOf(cfg.hide, fed));
  }

  lemma {:induction false} FinalSealKept(cfg: Config, s: State, fed: seq<Event>, e: Event)
    requires Agree(cfg, s, SealingOf(cfg.hide, fed)) && Midway(s) && s.l.reported.None? && Final(e) && !cfg.compaction
    ensures var s' := AfterLoop(cfg, Terminated(Process(cfg, s, e)));
      OrderInv(s') ==> SealKept(cfg, s', fed + [e])
  {
    hide CloseAll, FlushHiddenEnvelope, EmitEnd, Concluded, Agree, Seals, AfterLoop, OrderInv, Midway, SealingOf;
    FinalSeals(cfg, s, fed, e);
    CloseAllKeeps(cfg, s);
    CloseAndFlushKeeps(cfg, s);
    var s1, s2 := CloseAll(cfg, s), FlushHiddenEnvelope(CloseAll(cfg, s));
    StillMidway(s, s1);
    StillMidway(s, s2);
    match e {
      case Done(stop, endTurn) =>
        EmitEndShows(s2, Truncated, Reason("max_output_tokens"), endTurn);
        EmitEndShows(s2, Truncated, Reason("content_filter"), endTurn);
        EmitEndShows(s2, Completed, NoDetail, endTurn);
      case Incomplete(reason, endTurn) => EmitEndShows(s2, Truncated, Reason(reason), endTurn);
      case Error(message) => EmitEndShows(s1, Failed, AdapterFailure(message), None);
    }
    EndedLoop(cfg, Process(cfg, s, e));
  }

  lemma {:induction false} EventSealKept(cfg: Config, s: State, fed: seq<Event>, e: Event, at: int)
    requires SealKept(cfg, s, fed) && s.l.stepping && !s.w.closed && !cfg.compaction
    ensures SealKept(cfg, Deliver(cfg, s, e, at), fed + [e])
  {
    hide Process, AfterLoop, LoopHead, OrderInv, Agree, SealsTold, Midway;
    OpenAgrees(cfg, s, fed);
    DeliverKeepsOrder(cfg, s, e, at);
    var s0 := s.(l := s.l.(lastAt := at));
    AgreeAside(cfg, s, s0, SealingOf(cfg.hide, fed));
    MidwayLater(s, s0);
    if Final(e) {
      FinalSealKept(cfg, s0, fed, e);
    } else {
      ProcessSeals(cfg, s0, fed, e);
      ProcessKeeps(cfg, s0, e);
      var s1 := Process(cfg, s0, e);
      PumpIsQuiet(cfg, s1);
      AgreeAside(cfg, s1, LoopHead(cfg, s1), SealingOf(cfg.hide, fed + [e]));
    }
  }

  lemma {:induction false} SilentSealKept(cfg: Config, s: State, fed: seq<Event>, x: Input)
    requires SealKept(cfg, s, fed) && !s.w.closed && (x.EndInput? || x.TickInput?) && s.l.stepping
    ensures SealKept(cfg, Next(cfg, s, x), fed)
  {
    hide CloseAll, EmitEnd, Shut, Agree, Seals, Concluded, Midway, OrderInv, SealingOf, EndThought;
    OpenAgrees(cfg, s, fed);
    NextKeepsOrder(cfg, s, x);
    var s1 := if x.EndInput? then s.(l := s.l.(upstreamDone := true, beat := false)) else s;
    AgreeAside(cfg, s, s1, SealingOf(cfg.hide, fed));
    MidwayLater(s, s1);
    CloseAllSeals(cfg, s1, SealingOf(cfg.hide, fed));
    SealsOf(cfg, CloseAll(cfg, s1), EndThought(SealingOf(cfg.hide, fed)));
    CloseAllKeeps(cfg, s1);
    StillMidway(s1, CloseAll(cfg, s1));
    var detail := Reason(if x.EndInput? then "adapter_eof" else "upstream_stall_timeout");
    EmitEndShows(CloseAll(cfg, s1), Truncated, detail, None);
    var ended := EmitEnd(CloseAll(cfg, s1), Truncated, detail, None);
    var done := if x.EndInput? then ended.(l := ended.l.(terminated := true)) else ended;
    ConcludedLater(ended, done);
    ShutKeepsEnd(done);
    ShutCloses(done);
    if x.TickInput? {
      AgreeAside(cfg, s, s.(w := EmitPlain(s.w, Heartbeat)), SealingOf(cfg.hide, fed));
    }
  }

  lemma {:induction false} SealsOf(cfg: Config, s: State, q: Sealing)
    requires Agree(cfg, s, q)
    ensures Seals(s.i.finished) == q.done
  {
  }

  lemma {:induction false} ThrowSealKept(cfg: Config, s: State, fed: seq<Event>)
    requires SealKept(cfg, s, fed) && s.l.stepping && !s.w.closed
    ensures SealKept(cfg, UpstreamThrow(cfg, s), fed)
  {
    hide FlushHiddenRaw, EmitEnd, AfterLoop, Agree, Seals, Concluded, Midway, OrderInv, SealingOf;
    OpenAgrees(cfg, s, fed);
    NextKeepsOrder(cfg, s, ThrowInput);
    FlushRawSeals(cfg, s, SealingOf(cfg.hide, fed));
    SealsOf(cfg, FlushHiddenRaw(s), SealingOf(cfg.hide, fed));
    FlushKeeps(s);
    StillMidway(s, FlushHiddenRaw(s));
    EmitEndShows(FlushHiddenRaw(s), Failed, ProxyFailure, None);
    EndedLoop(cfg, EmitEnd(FlushHiddenRaw(s), Failed, ProxyFailure, None));
  }

  lemma {:induction false} NextSealKept(cfg: Config, s: State, fed: seq<Event>, x: Input)
    requires SealKept(cfg, s, fed) && !cfg.compaction && Waiting(s)
    ensures SealKept(cfg, Next(cfg, s, x), if x.EventInput? && s.l.stepping && !s.w.closed then fed + [x.event]
      else fed)
  {
    hide Agree, SealsTold, AfterLoop, LoopHead, Process, OrderInv, CloseAll, FlushHiddenRaw, EmitEnd, Shut;
    NextKeepsOrder(cfg, s, x);
    if s.w.closed {
      ClosedSealKept(cfg, s, fed, x);
    } else {
      OpenAgrees(cfg, s, fed);
      match x {
        case PullInput =>
          var s0 := s.(l := s.l.(stepping := true, gated := false, emittedAtStart := s.w.emitted));
          PumpIsQuiet(cfg, s0);
          AgreeAside(cfg, s, LoopHead(cfg, s0), SealingOf(cfg.hide, fed));
        case EventInput(e, at) => if s.l.stepping { EventSealKept(cfg, s, fed, e, at); }
        case EndInput => if s.l.stepping { SilentSealKept(cfg, s, fed, x); }
        case ThrowInput => if s.l.stepping { ThrowSealKept(cfg, s, fed); }
        case TickInput(at) => if s.l.stepping { SilentSealKept(cfg, s, fed, x); }
        case CancelInput =>
        case TearInput(room) => AgreeAside(cfg, s, TearDown(s, room), SealingOf(cfg.hide, fed));
      }
    }
  }

  lemma {:induction false} ClosedSealKept(cfg: Config, s: State, fed: seq<Event>, x: Input)
    requires SealKept(cfg, s, fed) && s.w.closed
    ensures SealKept(cfg, Next(cfg, s, x), fed)
  {
    hide Next, SealsTold, Agree, OrderInv;
    NextKeepsOrder(cfg, s, x);
  }

  lemma {:induction false} RunSealKept(cfg: Config, now: int, xs: seq<Input>)
    requires !cfg.compaction
    ensures SealKept(cfg, Run(cfg, now, xs), Fed(cfg, now, xs))
  {
    hide Next;
    if xs == [] {
      OrderOfSnoc([], Sent(Some(0), Created));
    } else {
      hide SealKept;
      var init := xs[..|xs| - 1];
      RunSealKept(cfg, now, init);
      assert Fed(cfg, now, init) + [] == Fed(cfg, now, init);
      RunWaits(cfg, now, init);
      NextSealKept(cfg, Run(cfg, now, init), Fed(cfg, now, init), xs[|xs| - 1]);
    }
  }

  /**
   * Over every run, the signed and redacted reasoning of a terminal is what the adapter signed and redacted: every
   * seal is there once, in order, on the visible thought it belongs to or, with the thoughts hidden since, on its own.
   */
  lemma {:induction false} ResponseIsSealed(cfg: Config, now: int, xs: seq<Input>)
    requires !cfg.compaction && Run(cfg, now, xs).l.reported.Some?
    ensures |Terminals(Run(cfg, now, xs).w.frames)| == 1
    ensures SealsTold(cfg, Terminals(Run(cfg, now, xs).w.frames)[0], Fed(cfg, now, xs))
  {
    hide SealsTold, Agree, OrderInv;
    RunSealKept(cfg, now, xs);
    RunKeepsOrder(cfg, now, xs);
    OrderedTerminals(Run(cfg, now, xs));
  }
}
