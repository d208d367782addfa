/**
 * The order of frames on the wire, over every interleaving: created, then ordinary frames, at most
 * one terminal, the closing marker, and nothing after it.
 */
module BridgeOrder {
  import opened Common
  import opened Bridge

  datatype Stage = Before | Streaming | Ended | Sealed

  /** What a reader that only watches the order of frames has seen so far. */
  datatype Order = Order(stage: Stage, next: nat, end: Option<Terminal>)

  predicate Ordinary(f: Frame) {
    f.Added? || f.PartAdded? || f.Delta? || f.ValueDone? || f.PartDone? || f.ItemDone?
  }

  function Observe(o: Order, sent: Sent): Option<Order> {
    match sent.frame
    case Created =>
      if o.stage == Before && sent.number == Some(o.next) then Some(Order(Streaming, o.next + 1, None)) else None
    case Heartbeat =>
      if o.stage == Streaming && sent.number == None then Some(o) else None
    case End(t) =>
      if o.stage == Streaming && sent.number == Some(o.next) then Some(Order(Ended, o.next + 1, Some(t))) else None
    case DoneMark =>
      if o.stage == Ended && sent.number == None then Some(o.(stage := Sealed)) else None
    case _ =>
      if o.stage == Streaming && sent.number == Some(o.next) then Some(o.(next := o.next + 1)) else None
  }

  function OrderOf(frames: seq<Sent>): Option<Order> {
    if frames == [] then Some(Order(Before, 0, None))
    else
      var before := OrderOf(frames[..|frames| - 1]);
      if before.None? then None else Observe(before.value, frames[|frames| - 1])
  }

  lemma {:induction false} OrderOfSnoc(frames: seq<Sent>, sent: Sent)
    ensures OrderOf(frames + [sent]) == if OrderOf(frames).None? then None else Observe(OrderOf(frames).value, sent)
  {
    assert (frames + [sent])[..|frames|] == frames;
  }

  /** The wire while the response is still streaming. */
  ghost predicate Flowing(w: Wire) {
    var o := OrderOf(w.frames);
    o.Some? && o.value.stage == Streaming && (!w.closed ==> o.value.next == w.nextNumber)
  }

  /** A stretch of ordinary emissions. */
  ghost predicate Extends(w: Wire, w': Wire) {
    && (w.closed ==> w' == w)
    && (Flowing(w) ==> Flowing(w'))
    && (!w.closed && w'.closed ==> w'.room == Some(0))
    && w.frames <= w'.frames
    && (w.room.Some? <==> w'.room.Some?)
  }

  ghost predicate Keeps(s: State, s': State) {
    s'.l == s.l && Extends(s.w, s'.w)
  }

  lemma {:induction false} EmitExtends(w: Wire, frame: Frame)
    requires Ordinary(frame)
    ensures Extends(w, Emit(w, frame))
  {
    OrderOfSnoc(w.frames, Sent(Some(w.nextNumber), frame));
  }

  lemma {:induction false} BeatExtends(w: Wire)
    ensures Extends(w, EmitPlain(w, Heartbeat))
  {
    OrderOfSnoc(w.frames, Sent(None, Heartbeat));
  }

  lemma {:induction false} CompleteKeeps(s: State, index: nat, item: Item)
    ensures Keeps(s, Complete(s, index, item))
  {
    EmitExtends(s.w, ItemDone(index, item));
  }

  lemma {:induction false} AnnounceKeeps(s: State, body: Body)
    ensures Keeps(s, Announce(s, body))
  {
    EmitExtends(s.w, Added(s.i.outputIndex, Item(s.i.nextId, body)));
  }

  lemma {:induction false} EnvelopeKeeps(s: State, envelope: Envelope)
    ensures Keeps(s, EnvelopeItem(s, envelope))
  {
    var item := Item(s.i.nextId, Reasoning(None, Some(envelope)));
    AnnounceKeeps(s, item.body);
    CompleteKeeps(Announce(s, item.body), s.i.outputIndex, item);
  }

  lemma {:induction false} FlushKeeps(s: State)
    ensures Keeps(s, FlushHiddenEnvelope(s)) && Keeps(s, FlushHiddenRaw(s))
  {
    var (encrypted, p) := TakeEnvelope(s.p, s.p.hiddenThinking);
    if encrypted.Some? {
      EnvelopeKeeps(s.(p := p.(hiddenThinking := [])), encrypted.value);
    }
    EnvelopeKeeps(s.(p := s.p.(hiddenRaw := [])), Envelope([], [], s.p.hiddenRaw));
  }

  lemma {:induction false} ClosingTextKeeps(w: Wire, t: OpenText)
    ensures Extends(w, Emit(Emit(w, ValueDone(t.index, t.id, t.text)), PartDone(t.index, t.id, t.text)))
  {
    EmitExtends(w, ValueDone(t.index, t.id, t.text));
    EmitExtends(Emit(w, ValueDone(t.index, t.id, t.text)), PartDone(t.index, t.id, t.text));
  }

  lemma {:induction false} CloseMessageKeeps(s: State)
    ensures Keeps(s, CloseMessage(s))
  {
    if s.i.message.Some? {
      var m := s.i.message.value;
      ClosingTextKeeps(s.w, m);
      var w2 := Emit(Emit(s.w, ValueDone(m.index, m.id, m.text)), PartDone(m.index, m.id, m.text));
      CompleteKeeps(s.(w := w2, i := s.i.(message := None)), m.index, Item(m.id, Message(m.text, m.phase)));
    }
  }

  lemma {:induction false} CloseReasoningKeeps(s: State)
    ensures Keeps(s, CloseReasoning(s))
  {
    if s.i.reasoning.Some? {
      var r := s.i.reasoning.value;
      ClosingTextKeeps(s.w, r);
      var w2 := Emit(Emit(s.w, ValueDone(r.index, r.id, r.text)), PartDone(r.index, r.id, r.text));
      var (encrypted, p) := TakeEnvelope(s.p, []);
      CompleteKeeps(s.(w := w2, i := s.i.(reasoning := None), p := p), r.index,
          Item(r.id, Reasoning(Some(r.text), encrypted)));
    }
  }

  lemma {:induction false} CloseRawKeeps(s: State)
    ensures Keeps(s, CloseRaw(s))
  {
    if s.i.raw.Some? {
      var r := s.i.raw.value;
      CompleteKeeps(s.(i := s.i.(raw := None)), r.index, Item(r.id, RawReasoning(r.text)));
    }
  }

  lemma {:induction false} CloseToolKeeps(cfg: Config, s: State)
    ensures Keeps(s, CloseTool(cfg, s))
  {
    if s.i.tool.Some? {
      var t := s.i.tool.value;
      var value := if IsFreeform(cfg.tools, t.name) then cfg.tools.unwrap(t.args) else ArgumentsOrEmpty(t.args);
      EmitExtends(s.w, ValueDone(t.index, t.id, value));
      var w1 := if IsSearch(cfg.tools, t.name) then s.w else Emit(s.w, ValueDone(t.index, t.id, value));
      CompleteKeeps(s.(w := w1, i := s.i.(tool := None)), t.index,
          Item(t.id, CallBody(cfg.tools, t.callId, t.name, t.namespace, t.args)));
    }
  }

  lemma {:induction false} CloseAllKeeps(cfg: Config, s: State)
    ensures Keeps(s, CloseAll(cfg, s))
  {
    var s1 := CloseMessage(s);
    var s2 := CloseReasoning(s1);
    var s3 := CloseRaw(s2);
    var s4 := FlushHiddenRaw(s3);
    CloseMessageKeeps(s);
    CloseReasoningKeeps(s1);
    CloseRawKeeps(s2);
    FlushKeeps(s3);
    CloseToolKeeps(cfg, s4);
  }

  lemma {:induction false} OnTextKeeps(cfg: Config, s: State, text: Text, phase: Option<Phase>)
    ensures Keeps(s, OnText(cfg, s, text, phase))
  {
    var a := CloseReasoning(s);
    var b := CloseRaw(a);
    var c := FlushHiddenRaw(b);
    var s1 := CloseTool(cfg, c);
    CloseReasoningKeeps(s);
    CloseRawKeeps(a);
    FlushKeeps(b);
    CloseToolKeeps(cfg, c);
    CloseMessageKeeps(s1);
    var s2 := if s1.i.message.Some? && s1.i.message.value.phase != phase then CloseMessage(s1) else s1;
    AnnounceKeeps(s2, Message([], phase));
    EmitExtends(Announce(s2, Message([], phase)).w, PartAdded(s2.i.outputIndex, s2.i.nextId));
    var s3 := if s2.i.message.None? then OpenMessage(s2, phase) else s2;
    EmitExtends(s3.w, Delta(s3.i.message.value.index, s3.i.message.value.id, text));
  }

  lemma {:induction false} OnThinkingKeeps(cfg: Config, s: State, text: Text)
    ensures Keeps(s, OnThinking(cfg, s, text))
  {
    if !cfg.hide {
      var a := CloseMessage(s);
      var b := CloseRaw(a);
      var c := FlushHiddenRaw(b);
      var s1 := CloseTool(cfg, c);
      CloseMessageKeeps(s);
      CloseRawKeeps(a);
      FlushKeeps(b);
      CloseToolKeeps(cfg, c);
      AnnounceKeeps(s1, Reasoning(Some([]), None));
      EmitExtends(Announce(s1, Reasoning(Some([]), None)).w, PartAdded(s1.i.outputIndex, s1.i.nextId));
      var s2 := if s1.i.reasoning.None? then OpenReasoning(s1) else s1;
      EmitExtends(s2.w, Delta(s2.i.reasoning.value.index, s2.i.reasoning.value.id, text));
    }
  }

  lemma {:induction false} OnRawKeeps(cfg: Config, s: State, text: Text)
    ensures Keeps(s, OnRaw(cfg, s, text))
  {
    if !cfg.hide {
      var a := CloseMessage(s);
      var b := CloseReasoning(a);
      var s1 := CloseTool(cfg, b);
      CloseMessageKeeps(s);
      CloseReasoningKeeps(a);
      CloseToolKeeps(cfg, b);
      AnnounceKeeps(s1, RawReasoning([]));
      var s2 := if s1.i.raw.None? then OpenRaw(s1) else s1;
      EmitExtends(s2.w, Delta(s2.i.raw.value.index, s2.i.raw.value.id, text));
    }
  }

  lemma {:induction false} OnToolStartKeeps(cfg: Config, s: State, callId: string, name: string)
    ensures Keeps(s, OnToolStart(cfg, s, callId, name))
  {
    CloseAllKeeps(cfg, s);
    AnnounceKeeps(CloseAll(cfg, s),
        CallStarted(cfg.tools, callId, ToolName(cfg.tools, name), ToolNamespace(cfg.tools, name)));
  }

  lemma {:induction false} OnToolDeltaKeeps(cfg: Config, s: State, arguments: Text)
    ensures Keeps(s, OnToolDelta(cfg, s, arguments))
  {
    if s.i.tool.Some? {
      var t := s.i.tool.value;
      EmitExtends(s.w, Delta(t.index, t.id, arguments));
      var delta := Freeform.NextDelta(t.inputEmitted, t.args + arguments);
      if delta.Some? {
        EmitExtends(s.w, Delta(t.index, t.id, delta.value));
      }
    }
  }

  lemma {:induction false} ProcessKeeps(cfg: Config, s: State, e: Event)
    requires !Final(e)
    ensures Keeps(s, Process(cfg, s, e))
  {
    match e {
      case HeartbeatEvent =>
      case Boundary =>
        CloseAllKeeps(cfg, s);
        FlushKeeps(CloseAll(cfg, s));
      case TextDelta(text, phase) => OnTextKeeps(cfg, s, text, phase);
      case ThinkingDelta(text) => OnThinkingKeeps(cfg, s, text);
      case ThinkingSignature(signature) => FlushKeeps(s.(p := s.p.(sig := signature)));
      case RedactedThinking(data) =>
      case RawDelta(text) => OnRawKeeps(cfg, s, text);
      case ToolStart(callId, name) => OnToolStartKeeps(cfg, s, callId, name);
      case ToolDelta(arguments) => OnToolDeltaKeeps(cfg, s, arguments);
      case ToolEnd => CloseToolKeeps(cfg, s);
    }
  }

  // ---- The invariant between steps ----

  /** Either the response is still streaming, or the client left first, or it ended properly. */
  ghost predicate OrderInv(s: State) {
    var o := OrderOf(s.w.frames);
    && o.Some?
    && (s.l.reported.Some? <==> o.value.end.Some?)
    && (s.l.reported.Some? ==> s.l.reported.value == o.value.end.value.status)
    && (!s.w.closed ==>
          o.value == Order(Streaming, s.w.nextNumber, None) && !s.l.cancelled && !s.l.terminated && !s.l.upstreamDone)
    && (s.w.closed ==>
          || (o.value.stage == Streaming && o.value.end.None? && (s.l.cancelled || s.w.room == Some(0)))
          || (o.value.stage == Ended && o.value.end.Some? && s.w.room == Some(0) && s.l.terminated)
          || (o.value.stage == Sealed && o.value.end.Some? && s.l.terminated))
    && (s.l.cancelled || (s.l.terminated && !s.l.upstreamDone) ==> s.l.iteratorReturned)
    && (s.l.stepping && !s.w.closed ==> s.l.iteratorStarted)
  }

  /** The middle of a step: nothing terminal has been emitted yet, or nothing can be emitted at all. */
  ghost predicate Midway(s: State) {
    && OrderOf(s.w.frames).Some?
    && (s.l.reported.Some? <==> OrderOf(s.w.frames).value.end.Some?)
    && (s.l.reported.Some? ==> s.l.reported.value == OrderOf(s.w.frames).value.end.value.status)
    && (!s.w.closed ==> OrderOf(s.w.frames).value == Order(Streaming, s.w.nextNumber, None) && !s.l.cancelled)
    && (s.w.closed ==>
          || (OrderOf(s.w.frames).value.stage == Streaming && s.l.reported.None?
               && (s.l.cancelled || s.w.room == Some(0)))
          || (OrderOf(s.w.frames).value.stage == Ended && s.w.room == Some(0) && s.l.terminated)
          || (OrderOf(s.w.frames).value.stage == Sealed && s.l.terminated))
  }

  lemma {:induction false} FlowingHasNoEnd(frames: seq<Sent>)
    requires OrderOf(frames).Some?
    ensures OrderOf(frames).value.end.Some? <==> OrderOf(frames).value.stage in {Ended, Sealed}
  {
    if frames != [] {
      FlowingHasNoEnd(frames[..|frames| - 1]);
    }
  }

  lemma {:induction false} KeepsMidway(s: State, s': State)
    requires Midway(s) && Keeps(s, s')
    ensures Midway(s')
  {
    FlowingHasNoEnd(s.w.frames);
    FlowingHasNoEnd(s'.w.frames);
    if !s.w.closed {
      assert Flowing(s.w) && Flowing(s'.w);
    }
  }

  /** After the terminal: it is on the wire and reported, or the client cannot receive it any more. */
  ghost predicate Concluded(s: State) {
    && OrderOf(s.w.frames).Some?
    && (s.l.reported.Some? <==> OrderOf(s.w.frames).value.end.Some?)
    && (s.l.reported.Some? ==> s.l.reported.value == OrderOf(s.w.frames).value.end.value.status)
    && (!s.w.closed ==> OrderOf(s.w.frames).value.stage == Ended)
    && (s.w.closed ==>
          || (OrderOf(s.w.frames).value.stage == Streaming && (s.l.cancelled || s.w.room == Some(0)))
          || (OrderOf(s.w.frames).value.stage == Ended && s.w.room == Some(0))
          || OrderOf(s.w.frames).value.stage == Sealed)
  }

  lemma {:induction false} EmitEndConcludes(s: State, status: Status, detail: Detail, endTurn: Option<bool>)
    requires Midway(s)
    ensures Concluded(EmitEnd(s, status, detail, endTurn))
    ensures EmitEnd(s, status, detail, endTurn).l == s.l.(reported := EmitEnd(s, status, detail, endTurn).l.reported)
    ensures s.w.closed ==> EmitEnd(s, status, detail, endTurn) == s
    ensures s.w.frames <= EmitEnd(s, status, detail, endTurn).w.frames
  {
    OrderOfSnoc(s.w.frames, Sent(Some(s.w.nextNumber), End(Terminal(status, s.i.finished, detail, endTurn))));
    FlowingHasNoEnd(s.w.frames);
  }

  lemma {:induction false} ShutSeals(s: State)
    requires Concluded(s)
    ensures var s' := Shut(s);
      && Concluded(s') && s'.w.closed && s'.l == s.l && s.w.frames <= s'.w.frames
      && (s.w.closed ==> s'.w == s.w)
  {
    OrderOfSnoc(s.w.frames, Sent(None, DoneMark));
    FlowingHasNoEnd(s.w.frames);
    FlowingHasNoEnd(Shut(s).w.frames);
  }

  lemma {:induction false} AfterLoopKeepsOrder(cfg: Config, s: State)
    requires if s.l.terminated then Concluded(s) && (s.l.iteratorReturned || s.l.upstreamDone) else Midway(s)
    requires s.l.cancelled ==> s.l.iteratorReturned
    requires s.l.stepping && !s.w.closed ==> s.l.iteratorStarted
    requires !s.w.closed ==> !s.l.cancelled
    ensures OrderInv(AfterLoop(cfg, s))
    ensures s.w.frames <= AfterLoop(cfg, s).w.frames
    ensures s.w.closed ==> AfterLoop(cfg, s).w == s.w
  {
    hide CloseAll, EmitEnd, Shut;
    FlowingHasNoEnd(s.w.frames);
    if s.l.terminated || s.l.upstreamDone {
      var s1 := s.(l := s.l.(beat := false));
      var s2 := s1;
      if !s1.l.terminated {
        CloseAllKeeps(cfg, s1);
        KeepsMidway(s1, CloseAll(cfg, s1));
        EmitEndConcludes(CloseAll(cfg, s1), Truncated, Reason("adapter_eof"), None);
        var ended := EmitEnd(CloseAll(cfg, s1), Truncated, Reason("adapter_eof"), None);
        s2 := ended.(l := ended.l.(terminated := true));
      }
      assert Concluded(s2);
      ShutSeals(s2);
      FlowingHasNoEnd(Shut(s2).w.frames);
    }
  }

  lemma {:induction false} LoopHeadKeepsOrder(cfg: Config, s: State)
    requires Midway(s)
    requires !s.w.closed ==> !s.l.terminated && !s.l.upstreamDone
    requires !s.w.closed ==> s.l.iteratorStarted || s.w.emitted == s.l.emittedAtStart
    requires s.l.cancelled || (s.l.terminated && !s.l.upstreamDone) ==> s.l.iteratorReturned
    ensures OrderInv(LoopHead(cfg, s))
    ensures s.w.frames <= LoopHead(cfg, s).w.frames
    ensures s.w.closed ==> LoopHead(cfg, s).w == s.w
  {
    FlowingHasNoEnd(s.w.frames);
    if s.l.terminated || s.w.closed || s.w.emitted != s.l.emittedAtStart {
      AfterLoopKeepsOrder(cfg, s);
    }
  }

  lemma {:induction false} InvIsMidway(s: State)
    requires OrderInv(s)
    ensures Midway(s)
  {
    FlowingHasNoEnd(s.w.frames);
  }

  lemma {:induction false} DeliverKeepsOrder(cfg: Config, s: State, e: Event, now: int)
    requires OrderInv(s) && s.l.stepping
    ensures OrderInv(Deliver(cfg, s, e, now))
    ensures s.w.frames <= Deliver(cfg, s, e, now).w.frames
    ensures s.w.closed ==> Deliver(cfg, s, e, now).w == s.w
  {
    hide Process, LoopHead, AfterLoop;
    InvIsMidway(s);
    var s0 := s.(l := s.l.(lastAt := now));
    if cfg.compaction && e.TextDelta? {
      LoopHeadKeepsOrder(cfg, s0.(p := s0.p.(compaction := s0.p.compaction + e.text)));
    } else if cfg.compaction && !Final(e) {
      LoopHeadKeepsOrder(cfg, s0);
    } else if !Final(e) {
      OrdinaryEventKeepsOrder(cfg, s0, e);
    } else {
      FinalEventKeepsOrder(cfg, s0, e);
    }
  }

  lemma {:induction false} OrdinaryEventKeepsOrder(cfg: Config, s: State, e: Event)
    requires OrderInv(s) && s.l.stepping && !Final(e)
    ensures var s' := LoopHead(cfg, Process(cfg, s, e));
      OrderInv(s') && s.w.frames <= s'.w.frames && (s.w.closed ==> s'.w == s.w)
  {
    InvIsMidway(s);
    var s1 := Process(cfg, s, e);
    ProcessKeeps(cfg, s, e);
    KeepsMidway(s, s1);
    LoopHeadKeepsOrder(cfg, s1);
  }

  lemma {:induction false} FinalEventKeepsOrder(cfg: Config, s: State, e: Event)
    requires OrderInv(s) && s.l.stepping && Final(e)
    ensures var s1 := Process(cfg, s, e);
      var s' := AfterLoop(cfg, Terminated(s1));
      OrderInv(s') && s.w.frames <= s'.w.frames && (s.w.closed ==> s'.w == s.w)
  {
    InvIsMidway(s);
    FinalConcludes(cfg, s, e);
    var s1 := Process(cfg, s, e);
    AfterLoopKeepsOrder(cfg, Terminated(s1));
  }

  ghost predicate Concludes(s: State, s': State) {
    && Concluded(s') && s'.l == s.l.(reported := s'.l.reported)
    && s.w.frames <= s'.w.frames && (s.w.closed ==> s'.w == s.w)
  }

  lemma {:induction false} ThenEnd(s: State, s1: State, status: Status, detail: Detail, endTurn: Option<bool>)
    requires Midway(s) && Keeps(s, s1)
    ensures Concludes(s, EmitEnd(s1, status, detail, endTurn))
  {
    KeepsMidway(s, s1);
    EmitEndConcludes(s1, status, detail, endTurn);
  }

  lemma {:induction false} CloseAndFlushKeeps(cfg: Config, s: State)
    ensures Keeps(s, FlushHiddenEnvelope(CloseAll(cfg, s)))
  {
    CloseAllKeeps(cfg, s);
    FlushKeeps(CloseAll(cfg, s));
  }

  lemma {:induction false} FinalConcludes(cfg: Config, s: State, e: Event)
    requires Midway(s) && Final(e)
    ensures Concludes(s, Process(cfg, s, e))
  {
    match e {
      case Done(stop, endTurn) => DoneConcludes(cfg, s, stop, endTurn);
      case Incomplete(reason, endTurn) =>
        CloseAndFlushKeeps(cfg, s);
        ThenEnd(s, FlushHiddenEnvelope(CloseAll(cfg, s)), Truncated, Reason(reason), endTurn);
      case Error(message) =>
        CloseAllKeeps(cfg, s);
        ThenEnd(s, CloseAll(cfg, s), Failed, AdapterFailure(message), None);
    }
  }

  lemma {:induction false} DoneConcludes(cfg: Config, s: State, stop: StopReason, endTurn: Option<bool>)
    requires Midway(s)
    ensures Concludes(s, OnDone(cfg, s, stop, endTurn))
  {
    CloseAndFlushKeeps(cfg, s);
    var s2 := FlushHiddenEnvelope(CloseAll(cfg, s));
    var s3 := if cfg.compaction then CompactionItem(s2) else s2;
    CompleteKeeps(s2.(i := s2.i.(nextId := s2.i.nextId + 1)), s2.i.outputIndex,
        Item(s2.i.nextId, Compaction(s2.p.compaction)));
    ThenEnd(s, s3, Truncated, Reason("max_output_tokens"), endTurn);
    ThenEnd(s, s3, Truncated, Reason("content_filter"), endTurn);
    ThenEnd(s, s3, Completed, NoDetail, endTurn);
  }

  lemma {:induction false} ThrowKeepsOrder(cfg: Config, s: State)
    requires OrderInv(s) && s.l.stepping
    ensures OrderInv(UpstreamThrow(cfg, s))
    ensures s.w.frames <= UpstreamThrow(cfg, s).w.frames
    ensures s.w.closed ==> UpstreamThrow(cfg, s).w == s.w
  {
    InvIsMidway(s);
    FlowingHasNoEnd(s.w.frames);
    if s.l.terminated {
      AfterLoopKeepsOrder(cfg, s);
    } else {
      var s0 := FlushHiddenRaw(s);
      FlushKeeps(s);
      KeepsMidway(s, s0);
      EmitEndConcludes(s0, Failed, ProxyFailure, None);
      var s1 := EmitEnd(s0, Failed, ProxyFailure, None);
      AfterLoopKeepsOrder(cfg, Terminated(s1));
    }
  }

  lemma {:induction false} TickKeepsOrder(cfg: Config, s: State, now: int)
    requires OrderInv(s)
    ensures OrderInv(Tick(cfg, s, now))
    ensures s.w.frames <= Tick(cfg, s, now).w.frames
    ensures s.w.closed ==> Tick(cfg, s, now).w == s.w
  {
    InvIsMidway(s);
    if !s.l.beat || s.w.closed || s.l.gated {
    } else if now - s.l.lastAt >= cfg.stallMs {
      var s0 := CloseAll(cfg, s);
      CloseAllKeeps(cfg, s);
      KeepsMidway(s, s0);
      EmitEndConcludes(s0, Truncated, Reason("upstream_stall_timeout"), None);
      var s1 := EmitEnd(s0, Truncated, Reason("upstream_stall_timeout"), None);
      ShutSeals(s1);
      FlowingHasNoEnd(Shut(s1).w.frames);
    } else {
      BeatExtends(s.w);
      KeepsMidway(s, s.(w := EmitPlain(s.w, Heartbeat)));
    }
  }

  /** One step: the invariant survives, frames are only added, and a closed wire never changes. */
  lemma {:induction false} NextKeepsOrder(cfg: Config, s: State, x: Input)
    requires OrderInv(s)
    ensures OrderInv(Next(cfg, s, x))
    ensures s.w.frames <= Next(cfg, s, x).w.frames
    ensures s.w.closed ==> Next(cfg, s, x).w.frames == s.w.frames && Next(cfg, s, x).w.closed
    ensures s.w.closed ==> Next(cfg, s, x).l.reported == s.l.reported
  {
    InvIsMidway(s);
    FlowingHasNoEnd(s.w.frames);
    match x {
      case PullInput =>
        if !s.l.stepping && !s.w.closed {
          LoopHeadKeepsOrder(cfg, s.(l := s.l.(stepping := true, gated := false, emittedAtStart := s.w.emitted)));
        }
      case EventInput(e, at) => if s.l.stepping { DeliverKeepsOrder(cfg, s, e, at); }
      case EndInput =>
        if s.l.stepping {
          AfterLoopKeepsOrder(cfg, s.(l := s.l.(upstreamDone := true)));
        }
      case ThrowInput => if s.l.stepping { ThrowKeepsOrder(cfg, s); }
      case TickInput(at) => TickKeepsOrder(cfg, s, at);
      case CancelInput =>
      case TearInput(room) =>
    }
  }

  lemma {:induction false} RunKeepsOrder(cfg: Config, now: int, xs: seq<Input>)
    ensures OrderInv(Run(cfg, now, xs))
  {
    if xs == [] {
      OrderOfSnoc([], Sent(Some(0), Created));
    } else {
      RunKeepsOrder(cfg, now, xs[..|xs| - 1]);
      NextKeepsOrder(cfg, Run(cfg, now, xs[..|xs| - 1]), xs[|xs| - 1]);
    }
  }

  // ---- What the order means, frame by frame ----

  function Terminals(frames: seq<Sent>): seq<Terminal> {
    if frames == [] then []
    else
      var last := frames[|frames| - 1].frame;
      Terminals(frames[..|frames| - 1]) + if last.End? then [last.terminal] else []
  }

  function Numbered(frames: seq<Sent>): nat {
    if frames == [] then 0
    else Numbered(frames[..|frames| - 1]) + if frames[|frames| - 1].number.Some? then 1 else 0
  }

  /** Where a frame may stand on a wire. */
  predicate WellPlaced(frames: seq<Sent>, i: nat)
    requires i < |frames|
  {
    && (frames[i].frame.Created? <==> i == 0)
    && (frames[i].number.None? <==> frames[i].frame.Heartbeat? || frames[i].frame.DoneMark?)
    && (frames[i].number.Some? ==> frames[i].number.value == Numbered(frames[..i]))
    && (frames[i].frame.End? ==>
          i == |frames| - 1 || (i == |frames| - 2 && frames[i + 1].frame.DoneMark?))
    && (frames[i].frame.DoneMark? ==> i == |frames| - 1 && i > 0 && frames[i - 1].frame.End?)
  }

  predicate WellOrdered(frames: seq<Sent>) {
    forall i :: 0 <= i < |frames| ==> WellPlaced(frames, i)
  }

  lemma {:induction false} OrderCounts(frames: seq<Sent>)
    requires OrderOf(frames).Some?
    ensures var o := OrderOf(frames).value;
      && o.next == Numbered(frames)
      && (o.stage == Before <==> frames == [])
      && (o.stage == Ended <==> frames != [] && frames[|frames| - 1].frame.End?)
      && (o.stage == Sealed <==> frames != [] && frames[|frames| - 1].frame.DoneMark?)
      && Terminals(frames) == match o.end { case None => [] case Some(t) => [t] }
  {
    if frames != [] {
      OrderCounts(frames[..|frames| - 1]);
      FlowingHasNoEnd(frames[..|frames| - 1]);
    }
  }

  lemma {:induction false} OrderMeansShape(frames: seq<Sent>)
    requires OrderOf(frames).Some?
    ensures WellOrdered(frames)
  {
    if frames != [] {
      var init, last := frames[..|frames| - 1], frames[|frames| - 1];
      OrderMeansShape(init);
      OrderCounts(init);
      ShapeSnoc(init, last);
      assert frames == init + [last];
    }
  }

  lemma {:induction false} ShapeSnoc(init: seq<Sent>, last: Sent)
    requires WellOrdered(init)
    requires last.frame.Created? <==> init == []
    requires last.number.None? <==> last.frame.Heartbeat? || last.frame.DoneMark?
    requires last.number.Some? ==> last.number.value == Numbered(init)
    requires init != [] && init[|init| - 1].frame.End? ==> last.frame.DoneMark?
    requires init != [] ==> !init[|init| - 1].frame.DoneMark?
    requires last.frame.DoneMark? ==> init != [] && init[|init| - 1].frame.End?
    ensures WellOrdered(init + [last])
  {
    var frames := init + [last];
    forall i | 0 <= i < |frames|
      ensures WellPlaced(frames, i)
    {
      if i < |init| {
        assert WellPlaced(init, i);
        assert frames[..i] == init[..i] && frames[i] == init[i];
      } else {
        assert frames[..i] == init;
      }
    }
  }

  // ---- The theorems over whole runs ----

  /**
   * Exactly one terminal: created first, at most one terminal, the marker right after it and last,
   * numbers 0, 1, 2, ... on the numbered frames. The terminal is there exactly when it was reported,
   * with the reported status, and it is only missing from a finished run when the client had left.
   */
  lemma {:induction false} ExactlyOneTerminal(cfg: Config, now: int, xs: seq<Input>)
    ensures var s := Run(cfg, now, xs);
      && WellOrdered(s.w.frames)
      && |Terminals(s.w.frames)| == (if s.l.reported.Some? then 1 else 0)
      && (s.l.reported.Some? ==> Terminals(s.w.frames)[0].status == s.l.reported.value)
      && (s.l.reported.Some? ==> s.l.terminated && s.w.closed)
      && (s.w.closed && s.l.reported.None? ==> s.l.cancelled || s.w.room == Some(0))
      && (s.l.terminated && !s.l.cancelled && s.w.room != Some(0) ==>
            s.l.reported.Some? && s.w.frames != [] && s.w.frames[|s.w.frames| - 1].frame.DoneMark?)
  {
    RunKeepsOrder(cfg, now, xs);
    var s := Run(cfg, now, xs);
    OrderMeansShape(s.w.frames);
    OrderCounts(s.w.frames);
    FlowingHasNoEnd(s.w.frames);
  }

  /** Nothing is taken back, and nothing follows the close: later inputs leave the wire alone. */
  lemma {:induction false} WireOnlyGrows(cfg: Config, now: int, xs: seq<Input>, ys: seq<Input>)
    ensures var s, s' := Run(cfg, now, xs), Run(cfg, now, xs + ys);
      && s.w.frames <= s'.w.frames
      && (s.w.closed ==> s'.w.frames == s.w.frames && s'.w.closed && s'.l.reported == s.l.reported)
    decreases |ys|
  {
    if ys == [] {
      assert xs + ys == xs;
    } else {
      var init := ys[..|ys| - 1];
      WireOnlyGrows(cfg, now, xs, init);
      assert (xs + ys)[..|xs + ys| - 1] == xs + init;
      RunKeepsOrder(cfg, now, xs + init);
      NextKeepsOrder(cfg, Run(cfg, now, xs + init), ys[|ys| - 1]);
    }
  }

  /** A client that cancels before the terminal never sees one, whatever happens afterwards. */
  lemma {:induction false} CancelSilences(cfg: Config, now: int, xs: seq<Input>, ys: seq<Input>)
    requires Run(cfg, now, xs).l.reported.None?
    ensures Terminals(Run(cfg, now, xs + [CancelInput] + ys).w.frames) == []
    ensures Run(cfg, now, xs + [CancelInput] + ys).w.frames == Run(cfg, now, xs).w.frames
    ensures Run(cfg, now, xs + [CancelInput] + ys).l.reported.None?
  {
    assert (xs + [CancelInput])[..|xs|] == xs;
    WireOnlyGrows(cfg, now, xs + [CancelInput], ys);
    ExactlyOneTerminal(cfg, now, xs);
  }

  /** The upstream iterator is always released: it ended by itself, was returned, or the wire broke. */
  lemma {:induction false} UpstreamIsReleased(cfg: Config, now: int, xs: seq<Input>)
    ensures var s := Run(cfg, now, xs);
      s.w.closed ==> s.l.upstreamDone || s.l.iteratorReturned || s.w.room == Some(0)
  {
    RunKeepsOrder(cfg, now, xs);
    FlowingHasNoEnd(Run(cfg, now, xs).w.frames);
  }
}
