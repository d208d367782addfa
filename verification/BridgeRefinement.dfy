/**
 * The streaming form refines the batch form: whatever interleaving carried the events, a terminal on
 * the wire lists the items the batch translation builds from the events delivered so far.
 */
module BridgeRefinement {
  import opened Common
  import opened Bridge
  import opened BridgeOrder
  import opened BridgeItems
  import Batch
  import Freeform

  /** Events on which both translations are meant to agree: no empty payloads, no signed blocks. */
  predicate Plain(e: Event) {
    match e
    case TextDelta(text, _) => text != []
    case ThinkingDelta(text) => text != []
    case RawDelta(text) => text != []
    case ToolStart(callId, _) => callId != ""
    case ThinkingSignature(_) => false
    case RedactedThinking(_) => false
    case _ => true
  }

  function Bodies(items: seq<Item>): seq<Body> {
    seq(|items|, i requires 0 <= i < |items| => items[i].body)
  }

  lemma {:induction false} BodiesSnoc(items: seq<Item>, item: Item)
    ensures Bodies(items + [item]) == Bodies(items) + [item.body]
  {
  }

  /** The stream's items and the batch accumulators describe the same partial response. */
  predicate Sim(cfg: Config, s: State, a: Batch.Acc) {
    && OneOpen(cfg, s.i)
    && s.p == Pending([], [], [], [], [])
    && a.sig == [] && a.red == []
    && a.output == Bodies(s.i.finished)
    && (match s.i.message
        case None => a.text == []
        case Some(m) => a.text == m.text && m.text != [] && a.phase == m.phase)
    && a.summary == (if s.i.reasoning.Some? then s.i.reasoning.value.text else [])
    && (s.i.reasoning.Some? ==> s.i.reasoning.value.text != [])
    && a.raw == (if s.i.raw.Some? then s.i.raw.value.text else [])
    && (s.i.raw.Some? ==> s.i.raw.value.text != [])
    && (match s.i.tool
        case None => a.callId == ""
        case Some(t) =>
          && a.callId == t.callId && t.callId != "" && a.callArgs == t.args
          && t.name == ToolName(cfg.tools, a.callName) && t.namespace == ToolNamespace(cfg.tools, a.callName))
  }

  /** No final event has been accumulated yet. */
  predicate Unfinished(a: Batch.Acc) {
    a.error.None? && a.incomplete.None? && a.endTurn.None? && !a.maxTokens
  }

  predicate SameFinality(a: Batch.Acc, a': Batch.Acc) {
    a'.error == a.error && a'.incomplete == a.incomplete && a'.endTurn == a.endTurn && a'.maxTokens == a.maxTokens
  }

  lemma {:induction false} CloseMessageSim(cfg: Config, s: State, a: Batch.Acc)
    requires !cfg.hide && Sim(cfg, s, a)
    ensures Sim(cfg, CloseMessage(s), Batch.FlushText(a)) && SameFinality(a, Batch.FlushText(a))
  {
    if s.i.message.Some? {
      var m := s.i.message.value;
      BodiesSnoc(s.i.finished, Item(m.id, Message(m.text, m.phase)));
    }
  }

  lemma {:induction false} CloseReasoningSim(cfg: Config, s: State, a: Batch.Acc)
    requires !cfg.hide && Sim(cfg, s, a)
    ensures Batch.FlushPending(cfg, a) == Batch.FlushSummary(cfg, a)
    ensures Sim(cfg, CloseReasoning(s), Batch.FlushPending(cfg, a)) && SameFinality(a, Batch.FlushPending(cfg, a))
  {
    if s.i.reasoning.Some? {
      var r := s.i.reasoning.value;
      BodiesSnoc(s.i.finished, Item(r.id, Reasoning(Some(r.text), None)));
    }
  }

  lemma {:induction false} CloseRawSim(cfg: Config, s: State, a: Batch.Acc)
    requires !cfg.hide && Sim(cfg, s, a)
    ensures Sim(cfg, CloseRaw(s), Batch.FlushRaw(cfg, a)) && SameFinality(a, Batch.FlushRaw(cfg, a))
  {
    if s.i.raw.Some? {
      var r := s.i.raw.value;
      BodiesSnoc(s.i.finished, Item(r.id, RawReasoning(r.text)));
    }
  }

  lemma {:induction false} CloseToolSim(cfg: Config, s: State, a: Batch.Acc)
    requires !cfg.hide && Sim(cfg, s, a)
    ensures Sim(cfg, CloseTool(cfg, s), Batch.FlushCall(cfg, a)) && SameFinality(a, Batch.FlushCall(cfg, a))
  {
    if s.i.tool.Some? {
      var t := s.i.tool.value;
      BodiesSnoc(s.i.finished, Item(t.id, CallBody(cfg.tools, t.callId, t.name, t.namespace, t.args)));
    }
  }

  lemma {:induction false} CloseAllSim(cfg: Config, s: State, a: Batch.Acc)
    requires !cfg.hide && Sim(cfg, s, a)
    ensures Sim(cfg, CloseAll(cfg, s), Batch.FlushAll(cfg, a)) && SameFinality(a, Batch.FlushAll(cfg, a))
  {
    hide CloseMessage, CloseReasoning, CloseRaw, CloseTool, OneOpen;
    hide Batch.FlushText, Batch.FlushSummary, Batch.FlushPending, Batch.FlushRaw, Batch.FlushCall;
    CloseMessageSim(cfg, s, a);
    var s1, a1 := CloseMessage(s), Batch.FlushText(a);
    CloseReasoningSim(cfg, s1, a1);
    var s2, a2 := CloseReasoning(s1), Batch.FlushSummary(cfg, a1);
    CloseRawSim(cfg, s2, a2);
    var s3, a3 := CloseRaw(s2), Batch.FlushRaw(cfg, a2);
    CloseToolSim(cfg, s3, a3);
  }

  /** With no signed blocks pending the hidden flush does nothing. */
  lemma {:induction false} FlushHiddenIsIdle(s: State)
    requires s.p == Pending([], [], [], [], [])
    ensures FlushHiddenEnvelope(s) == s && FlushHiddenRaw(s) == s
  {
  }

  lemma {:induction false} OnTextSim(cfg: Config, s: State, a: Batch.Acc, text: Text, phase: Option<Phase>)
    requires !cfg.hide && !cfg.compaction && Sim(cfg, s, a) && text != []
    ensures var a' := Batch.OnEvent(cfg, a, TextDelta(text, phase));
      Sim(cfg, OnText(cfg, s, text, phase), a') && SameFinality(a, a')
  {
    var s1 := CloseReasoning(s);
    var s2 := CloseRaw(s1);
    var s3 := CloseTool(cfg, s2);
    if s.i.message.Some? {
      CloseMessageSim(cfg, s, a);
    } else {
      CloseReasoningSim(cfg, s, a);
      var a1 := Batch.FlushPending(cfg, a);
      CloseRawSim(cfg, s1, a1);
      var a2 := Batch.FlushRaw(cfg, a1);
      CloseToolSim(cfg, s2, a2);
    }
  }

  lemma {:induction false} OnThinkingSim(cfg: Config, s: State, a: Batch.Acc, text: Text)
    requires !cfg.hide && Sim(cfg, s, a) && text != []
    ensures var a' := Batch.OnEvent(cfg, a, ThinkingDelta(text));
      Sim(cfg, OnThinking(cfg, s, text), a') && SameFinality(a, a')
  {
    CloseMessageSim(cfg, s, a);
    var s1, a1 := CloseMessage(s), Batch.FlushText(a);
    CloseRawSim(cfg, s1, a1);
    var s2, a2 := CloseRaw(s1), Batch.FlushRaw(cfg, a1);
    CloseToolSim(cfg, s2, a2);
  }

  lemma {:induction false} OnRawSim(cfg: Config, s: State, a: Batch.Acc, text: Text)
    requires !cfg.hide && Sim(cfg, s, a) && text != []
    ensures var a' := Batch.OnEvent(cfg, a, RawDelta(text));
      Sim(cfg, OnRaw(cfg, s, text), a') && SameFinality(a, a')
  {
    CloseMessageSim(cfg, s, a);
    var s1, a1 := CloseMessage(s), Batch.FlushText(a);
    CloseReasoningSim(cfg, s1, a1);
    var s2, a2 := CloseReasoning(s1), Batch.FlushPending(cfg, a1);
    CloseToolSim(cfg, s2, a2);
  }

  lemma {:induction false} OnToolStartSim(cfg: Config, s: State, a: Batch.Acc, callId: string, name: string)
    requires !cfg.hide && Sim(cfg, s, a) && callId != ""
    ensures var a' := Batch.OnEvent(cfg, a, ToolStart(callId, name));
      Sim(cfg, OnToolStart(cfg, s, callId, name), a') && SameFinality(a, a')
  {
    var s1, a1 := CloseAll(cfg, s), Batch.FlushAll(cfg, a);
    assert Batch.FlushPending(cfg, Batch.FlushText(a)) == Batch.FlushSummary(cfg, Batch.FlushText(a)) by {
      CloseMessageSim(cfg, s, a);
      CloseReasoningSim(cfg, CloseMessage(s), Batch.FlushText(a));
    }
    assert Sim(cfg, s1, a1) && SameFinality(a, a1) by {
      CloseAllSim(cfg, s, a);
    }
    assert NothingOpen(s1.i) by {
      CloseAllEmpties(cfg, s);
    }
    hide CloseAll, Batch.FlushText, Batch.FlushSummary, Batch.FlushPending, Batch.FlushRaw, Batch.FlushCall;
  }

  lemma {:induction false} CloseAllEmpties(cfg: Config, s: State)
    ensures NothingOpen(CloseAll(cfg, s).i)
  {
    var s1 := CloseMessage(s);
    var s2 := CloseReasoning(s1);
    var s3 := CloseRaw(s2);
    var s4 := FlushHiddenRaw(s3);
    assert s4.i.message.None? && s4.i.reasoning.None? && s4.i.raw.None?;
  }

  lemma {:induction false} OnToolDeltaSim(cfg: Config, s: State, a: Batch.Acc, arguments: Text)
    requires Sim(cfg, s, a)
    ensures var a' := Batch.OnEvent(cfg, a, ToolDelta(arguments));
      Sim(cfg, OnToolDelta(cfg, s, arguments), a') && SameFinality(a, a')
  {
    if s.i.tool.Some? {
      Freeform.DeltaStep(s.i.tool.value.args, arguments);
    }
  }

  lemma {:induction false} ProcessSim(cfg: Config, s: State, a: Batch.Acc, e: Event)
    requires !cfg.hide && !cfg.compaction && Sim(cfg, s, a) && Plain(e) && !Final(e)
    ensures Sim(cfg, Process(cfg, s, e), Batch.OnEvent(cfg, a, e)) && SameFinality(a, Batch.OnEvent(cfg, a, e))
  {
    hide OnText, OnThinking, OnRaw, OnToolStart, OnToolDelta, CloseTool, CloseAll;
    hide Batch.FlushAll, Batch.FlushCall;
    match e {
      case HeartbeatEvent =>
      case Boundary =>
        CloseAllSim(cfg, s, a);
        FlushHiddenIsIdle(CloseAll(cfg, s));
      case TextDelta(text, phase) => OnTextSim(cfg, s, a, text, phase);
      case ThinkingDelta(text) => OnThinkingSim(cfg, s, a, text);
      case RawDelta(text) => OnRawSim(cfg, s, a, text);
      case ToolStart(callId, name) => OnToolStartSim(cfg, s, a, callId, name);
      case ToolDelta(arguments) => OnToolDeltaSim(cfg, s, a, arguments);
      case ToolEnd => CloseToolSim(cfg, s, a);
    }
  }

  // ---- Terminals ----

  /** The adapter events the bridge took in while its wire was open. */
  function Fed(cfg: Config, now: int, xs: seq<Input>): seq<Event> {
    if xs == [] then []
    else
      var init, x := xs[..|xs| - 1], xs[|xs| - 1];
      var s := Run(cfg, now, init);
      Fed(cfg, now, init) + if x.EventInput? && s.l.stepping && !s.w.closed then [x.event] else []
  }

  predicate DetailMatches(detail: Detail, r: Batch.Response) {
    match detail
    case NoDetail => r.error.None? && r.reason.None?
    case Reason(reason) => r.error.None? && r.reason == Some(reason)
    case AdapterFailure(message) => r.error == Some(message)
    case ProxyFailure => false
  }

  predicate EndsFinal(fed: seq<Event>) {
    fed != [] && Final(fed[|fed| - 1])
  }

  predicate Filtered(e: Event) {
    e.Done? && e.stop == ContentFilter
  }

  /**
   * A terminal agrees with the batch response: the same items, and after a final event the same
   * end_turn, and the same status and detail unless the stop reason was the content filter.
   */
  predicate Agrees(t: Terminal, fed: seq<Event>, r: Batch.Response) {
    t.detail == ProxyFailure ||
    (&& Bodies(t.output) == r.output
     && t.endTurn == r.endTurn
     && if EndsFinal(fed) then
          && (t.status == r.status <==> !Filtered(fed[|fed| - 1]))
          && (!Filtered(fed[|fed| - 1]) ==> DetailMatches(t.detail, r))
        else t.status == Truncated && r.status == Completed)
  }

  ghost predicate RefInv(cfg: Config, s: State, fed: seq<Event>) {
    var a := Batch.Accumulate(cfg, fed);
    && OrderInv(s)
    && (!s.w.closed ==> Sim(cfg, s, a) && Unfinished(a) && !EndsFinal(fed))
    && (s.l.reported.Some? ==> Agrees(OrderOf(s.w.frames).value.end.value, fed, Batch.ResponseOf(cfg, a)))
  }

  lemma {:induction false} EmitEndShows(s: State, status: Status, detail: Detail, endTurn: Option<bool>)
    requires Midway(s) && s.l.reported.None?
    ensures var s' := EmitEnd(s, status, detail, endTurn);
      && Concluded(s')
      && (s'.l.reported.Some? ==>
            OrderOf(s'.w.frames).value.end == Some(Terminal(status, s.i.finished, detail, endTurn)))
  {
    OrderOfSnoc(s.w.frames, Sent(Some(s.w.nextNumber), End(Terminal(status, s.i.finished, detail, endTurn))));
    EmitEndConcludes(s, status, detail, endTurn);
  }

  lemma {:induction false} ShutKeepsEnd(s: State)
    requires Concluded(s)
    ensures OrderOf(Shut(s).w.frames).Some? && OrderOf(Shut(s).w.frames).value.end == OrderOf(s.w.frames).value.end
    ensures Shut(s).l == s.l
  {
    OrderOfSnoc(s.w.frames, Sent(None, DoneMark));
  }

  /** A terminal with these contents, if it reached the wire at all. */
  ghost predicate Shows(s: State, t: Terminal) {
    s.l.reported.Some? ==> OrderOf(s.w.frames).Some? && OrderOf(s.w.frames).value.end == Some(t)
  }

  /** Closing everything and ending the response lists the items of the batch response. */
  lemma {:induction false} CloseAndEnd(cfg: Config, s: State, a: Batch.Acc, status: Status, detail: Detail,
          endTurn: Option<bool>)
    requires !cfg.hide && !cfg.compaction && Sim(cfg, s, a) && Midway(s) && s.l.reported.None?
    ensures var s1 := CloseAll(cfg, s);
      var t := Terminal(status, s1.i.finished, detail, endTurn);
      && FlushHiddenEnvelope(s1) == s1
      && Concluded(EmitEnd(s1, status, detail, endTurn))
      && Shows(EmitEnd(s1, status, detail, endTurn), t)
      && Bodies(t.output) == Batch.ResponseOf(cfg, a).output
      && SameFinality(a, Batch.FlushAll(cfg, a))
  {
    hide CloseAll, Batch.FlushAll, EmitEnd, Concluded, OneOpen;
    CloseAllKeeps(cfg, s);
    KeepsMidway(s, CloseAll(cfg, s));
    CloseAllSim(cfg, s, a);
    FlushHiddenIsIdle(CloseAll(cfg, s));
    EmitEndShows(CloseAll(cfg, s), status, detail, endTurn);
  }

  lemma {:induction false} FinalAgrees(cfg: Config, s: State, fed: seq<Event>, e: Event)
    requires !cfg.hide && !cfg.compaction && Final(e) && Midway(s) && s.l.reported.None?
    requires Sim(cfg, s, Batch.Accumulate(cfg, fed)) && Unfinished(Batch.Accumulate(cfg, fed))
    ensures var s' := Process(cfg, s, e);
      && Concluded(s')
      && (s'.l.reported.Some? ==>
            Agrees(OrderOf(s'.w.frames).value.end.value, fed + [e],
                   Batch.ResponseOf(cfg, Batch.Accumulate(cfg, fed + [e]))))
  {
    hide CloseAll, Batch.FlushAll, FlushHiddenEnvelope, EmitEnd, Concluded, OneOpen;
    assert (fed + [e])[..|fed|] == fed;
    var a := Batch.OnEvent(cfg, Batch.Accumulate(cfg, fed), e);
    assert Sim(cfg, s, a);
    match e {
      case Done(stop, endTurn) =>
        var status := if stop == MaxTokens || stop == ContentFilter then Truncated else Completed;
        var detail := if stop == MaxTokens then Reason("max_output_tokens")
                      else if stop == ContentFilter then Reason("content_filter") else NoDetail;
        CloseAndEnd(cfg, s, a, status, detail, endTurn);
      case Incomplete(reason, endTurn) => CloseAndEnd(cfg, s, a, Truncated, Reason(reason), endTurn);
      case Error(message) => CloseAndEnd(cfg, s, a, Failed, AdapterFailure(message), None);
    }
  }

  /** A terminal that no adapter event caused still lists the batch items. */
  lemma {:induction false} SilentEndAgrees(cfg: Config, s: State, fed: seq<Event>, reason: string)
    requires !cfg.hide && !cfg.compaction && Midway(s) && s.l.reported.None? && !EndsFinal(fed)
    requires Sim(cfg, s, Batch.Accumulate(cfg, fed)) && Unfinished(Batch.Accumulate(cfg, fed))
    ensures var s' := EmitEnd(CloseAll(cfg, s), Truncated, Reason(reason), None);
      && Concluded(s')
      && (s'.l.reported.Some? ==>
            Agrees(OrderOf(s'.w.frames).value.end.value, fed, Batch.ResponseOf(cfg, Batch.Accumulate(cfg, fed))))
  {
    hide CloseAll, Batch.FlushAll, EmitEnd, Concluded, OneOpen;
    CloseAndEnd(cfg, s, Batch.Accumulate(cfg, fed), Truncated, Reason(reason), None);
  }

  /** Between two events the pump changes neither the items nor the wire. */
  lemma {:induction false} PumpIsQuiet(cfg: Config, s: State)
    requires !s.l.terminated && !s.l.upstreamDone
    ensures LoopHead(cfg, s).i == s.i && LoopHead(cfg, s).p == s.p && LoopHead(cfg, s).w == s.w
    ensures LoopHead(cfg, s).l.reported == s.l.reported
  {
  }

  lemma {:induction false} EventRefines(cfg: Config, s: State, fed: seq<Event>, e: Event, at: int)
    requires !cfg.hide && !cfg.compaction && RefInv(cfg, s, fed) && Plain(e) && s.l.stepping && !s.w.closed
    ensures RefInv(cfg, Deliver(cfg, s, e, at), fed + [e])
  {
    hide Process, AfterLoop, LoopHead, RefInv, OrderInv;
    var s0 := s.(l := s.l.(lastAt := at));
    assert RefInv(cfg, s0, fed) && !s0.l.terminated && !s0.l.upstreamDone by { TimeIsNeutral(cfg, s, fed, at); }
    assert OrderInv(Deliver(cfg, s, e, at)) by { DeliverOrder(cfg, s, fed, e, at); }
    if Final(e) {
      FinalEventRefines(cfg, s0, fed, e);
    } else {
      OrdinaryEventRefines(cfg, s0, fed, e);
    }
  }

  lemma {:induction false} DeliverOrder(cfg: Config, s: State, fed: seq<Event>, e: Event, at: int)
    requires RefInv(cfg, s, fed) && s.l.stepping
    ensures OrderInv(Deliver(cfg, s, e, at))
  {
    hide Process, AfterLoop, LoopHead, Sim;
    DeliverKeepsOrder(cfg, s, e, at);
  }

  lemma {:induction false} TimeIsNeutral(cfg: Config, s: State, fed: seq<Event>, at: int)
    requires RefInv(cfg, s, fed) && !s.w.closed
    ensures RefInv(cfg, s.(l := s.l.(lastAt := at)), fed) && !s.l.terminated && !s.l.upstreamDone
  {
  }

  /** What the invariant says while the wire is open. */
  lemma {:induction false} OpenMeans(cfg: Config, s: State, fed: seq<Event>)
    requires RefInv(cfg, s, fed) && !s.w.closed
    ensures Midway(s) && s.l.reported.None? && !s.l.terminated && !s.l.upstreamDone
    ensures Sim(cfg, s, Batch.Accumulate(cfg, fed)) && Unfinished(Batch.Accumulate(cfg, fed))
  {
    hide Sim;
    InvIsMidway(s);
    FlowingHasNoEnd(s.w.frames);
  }

  lemma {:induction false} FinalEventRefines(cfg: Config, s: State, fed: seq<Event>, e: Event)
    requires !cfg.hide && !cfg.compaction && RefInv(cfg, s, fed) && Final(e) && !s.w.closed
    ensures var s1 := Process(cfg, s, e);
      var s' := AfterLoop(cfg, Terminated(s1));
      OrderInv(s') ==> RefInv(cfg, s', fed + [e])
  {
    hide Process, AfterLoop, Terminated, Concluded, Batch.ResponseOf, Batch.Accumulate, Agrees, Sim, OrderInv, Midway;
    hide Unfinished;
    OpenMeans(cfg, s, fed);
    FinalAgrees(cfg, s, fed, e);
    var s1 := Process(cfg, s, e);
    EndedLoop(cfg, s1);
  }

  lemma {:induction false} OrdinaryEventRefines(cfg: Config, s: State, fed: seq<Event>, e: Event)
    requires !cfg.hide && !cfg.compaction && RefInv(cfg, s, fed) && Plain(e) && !Final(e) && !s.w.closed
    ensures var s' := LoopHead(cfg, Process(cfg, s, e));
      OrderInv(s') ==> RefInv(cfg, s', fed + [e])
  {
    hide Process, LoopHead, Batch.ResponseOf, Batch.OnEvent, Agrees, Sim, OrderInv, Midway, Extends;
    OpenMeans(cfg, s, fed);
    assert (fed + [e])[..|fed|] == fed;
    var s1 := Process(cfg, s, e);
    ProcessSim(cfg, s, Batch.Accumulate(cfg, fed), e);
    ProcessKeeps(cfg, s, e);
    PumpIsQuiet(cfg, s1);
    SimIgnoresLife(cfg, s1, LoopHead(cfg, s1), Batch.Accumulate(cfg, fed + [e]));
  }

  lemma {:induction false} EndedLoop(cfg: Config, s: State)
    requires Concluded(s)
    ensures var s' := AfterLoop(cfg, Terminated(s));
      && s'.w.closed && s'.l.reported == s.l.reported
      && OrderOf(s'.w.frames).Some? && OrderOf(s'.w.frames).value.end == OrderOf(s.w.frames).value.end
  {
    var s1 := Terminated(s);
    ShutKeepsEnd(s1.(l := s1.l.(beat := false)));
  }

  lemma {:induction false} EndRefines(cfg: Config, s: State, fed: seq<Event>)
    requires !cfg.hide && !cfg.compaction && RefInv(cfg, s, fed) && s.l.stepping && !s.w.closed
    ensures RefInv(cfg, UpstreamEnd(cfg, s), fed)
  {
    hide CloseAll, EmitEnd, OneOpen, Batch.ResponseOf, Agrees, Sim, Shut;
    NextKeepsOrder(cfg, s, EndInput);
    InvIsMidway(s);
    FlowingHasNoEnd(s.w.frames);
    var s1 := s.(l := s.l.(upstreamDone := true, beat := false));
    assert Sim(cfg, s1, Batch.Accumulate(cfg, fed)) by { SimIgnoresLife(cfg, s, s1, Batch.Accumulate(cfg, fed)); }
    SilentEndAgrees(cfg, s1, fed, "adapter_eof");
    var ended := EmitEnd(CloseAll(cfg, s1), Truncated, Reason("adapter_eof"), None);
    ShutKeepsEnd(ended.(l := ended.l.(terminated := true)));
    ShutSeals(ended.(l := ended.l.(terminated := true)));
  }

  lemma {:induction false} SimIgnoresLife(cfg: Config, s: State, s': State, a: Batch.Acc)
    requires Sim(cfg, s, a) && s'.i == s.i && s'.p == s.p
    ensures Sim(cfg, s', a)
  {
  }

  lemma {:induction false} SimMeansIdle(cfg: Config, s: State, a: Batch.Acc)
    requires Sim(cfg, s, a)
    ensures s.p == Pending([], [], [], [], [])
  {
  }

  lemma {:induction false} ThrowRefines(cfg: Config, s: State, fed: seq<Event>)
    requires !cfg.hide && !cfg.compaction && RefInv(cfg, s, fed) && s.l.stepping && !s.w.closed
    ensures RefInv(cfg, UpstreamThrow(cfg, s), fed)
  {
    hide CloseAll, OneOpen, Sim, Terminated, Batch.ResponseOf, AfterLoop;
    NextKeepsOrder(cfg, s, ThrowInput);
    OpenMeans(cfg, s, fed);
    assert s.p == Pending([], [], [], [], []) by { SimMeansIdle(cfg, s, Batch.Accumulate(cfg, fed)); }
    InvIsMidway(s);
    FlowingHasNoEnd(s.w.frames);
    FlushHiddenIsIdle(s);
    EmitEndShows(s, Failed, ProxyFailure, None);
    var s1 := EmitEnd(s, Failed, ProxyFailure, None);
    EndedLoop(cfg, s1);
  }

  lemma {:induction false} TickRefines(cfg: Config, s: State, fed: seq<Event>, at: int)
    requires !cfg.hide && !cfg.compaction && RefInv(cfg, s, fed) && !s.w.closed
    ensures RefInv(cfg, Tick(cfg, s, at), fed)
  {
    hide CloseAll, EmitEnd, OneOpen, Batch.ResponseOf, Agrees, Sim, Shut;
    NextKeepsOrder(cfg, s, TickInput(at));
    InvIsMidway(s);
    FlowingHasNoEnd(s.w.frames);
    if s.l.beat && !s.l.gated && at - s.l.lastAt >= cfg.stallMs {
      SilentEndAgrees(cfg, s, fed, "upstream_stall_timeout");
      var s1 := EmitEnd(CloseAll(cfg, s), Truncated, Reason("upstream_stall_timeout"), None);
      ShutKeepsEnd(s1);
      ShutSeals(s1);
    } else {
      SimIgnoresLife(cfg, s, Tick(cfg, s, at), Batch.Accumulate(cfg, fed));
    }
  }

  lemma {:induction false} NextRefines(cfg: Config, s: State, fed: seq<Event>, x: Input)
    requires !cfg.hide && !cfg.compaction && RefInv(cfg, s, fed)
    requires x.EventInput? && s.l.stepping && !s.w.closed ==> Plain(x.event)
    ensures RefInv(cfg, Next(cfg, s, x), if x.EventInput? && s.l.stepping && !s.w.closed then fed + [x.event] else fed)
  {
    hide CloseAll, EmitEnd, OneOpen, Batch.ResponseOf, Agrees, AfterLoop, Process;
    NextKeepsOrder(cfg, s, x);
    FlowingHasNoEnd(s.w.frames);
    if !s.w.closed {
      match x {
        case PullInput =>
          PumpIsQuiet(cfg, s.(l := s.l.(stepping := true, gated := false, emittedAtStart := s.w.emitted)));
        case EventInput(e, at) => if s.l.stepping { EventRefines(cfg, s, fed, e, at); }
        case EndInput => if s.l.stepping { EndRefines(cfg, s, fed); }
        case ThrowInput => if s.l.stepping { ThrowRefines(cfg, s, fed); }
        case TickInput(at) => TickRefines(cfg, s, fed, at);
        case CancelInput =>
        case TearInput(room) =>
      }
    }
  }

  lemma {:induction false} RunRefines(cfg: Config, now: int, xs: seq<Input>)
    requires !cfg.hide && !cfg.compaction && forall e :: e in Fed(cfg, now, xs) ==> Plain(e)
    ensures RefInv(cfg, Run(cfg, now, xs), Fed(cfg, now, xs))
  {
    hide Next;
    if xs == [] {
      OrderOfSnoc([], Sent(Some(0), Created));
    } else {
      hide RefInv;
      RunRefines(cfg, now, xs[..|xs| - 1]);
      assert Fed(cfg, now, xs[..|xs| - 1]) + [] == Fed(cfg, now, xs[..|xs| - 1]);
      NextRefines(cfg, Run(cfg, now, xs[..|xs| - 1]), Fed(cfg, now, xs[..|xs| - 1]), xs[|xs| - 1]);
    }
  }

  /**
   * Stream refines batch: in every run fed with plain events, a terminal on the wire agrees with the
   * batch response for the events delivered, up to item ids; only an upstream throw is exempt.
   */
  lemma {:induction false} StreamRefinesBatch(cfg: Config, now: int, xs: seq<Input>)
    requires !cfg.hide && !cfg.compaction && forall e :: e in Fed(cfg, now, xs) ==> Plain(e)
    ensures var fed := Fed(cfg, now, xs);
      forall t :: t in Terminals(Run(cfg, now, xs).w.frames) ==>
        Agrees(t, fed, Batch.ResponseOf(cfg, Batch.Accumulate(cfg, fed)))
  {
    RunRefines(cfg, now, xs);
    RunKeepsOrder(cfg, now, xs);
    OrderCounts(Run(cfg, now, xs).w.frames);
  }
}
