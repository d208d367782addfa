/**
 * The bridge with its closure variables as fields, updated in place event by event. Every method is
 * proved to take exactly the step of the state machine, so the theorems about runs are about it.
 */
module StreamBridge {
  import opened Common
  import opened Bridge
  import Freeform

  class Stream {
    const cfg: Config

    // The controller, as far as the bridge can tell.
    var wire: seq<Sent>
    var room: Option<nat>

    var closed: bool
    var emittedFrames: nat
    var seqNumber: nat

    var outputIndex: nat
    var nextId: nat
    var finishedItems: seq<Item>
    var currentMsg: Option<OpenText>
    var currentReasoning: Option<OpenText>
    var currentRawReasoning: Option<OpenText>
    var currentToolCall: Option<OpenTool>

    var pendingSignature: Text
    var pendingRedacted: seq<Text>
    var hiddenThinkingText: Text
    var hiddenRawReasoningText: Text
    var compactionText: Text

    var clientCancelled: bool
    var terminalReported: Option<Status>
    var beat: bool
    var gated: bool
    var stepping: bool
    var terminated: bool
    var upstreamDone: bool
    var iteratorStarted: bool
    var iteratorReturned: bool
    var emittedAtStart: nat
    var lastAdapterEventAt: int
    var cancels: nat

    ghost function View(): State
      reads this
    {
      State(
        Wire(closed, room, emittedFrames, seqNumber, wire),
        Items(outputIndex, nextId, finishedItems, currentMsg, currentReasoning, currentRawReasoning, currentToolCall),
        Pending(pendingSignature, pendingRedacted, hiddenThinkingText, hiddenRawReasoningText, compactionText),
        Life(clientCancelled, terminalReported, beat, gated, stepping, terminated, upstreamDone, iteratorStarted,
             iteratorReturned, emittedAtStart, lastAdapterEventAt, cancels))
    }

    /** Building the stream emits the created frame and arms the heartbeat timer. */
    constructor (cfg: Config, now: int)
      ensures this.cfg == cfg && View() == Start(now)
    {
      this.cfg := cfg;
      wire, room, closed, emittedFrames, seqNumber := [], None, false, 0, 0;
      outputIndex, nextId, finishedItems := 0, 0, [];
      currentMsg, currentReasoning, currentRawReasoning, currentToolCall := None, None, None, None;
      pendingSignature, pendingRedacted := [], [];
      hiddenThinkingText, hiddenRawReasoningText, compactionText := [], [], [];
      clientCancelled, terminalReported, beat, gated, stepping := false, None, true, true, false;
      terminated, upstreamDone, iteratorStarted, iteratorReturned := false, false, false, false;
      emittedAtStart, lastAdapterEventAt, cancels := 0, now, 0;
      new;
      EmitFrame(Created);
    }

    /** `controller.enqueue`: it throws once the controller is torn down. */
    method TryEnqueue(sent: Sent)
      modifies this`wire, this`room, this`closed, this`emittedFrames
      ensures View() == old(View()).(w := Enqueue(old(View()).w, sent))
    {
      if closed {
        return;
      }
      if room == Some(0) {
        closed := true;
        return;
      }
      wire := wire + [sent];
      emittedFrames := emittedFrames + 1;
      if room.Some? {
        room := Some(room.value - 1);
      }
    }

    method EmitFrame(frame: Frame)
      modifies this`wire, this`room, this`closed, this`emittedFrames, this`seqNumber
      ensures View() == old(View()).(w := Emit(old(View()).w, frame))
    {
      if closed {
        return;
      }
      var number := seqNumber;
      seqNumber := seqNumber + 1;
      TryEnqueue(Sent(Some(number), frame));
    }

    method ReportTerminal(status: Status)
      modifies this`terminalReported
      ensures View() == Report(old(View()), status)
    {
      if terminalReported.Some? || clientCancelled || closed {
        return;
      }
      terminalReported := Some(status);
    }

    method EmitTerminal(status: Status, detail: Detail, endTurn: Option<bool>)
      modifies this
      ensures View() == EmitEnd(old(View()), status, detail, endTurn)
    {
      EmitFrame(End(Terminal(status, finishedItems, detail, endTurn)));
      ReportTerminal(status);
    }

    method AnnounceItem(body: Body) returns (id: nat)
      modifies this
      ensures View() == Announce(old(View()), body) && id == old(nextId)
    {
      id := nextId;
      nextId := nextId + 1;
      EmitFrame(Added(outputIndex, Item(id, body)));
    }

    method FinishItem(index: nat, item: Item)
      modifies this
      ensures View() == Complete(old(View()), index, item)
    {
      EmitFrame(ItemDone(index, item));
      finishedItems := finishedItems + [item];
      outputIndex := outputIndex + 1;
    }

    method TakeReasoningEnvelope(txt: Text) returns (envelope: Option<Envelope>)
      modifies this`pendingSignature, this`pendingRedacted
      ensures (envelope, View().p) == TakeEnvelope(old(View()).p, txt)
      ensures View() == old(View()).(p := View().p)
    {
      if pendingSignature == [] && pendingRedacted == [] {
        return None;
      }
      envelope := Some(Envelope(pendingSignature, pendingRedacted, txt));
      pendingSignature := [];
      pendingRedacted := [];
    }

    method FlushEnvelopeItem(envelope: Envelope)
      modifies this
      ensures View() == EnvelopeItem(old(View()), envelope)
    {
      var index := outputIndex;
      var id := AnnounceItem(Reasoning(None, Some(envelope)));
      FinishItem(index, Item(id, Reasoning(None, Some(envelope))));
    }

    method FlushHiddenReasoningEnvelope()
      modifies this
      ensures View() == FlushHiddenEnvelope(old(View()))
    {
      hide EnvelopeItem;
      var encrypted := TakeReasoningEnvelope(hiddenThinkingText);
      hiddenThinkingText := [];
      if encrypted.Some? {
        FlushEnvelopeItem(encrypted.value);
      }
    }

    method FlushHiddenRawReasoning()
      modifies this
      ensures View() == FlushHiddenRaw(old(View()))
    {
      hide EnvelopeItem;
      if hiddenRawReasoningText == [] {
        return;
      }
      var txt := hiddenRawReasoningText;
      hiddenRawReasoningText := [];
      FlushEnvelopeItem(Envelope([], [], txt));
    }

    method CloseCurrentMessage()
      modifies this
      ensures View() == CloseMessage(old(View()))
    {
      hide Emit, Complete;
      if currentMsg.None? {
        return;
      }
      var m := currentMsg.value;
      EmitFrame(ValueDone(m.index, m.id, m.text));
      EmitFrame(PartDone(m.index, m.id, m.text));
      currentMsg := None;
      FinishItem(m.index, Item(m.id, Message(m.text, m.phase)));
    }

    method CloseCurrentReasoning()
      modifies this
      ensures View() == CloseReasoning(old(View()))
    {
      hide Emit, Complete;
      if currentReasoning.None? {
        return;
      }
      var r := currentReasoning.value;
      EmitFrame(ValueDone(r.index, r.id, r.text));
      EmitFrame(PartDone(r.index, r.id, r.text));
      var encrypted := TakeReasoningEnvelope([]);
      currentReasoning := None;
      FinishItem(r.index, Item(r.id, Reasoning(Some(r.text), encrypted)));
    }

    method CloseCurrentRawReasoning()
      modifies this
      ensures View() == CloseRaw(old(View()))
    {
      hide Emit, Complete;
      if currentRawReasoning.None? {
        return;
      }
      var r := currentRawReasoning.value;
      currentRawReasoning := None;
      FinishItem(r.index, Item(r.id, RawReasoning(r.text)));
    }

    method CloseCurrentToolCall()
      modifies this
      ensures View() == CloseTool(cfg, old(View()))
    {
      hide Emit, Complete;
      if currentToolCall.None? {
        return;
      }
      var t := currentToolCall.value;
      var argsStr := ArgumentsOrEmpty(t.args);
      var body: Body;
      if IsSearch(cfg.tools, t.name) {
        body := SearchCall(t.callId, cfg.tools.parseObject(t.args));
      } else if IsFreeform(cfg.tools, t.name) {
        EmitFrame(ValueDone(t.index, t.id, cfg.tools.unwrap(t.args)));
        body := CustomCall(t.callId, t.name, cfg.tools.unwrap(t.args));
      } else {
        EmitFrame(ValueDone(t.index, t.id, argsStr));
        body := FunctionBody(t.callId, t.name, argsStr, t.namespace);
      }
      currentToolCall := None;
      FinishItem(t.index, Item(t.id, body));
    }

    method CloseEverything()
      modifies this
      ensures View() == CloseAll(cfg, old(View()))
    {
      hide CloseMessage, CloseReasoning, CloseRaw, FlushHiddenRaw, CloseTool;
      CloseCurrentMessage();
      CloseCurrentReasoning();
      CloseCurrentRawReasoning();
      FlushHiddenRawReasoning();
      CloseCurrentToolCall();
    }

    method TextDeltaArrives(text: Text, phase: Option<Phase>)
      modifies this
      ensures View() == OnText(cfg, old(View()), text, phase)
    {
      hide CloseMessage, CloseReasoning, CloseRaw, FlushHiddenRaw, CloseTool, OpenMessage, AppendMessage;
      CloseCurrentReasoning();
      CloseCurrentRawReasoning();
      FlushHiddenRawReasoning();
      CloseCurrentToolCall();
      if currentMsg.Some? && currentMsg.value.phase != phase {
        CloseCurrentMessage();
      }
      if currentMsg.None? {
        OpenNewMessage(phase);
      }
      GrowMessage(text);
    }

    method OpenNewMessage(phase: Option<Phase>)
      modifies this
      ensures View() == OpenMessage(old(View()), phase) && currentMsg.Some?
    {
      hide Emit, Announce;
      var index := outputIndex;
      var id := AnnounceItem(Message([], phase));
      EmitFrame(PartAdded(index, id));
      currentMsg := Some(OpenText(id, index, [], phase));
    }

    method GrowMessage(text: Text)
      requires currentMsg.Some?
      modifies this
      ensures View() == AppendMessage(old(View()), text)
    {
      hide Emit;
      var m := currentMsg.value;
      currentMsg := Some(m.(text := m.text + text));
      EmitFrame(Delta(m.index, m.id, text));
    }

    method ThinkingDeltaArrives(text: Text)
      modifies this
      ensures View() == OnThinking(cfg, old(View()), text)
    {
      hide CloseMessage, CloseRaw, FlushHiddenRaw, CloseTool, OpenReasoning, AppendReasoning;
      if cfg.hide {
        hiddenThinkingText := hiddenThinkingText + text;
        return;
      }
      CloseCurrentMessage();
      CloseCurrentRawReasoning();
      FlushHiddenRawReasoning();
      CloseCurrentToolCall();
      if currentReasoning.None? {
        OpenNewReasoning();
      }
      GrowReasoning(text);
    }

    method OpenNewReasoning()
      modifies this
      ensures View() == OpenReasoning(old(View())) && currentReasoning.Some?
    {
      hide Emit, Announce;
      var index := outputIndex;
      var id := AnnounceItem(Reasoning(Some([]), None));
      EmitFrame(PartAdded(index, id));
      currentReasoning := Some(OpenText(id, index, [], None));
    }

    method GrowReasoning(text: Text)
      requires currentReasoning.Some?
      modifies this
      ensures View() == AppendReasoning(old(View()), text)
    {
      hide Emit;
      var r := currentReasoning.value;
      currentReasoning := Some(r.(text := r.text + text));
      EmitFrame(Delta(r.index, r.id, text));
    }

    method RawDeltaArrives(text: Text)
      modifies this
      ensures View() == OnRaw(cfg, old(View()), text)
    {
      hide CloseMessage, CloseReasoning, CloseTool, OpenRaw, AppendRaw;
      if cfg.hide {
        hiddenRawReasoningText := hiddenRawReasoningText + text;
        return;
      }
      CloseCurrentMessage();
      CloseCurrentReasoning();
      CloseCurrentToolCall();
      if currentRawReasoning.None? {
        OpenNewRaw();
      }
      GrowRaw(text);
    }

    method OpenNewRaw()
      modifies this
      ensures View() == OpenRaw(old(View())) && currentRawReasoning.Some?
    {
      hide Emit, Announce;
      var index := outputIndex;
      var id := AnnounceItem(RawReasoning([]));
      currentRawReasoning := Some(OpenText(id, index, [], None));
    }

    method GrowRaw(text: Text)
      requires currentRawReasoning.Some?
      modifies this
      ensures View() == AppendRaw(old(View()), text)
    {
      hide Emit;
      var r := currentRawReasoning.value;
      currentRawReasoning := Some(r.(text := r.text + text));
      EmitFrame(Delta(r.index, r.id, text));
    }

    method ToolCallStarts(callId: string, name: string)
      modifies this
      ensures View() == OnToolStart(cfg, old(View()), callId, name)
    {
      hide Emit, Announce, CloseAll;
      CloseEverything();
      var realName, ns := ToolName(cfg.tools, name), ToolNamespace(cfg.tools, name);
      var index := outputIndex;
      var id := AnnounceItem(CallStarted(cfg.tools, callId, realName, ns));
      currentToolCall := Some(OpenTool(id, index, callId, realName, [], ns, []));
    }

    method ToolCallGrows(arguments: Text)
      modifies this
      ensures View() == OnToolDelta(cfg, old(View()), arguments)
    {
      hide Emit, Freeform.Partial;
      if currentToolCall.None? {
        return;
      }
      var t := currentToolCall.value;
      var args := t.args + arguments;
      currentToolCall := Some(t.(args := args));
      if IsSearch(cfg.tools, t.name) {
        return;
      }
      if !IsFreeform(cfg.tools, t.name) {
        EmitFrame(Delta(t.index, t.id, arguments));
        return;
      }
      if args <= Freeform.WRAP {
        return;
      }
      var full := Freeform.PartialInput(args);
      if t.inputEmitted <= full && |full| > |t.inputEmitted| {
        EmitFrame(Delta(t.index, t.id, full[|t.inputEmitted|..]));
        currentToolCall := Some(t.(args := args, inputEmitted := full));
      }
    }

    method SignatureArrives(signature: Text)
      modifies this
      ensures View() == OnSignature(old(View()), signature)
    {
      hide FlushHiddenEnvelope;
      pendingSignature := signature;
      if currentReasoning.None? {
        FlushHiddenReasoningEnvelope();
      }
    }

    method TurnDone(stop: StopReason, endTurn: Option<bool>)
      modifies this
      ensures View() == OnDone(cfg, old(View()), stop, endTurn)
    {
      hide CloseAll, FlushHiddenEnvelope, EmitEnd, Complete;
      CloseEverything();
      FlushHiddenReasoningEnvelope();
      if cfg.compaction {
        var id := nextId;
        nextId := nextId + 1;
        FinishItem(outputIndex, Item(id, Compaction(compactionText)));
      }
      if stop == MaxTokens || stop == ContentFilter {
        EmitTerminal(Truncated, Reason(if stop == MaxTokens then "max_output_tokens" else "content_filter"), endTurn);
      } else {
        EmitTerminal(Completed, NoDetail, endTurn);
      }
    }

    /** The switch over the event types. */
    method Handle(e: Event)
      modifies this
      ensures View() == Process(cfg, old(View()), e)
    {
      hide CloseAll, FlushHiddenEnvelope, CloseTool, EmitEnd, OnText, OnThinking, OnRaw, OnToolStart, OnToolDelta;
      hide OnSignature, OnDone;
      match e {
        case HeartbeatEvent =>
        case Boundary =>
          CloseEverything();
          FlushHiddenReasoningEnvelope();
        case TextDelta(text, phase) => TextDeltaArrives(text, phase);
        case ThinkingDelta(text) => ThinkingDeltaArrives(text);
        case ThinkingSignature(signature) => SignatureArrives(signature);
        case RedactedThinking(data) => pendingRedacted := pendingRedacted + [data];
        case RawDelta(text) => RawDeltaArrives(text);
        case ToolStart(callId, name) => ToolCallStarts(callId, name);
        case ToolDelta(arguments) => ToolCallGrows(arguments);
        case ToolEnd => CloseCurrentToolCall();
        case Done(stop, endTurn) => TurnDone(stop, endTurn);
        case Incomplete(reason, endTurn) =>
          CloseEverything();
          FlushHiddenReasoningEnvelope();
          EmitTerminal(Truncated, Reason(reason), endTurn);
        case Error(message) =>
          CloseEverything();
          EmitTerminal(Failed, AdapterFailure(message), None);
      }
    }

    method CloseController()
      modifies this
      ensures View() == Shut(old(View()))
    {
      TryEnqueue(Sent(None, DoneMark));
      closed := true;
    }

    method ReturnUpstream()
      modifies this`iteratorStarted, this`iteratorReturned
      ensures View() == old(View()).(l := ReturnIterator(old(View()).l))
    {
      iteratorStarted := true;
      iteratorReturned := true;
    }

    /** After a terminal: tell the caller and return the upstream iterator. */
    method MarkTerminated()
      modifies this`cancels, this`terminated, this`iteratorStarted, this`iteratorReturned
      ensures View() == Terminated(old(View()))
    {
      cancels := cancels + 1;
      terminated := true;
      ReturnUpstream();
    }

    method LeaveStep()
      modifies this`gated, this`stepping
      ensures View() == old(View()).(l := old(View()).l.(gated := true, stepping := false))
    {
      gated := true;
      stepping := false;
    }

    method StopBeat()
      modifies this`beat
      ensures View() == old(View()).(l := old(View()).l.(beat := false))
    {
      beat := false;
    }

    /** An adapter that ends without a final event leaves a truncated response. */
    method EndTruncated()
      modifies this
      ensures var ended := EmitEnd(CloseAll(cfg, old(View())), Truncated, Reason("adapter_eof"), None);
        View() == ended.(l := ended.l.(terminated := true))
    {
      hide CloseAll, EmitEnd;
      CloseEverything();
      EmitTerminal(Truncated, Reason("adapter_eof"), None);
      terminated := true;
    }

    /** The part of a pump step after its loop. */
    method LeaveLoop()
      modifies this
      ensures View() == AfterLoop(cfg, old(View()))
    {
      hide CloseAll, EmitEnd, Shut;
      if !terminated && !upstreamDone {
        LeaveStep();
        return;
      }
      StopBeat();
      if !terminated {
        EndTruncated();
      }
      CloseController();
      LeaveStep();
    }

    /** The loop test of the pump: wait for the adapter again, or leave. */
    method ContinueLoop()
      modifies this
      ensures View() == LoopHead(cfg, old(View()))
    {
      hide AfterLoop;
      if !terminated && !closed && emittedFrames == emittedAtStart {
        iteratorStarted := true;
      } else {
        LeaveLoop();
      }
    }

    /** The reader asks for more. */
    method PullArrives()
      modifies this
      ensures View() == Pull(cfg, old(View()))
    {
      hide LoopHead;
      if stepping || closed {
        return;
      }
      stepping := true;
      gated := false;
      emittedAtStart := emittedFrames;
      ContinueLoop();
    }

    method NoteArrival(now: int)
      modifies this`lastAdapterEventAt
      ensures View() == old(View()).(l := old(View()).l.(lastAt := now))
    {
      lastAdapterEventAt := now;
    }

    /** A compaction turn collects its text silently. */
    method AccumulateSummary(e: Event)
      modifies this`compactionText
      ensures View() == old(View()).(p := old(View()).p.(compaction :=
        if e.TextDelta? then old(View()).p.compaction + e.text else old(View()).p.compaction))
    {
      if e.TextDelta? {
        compactionText := compactionText + e.text;
      }
    }

    /** The awaited adapter event arrives. */
    method EventArrives(e: Event, now: int)
      modifies this
      ensures View() == Deliver(cfg, old(View()), e, now)
    {
      hide LoopHead, AfterLoop, Process, Terminated;
      if !stepping {
        return;
      }
      NoteArrival(now);
      if cfg.compaction && !Final(e) {
        AccumulateSummary(e);
        ContinueLoop();
        return;
      }
      Handle(e);
      if Final(e) {
        MarkTerminated();
        LeaveLoop();
      } else {
        ContinueLoop();
      }
    }

    method UpstreamEnds()
      modifies this
      ensures View() == UpstreamEnd(cfg, old(View()))
    {
      hide AfterLoop;
      if stepping {
        upstreamDone := true;
        LeaveLoop();
      }
    }

    method UpstreamThrows()
      modifies this
      ensures View() == UpstreamThrow(cfg, old(View()))
    {
      hide AfterLoop, FlushHiddenRaw, EmitEnd;
      if !stepping {
        return;
      }
      if !terminated {
        FlushHiddenRawReasoning();
        EmitTerminal(Failed, ProxyFailure, None);
        MarkTerminated();
      }
      LeaveLoop();
    }

    /** The heartbeat timer fires. */
    method TimerFires(now: int)
      modifies this
      ensures View() == Tick(cfg, old(View()), now)
    {
      hide CloseAll, EmitEnd, Shut;
      if !beat || closed || gated {
        return;
      }
      if now - lastAdapterEventAt >= cfg.stallMs {
        CloseEverything();
        EmitTerminal(Truncated, Reason("upstream_stall_timeout"), None);
        CloseController();
        MarkTerminated();
        StopBeat();
        return;
      }
      TryEnqueue(Sent(None, Heartbeat));
    }

    method MarkCancelled()
      modifies this`clientCancelled, this`closed
      ensures View() == old(View()).(w := old(View()).w.(closed := true), l := old(View()).l.(cancelled := true))
    {
      clientCancelled := true;
      closed := true;
    }

    method CallOnCancel()
      modifies this`cancels
      ensures View() == old(View()).(l := old(View()).l.(cancels := old(View()).l.cancels + 1))
    {
      cancels := cancels + 1;
    }

    /** The client disconnects. */
    method ClientCancels()
      modifies this
      ensures View() == Cancel(old(View()))
    {
      MarkCancelled();
      StopBeat();
      CallOnCancel();
      ReturnUpstream();
    }

    method TearDownArrives(room: nat)
      modifies this`room
      ensures View() == TearDown(old(View()), room)
    {
      if this.room.None? {
        this.room := Some(room);
      }
    }

    method Accept(x: Input)
      modifies this
      ensures View() == Next(cfg, old(View()), x)
    {
      hide Pull, Deliver, UpstreamEnd, UpstreamThrow, Tick, Cancel, TearDown;
      match x {
        case PullInput => PullArrives();
        case EventInput(e, at) => EventArrives(e, at);
        case EndInput => UpstreamEnds();
        case ThrowInput => UpstreamThrows();
        case TickInput(at) => TimerFires(at);
        case CancelInput => ClientCancels();
        case TearInput(room) => TearDownArrives(room);
      }
    }
  }

  /** The class run on any interleaving leaves on the wire what the state machine does. */
  method RunStream(cfg: Config, now: int, xs: seq<Input>) returns (s: Stream)
    ensures fresh(s) && s.cfg == cfg && s.View() == Run(cfg, now, xs)
  {
    s := new Stream(cfg, now);
    for n := 0 to |xs|
      invariant fresh(s) && s.cfg == cfg && s.View() == Run(cfg, now, xs[..n])
    {
      s.Accept(xs[n]);
      assert xs[..n + 1][..n] == xs[..n];
    }
    assert xs[..|xs|] == xs;
  }
}
