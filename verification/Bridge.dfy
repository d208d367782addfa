/**
 * The Responses stream bridge as a state machine: adapter events in, numbered wire frames out, while
 * a stall timer, a client cancel, an upstream throw, an upstream end and a torn-down controller race
 * with it. Every step here is one synchronous stretch of the bridge between two awaits.
 */
module Bridge {
  import opened Common
  import Freeform

  // ---- What the adapter sends ----

  datatype Phase = Commentary | FinalAnswer

  datatype StopReason = NoStop | MaxTokens | ContentFilter | OtherStop

  datatype Event =
    | HeartbeatEvent
    | TextDelta(text: Text, phase: Option<Phase>)
    | ThinkingDelta(thinking: Text)
    | ThinkingSignature(signature: Text)
    | RedactedThinking(data: Text)
    | RawDelta(raw: Text)
    | ToolStart(callId: string, name: string)
    | ToolDelta(arguments: Text)
    | ToolEnd
    | Boundary
    | Done(stop: StopReason, doneEndTurn: Option<bool>)
    | Incomplete(reason: string, endTurn: Option<bool>)
    | Error(message: string)

  predicate Final(e: Event) {
    e.Done? || e.Incomplete? || e.Error?
  }

  // ---- What goes on the wire ----

  /** A signed-reasoning envelope; an empty signature or text means the field is absent. */
  datatype Envelope = Envelope(sig: Text, red: seq<Text>, txt: Text)

  datatype Body =
    | Message(text: Text, phase: Option<Phase>)
    | Reasoning(summary: Option<Text>, encrypted: Option<Envelope>)
    | RawReasoning(text: Text)
    | FunctionCall(callId: string, name: string, arguments: Text, namespace: Option<string>, plaintext: bool)
    | CustomCall(callId: string, name: string, input: Text)
    | SearchCall(callId: string, object: Option<Text>)
    | Compaction(text: Text)

  datatype Item = Item(id: nat, body: Body)

  datatype Status = Completed | Failed | Truncated

  datatype Detail = NoDetail | Reason(reason: string) | AdapterFailure(message: string) | ProxyFailure

  datatype Terminal = Terminal(status: Status, output: seq<Item>, detail: Detail, endTurn: Option<bool>)

  datatype Frame =
    | Created
    | Heartbeat
    | Added(index: nat, item: Item)
    | PartAdded(index: nat, id: nat)
    | Delta(index: nat, id: nat, delta: Text)
    | ValueDone(index: nat, id: nat, value: Text)
    | PartDone(index: nat, id: nat, value: Text)
    | ItemDone(index: nat, item: Item)
    | End(terminal: Terminal)
    | DoneMark

  /** A frame as it left; heartbeats and the closing marker carry no sequence number. */
  datatype Sent = Sent(number: Option<nat>, frame: Frame)

  // ---- Configuration of one stream ----

  datatype Tools = Tools(
    namespaces: map<string, (string, string)>,
    freeform: set<string>,
    search: set<string>,
    unwrap: Text -> Text,
    parseObject: Text -> Option<Text>)

  datatype Config = Config(tools: Tools, hide: bool, compaction: bool, stallMs: nat)

  const EMPTY_OBJECT: Text := [0x7B, 0x7D]

  function ToolName(tools: Tools, name: string): string {
    if name in tools.namespaces then tools.namespaces[name].1 else name
  }

  function ToolNamespace(tools: Tools, name: string): Option<string> {
    if name in tools.namespaces then Some(tools.namespaces[name].0) else None
  }

  predicate IsSearch(tools: Tools, realName: string) {
    realName in tools.search
  }

  predicate IsFreeform(tools: Tools, realName: string) {
    !IsSearch(tools, realName) && realName in tools.freeform
  }

  predicate PlaintextCollaboration(namespace: Option<string>, name: string) {
    namespace == Some("collaboration") && name in {"spawn_agent", "send_message", "followup_task"}
  }

  function FunctionBody(callId: string, name: string, arguments: Text, namespace: Option<string>): Body {
    FunctionCall(callId, name, arguments, if namespace == Some("") then None else namespace,
                 PlaintextCollaboration(namespace, name))
  }

  function ArgumentsOrEmpty(args: Text): Text {
    if args == [] then EMPTY_OBJECT else args
  }

  /** The finished tool item for a call with these arguments. */
  function CallBody(tools: Tools, callId: string, realName: string, namespace: Option<string>, args: Text): Body {
    if IsSearch(tools, realName) then SearchCall(callId, tools.parseObject(args))
    else if IsFreeform(tools, realName) then CustomCall(callId, realName, tools.unwrap(args))
    else FunctionBody(callId, realName, ArgumentsOrEmpty(args), namespace)
  }

  /** The same item as announced when the call starts. */
  function CallStarted(tools: Tools, callId: string, realName: string, namespace: Option<string>): Body {
    if IsSearch(tools, realName) then SearchCall(callId, None)
    else if IsFreeform(tools, realName) then CustomCall(callId, realName, [])
    else FunctionBody(callId, realName, [], namespace)
  }

  // ---- State ----

  /** The controller side: `room` counts the enqueues that will still succeed, if it was torn down. */
  datatype Wire = Wire(closed: bool, room: Option<nat>, emitted: nat, nextNumber: nat, frames: seq<Sent>)

  datatype OpenText = OpenText(id: nat, index: nat, text: Text, phase: Option<Phase>)

  datatype OpenTool = OpenTool(
    id: nat, index: nat, callId: string, name: string, args: Text, namespace: Option<string>, inputEmitted: Text)

  datatype Items = Items(
    outputIndex: nat,
    nextId: nat,
    finished: seq<Item>,
    message: Option<OpenText>,
    reasoning: Option<OpenText>,
    raw: Option<OpenText>,
    tool: Option<OpenTool>)

  /** Signed and hidden reasoning that waits to be attached to an item. */
  datatype Pending = Pending(sig: Text, red: seq<Text>, hiddenThinking: Text, hiddenRaw: Text, compaction: Text)

  datatype Life = Life(
    cancelled: bool,
    reported: Option<Status>,
    beat: bool,
    gated: bool,
    stepping: bool,
    terminated: bool,
    upstreamDone: bool,
    iteratorStarted: bool,
    iteratorReturned: bool,
    emittedAtStart: nat,
    lastAt: int,
    cancels: nat)

  datatype State = State(w: Wire, i: Items, p: Pending, l: Life)

  // ---- Emission ----

  function Enqueue(w: Wire, sent: Sent): Wire {
    if w.closed then w
    else if w.room == Some(0) then w.(closed := true)
    else w.(frames := w.frames + [sent], emitted := w.emitted + 1,
            room := if w.room.Some? then Some(w.room.value - 1) else None)
  }

  /** A numbered frame: the number is used up even when the enqueue throws. */
  function Emit(w: Wire, frame: Frame): Wire {
    if w.closed then w else Enqueue(w, Sent(Some(w.nextNumber), frame)).(nextNumber := w.nextNumber + 1)
  }

  function EmitPlain(w: Wire, frame: Frame): Wire {
    Enqueue(w, Sent(None, frame))
  }

  function Report(s: State, status: Status): State {
    if s.l.reported.Some? || s.l.cancelled || s.w.closed then s else s.(l := s.l.(reported := Some(status)))
  }

  // ---- Items ----

  /** Announce an item under the current output index and take a fresh id for it. */
  function Announce(s: State, body: Body): State {
    s.(w := Emit(s.w, Added(s.i.outputIndex, Item(s.i.nextId, body))), i := s.i.(nextId := s.i.nextId + 1))
  }

  function Complete(s: State, index: nat, item: Item): State {
    s.(w := Emit(s.w, ItemDone(index, item)),
       i := s.i.(finished := s.i.finished + [item], outputIndex := s.i.outputIndex + 1))
  }

  function TakeEnvelope(p: Pending, txt: Text): (Option<Envelope>, Pending) {
    if p.sig == [] && p.red == [] then (None, p)
    else (Some(Envelope(p.sig, p.red, txt)), p.(sig := [], red := []))
  }

  function EnvelopeItem(s: State, envelope: Envelope): State {
    var item := Item(s.i.nextId, Reasoning(None, Some(envelope)));
    Complete(Announce(s, item.body), s.i.outputIndex, item)
  }

  function FlushHiddenEnvelope(s: State): State {
    var (encrypted, p) := TakeEnvelope(s.p, s.p.hiddenThinking);
    var s1 := s.(p := p.(hiddenThinking := []));
    if encrypted.None? then s1 else EnvelopeItem(s1, encrypted.value)
  }

  function FlushHiddenRaw(s: State): State {
    if s.p.hiddenRaw == [] then s
    else EnvelopeItem(s.(p := s.p.(hiddenRaw := [])), Envelope([], [], s.p.hiddenRaw))
  }

  function CloseMessage(s: State): State {
    match s.i.message
    case None => s
    case Some(m) =>
      var w1 := Emit(s.w, ValueDone(m.index, m.id, m.text));
      var w2 := Emit(w1, PartDone(m.index, m.id, m.text));
      Complete(s.(w := w2, i := s.i.(message := None)), m.index, Item(m.id, Message(m.text, m.phase)))
  }

  function CloseReasoning(s: State): State {
    match s.i.reasoning
    case None => s
    case Some(r) =>
      var w1 := Emit(s.w, ValueDone(r.index, r.id, r.text));
      var w2 := Emit(w1, PartDone(r.index, r.id, r.text));
      var (encrypted, p) := TakeEnvelope(s.p, []);
      Complete(s.(w := w2, i := s.i.(reasoning := None), p := p), r.index,
          Item(r.id, Reasoning(Some(r.text), encrypted)))
  }

  function CloseRaw(s: State): State {
    match s.i.raw
    case None => s
    case Some(r) => Complete(s.(i := s.i.(raw := None)), r.index, Item(r.id, RawReasoning(r.text)))
  }

  function CloseTool(cfg: Config, s: State): State {
    match s.i.tool
    case None => s
    case Some(t) =>
      var w1 :=
        if IsSearch(cfg.tools, t.name) then s.w
        else Emit(s.w, ValueDone(t.index, t.id,
          if IsFreeform(cfg.tools, t.name) then cfg.tools.unwrap(t.args) else ArgumentsOrEmpty(t.args)));
      Complete(s.(w := w1, i := s.i.(tool := None)), t.index,
               Item(t.id, CallBody(cfg.tools, t.callId, t.name, t.namespace, t.args)))
  }

  /** Close whatever is open, in the order every terminal uses. */
  function CloseAll(cfg: Config, s: State): State {
    CloseTool(cfg, FlushHiddenRaw(CloseRaw(CloseReasoning(CloseMessage(s)))))
  }

  function OpenMessage(s: State, phase: Option<Phase>): State {
    var s1 := Announce(s, Message([], phase));
    s1.(w := Emit(s1.w, PartAdded(s.i.outputIndex, s.i.nextId)),
        i := s1.i.(message := Some(OpenText(s.i.nextId, s.i.outputIndex, [], phase))))
  }

  function AppendMessage(s: State, text: Text): State
    requires s.i.message.Some?
  {
    var m := s.i.message.value;
    s.(w := Emit(s.w, Delta(m.index, m.id, text)), i := s.i.(message := Some(m.(text := m.text + text))))
  }

  function OnText(cfg: Config, s: State, text: Text, phase: Option<Phase>): State {
    var s1 := CloseTool(cfg, FlushHiddenRaw(CloseRaw(CloseReasoning(s))));
    var s2 := if s1.i.message.Some? && s1.i.message.value.phase != phase then CloseMessage(s1) else s1;
    var s3 := if s2.i.message.None? then OpenMessage(s2, phase) else s2;
    AppendMessage(s3, text)
  }

  function OpenReasoning(s: State): State {
    var s1 := Announce(s, Reasoning(Some([]), None));
    s1.(w := Emit(s1.w, PartAdded(s.i.outputIndex, s.i.nextId)),
        i := s1.i.(reasoning := Some(OpenText(s.i.nextId, s.i.outputIndex, [], None))))
  }

  function AppendReasoning(s: State, text: Text): State
    requires s.i.reasoning.Some?
  {
    var r := s.i.reasoning.value;
    s.(w := Emit(s.w, Delta(r.index, r.id, text)), i := s.i.(reasoning := Some(r.(text := r.text + text))))
  }

  function OnThinking(cfg: Config, s: State, text: Text): State {
    if cfg.hide then s.(p := s.p.(hiddenThinking := s.p.hiddenThinking + text))
    else
      var s1 := CloseTool(cfg, FlushHiddenRaw(CloseRaw(CloseMessage(s))));
      AppendReasoning(if s1.i.reasoning.None? then OpenReasoning(s1) else s1, text)
  }

  function OnSignature(s: State, signature: Text): State {
    var s1 := s.(p := s.p.(sig := signature));
    if s1.i.reasoning.None? then FlushHiddenEnvelope(s1) else s1
  }

  function OpenRaw(s: State): State {
    var s1 := Announce(s, RawReasoning([]));
    s1.(i := s1.i.(raw := Some(OpenText(s.i.nextId, s.i.outputIndex, [], None))))
  }

  function AppendRaw(s: State, text: Text): State
    requires s.i.raw.Some?
  {
    var r := s.i.raw.value;
    s.(w := Emit(s.w, Delta(r.index, r.id, text)), i := s.i.(raw := Some(r.(text := r.text + text))))
  }

  function OnRaw(cfg: Config, s: State, text: Text): State {
    if cfg.hide then s.(p := s.p.(hiddenRaw := s.p.hiddenRaw + text))
    else
      var s1 := CloseTool(cfg, CloseReasoning(CloseMessage(s)));
      AppendRaw(if s1.i.raw.None? then OpenRaw(s1) else s1, text)
  }

  function OnToolStart(cfg: Config, s: State, callId: string, name: string): State {
    var s1 := CloseAll(cfg, s);
    var realName, ns := ToolName(cfg.tools, name), ToolNamespace(cfg.tools, name);
    var s2 := Announce(s1, CallStarted(cfg.tools, callId, realName, ns));
    s2.(i := s2.i.(tool := Some(OpenTool(s1.i.nextId, s1.i.outputIndex, callId, realName, [], ns, []))))
  }

  function OnToolDelta(cfg: Config, s: State, arguments: Text): State {
    match s.i.tool
    case None => s
    case Some(t) =>
      var args := t.args + arguments;
      if IsSearch(cfg.tools, t.name) then s.(i := s.i.(tool := Some(t.(args := args))))
      else if !IsFreeform(cfg.tools, t.name) then
        s.(w := Emit(s.w, Delta(t.index, t.id, arguments)), i := s.i.(tool := Some(t.(args := args))))
      else
        var delta := Freeform.NextDelta(t.inputEmitted, args);
        s.(w := if delta.Some? then Emit(s.w, Delta(t.index, t.id, delta.value)) else s.w,
           i := s.i.(tool := Some(t.(args := args, inputEmitted := Freeform.AfterDelta(t.inputEmitted, args)))))
  }

  // ---- Terminals ----

  function EmitEnd(s: State, status: Status, detail: Detail, endTurn: Option<bool>): State {
    Report(s.(w := Emit(s.w, End(Terminal(status, s.i.finished, detail, endTurn)))), status)
  }

  function CompactionItem(s: State): State {
    var item := Item(s.i.nextId, Compaction(s.p.compaction));
    Complete(s.(i := s.i.(nextId := s.i.nextId + 1)), s.i.outputIndex, item)
  }

  function OnDone(cfg: Config, s: State, stop: StopReason, endTurn: Option<bool>): State {
    var s1 := FlushHiddenEnvelope(CloseAll(cfg, s));
    var s2 := if cfg.compaction then CompactionItem(s1) else s1;
    match stop
    case MaxTokens => EmitEnd(s2, Truncated, Reason("max_output_tokens"), endTurn)
    case ContentFilter => EmitEnd(s2, Truncated, Reason("content_filter"), endTurn)
    case _ => EmitEnd(s2, Completed, NoDetail, endTurn)
  }

  function OnIncomplete(cfg: Config, s: State, reason: string, endTurn: Option<bool>): State {
    EmitEnd(FlushHiddenEnvelope(CloseAll(cfg, s)), Truncated, Reason(reason), endTurn)
  }

  function OnError(cfg: Config, s: State, message: string): State {
    EmitEnd(CloseAll(cfg, s), Failed, AdapterFailure(message), None)
  }

  /** One adapter event, as the switch treats it. */
  function Process(cfg: Config, s: State, e: Event): State {
    match e
    case HeartbeatEvent => s
    case Boundary => FlushHiddenEnvelope(CloseAll(cfg, s))
    case TextDelta(text, phase) => OnText(cfg, s, text, phase)
    case ThinkingDelta(text) => OnThinking(cfg, s, text)
    case ThinkingSignature(signature) => OnSignature(s, signature)
    case RedactedThinking(data) => s.(p := s.p.(red := s.p.red + [data]))
    case RawDelta(text) => OnRaw(cfg, s, text)
    case ToolStart(callId, name) => OnToolStart(cfg, s, callId, name)
    case ToolDelta(arguments) => OnToolDelta(cfg, s, arguments)
    case ToolEnd => CloseTool(cfg, s)
    case Done(stop, endTurn) => OnDone(cfg, s, stop, endTurn)
    case Incomplete(reason, endTurn) => OnIncomplete(cfg, s, reason, endTurn)
    case Error(message) => OnError(cfg, s, message)
  }

  // ---- Steps ----

  function Shut(s: State): State {
    s.(w := EmitPlain(s.w, DoneMark).(closed := true))
  }

  /** The end of a pump step: either wait for the next pull or finish the stream. */
  function AfterLoop(cfg: Config, s: State): State {
    if !s.l.terminated && !s.l.upstreamDone then s.(l := s.l.(gated := true, stepping := false))
    else
      var s1 := s.(l := s.l.(beat := false));
      var s2 :=
        if s1.l.terminated then s1
        else
          var ended := EmitEnd(CloseAll(cfg, s1), Truncated, Reason("adapter_eof"), None);
          ended.(l := ended.l.(terminated := true));
      var s3 := Shut(s2);
      s3.(l := s3.l.(gated := true, stepping := false))
  }

  /** The loop test: ask the adapter for another event unless something was emitted. */
  function LoopHead(cfg: Config, s: State): State {
    if !s.l.terminated && !s.w.closed && s.w.emitted == s.l.emittedAtStart
    then s.(l := s.l.(iteratorStarted := true))
    else AfterLoop(cfg, s)
  }

  function Pull(cfg: Config, s: State): State {
    if s.l.stepping || s.w.closed then s
    else LoopHead(cfg, s.(l := s.l.(stepping := true, gated := false, emittedAtStart := s.w.emitted)))
  }

  function ReturnIterator(l: Life): Life {
    l.(iteratorStarted := true, iteratorReturned := true)
  }

  /** After a terminal: the caller is told, and the upstream iterator is returned. */
  function Terminated(s: State): State {
    s.(l := ReturnIterator(s.l.(cancels := s.l.cancels + 1, terminated := true)))
  }

  /** The awaited adapter event arrives. */
  function Deliver(cfg: Config, s: State, e: Event, now: int): State {
    if !s.l.stepping then s
    else
      var s0 := s.(l := s.l.(lastAt := now));
      if cfg.compaction && e.TextDelta? then LoopHead(cfg, s0.(p := s0.p.(compaction := s0.p.compaction + e.text)))
      else if cfg.compaction && !Final(e) then LoopHead(cfg, s0)
      else
        var s1 := Process(cfg, s0, e);
        if Final(e)
        then AfterLoop(cfg, Terminated(s1))
        else LoopHead(cfg, s1)
  }

  function UpstreamEnd(cfg: Config, s: State): State {
    if !s.l.stepping then s else AfterLoop(cfg, s.(l := s.l.(upstreamDone := true)))
  }

  function UpstreamThrow(cfg: Config, s: State): State {
    if !s.l.stepping then s
    else if s.l.terminated then AfterLoop(cfg, s)
    else
      var s1 := EmitEnd(FlushHiddenRaw(s), Failed, ProxyFailure, None);
      AfterLoop(cfg, Terminated(s1))
  }

  function Tick(cfg: Config, s: State, now: int): State {
    if !s.l.beat || s.w.closed || s.l.gated then s
    else if now - s.l.lastAt >= cfg.stallMs then
      var s1 := EmitEnd(CloseAll(cfg, s), Truncated, Reason("upstream_stall_timeout"), None);
      var s2 := Shut(s1);
      s2.(l := ReturnIterator(s2.l.(cancels := s2.l.cancels + 1, terminated := true, beat := false)))
    else s.(w := EmitPlain(s.w, Heartbeat))
  }

  function Cancel(s: State): State {
    s.(w := s.w.(closed := true),
       l := ReturnIterator(s.l.(cancelled := true, beat := false, cancels := s.l.cancels + 1)))
  }

  /** The controller dies: `room` more enqueues succeed, then they throw. */
  function TearDown(s: State, room: nat): State {
    if s.w.room.Some? then s else s.(w := s.w.(room := Some(room)))
  }

  datatype Input =
    | PullInput
    | EventInput(event: Event, at: int)
    | EndInput
    | ThrowInput
    | TickInput(at: int)
    | CancelInput
    | TearInput(room: nat)

  function Next(cfg: Config, s: State, x: Input): State {
    match x
    case PullInput => Pull(cfg, s)
    case EventInput(e, at) => Deliver(cfg, s, e, at)
    case EndInput => UpstreamEnd(cfg, s)
    case ThrowInput => UpstreamThrow(cfg, s)
    case TickInput(at) => Tick(cfg, s, at)
    case CancelInput => Cancel(s)
    case TearInput(room) => TearDown(s, room)
  }

  /** The state once the stream has started: the created frame is on the wire. */
  function Start(now: int): State {
    State(
      Emit(Wire(false, None, 0, 0, []), Created),
      Items(0, 0, [], None, None, None, None),
      Pending([], [], [], [], []),
      Life(false, None, true, true, false, false, false, false, false, 0, now, 0))
  }

  /** Any interleaving of inputs; an input that cannot happen in a state leaves it unchanged. */
  function Run(cfg: Config, now: int, xs: seq<Input>): State {
    if xs == [] then Start(now) else Next(cfg, Run(cfg, now, xs[..|xs| - 1]), xs[|xs| - 1])
  }
}
