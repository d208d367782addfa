/**
 * A strict reader of the item frames. It accepts a wire only if items come one at a time, under
 * consecutive output indices, each announced once and completed once under the same id, with every
 * completed value equal to what the deltas added up to, and a terminal that lists exactly the items
 * completed before it.
 */
module BridgeItems {
  import opened Common
  import opened Bridge
  import opened BridgeOrder
  import Freeform

  datatype Part = NoPart | PartOpen | PartClosed

  datatype Open = Open(item: Item, text: Text, part: Part, value: Option<Text>)

  datatype Reader = Reader(done: seq<Item>, open: Option<Open>)

  predicate HasPart(b: Body) {
    b.Message? || (b.Reasoning? && b.summary.Some?)
  }

  /** May this item close what was announced, given the deltas and the final value in between? */
  ghost predicate Finishes(cfg: Config, o: Open, item: Item) {
    && item.id == o.item.id
    && match o.item.body {
      case Message(_, phase) => item.body == Message(o.text, phase) && o.part == PartClosed && o.value == Some(o.text)
      case Reasoning(Some(_), _) =>
        item.body.Reasoning? && item.body.summary == Some(o.text) && o.part == PartClosed && o.value == Some(o.text)
      case Reasoning(None, _) => item.body == o.item.body && o.text == [] && o.value == None
      case RawReasoning(_) => item.body == RawReasoning(o.text) && o.value == None
      case FunctionCall(callId, name, _, ns, plaintext) =>
        item.body == FunctionCall(callId, name, if o.text == [] then [0x7B, 0x7D] else o.text, ns, plaintext)
            && o.value == Some(item.body.arguments)
      case CustomCall(callId, name, _) =>
        && item.body.CustomCall? && item.body.callId == callId && item.body.name == name
             && o.value == Some(item.body.input)
        && exists args: Text :: o.text == Freeform.Preview(args) && item.body.input == cfg.tools.unwrap(args)
      case SearchCall(callId, _) => item.body.SearchCall? && item.body.callId == callId && o.text == []
          && o.value == None
      case Compaction(_) => false
    }
  }

  /** An item is announced without the contents its deltas will bring; an envelope comes with the announcement. */
  predicate Announced(b: Body) {
    match b
    case Message(text, _) => text == []
    case Reasoning(summary, encrypted) =>
      (summary == Some([]) && encrypted.None?) || (summary.None? && encrypted.Some?)
    case RawReasoning(text) => text == []
    case FunctionCall(_, _, arguments, _, _) => arguments == []
    case CustomCall(_, _, input) => input == []
    case SearchCall(_, found) => found.None?
    case Compaction(_) => false
  }

  predicate Current(r: Reader, index: nat, id: nat) {
    r.open.Some? && r.open.value.item.id == id && index == |r.done|
  }

  ghost function Read(cfg: Config, r: Reader, f: Frame): Option<Reader> {
    match f
    case Created => Some(r)
    case Heartbeat => Some(r)
    case DoneMark => Some(r)
    case Added(index, item) =>
      if r.open.None? && index == |r.done| && Announced(item.body)
      then Some(r.(open := Some(Open(item, [], NoPart, None)))) else None
    case PartAdded(index, id) =>
      if Current(r, index, id) && HasPart(r.open.value.item.body) && r.open.value.part == NoPart
      then Some(r.(open := Some(r.open.value.(part := PartOpen)))) else None
    case Delta(index, id, delta) =>
      if Current(r, index, id) && r.open.value.value.None?
          && (HasPart(r.open.value.item.body) ==> r.open.value.part == PartOpen)
      then Some(r.(open := Some(r.open.value.(text := r.open.value.text + delta)))) else None
    case ValueDone(index, id, value) =>
      if Current(r, index, id) && r.open.value.value.None?
      then Some(r.(open := Some(r.open.value.(value := Some(value))))) else None
    case PartDone(index, id, value) =>
      if Current(r, index, id) && r.open.value.part == PartOpen && r.open.value.value == Some(value)
      then Some(r.(open := Some(r.open.value.(part := PartClosed)))) else None
    case ItemDone(index, item) =>
      if Current(r, index, item.id) && Finishes(cfg, r.open.value, item)
      then Some(Reader(r.done + [item], None)) else None
    case End(t) =>
      if t.output == r.done && (r.open.None? || t.detail == ProxyFailure) then Some(r) else None
  }

  ghost function ReadAll(cfg: Config, frames: seq<Sent>): Option<Reader> {
    if frames == [] then Some(Reader([], None))
    else
      var before := ReadAll(cfg, frames[..|frames| - 1]);
      if before.None? then None else Read(cfg, before.value, frames[|frames| - 1].frame)
  }

  /** The reader has accepted everything, and while the wire is open it is in state `r`. */
  ghost predicate Reads(cfg: Config, w: Wire, r: Reader) {
    && ReadAll(cfg, w.frames).Some?
    && (!w.closed ==> ReadAll(cfg, w.frames).value == r)
  }

  lemma {:induction false} ReadSnoc(cfg: Config, frames: seq<Sent>, sent: Sent)
    ensures ReadAll(cfg, frames + [sent]) ==
      if ReadAll(cfg, frames).None? then None else Read(cfg, ReadAll(cfg, frames).value, sent.frame)
  {
    assert (frames + [sent])[..|frames|] == frames;
  }

  lemma {:induction false} EmitReads(cfg: Config, w: Wire, f: Frame, r: Reader, r': Reader)
    requires Reads(cfg, w, r) && Read(cfg, r, f) == Some(r')
    ensures Reads(cfg, Emit(w, f), r') && Reads(cfg, EmitPlain(w, f), r')
  {
    ReadSnoc(cfg, w.frames, Sent(Some(w.nextNumber), f));
    ReadSnoc(cfg, w.frames, Sent(None, f));
  }

  // ---- The bridge's open item as the reader sees it ----

  function ToolText(cfg: Config, t: OpenTool): Text {
    if IsSearch(cfg.tools, t.name) then [] else if IsFreeform(cfg.tools, t.name) then t.inputEmitted else t.args
  }

  function MessageShown(m: OpenText): Open {
    Open(Item(m.id, Message([], m.phase)), m.text, PartOpen, None)
  }

  function ReasoningShown(r: OpenText): Open {
    Open(Item(r.id, Reasoning(Some([]), None)), r.text, PartOpen, None)
  }

  function RawShown(r: OpenText): Open {
    Open(Item(r.id, RawReasoning([])), r.text, NoPart, None)
  }

  function ToolShown(cfg: Config, t: OpenTool): Open {
    Open(Item(t.id, CallStarted(cfg.tools, t.callId, t.name, t.namespace)), ToolText(cfg, t), NoPart, None)
  }

  function Shown(cfg: Config, i: Items): Option<Open> {
    if i.message.Some? then Some(MessageShown(i.message.value))
    else if i.reasoning.Some? then Some(ReasoningShown(i.reasoning.value))
    else if i.raw.Some? then Some(RawShown(i.raw.value))
    else if i.tool.Some? then Some(ToolShown(cfg, i.tool.value))
    else None
  }

  predicate NothingOpen(i: Items) {
    i.message.None? && i.reasoning.None? && i.raw.None? && i.tool.None?
  }

  /** At most one item is open, and it stands at the index of the next item to finish. */
  predicate OneOpen(cfg: Config, i: Items) {
    && i.outputIndex == |i.finished|
    && (i.message.Some? ==> i.reasoning.None? && i.raw.None? && i.tool.None? && i.message.value.index == |i.finished|)
    && (i.reasoning.Some? ==> i.raw.None? && i.tool.None? && i.reasoning.value.index == |i.finished|)
    && (i.raw.Some? ==> i.tool.None? && i.raw.value.index == |i.finished|)
    && (i.tool.Some? ==> i.tool.value.index == |i.finished|)
    && (i.tool.Some? && IsFreeform(cfg.tools, i.tool.value.name) ==>
          i.tool.value.inputEmitted == Freeform.Preview(i.tool.value.args))
  }

  /** Reasoning is either hidden or shown. */
  predicate HiddenKept(cfg: Config, s: State) {
    if cfg.hide then s.i.reasoning.None? && s.i.raw.None? else s.p.hiddenRaw == [] && s.p.hiddenThinking == []
  }

  ghost predicate ItemsInv(cfg: Config, s: State) {
    && OneOpen(cfg, s.i)
    && HiddenKept(cfg, s)
    && Reads(cfg, s.w, Reader(s.i.finished, Shown(cfg, s.i)))
  }

  /** A signature is harmless where the bridge attaches it to the open reasoning item or nothing is open. */
  predicate SignatureFits(s: State, signature: Text) {
    s.i.reasoning.Some? || NothingOpen(s.i) || (signature == [] && s.p.red == [])
  }

  // ---- Closing ----

  lemma {:induction false} CompleteReads(cfg: Config, s: State, o: Open, item: Item)
    requires OneOpen(cfg, s.i) && NothingOpen(s.i) && HiddenKept(cfg, s)
    requires Reads(cfg, s.w, Reader(s.i.finished, Some(o))) && Finishes(cfg, o, item)
    ensures var s' := Complete(s, |s.i.finished|, item);
      ItemsInv(cfg, s') && NothingOpen(s'.i) && s'.p == s.p
  {
    EmitReads(cfg, s.w, ItemDone(|s.i.finished|, item), Reader(s.i.finished, Some(o)),
        Reader(s.i.finished + [item], None));
  }

  /** The two frames that finalise a text part. */
  lemma {:induction false} ClosingTextReads(cfg: Config, w: Wire, done: seq<Item>, o: Open, t: OpenText)
    requires Reads(cfg, w, Reader(done, Some(o)))
    requires o.part == PartOpen && o.value == None && t.index == |done| && t.id == o.item.id
    ensures Reads(cfg, Emit(Emit(w, ValueDone(t.index, t.id, t.text)), PartDone(t.index, t.id, t.text)),
                  Reader(done, Some(o.(value := Some(t.text), part := PartClosed))))
  {
    var o1 := o.(value := Some(t.text));
    EmitReads(cfg, w, ValueDone(t.index, t.id, t.text), Reader(done, Some(o)), Reader(done, Some(o1)));
    EmitReads(cfg, Emit(w, ValueDone(t.index, t.id, t.text)), PartDone(t.index, t.id, t.text),
        Reader(done, Some(o1)), Reader(done, Some(o1.(part := PartClosed))));
  }

  /** What every closing step leaves behind. */
  ghost predicate Closes(cfg: Config, s: State, s': State) {
    && ItemsInv(cfg, s')
    && (s.i.message.None? ==> s'.i.message.None?)
    && (s.i.reasoning.None? ==> s'.i.reasoning.None?)
    && (s.i.raw.None? ==> s'.i.raw.None?)
    && (s.i.tool.None? ==> s'.i.tool.None?)
  }

  lemma {:induction false} CloseMessageReads(cfg: Config, s: State)
    requires ItemsInv(cfg, s)
    ensures Closes(cfg, s, CloseMessage(s)) && CloseMessage(s).i.message.None?
    ensures s.i.message.None? ==> CloseMessage(s) == s
  {
    if s.i.message.Some? {
      var m := s.i.message.value;
      var o := MessageShown(m);
      ClosingTextReads(cfg, s.w, s.i.finished, o, m);
      var w2 := Emit(Emit(s.w, ValueDone(m.index, m.id, m.text)), PartDone(m.index, m.id, m.text));
      CompleteReads(cfg, s.(w := w2, i := s.i.(message := None)), o.(value := Some(m.text), part := PartClosed),
          Item(m.id, Message(m.text, m.phase)));
    }
  }

  lemma {:induction false} CloseReasoningReads(cfg: Config, s: State)
    requires ItemsInv(cfg, s)
    ensures Closes(cfg, s, CloseReasoning(s)) && CloseReasoning(s).i.reasoning.None?
    ensures s.i.reasoning.None? ==> CloseReasoning(s) == s
  {
    if s.i.reasoning.Some? {
      var r := s.i.reasoning.value;
      var o := ReasoningShown(r);
      ClosingTextReads(cfg, s.w, s.i.finished, o, r);
      var w2 := Emit(Emit(s.w, ValueDone(r.index, r.id, r.text)), PartDone(r.index, r.id, r.text));
      var (encrypted, p) := TakeEnvelope(s.p, []);
      CompleteReads(cfg, s.(w := w2, i := s.i.(reasoning := None), p := p),
          o.(value := Some(r.text), part := PartClosed),
          Item(r.id, Reasoning(Some(r.text), encrypted)));
    }
  }

  lemma {:induction false} CloseRawReads(cfg: Config, s: State)
    requires ItemsInv(cfg, s)
    ensures Closes(cfg, s, CloseRaw(s)) && CloseRaw(s).i.raw.None?
    ensures s.i.raw.None? ==> CloseRaw(s) == s
  {
    if s.i.raw.Some? {
      var r := s.i.raw.value;
      CompleteReads(cfg, s.(i := s.i.(raw := None)), RawShown(r), Item(r.id, RawReasoning(r.text)));
    }
  }

  lemma {:induction false} CloseToolReads(cfg: Config, s: State)
    requires ItemsInv(cfg, s)
    ensures Closes(cfg, s, CloseTool(cfg, s)) && CloseTool(cfg, s).i.tool.None?
    ensures s.i.tool.None? ==> CloseTool(cfg, s) == s
  {
    if s.i.tool.Some? {
      var t := s.i.tool.value;
      var o := ToolShown(cfg, t);
      var s0 := s.(i := s.i.(tool := None));
      var body := CallBody(cfg.tools, t.callId, t.name, t.namespace, t.args);
      if IsSearch(cfg.tools, t.name) {
        CompleteReads(cfg, s0, o, Item(t.id, body));
      } else {
        var value := if IsFreeform(cfg.tools, t.name) then cfg.tools.unwrap(t.args) else ArgumentsOrEmpty(t.args);
        EmitReads(cfg, s.w, ValueDone(t.index, t.id, value),
            Reader(s.i.finished, Some(o)), Reader(s.i.finished, Some(o.(value := Some(value)))));
        CompleteReads(cfg, s0.(w := Emit(s.w, ValueDone(t.index, t.id, value))), o.(value := Some(value)),
            Item(t.id, body));
      }
    }
  }

  lemma {:induction false} FlushHiddenRawIsIdle(s: State)
    requires s.p.hiddenRaw == []
    ensures FlushHiddenRaw(s) == s
  {
  }

  /** Hidden raw reasoning becomes an item of its own: harmless when nothing is open. */
  lemma {:induction false} FlushHiddenRawReads(cfg: Config, s: State)
    requires ItemsInv(cfg, s) && (s.p.hiddenRaw == [] || NothingOpen(s.i))
    ensures Closes(cfg, s, FlushHiddenRaw(s)) && FlushHiddenRaw(s).p.hiddenRaw == []
    ensures s.p.hiddenRaw == [] ==> FlushHiddenRaw(s) == s
    ensures NothingOpen(s.i) ==> NothingOpen(FlushHiddenRaw(s).i)
  {
    if s.p.hiddenRaw != [] {
      var item := Item(s.i.nextId, Reasoning(None, Some(Envelope([], [], s.p.hiddenRaw))));
      var o := Open(item, [], NoPart, None);
      EmitReads(cfg, s.w, Added(s.i.outputIndex, item), Reader(s.i.finished, None), Reader(s.i.finished, Some(o)));
      CompleteReads(cfg, Announce(s.(p := s.p.(hiddenRaw := [])), item.body), o, item);
    }
  }

  /** No hidden raw reasoning is waiting, or closing everything flushes it with nothing open. */
  predicate ClosingFits(s: State) {
    s.p.hiddenRaw == [] || s.i.tool.None?
  }

  lemma {:induction false} CloseAllReads(cfg: Config, s: State)
    requires ItemsInv(cfg, s) && ClosingFits(s)
    ensures ItemsInv(cfg, CloseAll(cfg, s)) && NothingOpen(CloseAll(cfg, s).i)
  {
    hide CloseMessage, CloseReasoning, CloseRaw, CloseTool, FlushHiddenRaw, Reads, OneOpen;
    var s1 := CloseMessage(s);
    var s2 := CloseReasoning(s1);
    var s3 := CloseRaw(s2);
    CloseMessageReads(cfg, s);
    CloseReasoningReads(cfg, s1);
    CloseRawReads(cfg, s2);
    ClosingKeepsHidden(cfg, s);
    FlushHiddenRawReads(cfg, s3);
    CloseToolReads(cfg, FlushHiddenRaw(s3));
  }

  lemma {:induction false} ClosingKeepsHidden(cfg: Config, s: State)
    ensures CloseMessage(s).p.hiddenRaw == s.p.hiddenRaw && CloseReasoning(s).p.hiddenRaw == s.p.hiddenRaw
    ensures CloseRaw(s).p.hiddenRaw == s.p.hiddenRaw && CloseTool(cfg, s).p.hiddenRaw == s.p.hiddenRaw
    ensures CloseRaw(CloseReasoning(s)).p.hiddenRaw == s.p.hiddenRaw
    ensures CloseRaw(CloseReasoning(CloseMessage(s))).p.hiddenRaw == s.p.hiddenRaw
  {
  }

  /** With nothing open an envelope-only item is announced and completed on the spot. */
  lemma {:induction false} FlushHiddenEnvelopeReads(cfg: Config, s: State)
    requires ItemsInv(cfg, s) && (NothingOpen(s.i) || (s.p.sig == [] && s.p.red == []))
    ensures ItemsInv(cfg, FlushHiddenEnvelope(s))
    ensures NothingOpen(s.i) ==> NothingOpen(FlushHiddenEnvelope(s).i)
  {
    var (encrypted, p) := TakeEnvelope(s.p, s.p.hiddenThinking);
    if encrypted.Some? {
      var item := Item(s.i.nextId, Reasoning(None, Some(encrypted.value)));
      var o := Open(item, [], NoPart, None);
      EmitReads(cfg, s.w, Added(s.i.outputIndex, item), Reader(s.i.finished, None), Reader(s.i.finished, Some(o)));
      var s1 := Announce(s.(p := p.(hiddenThinking := [])), item.body);
      CompleteReads(cfg, s1, o, item);
    }
  }

  // ---- Opening and growing ----

  lemma {:induction false} OpenMessageReads(cfg: Config, s: State, phase: Option<Phase>)
    requires ItemsInv(cfg, s) && NothingOpen(s.i)
    ensures ItemsInv(cfg, OpenMessage(s, phase)) && OpenMessage(s, phase).i.message.Some?
  {
    var n := |s.i.finished|;
    var o := Open(Item(s.i.nextId, Message([], phase)), [], NoPart, None);
    var r := Reader(s.i.finished, Some(o));
    EmitReads(cfg, s.w, Added(n, o.item), Reader(s.i.finished, None), r);
    EmitReads(cfg, Emit(s.w, Added(n, o.item)), PartAdded(n, s.i.nextId), r, r.(open := Some(o.(part := PartOpen))));
  }

  lemma {:induction false} AppendMessageReads(cfg: Config, s: State, text: Text)
    requires ItemsInv(cfg, s) && s.i.message.Some?
    ensures ItemsInv(cfg, AppendMessage(s, text))
  {
    var m := s.i.message.value;
    EmitReads(cfg, s.w, Delta(m.index, m.id, text), Reader(s.i.finished, Some(MessageShown(m))),
        Reader(s.i.finished, Some(MessageShown(m.(text := m.text + text)))));
  }

  /** A text delta flushes hidden raw reasoning before it closes a call, and while its message is open. */
  predicate TextFits(s: State) {
    s.p.hiddenRaw == [] || (s.i.message.None? && s.i.tool.None?)
  }

  lemma {:induction false} OnTextReads(cfg: Config, s: State, text: Text, phase: Option<Phase>)
    requires ItemsInv(cfg, s) && TextFits(s)
    ensures ItemsInv(cfg, OnText(cfg, s, text, phase))
  {
    hide CloseMessage, CloseReasoning, CloseRaw, CloseTool, FlushHiddenRaw, OpenMessage, AppendMessage, Reads;
    var a := CloseReasoning(s);
    var b := CloseRaw(a);
    CloseReasoningReads(cfg, s);
    CloseRawReads(cfg, a);
    ClosingKeepsHidden(cfg, s);
    FlushHiddenRawReads(cfg, b);
    CloseToolReads(cfg, FlushHiddenRaw(b));
    var s1 := CloseTool(cfg, FlushHiddenRaw(b));
    CloseMessageReads(cfg, s1);
    var s2 := if s1.i.message.Some? && s1.i.message.value.phase != phase then CloseMessage(s1) else s1;
    if s2.i.message.None? {
      OpenMessageReads(cfg, s2, phase);
    }
    AppendMessageReads(cfg, if s2.i.message.None? then OpenMessage(s2, phase) else s2, text);
  }

  lemma {:induction false} OpenReasoningReads(cfg: Config, s: State)
    requires ItemsInv(cfg, s) && NothingOpen(s.i) && !cfg.hide
    ensures ItemsInv(cfg, OpenReasoning(s)) && OpenReasoning(s).i.reasoning.Some?
  {
    var n := |s.i.finished|;
    var o := Open(Item(s.i.nextId, Reasoning(Some([]), None)), [], NoPart, None);
    var r := Reader(s.i.finished, Some(o));
    EmitReads(cfg, s.w, Added(n, o.item), Reader(s.i.finished, None), r);
    EmitReads(cfg, Emit(s.w, Added(n, o.item)), PartAdded(n, s.i.nextId), r, r.(open := Some(o.(part := PartOpen))));
  }

  lemma {:induction false} AppendReasoningReads(cfg: Config, s: State, text: Text)
    requires ItemsInv(cfg, s) && s.i.reasoning.Some?
    ensures ItemsInv(cfg, AppendReasoning(s, text))
  {
    var m := s.i.reasoning.value;
    EmitReads(cfg, s.w, Delta(m.index, m.id, text), Reader(s.i.finished, Some(ReasoningShown(m))),
        Reader(s.i.finished, Some(ReasoningShown(m.(text := m.text + text)))));
  }

  lemma {:induction false} OnThinkingReads(cfg: Config, s: State, text: Text)
    requires ItemsInv(cfg, s)
    ensures ItemsInv(cfg, OnThinking(cfg, s, text))
  {
    hide CloseMessage, CloseRaw, CloseTool, FlushHiddenRaw, OpenReasoning, AppendReasoning, Reads;
    if cfg.hide {
      return;
    }
    var a := CloseMessage(s);
    var b := CloseRaw(a);
    CloseMessageReads(cfg, s);
    CloseRawReads(cfg, a);
    FlushHiddenRawIsIdle(b);
    CloseToolReads(cfg, b);
    var s1 := CloseTool(cfg, b);
    if s1.i.reasoning.None? {
      OpenReasoningReads(cfg, s1);
    }
    AppendReasoningReads(cfg, if s1.i.reasoning.None? then OpenReasoning(s1) else s1, text);
  }

  lemma {:induction false} OpenRawReads(cfg: Config, s: State)
    requires ItemsInv(cfg, s) && NothingOpen(s.i) && !cfg.hide
    ensures ItemsInv(cfg, OpenRaw(s)) && OpenRaw(s).i.raw.Some?
  {
    var o := Open(Item(s.i.nextId, RawReasoning([])), [], NoPart, None);
    EmitReads(cfg, s.w, Added(|s.i.finished|, o.item), Reader(s.i.finished, None), Reader(s.i.finished, Some(o)));
  }

  lemma {:induction false} AppendRawReads(cfg: Config, s: State, text: Text)
    requires ItemsInv(cfg, s) && s.i.raw.Some?
    ensures ItemsInv(cfg, AppendRaw(s, text))
  {
    var m := s.i.raw.value;
    EmitReads(cfg, s.w, Delta(m.index, m.id, text), Reader(s.i.finished, Some(RawShown(m))),
        Reader(s.i.finished, Some(RawShown(m.(text := m.text + text)))));
  }

  lemma {:induction false} OnRawReads(cfg: Config, s: State, text: Text)
    requires ItemsInv(cfg, s)
    ensures ItemsInv(cfg, OnRaw(cfg, s, text))
  {
    hide CloseMessage, CloseReasoning, CloseTool, OpenRaw, AppendRaw, Reads;
    if cfg.hide {
      return;
    }
    var a := CloseMessage(s);
    var b := CloseReasoning(a);
    CloseMessageReads(cfg, s);
    CloseReasoningReads(cfg, a);
    CloseToolReads(cfg, b);
    var s1 := CloseTool(cfg, b);
    if s1.i.raw.None? {
      OpenRawReads(cfg, s1);
    }
    AppendRawReads(cfg, if s1.i.raw.None? then OpenRaw(s1) else s1, text);
  }

  lemma {:induction false} OnToolStartReads(cfg: Config, s: State, callId: string, name: string)
    requires ItemsInv(cfg, s) && ClosingFits(s)
    ensures ItemsInv(cfg, OnToolStart(cfg, s, callId, name))
  {
    var s1 := CloseAll(cfg, s);
    assert ItemsInv(cfg, s1) && NothingOpen(s1.i) by {
      CloseAllReads(cfg, s);
    }
    hide CloseAll;
    var realName, ns := ToolName(cfg.tools, name), ToolNamespace(cfg.tools, name);
    var o := Open(Item(s1.i.nextId, CallStarted(cfg.tools, callId, realName, ns)), [], NoPart, None);
    EmitReads(cfg, s1.w, Added(|s1.i.finished|, o.item), Reader(s1.i.finished, None), Reader(s1.i.finished, Some(o)));
  }

  lemma {:induction false} OnToolDeltaReads(cfg: Config, s: State, arguments: Text)
    requires ItemsInv(cfg, s)
    ensures ItemsInv(cfg, OnToolDelta(cfg, s, arguments))
  {
    if s.i.tool.Some? {
      var t := s.i.tool.value;
      var args := t.args + arguments;
      if IsSearch(cfg.tools, t.name) {
      } else if !IsFreeform(cfg.tools, t.name) {
        EmitReads(cfg, s.w, Delta(t.index, t.id, arguments), Reader(s.i.finished, Some(ToolShown(cfg, t))),
            Reader(s.i.finished, Some(ToolShown(cfg, t.(args := args)))));
      } else {
        Freeform.DeltaStep(t.args, arguments);
        var delta := Freeform.NextDelta(t.inputEmitted, args);
        var t' := t.(args := args, inputEmitted := Freeform.AfterDelta(t.inputEmitted, args));
        if delta.Some? {
          EmitReads(cfg, s.w, Delta(t.index, t.id, delta.value), Reader(s.i.finished, Some(ToolShown(cfg, t))),
              Reader(s.i.finished, Some(ToolShown(cfg, t'))));
        }
      }
    }
  }

  lemma {:induction false} OnSignatureReads(cfg: Config, s: State, signature: Text)
    requires ItemsInv(cfg, s) && SignatureFits(s, signature)
    ensures ItemsInv(cfg, OnSignature(s, signature))
  {
    var s1 := s.(p := s.p.(sig := signature));
    if s1.i.reasoning.None? {
      FlushHiddenEnvelopeReads(cfg, s1);
    }
  }

  /** The event does not make an item while another is open, and makes none without announcing it. */
  predicate EventFits(cfg: Config, s: State, e: Event) {
    match e
    case TextDelta(_, _) => TextFits(s)
    case ThinkingSignature(signature) => SignatureFits(s, signature)
    case ToolStart(_, _) => ClosingFits(s)
    case Boundary => ClosingFits(s)
    case Done(_, _) => ClosingFits(s) && !cfg.compaction
    case Incomplete(_, _) => ClosingFits(s)
    case Error(_) => ClosingFits(s)
    case _ => true
  }

  lemma {:induction false} ProcessReads(cfg: Config, s: State, e: Event)
    requires ItemsInv(cfg, s) && !Final(e) && EventFits(cfg, s, e)
    ensures ItemsInv(cfg, Process(cfg, s, e))
  {
    hide OnText, OnThinking, OnRaw, OnToolStart, OnToolDelta, OnSignature, CloseTool, CloseAll, FlushHiddenEnvelope;
    hide Reads;
    match e {
      case HeartbeatEvent =>
      case Boundary =>
        CloseAllReads(cfg, s);
        FlushHiddenEnvelopeReads(cfg, CloseAll(cfg, s));
      case TextDelta(text, phase) => OnTextReads(cfg, s, text, phase);
      case ThinkingDelta(text) => OnThinkingReads(cfg, s, text);
      case ThinkingSignature(signature) => OnSignatureReads(cfg, s, signature);
      case RedactedThinking(data) =>
      case RawDelta(text) => OnRawReads(cfg, s, text);
      case ToolStart(callId, name) => OnToolStartReads(cfg, s, callId, name);
      case ToolDelta(arguments) => OnToolDeltaReads(cfg, s, arguments);
      case ToolEnd => CloseToolReads(cfg, s);
    }
  }

  // ---- Terminals and steps ----

  lemma {:induction false} EmitEndReads(cfg: Config, s: State, status: Status, detail: Detail, endTurn: Option<bool>)
    requires ItemsInv(cfg, s) && (NothingOpen(s.i) || detail == ProxyFailure)
    ensures ItemsInv(cfg, EmitEnd(s, status, detail, endTurn))
  {
    var r := Reader(s.i.finished, Shown(cfg, s.i));
    EmitReads(cfg, s.w, End(Terminal(status, s.i.finished, detail, endTurn)), r, r);
  }

  lemma {:induction false} FinalReads(cfg: Config, s: State, e: Event)
    requires ItemsInv(cfg, s) && Final(e) && ClosingFits(s) && !(cfg.compaction && e.Done?)
    ensures ItemsInv(cfg, Process(cfg, s, e))
  {
    hide CloseAll, FlushHiddenEnvelope, EmitEnd, Reads, OneOpen;
    var s1 := CloseAll(cfg, s);
    CloseAllReads(cfg, s);
    var s2 := FlushHiddenEnvelope(s1);
    FlushHiddenEnvelopeReads(cfg, s1);
    match e {
      case Done(stop, endTurn) =>
        EmitEndReads(cfg, s2, Truncated, Reason("max_output_tokens"), endTurn);
        EmitEndReads(cfg, s2, Truncated, Reason("content_filter"), endTurn);
        EmitEndReads(cfg, s2, Completed, NoDetail, endTurn);
      case Incomplete(reason, endTurn) => EmitEndReads(cfg, s2, Truncated, Reason(reason), endTurn);
      case Error(message) => EmitEndReads(cfg, s1, Failed, AdapterFailure(message), None);
    }
  }

  lemma {:induction false} ShutReads(cfg: Config, s: State)
    requires ItemsInv(cfg, s)
    ensures ItemsInv(cfg, Shut(s))
  {
    var r := Reader(s.i.finished, Shown(cfg, s.i));
    EmitReads(cfg, s.w, DoneMark, r, r);
  }

  lemma {:induction false} AfterLoopReads(cfg: Config, s: State)
    requires ItemsInv(cfg, s) && (s.l.upstreamDone && !s.l.terminated ==> ClosingFits(s))
    ensures ItemsInv(cfg, AfterLoop(cfg, s))
  {
    hide CloseAll, EmitEnd, Shut, Reads, OneOpen;
    if s.l.terminated || s.l.upstreamDone {
      var s1 := s.(l := s.l.(beat := false));
      if s1.l.terminated {
        ShutReads(cfg, s1);
      } else {
        CloseAllReads(cfg, s1);
        EmitEndReads(cfg, CloseAll(cfg, s1), Truncated, Reason("adapter_eof"), None);
        var ended := EmitEnd(CloseAll(cfg, s1), Truncated, Reason("adapter_eof"), None);
        ShutReads(cfg, ended.(l := ended.l.(terminated := true)));
      }
    }
  }

  lemma {:induction false} LoopHeadReads(cfg: Config, s: State)
    requires ItemsInv(cfg, s) && Awaiting(s)
    ensures ItemsInv(cfg, LoopHead(cfg, s))
  {
    hide AfterLoop, Reads, OneOpen;
    AfterLoopReads(cfg, s);
  }

  /** A pump step that the adapter's end has not yet finished off. */
  predicate Awaiting(s: State) {
    s.l.upstreamDone ==> s.l.terminated
  }

  /** The input makes no item while another is open. A compaction turn skips all but the final events. */
  predicate InputFits(cfg: Config, s: State, x: Input) {
    match x
    case EventInput(e, _) => s.l.stepping && (Final(e) || !cfg.compaction) ==> EventFits(cfg, s, e)
    case EndInput => s.l.stepping && !s.l.terminated ==> ClosingFits(s)
    case ThrowInput => s.l.stepping && !s.l.terminated ==> s.p.hiddenRaw == [] || NothingOpen(s.i)
    case TickInput(at) => s.l.beat && !s.w.closed && !s.l.gated && at - s.l.lastAt >= cfg.stallMs ==> ClosingFits(s)
    case _ => true
  }

  lemma {:induction false} NextReads(cfg: Config, s: State, x: Input)
    requires ItemsInv(cfg, s) && Awaiting(s) && InputFits(cfg, s, x)
    ensures ItemsInv(cfg, Next(cfg, s, x))
  {
    hide AfterLoop, LoopHead, Process, CloseAll, EmitEnd, FlushHiddenRaw, Shut, OneOpen;
    match x {
      case PullInput =>
        LoopHeadReads(cfg, s.(l := s.l.(stepping := true, gated := false, emittedAtStart := s.w.emitted)));
      case EventInput(e, at) =>
        var s0 := s.(l := s.l.(lastAt := at));
        if s.l.stepping && cfg.compaction && !Final(e) {
          LoopHeadReads(cfg, s0);
          LoopHeadReads(cfg, s0.(p := s0.p.(compaction := s0.p.compaction + if e.TextDelta? then e.text else [])));
        } else if s.l.stepping {
          EventReads(cfg, s0, e);
        }
      case EndInput =>
        if s.l.stepping {
          AfterLoopReads(cfg, s.(l := s.l.(upstreamDone := true)));
        }
      case ThrowInput =>
        if s.l.stepping {
          ThrowReads(cfg, s);
        }
      case TickInput(at) =>
        if s.l.beat && !s.w.closed && !s.l.gated {
          TickReads(cfg, s, at);
        }
      case CancelInput =>
      case TearInput(room) =>
    }
  }

  /** The part of a delivery after the arrival is noted. */
  lemma {:induction false} EventReads(cfg: Config, s: State, e: Event)
    requires ItemsInv(cfg, s) && Awaiting(s) && EventFits(cfg, s, e)
    ensures Final(e) ==> ItemsInv(cfg, AfterLoop(cfg, Terminated(Process(cfg, s, e))))
    ensures !Final(e) ==> ItemsInv(cfg, LoopHead(cfg, Process(cfg, s, e)))
  {
    hide AfterLoop, LoopHead, Process, OneOpen, EventFits;
    if Final(e) {
      FinalFits(cfg, s, e);
      FinalReads(cfg, s, e);
      AfterLoopReads(cfg, Terminated(Process(cfg, s, e)));
    } else {
      ProcessReads(cfg, s, e);
      ProcessKeeps(cfg, s, e);
      LoopHeadReads(cfg, Process(cfg, s, e));
    }
  }

  lemma {:induction false} FinalFits(cfg: Config, s: State, e: Event)
    requires Final(e) && EventFits(cfg, s, e)
    ensures ClosingFits(s) && !(cfg.compaction && e.Done?)
  {
  }

  lemma {:induction false} ThrowReads(cfg: Config, s: State)
    requires ItemsInv(cfg, s) && Awaiting(s) && InputFits(cfg, s, ThrowInput)
    ensures ItemsInv(cfg, UpstreamThrow(cfg, s))
  {
    hide AfterLoop, EmitEnd, FlushHiddenRaw, OneOpen;
    if s.l.stepping && s.l.terminated {
      AfterLoopReads(cfg, s);
    } else if s.l.stepping {
      FlushHiddenRawReads(cfg, s);
      EmitEndReads(cfg, FlushHiddenRaw(s), Failed, ProxyFailure, None);
      AfterLoopReads(cfg, Terminated(EmitEnd(FlushHiddenRaw(s), Failed, ProxyFailure, None)));
    }
  }

  lemma {:induction false} TickReads(cfg: Config, s: State, at: int)
    requires ItemsInv(cfg, s) && InputFits(cfg, s, TickInput(at))
    requires s.l.beat && !s.w.closed && !s.l.gated
    ensures ItemsInv(cfg, Tick(cfg, s, at))
  {
    hide CloseAll, EmitEnd, Shut, OneOpen;
    if at - s.l.lastAt >= cfg.stallMs {
      CloseAllReads(cfg, s);
      EmitEndReads(cfg, CloseAll(cfg, s), Truncated, Reason("upstream_stall_timeout"), None);
      ShutReads(cfg, EmitEnd(CloseAll(cfg, s), Truncated, Reason("upstream_stall_timeout"), None));
    } else {
      var r := Reader(s.i.finished, Shown(cfg, s.i));
      EmitReads(cfg, s.w, Heartbeat, r, r);
    }
  }

  lemma {:induction false} StillAwaits(cfg: Config, s: State, x: Input)
    requires Awaiting(s)
    ensures Awaiting(Next(cfg, s, x))
  {
    hide Process, CloseAll, EmitEnd, FlushHiddenRaw, OnDone, OnIncomplete, OnError;
    if x.EventInput? && !Final(x.event) {
      ProcessKeeps(cfg, s.(l := s.l.(lastAt := x.at)), x.event);
    }
  }

  lemma {:induction false} RunAwaits(cfg: Config, now: int, xs: seq<Input>)
    ensures Awaiting(Run(cfg, now, xs))
  {
    if xs != [] {
      hide Next, Awaiting;
      RunAwaits(cfg, now, xs[..|xs| - 1]);
      StillAwaits(cfg, Run(cfg, now, xs[..|xs| - 1]), xs[|xs| - 1]);
    }
  }

  /** Every input of the run finds nothing open where it makes an item of its own. */
  predicate InputsFit(cfg: Config, now: int, xs: seq<Input>) {
    xs == [] ||
    (InputsFit(cfg, now, xs[..|xs| - 1]) && InputFits(cfg, Run(cfg, now, xs[..|xs| - 1]), xs[|xs| - 1]))
  }

  /**
   * Item discipline over every run: the strict reader accepts the wire, at most one item is open, and
   * its output index is the number of items finished.
   */
  lemma {:induction false} StrictReaderAccepts(cfg: Config, now: int, xs: seq<Input>)
    requires InputsFit(cfg, now, xs)
    ensures ItemsInv(cfg, Run(cfg, now, xs))
    ensures ReadAll(cfg, Run(cfg, now, xs).w.frames).Some?
    ensures OneOpen(cfg, Run(cfg, now, xs).i)
  {
    if xs == [] {
      EmitReads(cfg, Wire(false, None, 0, 0, []), Created, Reader([], None), Reader([], None));
    } else {
      StrictReaderAccepts(cfg, now, xs[..|xs| - 1]);
      RunAwaits(cfg, now, xs[..|xs| - 1]);
      NextReads(cfg, Run(cfg, now, xs[..|xs| - 1]), xs[|xs| - 1]);
    }
  }

  // ---- What acceptance means, frame by frame ----

  /** The output index and item id of every announcement, in order. */
  function Announcements(frames: seq<Sent>): seq<(nat, nat)> {
    if frames == [] then []
    else
      var last := frames[|frames| - 1].frame;
      Announcements(frames[..|frames| - 1]) + if last.Added? then [(last.index, last.item.id)] else []
  }

  /** The output index and item of every completion, in order. */
  function Completions(frames: seq<Sent>): seq<(nat, Item)> {
    if frames == [] then []
    else
      var last := frames[|frames| - 1].frame;
      Completions(frames[..|frames| - 1]) + if last.ItemDone? then [(last.index, last.item)] else []
  }

  function Places(items: seq<Item>): seq<(nat, nat)> {
    seq(|items|, i requires 0 <= i < |items| => (i, items[i].id))
  }

  function Indexed(items: seq<Item>): seq<(nat, Item)> {
    seq(|items|, i requires 0 <= i < |items| => (i, items[i]))
  }

  lemma {:induction false} ReadEffect(cfg: Config, r: Reader, f: Frame, r': Reader)
    requires Read(cfg, r, f) == Some(r')
    ensures f.Added? ==>
      r'.done == r.done && r.open.None? && r'.open.Some? && r'.open.value.item.id == f.item.id && f.index == |r.done|
    ensures f.ItemDone? ==>
      && r'.done == r.done + [f.item] && r'.open.None? && f.index == |r.done|
      && r.open.Some? && r.open.value.item.id == f.item.id
    ensures !f.Added? && !f.ItemDone? ==>
      && r'.done == r.done && (r'.open.Some? <==> r.open.Some?)
      && (r.open.Some? ==> r'.open.value.item.id == r.open.value.item.id)
  {
    hide Finishes;
  }

  lemma {:induction false} AcceptedMeans(cfg: Config, frames: seq<Sent>)
    requires ReadAll(cfg, frames).Some?
    ensures var r := ReadAll(cfg, frames).value;
      && Completions(frames) == Indexed(r.done)
      && Announcements(frames) == Places(r.done) + (if r.open.Some? then [(|r.done|, r.open.value.item.id)] else [])
  {
    hide Read, Places, Indexed;
    if frames != [] {
      var init, f := frames[..|frames| - 1], frames[|frames| - 1].frame;
      AcceptedMeans(cfg, init);
      var r := ReadAll(cfg, init).value;
      ReadEffect(cfg, r, f, ReadAll(cfg, frames).value);
      if f.ItemDone? {
        SnocPlaces(r.done, f.item);
      }
    } else {
      NoPlaces();
    }
  }

  lemma {:induction false} NoPlaces()
    ensures Places([]) == [] && Indexed([]) == []
  {
  }

  lemma {:induction false} SnocPlaces(items: seq<Item>, item: Item)
    ensures Places(items + [item]) == Places(items) + [(|items|, item.id)]
    ensures Indexed(items + [item]) == Indexed(items) + [(|items|, item)]
  {
  }

  /**
   * At every terminal except the one for an upstream throw, each index 0..n-1 was announced once and
   * completed once under the same id, in order, and the terminal lists exactly those items. A throw
   * leaves at most the open item without a completion.
   */
  lemma {:induction false} TerminalListsEveryItem(cfg: Config, now: int, xs: seq<Input>)
    requires InputsFit(cfg, now, xs)
    requires Run(cfg, now, xs).l.reported.Some?
    ensures var frames := Run(cfg, now, xs).w.frames;
      && |Terminals(frames)| == 1
      && Completions(frames) == Indexed(Terminals(frames)[0].output)
      && Places(Terminals(frames)[0].output) <= Announcements(frames)
      && |Announcements(frames)| <= |Terminals(frames)[0].output| + 1
      && (Terminals(frames)[0].detail != ProxyFailure ==> Announcements(frames) == Places(Terminals(frames)[0].output))
  {
    hide ItemsInv, OrderInv, OneOpen, WellOrdered;
    var frames := Run(cfg, now, xs).w.frames;
    StrictReaderAccepts(cfg, now, xs);
    ExactlyOneTerminal(cfg, now, xs);
    assert OrderOf(frames).Some? by { RunIsOrdered(cfg, now, xs); }
    AcceptedMeans(cfg, frames);
    EndMatchesReader(cfg, frames);
  }

  lemma {:induction false} RunIsOrdered(cfg: Config, now: int, xs: seq<Input>)
    ensures OrderOf(Run(cfg, now, xs).w.frames).Some?
  {
    RunKeepsOrder(cfg, now, xs);
  }

  /** Once the terminal is read, the reader's list is the terminal's list. */
  lemma {:induction false} EndMatchesReader(cfg: Config, frames: seq<Sent>)
    requires OrderOf(frames).Some? && ReadAll(cfg, frames).Some? && Terminals(frames) != []
    ensures var r, t := ReadAll(cfg, frames).value, Terminals(frames)[0];
      t.output == r.done && (r.open.None? || t.detail == ProxyFailure)
  {
    hide OrderOf, ReadAll;
    OrderCounts(frames);
    FlowingHasNoEnd(frames);
    OrderPrefix(frames);
    EndIsRead(cfg, frames);
    var init := frames[..|frames| - 1];
    OrderCounts(init);
    if frames[|frames| - 1].frame.DoneMark? {
      OrderCounts(init[..|init| - 1]);
      EndIsRead(cfg, init);
    }
  }

  lemma {:induction false} EndIsRead(cfg: Config, frames: seq<Sent>)
    requires frames != [] && ReadAll(cfg, frames).Some?
    ensures var r, f := ReadAll(cfg, frames).value, frames[|frames| - 1].frame;
      && (f.End? ==> f.terminal.output == r.done && (r.open.None? || f.terminal.detail == ProxyFailure))
      && (f.DoneMark? ==> ReadAll(cfg, frames[..|frames| - 1]) == Some(r))
  {
    hide Finishes;
  }

  lemma {:induction false} OrderPrefix(frames: seq<Sent>)
    requires frames != [] && OrderOf(frames).Some?
    ensures OrderOf(frames[..|frames| - 1]).Some?
    ensures frames[|frames| - 1].frame.DoneMark? ==>
      var init := frames[..|frames| - 1];
      OrderOf(init).value.stage == Ended && init != [] && OrderOf(init[..|init| - 1]).Some?
  {
  }

  /**
   * Exactly which signatures the strict reader tolerates: elsewhere the envelope-only item reuses the
   * open item's output index.
   */
  lemma {:induction false} SignatureToleratedExactlyWhenItFits(cfg: Config, s: State, signature: Text, now: int)
    requires ItemsInv(cfg, s) && !cfg.compaction
    requires s.l.stepping && !s.w.closed && s.w.room == None && !s.l.terminated && !s.l.upstreamDone
    ensures ReadAll(cfg, Deliver(cfg, s, ThinkingSignature(signature), now).w.frames).Some? <==>
      SignatureFits(s, signature)
  {
    if SignatureFits(s, signature) {
      NextReads(cfg, s, EventInput(ThinkingSignature(signature), now));
    } else {
      SignatureMisfits(cfg, s, signature, now);
    }
  }

  lemma {:induction false} SignatureMisfits(cfg: Config, s: State, signature: Text, now: int)
    requires ItemsInv(cfg, s) && !cfg.compaction && !SignatureFits(s, signature)
    requires s.l.stepping && !s.w.closed && s.w.room == None && !s.l.terminated && !s.l.upstreamDone
    ensures ReadAll(cfg, Deliver(cfg, s, ThinkingSignature(signature), now).w.frames).None?
  {
    var s0 := s.(l := s.l.(lastAt := now));
    var item := Item(s.i.nextId, Reasoning(None, Some(Envelope(signature, s.p.red, s.p.hiddenThinking))));
    var added := Emit(s.w, Added(s.i.outputIndex, item));
    ReadSnoc(cfg, s.w.frames, Sent(Some(s.w.nextNumber), Added(s.i.outputIndex, item)));
    ReadSnoc(cfg, added.frames, Sent(Some(added.nextNumber), ItemDone(s.i.outputIndex, item)));
    assert Process(cfg, s0, ThinkingSignature(signature)).w == Emit(added, ItemDone(s.i.outputIndex, item));
  }
}
