/**
 * What a response holds, told from the adapter's events alone: every text, thought and raw thought is in the items in
 * order, every redacted block in an envelope, and every call carries its name and all of its arguments.
 */
module BridgeContents {
  import opened Common
  import opened Bridge
  import opened BridgeOrder
  import opened BridgeItems
  import opened BridgeRefinement

  // ---- What the adapter said ----

  /** The text of one phase. */
  function Said(fed: seq<Event>, phase: Option<Phase>): Text {
    if fed == [] then []
    else
      var e := fed[|fed| - 1];
      Said(fed[..|fed| - 1], phase) + if e.TextDelta? && e.phase == phase then e.text else []
  }

  function Thought(fed: seq<Event>): Text {
    if fed == [] then []
    else Thought(fed[..|fed| - 1]) + if fed[|fed| - 1].ThinkingDelta? then fed[|fed| - 1].thinking else []
  }

  function RawThought(fed: seq<Event>): Text {
    if fed == [] then []
    else RawThought(fed[..|fed| - 1]) + if fed[|fed| - 1].RawDelta? then fed[|fed| - 1].raw else []
  }

  function Redactions(fed: seq<Event>): seq<Text> {
    if fed == [] then []
    else Redactions(fed[..|fed| - 1]) + if fed[|fed| - 1].RedactedThinking? then [fed[|fed| - 1].data] else []
  }

  /** All text, of whatever phase. */
  function AllSaid(fed: seq<Event>): Text {
    if fed == [] then []
    else AllSaid(fed[..|fed| - 1]) + if fed[|fed| - 1].TextDelta? then fed[|fed| - 1].text else []
  }

  /** A call as the adapter made it: its name as given, and the arguments that came while it was open. */
  datatype Call = Call(callId: string, name: string, args: Text)

  /** Is a call open? Any other output ends it, hidden reasoning does not. */
  function Calling(hidden: bool, fed: seq<Event>): bool {
    if fed == [] then false
    else
      match fed[|fed| - 1]
      case ToolStart(_, _) => true
      case TextDelta(_, _) => false
      case ToolEnd => false
      case Boundary => false
      case ThinkingDelta(_) => hidden && Calling(hidden, fed[..|fed| - 1])
      case RawDelta(_) => hidden && Calling(hidden, fed[..|fed| - 1])
      case _ => Calling(hidden, fed[..|fed| - 1])
  }

  function CallsMade(hidden: bool, fed: seq<Event>): seq<Call> {
    if fed == [] then []
    else
      var init, e := fed[..|fed| - 1], fed[|fed| - 1];
      var before := CallsMade(hidden, init);
      if e.ToolStart? then before + [Call(e.callId, e.name, [])]
      else if e.ToolDelta? && Calling(hidden, init) && before != [] then
        var last := before[|before| - 1];
        before[..|before| - 1] + [last.(args := last.args + e.arguments)]
      else before
  }

  // ---- What the items hold ----

  function TextIn(b: Body, phase: Option<Phase>): Text {
    if b.Message? && b.phase == phase then b.text else []
  }

  function SummaryIn(b: Body): Text {
    if b.Reasoning? && b.summary.Some? then b.summary.value else []
  }

  /** Raw reasoning is shown, or kept in an envelope of text alone. */
  function RawIn(b: Body): Text {
    match b
    case RawReasoning(text) => text
    case Reasoning(None, Some(Envelope(sig, red, txt))) => if sig == [] && red == [] then txt else []
    case _ => []
  }

  function RedactedIn(b: Body): seq<Text> {
    if b.Reasoning? && b.encrypted.Some? then b.encrypted.value.red else []
  }

  function Texts(items: seq<Item>, phase: Option<Phase>): Text {
    if items == [] then []
    else Texts(items[..|items| - 1], phase) + TextIn(items[|items| - 1].body, phase)
  }

  function Summaries(items: seq<Item>): Text {
    if items == [] then [] else Summaries(items[..|items| - 1]) + SummaryIn(items[|items| - 1].body)
  }

  function Raws(items: seq<Item>): Text {
    if items == [] then [] else Raws(items[..|items| - 1]) + RawIn(items[|items| - 1].body)
  }

  function Redacted(items: seq<Item>): seq<Text> {
    if items == [] then [] else Redacted(items[..|items| - 1]) + RedactedIn(items[|items| - 1].body)
  }

  predicate IsCall(b: Body) {
    b.FunctionCall? || b.CustomCall? || b.SearchCall?
  }

  function CallBodies(items: seq<Item>): seq<Body> {
    if items == [] then []
    else
      var b := items[|items| - 1].body;
      CallBodies(items[..|items| - 1]) + if IsCall(b) then [b] else []
  }

  /** The real name and namespace of a tool as the request listed it. */
  predicate Maps(tools: Tools, name: string, realName: string, namespace: Option<string>) {
    if name in tools.namespaces
    then realName == tools.namespaces[name].1 && namespace == Some(tools.namespaces[name].0)
    else realName == name && namespace == None
  }

  /** The item of a call: search calls parse all the arguments, freeform calls unwrap them, others carry them. */
  ghost predicate Carries(cfg: Config, call: Call, b: Body) {
    exists realName, namespace ::
      && Maps(cfg.tools, call.name, realName, namespace)
      && if realName in cfg.tools.search then b == SearchCall(call.callId, cfg.tools.parseObject(call.args))
         else if realName in cfg.tools.freeform then b == CustomCall(call.callId, realName, cfg.tools.unwrap(call.args))
         else
           && b.FunctionCall? && b.callId == call.callId && b.name == realName
           && b.arguments == (if call.args == [] then [0x7B, 0x7D] else call.args)
           && b.namespace == (if namespace == Some("") then None else namespace)
           && (b.plaintext <==>
                 namespace == Some("collaboration") && realName in {"spawn_agent", "send_message", "followup_task"})
  }

  // ---- The books of a response ----

  /** What the items hold together with what is still open or waiting. */
  datatype Books = Books(texts: Text, summaries: Text, raws: Text, redacted: seq<Text>)

  function BooksOf(s: State, phase: Option<Phase>): Books {
    Books(
      Texts(s.i.finished, phase)
        + (if s.i.message.Some? && s.i.message.value.phase == phase then s.i.message.value.text else []),
      Summaries(s.i.finished) + (if s.i.reasoning.Some? then s.i.reasoning.value.text else []),
      Raws(s.i.finished) + (if s.i.raw.Some? then s.i.raw.value.text else []) + s.p.hiddenRaw,
      Redacted(s.i.finished) + s.p.red)
  }

  lemma {:induction false} OneMore(items: seq<Item>, item: Item, phase: Option<Phase>)
    ensures Texts(items + [item], phase) == Texts(items, phase) + TextIn(item.body, phase)
    ensures Summaries(items + [item]) == Summaries(items) + SummaryIn(item.body)
    ensures Raws(items + [item]) == Raws(items) + RawIn(item.body)
    ensures Redacted(items + [item]) == Redacted(items) + RedactedIn(item.body)
    ensures CallBodies(items + [item]) == CallBodies(items) + if IsCall(item.body) then [item.body] else []
  {
    assert (items + [item])[..|items|] == items;
  }

  /** The same books, and the same calls unless the open call was closed. */
  predicate Same(s: State, s': State, phase: Option<Phase>) {
    && BooksOf(s', phase) == BooksOf(s, phase)
    && CallBodies(s'.i.finished) == CallBodies(s.i.finished) && s'.i.tool == s.i.tool
  }

  lemma {:induction false} CloseMessageBooks(s: State, phase: Option<Phase>)
    ensures Same(s, CloseMessage(s), phase)
  {
    hide Emit, Texts, Summaries, Raws, Redacted, CallBodies;
    if s.i.message.Some? {
      var m := s.i.message.value;
      OneMore(s.i.finished, Item(m.id, Message(m.text, m.phase)), phase);
    }
  }

  lemma {:induction false} CloseReasoningBooks(s: State, phase: Option<Phase>)
    ensures Same(s, CloseReasoning(s), phase)
  {
    hide Emit, Texts, Summaries, Raws, Redacted, CallBodies;
    if s.i.reasoning.Some? {
      var r := s.i.reasoning.value;
      var encrypted := TakeEnvelope(s.p, []).0;
      OneMore(s.i.finished, Item(r.id, Reasoning(Some(r.text), encrypted)), phase);
    }
  }

  lemma {:induction false} CloseRawBooks(s: State, phase: Option<Phase>)
    ensures Same(s, CloseRaw(s), phase)
  {
    hide Emit, Texts, Summaries, Raws, Redacted, CallBodies;
    if s.i.raw.Some? {
      var r := s.i.raw.value;
      OneMore(s.i.finished, Item(r.id, RawReasoning(r.text)), phase);
    }
  }

  lemma {:induction false} FlushRawBooks(s: State, phase: Option<Phase>)
    requires s.i.raw.None?
    ensures Same(s, FlushHiddenRaw(s), phase) && FlushHiddenRaw(s).p.hiddenRaw == []
  {
    hide Emit, Texts, Summaries, Raws, Redacted, CallBodies;
    if s.p.hiddenRaw != [] {
      OneMore(s.i.finished, Item(s.i.nextId, Reasoning(None, Some(Envelope([], [], s.p.hiddenRaw)))), phase);
    }
  }

  lemma {:induction false} FlushEnvelopeBooks(s: State, phase: Option<Phase>)
    ensures Same(s, FlushHiddenEnvelope(s), phase) && FlushHiddenEnvelope(s).p.red == []
  {
    hide Emit, Texts, Summaries, Raws, Redacted, CallBodies;
    var encrypted := TakeEnvelope(s.p, s.p.hiddenThinking).0;
    if encrypted.Some? {
      OneMore(s.i.finished, Item(s.i.nextId, Reasoning(None, encrypted)), phase);
    }
  }

  /** The calls made are the finished call items and the open call. */
  ghost predicate CallsTold(cfg: Config, s: State, made: seq<Call>) {
    var done := CallBodies(s.i.finished);
    && |made| == |done| + (if s.i.tool.Some? then 1 else 0)
    && (forall k :: 0 <= k < |done| ==> Carries(cfg, made[k], done[k]))
    && (s.i.tool.Some? ==> IsOpen(cfg, made[|done|], s.i.tool.value))
  }

  predicate IsOpen(cfg: Config, call: Call, t: OpenTool) {
    t.callId == call.callId && t.args == call.args && Maps(cfg.tools, call.name, t.name, t.namespace)
  }

  lemma {:induction false} ClosedCarries(cfg: Config, call: Call, t: OpenTool)
    requires IsOpen(cfg, call, t)
    ensures var b := CallBody(cfg.tools, t.callId, t.name, t.namespace, t.args); IsCall(b) && Carries(cfg, call, b)
  {
    assert Maps(cfg.tools, call.name, t.name, t.namespace);
  }

  lemma {:induction false} CloseToolBooks(cfg: Config, s: State, made: seq<Call>, phase: Option<Phase>)
    requires CallsTold(cfg, s, made)
    ensures CallsTold(cfg, CloseTool(cfg, s), made) && CloseTool(cfg, s).i.tool.None?
    ensures BooksOf(CloseTool(cfg, s), phase) == BooksOf(s, phase)
  {
    hide Carries, IsOpen, CallBody, Emit, Texts, Summaries, Raws, Redacted, CallBodies;
    if s.i.tool.Some? {
      var t := s.i.tool.value;
      var done := CallBodies(s.i.finished);
      ClosedCarries(cfg, made[|done|], t);
      CallHoldsNoText(cfg, t, phase);
      OneMore(s.i.finished, Item(t.id, CallBody(cfg.tools, t.callId, t.name, t.namespace, t.args)), phase);
    }
  }

  lemma {:induction false} CallHoldsNoText(cfg: Config, t: OpenTool, phase: Option<Phase>)
    ensures var b := CallBody(cfg.tools, t.callId, t.name, t.namespace, t.args);
      TextIn(b, phase) == [] && SummaryIn(b) == [] && RawIn(b) == [] && RedactedIn(b) == []
  {
  }

  lemma {:induction false} SameCalls(cfg: Config, s: State, s': State, made: seq<Call>, phase: Option<Phase>)
    requires CallsTold(cfg, s, made) && Same(s, s', phase)
    ensures CallsTold(cfg, s', made) && BooksOf(s', phase) == BooksOf(s, phase)
  {
    hide Carries, IsOpen;
  }

  // ---- Event by event ----

  /** The books tell what the adapter said so far. */
  ghost predicate Told(cfg: Config, s: State, fed: seq<Event>, phase: Option<Phase>) {
    var b := BooksOf(s, phase);
    && HiddenKept(cfg, s) && b.texts == Said(fed, phase) && (!cfg.hide ==> b.summaries == Thought(fed))
    && b.raws == RawThought(fed) && b.redacted == Redactions(fed)
    && CallsTold(cfg, s, CallsMade(cfg.hide, fed)) && (Calling(cfg.hide, fed) <==> s.i.tool.Some?)
  }

  lemma {:induction false} SaidNext(fed: seq<Event>, e: Event, phase: Option<Phase>)
    ensures Said(fed + [e], phase) == Said(fed, phase) + if e.TextDelta? && e.phase == phase then e.text else []
    ensures Thought(fed + [e]) == Thought(fed) + if e.ThinkingDelta? then e.thinking else []
    ensures RawThought(fed + [e]) == RawThought(fed) + if e.RawDelta? then e.raw else []
    ensures Redactions(fed + [e]) == Redactions(fed) + if e.RedactedThinking? then [e.data] else []
    ensures AllSaid(fed + [e]) == AllSaid(fed) + if e.TextDelta? then e.text else []
  {
    assert (fed + [e])[..|fed|] == fed;
  }

  lemma {:induction false} CallsNext(hidden: bool, fed: seq<Event>, e: Event)
    ensures Calling(hidden, fed + [e]) ==
      (e.ToolStart? || (Calling(hidden, fed) && !e.TextDelta? && !e.ToolEnd? && !e.Boundary?
        && (e.ThinkingDelta? || e.RawDelta? ==> hidden)))
    ensures var before := CallsMade(hidden, fed);
      CallsMade(hidden, fed + [e]) ==
        if e.ToolStart? then before + [Call(e.callId, e.name, [])]
        else if e.ToolDelta? && Calling(hidden, fed) && before != [] then
          before[..|before| - 1] + [before[|before| - 1].(args := before[|before| - 1].args + e.arguments)]
        else before
  {
    assert (fed + [e])[..|fed|] == fed;
  }

  /** Closings leave the books as they are, and the calls told. */
  ghost predicate Settled(cfg: Config, s: State, s': State, phase: Option<Phase>, made: seq<Call>) {
    BooksOf(s', phase) == BooksOf(s, phase) && CallsTold(cfg, s', made) && HiddenKept(cfg, s')
  }

  lemma {:induction false} CloseAllBooks(cfg: Config, s: State, phase: Option<Phase>, made: seq<Call>)
    requires CallsTold(cfg, s, made) && HiddenKept(cfg, s)
    ensures Settled(cfg, s, CloseAll(cfg, s), phase, made)
    ensures NothingOpen(CloseAll(cfg, s).i) && CloseAll(cfg, s).p.hiddenRaw == []
  {
    hide CallsTold, BooksOf;
    var s1 := CloseMessage(s);
    var s2 := CloseReasoning(s1);
    var s3 := CloseRaw(s2);
    var s4 := FlushHiddenRaw(s3);
    CloseMessageBooks(s, phase);
    CloseReasoningBooks(s1, phase);
    CloseRawBooks(s2, phase);
    FlushRawBooks(s3, phase);
    SameCalls(cfg, s, s1, made, phase);
    SameCalls(cfg, s1, s2, made, phase);
    SameCalls(cfg, s2, s3, made, phase);
    SameCalls(cfg, s3, s4, made, phase);
    CloseToolBooks(cfg, s4, made, phase);
    ClosedParts(cfg, s);
  }

  lemma {:induction false} ClosedParts(cfg: Config, s: State)
    requires HiddenKept(cfg, s)
    ensures HiddenKept(cfg, CloseAll(cfg, s)) && NothingOpen(CloseAll(cfg, s).i) && CloseAll(cfg, s).p.hiddenRaw == []
  {
    hide Emit, CallBody;
  }

  /** The closings a text delta makes. */
  function BeforeText(cfg: Config, s: State, to: Option<Phase>): State {
    var s4 := CloseTool(cfg, FlushHiddenRaw(CloseRaw(CloseReasoning(s))));
    if s4.i.message.Some? && s4.i.message.value.phase != to then CloseMessage(s4) else s4
  }

  lemma {:induction false} TextCloses(cfg: Config, s: State, to: Option<Phase>, phase: Option<Phase>, made: seq<Call>)
    requires CallsTold(cfg, s, made)
    ensures CallsTold(cfg, BeforeText(cfg, s, to), made)
    ensures BooksOf(BeforeText(cfg, s, to), phase) == BooksOf(s, phase)
  {
    hide CallsTold, Same, CloseMessage, CloseReasoning, CloseRaw, FlushHiddenRaw, CloseTool, BooksOf;
    var s1 := CloseReasoning(s);
    var s2 := CloseRaw(s1);
    var s3 := FlushHiddenRaw(s2);
    var s4 := CloseTool(cfg, s3);
    CloseReasoningBooks(s, phase);
    CloseRawBooks(s1, phase);
    RawClosed(s1);
    FlushRawBooks(s2, phase);
    SameCalls(cfg, s, s1, made, phase);
    SameCalls(cfg, s1, s2, made, phase);
    SameCalls(cfg, s2, s3, made, phase);
    CloseToolBooks(cfg, s3, made, phase);
    CloseMessageBooks(s4, phase);
    SameCalls(cfg, s4, CloseMessage(s4), made, phase);
  }

  lemma {:induction false} TextTold(cfg: Config, s: State, fed: seq<Event>, text: Text, to: Option<Phase>,
          phase: Option<Phase>)
    requires Told(cfg, s, fed, phase)
    ensures Told(cfg, OnText(cfg, s, text, to), fed + [TextDelta(text, to)], phase)
  {
    hide CallsTold, CloseMessage, CloseReasoning, CloseRaw, FlushHiddenRaw, CloseTool, OpenMessage, AppendMessage;
    hide BooksOf, HiddenKept;
    var made := CallsMade(cfg.hide, fed);
    TextCloses(cfg, s, to, phase, made);
    MessageParts(cfg, s, to);
    MessageGrows(cfg, BeforeText(cfg, s, to), text, to, phase, made);
    SaidNext(fed, TextDelta(text, to), phase);
    CallsNext(cfg.hide, fed, TextDelta(text, to));
  }

  lemma {:induction false} RawClosed(s: State)
    ensures CloseRaw(s).i.raw.None?
  {
  }

  /** What is open before the message grows. */
  lemma {:induction false} MessageParts(cfg: Config, s: State, to: Option<Phase>)
    requires HiddenKept(cfg, s)
    ensures var s5 := BeforeText(cfg, s, to);
      && HiddenKept(cfg, s5) && s5.i.tool.None? && (s5.i.message.Some? ==> s5.i.message.value.phase == to)
      && s5.i.raw.None? && s5.i.reasoning.None?
  {
    hide Emit, CallBody;
  }

  lemma {:induction false} MessageGrows(cfg: Config, s: State, text: Text, to: Option<Phase>, phase: Option<Phase>,
          made: seq<Call>)
    requires CallsTold(cfg, s, made) && HiddenKept(cfg, s) && s.i.tool.None?
    requires s.i.message.Some? ==> s.i.message.value.phase == to
    ensures var s' := AppendMessage(if s.i.message.None? then OpenMessage(s, to) else s, text);
      && CallsTold(cfg, s', made) && HiddenKept(cfg, s') && s'.i.tool.None?
      && BooksOf(s', phase) == BooksOf(s, phase).(
           texts := BooksOf(s, phase).texts + (if to == phase then text else []))
  {
    hide Emit, Carries, Texts, Summaries, Raws, Redacted, CallBodies;
  }

  lemma {:induction false} ThinkingTold(cfg: Config, s: State, fed: seq<Event>, text: Text, phase: Option<Phase>)
    requires Told(cfg, s, fed, phase)
    ensures Told(cfg, OnThinking(cfg, s, text), fed + [ThinkingDelta(text)], phase)
  {
    hide CallsTold, Same, CloseMessage, CloseRaw, FlushHiddenRaw, CloseTool, OpenReasoning, AppendReasoning;
    var made := CallsMade(cfg.hide, fed);
    SaidNext(fed, ThinkingDelta(text), phase);
    CallsNext(cfg.hide, fed, ThinkingDelta(text));
    if cfg.hide {
      PendingOnly(cfg, s, OnThinking(cfg, s, text), made, phase);
      return;
    }
    var s1 := CloseMessage(s);
    var s2 := CloseRaw(s1);
    var s3 := FlushHiddenRaw(s2);
    var s4 := CloseTool(cfg, s3);
    CloseMessageBooks(s, phase);
    CloseRawBooks(s1, phase);
    RawClosed(s1);
    FlushRawBooks(s2, phase);
    SameCalls(cfg, s, s1, made, phase);
    SameCalls(cfg, s1, s2, made, phase);
    SameCalls(cfg, s2, s3, made, phase);
    CloseToolBooks(cfg, s3, made, phase);
    ThinkingParts(cfg, s);
    ThinkingGrows(cfg, s4, text, phase, made);
  }

  lemma {:induction false} ThinkingParts(cfg: Config, s: State)
    requires HiddenKept(cfg, s) && !cfg.hide
    ensures var s4 := CloseTool(cfg, FlushHiddenRaw(CloseRaw(CloseMessage(s))));
      HiddenKept(cfg, s4) && s4.i.tool.None? && s4.i.raw.None? && s4.i.message.None?
  {
    hide Emit, CallBody;
  }

  lemma {:induction false} ThinkingGrows(cfg: Config, s: State, text: Text, phase: Option<Phase>, made: seq<Call>)
    requires CallsTold(cfg, s, made) && HiddenKept(cfg, s) && s.i.tool.None? && !cfg.hide
    ensures var s' := AppendReasoning(if s.i.reasoning.None? then OpenReasoning(s) else s, text);
      && CallsTold(cfg, s', made) && HiddenKept(cfg, s') && s'.i.tool.None?
      && BooksOf(s', phase) == BooksOf(s, phase).(summaries := BooksOf(s, phase).summaries + text)
  {
    hide Emit, Carries, Texts, Summaries, Raws, Redacted, CallBodies;
  }

  /** Only what waits has changed: the calls are told as before. */
  lemma {:induction false} PendingOnly(cfg: Config, s: State, s': State, made: seq<Call>, phase: Option<Phase>)
    requires CallsTold(cfg, s, made) && s'.i == s.i
    ensures CallsTold(cfg, s', made)
    ensures s'.p.hiddenRaw == s.p.hiddenRaw && s'.p.red == s.p.red ==> BooksOf(s', phase) == BooksOf(s, phase)
  {
  }

  lemma {:induction false} RawTold(cfg: Config, s: State, fed: seq<Event>, text: Text, phase: Option<Phase>)
    requires Told(cfg, s, fed, phase)
    ensures Told(cfg, OnRaw(cfg, s, text), fed + [RawDelta(text)], phase)
  {
    hide CallsTold, Same, CloseMessage, CloseReasoning, CloseTool, OpenRaw, AppendRaw;
    var made := CallsMade(cfg.hide, fed);
    SaidNext(fed, RawDelta(text), phase);
    CallsNext(cfg.hide, fed, RawDelta(text));
    if cfg.hide {
      PendingOnly(cfg, s, OnRaw(cfg, s, text), made, phase);
      HiddenRawGrows(s, OnRaw(cfg, s, text), text, phase);
      return;
    }
    var s1 := CloseMessage(s);
    var s2 := CloseReasoning(s1);
    var s3 := CloseTool(cfg, s2);
    CloseMessageBooks(s, phase);
    CloseReasoningBooks(s1, phase);
    SameCalls(cfg, s, s1, made, phase);
    SameCalls(cfg, s1, s2, made, phase);
    CloseToolBooks(cfg, s2, made, phase);
    RawParts(cfg, s);
    RawGrows(cfg, s3, text, phase, made);
  }

  lemma {:induction false} HiddenRawGrows(s: State, s': State, text: Text, phase: Option<Phase>)
    requires s' == s.(p := s.p.(hiddenRaw := s.p.hiddenRaw + text))
    ensures BooksOf(s', phase) == BooksOf(s, phase).(raws := BooksOf(s, phase).raws + text)
  {
  }

  lemma {:induction false} RawParts(cfg: Config, s: State)
    requires HiddenKept(cfg, s) && !cfg.hide
    ensures var s3 := CloseTool(cfg, CloseReasoning(CloseMessage(s)));
      HiddenKept(cfg, s3) && s3.i.tool.None? && s3.i.reasoning.None? && s3.i.message.None?
  {
    hide Emit, CallBody;
  }

  lemma {:induction false} RawGrows(cfg: Config, s: State, text: Text, phase: Option<Phase>, made: seq<Call>)
    requires CallsTold(cfg, s, made) && HiddenKept(cfg, s) && s.i.tool.None? && !cfg.hide
    ensures var s' := AppendRaw(if s.i.raw.None? then OpenRaw(s) else s, text);
      && CallsTold(cfg, s', made) && HiddenKept(cfg, s') && s'.i.tool.None?
      && BooksOf(s', phase) == BooksOf(s, phase).(raws := BooksOf(s, phase).raws + text)
  {
    hide Emit, Carries, Texts, Summaries, Raws, Redacted, CallBodies;
  }

  lemma {:induction false} CallTold(cfg: Config, s: State, fed: seq<Event>, callId: string, name: string,
          phase: Option<Phase>)
    requires Told(cfg, s, fed, phase)
    ensures Told(cfg, OnToolStart(cfg, s, callId, name), fed + [ToolStart(callId, name)], phase)
  {
    hide Carries, CloseAll, Emit, Texts, Summaries, Raws, Redacted, CallBodies, Announce, Said, Thought, RawThought;
    hide Redactions, CallsMade;
    CloseAllBooks(cfg, s, phase, CallsMade(cfg.hide, fed));
    SaidNext(fed, ToolStart(callId, name), phase);
    CallsNext(cfg.hide, fed, ToolStart(callId, name));
    var s1 := CloseAll(cfg, s);
    AnnounceOnly(s1, CallStarted(cfg.tools, callId, ToolName(cfg.tools, name), ToolNamespace(cfg.tools, name)));
  }

  lemma {:induction false} AnnounceOnly(s: State, body: Body)
    ensures Announce(s, body).i == s.i.(nextId := s.i.nextId + 1) && Announce(s, body).p == s.p
  {
  }

  lemma {:induction false} ArgumentsTold(cfg: Config, s: State, fed: seq<Event>, arguments: Text, phase: Option<Phase>)
    requires Told(cfg, s, fed, phase)
    ensures Told(cfg, OnToolDelta(cfg, s, arguments), fed + [ToolDelta(arguments)], phase)
  {
    hide CallsTold, BooksOf, HiddenKept, OnToolDelta;
    SaidNext(fed, ToolDelta(arguments), phase);
    CallsNext(cfg.hide, fed, ToolDelta(arguments));
    OnlyArguments(cfg, s, arguments, phase);
    ArgumentsGrow(cfg, s, CallsMade(cfg.hide, fed), arguments);
  }

  /** Arguments grow the open call and nothing else. */
  lemma {:induction false} OnlyArguments(cfg: Config, s: State, arguments: Text, phase: Option<Phase>)
    ensures var s' := OnToolDelta(cfg, s, arguments);
      && s'.p == s.p && s'.i == s.i.(tool := s'.i.tool) && (s'.i.tool.Some? <==> s.i.tool.Some?)
      && (s.i.tool.Some? ==>
            var t, t' := s.i.tool.value, s'.i.tool.value;
            t' == t.(args := t.args + arguments, inputEmitted := t'.inputEmitted))
      && BooksOf(s', phase) == BooksOf(s, phase) && (HiddenKept(cfg, s) ==> HiddenKept(cfg, s'))
  {
    hide Emit, Texts, Summaries, Raws, Redacted;
  }

  lemma {:induction false} ArgumentsGrow(cfg: Config, s: State, made: seq<Call>, arguments: Text)
    requires CallsTold(cfg, s, made)
    ensures var s' := OnToolDelta(cfg, s, arguments);
      if s.i.tool.None? then CallsTold(cfg, s', made)
      else
        && made != []
        && CallsTold(cfg, s', made[..|made| - 1] + [made[|made| - 1].(args := made[|made| - 1].args + arguments)])
  {
    hide Carries, OnToolDelta, CallBodies, BooksOf;
    OnlyArguments(cfg, s, arguments, None);
    if s.i.tool.Some? {
      var n := |made| - 1;
      var made' := made[..n] + [made[n].(args := made[n].args + arguments)];
      assert forall k :: 0 <= k < n ==> made'[k] == made[k];
    }
  }

  lemma {:induction false} SignatureTold(cfg: Config, s: State, fed: seq<Event>, signature: Text, phase: Option<Phase>)
    requires Told(cfg, s, fed, phase)
    ensures Told(cfg, OnSignature(s, signature), fed + [ThinkingSignature(signature)], phase)
  {
    hide CallsTold, FlushHiddenEnvelope;
    var made := CallsMade(cfg.hide, fed);
    SaidNext(fed, ThinkingSignature(signature), phase);
    CallsNext(cfg.hide, fed, ThinkingSignature(signature));
    var s1 := s.(p := s.p.(sig := signature));
    PendingOnly(cfg, s, s1, made, phase);
    FlushEnvelopeBooks(s1, phase);
    SameCalls(cfg, s1, FlushHiddenEnvelope(s1), made, phase);
    EnvelopeParts(cfg, s1);
  }

  lemma {:induction false} EnvelopeParts(cfg: Config, s: State)
    requires HiddenKept(cfg, s)
    ensures HiddenKept(cfg, FlushHiddenEnvelope(s)) && FlushHiddenEnvelope(s).i.tool == s.i.tool
    ensures NothingOpen(s.i) ==> NothingOpen(FlushHiddenEnvelope(s).i)
    ensures FlushHiddenEnvelope(s).p.hiddenRaw == s.p.hiddenRaw
  {
    hide Emit;
  }

  lemma {:induction false} ProcessTold(cfg: Config, s: State, fed: seq<Event>, e: Event, phase: Option<Phase>)
    requires Told(cfg, s, fed, phase) && !Final(e)
    ensures Told(cfg, Process(cfg, s, e), fed + [e], phase)
  {
    hide OnText, OnThinking, OnRaw, OnToolStart, OnToolDelta, OnSignature, CloseAll, FlushHiddenEnvelope, CloseTool;
    hide CallsTold, BooksOf, HiddenKept;
    var made := CallsMade(cfg.hide, fed);
    SaidNext(fed, e, phase);
    CallsNext(cfg.hide, fed, e);
    match e {
      case HeartbeatEvent =>
      case Boundary => AllClosed(cfg, s, made, phase);
      case TextDelta(text, to) => TextTold(cfg, s, fed, text, to, phase);
      case ThinkingDelta(text) => ThinkingTold(cfg, s, fed, text, phase);
      case ThinkingSignature(signature) => SignatureTold(cfg, s, fed, signature, phase);
      case RedactedThinking(data) =>
        PendingOnly(cfg, s, Process(cfg, s, e), made, phase);
        RedactedGrows(cfg, s, Process(cfg, s, e), data, phase);
      case RawDelta(text) => RawTold(cfg, s, fed, text, phase);
      case ToolStart(callId, name) => CallTold(cfg, s, fed, callId, name, phase);
      case ToolDelta(arguments) => ArgumentsTold(cfg, s, fed, arguments, phase);
      case ToolEnd =>
        CloseToolBooks(cfg, s, made, phase);
        ToolParts(cfg, s);
    }
  }

  lemma {:induction false} RedactedGrows(cfg: Config, s: State, s': State, data: Text, phase: Option<Phase>)
    requires s' == s.(p := s.p.(red := s.p.red + [data]))
    ensures BooksOf(s', phase) == BooksOf(s, phase).(redacted := BooksOf(s, phase).redacted + [data])
    ensures HiddenKept(cfg, s) ==> HiddenKept(cfg, s')
  {
  }

  /** Everything is closed and flushed. */
  lemma {:induction false} AllClosed(cfg: Config, s: State, made: seq<Call>, phase: Option<Phase>)
    requires CallsTold(cfg, s, made) && HiddenKept(cfg, s)
    ensures var s' := FlushHiddenEnvelope(CloseAll(cfg, s));
      && Settled(cfg, s, s', phase, made) && NothingOpen(s'.i) && s'.p.hiddenRaw == [] && s'.p.red == []
  {
    hide CallsTold, BooksOf, HiddenKept, CloseAll, FlushHiddenEnvelope;
    var s1 := CloseAll(cfg, s);
    CloseAllBooks(cfg, s, phase, made);
    FlushEnvelopeBooks(s1, phase);
    SameCalls(cfg, s1, FlushHiddenEnvelope(s1), made, phase);
    EnvelopeParts(cfg, s1);
  }

  lemma {:induction false} ToolParts(cfg: Config, s: State)
    requires HiddenKept(cfg, s)
    ensures HiddenKept(cfg, CloseTool(cfg, s))
  {
    hide Emit, CallBody;
  }

  // ---- The terminal ----

  /** These items hold all that was said; redacted blocks may be left over unless the turn came to a proper end. */
  ghost predicate Holds(cfg: Config, items: seq<Item>, fed: seq<Event>, phase: Option<Phase>) {
    var made, done := CallsMade(cfg.hide, fed), CallBodies(items);
    && Texts(items, phase) == Said(fed, phase) && (!cfg.hide ==> Summaries(items) == Thought(fed))
    && Raws(items) == RawThought(fed) && Redacted(items) <= Redactions(fed)
    && (fed != [] && (fed[|fed| - 1].Done? || fed[|fed| - 1].Incomplete?) ==> Redacted(items) == Redactions(fed))
    && |done| == |made| && forall k :: 0 <= k < |done| ==> Carries(cfg, made[k], done[k])
  }

  /** These items hold what was said but for the open one. */
  ghost predicate HoldsMost(cfg: Config, items: seq<Item>, fed: seq<Event>, phase: Option<Phase>) {
    var made, done := CallsMade(cfg.hide, fed), CallBodies(items);
    && Texts(items, phase) <= Said(fed, phase) && (!cfg.hide ==> Summaries(items) <= Thought(fed))
    && Raws(items) <= RawThought(fed) && Redacted(items) <= Redactions(fed)
    && |done| <= |made| <= |done| + 1 && forall k :: 0 <= k < |done| ==> Carries(cfg, made[k], done[k])
  }

  ghost predicate Tells(cfg: Config, t: Terminal, fed: seq<Event>, phase: Option<Phase>) {
    if t.detail == ProxyFailure then HoldsMost(cfg, t.output, fed, phase) else Holds(cfg, t.output, fed, phase)
  }

  ghost predicate Kept(cfg: Config, s: State, fed: seq<Event>, phase: Option<Phase>) {
    && OrderInv(s)
    && (!s.w.closed ==> Told(cfg, s, fed, phase) && !EndsFinal(fed))
    && (s.l.reported.Some? ==> Tells(cfg, OrderOf(s.w.frames).value.end.value, fed, phase))
  }

  lemma {:induction false} ClosedHolds(cfg: Config, s: State, s': State, fed: seq<Event>, phase: Option<Phase>)
    requires Told(cfg, s, fed, phase) && Settled(cfg, s, s', phase, CallsMade(cfg.hide, fed))
    requires NothingOpen(s'.i) && s'.p.hiddenRaw == []
    requires fed != [] && (fed[|fed| - 1].Done? || fed[|fed| - 1].Incomplete?) ==> s'.p.red == []
    ensures Holds(cfg, s'.i.finished, fed, phase)
  {
    hide Carries, CallsMade, Said, Thought, RawThought, Redactions, Texts, Summaries, Raws, Redacted, CallBodies;
  }

  lemma {:induction false} FinalHolds(cfg: Config, s: State, fed: seq<Event>, e: Event, phase: Option<Phase>)
    requires Told(cfg, s, fed, phase) && Final(e)
    ensures Holds(cfg, (if e.Error? then CloseAll(cfg, s) else FlushHiddenEnvelope(CloseAll(cfg, s))).i.finished,
      fed + [e], phase)
  {
    hide CloseAll, FlushHiddenEnvelope, CallsTold, HiddenKept, BooksOf;
    var made := CallsMade(cfg.hide, fed);
    SaidNext(fed, e, phase);
    CallsNext(cfg.hide, fed, e);
    var s1 := CloseAll(cfg, s);
    CloseAllBooks(cfg, s, phase, made);
    AllClosed(cfg, s, made, phase);
    ClosedHolds(cfg, s, if e.Error? then s1 else FlushHiddenEnvelope(s1), fed + [e], phase);
  }

  /** After an end without a final event, or a stall. */
  lemma {:induction false} SilentHolds(cfg: Config, s: State, fed: seq<Event>, phase: Option<Phase>)
    requires Told(cfg, s, fed, phase) && !EndsFinal(fed)
    ensures Holds(cfg, CloseAll(cfg, s).i.finished, fed, phase)
  {
    hide CloseAll, CallsTold, HiddenKept, BooksOf;
    CloseAllBooks(cfg, s, phase, CallsMade(cfg.hide, fed));
    ClosedHolds(cfg, s, CloseAll(cfg, s), fed, phase);
  }

  lemma {:induction false} ThrownHolds(cfg: Config, s: State, fed: seq<Event>, phase: Option<Phase>)
    requires Told(cfg, s, fed, phase)
    ensures HoldsMost(cfg, FlushHiddenRaw(s).i.finished, fed, phase)
  {
    hide Carries, CallsMade, Said, Thought, RawThought, Redactions, Texts, Summaries, Raws, Redacted, CallBodies, Emit;
    if s.p.hiddenRaw != [] {
      OneMore(s.i.finished, Item(s.i.nextId, Reasoning(None, Some(Envelope([], [], s.p.hiddenRaw)))), phase);
    }
  }

  // ---- Steps ----

  lemma {:induction false} OpenTells(cfg: Config, s: State, fed: seq<Event>, phase: Option<Phase>)
    requires Kept(cfg, s, fed, phase) && !s.w.closed
    ensures Midway(s) && s.l.reported.None? && !s.l.terminated && !s.l.upstreamDone
    ensures Told(cfg, s, fed, phase) && !EndsFinal(fed)
  {
    hide Told, Tells;
    InvIsMidway(s);
    FlowingHasNoEnd(s.w.frames);
  }

  lemma {:induction false} ToldAside(cfg: Config, s: State, s': State, fed: seq<Event>, phase: Option<Phase>)
    requires Told(cfg, s, fed, phase) && s'.i == s.i && s'.p == s.p
    ensures Told(cfg, s', fed, phase)
  {
  }

  lemma {:induction false} FinalKept(cfg: Config, s: State, fed: seq<Event>, e: Event, phase: Option<Phase>)
    requires Told(cfg, s, fed, phase) && Midway(s) && s.l.reported.None? && Final(e) && !cfg.compaction
    ensures var s' := AfterLoop(cfg, Terminated(Process(cfg, s, e)));
      OrderInv(s') ==> Kept(cfg, s', fed + [e], phase)
  {
    hide CloseAll, FlushHiddenEnvelope, EmitEnd, Concluded, Told, Holds, HoldsMost, AfterLoop, OrderInv, Midway;
    FinalHolds(cfg, s, fed, e, phase);
    CloseAllKeeps(cfg, s);
    CloseAndFlushKeeps(cfg, s);
    var s1, s2 := CloseAll(cfg, s), FlushHiddenEnvelope(CloseAll(cfg, s));
    StillMidway(s, s1);
    StillMidway(s, s2);
    match e {
      case Done(stop, endTurn) =>
        EmitEndShows(s2, Truncated, Reason("max_output_tokens"), endTurn);
        EmitEndShows(s2, Truncated, Reason("content_filter"), endTurn);
        EmitEndShows(s2, Completed, NoDetail, endTurn);
      case Incomplete(reason, endTurn) => EmitEndShows(s2, Truncated, Reason(reason), endTurn);
      case Error(message) => EmitEndShows(s1, Failed, AdapterFailure(message), None);
    }
    EndedLoop(cfg, Process(cfg, s, e));
  }

  lemma {:induction false} StillMidway(s: State, s': State)
    requires Midway(s) && Keeps(s, s') && s.l.reported.None?
    ensures Midway(s') && s'.l.reported.None?
  {
    KeepsMidway(s, s');
  }

  lemma {:induction false} EventKept(cfg: Config, s: State, fed: seq<Event>, e: Event, at: int, phase: Option<Phase>)
    requires Kept(cfg, s, fed, phase) && s.l.stepping && !s.w.closed && !cfg.compaction
    ensures Kept(cfg, Deliver(cfg, s, e, at), fed + [e], phase)
  {
    hide Process, AfterLoop, LoopHead, OrderInv, Told, Tells, Midway;
    OpenTells(cfg, s, fed, phase);
    DeliverKeepsOrder(cfg, s, e, at);
    var s0 := s.(l := s.l.(lastAt := at));
    ToldAside(cfg, s, s0, fed, phase);
    MidwayLater(s, s0);
    if Final(e) {
      FinalKept(cfg, s0, fed, e, phase);
    } else {
      ProcessTold(cfg, s0, fed, e, phase);
      ProcessKeeps(cfg, s0, e);
      var s1 := Process(cfg, s0, e);
      PumpIsQuiet(cfg, s1);
      ToldAside(cfg, s1, LoopHead(cfg, s1), fed + [e], phase);
    }
  }

  lemma {:induction false} MidwayLater(s: State, s': State)
    requires Midway(s) && s'.w == s.w && s'.l.reported == s.l.reported && s'.l.cancelled == s.l.cancelled
      && s'.l.terminated == s.l.terminated
    ensures Midway(s')
  {
  }

  lemma {:induction false} EndKept(cfg: Config, s: State, fed: seq<Event>, phase: Option<Phase>)
    requires Kept(cfg, s, fed, phase) && s.l.stepping && !s.w.closed
    ensures Kept(cfg, UpstreamEnd(cfg, s), fed, phase)
  {
    hide CloseAll, EmitEnd, Shut, Told, Holds, HoldsMost, Concluded, Midway, OrderInv;
    OpenTells(cfg, s, fed, phase);
    NextKeepsOrder(cfg, s, EndInput);
    var s1 := s.(l := s.l.(upstreamDone := true, beat := false));
    ToldAside(cfg, s, s1, fed, phase);
    MidwayLater(s, s1);
    SilentHolds(cfg, s1, fed, phase);
    CloseAllKeeps(cfg, s1);
    StillMidway(s1, CloseAll(cfg, s1));
    EmitEndShows(CloseAll(cfg, s1), Truncated, Reason("adapter_eof"), None);
    var ended := EmitEnd(CloseAll(cfg, s1), Truncated, Reason("adapter_eof"), None);
    ConcludedLater(ended, ended.(l := ended.l.(terminated := true)));
    ShutKeepsEnd(ended.(l := ended.l.(terminated := true)));
    ShutCloses(ended.(l := ended.l.(terminated := true)));
  }

  lemma {:induction false} ConcludedLater(s: State, s': State)
    requires Concluded(s) && s'.w == s.w && s'.l.reported == s.l.reported && s'.l.cancelled == s.l.cancelled
    ensures Concluded(s')
  {
  }

  lemma {:induction false} ShutCloses(s: State)
    ensures Shut(s).w.closed && Shut(s).l == s.l
  {
  }

  lemma {:induction false} ThrowKept(cfg: Config, s: State, fed: seq<Event>, phase: Option<Phase>)
    requires Kept(cfg, s, fed, phase) && s.l.stepping && !s.w.closed
    ensures Kept(cfg, UpstreamThrow(cfg, s), fed, phase)
  {
    hide FlushHiddenRaw, EmitEnd, AfterLoop, Told, Holds, HoldsMost, Concluded, Midway, OrderInv;
    OpenTells(cfg, s, fed, phase);
    NextKeepsOrder(cfg, s, ThrowInput);
    ThrownHolds(cfg, s, fed, phase);
    FlushKeeps(s);
    StillMidway(s, FlushHiddenRaw(s));
    EmitEndShows(FlushHiddenRaw(s), Failed, ProxyFailure, None);
    EndedLoop(cfg, EmitEnd(FlushHiddenRaw(s), Failed, ProxyFailure, None));
  }

  lemma {:induction false} TickKept(cfg: Config, s: State, fed: seq<Event>, at: int, phase: Option<Phase>)
    requires Kept(cfg, s, fed, phase) && !s.w.closed
    ensures Kept(cfg, Tick(cfg, s, at), fed, phase)
  {
    hide CloseAll, EmitEnd, Shut, Told, Holds, HoldsMost, Concluded, Midway, OrderInv;
    OpenTells(cfg, s, fed, phase);
    NextKeepsOrder(cfg, s, TickInput(at));
    if s.l.beat && !s.l.gated && at - s.l.lastAt >= cfg.stallMs {
      SilentHolds(cfg, s, fed, phase);
      CloseAllKeeps(cfg, s);
      StillMidway(s, CloseAll(cfg, s));
      EmitEndShows(CloseAll(cfg, s), Truncated, Reason("upstream_stall_timeout"), None);
      var ended := EmitEnd(CloseAll(cfg, s), Truncated, Reason("upstream_stall_timeout"), None);
      ShutKeepsEnd(ended);
      ShutCloses(ended);
    } else {
      ToldAside(cfg, s, Tick(cfg, s, at), fed, phase);
    }
  }

  lemma {:induction false} NextKept(cfg: Config, s: State, fed: seq<Event>, x: Input, phase: Option<Phase>)
    requires Kept(cfg, s, fed, phase) && !cfg.compaction
    ensures Kept(cfg, Next(cfg, s, x), if x.EventInput? && s.l.stepping && !s.w.closed then fed + [x.event] else fed,
      phase)
  {
    hide Told, Tells, AfterLoop, LoopHead, Process, OrderInv, CloseAll, FlushHiddenRaw, EmitEnd, Shut;
    NextKeepsOrder(cfg, s, x);
    if s.w.closed {
      ClosedKept(cfg, s, fed, x, phase);
    } else {
      OpenTells(cfg, s, fed, phase);
      match x {
        case PullInput =>
          var s0 := s.(l := s.l.(stepping := true, gated := false, emittedAtStart := s.w.emitted));
          PumpIsQuiet(cfg, s0);
          ToldAside(cfg, s, LoopHead(cfg, s0), fed, phase);
        case EventInput(e, at) => if s.l.stepping { EventKept(cfg, s, fed, e, at, phase); }
        case EndInput => if s.l.stepping { EndKept(cfg, s, fed, phase); }
        case ThrowInput => if s.l.stepping { ThrowKept(cfg, s, fed, phase); }
        case TickInput(at) => TickKept(cfg, s, fed, at, phase);
        case CancelInput =>
        case TearInput(room) => ToldAside(cfg, s, TearDown(s, room), fed, phase);
      }
    }
  }

  lemma {:induction false} ClosedKept(cfg: Config, s: State, fed: seq<Event>, x: Input, phase: Option<Phase>)
    requires Kept(cfg, s, fed, phase) && s.w.closed
    ensures Kept(cfg, Next(cfg, s, x), fed, phase)
  {
    hide Next, Tells, Told, OrderInv;
    NextKeepsOrder(cfg, s, x);
  }

  lemma {:induction false} StartKept(cfg: Config, now: int, phase: Option<Phase>)
    requires !cfg.compaction
    ensures Kept(cfg, Run(cfg, now, []), Fed(cfg, now, []), phase)
  {
    hide Next;
    OrderOfSnoc([], Sent(Some(0), Created));
  }

  lemma {:induction false} RunKept(cfg: Config, now: int, xs: seq<Input>, phase: Option<Phase>)
    requires !cfg.compaction
    ensures Kept(cfg, Run(cfg, now, xs), Fed(cfg, now, xs), phase)
  {
    hide Next, Kept;
    if xs == [] {
      StartKept(cfg, now, phase);
    } else {
      var init := xs[..|xs| - 1];
      RunKept(cfg, now, init, phase);
      assert Fed(cfg, now, init) + [] == Fed(cfg, now, init);
      NextKept(cfg, Run(cfg, now, init), Fed(cfg, now, init), xs[|xs| - 1], phase);
    }
  }

  /**
   * Over every run, shown or hidden, signed or not: a terminal that no upstream throw caused lists items that hold
   * exactly what the adapter said. The texts of each phase, the visible thoughts and the raw thoughts are all there, in
   * order; every call is there once, in order, under its real name and with all its arguments; and after a proper end
   * every redacted block is in an envelope. A throw loses at most what was open.
   */
  lemma {:induction false} ResponseHoldsWhatWasSaid(cfg: Config, now: int, xs: seq<Input>, phase: Option<Phase>)
    requires !cfg.compaction && Run(cfg, now, xs).l.reported.Some?
    ensures |Terminals(Run(cfg, now, xs).w.frames)| == 1
    ensures Tells(cfg, Terminals(Run(cfg, now, xs).w.frames)[0], Fed(cfg, now, xs), phase)
  {
    hide Tells, Told, OrderInv;
    RunKept(cfg, now, xs, phase);
    RunKeepsOrder(cfg, now, xs);
    OrderedTerminals(Run(cfg, now, xs));
  }

  lemma {:induction false} OrderedTerminals(s: State)
    requires OrderInv(s) && s.l.reported.Some?
    ensures Terminals(s.w.frames) == [OrderOf(s.w.frames).value.end.value]
  {
    OrderCounts(s.w.frames);
  }
}
