/** The non-streaming translation of the same adapter events into one response object. */
module Batch {
  import opened Common
  import opened Bridge

  /** The accumulators of the translation; an empty text or call id means nothing is pending. */
  datatype Acc = Acc(
    output: seq<Body>,
    text: Text,
    phase: Option<Phase>,
    summary: Text,
    raw: Text,
    sig: Text,
    red: seq<Text>,
    callId: string,
    callName: string,
    callArgs: Text,
    error: Option<string>,
    incomplete: Option<string>,
    endTurn: Option<bool>,
    maxTokens: bool,
    compaction: Text)

  datatype Response = Response(
    status: Status, output: seq<Body>, error: Option<string>, reason: Option<string>, endTurn: Option<bool>)

  const EMPTY: Acc := Acc([], [], None, [], [], [], [], "", "", [], None, None, None, false, [])

  function FlushText(a: Acc): Acc {
    if a.text == [] then a
    else a.(output := a.output + [Message(a.text, a.phase)], text := [], phase := None)
  }

  function SummaryEnvelope(cfg: Config, a: Acc): Option<Envelope> {
    if a.sig == [] && a.red == [] then None
    else Some(Envelope(a.sig, a.red, if cfg.hide then a.summary else []))
  }

  function FlushSummary(cfg: Config, a: Acc): Acc {
    var encrypted := SummaryEnvelope(cfg, a);
    if a.summary == [] && encrypted == None then a
    else
      var cleared := a.(sig := [], red := [], summary := []);
      if cfg.hide && encrypted.None? then cleared
      else cleared.(output := a.output
          + [Reasoning(if !cfg.hide && a.summary != [] then Some(a.summary) else None, encrypted)])
  }

  function FlushRaw(cfg: Config, a: Acc): Acc {
    if a.raw == [] then a
    else
      var body := if cfg.hide then Reasoning(None, Some(Envelope([], [], a.raw))) else RawReasoning(a.raw);
      a.(output := a.output + [body], raw := [])
  }

  function FlushCall(cfg: Config, a: Acc): Acc {
    if a.callId == "" then a
    else
      var body := CallBody(cfg.tools, a.callId, ToolName(cfg.tools, a.callName), ToolNamespace(cfg.tools, a.callName),
          a.callArgs);
      a.(output := a.output + [body], callId := "", callName := "", callArgs := [])
  }

  function FlushAll(cfg: Config, a: Acc): Acc {
    FlushCall(cfg, FlushRaw(cfg, FlushSummary(cfg, FlushText(a))))
  }

  function FlushPending(cfg: Config, a: Acc): Acc {
    if a.summary != [] then FlushSummary(cfg, a) else a
  }

  function OnEvent(cfg: Config, a: Acc, e: Event): Acc {
    match e
    case HeartbeatEvent => a
    case Boundary => FlushAll(cfg, a)
    case TextDelta(text, phase) =>
      var a1 := FlushPending(cfg, if a.text != [] && a.phase != phase then FlushText(a) else a);
      var a2 := FlushCall(cfg, FlushRaw(cfg, a1));
      if cfg.compaction then a2.(compaction := a2.compaction + text) else a2.(phase := phase, text := a2.text + text)
    case ThinkingDelta(text) =>
      var a1 := FlushCall(cfg, FlushRaw(cfg, FlushText(a)));
      a1.(summary := a1.summary + text)
    case ThinkingSignature(signature) => FlushSummary(cfg, a.(sig := signature))
    case RedactedThinking(data) => a.(red := a.red + [data])
    case RawDelta(text) =>
      var a1 := FlushCall(cfg, FlushPending(cfg, FlushText(a)));
      a1.(raw := a1.raw + text)
    case ToolStart(callId, name) =>
      var a1 := FlushCall(cfg, FlushRaw(cfg, FlushPending(cfg, FlushText(a))));
      a1.(callId := callId, callName := name, callArgs := [])
    case ToolDelta(arguments) => a.(callArgs := a.callArgs + arguments)
    case ToolEnd => FlushCall(cfg, a)
    case Done(stop, endTurn) => a.(endTurn := endTurn, maxTokens := a.maxTokens || stop == MaxTokens)
    case Incomplete(reason, endTurn) => a.(incomplete := Some(reason), endTurn := endTurn)
    case Error(message) => a.(error := Some(message))
  }

  function Accumulate(cfg: Config, events: seq<Event>): Acc {
    if events == [] then EMPTY else OnEvent(cfg, Accumulate(cfg, events[..|events| - 1]), events[|events| - 1])
  }

  function ResponseOf(cfg: Config, acc: Acc): Response {
    var a := FlushAll(cfg, acc);
    var whole := a.error.None? && a.incomplete.None? && !a.maxTokens;
    Response(
      if a.error.Some? then Failed else if a.incomplete.Some? || a.maxTokens then Truncated else Completed,
      if cfg.compaction && whole then a.output + [Compaction(a.compaction)] else a.output,
      a.error,
      if a.incomplete.Some? then a.incomplete else if a.maxTokens then Some("max_output_tokens") else None,
      a.endTurn)
  }

  /** The closure variables of the translation and the flushes that update them. */
  class Builder {
    const cfg: Config
    var output: seq<Body>
    var currentText: Text
    var currentTextPhase: Option<Phase>
    var currentSummary: Text
    var currentRaw: Text
    var batchSignature: Text
    var batchRedacted: seq<Text>
    var currentCallId: string
    var currentCallName: string
    var currentCallArgs: Text
    var errorEvent: Option<string>
    var incompleteEvent: Option<string>
    var endTurn: Option<bool>
    var maxTokens: bool
    var compactionText: Text

    ghost function View(): Acc
      reads this
    {
      Acc(output, currentText, currentTextPhase, currentSummary, currentRaw, batchSignature, batchRedacted,
          currentCallId, currentCallName, currentCallArgs, errorEvent, incompleteEvent, endTurn, maxTokens,
              compactionText)
    }

    constructor (cfg: Config)
      ensures View() == EMPTY && this.cfg == cfg
    {
      this.cfg := cfg;
      output, currentText, currentTextPhase, currentSummary, currentRaw := [], [], None, [], [];
      batchSignature, batchRedacted := [], [];
      currentCallId, currentCallName, currentCallArgs := "", "", [];
      errorEvent, incompleteEvent, endTurn, maxTokens, compactionText := None, None, None, false, [];
    }

    method FlushTextNow()
      modifies this
      ensures View() == FlushText(old(View()))
    {
      if currentText == [] {
        return;
      }
      output := output + [Message(currentText, currentTextPhase)];
      currentText := [];
      currentTextPhase := None;
    }

    method FlushSummaryNow()
      modifies this
      ensures View() == FlushSummary(cfg, old(View()))
    {
      if currentSummary == [] && batchSignature == [] && batchRedacted == [] {
        return;
      }
      var encrypted: Option<Envelope> := None;
      if batchSignature != [] || batchRedacted != [] {
        encrypted := Some(Envelope(batchSignature, batchRedacted, if cfg.hide then currentSummary else []));
      }
      batchSignature := [];
      batchRedacted := [];
      if cfg.hide && encrypted.None? {
        currentSummary := [];
        return;
      }
      output := output
          + [Reasoning(if !cfg.hide && currentSummary != [] then Some(currentSummary) else None, encrypted)];
      currentSummary := [];
    }

    method FlushPendingNow()
      modifies this
      ensures View() == FlushPending(cfg, old(View()))
    {
      if currentSummary != [] {
        FlushSummaryNow();
      }
    }

    method FlushRawNow()
      modifies this
      ensures View() == FlushRaw(cfg, old(View()))
    {
      if currentRaw == [] {
        return;
      }
      if cfg.hide {
        output := output + [Reasoning(None, Some(Envelope([], [], currentRaw)))];
      } else {
        output := output + [RawReasoning(currentRaw)];
      }
      currentRaw := [];
    }

    method FlushCallNow()
      modifies this
      ensures View() == FlushCall(cfg, old(View()))
    {
      if currentCallId == "" {
        return;
      }
      var realName, ns := ToolName(cfg.tools, currentCallName), ToolNamespace(cfg.tools, currentCallName);
      if IsSearch(cfg.tools, realName) {
        output := output + [SearchCall(currentCallId, cfg.tools.parseObject(currentCallArgs))];
      } else if IsFreeform(cfg.tools, realName) {
        output := output + [CustomCall(currentCallId, realName, cfg.tools.unwrap(currentCallArgs))];
      } else {
        output := output + [FunctionBody(currentCallId, realName, ArgumentsOrEmpty(currentCallArgs), ns)];
      }
      currentCallId, currentCallName, currentCallArgs := "", "", [];
    }

    method FlushAllNow()
      modifies this
      ensures View() == FlushAll(cfg, old(View()))
    {
      FlushTextNow();
      FlushSummaryNow();
      FlushRawNow();
      FlushCallNow();
    }

    method TakeText(text: Text, phase: Option<Phase>)
      modifies this
      ensures View() == OnEvent(cfg, old(View()), TextDelta(text, phase))
    {
      hide FlushText, FlushPending, FlushRaw, FlushCall;
      if currentText != [] && currentTextPhase != phase {
        FlushTextNow();
      }
      FlushPendingNow();
      FlushRawNow();
      FlushCallNow();
      if cfg.compaction {
        compactionText := compactionText + text;
      } else {
        currentTextPhase := phase;
        currentText := currentText + text;
      }
    }

    method TakeThinking(text: Text)
      modifies this
      ensures View() == OnEvent(cfg, old(View()), ThinkingDelta(text))
    {
      hide FlushText, FlushRaw, FlushCall;
      FlushTextNow();
      FlushRawNow();
      FlushCallNow();
      currentSummary := currentSummary + text;
    }

    method TakeRaw(text: Text)
      modifies this
      ensures View() == OnEvent(cfg, old(View()), RawDelta(text))
    {
      hide FlushText, FlushPending, FlushCall;
      FlushTextNow();
      FlushPendingNow();
      FlushCallNow();
      currentRaw := currentRaw + text;
    }

    method TakeToolStart(callId: string, name: string)
      modifies this
      ensures View() == OnEvent(cfg, old(View()), ToolStart(callId, name))
    {
      hide FlushText, FlushPending, FlushRaw, FlushCall;
      FlushTextNow();
      FlushPendingNow();
      FlushRawNow();
      FlushCallNow();
      currentCallId, currentCallName, currentCallArgs := callId, name, [];
    }

    method Take(e: Event)
      modifies this
      ensures View() == OnEvent(cfg, old(View()), e)
    {
      hide FlushText, FlushPending, FlushSummary, FlushRaw, FlushCall, FlushAll;
      match e {
        case HeartbeatEvent =>
        case Boundary => FlushAllNow();
        case TextDelta(text, phase) => TakeText(text, phase);
        case ThinkingDelta(text) => TakeThinking(text);
        case ThinkingSignature(signature) =>
          batchSignature := signature;
          FlushSummaryNow();
        case RedactedThinking(data) =>
          batchRedacted := batchRedacted + [data];
        case RawDelta(text) => TakeRaw(text);
        case ToolStart(callId, name) => TakeToolStart(callId, name);
        case ToolDelta(arguments) =>
          currentCallArgs := currentCallArgs + arguments;
        case ToolEnd => FlushCallNow();
        case Done(stop, turn) =>
          endTurn := turn;
          if stop == MaxTokens {
            maxTokens := true;
          }
        case Incomplete(reason, turn) =>
          incompleteEvent := Some(reason);
          endTurn := turn;
        case Error(message) =>
          errorEvent := Some(message);
      }
    }
  }

  /** The whole translation: a loop over the events, the final flushes, then the response. */
  method BuildResponse(cfg: Config, events: seq<Event>) returns (response: Response)
    ensures response == ResponseOf(cfg, Accumulate(cfg, events))
  {
    var b := new Builder(cfg);
    for n := 0 to |events|
      invariant b.cfg == cfg && b.View() == Accumulate(cfg, events[..n])
    {
      b.Take(events[n]);
      assert events[..n + 1][..n] == events[..n];
    }
    assert events[..|events|] == events;
    b.FlushAllNow();
    var output := b.output;
    if cfg.compaction && b.errorEvent.None? && b.incompleteEvent.None? && !b.maxTokens {
      output := output + [Compaction(b.compactionText)];
    }
    response := Response(
      if b.errorEvent.Some? then Failed else if b.incompleteEvent.Some? || b.maxTokens then Truncated else Completed,
      output,
      b.errorEvent,
      if b.incompleteEvent.Some? then b.incompleteEvent else if b.maxTokens then Some("max_output_tokens") else None,
      b.endTurn);
  }
}
