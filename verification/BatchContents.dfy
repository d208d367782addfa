/**
 * What the batch translation holds, told from the events alone, by the same books as the stream's: texts, thoughts, raw
 * thoughts, redacted blocks, signatures and calls.
 */
module BatchContents {
  import opened Common
  import opened Bridge
  import opened BridgeContents
  import BridgeSeals
  import opened Batch

  /** Bodies as items, for the books. */
  function AsItems(bodies: seq<Body>): seq<Item> {
    seq(|bodies|, i requires 0 <= i < |bodies| => Item(0, bodies[i]))
  }

  lemma {:induction false} OneMoreBody(bodies: seq<Body>, b: Body, phase: Option<Phase>)
    ensures Texts(AsItems(bodies + [b]), phase) == Texts(AsItems(bodies), phase) + TextIn(b, phase)
    ensures Summaries(AsItems(bodies + [b])) == Summaries(AsItems(bodies)) + SummaryIn(b)
    ensures Raws(AsItems(bodies + [b])) == Raws(AsItems(bodies)) + RawIn(b)
    ensures Redacted(AsItems(bodies + [b])) == Redacted(AsItems(bodies)) + RedactedIn(b)
    ensures CallBodies(AsItems(bodies + [b])) == CallBodies(AsItems(bodies)) + if IsCall(b) then [b] else []
  {
    OneMore(AsItems(bodies), Item(0, b), phase);
    assert AsItems(bodies + [b]) == AsItems(bodies) + [Item(0, b)];
  }

  function BooksOfAcc(cfg: Config, a: Acc, phase: Option<Phase>): Books {
    var items := AsItems(a.output);
    Books(Texts(items, phase) + (if a.phase == phase then a.text else []),
          Summaries(items) + (if cfg.hide then [] else a.summary), Raws(items) + a.raw, Redacted(items) + a.red)
  }

  /** The calls made under a visible id. */
  function Identified(calls: seq<Call>): seq<Call> {
    if calls == [] then []
    else
      var c := calls[|calls| - 1];
      Identified(calls[..|calls| - 1]) + if c.callId != "" then [c] else []
  }

  lemma {:induction false} OneMoreCall(calls: seq<Call>, c: Call)
    ensures Identified(calls + [c]) == Identified(calls) + if c.callId != "" then [c] else []
  {
    assert (calls + [c])[..|calls|] == calls;
  }

  /** The finished calls, and the open one, are the calls made under a visible id. */
  ghost predicate CallsBooked(cfg: Config, a: Acc, made: seq<Call>) {
    var done := CallBodies(AsItems(a.output));
    && |made| == |done| + (if a.callId != "" then 1 else 0)
    && (forall k :: 0 <= k < |done| ==> Carries(cfg, made[k], done[k]))
    && (a.callId != "" ==> made[|done|] == Call(a.callId, a.callName, a.callArgs))
  }

  predicate SameBooks(cfg: Config, a: Acc, a': Acc, phase: Option<Phase>) {
    && BooksOfAcc(cfg, a', phase) == BooksOfAcc(cfg, a, phase)
    && CallBodies(AsItems(a'.output)) == CallBodies(AsItems(a.output))
    && a'.callId == a.callId && a'.callName == a.callName && a'.callArgs == a.callArgs
  }

  lemma {:induction false} FlushTextBooks(cfg: Config, a: Acc, phase: Option<Phase>)
    ensures SameBooks(cfg, a, FlushText(a), phase) && FlushText(a).text == []
  {
    hide Texts, Summaries, Raws, Redacted, CallBodies, AsItems;
    OneMoreBody(a.output, Message(a.text, a.phase), phase);
  }

  lemma {:induction false} FlushSummaryBooks(cfg: Config, a: Acc, phase: Option<Phase>)
    ensures SameBooks(cfg, a, FlushSummary(cfg, a), phase)
    ensures FlushSummary(cfg, a).summary == [] && FlushSummary(cfg, a).sig == [] && FlushSummary(cfg, a).red == []
  {
    hide Texts, Summaries, Raws, Redacted, CallBodies, AsItems;
    var encrypted := SummaryEnvelope(cfg, a);
    OneMoreBody(a.output,
        Reasoning(if !cfg.hide && a.summary != [] then Some(a.summary) else None, encrypted), phase);
  }

  lemma {:induction false} FlushRawBooks(cfg: Config, a: Acc, phase: Option<Phase>)
    ensures SameBooks(cfg, a, FlushRaw(cfg, a), phase) && FlushRaw(cfg, a).raw == []
  {
    hide Texts, Summaries, Raws, Redacted, CallBodies, AsItems;
    OneMoreBody(a.output,
        if cfg.hide then Reasoning(None, Some(Envelope([], [], a.raw))) else RawReasoning(a.raw), phase);
  }

  lemma {:induction false} FlushCallBooks(cfg: Config, a: Acc, made: seq<Call>, phase: Option<Phase>)
    requires CallsBooked(cfg, a, made)
    ensures CallsBooked(cfg, FlushCall(cfg, a), made) && FlushCall(cfg, a).callId == ""
    ensures BooksOfAcc(cfg, FlushCall(cfg, a), phase) == BooksOfAcc(cfg, a, phase)
  {
    hide Carries, CallBody, Texts, Summaries, Raws, Redacted, CallBodies, AsItems, ToolName, ToolNamespace;
    if a.callId != "" {
      RealNames(cfg, a.callName);
      var realName, ns := ToolName(cfg.tools, a.callName), ToolNamespace(cfg.tools, a.callName);
      var t := OpenTool(0, 0, a.callId, realName, a.callArgs, ns, []);
      ClosedCarries(cfg, Call(a.callId, a.callName, a.callArgs), t);
      CallHoldsNoText(cfg, t, phase);
      OneMoreBody(a.output, CallBody(cfg.tools, a.callId, realName, ns, a.callArgs), phase);
    }
  }

  lemma {:induction false} RealNames(cfg: Config, name: string)
    ensures Maps(cfg.tools, name, ToolName(cfg.tools, name), ToolNamespace(cfg.tools, name))
  {
  }

  lemma {:induction false} StillBooked(cfg: Config, a: Acc, a': Acc, made: seq<Call>, phase: Option<Phase>)
    requires CallsBooked(cfg, a, made) && SameBooks(cfg, a, a', phase)
    ensures CallsBooked(cfg, a', made) && BooksOfAcc(cfg, a', phase) == BooksOfAcc(cfg, a, phase)
  {
    hide Carries;
  }

  // ---- Event by event ----

  ghost predicate Booked(cfg: Config, a: Acc, fed: seq<Event>, phase: Option<Phase>) {
    var b := BooksOfAcc(cfg, a, phase);
    && b.texts == Said(fed, phase) && (!cfg.hide ==> b.summaries == Thought(fed))
    && b.raws == RawThought(fed) && b.redacted == Redactions(fed)
    && CallsBooked(cfg, a, Identified(CallsMade(false, fed)))
    && (a.callId != "" ==> Calling(false, fed)) && (Calling(false, fed) ==> CallsMade(false, fed) != [])
    && (Calling(false, fed) ==> CallsMade(false, fed)[|CallsMade(false, fed)| - 1].callId == a.callId)
  }

  /** Nothing of what was said is lost by these flushes. */
  ghost predicate Flushed(cfg: Config, a: Acc, a': Acc, made: seq<Call>, phase: Option<Phase>) {
    BooksOfAcc(cfg, a', phase) == BooksOfAcc(cfg, a, phase) && CallsBooked(cfg, a', made)
  }

  lemma {:induction false} FlushPendingBooks(cfg: Config, a: Acc, made: seq<Call>, phase: Option<Phase>)
    requires CallsBooked(cfg, a, made)
    ensures Flushed(cfg, a, FlushPending(cfg, a), made, phase) && FlushPending(cfg, a).callId == a.callId
    ensures FlushPending(cfg, a).text == a.text && FlushPending(cfg, a).phase == a.phase
    ensures FlushPending(cfg, a).raw == a.raw && FlushPending(cfg, a).summary == []
  {
    hide BooksOfAcc, CallsBooked;
    FlushSummaryBooks(cfg, a, phase);
    StillBooked(cfg, a, FlushSummary(cfg, a), made, phase);
  }

  lemma {:induction false} FlushTextFlushes(cfg: Config, a: Acc, made: seq<Call>, phase: Option<Phase>)
    requires CallsBooked(cfg, a, made)
    ensures Flushed(cfg, a, FlushText(a), made, phase) && FlushText(a).text == []
    ensures FlushText(a).summary == a.summary && FlushText(a).raw == a.raw && FlushText(a).callId == a.callId
  {
    hide BooksOfAcc, CallsBooked;
    FlushTextBooks(cfg, a, phase);
    StillBooked(cfg, a, FlushText(a), made, phase);
  }

  lemma {:induction false} FlushRawFlushes(cfg: Config, a: Acc, made: seq<Call>, phase: Option<Phase>)
    requires CallsBooked(cfg, a, made)
    ensures Flushed(cfg, a, FlushRaw(cfg, a), made, phase) && FlushRaw(cfg, a).raw == []
    ensures FlushRaw(cfg, a).summary == a.summary && FlushRaw(cfg, a).text == a.text
    ensures FlushRaw(cfg, a).phase == a.phase && FlushRaw(cfg, a).callId == a.callId
  {
    hide BooksOfAcc, CallsBooked;
    FlushRawBooks(cfg, a, phase);
    StillBooked(cfg, a, FlushRaw(cfg, a), made, phase);
  }

  lemma {:induction false} FlushCallFlushes(cfg: Config, a: Acc, made: seq<Call>, phase: Option<Phase>)
    requires CallsBooked(cfg, a, made)
    ensures Flushed(cfg, a, FlushCall(cfg, a), made, phase) && FlushCall(cfg, a).callId == ""
    ensures FlushCall(cfg, a).summary == a.summary && FlushCall(cfg, a).text == a.text
    ensures FlushCall(cfg, a).phase == a.phase && FlushCall(cfg, a).raw == a.raw
  {
    hide BooksOfAcc, CallsBooked;
    FlushCallBooks(cfg, a, made, phase);
  }

  /** Every flush, as at a boundary or at the end. */
  lemma {:induction false} FlushAllFlushes(cfg: Config, a: Acc, made: seq<Call>, phase: Option<Phase>)
    requires CallsBooked(cfg, a, made)
    ensures var a' := FlushAll(cfg, a);
      && Flushed(cfg, a, a', made, phase) && a'.callId == "" && a'.text == [] && a'.summary == [] && a'.raw == []
      && a'.red == []
  {
    hide BooksOfAcc, CallsBooked, FlushText, FlushSummary, FlushRaw, FlushCall;
    var a1 := FlushText(a);
    var a2 := FlushSummary(cfg, a1);
    var a3 := FlushRaw(cfg, a2);
    FlushTextFlushes(cfg, a, made, phase);
    FlushSummaryBooks(cfg, a1, phase);
    StillBooked(cfg, a1, a2, made, phase);
    FlushRawFlushes(cfg, a2, made, phase);
    FlushCallFlushes(cfg, a3, made, phase);
    FlushesKeepRed(cfg, a2);
    SummaryKeepsText(cfg, a1);
  }

  lemma {:induction false} FlushesKeepRed(cfg: Config, a: Acc)
    ensures FlushCall(cfg, FlushRaw(cfg, a)).red == a.red
  {
  }

  lemma {:induction false} SummaryKeepsText(cfg: Config, a: Acc)
    ensures FlushSummary(cfg, a).text == a.text && FlushSummary(cfg, a).phase == a.phase
    ensures FlushSummary(cfg, a).raw == a.raw && FlushSummary(cfg, a).callId == a.callId
  {
  }

  lemma {:induction false} TextBooked(cfg: Config, a: Acc, fed: seq<Event>, text: Text, to: Option<Phase>,
          phase: Option<Phase>)
    requires Booked(cfg, a, fed, phase) && !cfg.compaction
    ensures Booked(cfg, OnEvent(cfg, a, TextDelta(text, to)), fed + [TextDelta(text, to)], phase)
  {
    hide BooksOfAcc, CallsBooked, FlushText, FlushPending, FlushRaw, FlushCall, Identified;
    var e, made := TextDelta(text, to), Identified(CallsMade(false, fed));
    SaidNext(fed, e, phase);
    CallsNext(false, fed, e);
    var a1 := if a.text != [] && a.phase != to then FlushText(a) else a;
    var a2 := FlushPending(cfg, a1);
    var a3 := FlushRaw(cfg, a2);
    var a4 := FlushCall(cfg, a3);
    FlushTextFlushes(cfg, a, made, phase);
    FlushPendingBooks(cfg, a1, made, phase);
    FlushRawFlushes(cfg, a2, made, phase);
    FlushCallFlushes(cfg, a3, made, phase);
    TextGrows(cfg, a4, text, to, phase, made);
  }

  lemma {:induction false} TextGrows(cfg: Config, a: Acc, text: Text, to: Option<Phase>, phase: Option<Phase>,
          made: seq<Call>)
    requires CallsBooked(cfg, a, made) && (a.text == [] || a.phase == to)
    ensures var a' := a.(phase := to, text := a.text + text);
      && CallsBooked(cfg, a', made)
      && BooksOfAcc(cfg, a', phase) == BooksOfAcc(cfg, a, phase).(
           texts := BooksOfAcc(cfg, a, phase).texts + (if to == phase then text else []))
  {
    hide Carries, Texts, Summaries, Raws, Redacted, CallBodies;
  }

  lemma {:induction false} ThinkingBooked(cfg: Config, a: Acc, fed: seq<Event>, text: Text, phase: Option<Phase>)
    requires Booked(cfg, a, fed, phase)
    ensures Booked(cfg, OnEvent(cfg, a, ThinkingDelta(text)), fed + [ThinkingDelta(text)], phase)
  {
    hide BooksOfAcc, CallsBooked, FlushText, FlushRaw, FlushCall, Identified;
    var e, made := ThinkingDelta(text), Identified(CallsMade(false, fed));
    SaidNext(fed, e, phase);
    CallsNext(false, fed, e);
    var a1 := FlushText(a);
    var a2 := FlushRaw(cfg, a1);
    FlushTextFlushes(cfg, a, made, phase);
    FlushRawFlushes(cfg, a1, made, phase);
    FlushCallFlushes(cfg, a2, made, phase);
    PendingGrows(cfg, FlushCall(cfg, a2), text, phase, made);
  }

  lemma {:induction false} PendingGrows(cfg: Config, a: Acc, text: Text, phase: Option<Phase>, made: seq<Call>)
    requires CallsBooked(cfg, a, made)
    ensures var a', b := a.(summary := a.summary + text), BooksOfAcc(cfg, a, phase);
      && CallsBooked(cfg, a', made)
      && BooksOfAcc(cfg, a', phase) == (if cfg.hide then b else b.(summaries := b.summaries + text))
    ensures var a', b := a.(raw := a.raw + text), BooksOfAcc(cfg, a, phase);
      CallsBooked(cfg, a', made) && BooksOfAcc(cfg, a', phase) == b.(raws := b.raws + text)
    ensures var a', b := a.(red := a.red + [text]), BooksOfAcc(cfg, a, phase);
      CallsBooked(cfg, a', made) && BooksOfAcc(cfg, a', phase) == b.(redacted := b.redacted + [text])
    ensures CallsBooked(cfg, a.(sig := text), made)
    ensures BooksOfAcc(cfg, a.(sig := text), phase) == BooksOfAcc(cfg, a, phase)
  {
    hide Carries, Texts, Summaries, Raws, Redacted, CallBodies;
  }

  lemma {:induction false} RawBooked(cfg: Config, a: Acc, fed: seq<Event>, text: Text, phase: Option<Phase>)
    requires Booked(cfg, a, fed, phase)
    ensures Booked(cfg, OnEvent(cfg, a, RawDelta(text)), fed + [RawDelta(text)], phase)
  {
    hide BooksOfAcc, CallsBooked, FlushText, FlushPending, FlushCall, Identified;
    var e, made := RawDelta(text), Identified(CallsMade(false, fed));
    SaidNext(fed, e, phase);
    CallsNext(false, fed, e);
    var a1 := FlushText(a);
    var a2 := FlushPending(cfg, a1);
    FlushTextFlushes(cfg, a, made, phase);
    FlushPendingBooks(cfg, a1, made, phase);
    FlushCallFlushes(cfg, a2, made, phase);
    PendingGrows(cfg, FlushCall(cfg, a2), text, phase, made);
  }

  lemma {:induction false} SignedBooked(cfg: Config, a: Acc, fed: seq<Event>, signature: Text, phase: Option<Phase>)
    requires Booked(cfg, a, fed, phase)
    ensures Booked(cfg, OnEvent(cfg, a, ThinkingSignature(signature)), fed + [ThinkingSignature(signature)], phase)
  {
    hide BooksOfAcc, CallsBooked, FlushSummary, Identified;
    var e, made := ThinkingSignature(signature), Identified(CallsMade(false, fed));
    SaidNext(fed, e, phase);
    CallsNext(false, fed, e);
    PendingGrows(cfg, a, signature, phase, made);
    FlushSummaryBooks(cfg, a.(sig := signature), phase);
    StillBooked(cfg, a.(sig := signature), FlushSummary(cfg, a.(sig := signature)), made, phase);
    SummaryKeepsText(cfg, a.(sig := signature));
  }

  lemma {:induction false} CallBooked(cfg: Config, a: Acc, fed: seq<Event>, callId: string, name: string,
          phase: Option<Phase>)
    requires Booked(cfg, a, fed, phase)
    ensures Booked(cfg, OnEvent(cfg, a, ToolStart(callId, name)), fed + [ToolStart(callId, name)], phase)
  {
    hide BooksOfAcc, CallsBooked, FlushText, FlushPending, FlushRaw, FlushCall, Identified;
    var e, made := ToolStart(callId, name), Identified(CallsMade(false, fed));
    SaidNext(fed, e, phase);
    CallsNext(false, fed, e);
    OneMoreCall(CallsMade(false, fed), Call(callId, name, []));
    var a1 := FlushText(a);
    var a2 := FlushPending(cfg, a1);
    var a3 := FlushRaw(cfg, a2);
    FlushTextFlushes(cfg, a, made, phase);
    FlushPendingBooks(cfg, a1, made, phase);
    FlushRawFlushes(cfg, a2, made, phase);
    FlushCallFlushes(cfg, a3, made, phase);
    CallStarts(cfg, FlushCall(cfg, a3), callId, name, phase, made);
  }

  lemma {:induction false} CallStarts(cfg: Config, a: Acc, callId: string, name: string, phase: Option<Phase>,
          made: seq<Call>)
    requires CallsBooked(cfg, a, made) && a.callId == ""
    ensures var a' := a.(callId := callId, callName := name, callArgs := []);
      && CallsBooked(cfg, a', made + if callId != "" then [Call(callId, name, [])] else [])
      && BooksOfAcc(cfg, a', phase) == BooksOfAcc(cfg, a, phase)
  {
    hide Carries, Texts, Summaries, Raws, Redacted, CallBodies;
  }

  lemma {:induction false} ArgumentsBooked(cfg: Config, a: Acc, fed: seq<Event>, arguments: Text, phase: Option<Phase>)
    requires Booked(cfg, a, fed, phase)
    ensures Booked(cfg, OnEvent(cfg, a, ToolDelta(arguments)), fed + [ToolDelta(arguments)], phase)
  {
    hide BooksOfAcc, CallsBooked, Identified, CallsMade, Calling, Said, Thought, RawThought, Redactions;
    SaidNext(fed, ToolDelta(arguments), phase);
    CallsNext(false, fed, ToolDelta(arguments));
    var before := CallsMade(false, fed);
    OtherArguments(cfg, a, Identified(before), arguments, phase);
    if Calling(false, fed) {
      var init, last := before[..|before| - 1], before[|before| - 1];
      assert before == init + [last];
      OneMoreCall(init, last);
      OneMoreCall(init, last.(args := last.args + arguments));
      if a.callId != "" {
        ArgumentsGrow(cfg, a, Identified(init), last, arguments);
      }
    }
  }

  /** Arguments without an open call go nowhere. */
  lemma {:induction false} OtherArguments(cfg: Config, a: Acc, made: seq<Call>, arguments: Text, phase: Option<Phase>)
    requires CallsBooked(cfg, a, made)
    ensures var a' := a.(callArgs := a.callArgs + arguments);
      BooksOfAcc(cfg, a', phase) == BooksOfAcc(cfg, a, phase) && (a.callId == "" ==> CallsBooked(cfg, a', made))
  {
    hide Carries;
  }

  lemma {:induction false} ArgumentsGrow(cfg: Config, a: Acc, init: seq<Call>, last: Call, arguments: Text)
    requires CallsBooked(cfg, a, init + [last]) && a.callId != ""
    ensures CallsBooked(cfg, a.(callArgs := a.callArgs + arguments), init + [last.(args := last.args + arguments)])
  {
    hide Carries, AsItems, CallBodies;
  }

  lemma {:induction false} EventBooked(cfg: Config, a: Acc, fed: seq<Event>, e: Event, phase: Option<Phase>)
    requires Booked(cfg, a, fed, phase) && !cfg.compaction
    ensures Booked(cfg, OnEvent(cfg, a, e), fed + [e], phase)
  {
    hide BooksOfAcc, CallsBooked, FlushAll, FlushCall, Identified, Booked;
    match e {
      case TextDelta(text, to) => TextBooked(cfg, a, fed, text, to, phase);
      case ThinkingDelta(text) => ThinkingBooked(cfg, a, fed, text, phase);
      case ThinkingSignature(signature) => SignedBooked(cfg, a, fed, signature, phase);
      case RawDelta(text) => RawBooked(cfg, a, fed, text, phase);
      case ToolStart(callId, name) => CallBooked(cfg, a, fed, callId, name, phase);
      case ToolDelta(arguments) => ArgumentsBooked(cfg, a, fed, arguments, phase);
      case _ => QuietBooked(cfg, a, fed, e, phase);
    }
  }

  lemma {:induction false} QuietBooked(cfg: Config, a: Acc, fed: seq<Event>, e: Event, phase: Option<Phase>)
    requires Booked(cfg, a, fed, phase)
    requires e.HeartbeatEvent? || e.Boundary? || e.RedactedThinking? || e.ToolEnd? || Final(e)
    ensures Booked(cfg, OnEvent(cfg, a, e), fed + [e], phase)
  {
    hide BooksOfAcc, CallsBooked, FlushAll, FlushCall, Identified;
    var made := Identified(CallsMade(false, fed));
    SaidNext(fed, e, phase);
    CallsNext(false, fed, e);
    match e {
      case Boundary => FlushAllFlushes(cfg, a, made, phase);
      case RedactedThinking(data) => PendingGrows(cfg, a, data, phase, made);
      case ToolEnd => FlushCallFlushes(cfg, a, made, phase);
      case _ => SameAcc(cfg, a, OnEvent(cfg, a, e), phase, made);
    }
  }

  lemma {:induction false} SameAcc(cfg: Config, a: Acc, a': Acc, phase: Option<Phase>, made: seq<Call>)
    requires CallsBooked(cfg, a, made)
    requires a' == a.(error := a'.error, incomplete := a'.incomplete, endTurn := a'.endTurn, maxTokens := a'.maxTokens)
    ensures CallsBooked(cfg, a', made) && BooksOfAcc(cfg, a', phase) == BooksOfAcc(cfg, a, phase)
  {
  }

  lemma {:induction false} AllBooked(cfg: Config, events: seq<Event>, phase: Option<Phase>)
    requires !cfg.compaction
    ensures Booked(cfg, Accumulate(cfg, events), events, phase)
  {
    if events != [] {
      hide Booked, OnEvent;
      var init, e := events[..|events| - 1], events[|events| - 1];
      assert init + [e] == events;
      AllBooked(cfg, init, phase);
      EventBooked(cfg, Accumulate(cfg, init), init, e, phase);
    }
  }

  /**
   * For every list of events, shown or hidden, the output of the batch translation holds exactly what was said: the
   * texts of each phase, the visible thoughts, the raw thoughts and the redacted blocks, and every call made under a
   * visible id, in order, under its real name and with all its arguments.
   */
  lemma {:induction false} BatchHoldsWhatWasSaid(cfg: Config, events: seq<Event>, phase: Option<Phase>)
    requires !cfg.compaction
    ensures var items, made := AsItems(ResponseOf(cfg, Accumulate(cfg, events)).output),
        Identified(CallsMade(false, events));
      && Texts(items, phase) == Said(events, phase) && (!cfg.hide ==> Summaries(items) == Thought(events))
      && Raws(items) == RawThought(events) && Redacted(items) == Redactions(events)
      && |CallBodies(items)| == |made|
      && forall k :: 0 <= k < |made| ==> Carries(cfg, made[k], CallBodies(items)[k])
  {
    hide Carries, Texts, Summaries, Raws, Redacted, CallBodies, Identified, FlushAll;
    AllBooked(cfg, events, phase);
    FlushAllFlushes(cfg, Accumulate(cfg, events), Identified(CallsMade(false, events)), phase);
  }

  // ---- Signed and redacted reasoning ----

  /** The thought and the redacted blocks that wait for a seal, and the seals made. */
  datatype Waiting = Waiting(thought: Text, red: seq<Text>, done: seq<BridgeSeals.Seal>)

  /** A thought is over: sealed when it was signed or came with redacted blocks. */
  function Over(hidden: bool, q: Waiting, signature: Text): Waiting {
    var made := if signature == [] && q.red == [] then [] else
      [BridgeSeals.Seal(!hidden && q.thought != [], Envelope(signature, q.red, if hidden then q.thought else []))];
    Waiting([], [], q.done + made)
  }

  /** A signature and a boundary end the thought; text, raw reasoning and calls do when there is one. */
  function WaitingAfter(hidden: bool, fed: seq<Event>): Waiting {
    if fed == [] then Waiting([], [], [])
    else
      var q := WaitingAfter(hidden, fed[..|fed| - 1]);
      match fed[|fed| - 1]
      case ThinkingDelta(text) => q.(thought := q.thought + text)
      case RedactedThinking(data) => q.(red := q.red + [data])
      case ThinkingSignature(signature) => Over(hidden, q, signature)
      case Boundary => Over(hidden, q, [])
      case TextDelta(_, _) => if q.thought == [] then q else Over(hidden, q, [])
      case RawDelta(_) => if q.thought == [] then q else Over(hidden, q, [])
      case ToolStart(_, _) => if q.thought == [] then q else Over(hidden, q, [])
      case _ => q
  }

  predicate Agrees(a: Acc, q: Waiting) {
    a.sig == [] && q == Waiting(a.summary, a.red, BridgeSeals.Seals(AsItems(a.output)))
  }

  lemma {:induction false} OneMoreSealed(bodies: seq<Body>, b: Body)
    ensures BridgeSeals.Seals(AsItems(bodies + [b])) == BridgeSeals.Seals(AsItems(bodies)) + BridgeSeals.SealIn(b)
  {
    BridgeSeals.OneMoreSeal(AsItems(bodies), Item(0, b));
    assert AsItems(bodies + [b]) == AsItems(bodies) + [Item(0, b)];
  }

  /** Flushes of text, raw reasoning and calls seal nothing. */
  lemma {:induction false} OthersSealNothing(cfg: Config, a: Acc, q: Waiting)
    requires Agrees(a, q)
    ensures Agrees(FlushText(a), q) && Agrees(FlushRaw(cfg, a), q) && Agrees(FlushCall(cfg, a), q)
  {
    hide BridgeSeals.Seals, AsItems, CallBody;
    OneMoreSealed(a.output, Message(a.text, a.phase));
    OneMoreSealed(a.output, if cfg.hide then Reasoning(None, Some(Envelope([], [], a.raw))) else RawReasoning(a.raw));
    var realName, ns := ToolName(cfg.tools, a.callName), ToolNamespace(cfg.tools, a.callName);
    var t := OpenTool(0, 0, a.callId, realName, a.callArgs, ns, []);
    BridgeSeals.CallsSealNothing(cfg, t);
    OneMoreSealed(a.output, CallBody(cfg.tools, a.callId, realName, ns, a.callArgs));
  }

  lemma {:induction false} SummarySeals(cfg: Config, a: Acc, q: Waiting, signature: Text)
    requires Agrees(a.(sig := []), q) && a.sig == signature
    ensures Agrees(FlushSummary(cfg, a), Over(cfg.hide, q, signature))
  {
    hide BridgeSeals.Seals, AsItems;
    OneMoreSealed(a.output,
        Reasoning(if !cfg.hide && a.summary != [] then Some(a.summary) else None, SummaryEnvelope(cfg, a)));
  }

  lemma {:induction false} PendingSeals(cfg: Config, a: Acc, q: Waiting)
    requires Agrees(a, q)
    ensures Agrees(FlushPending(cfg, a), if q.thought == [] then q else Over(cfg.hide, q, []))
  {
    hide FlushSummary, BridgeSeals.Seals, Over;
    assert a.(sig := []) == a;
    SummarySeals(cfg, a, q, []);
  }

  lemma {:induction false} EventSeals(cfg: Config, a: Acc, fed: seq<Event>, e: Event)
    requires Agrees(a, WaitingAfter(cfg.hide, fed))
    ensures Agrees(OnEvent(cfg, a, e), WaitingAfter(cfg.hide, fed + [e]))
  {
    hide FlushText, FlushRaw, FlushCall, FlushPending, FlushSummary, BridgeSeals.Seals, Over;
    assert (fed + [e])[..|fed|] == fed;
    var q := WaitingAfter(cfg.hide, fed);
    match e {
      case Boundary =>
        OthersSealNothing(cfg, a, q);
        AllSealed(cfg, a, q);
      case TextDelta(text, to) =>
        OthersSealNothing(cfg, a, q);
        var a1 := if a.text != [] && a.phase != to then FlushText(a) else a;
        FlushedTwice(cfg, a1, q);
      case ThinkingDelta(text) =>
        OthersSealNothing(cfg, a, q);
        OthersSealNothing(cfg, FlushText(a), q);
        OthersSealNothing(cfg, FlushRaw(cfg, FlushText(a)), q);
      case ThinkingSignature(signature) => SummarySeals(cfg, a.(sig := signature), q, signature);
      case RawDelta(text) =>
        OthersSealNothing(cfg, a, q);
        PendingSeals(cfg, FlushText(a), q);
        OthersSealNothing(cfg, FlushPending(cfg, FlushText(a)), if q.thought == [] then q else Over(cfg.hide, q, []));
      case ToolStart(callId, name) =>
        OthersSealNothing(cfg, a, q);
        FlushedTwice(cfg, FlushText(a), q);
      case ToolEnd => OthersSealNothing(cfg, a, q);
      case _ =>
    }
  }

  lemma {:induction false} FlushedTwice(cfg: Config, a: Acc, q: Waiting)
    requires Agrees(a, q)
    ensures Agrees(FlushCall(cfg, FlushRaw(cfg, FlushPending(cfg, a))),
      if q.thought == [] then q else Over(cfg.hide, q, []))
  {
    hide FlushRaw, FlushCall, FlushPending, BridgeSeals.Seals, Over, Agrees;
    var q' := if q.thought == [] then q else Over(cfg.hide, q, []);
    PendingSeals(cfg, a, q);
    OthersSealNothing(cfg, FlushPending(cfg, a), q');
    OthersSealNothing(cfg, FlushRaw(cfg, FlushPending(cfg, a)), q');
  }

  lemma {:induction false} AllSealed(cfg: Config, a: Acc, q: Waiting)
    requires Agrees(a, q)
    ensures Agrees(FlushAll(cfg, a), Over(cfg.hide, q, []))
  {
    hide FlushText, FlushRaw, FlushCall, FlushSummary, BridgeSeals.Seals, Over;
    OthersSealNothing(cfg, a, q);
    var a1 := FlushText(a);
    assert a1.(sig := []) == a1;
    SummarySeals(cfg, a1, q, []);
    OthersSealNothing(cfg, FlushSummary(cfg, a1), Over(cfg.hide, q, []));
    OthersSealNothing(cfg, FlushRaw(cfg, FlushSummary(cfg, a1)), Over(cfg.hide, q, []));
  }

  lemma {:induction false} RunSeals(cfg: Config, events: seq<Event>)
    ensures Agrees(Accumulate(cfg, events), WaitingAfter(cfg.hide, events))
  {
    if events != [] {
      hide Agrees, OnEvent, WaitingAfter;
      var init, e := events[..|events| - 1], events[|events| - 1];
      assert init + [e] == events;
      RunSeals(cfg, init);
      EventSeals(cfg, Accumulate(cfg, init), init, e);
    }
  }

  /** For every list of events the seals of the batch translation are those the events made, in order. */
  lemma {:induction false} BatchIsSealed(cfg: Config, events: seq<Event>)
    ensures BridgeSeals.Seals(AsItems(FlushAll(cfg, Accumulate(cfg, events)).output))
      == Over(cfg.hide, WaitingAfter(cfg.hide, events), []).done
    ensures !cfg.compaction ==>
      ResponseOf(cfg, Accumulate(cfg, events)).output == FlushAll(cfg, Accumulate(cfg, events)).output
  {
    hide FlushAll, BridgeSeals.Seals;
    RunSeals(cfg, events);
    AllSealed(cfg, Accumulate(cfg, events), WaitingAfter(cfg.hide, events));
  }

  // ---- Compaction ----

  lemma {:induction false} SummaryCollected(cfg: Config, events: seq<Event>)
    requires cfg.compaction
    ensures Accumulate(cfg, events).compaction == AllSaid(events)
  {
    if events != [] {
      hide OnEvent;
      SummaryCollected(cfg, events[..|events| - 1]);
      EventCollected(cfg, Accumulate(cfg, events[..|events| - 1]), events[|events| - 1]);
    }
  }

  lemma {:induction false} EventCollected(cfg: Config, a: Acc, e: Event)
    requires cfg.compaction
    ensures OnEvent(cfg, a, e).compaction == a.compaction + if e.TextDelta? then e.text else []
  {
    hide FlushText, FlushSummary, FlushPending, FlushRaw, FlushCall;
    FlushesCollectNothing(cfg);
  }

  lemma {:induction false} FlushesCollectNothing(cfg: Config)
    ensures forall a :: FlushText(a).compaction == a.compaction
    ensures forall a :: FlushSummary(cfg, a).compaction == a.compaction
    ensures forall a :: FlushPending(cfg, a).compaction == a.compaction
    ensures forall a :: FlushRaw(cfg, a).compaction == a.compaction
    ensures forall a :: FlushCall(cfg, a).compaction == a.compaction
  {
    hide CallBody;
  }

  /** A compaction that comes to a proper end is the last item, and holds all the text. */
  lemma {:induction false} BatchCompacts(cfg: Config, events: seq<Event>)
    requires cfg.compaction
    ensures var r := ResponseOf(cfg, Accumulate(cfg, events));
      if r.status == Completed then r.output != [] && r.output[|r.output| - 1] == Compaction(AllSaid(events))
      else r.output == FlushAll(cfg, Accumulate(cfg, events)).output
  {
    hide FlushText, FlushSummary, FlushRaw, FlushCall;
    SummaryCollected(cfg, events);
    FlushesKeepCompaction(cfg, Accumulate(cfg, events));
  }

  lemma {:induction false} FlushesKeepCompaction(cfg: Config, a: Acc)
    ensures FlushAll(cfg, a).compaction == a.compaction
    ensures FlushAll(cfg, a).error == a.error && FlushAll(cfg, a).incomplete == a.incomplete
    ensures FlushAll(cfg, a).maxTokens == a.maxTokens
  {
  }
}
