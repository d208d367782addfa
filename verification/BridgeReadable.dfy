/**
 * Exactly which runs keep the wire readable: those in which every input that reaches an open wire finds
 * nothing open where it makes an item of its own. Elsewhere the frame that makes the item is the first
 * one the input emits, and the strict reader refuses it.
 */
module BridgeReadable {
  import opened Common
  import opened Bridge
  import opened BridgeOrder
  import opened BridgeItems

  /** Frames are only added, and none to a closed wire. */
  predicate Follows(w: Wire, w': Wire) {
    w.frames <= w'.frames && (w.closed ==> w'.closed && w'.frames == w.frames)
  }

  /** The first frame emitted is one the reader refuses in state `r`. */
  ghost predicate Spoils(cfg: Config, r: Reader, w: Wire, w': Wire) {
    exists f: Frame :: Read(cfg, r, f).None? && Follows(Emit(w, f), w')
  }

  lemma {:induction false} EmitFollows(w: Wire, f: Frame)
    ensures Follows(w, Emit(w, f)) && Follows(w, EmitPlain(w, f))
  {
  }

  lemma {:induction false} EmitEndFollows(s: State, status: Status, detail: Detail, endTurn: Option<bool>)
    ensures Follows(s.w, EmitEnd(s, status, detail, endTurn).w)
  {
  }

  lemma {:induction false} ShutFollows(s: State)
    ensures Follows(s.w, Shut(s).w)
  {
  }

  lemma {:induction false} AfterLoopFollows(cfg: Config, s: State)
    ensures Follows(s.w, AfterLoop(cfg, s).w) && Follows(s.w, LoopHead(cfg, s).w)
  {
    hide CloseAll, EmitEnd, Shut;
    var s1 := s.(l := s.l.(beat := false));
    CloseAllKeeps(cfg, s1);
    EmitEndFollows(CloseAll(cfg, s1), Truncated, Reason("adapter_eof"), None);
    var ended := EmitEnd(CloseAll(cfg, s1), Truncated, Reason("adapter_eof"), None);
    ShutFollows(ended.(l := ended.l.(terminated := true)));
    ShutFollows(s1);
  }

  lemma {:induction false} SpoilsOn(cfg: Config, r: Reader, w: Wire, w': Wire, w'': Wire)
    requires Spoils(cfg, r, w, w') && Follows(w', w'')
    ensures Spoils(cfg, r, w, w'')
  {
    var f: Frame :| Read(cfg, r, f).None? && Follows(Emit(w, f), w');
    assert Follows(Emit(w, f), w'');
  }

  /** An item announced while another is open. */
  lemma {:induction false} EnvelopeSpoils(cfg: Config, r: Reader, s: State, envelope: Envelope)
    requires r.open.Some?
    ensures Spoils(cfg, r, s.w, EnvelopeItem(s, envelope).w)
  {
    var item := Item(s.i.nextId, Reasoning(None, Some(envelope)));
    var f := Added(s.i.outputIndex, item);
    assert Read(cfg, r, f).None?;
    EmitFollows(Emit(s.w, f), ItemDone(s.i.outputIndex, item));
    assert Follows(Emit(s.w, f), EnvelopeItem(s, envelope).w);
  }

  lemma {:induction false} FlushSpoils(cfg: Config, r: Reader, s: State)
    requires r.open.Some? && s.p.hiddenRaw != []
    ensures Spoils(cfg, r, s.w, FlushHiddenRaw(s).w) && FlushHiddenRaw(s).p.hiddenRaw == []
    ensures FlushHiddenRaw(s).l == s.l && FlushHiddenRaw(FlushHiddenRaw(s)) == FlushHiddenRaw(s)
    ensures FlushHiddenRaw(s) == s.(w := FlushHiddenRaw(s).w, i := FlushHiddenRaw(s).i, p := s.p.(hiddenRaw := []))
    ensures var i := FlushHiddenRaw(s).i;
      i.message == s.i.message && i.reasoning == s.i.reasoning && i.raw == s.i.raw && i.tool == s.i.tool
  {
    EnvelopeSpoils(cfg, r, s.(p := s.p.(hiddenRaw := [])), Envelope([], [], s.p.hiddenRaw));
  }

  /** With an open call, everything that closes all items starts with the flush. */
  lemma {:induction false} CloseAllSpoils(cfg: Config, s: State)
    requires OneOpen(cfg, s.i) && !ClosingFits(s)
    ensures Spoils(cfg, Reader(s.i.finished, Shown(cfg, s.i)), s.w, CloseAll(cfg, s).w)
  {
    hide FlushHiddenRaw, CloseTool;
    FlushSpoils(cfg, Reader(s.i.finished, Shown(cfg, s.i)), s);
    assert CloseAll(cfg, s) == CloseTool(cfg, FlushHiddenRaw(s));
    CloseToolKeeps(cfg, FlushHiddenRaw(s));
    SpoilsOn(cfg, Reader(s.i.finished, Shown(cfg, s.i)), s.w, FlushHiddenRaw(s).w, CloseAll(cfg, s).w);
  }

  lemma {:induction false} TextSpoils(cfg: Config, s: State, text: Text, phase: Option<Phase>)
    requires OneOpen(cfg, s.i) && !TextFits(s)
    ensures Spoils(cfg, Reader(s.i.finished, Shown(cfg, s.i)), s.w, OnText(cfg, s, text, phase).w)
  {
    hide FlushHiddenRaw, CloseTool, CloseMessage, OpenMessage, AppendMessage;
    FlushSpoils(cfg, Reader(s.i.finished, Shown(cfg, s.i)), s);
    assert CloseRaw(CloseReasoning(s)) == s;
    var s' := FlushHiddenRaw(s);
    assert CloseRaw(CloseReasoning(s')) == s';
    assert OnText(cfg, s, text, phase) == OnText(cfg, s', text, phase);
    OnTextKeeps(cfg, s', text, phase);
    SpoilsOn(cfg, Reader(s.i.finished, Shown(cfg, s.i)), s.w, s'.w, OnText(cfg, s, text, phase).w);
  }

  lemma {:induction false} SignatureSpoils(cfg: Config, s: State, signature: Text)
    requires OneOpen(cfg, s.i) && !SignatureFits(s, signature)
    ensures Spoils(cfg, Reader(s.i.finished, Shown(cfg, s.i)), s.w, OnSignature(s, signature).w)
  {
    hide EnvelopeItem;
    var s1 := s.(p := s.p.(sig := signature));
    var (encrypted, p) := TakeEnvelope(s1.p, s1.p.hiddenThinking);
    EnvelopeSpoils(cfg, Reader(s.i.finished, Shown(cfg, s.i)), s1.(p := p.(hiddenThinking := [])), encrypted.value);
  }

  /** What an event adds after everything is closed. */
  lemma {:induction false} ClosedFirst(cfg: Config, s: State, e: Event)
    requires e.Boundary? || Final(e) || e.ToolStart?
    ensures Follows(CloseAll(cfg, s).w, Process(cfg, s, e).w)
  {
    hide CloseAll, FlushHiddenEnvelope, EmitEnd;
    var s1 := CloseAll(cfg, s);
    FlushKeeps(s1);
    var s2 := FlushHiddenEnvelope(s1);
    var s3 := if cfg.compaction then CompactionItem(s2) else s2;
    match e {
      case Boundary =>
      case ToolStart(_, _) =>
      case Done(stop, endTurn) =>
        EmitEndFollows(s3, Truncated, Reason("max_output_tokens"), endTurn);
        EmitEndFollows(s3, Truncated, Reason("content_filter"), endTurn);
        EmitEndFollows(s3, Completed, NoDetail, endTurn);
      case Incomplete(reason, endTurn) => EmitEndFollows(s2, Truncated, Reason(reason), endTurn);
      case Error(message) => EmitEndFollows(s1, Failed, AdapterFailure(message), None);
    }
  }

  lemma {:induction false} EventSpoils(cfg: Config, s: State, e: Event)
    requires OneOpen(cfg, s.i) && !EventFits(cfg, s, e) && !(cfg.compaction && e.Done?)
    ensures Spoils(cfg, Reader(s.i.finished, Shown(cfg, s.i)), s.w, Process(cfg, s, e).w)
  {
    hide CloseAll, OnText, OnSignature, Spoils, OneOpen, OnToolStart, OnDone, OnIncomplete, OnError;
    match e {
      case TextDelta(text, phase) => TextSpoils(cfg, s, text, phase);
      case ThinkingSignature(signature) => SignatureSpoils(cfg, s, signature);
      case _ =>
        CloseAllSpoils(cfg, s);
        ClosedFirst(cfg, s, e);
        SpoilsOn(cfg, Reader(s.i.finished, Shown(cfg, s.i)), s.w, CloseAll(cfg, s).w, Process(cfg, s, e).w);
    }
  }

  /** A compaction turn shows and hides nothing before its end. */
  predicate Quiet(s: State) {
    NothingOpen(s.i) && s.p.hiddenRaw == [] && s.p.sig == [] && s.p.red == []
  }

  lemma {:induction false} ClosingIsIdle(cfg: Config, s: State)
    requires Quiet(s)
    ensures CloseAll(cfg, s) == s && Quiet(FlushHiddenEnvelope(s))
    ensures FlushHiddenEnvelope(s).w == s.w && FlushHiddenEnvelope(s).i == s.i && FlushHiddenEnvelope(s).l == s.l
  {
  }

  /** The summary of a compaction turn is completed without having been announced. */
  lemma {:induction false} CompactionSpoils(cfg: Config, s: State, stop: StopReason, endTurn: Option<bool>)
    requires cfg.compaction && Quiet(s)
    ensures Spoils(cfg, Reader(s.i.finished, Shown(cfg, s.i)), s.w, OnDone(cfg, s, stop, endTurn).w)
  {
    hide EmitEnd, CloseAll, FlushHiddenEnvelope;
    ClosingIsIdle(cfg, s);
    var s2 := CompactionItem(FlushHiddenEnvelope(CloseAll(cfg, s)));
    EmitEndFollows(s2, Truncated, Reason("max_output_tokens"), endTurn);
    EmitEndFollows(s2, Truncated, Reason("content_filter"), endTurn);
    EmitEndFollows(s2, Completed, NoDetail, endTurn);
    var f := ItemDone(s.i.outputIndex, Item(s.i.nextId, Compaction(FlushHiddenEnvelope(s).p.compaction)));
    assert Read(cfg, Reader(s.i.finished, Shown(cfg, s.i)), f).None?;
    assert Follows(Emit(s.w, f), OnDone(cfg, s, stop, endTurn).w);
  }

  lemma {:induction false} LoopStaysQuiet(cfg: Config, s: State)
    requires Quiet(s)
    ensures Quiet(AfterLoop(cfg, s)) && Quiet(LoopHead(cfg, s))
  {
    hide CloseAll;
    ClosingIsIdle(cfg, s.(l := s.l.(beat := false)));
  }

  lemma {:induction false} FinalStaysQuiet(cfg: Config, s: State, e: Event)
    requires Quiet(s) && Final(e)
    ensures Quiet(Process(cfg, s, e))
  {
    hide CloseAll, FlushHiddenEnvelope;
    ClosingIsIdle(cfg, s);
  }

  lemma {:induction false} StaysQuiet(cfg: Config, s: State, x: Input)
    requires cfg.compaction && Quiet(s)
    ensures Quiet(Next(cfg, s, x))
  {
    hide CloseAll, Process, AfterLoop, LoopHead;
    ClosingIsIdle(cfg, s);
    match x {
      case PullInput =>
        LoopStaysQuiet(cfg, s.(l := s.l.(stepping := true, gated := false, emittedAtStart := s.w.emitted)));
      case EventInput(e, at) =>
        var s0 := s.(l := s.l.(lastAt := at));
        LoopStaysQuiet(cfg, s0);
        LoopStaysQuiet(cfg, s0.(p := s0.p.(compaction := s0.p.compaction + if e.TextDelta? then e.text else [])));
        if Final(e) {
          FinalStaysQuiet(cfg, s0, e);
          LoopStaysQuiet(cfg, Terminated(Process(cfg, s0, e)));
        }
      case EndInput => LoopStaysQuiet(cfg, s.(l := s.l.(upstreamDone := true)));
      case ThrowInput =>
        LoopStaysQuiet(cfg, s);
        LoopStaysQuiet(cfg, Terminated(EmitEnd(s, Failed, ProxyFailure, None)));
      case _ =>
    }
  }

  /** An input that does not fit emits a frame the reader refuses, before any other. */
  lemma {:induction false} UnfitSpoils(cfg: Config, s: State, x: Input)
    requires ItemsInv(cfg, s) && !s.w.closed && (cfg.compaction ==> Quiet(s)) && !InputFits(cfg, s, x)
    ensures Spoils(cfg, Reader(s.i.finished, Shown(cfg, s.i)), s.w, Next(cfg, s, x).w)
  {
    hide Process, CloseAll, EmitEnd, FlushHiddenRaw, Shut, AfterLoop, LoopHead, Spoils, OneOpen;
    var r, w' := Reader(s.i.finished, Shown(cfg, s.i)), Next(cfg, s, x).w;
    match x {
      case EventInput(e, at) =>
        var s0 := s.(l := s.l.(lastAt := at));
        DeliverSpoils(cfg, s0, e);
        AfterLoopFollows(cfg, Process(cfg, s0, e));
        AfterLoopFollows(cfg, Terminated(Process(cfg, s0, e)));
        SpoilsOn(cfg, r, s.w, Process(cfg, s0, e).w, w');
      case EndInput =>
        EndSpoils(cfg, s);
      case ThrowInput =>
        FlushSpoils(cfg, r, s);
        EmitEndFollows(FlushHiddenRaw(s), Failed, ProxyFailure, None);
        AfterLoopFollows(cfg, Terminated(EmitEnd(FlushHiddenRaw(s), Failed, ProxyFailure, None)));
        SpoilsOn(cfg, r, s.w, FlushHiddenRaw(s).w, w');
      case TickInput(at) =>
        CloseAllSpoils(cfg, s);
        EmitEndFollows(CloseAll(cfg, s), Truncated, Reason("upstream_stall_timeout"), None);
        ShutFollows(EmitEnd(CloseAll(cfg, s), Truncated, Reason("upstream_stall_timeout"), None));
        SpoilsOn(cfg, r, s.w, CloseAll(cfg, s).w, w');
    }
  }

  lemma {:induction false} DeliverSpoils(cfg: Config, s: State, e: Event)
    requires OneOpen(cfg, s.i) && (cfg.compaction ==> Quiet(s) && Final(e)) && !EventFits(cfg, s, e)
    ensures Spoils(cfg, Reader(s.i.finished, Shown(cfg, s.i)), s.w, Process(cfg, s, e).w)
  {
    hide OnDone, OnIncomplete, OnError, Spoils, OneOpen;
    match e {
      case Done(stop, endTurn) =>
        if cfg.compaction {
          CompactionSpoils(cfg, s, stop, endTurn);
        } else {
          EventSpoils(cfg, s, e);
        }
      case _ => EventSpoils(cfg, s, e);
    }
  }

  lemma {:induction false} EndSpoils(cfg: Config, s: State)
    requires OneOpen(cfg, s.i) && !ClosingFits(s) && s.l.stepping && !s.l.terminated
    ensures Spoils(cfg, Reader(s.i.finished, Shown(cfg, s.i)), s.w, UpstreamEnd(cfg, s).w)
  {
    hide CloseAll, EmitEnd, Shut, Spoils, OneOpen;
    var s1 := s.(l := s.l.(upstreamDone := true, beat := false));
    CloseAllSpoils(cfg, s1);
    EmitEndFollows(CloseAll(cfg, s1), Truncated, Reason("adapter_eof"), None);
    var ended := EmitEnd(CloseAll(cfg, s1), Truncated, Reason("adapter_eof"), None);
    ShutFollows(ended.(l := ended.l.(terminated := true)));
    SpoilsOn(cfg, Reader(s.i.finished, Shown(cfg, s.i)), s.w, CloseAll(cfg, s1).w, UpstreamEnd(cfg, s).w);
  }

  lemma {:induction false} RefusedForGood(cfg: Config, frames: seq<Sent>, more: seq<Sent>)
    requires ReadAll(cfg, frames).None? && frames <= more
    ensures ReadAll(cfg, more).None?
  {
    if |more| > |frames| {
      RefusedForGood(cfg, frames, more[..|more| - 1]);
    } else {
      assert more == frames;
    }
  }

  /** A spoilt wire is refused, unless the refused frame is the one on which a dead controller gives up. */
  lemma {:induction false} SpoiltMeans(cfg: Config, r: Reader, w: Wire, w': Wire)
    requires Reads(cfg, w, r) && !w.closed && Spoils(cfg, r, w, w')
    ensures if w.room == Some(0) then w'.closed && w'.frames == w.frames else ReadAll(cfg, w'.frames).None?
  {
    hide Read;
    var f: Frame :| Read(cfg, r, f).None? && Follows(Emit(w, f), w');
    if w.room != Some(0) {
      ReadSnoc(cfg, w.frames, Sent(Some(w.nextNumber), f));
      RefusedForGood(cfg, Emit(w, f).frames, w'.frames);
    }
  }

  /** Every input that reaches an open wire fits; one that reaches only a dead controller cannot spoil it. */
  predicate FitsWhileOpen(cfg: Config, now: int, xs: seq<Input>) {
    xs == [] ||
    (var s := Run(cfg, now, xs[..|xs| - 1]);
      && FitsWhileOpen(cfg, now, xs[..|xs| - 1])
      && (s.w.closed || s.w.room == Some(0) || InputFits(cfg, s, xs[|xs| - 1])))
  }

  /** What holds of every run, readable or not. */
  ghost predicate Judged(cfg: Config, s: State, fits: bool) {
    && (ReadAll(cfg, s.w.frames).Some? <==> fits)
    && (fits && !s.w.closed ==> ItemsInv(cfg, s))
    && Awaiting(s) && OrderInv(s)
    && (cfg.compaction ==> Quiet(s))
  }

  lemma {:induction false} StepJudged(cfg: Config, s: State, fits: bool, x: Input)
    requires Judged(cfg, s, fits)
    ensures Judged(cfg, Next(cfg, s, x), fits && (s.w.closed || s.w.room == Some(0) || InputFits(cfg, s, x)))
  {
    hide Next, Quiet, Awaiting, OrderInv, InputFits, OneOpen, HiddenKept, Spoils;
    NextKeepsOrder(cfg, s, x);
    StillAwaits(cfg, s, x);
    if cfg.compaction {
      StaysQuiet(cfg, s, x);
    }
    if !fits {
      RefusedForGood(cfg, s.w.frames, Next(cfg, s, x).w.frames);
    } else if !s.w.closed && InputFits(cfg, s, x) {
      NextReads(cfg, s, x);
    } else if !s.w.closed {
      UnfitSpoils(cfg, s, x);
      SpoiltMeans(cfg, Reader(s.i.finished, Shown(cfg, s.i)), s.w, Next(cfg, s, x).w);
    }
  }

  lemma {:induction false} RunJudged(cfg: Config, now: int, xs: seq<Input>)
    ensures Judged(cfg, Run(cfg, now, xs), FitsWhileOpen(cfg, now, xs))
  {
    RunKeepsOrder(cfg, now, xs);
    RunAwaits(cfg, now, xs);
    if xs == [] {
      StrictReaderAccepts(cfg, now, xs);
    } else {
      hide Next, Judged;
      RunJudged(cfg, now, xs[..|xs| - 1]);
      StepJudged(cfg, Run(cfg, now, xs[..|xs| - 1]), FitsWhileOpen(cfg, now, xs[..|xs| - 1]), xs[|xs| - 1]);
    }
  }

  /**
   * The strict reader accepts the wire of a run exactly when every input fits that reaches an open wire, with
   * reasoning shown or hidden, in ordinary turns and in compaction turns.
   */
  lemma {:induction false} ReadableExactlyWhen(cfg: Config, now: int, xs: seq<Input>)
    ensures ReadAll(cfg, Run(cfg, now, xs).w.frames).Some? <==> FitsWhileOpen(cfg, now, xs)
  {
    RunJudged(cfg, now, xs);
  }
}
