/** Concrete turns and texts on which the bridge does what one would not expect. */
module BridgeExamples {
  import opened Common
  import opened Bridge
  import opened BridgeOrder
  import opened BridgeItems
  import opened BridgeEnds
  import opened BridgeReadable
  import Batch
  import Freeform

  const LETTER: Text := [0x61]

  lemma {:induction false} RunNext(cfg: Config, now: int, xs: seq<Input>, x: Input)
    ensures Run(cfg, now, xs + [x]) == Next(cfg, Run(cfg, now, xs), x)
  {
    assert (xs + [x])[..|xs|] == xs;
  }

  /** A pull, one text delta and another pull: a message is open, and the bridge waits for the adapter. */
  const TALKING: seq<Input> := [PullInput, EventInput(TextDelta(LETTER, None), 0), PullInput]

  lemma {:induction false} TalkingIs(cfg: Config, now: int)
    requires !cfg.hide && !cfg.compaction
    ensures var s := Run(cfg, now, TALKING);
      && s.i.message.Some? && s.i.reasoning.None? && s.i.raw.None? && s.i.tool.None? && s.p.red == []
      && s.p.hiddenRaw == []
      && s.l.stepping && !s.l.terminated && !s.l.upstreamDone && s.l.reported.None? && !s.w.closed && s.w.room.None?
    ensures InputsFit(cfg, now, TALKING)
  {
    var a, b := [PullInput], [PullInput, EventInput(TextDelta(LETTER, None), 0)];
    RunNext(cfg, now, [], PullInput);
    assert [] + [PullInput] == a && a + [b[1]] == b && b + [PullInput] == TALKING;
    RunNext(cfg, now, a, b[1]);
    RunNext(cfg, now, b, PullInput);
    var s1 := Run(cfg, now, a);
    assert s1.l.stepping && s1.i == Items(0, 0, [], None, None, None, None) && s1.w.room.None? && !s1.w.closed;
    TalkingEvent(cfg, s1);
    assert TALKING[..2] == b && b[..1] == a && a[..0] == [];
    assert InputsFit(cfg, now, []) && InputsFit(cfg, now, a) && InputsFit(cfg, now, b);
  }

  lemma {:induction false} TalkingEvent(cfg: Config, s: State)
    requires !cfg.hide && !cfg.compaction && s.l.stepping && s.i == Items(0, 0, [], None, None, None, None)
    requires s.w.room.None? && !s.w.closed && !s.l.terminated && !s.l.upstreamDone && s.p == Pending([], [], [], [], [])
    requires s.w.emitted == s.l.emittedAtStart
    ensures var s' := Deliver(cfg, s, TextDelta(LETTER, None), 0);
      && s'.i.message.Some? && s'.i.reasoning.None? && s'.i.raw.None? && s'.i.tool.None? && s'.p == s.p
      && !s'.l.stepping && !s'.l.terminated && !s'.l.upstreamDone && s'.l.reported == s.l.reported
      && !s'.w.closed && s'.w.room.None?
  {
  }

  /** A throw while a message is open: the message is announced, never completed, and missing from the terminal. */
  lemma {:induction false} ThrowExample(cfg: Config, now: int)
    requires !cfg.hide && !cfg.compaction
    ensures var frames := Run(cfg, now, TALKING + [ThrowInput]).w.frames;
      && |Terminals(frames)| == 1 && Terminals(frames)[0].detail == ProxyFailure
      && |Announcements(frames)| == |Completions(frames)| + 1
  {
    hide Next, Terminals, Announcements, Completions, InputsFit, ItemsInv, OneOpen;
    TalkingIs(cfg, now);
    RunNext(cfg, now, TALKING, ThrowInput);
    ThrowFits(cfg, now);
    TerminalExactlyWhen(cfg, now, TALKING, ThrowInput);
    StrictReaderAccepts(cfg, now, TALKING);
    ThrowLeavesOpenItem(cfg, Run(cfg, now, TALKING));
    TerminalListsEveryItem(cfg, now, TALKING + [ThrowInput]);
    CountsOf(Run(cfg, now, TALKING + [ThrowInput]).w.frames);
    StepsAre(cfg, Run(cfg, now, TALKING), HeartbeatEvent, 0);
  }

  lemma {:induction false} StepsAre(cfg: Config, s: State, e: Event, at: int)
    ensures Next(cfg, s, ThrowInput) == UpstreamThrow(cfg, s)
    ensures Next(cfg, s, EventInput(e, at)) == Deliver(cfg, s, e, at)
  {
  }

  lemma {:induction false} ThrowFits(cfg: Config, now: int)
    requires InputsFit(cfg, now, TALKING) && Run(cfg, now, TALKING).p.hiddenRaw == []
    ensures InputsFit(cfg, now, TALKING + [ThrowInput])
  {
    hide Run;
    assert (TALKING + [ThrowInput])[..|TALKING|] == TALKING;
  }

  lemma {:induction false} CountsOf(frames: seq<Sent>)
    requires Terminals(frames) != [] && Completions(frames) == Indexed(Terminals(frames)[0].output)
    requires Places(Terminals(frames)[0].output) <= Announcements(frames)
    requires |Announcements(frames)| <= |Terminals(frames)[0].output| + 1
    ensures |Completions(frames)| <= |Announcements(frames)| <= |Completions(frames)| + 1
  {
  }

  /** A signature while a message is open: the strict reader gives up on the wire. */
  lemma {:induction false} SignatureExample(cfg: Config, now: int, at: int)
    requires !cfg.hide && !cfg.compaction
    ensures ReadAll(cfg, Run(cfg, now, TALKING + [EventInput(ThinkingSignature(LETTER), at)]).w.frames).None?
  {
    hide Next, InputsFit, ItemsInv, OneOpen, ReadAll;
    TalkingIs(cfg, now);
    RunNext(cfg, now, TALKING, EventInput(ThinkingSignature(LETTER), at));
    StepsAre(cfg, Run(cfg, now, TALKING), ThinkingSignature(LETTER), at);
    StrictReaderAccepts(cfg, now, TALKING);
    SignatureToleratedExactlyWhenItFits(cfg, Run(cfg, now, TALKING), LETTER, at);
  }

  /** A call, with raw reasoning hidden while it is open: the bridge waits for the adapter again. */
  const CALLING: seq<Input> := [
    PullInput, EventInput(ToolStart("c", "f"), 0), PullInput, EventInput(RawDelta(LETTER), 0)]

  /** The text that follows would announce the hidden reasoning under the open call's index. */
  lemma {:induction false} HiddenExample(cfg: Config, now: int, at: int)
    requires cfg.hide && !cfg.compaction
    ensures ReadAll(cfg, Run(cfg, now, CALLING).w.frames).Some?
    ensures ReadAll(cfg, Run(cfg, now, CALLING + [EventInput(TextDelta(LETTER, None), at)]).w.frames).None?
  {
    hide Next, InputFits, OneOpen, ReadAll;
    CallingIs(cfg, now);
    ReadableExactlyWhen(cfg, now, CALLING);
    ReadableExactlyWhen(cfg, now, CALLING + [EventInput(TextDelta(LETTER, None), at)]);
    assert (CALLING + [EventInput(TextDelta(LETTER, None), at)])[..|CALLING|] == CALLING;
    TextIsUnfit(cfg, Run(cfg, now, CALLING), at);
  }

  lemma {:induction false} TextIsUnfit(cfg: Config, s: State, at: int)
    requires s.l.stepping && !cfg.compaction && s.p.hiddenRaw != [] && s.i.tool.Some?
    ensures !InputFits(cfg, s, EventInput(TextDelta(LETTER, None), at))
  {
  }

  lemma {:induction false} CallingIs(cfg: Config, now: int)
    requires cfg.hide && !cfg.compaction
    ensures var s := Run(cfg, now, CALLING);
      s.l.stepping && !s.w.closed && s.w.room.None? && s.p.hiddenRaw != [] && s.i.tool.Some?
    ensures FitsWhileOpen(cfg, now, CALLING)
  {
    hide Run, Next, InputFits, FitsWhileOpen;
    var a, b, c := [CALLING[0]], [CALLING[0], CALLING[1]], [CALLING[0], CALLING[1], CALLING[2]];
    assert [] + [CALLING[0]] == a && a + [CALLING[1]] == b && b + [CALLING[2]] == c && c + [CALLING[3]] == CALLING;
    Pulled(cfg, now);
    RunNext(cfg, now, [], CALLING[0]);
    RunNext(cfg, now, a, CALLING[1]);
    RunNext(cfg, now, b, CALLING[2]);
    RunNext(cfg, now, c, CALLING[3]);
    CallStarts(cfg, Start(now));
    FitsSnoc(cfg, now, [], CALLING[0]);
    FitsSnoc(cfg, now, a, CALLING[1]);
    FitsSnoc(cfg, now, b, CALLING[2]);
    FitsSnoc(cfg, now, c, CALLING[3]);
  }

  lemma {:induction false} FitsSnoc(cfg: Config, now: int, xs: seq<Input>, x: Input)
    requires InputFits(cfg, Run(cfg, now, xs), x)
    ensures FitsWhileOpen(cfg, now, xs) ==> FitsWhileOpen(cfg, now, xs + [x])
    ensures FitsWhileOpen(cfg, now, [])
  {
    hide Run, InputFits;
    assert (xs + [x])[..|xs|] == xs;
  }

  lemma {:induction false} CallStarts(cfg: Config, s: State)
    requires cfg.hide && !cfg.compaction && s.p == Pending([], [], [], [], [])
      && s.i == Items(0, 0, [], None, None, None, None)
    requires !s.l.stepping && !s.l.terminated && !s.l.upstreamDone && !s.w.closed && s.w.room.None?
    ensures var s1 := Next(cfg, s, CALLING[0]);
      var s2 := Next(cfg, s1, CALLING[1]);
      var s3 := Next(cfg, s2, CALLING[2]);
      var s4 := Next(cfg, s3, CALLING[3]);
      && InputFits(cfg, s, CALLING[0]) && InputFits(cfg, s1, CALLING[1]) && InputFits(cfg, s2, CALLING[2])
      && InputFits(cfg, s3, CALLING[3]) && s4.l.stepping && !s4.w.closed && s4.w.room.None?
      && s4.p.hiddenRaw != [] && s4.i.tool.Some?
  {
    var s1 := Next(cfg, s, CALLING[0]);
    assert s1.l.stepping && s1.i == s.i && s1.p == s.p && s1.w == s.w && s1.l.emittedAtStart == s.w.emitted;
    var s2 := Next(cfg, s1, CALLING[1]);
    assert s2.i.tool.Some? && s2.p == s.p && !s2.l.stepping && s2.w.room.None? && !s2.w.closed;
    assert !s2.l.terminated && !s2.l.upstreamDone;
    var s3 := Next(cfg, s2, CALLING[2]);
    assert s3.l.stepping && s3.i == s2.i && s3.p == s.p && s3.w == s2.w && s3.l.emittedAtStart == s3.w.emitted;
  }

  /** A turn stopped by the content filter: incomplete on the stream, completed in the batch form. */
  lemma {:induction false} ContentFilterExample(cfg: Config, now: int, at: int)
    requires !cfg.hide && !cfg.compaction
    ensures var e := Done(ContentFilter, None);
      && Terminals(Run(cfg, now, [PullInput, EventInput(e, at)]).w.frames)
           == [Terminal(Truncated, [], Reason("content_filter"), None)]
      && Batch.ResponseOf(cfg, Batch.Accumulate(cfg, [e])) == Batch.Response(Completed, [], None, None, None)
  {
    hide Run, Terminals, Batch.Accumulate, Batch.ResponseOf;
    FilteredWire(cfg, now, at);
    FilteredBatch(cfg);
    var created := Sent(Some(0), Created);
    var end := Sent(Some(1), End(Terminal(Truncated, [], Reason("content_filter"), None)));
    TerminalsSnoc([], created);
    assert [] + [created] == [created];
    TerminalsSnoc([created], end);
    TerminalsSnoc([created] + [end], Sent(None, DoneMark));
  }

  lemma {:induction false} FilteredWire(cfg: Config, now: int, at: int)
    requires !cfg.compaction
    ensures Run(cfg, now, [PullInput, EventInput(Done(ContentFilter, None), at)]).w.frames ==
      [Sent(Some(0), Created)] + [Sent(Some(1), End(Terminal(Truncated, [], Reason("content_filter"), None)))]
      + [Sent(None, DoneMark)]
  {
    var e := Done(ContentFilter, None);
    RunNext(cfg, now, [], PullInput);
    RunNext(cfg, now, [PullInput], EventInput(e, at));
    assert [] + [PullInput] == [PullInput] && [PullInput] + [EventInput(e, at)] == [PullInput, EventInput(e, at)];
    hide Run, Next;
    Pulled(cfg, now);
    FilteredStep(cfg, Run(cfg, now, [PullInput]), at);
  }

  /** The first pull of a run. */
  lemma {:induction false} Pulled(cfg: Config, now: int)
    ensures Run(cfg, now, []) == Start(now)
    ensures var s := Run(cfg, now, [PullInput]);
      && s.i == Items(0, 0, [], None, None, None, None) && s.p == Pending([], [], [], [], [])
      && s.w == Wire(false, None, 1, 1, [Sent(Some(0), Created)])
      && s.l.stepping && !s.l.cancelled && s.l.reported.None? && !s.l.terminated && !s.l.upstreamDone
      && s.w.emitted == s.l.emittedAtStart
  {
    RunNext(cfg, now, [], PullInput);
    assert [] + [PullInput] == [PullInput];
  }

  lemma {:induction false} FilteredStep(cfg: Config, s: State, at: int)
    requires !cfg.compaction && s.l.stepping && !s.w.closed && s.w.room.None? && !s.l.cancelled && s.l.reported.None?
    requires s.i == Items(0, 0, [], None, None, None, None) && s.p == Pending([], [], [], [], []) && s.w.nextNumber == 1
    ensures Next(cfg, s, EventInput(Done(ContentFilter, None), at)).w.frames == s.w.frames
      + [Sent(Some(1), End(Terminal(Truncated, [], Reason("content_filter"), None)))] + [Sent(None, DoneMark)]
  {
  }

  lemma {:induction false} FilteredBatch(cfg: Config)
    requires !cfg.compaction
    ensures var e := Done(ContentFilter, None);
      Batch.ResponseOf(cfg, Batch.Accumulate(cfg, [e])) == Batch.Response(Completed, [], None, None, None)
  {
    var e := Done(ContentFilter, None);
    assert [e][..0] == [];
    assert Batch.Accumulate(cfg, [e]) == Batch.OnEvent(cfg, Batch.EMPTY, e);
  }

  lemma {:induction false} TerminalsSnoc(frames: seq<Sent>, sent: Sent)
    ensures Terminals(frames + [sent]) == Terminals(frames) + if sent.frame.End? then [sent.frame.terminal] else []
    ensures Terminals([]) == []
  {
    assert (frames + [sent])[..|frames|] == frames;
  }

  /** `{"input":"\b"}` stands for one U+0008 and is previewed as the letter b. */
  lemma {:induction false} PreviewExample()
    ensures var p := Freeform.Short(Freeform.LETTER_B);
      && Freeform.Legal(p) && Freeform.Means([p]) == [0x08]
      && Freeform.Preview(Freeform.WRAP + (Freeform.Spell([p]) + [Freeform.QUOTE] + [0x7D])) == [Freeform.LETTER_B]
  {
    var p := Freeform.Short(Freeform.LETTER_B);
    assert [p][1..] == [];
    Freeform.PreviewWrapped(Freeform.Spell([p]) + [Freeform.QUOTE] + [0x7D]);
    Freeform.DecodeSpelled([p], [Freeform.QUOTE] + [0x7D]);
    assert Freeform.Spell([p]) + ([Freeform.QUOTE] + [0x7D]) == Freeform.Spell([p]) + [Freeform.QUOTE] + [0x7D];
  }
}
