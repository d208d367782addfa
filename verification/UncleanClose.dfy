/**
 * A relay that forgives a reset connection when the event stream had already ended. The stream's text is
 * inspected line by line as chunks arrive; the decision must not depend on where the chunks were cut.
 */
module UncleanClose {
  import opened Common

  const TERMINATOR: string := "data: [DONE]"

  type Byte = b: int | 0 <= b < 0x100

  /**
   * One read of the upstream: a chunk with the text its decoder gave, the end with the decoder's last text, or a
   * reset.
   */
  datatype Read =
    | Chunk(bytes: seq<Byte>, text: string)
    | End(flushed: string)
    | Reset

  datatype Phase = Open | Closed | ClosedAfterReset(reported: nat) | Failed

  /** The line being collected and whether a terminator line has been seen. */
  datatype Scan = Scan(lineBuffer: string, completed: bool)

  datatype State = State(scan: Scan, bytes: nat, forwarded: seq<Byte>, phase: Phase)

  const START: State := State(Scan("", false), 0, [], Open)

  function WithoutCr(line: string): string {
    if line != "" && line[|line| - 1] == '\r' then line[..|line| - 1] else line
  }

  predicate IsTerminator(line: string) {
    WithoutCr(line) == TERMINATOR
  }

  /** Scanning as if the text came one character at a time. */
  function Inspect(s: Scan, text: string): Scan {
    if text == "" then s
    else
      var before, c := Inspect(s, text[..|text| - 1]), text[|text| - 1];
      if c == '\n' then Scan("", before.completed || IsTerminator(before.lineBuffer))
      else before.(lineBuffer := before.lineBuffer + [c])
  }

  predicate FinallyCompleted(s: Scan) {
    s.completed || IsTerminator(s.lineBuffer)
  }

  function Step(s: State, r: Read): State {
    if !s.phase.Open? then s
    else
      match r
      case Chunk(bytes, text) =>
        State(Inspect(s.scan, text), s.bytes + |bytes|, s.forwarded + bytes, Open)
      case End(flushed) =>
        var scan := Inspect(s.scan, flushed);
        s.(scan := scan.(completed := FinallyCompleted(scan)), phase := Closed)
      case Reset =>
        s.(scan := s.scan.(completed := FinallyCompleted(s.scan)),
           phase := if FinallyCompleted(s.scan) then ClosedAfterReset(s.bytes) else Failed)
  }

  function Run(rs: seq<Read>): State {
    if rs == [] then START else Step(Run(rs[..|rs| - 1]), rs[|rs| - 1])
  }

  // ---- What the whole stream says ----

  function AllText(rs: seq<Read>): string {
    if rs == [] then "" else
      AllText(rs[..|rs| - 1]) + if rs[|rs| - 1].Chunk? then rs[|rs| - 1].text else ""
  }

  function AllBytes(rs: seq<Read>): seq<Byte> {
    if rs == [] then [] else
      AllBytes(rs[..|rs| - 1]) + if rs[|rs| - 1].Chunk? then rs[|rs| - 1].bytes else []
  }

  /** Is `text[from..to]` one line of the text: complete when a line feed follows, or the unterminated tail. */
  predicate IsLine(text: string, from: int, to: int) {
    && 0 <= from <= to <= |text|
    && (from == 0 || text[from - 1] == '\n')
    && (to == |text| || text[to] == '\n')
    && (forall k :: from <= k < to ==> text[k] != '\n')
  }

  ghost predicate HasTerminatorLine(text: string) {
    exists from, to :: IsLine(text, from, to) && IsTerminator(text[from..to])
  }

  ghost predicate HasCompleteTerminatorLine(text: string) {
    exists from, to :: IsLine(text, from, to) && to < |text| && IsTerminator(text[from..to])
  }

  // ---- Scanning finds the terminator line ----

  lemma {:induction false} InspectConcat(s: Scan, a: string, b: string)
    ensures Inspect(s, a + b) == Inspect(Inspect(s, a), b)
  {
    if b == "" {
      assert a + b == a;
    } else {
      InspectConcat(s, a, b[..|b| - 1]);
      assert (a + b)[..|a + b| - 1] == a + b[..|b| - 1];
    }
  }

  lemma {:induction false} LineStartIsUnique(text: string, a: int, b: int, to: int)
    requires IsLine(text, a, to) && IsLine(text, b, to)
    ensures a == b
  {
  }

  /** One more character changes no complete line, and completes the last one if it is a line feed. */
  lemma {:induction false} LinesSnoc(init: string, c: char, from: int, to: int)
    ensures to < |init| ==> (IsLine(init + [c], from, to) <==> IsLine(init, from, to))
    ensures to == |init| ==> (IsLine(init + [c], from, to) <==> IsLine(init, from, to) && c == '\n')
    ensures 0 <= from <= to <= |init| ==> (init + [c])[from..to] == init[from..to]
  {
    var text := init + [c];
    assert forall k :: 0 <= k < |init| ==> init[k] == text[k];
  }

  lemma {:induction false} CompleteSnoc(init: string, c: char, start: nat)
    requires IsLine(init, start, |init|)
    ensures HasCompleteTerminatorLine(init + [c]) <==>
      HasCompleteTerminatorLine(init) || (c == '\n' && IsTerminator(init[start..]))
  {
    hide IsTerminator;
    var text := init + [c];
    assert init[start..|init|] == init[start..];
    LinesSnoc(init, c, start, |init|);
    if HasCompleteTerminatorLine(text) {
      var from, to :| IsLine(text, from, to) && to < |text| && IsTerminator(text[from..to]);
      LinesSnoc(init, c, from, to);
      if to == |init| {
        LineStartIsUnique(init, from, start, |init|);
      }
    }
    if HasCompleteTerminatorLine(init) {
      var from, to :| IsLine(init, from, to) && to < |init| && IsTerminator(init[from..to]);
      LinesSnoc(init, c, from, to);
    }
  }

  /** The buffer is the text after the last line feed; `completed` says a complete line was the terminator. */
  lemma {:induction false} InspectMeaning(text: string)
    ensures var s := Inspect(Scan("", false), text);
      && |s.lineBuffer| <= |text| && IsLine(text, |text| - |s.lineBuffer|, |text|)
      && s.lineBuffer == text[|text| - |s.lineBuffer|..]
      && (s.completed <==> HasCompleteTerminatorLine(text))
  {
    hide IsTerminator;
    if text != "" {
      var init, c := text[..|text| - 1], text[|text| - 1];
      assert text == init + [c];
      InspectMeaning(init);
      CompleteSnoc(init, c, |init| - |Inspect(Scan("", false), init).lineBuffer|);
    }
  }

  lemma {:induction false} FinallyMeans(text: string)
    ensures FinallyCompleted(Inspect(Scan("", false), text)) <==> HasTerminatorLine(text)
  {
    InspectMeaning(text);
    var s := Inspect(Scan("", false), text);
    var start := |text| - |s.lineBuffer|;
    assert text[start..|text|] == s.lineBuffer;
    if HasTerminatorLine(text) {
      var from, to :| IsLine(text, from, to) && IsTerminator(text[from..to]);
      if to == |text| {
        LineStartIsUnique(text, from, start, |text|);
      }
    }
  }

  lemma {:induction false} RunWhileOpen(rs: seq<Read>)
    requires forall i :: 0 <= i < |rs| ==> rs[i].Chunk?
    ensures Run(rs) == State(Inspect(Scan("", false), AllText(rs)), |AllBytes(rs)|, AllBytes(rs), Open)
  {
    if rs != [] {
      var init := rs[..|rs| - 1];
      RunWhileOpen(init);
      InspectConcat(Scan("", false), AllText(init), rs[|rs| - 1].text);
    }
  }

  /**
   * For every cut of a stream into chunks, a reset after them closes normally exactly when a line of the
   * whole text is the terminator; what was forwarded is what was received, and its size is reported.
   */
  lemma {:induction false} DecisionIsChunkIndependent(chunks: seq<Read>)
    requires forall i :: 0 <= i < |chunks| ==> chunks[i].Chunk?
    ensures var s := Run(chunks + [Reset]);
      && s.forwarded == AllBytes(chunks)
      && s.phase == (if HasTerminatorLine(AllText(chunks)) then ClosedAfterReset(|AllBytes(chunks)|) else Failed)
  {
    RunWhileOpen(chunks);
    FinallyMeans(AllText(chunks));
    assert (chunks + [Reset])[..|chunks|] == chunks;
  }

  /** A line counts only as the exact terminator, with or without one carriage return after it. */
  lemma {:induction false} TerminatorIsExact(line: string)
    ensures IsTerminator(line) <==> line == "data: [DONE]" || line == "data: [DONE]" + "\r"
  {
    assert IsTerminator(line) && line != TERMINATOR ==> line == line[..|line| - 1] + "\r";
    assert ("data: [DONE]" + "\r")[..|TERMINATOR|] == TERMINATOR;
  }

  /** Once a stream is over, later reads change nothing. */
  lemma {:induction false} OverIsOver(rs: seq<Read>, later: seq<Read>)
    requires !Run(rs).phase.Open?
    ensures Run(rs + later) == Run(rs)
    decreases |later|
  {
    if later == [] {
      assert rs + later == rs;
    } else {
      OverIsOver(rs, later[..|later| - 1]);
      assert (rs + later)[..|rs + later| - 1] == rs + later[..|later| - 1];
    }
  }

  /**
   * For every cut of a stream into chunks, a clean end closes it normally whatever its text was: all bytes were
   * forwarded, no unclean close is reported, and nothing that is read later changes that.
   */
  lemma {:induction false} CleanEndCloses(chunks: seq<Read>, flushed: string, later: seq<Read>)
    requires forall i :: 0 <= i < |chunks| ==> chunks[i].Chunk?
    ensures var s := Run(chunks + [End(flushed)] + later);
      && s.phase == Closed && s.forwarded == AllBytes(chunks) && s.bytes == |AllBytes(chunks)|
      && s == Run(chunks + [End(flushed)])
  {
    RunWhileOpen(chunks);
    assert (chunks + [End(flushed)])[..|chunks|] == chunks;
    OverIsOver(chunks + [End(flushed)], later);
  }

  /** What is reported of a stream: the size of an unclean close that was forgiven, at most once. */
  function Reported(p: Phase): Option<nat> {
    match p
    case ClosedAfterReset(n) => Some(n)
    case _ => None
  }

  /** Over any reads, an unclean close is reported exactly when the first read that is no chunk is a forgiven reset. */
  lemma {:induction false} ReportedExactlyWhen(chunks: seq<Read>, last: Read, later: seq<Read>)
    requires forall i :: 0 <= i < |chunks| ==> chunks[i].Chunk?
    requires !last.Chunk?
    ensures Reported(Run(chunks + [last] + later).phase) ==
      if last.Reset? && HasTerminatorLine(AllText(chunks)) then Some(|AllBytes(chunks)|) else None
    ensures Run(chunks + [last] + later).phase.Failed? <==> last.Reset? && !HasTerminatorLine(AllText(chunks))
  {
    match last {
      case End(flushed) => CleanEndCloses(chunks, flushed, later);
      case Reset =>
        DecisionIsChunkIndependent(chunks);
        OverIsOver(chunks + [Reset], later);
    }
  }

  /** Whatever comes, what is forwarded is the received bytes up to the first end or reset, in order. */
  lemma {:induction false} ForwardsWhatItReceives(rs: seq<Read>)
    ensures Run(rs).forwarded <= AllBytes(rs)
    ensures Run(rs).phase.Open? ==> Run(rs).forwarded == AllBytes(rs)
    ensures Run(rs).phase.Open? <==> forall i :: 0 <= i < |rs| ==> rs[i].Chunk?
    ensures Run(rs).bytes == |Run(rs).forwarded|
  {
    if rs != [] {
      ForwardsWhatItReceives(rs[..|rs| - 1]);
    }
  }

  // ---- The relay object ----

  class Relay {
    var lineBuffer: string
    var completed: bool
    var bytes: nat
    var phase: Phase
    ghost var forwarded: seq<Byte>

    ghost function View(): State
      reads this
    {
      State(Scan(lineBuffer, completed), bytes, forwarded, phase)
    }

    /** Between reads the buffer never holds a line feed. */
    ghost predicate Valid()
      reads this
    {
      '\n' !in lineBuffer
    }

    constructor ()
      ensures Valid() && View() == START
    {
      lineBuffer, completed, bytes, phase, forwarded := "", false, 0, Open, [];
    }

    method InspectLines(text: string)
      requires Valid()
      modifies this`lineBuffer, this`completed
      ensures Valid() && Scan(lineBuffer, completed) == Inspect(old(Scan(lineBuffer, completed)), text)
    {
      hide IsTerminator, Inspect, FirstNewline;
      PlainTextIsKept(completed, lineBuffer);
      InspectConcat(Scan("", completed), lineBuffer, text);
      lineBuffer := lineBuffer + text;
      var newline := IndexOfNewline(lineBuffer);
      while newline < |lineBuffer|
        invariant newline == FirstNewline(lineBuffer)
        invariant Inspect(Scan("", completed), lineBuffer) == Inspect(old(Scan(lineBuffer, completed)), text)
        decreases |lineBuffer|
      {
        var line := lineBuffer[..newline];
        FirstLineIsInspected(completed, line, lineBuffer[newline + 1..]);
        SplitAtNewline(lineBuffer, newline);
        lineBuffer := lineBuffer[newline + 1..];
        if IsTerminator(line) {
          completed := true;
        }
        newline := IndexOfNewline(lineBuffer);
      }
      PlainTextIsKept(completed, lineBuffer);
    }

    method InspectTrailingLine()
      modifies this`completed
      ensures completed == FinallyCompleted(old(Scan(lineBuffer, completed)))
    {
      if WithoutCr(lineBuffer) == TERMINATOR {
        completed := true;
      }
    }

    method Pull(r: Read)
      requires Valid() && phase.Open?
      modifies this
      ensures Valid() && View() == Step(old(View()), r)
    {
      match r
      case Chunk(received, text) =>
        bytes := bytes + |received|;
        InspectLines(text);
        forwarded := forwarded + received;
      case End(flushed) =>
        InspectLines(flushed);
        InspectTrailingLine();
        phase := Closed;
      case Reset =>
        InspectTrailingLine();
        phase := if completed then ClosedAfterReset(bytes) else Failed;
    }
  }

  /** The index of the first line feed, or the length when there is none. */
  function FirstNewline(text: string): (n: nat)
    ensures n <= |text| && '\n' !in text[..n] && (n < |text| ==> text[n] == '\n')
  {
    if text == "" || text[0] == '\n' then 0
    else
      assert text[..FirstNewline(text[1..]) + 1] == [text[0]] + text[1..][..FirstNewline(text[1..])];
      1 + FirstNewline(text[1..])
  }

  method IndexOfNewline(text: string) returns (n: nat)
    ensures n == FirstNewline(text)
  {
    n := 0;
    while n < |text| && text[n] != '\n'
      invariant n <= |text| && FirstNewline(text) == n + FirstNewline(text[n..])
    {
      assert text[n..][1..] == text[n + 1..];
      n := n + 1;
    }
  }

  lemma {:induction false} PlainTextIsKept(completed: bool, text: string)
    requires '\n' !in text
    ensures Inspect(Scan("", completed), text) == Scan(text, completed)
  {
    if text != "" {
      PlainTextIsKept(completed, text[..|text| - 1]);
      assert text == text[..|text| - 1] + [text[|text| - 1]];
    }
  }

  lemma {:induction false} SplitAtNewline(text: string, n: nat)
    requires n < |text| && text[n] == '\n'
    ensures text == text[..n] + "\n" + text[n + 1..]
  {
  }

  lemma {:induction false} WholeLineIsInspected(completed: bool, line: string)
    requires '\n' !in line
    ensures Inspect(Scan("", completed), line + "\n") == Scan("", completed || IsTerminator(line))
  {
    hide IsTerminator;
    PlainTextIsKept(completed, line);
    assert (line + "\n")[..|line|] == line;
  }

  lemma {:induction false} FirstLineIsInspected(completed: bool, line: string, rest: string)
    requires '\n' !in line
    ensures Inspect(Scan("", completed), line + "\n" + rest) ==
            Inspect(Scan("", completed || IsTerminator(line)), rest)
  {
    hide *;
    WholeLineIsInspected(completed, line);
    InspectConcat(Scan("", completed), line + "\n", rest);
  }
}
