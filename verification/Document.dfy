/** A config file as lines with their own terminators, so that untouched lines keep every byte. */
module Document {

  const BOM: char := '\U{FEFF}'

  /** `endings[i]` ends `lines[i]`; only a last line may lack one. */
  datatype Doc = Doc(lines: seq<string>, endings: seq<string>, bom: bool)

  predicate Valid(d: Doc) {
    |d.lines| == |d.endings|
  }

  predicate IsBreak(c: char) {
    c == '\n' || c == '\r'
  }

  predicate Unbroken(line: string) {
    forall i :: 0 <= i < |line| ==> !IsBreak(line[i])
  }

  function StripBom(text: string): string {
    if text != "" && text[0] == BOM then text[1..] else text
  }

  /** The index of the first line break character, or the length. */
  function FirstBreak(text: string): (n: nat)
    ensures n <= |text| && (n < |text| ==> IsBreak(text[n]))
    ensures forall i :: 0 <= i < n ==> !IsBreak(text[i])
  {
    if text == "" || IsBreak(text[0]) then 0
    else
      assert forall i :: 1 <= i < 1 + FirstBreak(text[1..]) ==> text[i] == text[1..][i - 1];
      1 + FirstBreak(text[1..])
  }

  /** The break at an index: CR LF together, or one character. */
  function BreakAt(text: string, n: nat): (b: string)
    requires n < |text|
    ensures 1 <= |b| <= 2 && n + |b| <= |text| && b == text[n..n + |b|]
  {
    if text[n] == '\r' && n + 1 < |text| && text[n + 1] == '\n' then text[n..n + 2] else text[n..n + 1]
  }

  function ParseBody(text: string): (d: Doc)
    ensures Valid(d) && !d.bom
  {
    if text == "" then Doc([], [], false)
    else
      var n := FirstBreak(text);
      if n == |text| then Doc([text], [""], false)
      else
        var b := BreakAt(text, n);
        var rest := ParseBody(text[n + |b|..]);
        Doc([text[..n]] + rest.lines, [b] + rest.endings, false)
  }

  function Parse(text: string): (d: Doc)
    ensures Valid(d)
  {
    ParseBody(StripBom(text)).(bom := text != "" && text[0] == BOM)
  }

  function RenderBody(lines: seq<string>, endings: seq<string>): string
    requires |lines| == |endings|
  {
    if lines == [] then "" else lines[0] + endings[0] + RenderBody(lines[1..], endings[1..])
  }

  function Render(d: Doc): string
    requires Valid(d)
  {
    if d.bom then [BOM] + RenderBody(d.lines, d.endings) else RenderBody(d.lines, d.endings)
  }

  // ---- Splitting, defined on its own ----

  /** Drop one line break at the very end. */
  function DropLastBreak(text: string): string {
    var n := |text|;
    if n >= 2 && text[n - 2] == '\r' && text[n - 1] == '\n' then text[..n - 2]
    else if n >= 1 && IsBreak(text[n - 1]) then text[..n - 1]
    else text
  }

  /** All the pieces between line breaks; splitting nothing gives one empty piece. */
  function Split(text: string): seq<string>
    decreases |text|
  {
    var n := FirstBreak(text);
    if n == |text| then [text] else [text[..n]] + Split(text[n + |BreakAt(text, n)|..])
  }

  function SplitLines(text: string): seq<string> {
    var body := StripBom(text);
    if body == "" then [] else Split(DropLastBreak(body))
  }

  // ---- Parsing loses nothing ----

  lemma {:induction false} BodyRoundTrip(text: string)
    ensures var d := ParseBody(text); RenderBody(d.lines, d.endings) == text
  {
    if text != "" {
      hide FirstBreak, BreakAt, Unbroken, IsEnding, Apart;
      if FirstBreak(text) < |text| {
        var line, b, rest := FirstLine(text);
        ParseLine(line, b, rest);
        BodyRoundTrip(rest);
      } else {
        assert text + "" + "" == text;
      }
    }
  }

  /** Every text is rendered back byte for byte. */
  lemma {:induction false} ParseRoundTrip(text: string)
    ensures Render(Parse(text)) == text
  {
    BodyRoundTrip(StripBom(text));
  }

  lemma {:induction false} FirstBreakOf(line: string, rest: string)
    requires (forall i :: 0 <= i < |line| ==> !IsBreak(line[i])) && (rest != "" ==> IsBreak(rest[0]))
    ensures FirstBreak(line + rest) == |line|
  {
    var n := FirstBreak(line + rest);
    assert forall i :: 0 <= i < |line| ==> (line + rest)[i] == line[i];
    if rest != "" {
      assert (line + rest)[|line|] == rest[0];
    }
  }

  /** Only the end matters to the last break, unless a CR LF straddles the cut. */
  lemma {:induction false} DropAppend(a: string, rest: string)
    requires rest != "" && (a != "" && a[|a| - 1] == '\r' ==> rest[0] != '\n')
    ensures DropLastBreak(a + rest) == a + DropLastBreak(rest)
  {
    var t, n, m := a + rest, |a + rest|, |rest|;
    hide IsBreak;
    assert t[n - 1] == rest[m - 1];
    if m >= 2 {
      assert t[n - 2] == rest[m - 2];
      SliceAppend(a, rest, m - 2);
    } else if a != "" {
      assert t[n - 2] == a[|a| - 1];
    }
    SliceAppend(a, rest, m - 1);
  }

  lemma {:induction false} SliceAppend(a: string, rest: string, k: nat)
    requires k <= |rest|
    ensures (a + rest)[..|a| + k] == a + rest[..k]
  {
  }

  lemma {:induction false} DropOnly(line: string, b: string)
    requires Unbroken(line) && IsEnding(b)
    ensures DropLastBreak(line + b) == line
  {
    var t := line + b;
    assert line != "" ==> t[|line| - 1] == line[|line| - 1];
    assert t[..|line|] == line;
  }

  /** A text that has a break is its first line, the break, and the rest. */
  lemma {:induction false} FirstLine(text: string) returns (line: string, b: string, rest: string)
    requires FirstBreak(text) < |text|
    ensures Unbroken(line) && IsEnding(b) && |rest| < |text|
    ensures Apart(b, rest)
    ensures text == line + b + rest
    ensures line == text[..FirstBreak(text)] && b == BreakAt(text, FirstBreak(text))
    ensures rest == text[FirstBreak(text) + |b|..]
  {
    var n := FirstBreak(text);
    line, b := text[..n], BreakAt(text, n);
    rest := text[n + |b|..];
  }

  /** Conversely, the first line and break of such a text. */
  lemma {:induction false} FirstLineOf(line: string, b: string, rest: string)
    requires Unbroken(line) && IsEnding(b)
    requires Apart(b, rest)
    ensures var text := line + b + rest;
      && FirstBreak(text) == |line| < |text| && BreakAt(text, |line|) == b
      && text[..|line|] == line && text[|line| + |b|..] == rest
  {
    var text := line + b + rest;
    assert text == line + (b + rest);
    FirstBreakOf(line, b + rest);
    assert text[|line|] == b[0];
    if |line| + 1 < |text| {
      assert text[|line| + 1] == (b + rest)[1];
    }
  }

  lemma {:induction false} ParseLine(line: string, b: string, rest: string)
    requires Unbroken(line) && IsEnding(b) && Apart(b, rest)
    ensures var d := ParseBody(rest);
      ParseBody(line + b + rest) == Doc([line] + d.lines, [b] + d.endings, false)
  {
    hide FirstBreak, BreakAt, Unbroken, IsEnding, Apart;
    FirstLineOf(line, b, rest);
  }

  lemma {:induction false} SplitLine(line: string, b: string, rest: string)
    requires Unbroken(line) && IsEnding(b) && Apart(b, rest)
    ensures Split(line + b + rest) == [line] + Split(rest)
  {
    hide FirstBreak, BreakAt, Unbroken, IsEnding, Apart;
    FirstLineOf(line, b, rest);
  }

  lemma {:induction false} SplitPlain(line: string)
    requires Unbroken(line)
    ensures Split(line) == [line]
  {
    FirstBreakOf(line, "");
    assert line + "" == line;
  }

  lemma {:induction false} ParsePlain(text: string)
    requires text != "" && FirstBreak(text) == |text|
    ensures ParseBody(text) == Doc([text], [""], false) && Unbroken(text)
  {
  }

  lemma {:induction false} SplitIsParse(text: string)
    requires text != ""
    ensures Split(DropLastBreak(text)) == ParseBody(text).lines
    decreases |text|
  {
    hide *;
    if FirstBreak(text) < |text| {
      var line, b, rest := FirstLine(text);
      ParseLine(line, b, rest);
      if rest == "" {
        ParseEmpty();
        assert line + b + rest == line + b;
        DropOnly(line, b);
        SplitPlain(line);
      } else {
        SplitIsParse(rest);
        NotStraddled(line, b, rest);
        DropAppend(line + b, rest);
        DroppedStart(b, rest);
        SplitLine(line, b, DropLastBreak(rest));
      }
    } else {
      ParsePlain(text);
      Unchanged(text);
      SplitPlain(text);
    }
  }

  lemma {:induction false} ParseEmpty()
    ensures ParseBody("") == Doc([], [], false)
  {
  }

  lemma {:induction false} NotStraddled(line: string, b: string, rest: string)
    requires IsEnding(b) && Apart(b, rest) && rest != ""
    ensures var a := line + b; a != "" && (a[|a| - 1] == '\r' ==> rest[0] != '\n')
  {
  }

  lemma {:induction false} Unchanged(text: string)
    requires text != "" && FirstBreak(text) == |text|
    ensures DropLastBreak(text) == text
  {
    assert !IsBreak(text[|text| - 1]);
  }

  lemma {:induction false} DroppedStart(b: string, rest: string)
    requires Apart(b, rest)
    ensures Apart(b, DropLastBreak(rest))
  {
  }

  /** The two ways of reading lines agree on every text. */
  lemma {:induction false} SplitLinesAgree(text: string)
    ensures SplitLines(text) == Parse(text).lines
  {
    if StripBom(text) != "" {
      SplitIsParse(StripBom(text));
    }
  }

  // ---- Rendering and reading again ----

  predicate IsEnding(b: string) {
    b == "\n" || b == "\r" || b == "\r\n"
  }

  /** A break and the text after it do not run together. */
  predicate Apart(b: string, rest: string) {
    b == "\r" && rest != "" ==> rest[0] != '\n'
  }

  predicate NoBom(line: string) {
    line == "" || line[0] != BOM
  }

  predicate IsTerminator(e: string) {
    e == "\n" || e == "\r\n"
  }

  /** Every line ends with LF or CR LF, and a file without a byte order mark does not look like it has one. */
  ghost predicate Clean(d: Doc) {
    && Valid(d)
    && (forall i :: 0 <= i < |d.lines| ==> Unbroken(d.lines[i]))
    && (forall i :: 0 <= i < |d.endings| ==> IsTerminator(d.endings[i]))
    && (!d.bom && d.lines != [] ==> NoBom(d.lines[0]))
  }

  ghost predicate AllTerminated(lines: seq<string>, endings: seq<string>) {
    |lines| == |endings| && forall i :: 0 <= i < |lines| ==> Unbroken(lines[i]) && IsTerminator(endings[i])
  }

  lemma {:induction false} TerminatorIsEnding(b: string, rest: string)
    requires IsTerminator(b)
    ensures IsEnding(b) && Apart(b, rest)
  {
  }

  lemma {:induction false} TailTerminated(lines: seq<string>, endings: seq<string>)
    requires AllTerminated(lines, endings) && lines != []
    ensures Unbroken(lines[0]) && IsTerminator(endings[0]) && AllTerminated(lines[1..], endings[1..])
    ensures [lines[0]] + lines[1..] == lines && [endings[0]] + endings[1..] == endings
  {
    hide Unbroken, IsTerminator;
  }

  lemma {:induction false} RenderStep(lines: seq<string>, endings: seq<string>)
    requires |lines| == |endings| && lines != []
    ensures RenderBody(lines, endings) == lines[0] + endings[0] + RenderBody(lines[1..], endings[1..])
  {
  }

  lemma {:induction false} BodyReadsBack(lines: seq<string>, endings: seq<string>)
    requires AllTerminated(lines, endings) && |lines| == |endings|
    ensures ParseBody(RenderBody(lines, endings)) == Doc(lines, endings, false)
  {
    if lines == [] {
      ParseEmpty();
    } else {
      hide *;
      TailTerminated(lines, endings);
      BodyReadsBack(lines[1..], endings[1..]);
      RenderStep(lines, endings);
      TerminatorIsEnding(endings[0], RenderBody(lines[1..], endings[1..]));
      ParseLine(lines[0], endings[0], RenderBody(lines[1..], endings[1..]));
    }
  }

  lemma {:induction false} RenderReadsBack(d: Doc)
    requires Clean(d)
    ensures Parse(Render(d)) == d
  {
    BodyReadsBack(d.lines, d.endings);
    var body := RenderBody(d.lines, d.endings);
    if d.bom {
      assert ([BOM] + body)[1..] == body;
    } else if d.lines != [] {
      assert body[0] == (d.lines[0] + d.endings[0])[0];
    }
  }

  /** The texts the editor is made for: empty or newline-terminated, with no CR that is not part of CR LF. */
  predicate Terminated(text: string) {
    && (text != "" ==> text[|text| - 1] == '\n' || text == [BOM])
    && (forall i :: 0 <= i < |text| && text[i] == '\r' ==> i + 1 < |text| && text[i + 1] == '\n')
  }

  lemma {:induction false} TerminatedBody(text: string)
    requires text != "" ==> text[|text| - 1] == '\n'
    requires forall i :: 0 <= i < |text| && text[i] == '\r' ==> i + 1 < |text| && text[i + 1] == '\n'
    ensures var d := ParseBody(text);
      (forall i :: 0 <= i < |d.lines| ==> Unbroken(d.lines[i]) && IsTerminator(d.endings[i]))
    ensures text != "" ==> ParseBody(text).lines != [] && ParseBody(text).lines[0] <= text
  {
    if text != "" {
      var n := FirstBreak(text);
      var b := BreakAt(text, n);
      var rest := text[n + |b|..];
      forall i | 0 <= i < |rest| && rest[i] == '\r'
        ensures i + 1 < |rest| && rest[i + 1] == '\n'
      {
        assert text[n + |b| + i] == rest[i];
      }
      TerminatedBody(rest);
      assert Unbroken(text[..n]);
      assert IsTerminator(b);
    }
  }

  lemma {:induction false} TerminatedIsClean(text: string)
    requires Terminated(text)
    ensures Clean(Parse(text))
  {
    var body := StripBom(text);
    forall i | 0 <= i < |body| && body[i] == '\r'
      ensures i + 1 < |body| && body[i + 1] == '\n'
    {
      var k := |text| - |body|;
      assert text[k + i] == body[i];
    }
    TerminatedBody(body);
  }

  // ---- Editing ----

  function Dominant(endings: seq<string>): string {
    if endings == [] then "\n"
    else if endings[0] != "" then endings[0]
    else Dominant(endings[1..])
  }

  function InsertAt<T>(s: seq<T>, i: nat, x: T): seq<T>
    requires i <= |s|
  {
    s[..i] + [x] + s[i..]
  }

  function RemoveAt<T>(s: seq<T>, i: nat): seq<T>
    requires i < |s|
  {
    s[..i] + s[i + 1..]
  }

  function Clamp(i: int, n: nat): nat {
    if i < 0 then 0 else if i < n then i else n
  }

  function InsertEnding(endings: seq<string>, at: nat): seq<string>
    requires at <= |endings|
  {
    var n := |endings|;
    if at < n then InsertAt(endings, at, endings[at])
    else if n == 0 then [Dominant(endings)]
    else endings[n - 1 := Dominant(endings)] + [endings[n - 1]]
  }

  function RemoveEnding(endings: seq<string>, at: nat): seq<string>
    requires at < |endings|
  {
    var n := |endings|;
    if at == n - 1 && n >= 2 then endings[..n - 1][n - 2 := endings[n - 1]] else RemoveAt(endings, at)
  }

  /** Insert a line: a copy of the terminator there, or at the end the last terminator moves to the new line. */
  function Insert(d: Doc, index: int, line: string): (r: Doc)
    requires Valid(d)
    ensures Valid(r)
  {
    var at := Clamp(index, |d.lines|);
    d.(lines := InsertAt(d.lines, at, line), endings := InsertEnding(d.endings, at))
  }

  function Remove(d: Doc, index: int): (r: Doc)
    requires Valid(d)
    ensures Valid(r)
  {
    if 0 <= index < |d.lines| then d.(lines := RemoveAt(d.lines, index), endings := RemoveEnding(d.endings, index))
        else d
  }

  /** Removing a line just inserted restores the document, with the last line's terminator, at every position. */
  lemma {:induction false} RemoveUndoesInsert(d: Doc, index: int, line: string)
    requires Valid(d)
    ensures Remove(Insert(d, index, line), Clamp(index, |d.lines|)) == d
  {
    var at := Clamp(index, |d.lines|);
    RemoveInserted(d.lines, at, line);
    RemoveInsertedEnding(d.endings, at);
  }

  /** Why the last line needs a terminator: a line put before it copies none, and the two are read as one. */
  lemma {:induction false} UnterminatedLinesMerge(line: string, last: string)
    requires Unbroken(line) && line != "" && NoBom(line) && Unbroken(last) && last != "" && NoBom(last)
    ensures Parse(last).lines == [last]
    ensures var d := Insert(Parse(last), 0, line); d.lines == [line, last] && Parse(Render(d)).lines == [line + last]
  {
    hide Unbroken, Insert;
    PlainText(last);
    var d := Insert(Parse(last), 0, line);
    assert d == Doc([line, last], ["", ""], false) by {
      InsertBefore(last, line);
    }
    assert RenderBody(d.lines, d.endings) == line + last by {
      RenderStep(d.lines, d.endings);
      RenderStep([last], [""]);
      EmptyRenders();
      assert d.lines[1..] == [last] && d.endings[1..] == [""];
      assert [last][1..] == [] && [""][1..] == [];
    }
    BothUnbroken(line, last);
    PlainText(line + last);
  }

  lemma {:induction false} PlainText(text: string)
    requires Unbroken(text) && text != "" && NoBom(text)
    ensures Parse(text) == Doc([text], [""], false)
  {
    FirstBreakOf(text, "");
    assert text + "" == text;
    ParsePlain(text);
  }

  lemma {:induction false} InsertBefore(last: string, line: string)
    ensures Insert(Doc([last], [""], false), 0, line) == Doc([line, last], ["", ""], false)
  {
  }

  lemma {:induction false} BothUnbroken(a: string, b: string)
    requires Unbroken(a) && Unbroken(b)
    ensures Unbroken(a + b)
  {
  }

  lemma {:induction false} RemoveInserted<T>(s: seq<T>, at: nat, x: T)
    requires at <= |s|
    ensures RemoveAt(InsertAt(s, at, x), at) == s
  {
  }

  lemma {:induction false} RemoveInsertedEnding(endings: seq<string>, at: nat)
    requires at <= |endings|
    ensures at < |InsertEnding(endings, at)| && RemoveEnding(InsertEnding(endings, at), at) == endings
  {
    hide Dominant;
    var n := |endings|;
    if at < n {
      RemoveInserted(endings, at, endings[at]);
    }
  }

  // ---- The document object ----

  /** The lines read so far, and those still in the text from `start` on, are the document. */
  ghost predicate ReadUpTo(body: string, start: nat, ls: seq<string>, es: seq<string>) {
    start <= |body| &&
    var rest := ParseBody(body[start..]);
    ParseBody(body) == Doc(ls + rest.lines, es + rest.endings, false)
  }

  lemma {:induction false} NextLine(body: string, start: nat, next: nat, ls: seq<string>, es: seq<string>)
    requires ReadUpTo(body, start, ls, es) && start <= next < |body| && next == start + FirstBreak(body[start..])
    ensures var b := BreakAt(body, next);
      ReadUpTo(body, next + |b|, ls + [body[start..next]], es + [b])
  {
    hide FirstBreak;
    var b := BreakAt(body, next);
    var rest := ParseBody(body[next + |b|..]);
    assert body[start..][..next - start] == body[start..next];
    assert BreakAt(body[start..], next - start) == b;
    assert body[start..][next - start + |b|..] == body[next + |b|..];
    assert ls + ([body[start..next]] + rest.lines) == ls + [body[start..next]] + rest.lines;
    assert es + ([b] + rest.endings) == es + [b] + rest.endings;
  }

  method ParseLines(body: string) returns (ls: seq<string>, es: seq<string>)
    ensures ParseBody(body) == Doc(ls, es, false)
  {
    hide FirstBreak, BreakAt, ParseBody;
    ls, es := [], [];
    var start := 0;
    assert body[0..] == body;
    var next := FirstBreak(body);
    ParseEmpty();
    while next < |body|
      invariant start <= next <= |body| && next == start + FirstBreak(body[start..])
      invariant ReadUpTo(body, start, ls, es)
      decreases |body| - start
    {
      var b := BreakAt(body, next);
      NextLine(body, start, next, ls, es);
      ls := ls + [body[start..next]];
      es := es + [b];
      start := next + |b|;
      next := start + FirstBreak(body[start..]);
    }
    if start < |body| {
      ParsePlain(body[start..]);
      ls := ls + [body[start..]];
      es := es + [""];
    } else {
      assert body[start..] == "" && ls + [] == ls && es + [] == es;
    }
  }

  lemma {:induction false} EmptyRenders()
    ensures RenderBody([], []) == ""
  {
  }

  lemma {:induction false} Associates(a: string, b: string, c: string)
    ensures a + (b + c) == a + b + c
  {
  }

  lemma {:induction false} RenderSnoc(lines: seq<string>, endings: seq<string>, i: nat)
    requires |lines| == |endings| && i < |lines|
    ensures RenderBody(lines[i..], endings[i..]) == lines[i] + endings[i] + RenderBody(lines[i + 1..], endings[i + 1..])
  {
    assert lines[i..][1..] == lines[i + 1..] && endings[i..][1..] == endings[i + 1..];
  }

  class ConfigDocument {
    var lines: seq<string>
    var endings: seq<string>
    const bom: bool

    function View(): Doc
      reads this
    {
      Doc(lines, endings, bom)
    }

    constructor (text: string)
      ensures View() == Parse(text)
    {
      bom := text != "" && text[0] == BOM;
      var ls, es := ParseLines(StripBom(text));
      lines, endings := ls, es;
    }

    method SetLine(index: nat, line: string)
      requires index < |lines|
      modifies this`lines
      ensures lines == old(lines)[index := line]
    {
      lines := lines[index := line];
    }

    method InsertLine(index: int, line: string)
      requires Valid(View())
      modifies this`lines, this`endings
      ensures View() == Insert(old(View()), index, line)
    {
      var position := Clamp(index, |lines|);
      var ending := Dominant(endings);
      if position == |lines| {
        var last := |lines| - 1;
        var trailing := if last >= 0 then endings[last] else ending;
        if last >= 0 {
          endings := endings[last := ending];
        }
        assert lines + [line] == InsertAt(lines, position, line);
        lines := lines + [line];
        endings := endings + [trailing];
        return;
      }
      endings := endings[..position] + [endings[position]] + endings[position..];
      lines := lines[..position] + [line] + lines[position..];
    }

    method RemoveLine(index: int)
      requires Valid(View())
      modifies this`lines, this`endings
      ensures View() == Remove(old(View()), index)
    {
      if index < 0 || index >= |lines| {
        return;
      }
      var wasLast := index == |lines| - 1;
      var trailing := endings[index];
      lines := lines[..index] + lines[index + 1..];
      endings := endings[..index] + endings[index + 1..];
      if wasLast && |endings| > 0 {
        endings := endings[|endings| - 1 := trailing];
      }
    }

    method RenderText() returns (text: string)
      requires Valid(View())
      ensures text == Render(View())
    {
      var body := "";
      assert lines[0..] == lines && endings[0..] == endings;
      hide RenderBody;
      EmptyRenders();
      for i := 0 to |lines|
        invariant RenderBody(lines, endings) == body + RenderBody(lines[i..], endings[i..])
      {
        RenderSnoc(lines, endings, i);
        Associates(body, lines[i] + endings[i], RenderBody(lines[i + 1..], endings[i + 1..]));
        Associates(body, lines[i], endings[i]);
        body := body + lines[i] + endings[i];
      }
      text := if bom then [BOM] + body else body;
    }
  }
}
