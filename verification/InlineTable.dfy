/**
 * Setting `enabled = false` inside a one-line inline table without disturbing anything else on the line.
 * JSON string decoding of quoted keys is a parameter.
 */
module InlineTable {
  import opened Common
  import opened Toml

  /** `JSON.parse` of a quoted string, where it succeeds with a string. */
  datatype Json = Json(parse: string -> Option<string>)

  // ---- Cutting the body at its top-level commas ----

  predicate AtTop(l: Lex) {
    l.square == 0 && l.curly == 0
  }

  /** The finished segments, the one being read, and where the scan stands. */
  datatype Cut = Cut(done: seq<string>, current: string, lex: Lex)

  const NOTHING: Cut := Cut([], "", Toml.START)

  function Feed(s: Cut, c: char): Cut {
    if c == ',' && Plain(s.lex, c) && AtTop(s.lex) then Cut(s.done + [s.current], "", s.lex)
    else Cut(s.done, s.current + [c], Advance(s.lex, c))
  }

  function FeedAll(s: Cut, text: string): Cut {
    if text == "" then s else Feed(FeedAll(s, text[..|text| - 1]), text[|text| - 1])
  }

  function Join(segments: seq<string>): string {
    if segments == [] then ""
    else if |segments| == 1 then segments[0]
    else Join(segments[..|segments| - 1]) + "," + segments[|segments| - 1]
  }

  /** The first top-level `=` of a segment. */
  function EqualsIn(s: string): (r: Option<nat>)
    ensures r.Some? ==> r.value < |s| && s[r.value] == '='
  {
    if s == "" then None
    else
      var m := |s| - 1;
      var r, l := EqualsIn(s[..m]), Scan(Toml.START, s[..m]);
      if r.Some? then r
      else if s[m] == '=' && Plain(l, '=') && AtTop(l) && !l.failed then Some(m)
      else None
  }

  predicate IsBareKey(key: string) {
    key != "" && forall i :: 0 <= i < |key| ==>
      'A' <= key[i] <= 'Z' || 'a' <= key[i] <= 'z' || '0' <= key[i] <= '9' || key[i] == '_' || key[i] == '-'
  }

  /** A quoted string's ends; a lone quote counts as both, as `startsWith` and `endsWith` see it. */
  predicate Wrapped(s: string, quote: char) {
    s != "" && s[0] == quote && s[|s| - 1] == quote
  }

  function DecodeKey(raw: string, json: Json): Option<string> {
    var key := Trim(raw);
    if IsBareKey(key) then Some(key)
    else if Wrapped(key, '"') then json.parse(key)
    else if Wrapped(key, '\'') then Some(if |key| == 1 then "" else key[1..|key| - 1])
    else None
  }

  predicate NamesEnabled(raw: string, json: Json) {
    DecodeKey(raw, json) == Some("enabled")
  }

  predicate IsBoolean(value: string) {
    value == "true" || value == "false"
  }

  /** What one segment of the table is; an `enabled` field knows where in the segment its value stands. */
  datatype Kind = Empty | Other | Enabled(start: nat, value: string) | Bad

  function KindOf(segment: string, json: Json): (k: Kind)
    ensures k.Enabled? ==> k.start + |k.value| <= |segment|
  {
    if Trim(segment) == "" then Empty
    else
      var equals := EqualsIn(segment);
      if equals.None? then Bad
      else if !NamesEnabled(segment[..equals.value], json) then Other
      else
        var right := TrimStart(segment[equals.value + 1..]);
        var value := TrimEnd(right);
        if IsBoolean(value) then Enabled(|segment| - |right|, value) else Bad
  }

  /** The one `enabled` segment, if any; a second one or a bad segment is an error. */
  function FindEnabled(segments: seq<string>, json: Json): (r: Result<Option<nat>>)
    ensures r.Ok? && r.value.Some? ==> r.value.value < |segments|
  {
    if segments == [] then Ok(None)
    else
      var n := |segments| - 1;
      var r := FindEnabled(segments[..n], json);
      if r.Err? then r
      else
        match KindOf(segments[n], json)
        case Bad => Err("unparsable field")
        case Enabled(_, _) => if r.value.Some? then Err("duplicate enabled") else Ok(Some(n))
        case _ => r
  }

  /** A parsed inline table: the text before its brace, its segments, and which one is `enabled`. */
  datatype Table = Table(head: string, segments: seq<string>, at: Option<nat>)

  function ParseBody(head: string, body: string, json: Json): Result<Option<Table>> {
    var cut := FeedAll(NOTHING, body);
    if cut.lex.failed || cut.lex.quote != Bare || !AtTop(cut.lex) then Err("unbalanced inline table")
    else
      var segments := cut.done + [cut.current];
      match FindEnabled(segments, json)
      case Err(e) => Err(e)
      case Ok(at) => Ok(Some(Table(head, segments, at)))
  }

  /** `Ok(None)` when the value is not an inline table at all. */
  function Parse(raw: string, json: Json): Result<Option<Table>> {
    var value := StripComment(raw);
    var t := TrimStart(value);
    TrimStartSplits(value);
    if t == "" || t[0] != '{' then Ok(None)
    else if t[|t| - 1] != '}' then Err("unterminated inline table")
    else ParseBody(value[..|value| - |t|], t[1..|t| - 1], json)
  }

  /** The field's value, or "unset". */
  function ValueOf(t: Table, json: Json): string {
    if t.at.Some? && t.at.value < |t.segments| && KindOf(t.segments[t.at.value], json).Enabled?
    then KindOf(t.segments[t.at.value], json).value else "unset"
  }

  /** Where a segment starts in the body. */
  function Offset(segments: seq<string>, k: nat): nat
    requires k <= |segments|
  {
    if k == 0 then 0 else Offset(segments, k - 1) + |segments[k - 1]| + 1
  }

  /** The other fields of the table, without the white space around them. */
  function OtherFields(segments: seq<string>, json: Json): seq<string> {
    if segments == [] then []
    else
      var n := |segments| - 1;
      OtherFields(segments[..n], json) + if KindOf(segments[n], json).Other? then [Trim(segments[n])] else []
  }

  // ---- Balanced segments ----

  /** Read on its own, the segment ends where it began and has no top-level comma. */
  predicate Closed(segment: string) {
    FeedAll(NOTHING, segment) == Cut([], segment, Toml.START)
  }

  lemma {:induction false} FeedConcat(s: Cut, a: string, b: string)
    ensures FeedAll(s, a + b) == FeedAll(FeedAll(s, a), b)
  {
    if b == "" {
      assert a + b == a;
    } else {
      FeedConcat(s, a, b[..|b| - 1]);
      assert (a + b)[..|a + b| - 1] == a + b[..|b| - 1];
    }
  }

  /** Segments already cut, and text already read into a segment, do not affect how the rest is cut. */
  lemma {:induction false} FeedFrame(done: seq<string>, current: string, text: string)
    ensures var r := FeedAll(NOTHING, text);
      FeedAll(Cut(done, current, Toml.START), text) ==
        if r.done == [] then Cut(done, current + r.current, r.lex)
        else Cut(done + [current + r.done[0]] + r.done[1..], r.current, r.lex)
  {
    if text == "" {
      assert current + "" == current;
    } else {
      var init, c := text[..|text| - 1], text[|text| - 1];
      FeedFrame(done, current, init);
      var r := FeedAll(NOTHING, init);
      if r.done == [] {
        assert done + [current + r.current] == done + [current + ([r.current])[0]] + [r.current][1..];
      } else {
        assert (r.done + [r.current])[1..] == r.done[1..] + [r.current];
      }
    }
  }

  lemma {:induction false} FeedClosed(done: seq<string>, current: string, text: string)
    requires Closed(text)
    ensures FeedAll(Cut(done, current, Toml.START), text) == Cut(done, current + text, Toml.START)
  {
    FeedFrame(done, current, text);
  }

  lemma {:induction false} ClosedConcat(a: string, b: string)
    requires Closed(a) && Closed(b)
    ensures Closed(a + b)
  {
    FeedConcat(NOTHING, a, b);
    FeedClosed([], a, b);
  }

  lemma {:induction false} FeedScans(s: Cut, text: string)
    ensures FeedAll(s, text).lex == Scan(s.lex, text)
    ensures |FeedAll(s, text).done| >= |s.done|
    ensures FeedAll(s, text).done == s.done ==> FeedAll(s, text).current == s.current + text
  {
    if text != "" {
      FeedScans(s, text[..|text| - 1]);
    }
  }

  /** A closed segment splits into closed parts wherever its scan is back at the start. */
  lemma {:induction false} ClosedParts(a: string, b: string)
    requires Closed(a + b) && Scan(Toml.START, a) == Toml.START
    ensures Closed(a) && Closed(b)
  {
    hide FeedAll, Scan;
    FeedConcat(NOTHING, a, b);
    FeedScans(NOTHING, a);
    FeedScans(FeedAll(NOTHING, a), b);
    assert "" + a == a;
    assert FeedAll(NOTHING, a) == Cut([], a, Toml.START);
    FeedFrame([], a, b);
    FeedScans(NOTHING, b);
    assert "" + b == b;
  }

  /** A cut of a text into closed segments and an open one that join back to it. */
  ghost predicate CutOf(s: Cut, text: string) {
    && (forall i :: 0 <= i < |s.done| ==> Closed(s.done[i]))
    && FeedAll(NOTHING, s.current) == Cut([], s.current, s.lex)
    && text == Join(s.done + [s.current])
  }

  lemma {:induction false} CutGrows(s: Cut, text: string, c: char)
    requires CutOf(s, text) && !Feed(s, c).lex.failed
    ensures CutOf(Feed(s, c), text + [c])
  {
    hide Join;
    if c == ',' && Plain(s.lex, c) && AtTop(s.lex) {
      assert s.lex == Toml.START;
      assert FeedAll(NOTHING, "") == NOTHING;
      JoinComma(s.done + [s.current]);
    } else {
      assert (s.current + [c])[..|s.current|] == s.current;
      JoinGrows(s.done, s.current, c);
    }
  }

  lemma {:induction false} JoinComma(segments: seq<string>)
    requires segments != []
    ensures Join(segments + [""]) == Join(segments) + [',']
  {
    assert (segments + [""])[..|segments|] == segments;
    assert Join(segments) + "," + "" == Join(segments) + [','];
  }

  /** Cutting a balanced body gives closed segments that join back to it. */
  lemma {:induction false} CutIsClosed(body: string)
    requires !FeedAll(NOTHING, body).lex.failed
    ensures CutOf(FeedAll(NOTHING, body), body)
  {
    if body == "" {
      assert Join([""]) == "";
    } else {
      var init, c := body[..|body| - 1], body[|body| - 1];
      FeedSnoc(init, c);
      assert body == init + [c];
      hide *;
      CutIsClosed(init);
      CutGrows(FeedAll(NOTHING, init), init, c);
    }
  }

  lemma {:induction false} FeedSnoc(init: string, c: char)
    ensures FeedAll(NOTHING, init + [c]) == Feed(FeedAll(NOTHING, init), c)
    ensures FeedAll(NOTHING, init).lex.failed ==> FeedAll(NOTHING, init + [c]).lex.failed
  {
    assert (init + [c])[..|init|] == init;
  }

  lemma {:induction false} JoinGrows(done: seq<string>, current: string, c: char)
    ensures Join(done + [current + [c]]) == Join(done + [current]) + [c]
  {
    assert (done + [current])[..|done|] == done == (done + [current + [c]])[..|done|];
    if done != [] {
      assert Join(done) + "," + (current + [c]) == Join(done) + "," + current + [c];
    }
  }

  /** Joining closed segments and cutting again gives them back. */
  lemma {:induction false} JoinIsCut(segments: seq<string>)
    requires segments != [] && forall i :: 0 <= i < |segments| ==> Closed(segments[i])
    ensures FeedAll(NOTHING, Join(segments)) == Cut(segments[..|segments| - 1], segments[|segments| - 1], Toml.START)
  {
    var n := |segments| - 1;
    if n > 0 {
      JoinIsCut(segments[..n]);
      FeedConcat(NOTHING, Join(segments[..n]) + ",", segments[n]);
      FeedConcat(NOTHING, Join(segments[..n]), ",");
      assert segments[..n][..n - 1] + [segments[..n][n - 1]] == segments[..n];
      var before := FeedAll(NOTHING, Join(segments[..n]));
      assert ","[..0] == "";
      assert FeedAll(before, ",") == Cut(segments[..n], "", Toml.START);
      FeedClosed(segments[..n], "", segments[n]);
    }
  }

  // ---- Segments without a comment in them ----

  predicate Clean(segment: string) {
    Closed(segment) && CommentStart(segment) == |segment|
  }

  ghost predicate AllClean(segments: seq<string>) {
    forall i :: 0 <= i < |segments| ==> Clean(segments[i])
  }

  /** Quoting does not depend on bracket depth. */
  lemma {:induction false} QuotesOnly(l: Lex, m: Lex, text: string)
    requires l.quote == m.quote && l.escaped == m.escaped
    ensures Scan(l, text).quote == Scan(m, text).quote && Scan(l, text).escaped == Scan(m, text).escaped
  {
    if text != "" {
      QuotesOnly(l, m, text[..|text| - 1]);
    }
  }

  lemma {:induction false} CommentConcat(a: string, b: string)
    requires Scan(Toml.START, a).quote == Bare && !Scan(Toml.START, a).escaped
    ensures CommentStart(a + b) == if CommentStart(a) < |a| then CommentStart(a) else |a| + CommentStart(b)
  {
    if b == "" {
      assert a + b == a;
    } else {
      var init := b[..|b| - 1];
      CommentConcat(a, init);
      assert (a + b)[..|a + b| - 1] == a + init;
      ScanConcat(Toml.START, a, init);
      QuotesOnly(Scan(Toml.START, a), Toml.START, init);
    }
  }

  lemma {:induction false} ClosedScan(s: string)
    requires Closed(s)
    ensures Scan(Toml.START, s) == Toml.START
  {
    FeedScans(NOTHING, s);
  }

  lemma {:induction false} CleanConcat(a: string, b: string)
    requires Clean(a) && Clean(b)
    ensures Clean(a + b)
  {
    ClosedConcat(a, b);
    ClosedScan(a);
    CommentConcat(a, b);
  }

  lemma {:induction false} CleanParts(a: string, b: string)
    requires Clean(a + b) && Scan(Toml.START, a) == Toml.START
    ensures Clean(a) && Clean(b)
  {
    ClosedParts(a, b);
    CommentConcat(a, b);
  }

  lemma {:induction false} CommaConcat(before: string, segment: string)
    requires Scan(Toml.START, before) == Toml.START && Closed(segment)
    ensures var s := before + "," + segment;
      && Scan(Toml.START, s) == Toml.START
      && (CommentStart(s) == |s| <==> CommentStart(before) == |before| && CommentStart(segment) == |segment|)
  {
    hide Closed, CommentStart, Scan;
    ClosedScan(segment);
    CommaIsPlain();
    ScanConcat(Toml.START, before, ",");
    ScanConcat(Toml.START, before + ",", segment);
    CommentConcat(before, ",");
    CommentConcat(before + ",", segment);
  }

  /** The body's comment-freedom is its segments'. */
  lemma {:induction false} JoinClean(segments: seq<string>)
    requires forall i :: 0 <= i < |segments| ==> Closed(segments[i])
    ensures Scan(Toml.START, Join(segments)) == Toml.START
    ensures CommentStart(Join(segments)) == |Join(segments)| <==> AllClean(segments)
  {
    var n := |segments| - 1;
    if n == 0 {
      ClosedScan(segments[0]);
    } else if n > 0 {
      JoinClean(segments[..n]);
      JoinSnoc(segments);
      hide *;
      CommaConcat(Join(segments[..n]), segments[n]);
      AllCleanSnoc(segments);
    }
  }

  lemma {:induction false} JoinSnoc(segments: seq<string>)
    requires |segments| > 1
    ensures Join(segments) == Join(segments[..|segments| - 1]) + "," + segments[|segments| - 1]
    ensures Join(segments) == Join(segments[..|segments| - 1]) + ("," + segments[|segments| - 1])
  {
    Associate(Join(segments[..|segments| - 1]), ",", segments[|segments| - 1]);
  }

  lemma {:induction false} Associate(a: string, b: string, c: string)
    ensures a + b + c == a + (b + c)
  {
  }

  lemma {:induction false} AllCleanSnoc(segments: seq<string>)
    requires segments != [] && forall i :: 0 <= i < |segments| ==> Closed(segments[i])
    ensures var n := |segments| - 1;
      AllClean(segments) <==> AllClean(segments[..n]) && CommentStart(segments[n]) == |segments[n]|
  {
    hide Closed, CommentStart;
    var n := |segments| - 1;
    assert forall i :: 0 <= i < n ==> segments[..n][i] == segments[i];
    assert Clean(segments[n]) <==> CommentStart(segments[n]) == |segments[n]|;
  }

  lemma {:induction false} CommaIsPlain()
    ensures Scan(Toml.START, ",") == Toml.START && CommentStart(",") == 1
  {
    assert ","[..0] == "";
  }

  /** Characters that mean nothing to the scan. */
  predicate Dull(s: string) {
    forall i :: 0 <= i < |s| ==> s[i] !in {'"', '\'', '[', ']', '{', '}', ',', '=', '#'}
  }

  lemma {:induction false} DullIsClean(s: string)
    requires Dull(s)
    ensures Clean(s) && EqualsIn(s) == None
  {
    if s != "" {
      var init := s[..|s| - 1];
      DullIsClean(init);
      ClosedScan(init);
    }
  }

  lemma {:induction false} BlankIsDull(s: string)
    requires Blank(s)
    ensures Dull(s)
  {
    forall i | 0 <= i < |s|
      ensures s[i] !in {'"', '\'', '[', ']', '{', '}', ',', '=', '#'}
    {
      assert IsSpace(s[i]);
    }
  }

  // ---- The value of a field, replaced ----

  lemma {:induction false} EqualsPrefix(a: string, b: string)
    requires EqualsIn(a).Some?
    ensures EqualsIn(a + b) == EqualsIn(a)
  {
    if b == "" {
      assert a + b == a;
    } else {
      EqualsPrefix(a, b[..|b| - 1]);
      assert (a + b)[..|a + b| - 1] == a + b[..|b| - 1];
    }
  }

  /** The first `=` is found in the text up to it, whose scan is plain. */
  lemma {:induction false} EqualsFound(s: string)
    requires EqualsIn(s).Some?
    ensures var e := EqualsIn(s).value;
      EqualsIn(s[..e + 1]) == Some(e) && Scan(Toml.START, s[..e + 1]) == Toml.START
  {
    var m := |s| - 1;
    if EqualsIn(s[..m]).Some? {
      EqualsFound(s[..m]);
      assert s[..m][..EqualsIn(s).value + 1] == s[..EqualsIn(s).value + 1];
    } else {
      assert s[..m + 1] == s;
    }
  }

  /** A field is its key, `=`, white space, the value, white space. */
  lemma {:induction false} KindParts(left: string, spaces: string, value: string, more: string, json: Json)
    requires left != "" && EqualsIn(left) == Some(|left| - 1)
    requires NamesEnabled(left[..|left| - 1], json)
    requires Blank(spaces) && Blank(more) && IsBoolean(value)
    ensures KindOf(left + spaces + value + more, json) == Enabled(|left + spaces|, value)
  {
    hide EqualsIn, NamesEnabled, TrimStart, TrimEnd, Trim;
    var s, right := left + spaces + value + more, value + more;
    Associate(left + spaces, value, more);
    Associate(left, spaces, right);
    assert s == left + (spaces + right);
    EqualsPrefix(left, spaces + right);
    NotBlank(s, |left| - 1);
    assert s[|left|..] == spaces + right;
    assert s[..|left| - 1] == left[..|left| - 1];
    assert !IsSpace(value[0]) && !IsSpace(value[|value| - 1]);
    hide IsSpace;
    TrimStartOf(spaces, right);
    TrimEndOf(value, more);
    KindIs(s, |left| - 1, right, value, json);
  }

  lemma {:induction false} NotBlank(s: string, i: nat)
    requires i < |s| && s[i] == '='
    ensures Trim(s) != ""
  {
    TrimEmpty(s);
    assert !IsSpace(s[i]);
  }

  lemma {:induction false} KindIs(s: string, e: nat, right: string, value: string, json: Json)
    requires Trim(s) != "" && EqualsIn(s) == Some(e) && NamesEnabled(s[..e], json)
    requires TrimStart(s[e + 1..]) == right && TrimEnd(right) == value && IsBoolean(value)
    ensures KindOf(s, json) == Enabled(|s| - |right|, value)
  {
    hide EqualsIn, NamesEnabled, TrimStart, TrimEnd, Trim, IsBoolean;
  }

  lemma {:induction false} EnabledMeans(s: string, json: Json)
    requires KindOf(s, json).Enabled?
    ensures EqualsIn(s).Some? && NamesEnabled(s[..EqualsIn(s).value], json)
    ensures var k, right := KindOf(s, json), TrimStart(s[EqualsIn(s).value + 1..]);
      k.start == |s| - |right| && k.value == TrimEnd(right) && IsBoolean(k.value)
  {
    hide EqualsIn, NamesEnabled, TrimStart, TrimEnd, Trim, IsBoolean;
  }

  /** The parts of an `enabled` field. */
  lemma {:induction false} EnabledParts(s: string, json: Json) returns (left: string, spaces: string, more: string)
    requires KindOf(s, json).Enabled?
    ensures var k := KindOf(s, json);
      && left != "" && EqualsIn(left) == Some(|left| - 1) && Scan(Toml.START, left) == Toml.START
      && NamesEnabled(left[..|left| - 1], json)
      && Blank(spaces) && Blank(more) && IsBoolean(k.value)
      && s == left + spaces + k.value + more && k.start == |left + spaces|
  {
    hide *;
    EnabledMeans(s, json);
    var e := EqualsIn(s).value;
    EqualsFound(s);
    left := s[..e + 1];
    assert left[..e] == s[..e];
    var right := TrimStart(s[e + 1..]);
    TrimStartSplits(s[e + 1..]);
    TrimEndSplits(right);
    spaces := s[e + 1..][..|s[e + 1..]| - |right|];
    more := right[|TrimEnd(right)|..];
    FourParts(s, e + 1, right, KindOf(s, json).value);
  }

  lemma {:induction false} FourParts(s: string, at: nat, right: string, value: string)
    requires at <= |s| && |right| <= |s| - at && value <= right
    requires s[at..] == s[at..][..|s| - at - |right|] + right
    ensures s == s[..at] + s[at..][..|s| - at - |right|] + value + right[|value|..]
  {
  }

  lemma {:induction false} SetField(s: string, json: Json)
    requires Clean(s) && KindOf(s, json).Enabled?
    ensures var k := KindOf(s, json);
      var s' := s[..k.start] + "false" + s[k.start + |k.value|..];
      Clean(s') && KindOf(s', json) == Enabled(k.start, "false")
  {
    hide EqualsIn, Scan, NamesEnabled, KindOf, Clean;
    var k := KindOf(s, json);
    var left, spaces, more := EnabledParts(s, json);
    var s' := s[..k.start] + "false" + s[k.start + |k.value|..];
    assert s[..k.start] == left + spaces;
    assert s[k.start + |k.value|..] == more;
    KindParts(left, spaces, "false", more, json);
    assert s == left + (spaces + k.value + more);
    CleanParts(left, spaces + k.value + more);
    SpacedIsClean(spaces, more);
    CleanConcat(left, spaces + "false" + more);
    assert s' == left + (spaces + "false" + more);
  }

  lemma {:induction false} SpacedIsClean(spaces: string, more: string)
    requires Blank(spaces) && Blank(more)
    ensures Clean(spaces + "false" + more)
  {
    BlankIsDull(spaces);
    BlankIsDull(more);
    DullIsClean(spaces + "false" + more);
  }

  /** The new field: white space, `enabled = false`, white space. */
  lemma {:induction false} NewField(before: string, more: string, json: Json)
    requires Blank(before) && Blank(more)
    ensures var s := before + "enabled = false" + more;
      Clean(s) && KindOf(s, json) == Enabled(|before| + 10, "false")
  {
    hide EqualsIn, Scan, NamesEnabled, KindOf, Clean;
    var left := before + "enabled =";
    NewFieldKey(before, json);
    KindParts(left, " ", "false", more, json);
    assert before + "enabled = false" + more == left + " " + "false" + more;
    SpacedIsClean(" ", more);
    CleanConcat(left, " " + "false" + more);
    assert left + " " + "false" + more == left + (" " + "false" + more);
  }

  lemma {:induction false} NewFieldKey(before: string, json: Json)
    requires Blank(before)
    ensures var left := before + "enabled =";
      Clean(left) && EqualsIn(left) == Some(|left| - 1) && NamesEnabled(left[..|left| - 1], json)
  {
    hide IsSpace;
    var key := before + "enabled ";
    var left := key + "=";
    assert left == before + "enabled =";
    assert left[..|key|] == key;
    BlankIsDull(before);
    DullIsClean(key);
    ClosedScan(key);
    EqualsAfter(key);
    EqualsIsClean();
    CleanConcat(key, "=");
    KeyIsEnabled(before);
    assert Trim(key) == "enabled" && IsBareKey("enabled");
  }

  lemma {:induction false} EqualsAfter(key: string)
    requires EqualsIn(key).None? && Scan(Toml.START, key) == Toml.START
    ensures EqualsIn(key + "=") == Some(|key|)
  {
    assert (key + "=")[..|key|] == key;
  }

  lemma {:induction false} KeyIsEnabled(before: string)
    requires Blank(before)
    ensures Trim(before + "enabled ") == "enabled"
  {
    assert !IsSpace('e') && !IsSpace('d') && IsSpace(' ');
    hide IsSpace;
    assert "enabled" + " " == "enabled ";
    TrimStartOf(before, "enabled ");
    TrimEndOf("enabled", " ");
  }

  lemma {:induction false} EqualsIsClean()
    ensures Clean("=")
  {
    assert "="[..0] == "";
  }

  // ---- The white space at the end of the body ----

  lemma {:induction false} ScanIsSane(text: string)
    ensures Scan(Toml.START, text).escaped ==> Scan(Toml.START, text).quote == Double
  {
    if text != "" {
      ScanIsSane(text[..|text| - 1]);
    }
  }

  lemma {:induction false} BlankKeepsScan(text: string, spaces: string)
    requires Blank(spaces) && Scan(Toml.START, text + spaces) == Toml.START
    ensures Scan(Toml.START, text) == Toml.START
  {
    if spaces == "" {
      assert text + spaces == text;
    } else {
      var init := text + spaces[..|spaces| - 1];
      assert (text + spaces)[..|text + spaces| - 1] == init;
      assert IsSpace(spaces[|spaces| - 1]);
      ScanIsSane(init);
      BlankKeepsScan(text, spaces[..|spaces| - 1]);
    }
  }

  lemma {:induction false} TrimmedIsClean(s: string)
    requires Clean(s)
    ensures Clean(TrimEnd(s))
  {
    TrimEndSplits(s);
    ClosedScan(s);
    BlankKeepsScan(TrimEnd(s), s[|TrimEnd(s)|..]);
    CleanParts(TrimEnd(s), s[|TrimEnd(s)|..]);
  }

  // ---- The managed value ----

  function Braced(head: string, body: string): string {
    head + "{" + body + "}"
  }

  const FIELD: string := "enabled = false"

  function BodyStart(t: Table): nat {
    |t.head| + 1
  }

  /** The raw value is the table's text, then what `StripComment` takes away. */
  ghost predicate Shape(raw: string, t: Table) {
    && t.segments != []
    && (t.at.Some? ==> t.at.value < |t.segments|)
    && Braced(t.head, Join(t.segments)) <= raw
  }

  /** The value with `enabled` set: the field's own text replaced, or a new field after the last content of the body. */
  function Managed(raw: string, t: Table, json: Json): string
    requires Shape(raw, t) && (t.at.Some? ==> KindOf(t.segments[t.at.value], json).Enabled?)
  {
    if t.at.Some? then
      var k := KindOf(t.segments[t.at.value], json);
      OffsetFits(t.segments, t.at.value);
      var from := BodyStart(t) + Offset(t.segments, t.at.value) + k.start;
      raw[..from] + "false" + raw[from + |k.value|..]
    else
      TrimEndSplits(Join(t.segments));
      var end := BodyStart(t) + |TrimEnd(Join(t.segments))|;
      var hasValues := !EndsWith(TrimEnd(raw[..end]), '{');
      raw[..end] + (if hasValues then ", " else "") + FIELD + raw[end..]
  }

  predicate EndsWith(s: string, c: char) {
    s != "" && s[|s| - 1] == c
  }

  /** The segments the managed value should have. */
  function NewSegments(t: Table, json: Json): seq<string>
    requires t.segments != [] && (t.at.Some? ==> t.at.value < |t.segments|)
    requires t.at.Some? ==> KindOf(t.segments[t.at.value], json).Enabled?
  {
    if t.at.Some? then
      t.segments[t.at.value := Replaced(t.segments[t.at.value], json)]
    else
      var n := |t.segments| - 1;
      var last := t.segments[n];
      TrimEndSplits(last);
      if n == 0 && Blank(last) then [FIELD + last]
      else t.segments[..n] + [TrimEnd(last), " " + FIELD + last[|TrimEnd(last)|..]]
  }

  function Replaced(s: string, json: Json): string
    requires KindOf(s, json).Enabled?
  {
    var k := KindOf(s, json);
    s[..k.start] + "false" + s[k.start + |k.value|..]
  }

  lemma {:induction false} OffsetIs(segments: seq<string>, k: nat)
    requires k < |segments|
    ensures Offset(segments, k) == if k == 0 then 0 else |Join(segments[..k])| + 1
  {
    if k > 1 {
      OffsetIs(segments, k - 1);
      assert segments[..k][..k - 1] == segments[..k - 1];
    }
  }

  /** A text with one part replaced. */
  ghost predicate ReplacedAt(before: string, o: nat, gone: string, s: string, after: string) {
    && o + |gone| <= |before| && before[o..o + |gone|] == gone
    && after == before[..o] + s + before[o + |gone|..]
  }

  lemma {:induction false} JoinUpdateLast(segments: seq<string>, s: string)
    requires segments != []
    ensures var n := |segments| - 1;
      ReplacedAt(Join(segments), Offset(segments, n), segments[n], s, Join(segments[n := s]))
  {
    var n := |segments| - 1;
    OffsetIs(segments, n);
    assert segments[n := s][..n] == segments[..n];
    if n > 0 {
      var before := Join(segments[..n]) + ",";
      assert Join(segments) == before + segments[n] && Join(segments[n := s]) == before + s;
    }
  }

  /** Changing one segment changes the joined text there and nowhere else. */
  lemma {:induction false} JoinUpdate(segments: seq<string>, k: nat, s: string)
    requires k < |segments|
    ensures ReplacedAt(Join(segments), Offset(segments, k), segments[k], s, Join(segments[k := s]))
  {
    var n := |segments| - 1;
    if k < n {
      JoinUpdate(segments[..n], k, s);
      OffsetIs(segments, k);
      OffsetIs(segments[..n], k);
      assert segments[..n][..k] == segments[..k];
      assert segments[k := s][..n] == segments[..n][k := s];
      JoinSnoc(segments);
      JoinSnoc(segments[k := s]);
      hide *;
      ReplacedAppend(Join(segments[..n]), Offset(segments, k), segments[k], s, Join(segments[..n][k := s]), ","
          + segments[n]);
    } else {
      JoinUpdateLast(segments, s);
    }
  }

  lemma {:induction false} ReplacedAppend(before: string, o: nat, gone: string, s: string, after: string, more: string)
    requires ReplacedAt(before, o, gone, s, after)
    ensures ReplacedAt(before + more, o, gone, s, after + more)
  {
    assert (before + more)[o + |gone|..] == before[o + |gone|..] + more;
  }

  lemma {:induction false} OffsetFits(segments: seq<string>, k: nat)
    requires k < |segments|
    ensures Offset(segments, k) + |segments[k]| <= |Join(segments)|
  {
    JoinUpdate(segments, k, segments[k]);
  }

  // ---- What parsing tells ----

  lemma {:induction false} FindMeans(segments: seq<string>, json: Json, at: Option<nat>)
    requires at.Some? ==> at.value < |segments|
    ensures FindEnabled(segments, json) == Ok(at) <==>
      (forall i :: 0 <= i < |segments| ==>
        KindOf(segments[i], json) != Bad && (KindOf(segments[i], json).Enabled? <==> at == Some(i)))
  {
    hide KindOf;
    if segments != [] {
      var n := |segments| - 1;
      assert forall i :: 0 <= i < n ==> segments[..n][i] == segments[i];
      if at == Some(n) {
        FindMeans(segments[..n], json, None);
      } else {
        FindMeans(segments[..n], json, at);
      }
    }
  }

  lemma {:induction false} ParseMeans(raw: string, json: Json)
    requires Parse(raw, json).Ok? && Parse(raw, json).value.Some?
    ensures var t, value := Parse(raw, json).value.value, StripComment(raw);
      && value == Braced(t.head, Join(t.segments)) && Blank(t.head)
      && t.segments != [] && (forall i :: 0 <= i < |t.segments| ==> Closed(t.segments[i]))
      && FindEnabled(t.segments, json) == Ok(t.at)
  {
    hide StripComment, FindEnabled, KindOf, FeedAll, Scan, Join, TrimStart, CutOf;
    var value := StripComment(raw);
    var s := TrimStart(value);
    TrimStartSplits(value);
    var body := s[1..|s| - 1];
    var cut := FeedAll(NOTHING, body);
    CutIsClosed(body);
    FeedScans(NOTHING, body);
    ScanIsSane(body);
    assert cut.lex == Toml.START;
    assert s == "{" + body + "}";
    CutClosed(cut, body);
  }

  lemma {:induction false} CutClosed(cut: Cut, body: string)
    requires CutOf(cut, body) && cut.lex == Toml.START
    ensures var segments := cut.done + [cut.current];
      body == Join(segments) && forall i :: 0 <= i < |segments| ==> Closed(segments[i])
  {
  }

  /** Conversely, closed segments in braces parse to themselves. */
  lemma {:induction false} ParseOf(raw: string, head: string, segments: seq<string>, at: Option<nat>, json: Json)
    requires StripComment(raw) == Braced(head, Join(segments)) && Blank(head)
    requires segments != [] && (forall i :: 0 <= i < |segments| ==> Closed(segments[i]))
    requires FindEnabled(segments, json) == Ok(at)
    ensures Parse(raw, json) == Ok(Some(Table(head, segments, at)))
  {
    hide *;
    var s := "{" + Join(segments) + "}";
    BracedParts(head, Join(segments));
    NotSpaces();
    TrimStartOf(head, s);
    ParseIs(raw, head, Join(segments), json);
    ParseBodyOf(head, segments, at, json);
  }

  lemma {:induction false} BracedParts(head: string, body: string)
    ensures Braced(head, body) == head + ("{" + body + "}")
  {
  }

  lemma {:induction false} NotSpaces()
    ensures !IsSpace('{') && !IsSpace('}') && !IsSpace(',')
  {
  }

  lemma {:induction false} ParseIs(raw: string, head: string, body: string, json: Json)
    requires StripComment(raw) == head + ("{" + body + "}") && TrimStart(StripComment(raw)) == "{" + body + "}"
    ensures Parse(raw, json) == ParseBody(head, body, json)
  {
    hide StripComment, TrimStart, ParseBody;
    var s := "{" + body + "}";
    assert s[1..|s| - 1] == body;
    assert (head + s)[..|head|] == head;
  }

  lemma {:induction false} ParseBodyOf(head: string, segments: seq<string>, at: Option<nat>, json: Json)
    requires segments != [] && (forall i :: 0 <= i < |segments| ==> Closed(segments[i]))
    requires FindEnabled(segments, json) == Ok(at)
    ensures ParseBody(head, Join(segments), json) == Ok(Some(Table(head, segments, at)))
  {
    hide FindEnabled, Join, FeedAll, Closed;
    JoinIsCut(segments);
    var cut := FeedAll(NOTHING, Join(segments));
    assert cut.done + [cut.current] == segments && cut.lex == Toml.START;
    hide *;
    ParseBodyIs(head, Join(segments), cut, at, json);
  }

  lemma {:induction false} ParseBodyIs(head: string, body: string, cut: Cut, at: Option<nat>, json: Json)
    requires FeedAll(NOTHING, body) == cut && cut.lex == Toml.START
    requires FindEnabled(cut.done + [cut.current], json) == Ok(at)
    ensures ParseBody(head, body, json) == Ok(Some(Table(head, cut.done + [cut.current], at)))
  {
    hide FeedAll, FindEnabled;
  }

  // ---- Comments survive ----

  lemma {:induction false} CommentPrefix(s: string, k: nat)
    requires k <= CommentStart(s)
    ensures CommentStart(s[..k]) == k
    decreases |s|
  {
    if k == |s| {
      assert s[..k] == s;
    } else {
      assert s[..|s| - 1][..k] == s[..k];
      CommentPrefix(s[..|s| - 1], k);
    }
  }

  /** The text of a table around its body, and its comment-freedom. */
  lemma {:induction false} BracesAround(head: string, body: string)
    requires Blank(head) && Scan(Toml.START, body) == Toml.START
    ensures var v := Braced(head, body);
      && (CommentStart(v) == |v| <==> CommentStart(body) == |body|)
      && Scan(Toml.START, v).quote == Bare && !Scan(Toml.START, v).escaped
  {
    var open := head + "{";
    OpenBrace(head);
    hide *;
    ScanConcat(Toml.START, open, body);
    QuotesOnly(Scan(Toml.START, open), Toml.START, body);
    CommentConcat(open, body);
    CommentConcat(open + body, "}");
    CloseBrace();
    CloseScan(open + body);
    assert open + body + "}" == Braced(head, body) by {
      BracedIs(head, body);
    }
  }

  lemma {:induction false} BracedIs(head: string, body: string)
    ensures Braced(head, body) == (head + "{") + body + "}"
  {
  }

  lemma {:induction false} OpenBrace(head: string)
    requires Blank(head)
    ensures Scan(Toml.START, head + "{").quote == Bare && !Scan(Toml.START, head + "{").escaped
    ensures CommentStart(head + "{") == |head| + 1
  {
    BlankIsDull(head);
    DullIsClean(head);
    ClosedScan(head);
    OpenAfter(head);
  }

  lemma {:induction false} OpenAfter(a: string)
    requires Scan(Toml.START, a) == Toml.START && CommentStart(a) == |a|
    ensures Scan(Toml.START, a + "{").quote == Bare && !Scan(Toml.START, a + "{").escaped
    ensures CommentStart(a + "{") == |a| + 1
  {
    assert (a + "{")[..|a|] == a;
  }

  lemma {:induction false} CloseBrace()
    ensures CommentStart("}") == 1
  {
    assert "}"[..0] == "";
  }

  lemma {:induction false} CloseScan(a: string)
    requires Scan(Toml.START, a).quote == Bare && !Scan(Toml.START, a).escaped
    ensures Scan(Toml.START, a + "}").quote == Bare && !Scan(Toml.START, a + "}").escaped
  {
    assert (a + "}")[..|a|] == a;
  }

  /** What follows the value is white space and perhaps a comment. */
  predicate IsTail(tail: string) {
    exists k :: 0 <= k <= |tail| && Blank(tail[..k]) && (k == |tail| || tail[k] == '#')
  }

  lemma {:induction false} StripSplits(raw: string)
    ensures var v := StripComment(raw);
      && |v| <= |raw| && v == raw[..|v|] && IsTail(raw[|v|..]) && CommentStart(v) == |v|
  {
    var n := CommentStart(raw);
    TrimEndSplits(raw[..n]);
    var v := StripComment(raw);
    var tail := raw[|v|..];
    assert tail[..n - |v|] == raw[..n][|v|..];
    CommentPrefix(raw, |v|);
    assert v == raw[..|v|];
  }

  lemma {:induction false} StripOf(v: string, tail: string)
    requires v != "" && !IsSpace(v[|v| - 1]) && IsTail(tail) && CommentStart(v) == |v|
    requires Scan(Toml.START, v).quote == Bare && !Scan(Toml.START, v).escaped
    ensures StripComment(v + tail) == v
  {
    hide *;
    var spaces := TailParts(tail);
    CommentConcat(v, tail);
    TrimEndOf(v, spaces);
    StripIs(v + tail, v + spaces);
  }

  lemma {:induction false} TailParts(tail: string) returns (spaces: string)
    requires IsTail(tail)
    ensures Blank(spaces) && spaces <= tail && CommentStart(tail) == |spaces|
  {
    hide IsSpace, Blank, Dull, Closed, CommentStart;
    var k :| 0 <= k <= |tail| && Blank(tail[..k]) && (k == |tail| || tail[k] == '#');
    spaces := tail[..k];
    BlankIsDull(spaces);
    DullIsClean(spaces);
    ClosedScan(spaces);
    CommentStartConcat(spaces, tail[k..]);
    assert tail == spaces + tail[k..];
  }

  lemma {:induction false} StripIs(raw: string, kept: string)
    requires kept <= raw && CommentStart(raw) == |kept|
    ensures StripComment(raw) == TrimEnd(kept)
  {
    assert raw[..|kept|] == kept;
  }

  // ---- The theorem ----

  lemma {:induction false} BraceIsNotLast(body: string)
    requires Scan(Toml.START, body) == Toml.START
    ensures !EndsWith(body, '{')
  {
    if body != "" {
      DepthIsSane(body[..|body| - 1]);
      ScanIsSane(body[..|body| - 1]);
    }
  }

  lemma {:induction false} DepthIsSane(text: string)
    ensures var l := Scan(Toml.START, text); l.square < 0 || l.curly < 0 ==> l.failed
  {
    if text != "" {
      DepthIsSane(text[..|text| - 1]);
    }
  }

  /** Trimming the joined body trims its last segment, unless that leaves nothing. */
  lemma {:induction false} JoinTrimmed(segments: seq<string>)
    requires segments != []
    ensures var n := |segments| - 1;
      TrimEnd(Join(segments)) == Join(segments[..n] + [TrimEnd(segments[n])])
    ensures Join(segments) == TrimEnd(Join(segments)) + segments[|segments| - 1][|TrimEnd(segments[|segments| - 1])|..]
  {
    hide TrimEnd, IsSpace, Join;
    var n := |segments| - 1;
    var last := segments[n];
    TrimEndSplits(last);
    var core, spaces := TrimEnd(last), last[|TrimEnd(last)|..];
    var kept := segments[..n] + [core];
    assert kept[..n] == segments[..n];
    if n == 0 {
      JoinOne(segments);
      JoinOne(kept);
      TrimEndOf(core, spaces);
    } else {
      NotSpaces();
      JoinSnoc(segments);
      JoinSnoc(kept);
      var front := Join(segments[..n]) + ",";
      assert Join(segments) == (front + core) + spaces;
      TrimEndOf(front + core, spaces);
    }
  }

  lemma {:induction false} JoinOne(segments: seq<string>)
    requires |segments| == 1
    ensures Join(segments) == segments[0]
  {
  }

  lemma {:induction false} ShapeOf(raw: string, json: Json)
    requires Parse(raw, json).Ok? && Parse(raw, json).value.Some?
    ensures var t := Parse(raw, json).value.value;
      && Shape(raw, t) && AllClean(t.segments)
      && (t.at.Some? ==> KindOf(t.segments[t.at.value], json).Enabled?)
      && (forall i :: 0 <= i < |t.segments| ==>
           KindOf(t.segments[i], json) != Bad && (KindOf(t.segments[i], json).Enabled? <==> t.at == Some(i)))
  {
    hide *;
    ParseMeans(raw, json);
    StripSplits(raw);
    var t := Parse(raw, json).value.value;
    FoundFits(t.segments, json);
    FindMeans(t.segments, json, t.at);
    JoinClean(t.segments);
    BracesAround(t.head, Join(t.segments));
    ShapeIs(raw, t);
  }

  lemma {:induction false} FoundFits(segments: seq<string>, json: Json)
    ensures var r := FindEnabled(segments, json); r.Ok? && r.value.Some? ==> r.value.value < |segments|
  {
  }

  lemma {:induction false} ShapeIs(raw: string, t: Table)
    requires t.segments != [] && (t.at.Some? ==> t.at.value < |t.segments|)
    requires Braced(t.head, Join(t.segments)) <= raw
    ensures Shape(raw, t)
  {
  }

  /** The managed value is the table with the new segments, followed by what followed it before. */
  lemma {:induction false} ManagedIs(raw: string, t: Table, json: Json)
    requires Shape(raw, t) && (t.at.Some? ==> KindOf(t.segments[t.at.value], json).Enabled?)
    requires Blank(t.head) && Scan(Toml.START, Join(t.segments)) == Toml.START
    ensures Managed(raw, t, json) ==
      Braced(t.head, Join(NewSegments(t, json))) + raw[|Braced(t.head, Join(t.segments))|..]
  {
    hide *;
    if t.at.Some? {
      ManagedSet(raw, t, json);
    } else {
      ManagedInsert(raw, t, json);
    }
  }

  lemma {:induction false} ManagedSet(raw: string, t: Table, json: Json)
    requires Shape(raw, t) && t.at.Some? && KindOf(t.segments[t.at.value], json).Enabled?
    ensures Managed(raw, t, json) ==
      Braced(t.head, Join(NewSegments(t, json))) + raw[|Braced(t.head, Join(t.segments))|..]
  {
    hide KindOf, Join, Offset, Braced;
    var body := Join(t.segments);
    var seg := t.segments[t.at.value];
    var k, o := KindOf(seg, json), Offset(t.segments, t.at.value);
    JoinUpdate(t.segments, t.at.value, Replaced(seg, json));
    SliceInside(raw, t.head, body, o + k.start, |k.value|, "false");
    InnerReplace(body, o, seg, k.start, |k.value|, "false");
  }

  lemma {:induction false} ManagedInsert(raw: string, t: Table, json: Json)
    requires Shape(raw, t) && t.at.None? && Blank(t.head) && Scan(Toml.START, Join(t.segments)) == Toml.START
    ensures Managed(raw, t, json) ==
      Braced(t.head, Join(NewSegments(t, json))) + raw[|Braced(t.head, Join(t.segments))|..]
  {
    hide Join, TrimEnd, Braced, IsSpace, Blank, Scan, NewSegments, EndsWith;
    var body := Join(t.segments);
    TrimEndSplits(body);
    var core, spaces := TrimEnd(body), body[|TrimEnd(body)|..];
    BlankKeepsScan(core, spaces);
    BraceIsNotLast(core);
    InsertedSegments(t, json);
    HasValues(t.head, core);
    var added := (if core == "" then "" else ", ") + FIELD;
    SliceInside(raw, t.head, body, |core|, 0, added);
    assert body[..|core|] == core;
    Associate(raw[..|t.head| + 1 + |core|], if core == "" then "" else ", ", FIELD);
    Associate(core, if core == "" then "" else ", ", FIELD);
  }

  /** A slice of the raw text at a place in the body. */
  lemma {:induction false} SliceInside(raw: string, head: string, body: string, at: nat, len: nat, x: string)
    requires Braced(head, body) <= raw && at + len <= |body|
    ensures var from, tail := |head| + 1 + at, raw[|Braced(head, body)|..];
      && from + len <= |raw| && raw[..from] == head + "{" + body[..at]
      && raw[..from] + x + raw[from + len..] == Braced(head, body[..at] + x + body[at + len..]) + tail
  {
    var from, tail := |head| + 1 + at, raw[|Braced(head, body)|..];
    assert raw == Braced(head, body) + tail;
    assert raw[..from] == head + "{" + body[..at];
    assert raw[from + len..] == body[at + len..] + "}" + tail;
  }

  lemma {:induction false} InnerReplace(body: string, o: nat, seg: string, at: nat, len: nat, x: string)
    requires o + |seg| <= |body| && body[o..o + |seg|] == seg && at + len <= |seg|
    ensures body[..o + at] + x + body[o + at + len..] ==
            body[..o] + (seg[..at] + x + seg[at + len..]) + body[o + |seg|..]
  {
    assert body[..o + at] == body[..o] + seg[..at];
    assert body[o + at + len..] == seg[at + len..] + body[o + |seg|..];
  }

  lemma {:induction false} HasValues(head: string, core: string)
    requires Blank(head) && (core != "" ==> !IsSpace(core[|core| - 1])) && !EndsWith(core, '{')
    ensures EndsWith(TrimEnd(head + "{" + core), '{') <==> core == ""
  {
    NotSpaces();
    hide IsSpace, TrimEnd;
    TrimEndOf(head + "{" + core, "");
    assert head + "{" + core + "" == head + "{" + core;
  }

  /** Where the new field goes, in terms of the segments. */
  lemma {:induction false} InsertedSegments(t: Table, json: Json)
    requires t.segments != [] && t.at.None?
    ensures var body := Join(t.segments);
      var core := TrimEnd(body);
      Join(NewSegments(t, json)) == core + (if core == "" then "" else ", ") + FIELD + body[|core|..]
  {
    hide Join, TrimEnd, IsSpace, Blank;
    var n := |t.segments| - 1;
    var last := t.segments[n];
    var core := TrimEnd(Join(t.segments));
    JoinTrimmed(t.segments);
    TrimEndSplits(last);
    if n == 0 {
      BlankTrims(last);
      JoinOne(t.segments);
    }
    if n == 0 && Blank(last) {
      JoinOne([FIELD + last]);
      assert core + "" + FIELD + last[0..] == FIELD + last;
    } else {
      var kept, spaces := t.segments[..n] + [TrimEnd(last)], last[|TrimEnd(last)|..];
      CoreIsKept(kept);
      AddedSegment(kept, spaces);
      assert kept + [" " + FIELD + spaces] == t.segments[..n] + [TrimEnd(last), " " + FIELD + spaces];
    }
  }

  lemma {:induction false} CoreIsKept(kept: seq<string>)
    requires kept != [] && (|kept| == 1 ==> kept[0] != "")
    ensures Join(kept) != ""
  {
  }

  lemma {:induction false} AddedSegment(kept: seq<string>, spaces: string)
    requires kept != []
    ensures Join(kept + [" " + FIELD + spaces]) == Join(kept) + ", " + FIELD + spaces
  {
    JoinSnoc(kept + [" " + FIELD + spaces]);
    hide Join;
    assert (kept + [" " + FIELD + spaces])[..|kept|] == kept;
    assert "," + (" " + FIELD + spaces) == ", " + FIELD + spaces;
  }

  lemma {:induction false} BlankTrims(s: string)
    ensures TrimEnd(s) == "" <==> Blank(s)
  {
    TrimEndSplits(s);
    if Blank(s) {
      TrimEndOf("", s);
      assert "" + s == s;
    }
  }

  /** The new segments are balanced, free of comments, and name `enabled` once. */
  lemma {:induction false} NewSegmentsAre(t: Table, json: Json)
    requires t.segments != [] && AllClean(t.segments) && (t.at.Some? ==> t.at.value < |t.segments|)
    requires t.at.Some? ==> KindOf(t.segments[t.at.value], json).Enabled?
    requires forall i :: 0 <= i < |t.segments| ==>
      KindOf(t.segments[i], json) != Bad && (KindOf(t.segments[i], json).Enabled? <==> t.at == Some(i))
    ensures var s, at := NewSegments(t, json), NewAt(t);
      && s != [] && AllClean(s) && at < |s|
      && KindOf(s[at], json).Enabled? && KindOf(s[at], json).value == "false"
      && (forall i :: 0 <= i < |s| ==> KindOf(s[i], json) != Bad && (KindOf(s[i], json).Enabled? <==> i == at))
      && OtherFields(s, json) == OtherFields(t.segments, json)
  {
    hide Clean, KindOf, TrimEnd, IsSpace, Blank, Trim;
    if t.at.Some? {
      SetField(t.segments[t.at.value], json);
      OthersAfterSet(t.segments, t.at.value, Replaced(t.segments[t.at.value], json), json);
    } else {
      var n := |t.segments| - 1;
      var last := t.segments[n];
      TrimEndSplits(last);
      if n == 0 && Blank(last) {
        BlankEmpty();
        NewField("", last, json);
        assert "" + FIELD + last == FIELD + last;
        EmptyKind(last, json);
        OneField(last, json);
        OneField(FIELD + last, json);
      } else {
        var core, spaces := TrimEnd(last), last[|TrimEnd(last)|..];
        TrimmedIsClean(last);
        TrimmedKind(last, json);
        BlankSpace();
        NewField(" ", spaces, json);
        OthersAfterInsert(t.segments, core, " " + FIELD + spaces, json);
      }
    }
  }

  /** Which segment is `enabled` afterwards. */
  function NewAt(t: Table): nat
    requires t.segments != []
  {
    if t.at.Some? then t.at.value
    else if |t.segments| == 1 && Blank(t.segments[0]) then 0
    else |t.segments|
  }

  lemma {:induction false} BlankEmpty()
    ensures Blank("")
  {
  }

  lemma {:induction false} BlankSpace()
    ensures Blank(" ")
  {
  }

  lemma {:induction false} EmptyKind(s: string, json: Json)
    requires Blank(s)
    ensures KindOf(s, json) == Empty
  {
    TrimEmpty(s);
  }

  lemma {:induction false} OneField(s: string, json: Json)
    requires !KindOf(s, json).Other?
    ensures OtherFields([s], json) == []
  {
  }

  lemma {:induction false} OthersAfterSet(segments: seq<string>, k: nat, s: string, json: Json)
    requires k < |segments| && !KindOf(segments[k], json).Other? && !KindOf(s, json).Other?
    ensures OtherFields(segments[k := s], json) == OtherFields(segments, json)
  {
    hide KindOf;
    var n := |segments| - 1;
    if k < n {
      OthersAfterSet(segments[..n], k, s, json);
      assert segments[k := s][..n] == segments[..n][k := s];
    } else {
      assert segments[k := s][..n] == segments[..n];
    }
  }

  lemma {:induction false} OthersAfterInsert(segments: seq<string>, core: string, s: string, json: Json)
    requires segments != [] && KindOf(core, json) == KindOf(segments[|segments| - 1], json)
    requires Trim(core) == Trim(segments[|segments| - 1]) && KindOf(s, json).Enabled?
    ensures OtherFields(segments[..|segments| - 1] + [core, s], json) == OtherFields(segments, json)
  {
    hide KindOf, Trim;
    var n := |segments| - 1;
    var added := segments[..n] + [core, s];
    assert added[..n + 1] == segments[..n] + [core];
    assert added[..n + 1][..n] == segments[..n];
  }

  /** Trailing white space does not change what a field is. */
  lemma {:induction false} TrimmedKind(s: string, json: Json)
    requires KindOf(s, json) != Bad && !KindOf(s, json).Enabled?
    ensures KindOf(TrimEnd(s), json) == KindOf(s, json) && Trim(TrimEnd(s)) == Trim(s)
  {
    hide *;
    TrimEndSplits(s);
    TrimTrimmed(s);
    KindMeans(s, json);
    var core := TrimEnd(s);
    if Trim(s) == "" {
      KindOfEmpty(core, json);
    } else {
      var e := EqualsIn(s).value;
      EqualsFound(s);
      SpacesAfterEquals(s, |core|, e);
      EqualsPrefix(s[..e + 1], core[e + 1..]);
      assert s[..e + 1] + core[e + 1..] == core;
      assert core[..e] == s[..e];
      KindOfOther(core, e, json);
    }
  }

  lemma {:induction false} KindMeans(s: string, json: Json)
    requires KindOf(s, json) != Bad && !KindOf(s, json).Enabled?
    ensures Trim(s) == "" ==> KindOf(s, json) == Empty
    ensures Trim(s) != "" ==>
      KindOf(s, json) == Other && EqualsIn(s).Some? && !NamesEnabled(s[..EqualsIn(s).value], json)
  {
    hide EqualsIn, NamesEnabled, Trim, TrimStart, TrimEnd, IsBoolean;
  }

  lemma {:induction false} KindOfEmpty(s: string, json: Json)
    requires Trim(s) == ""
    ensures KindOf(s, json) == Empty
  {
  }

  lemma {:induction false} KindOfOther(s: string, e: nat, json: Json)
    requires Trim(s) != "" && EqualsIn(s) == Some(e) && !NamesEnabled(s[..e], json)
    ensures KindOf(s, json) == Other
  {
    hide EqualsIn, NamesEnabled, Trim, TrimStart, TrimEnd, IsBoolean;
  }

  lemma {:induction false} SpacesAfterEquals(s: string, n: nat, e: nat)
    requires n <= |s| && e < |s| && Blank(s[n..]) && s[e] == '='
    ensures e < n
  {
    forall i | n <= i < |s|
      ensures IsSpace(s[i])
    {
      assert s[n..][i - n] == s[i];
    }
  }

  lemma {:induction false} TrimTrimmed(s: string)
    ensures Trim(TrimEnd(s)) == Trim(s)
  {
    hide IsSpace;
    TrimEndSplits(s);
    var core, spaces := TrimEnd(s), s[|TrimEnd(s)|..];
    TrimStartSplits(core);
    var inner, before := TrimStart(core), core[..|core| - |TrimStart(core)|];
    if inner == "" {
      assert Blank(s);
      TrimEmpty(s);
      TrimEmpty(core);
    } else {
      assert s == before + (inner + spaces);
      TrimStartOf(before, inner + spaces);
      assert inner[|inner| - 1] == core[|core| - 1];
      TrimEndOf(inner, spaces);
      TrimEndOf(inner, "");
      assert inner + "" == inner;
    }
  }

  /**
   * For every value that parses as an inline table, the managed value parses again with `enabled` false;
   * every other field is unchanged, and so is everything around the edit: the text before the braces and
   * the white space and comment after them.
   */
  lemma {:induction false} ManagedParsesAgain(raw: string, json: Json)
    requires Parse(raw, json).Ok? && Parse(raw, json).value.Some?
    ensures var t := Parse(raw, json).value.value;
      && Shape(raw, t) && (t.at.Some? ==> KindOf(t.segments[t.at.value], json).Enabled?)
      && var m := Managed(raw, t, json);
      && Parse(m, json).Ok? && Parse(m, json).value.Some?
      && var t' := Parse(m, json).value.value;
      && ValueOf(t', json) == "false" && t'.head == t.head
      && t'.segments == NewSegments(t, json) && t'.at == Some(NewAt(t))
      && OtherFields(t'.segments, json) == OtherFields(t.segments, json)
      && |StripComment(m)| <= |m| && |StripComment(raw)| <= |raw|
      && m[|StripComment(m)|..] == raw[|StripComment(raw)|..]
  {
    hide *;
    var t := Parse(raw, json).value.value;
    ShapeOf(raw, json);
    ParseMeans(raw, json);
    ShapeMeans(raw, t);
    JoinClean(t.segments);
    ManagedIs(raw, t, json);
    NewSegmentsAre(t, json);
    StripSplits(raw);
    var s, at := NewSegments(t, json), NewAt(t);
    var tail := raw[|StripComment(raw)|..];
    AllCleanIsClosed(s);
    JoinClean(s);
    BracesAround(t.head, Join(s));
    BracedEnds(t.head, Join(s));
    StripOf(Braced(t.head, Join(s)), tail);
    FindMeans(s, json, Some(at));
    ParseOf(Managed(raw, t, json), t.head, s, Some(at), json);
    ValueIs(t.head, s, at, json);
    assert (Braced(t.head, Join(s)) + tail)[|Braced(t.head, Join(s))|..] == tail;
  }

  lemma {:induction false} ShapeMeans(raw: string, t: Table)
    requires Shape(raw, t)
    ensures t.segments != [] && (t.at.Some? ==> t.at.value < |t.segments|)
  {
  }

  lemma {:induction false} AllCleanIsClosed(segments: seq<string>)
    requires AllClean(segments)
    ensures forall i :: 0 <= i < |segments| ==> Closed(segments[i])
  {
    hide Closed;
    assert forall i :: 0 <= i < |segments| ==> Clean(segments[i]);
  }

  lemma {:induction false} BracedEnds(head: string, body: string)
    ensures var v := Braced(head, body); v != "" && !IsSpace(v[|v| - 1])
  {
  }

  lemma {:induction false} ValueIs(head: string, segments: seq<string>, at: nat, json: Json)
    requires at < |segments| && KindOf(segments[at], json).Enabled?
    ensures ValueOf(Table(head, segments, Some(at)), json) == KindOf(segments[at], json).value
  {
    hide KindOf;
  }

  // ---- The new segments, byte for byte ----

  predicate HasBlank(segments: seq<string>) {
    exists i :: 0 <= i < |segments| && Blank(segments[i])
  }

  lemma {:induction false} EnabledIsVisible(s: string, json: Json)
    requires KindOf(s, json).Enabled?
    ensures !Blank(s) && !Blank(Replaced(s, json))
  {
    hide Trim, TrimEnd, TrimStart, NamesEnabled;
    var k := KindOf(s, json);
    EnabledIsNotBlank(s, json);
    assert Replaced(s, json)[k.start] == 'f';
  }

  lemma {:induction false} EnabledIsNotBlank(s: string, json: Json)
    requires KindOf(s, json).Enabled?
    ensures !Blank(s)
  {
    hide KindOf;
    if Blank(s) {
      EmptyKind(s, json);
    }
  }

  /**
   * Every segment but the one set stays byte for byte, apart from white space at the end of the body, which stays
   * at its end. A blank segment is there afterwards if and only if one was there before beside another segment.
   */
  lemma {:induction false} SegmentsAreKept(t: Table, json: Json)
    requires t.segments != [] && (t.at.Some? ==> t.at.value < |t.segments|)
    requires t.at.Some? ==> KindOf(t.segments[t.at.value], json).Enabled?
    ensures var s, n := NewSegments(t, json), |t.segments| - 1;
      if t.at.Some? then
        && |s| == n + 1 && s[t.at.value] == Replaced(t.segments[t.at.value], json)
        && forall i :: 0 <= i <= n && i != t.at.value ==> s[i] == t.segments[i]
      else if n == 0 && Blank(t.segments[0]) then s == [FIELD + t.segments[0]]
      else
        && |s| == n + 2 && s[..n] == t.segments[..n] && s[n] <= t.segments[n]
        && Blank(t.segments[n][|s[n]|..]) && s[n + 1] == " " + FIELD + t.segments[n][|s[n]|..]
    ensures HasBlank(NewSegments(t, json)) <==> |t.segments| > 1 && HasBlank(t.segments)
  {
    hide KindOf, Replaced, TrimEnd;
    var s, n := NewSegments(t, json), |t.segments| - 1;
    if t.at.Some? {
      EnabledIsVisible(t.segments[t.at.value], json);
      if HasBlank(t.segments) {
        var i :| 0 <= i <= n && Blank(t.segments[i]);
        assert Blank(s[i]);
      }
    } else {
      var last := t.segments[n];
      TrimEndSplits(last);
      VisibleField(last);
      if !(n == 0 && Blank(last)) {
        VisibleTrimmed(last);
        assert forall i :: 0 <= i < n ==> s[i] == t.segments[i];
        assert s[n] == TrimEnd(last) && !Blank(s[n + 1]);
        if HasBlank(t.segments) {
          var i :| 0 <= i <= n && Blank(t.segments[i]);
          assert Blank(s[i]);
        }
      }
    }
  }

  lemma {:induction false} VisibleField(spaces: string)
    ensures !Blank(FIELD + spaces) && forall more: string :: !Blank(" " + FIELD + more)
  {
    assert (FIELD + spaces)[0] == 'e';
    forall more: string
      ensures !Blank(" " + FIELD + more)
    {
      assert (" " + FIELD + more)[1] == 'e';
    }
  }

  lemma {:induction false} VisibleTrimmed(s: string)
    ensures Blank(TrimEnd(s)) <==> Blank(s)
  {
    TrimEndSplits(s);
    var t := TrimEnd(s);
    forall i | |t| <= i < |s|
      ensures IsSpace(s[i])
    {
      assert s[|t|..][i - |t|] == s[i];
    }
  }

  /** A field with nothing in it, between two commas or before the first: no TOML reader accepts one. */
  predicate HasEmptyField(segments: seq<string>) {
    exists i :: 0 <= i < |segments| - 1 && Blank(segments[i])
  }

  /**
   * The edit makes an empty field exactly when it adds `enabled` after a trailing comma: the comma stays, and the
   * new field brings its own.
   */
  lemma {:induction false} EmptyFieldExactlyWhen(t: Table, json: Json)
    requires t.segments != [] && (t.at.Some? ==> t.at.value < |t.segments|)
    requires t.at.Some? ==> KindOf(t.segments[t.at.value], json).Enabled?
    ensures HasEmptyField(NewSegments(t, json)) <==>
      || HasEmptyField(t.segments)
      || (t.at.None? && |t.segments| > 1 && Blank(t.segments[|t.segments| - 1]))
  {
    hide KindOf, Replaced, NewSegments, Blank;
    SegmentsAreKept(t, json);
    var s, n := NewSegments(t, json), |t.segments| - 1;
    if t.at.Some? {
      EnabledIsVisible(t.segments[t.at.value], json);
      if HasEmptyField(t.segments) {
        var i :| 0 <= i < n && Blank(t.segments[i]);
        assert Blank(s[i]);
      }
    } else if !(n == 0 && Blank(t.segments[0])) {
      assert forall i :: 0 <= i < n ==> s[..n][i] == s[i] && t.segments[..n][i] == t.segments[i];
      BlankBeginning(s[n], t.segments[n]);
      if HasEmptyField(t.segments) {
        var i :| 0 <= i < n && Blank(t.segments[i]);
        assert Blank(s[i]);
      }
      if Blank(t.segments[n]) {
        assert Blank(s[n]);
      }
    }
  }

  lemma {:induction false} BlankBeginning(a: string, b: string)
    requires a <= b && Blank(b[|a|..])
    ensures Blank(a) <==> Blank(b)
  {
    forall i | |a| <= i < |b|
      ensures IsSpace(b[i])
    {
      assert b[|a|..][i - |a|] == b[i];
    }
  }

  // ---- A trailing comma ----

  const COMMA_RAW: string := "{ a = 1, }"

  lemma {:induction false} CommaField(json: Json)
    ensures Clean(" a = 1") && KindOf(" a = 1", json) == Other && Clean(" ") && KindOf(" ", json) == Empty
  {
    hide *;
    CommaPieces();
    DullIsClean(" a ");
    DullIsClean(" 1");
    DullIsClean(" ");
    EqualsIsClean();
    CleanConcat(" a ", "=");
    CleanConcat(" a =", " 1");
    CleanIsClosed(" a ");
    ClosedScan(" a ");
    EqualsAfter(" a ");
    EqualsPrefix(" a =", " 1");
    CommaKey(json);
    KindOfOther(" a = 1", 3, json);
    KindOfEmpty(" ", json);
  }

  lemma {:induction false} CleanIsClosed(s: string)
    requires Clean(s)
    ensures Closed(s)
  {
    hide Closed, CommentStart;
  }

  lemma {:induction false} CommaPieces()
    ensures Dull(" a ") && Dull(" 1") && Dull(" ")
    ensures " a " + "=" == " a =" && " a =" + " 1" == " a = 1"
  {
  }

  lemma {:induction false} CommaKey(json: Json)
    ensures Trim(" a = 1") != "" && !NamesEnabled(" a = 1"[..3], json) && Trim(" ") == ""
  {
    assert " a = 1"[..3] == " a " && " a "[1..] == "a " && "a "[..1] == "a" && " "[1..] == "";
    assert TrimStart(" a ") == "a " && TrimEnd("a ") == "a";
    assert TrimStart(" a = 1")[0] == 'a';
    TrimStaysVisible("a = 1");
    assert " a = 1"[1..] == "a = 1";
  }

  lemma {:induction false} TrimStaysVisible(s: string)
    requires s != "" && !IsSpace(s[0])
    ensures TrimEnd(s) != ""
  {
    if IsSpace(s[|s| - 1]) {
      TrimStaysVisible(s[..|s| - 1]);
    }
  }

  lemma {:induction false} CommaSegments(json: Json)
    ensures Join([" a = 1", " "]) == " a = 1, "
    ensures Join(NewSegments(Table("", [" a = 1", " "], None), json)) == " a = 1,, enabled = false "
  {
    var t := Table("", [" a = 1", " "], None);
    assert " "[..0] == "" && TrimEnd("") == "" && TrimEnd(" ") == "";
    var before := [" a = 1", " "];
    assert before[..1] == [" a = 1"] && before[1] == " " && " "[0..] == " ";
    assert " a = 1" + "," + " " == " a = 1, ";
    var s := NewSegments(t, json);
    assert " " + FIELD + " " == " enabled = false ";
    assert s == [" a = 1", "", " enabled = false "];
    assert s[..2] == [" a = 1", ""] && s[..2][..1] == [" a = 1"];
    assert Join(s[..2]) == " a = 1" + "," + "" == " a = 1,";
    assert " a = 1," + "," + " enabled = false " == " a = 1,, enabled = false ";
  }

  /** `{ a = 1, }` comes to hold two commas in a row. */
  lemma {:induction false} TrailingComma(json: Json)
    ensures var t := Table("", [" a = 1", " "], None);
      && Parse(COMMA_RAW, json) == Ok(Some(t)) && Shape(COMMA_RAW, t)
      && Managed(COMMA_RAW, t, json) == "{ a = 1,, enabled = false }"
  {
    hide *;
    var t, s := Table("", [" a = 1", " "], None), [" a = 1", " "];
    CommaField(json);
    CommaSegments(json);
    CommaIsClosed(s);
    JoinClean(s);
    BlankEmpty();
    BracesAround("", Join(s));
    BracedEnds("", Join(s));
    CommaBraces(s, Join(s));
    StripOf(COMMA_RAW, "");
    FindMeans(s, json, None);
    ParseOf(COMMA_RAW, "", s, None, json);
    ShapeOf(COMMA_RAW, json);
    ManagedIs(COMMA_RAW, t, json);
    CommaManaged(Join(NewSegments(t, json)));
  }

  lemma {:induction false} CommaIsClosed(s: seq<string>)
    requires s == [" a = 1", " "] && Clean(s[0]) && Clean(s[1])
    ensures AllClean(s) && forall i :: 0 <= i < |s| ==> Closed(s[i])
  {
    hide Closed, CommentStart;
  }

  lemma {:induction false} CommaBraces(s: seq<string>, body: string)
    requires body == " a = 1, "
    ensures Braced("", body) == COMMA_RAW && COMMA_RAW + "" == COMMA_RAW && IsTail("") && Blank("")
    ensures s == [" a = 1", " "] ==> |s| == 2
  {
    assert ""[..0] == "";
  }

  lemma {:induction false} CommaManaged(body: string)
    requires body == " a = 1,, enabled = false "
    ensures Braced("", body) + COMMA_RAW[|Braced("", " a = 1, ")|..] == "{ a = 1,, enabled = false }"
  {
  }
}
