/**
 * Which one-line inline tables are read, and as what: told from the fields a user may write, with their white space,
 * quoted keys, nested values and a trailing comment.
 */
module InlineTableReads {
  import opened Common
  import opened Toml
  import opened InlineTable

  // ---- What quoting and brackets hide ----

  /** The text is one segment so far, without a comment or a top-level `=`, and the scan stands at `l`. */
  ghost predicate Whole(s: string, l: Lex) {
    FeedAll(NOTHING, s) == Cut([], s, l) && CommentStart(s) == |s| && EqualsIn(s).None?
  }

  lemma {:induction false} WholeGrows(s: string, l: Lex, c: char)
    requires Whole(s, l) && !(c in {',', '=', '#'} && Plain(l, c))
    ensures Whole(s + [c], Toml.Advance(l, c))
  {
    assert (s + [c])[..|s|] == s;
    FeedScans(NOTHING, s);
  }

  lemma {:induction false} WholeEmpty()
    ensures Whole("", Toml.START)
  {
  }

  /** One unit of a basic string: a character, or a backslash and the character it escapes. */
  predicate IsUnit(p: string) {
    (|p| == 1 && p[0] != '"' && p[0] != '\\') || (|p| == 2 && p[0] == '\\')
  }

  function Glue(ps: seq<string>): string {
    if ps == [] then "" else Glue(ps[..|ps| - 1]) + ps[|ps| - 1]
  }

  /** A double-quoted string is whole, whatever commas, brackets, signs or escaped quotes are in it. */
  lemma {:induction false} QuotedIsWhole(ps: seq<string>)
    requires forall i :: 0 <= i < |ps| ==> IsUnit(ps[i])
    ensures Whole("\"" + Glue(ps), Toml.START.(quote := Double))
    ensures Whole("\"" + Glue(ps) + "\"", Toml.START) && Clean("\"" + Glue(ps) + "\"")
  {
    hide Whole, Clean;
    if ps == [] {
      WholeEmpty();
      WholeGrows("", Toml.START, '"');
      assert "" + ['"'] == "\"" + Glue(ps);
    } else {
      var init, p := ps[..|ps| - 1], ps[|ps| - 1];
      QuotedIsWhole(init);
      var s := "\"" + Glue(init);
      WholeGrows(s, Toml.START.(quote := Double), p[0]);
      if |p| == 2 {
        WholeGrows(s + [p[0]], Toml.START.(quote := Double, escaped := true), p[1]);
        assert s + [p[0]] + [p[1]] == s + p;
      } else {
        assert s + [p[0]] == s + p;
      }
      assert s + p == "\"" + Glue(ps);
    }
    WholeGrows("\"" + Glue(ps), Toml.START.(quote := Double), '"');
    WholeIsClean("\"" + Glue(ps) + "\"");
  }

  lemma {:induction false} WholeIsClean(s: string)
    requires Whole(s, Toml.START)
    ensures Clean(s)
  {
  }

  /** So is a single-quoted one, in which a backslash means nothing. */
  lemma {:induction false} LiteralIsWhole(text: string)
    requires '\'' !in text
    ensures Whole("'" + text, Toml.START.(quote := Single))
    ensures Whole("'" + text + "'", Toml.START) && Clean("'" + text + "'")
  {
    hide Whole, Clean;
    if text == "" {
      WholeEmpty();
      WholeGrows("", Toml.START, '\'');
      assert "" + ['\''] == "'" + text;
    } else {
      var init, c := text[..|text| - 1], text[|text| - 1];
      LiteralIsWhole(init);
      WholeGrows("'" + init, Toml.START.(quote := Single), c);
      assert "'" + init + [c] == "'" + text;
    }
    WholeGrows("'" + text, Toml.START.(quote := Single), '\'');
    WholeIsClean("'" + text + "'");
  }

  function Deep(l: Lex, square: int, curly: int): Lex {
    l.(square := l.square + square, curly := l.curly + curly)
  }

  /** Inside brackets a balanced text is never cut. */
  lemma {:induction false} FeedDeep(current: string, square: int, curly: int, text: string)
    requires square >= 0 && curly >= 0 && square + curly > 0 && !Scan(Toml.START, text).failed
    ensures FeedAll(Cut([], current, Deep(Toml.START, square, curly)), text) ==
      Cut([], current + text, Deep(Scan(Toml.START, text), square, curly))
  {
    if text == "" {
      assert current + text == current;
    } else {
      var init, c := text[..|text| - 1], text[|text| - 1];
      var l := Scan(Toml.START, init);
      assert Scan(Toml.START, text) == Advance(l, c);
      hide *;
      StillSound(l, c);
      FeedDeep(current, square, curly, init);
      DepthIsSane(init);
      AdvanceDeep(l, c, square, curly);
      DeepStep(current + init, Deep(l, square, curly), c);
      assert current + text == current + init + [c];
      assert FeedAll(Cut([], current, Deep(Toml.START, square, curly)), text)
        == Feed(FeedAll(Cut([], current, Deep(Toml.START, square, curly)), init), c) by {
        FeedOne(Cut([], current, Deep(Toml.START, square, curly)), text);
      }
    }
  }

  lemma {:induction false} StillSound(l: Lex, c: char)
    requires !Advance(l, c).failed
    ensures !l.failed
  {
  }

  lemma {:induction false} FeedOne(s: Cut, text: string)
    requires text != ""
    ensures FeedAll(s, text) == Feed(FeedAll(s, text[..|text| - 1]), text[|text| - 1])
  {
  }

  /** The depth around a text does not matter to it while it is balanced, */
  lemma {:induction false} AdvanceDeep(l: Lex, c: char, square: int, curly: int)
    requires square >= 0 && curly >= 0 && square + curly > 0 && !Advance(l, c).failed
    requires l.square < 0 || l.curly < 0 ==> l.failed
    ensures Advance(Deep(l, square, curly), c) == Deep(Advance(l, c), square, curly)
    ensures !AtTop(Deep(l, square, curly))
  {
  }

  /** and below the top nothing is cut. */
  lemma {:induction false} DeepStep(current: string, l: Lex, c: char)
    requires !AtTop(l)
    ensures Feed(Cut([], current, l), c) == Cut([], current + [c], Advance(l, c))
  {
  }

  /** An array or a nested table is whole once its content is balanced, whatever commas are in it. */
  lemma {:induction false} BracketsAreClean(body: string)
    requires Scan(Toml.START, body) == Toml.START && CommentStart(body) == |body|
    ensures Clean("[" + body + "]") && Clean("{" + body + "}")
  {
    Around('[', ']', body);
    Around('{', '}', body);
  }

  lemma {:induction false} Around(open: char, close: char, body: string)
    requires (open, close) in {('[', ']'), ('{', '}')}
    requires Scan(Toml.START, body) == Toml.START && CommentStart(body) == |body|
    ensures Clean([open] + body + [close])
  {
    var inner := Advance(Toml.START, open);
    WholeEmpty();
    WholeGrows("", Toml.START, open);
    assert "" + [open] == [open];
    FeedScans(NOTHING, [open]);
    FeedConcat(NOTHING, [open], body);
    FeedDeep([open], inner.square, inner.curly, body);
    CommentConcat([open], body);
    ScanConcat(Toml.START, [open], body);
    FeedScans(Cut([], [open], inner), body);
    Closes([open] + body, close, inner);
  }

  lemma {:induction false} Closes(s: string, close: char, l: Lex)
    requires FeedAll(NOTHING, s) == Cut([], s, l) && CommentStart(s) == |s| && l.quote.Bare? && !l.escaped
    requires close in {']', '}'} && Advance(l, close) == Toml.START
    ensures Clean(s + [close])
  {
    assert (s + [close])[..|s|] == s;
  }

  predicate Trimmed(s: string) {
    s != "" ==> !IsSpace(s[0]) && !IsSpace(s[|s| - 1])
  }

  /** A value is read without the white space and the comment around it. */
  lemma {:induction false} ScalarIs(before: string, value: string, tail: string)
    requires Blank(before) && value != "" && Clean(value) && Trimmed(value) && IsTail(tail)
    ensures Trim(StripComment(before + value + tail)) == value
  {
    hide Clean, IsSpace, IsTail, StripComment, TrimStart, TrimEnd, Trim, CommentStart, Scan;
    BlankIsDull(before);
    DullIsClean(before);
    CleanConcat(before, value);
    CleanMeans(before + value);
    StripOf(before + value, tail);
    TrimOf(before, value, "");
    assert before + value + "" == before + value;
  }

  lemma {:induction false} CleanMeans(s: string)
    requires Clean(s)
    ensures CommentStart(s) == |s| && Scan(Toml.START, s) == Toml.START
  {
    ClosedScan(s);
  }

  // ---- Fields ----

  /** A piece of a table between commas: text without an `=`, or a key and a value with white space around them. */
  datatype Field =
    | Loose(text: string)
    | Setting(before: string, key: string, after: string, spaces: string, value: string, more: string)

  function Text(f: Field): string {
    match f
    case Loose(text) => text
    case Setting(before, key, after, spaces, value, more) => before + key + after + "=" + spaces + value + more
  }

  ghost predicate Written(f: Field) {
    match f
    case Loose(text) => Clean(text) && EqualsIn(text).None?
    case Setting(before, key, after, spaces, value, more) =>
      && Blank(before) && Blank(after) && Blank(spaces) && Blank(more)
      && Clean(key) && EqualsIn(key).None? && Trimmed(key) && Clean(value) && Trimmed(value)
  }

  /** The three ways to write the key `enabled`; how a double-quoted one may be escaped is JSON's matter. */
  predicate IsEnabled(key: string, json: Json) {
    || key == "enabled"
    || key == "'enabled'"
    || (key != "" && key[0] == '"' && key[|key| - 1] == '"' && json.parse(key) == Some("enabled"))
  }

  lemma {:induction false} NamesExactlyWhen(before: string, key: string, after: string, json: Json)
    requires Blank(before) && Trimmed(key) && Blank(after)
    ensures NamesEnabled(before + key + after, json) <==> IsEnabled(key, json)
  {
    hide IsSpace;
    TrimOf(before, key, after);
    assert |key| >= 2 && key[0] == '\'' && key[|key| - 1] == '\'' ==> key == "'" + key[1..|key| - 1] + "'";
    assert IsBareKey("enabled");
    assert |"'enabled'"| == 9 && "'enabled'"[1..8] == "enabled";
  }

  lemma {:induction false} TrimOf(before: string, s: string, after: string)
    requires Blank(before) && Trimmed(s) && Blank(after)
    ensures Trim(before + s + after) == s
  {
    hide IsSpace, TrimStart, TrimEnd;
    if s == "" {
      TrimEmpty(before + s + after);
    } else {
      assert before + s + after == before + (s + after);
      TrimStartOf(before, s + after);
      TrimEndOf(s, after);
    }
  }

  /** What a field is taken for. */
  function Meaning(f: Field, json: Json): Kind {
    match f
    case Loose(text) => if Blank(text) then Empty else Bad
    case Setting(before, key, after, spaces, value, _) =>
      if !IsEnabled(key, json) then Other
      else if value == "true" || value == "false" then Enabled(|before + key + after + "=" + spaces|, value)
      else Bad
  }

  lemma {:induction false} FieldIs(f: Field, json: Json)
    requires Written(f)
    ensures Clean(Text(f)) && KindOf(Text(f), json) == Meaning(f, json)
  {
    hide Clean, EqualsIn, IsSpace, KindOf, IsEnabled, Blank;
    match f {
      case Loose(text) => LooseKind(text, json);
      case Setting(before, key, after, spaces, value, more) =>
        SettingIsClean(before, key, after, spaces, value, more);
        SettingKind(before + key + after, spaces, value, more, json);
        NamesExactlyWhen(before, key, after, json);
    }
  }

  lemma {:induction false} LooseKind(text: string, json: Json)
    requires EqualsIn(text).None?
    ensures KindOf(text, json) == if Blank(text) then Empty else Bad
  {
    hide Blank, EqualsIn;
    TrimEmpty(text);
  }

  /** Text without a top-level `=` in either part has none together. */
  lemma {:induction false} NoEqualsConcat(a: string, b: string)
    requires Clean(a) && EqualsIn(a).None? && Clean(b) && EqualsIn(b).None?
    ensures Clean(a + b) && EqualsIn(a + b).None?
  {
    CleanConcat(a, b);
    ClosedScan(a);
    StillNoEquals(a, b);
  }

  lemma {:induction false} StillNoEquals(a: string, b: string)
    requires Scan(Toml.START, a) == Toml.START && EqualsIn(a).None? && EqualsIn(b).None?
    ensures EqualsIn(a + b).None?
  {
    if b == "" {
      assert a + b == a;
    } else {
      var init := b[..|b| - 1];
      StillNoEquals(a, init);
      assert (a + b)[..|a + b| - 1] == a + init;
      ScanConcat(Toml.START, a, init);
    }
  }

  lemma {:induction false} SettingIsClean(before: string, key: string, after: string, spaces: string, value: string,
          more: string)
    requires Written(Setting(before, key, after, spaces, value, more))
    ensures var left := before + key + after; Clean(left) && EqualsIn(left).None?
    ensures Clean(before + key + after + "=" + spaces + value + more)
  {
    hide Clean, EqualsIn, IsSpace, Trimmed, Dull;
    BlankIsClean(before);
    BlankIsClean(after);
    BlankIsClean(spaces);
    BlankIsClean(more);
    NoEqualsConcat(before, key);
    NoEqualsConcat(before + key, after);
    EqualsIsClean();
    CleanConcat(before + key + after, "=");
    CleanConcat(before + key + after + "=", spaces);
    CleanConcat(before + key + after + "=" + spaces, value);
    CleanConcat(before + key + after + "=" + spaces + value, more);
  }

  lemma {:induction false} BlankIsClean(s: string)
    requires Blank(s)
    ensures Clean(s) && EqualsIn(s).None?
  {
    hide Clean, EqualsIn;
    BlankIsDull(s);
    DullIsClean(s);
  }

  lemma {:induction false} SettingKind(name: string, spaces: string, value: string, more: string, json: Json)
    requires Clean(name) && EqualsIn(name).None? && Blank(spaces) && Trimmed(value) && Blank(more)
    ensures KindOf(name + "=" + spaces + value + more, json) ==
      if !NamesEnabled(name, json) then Other
      else if value == "true" || value == "false" then Enabled(|name + "=" + spaces|, value)
      else Bad
  {
    hide EqualsIn, NamesEnabled, TrimStart, TrimEnd, Trim, IsSpace, Clean;
    var left, right := name + "=", spaces + value + more;
    var s := name + "=" + spaces + value + more;
    assert s == left + right;
    NameEnds(name);
    EqualsPrefix(left, right);
    NotBlank(s, |name|);
    assert s[..|name|] == name && s[|name| + 1..] == right;
    ValueTrims(spaces, value, more);
  }

  lemma {:induction false} NameEnds(name: string)
    requires Clean(name) && EqualsIn(name).None?
    ensures EqualsIn(name + "=") == Some(|name|)
  {
    ClosedScan(name);
    EqualsAfter(name);
  }

  lemma {:induction false} ValueTrims(spaces: string, value: string, more: string)
    requires Blank(spaces) && Trimmed(value) && Blank(more)
    ensures TrimEnd(TrimStart(spaces + value + more)) == value
    ensures value != "" ==> |TrimStart(spaces + value + more)| == |value + more|
  {
    hide IsSpace, TrimStart, TrimEnd;
    TrimOf(spaces, value, more);
    if value != "" {
      assert spaces + value + more == spaces + (value + more);
      TrimStartOf(spaces, value + more);
    }
  }

  // ---- Tables ----

  function Texts(fs: seq<Field>): (ss: seq<string>)
    ensures |ss| == |fs| && forall i :: 0 <= i < |fs| ==> ss[i] == Text(fs[i])
  {
    if fs == [] then [] else Texts(fs[..|fs| - 1]) + [Text(fs[|fs| - 1])]
  }

  /** Is this a field that sets `enabled`? */
  predicate Sets(f: Field, json: Json) {
    f.Setting? && IsEnabled(f.key, json)
  }

  /** Every field has a key, nothing sets `enabled` or one field does, and it is a boolean. */
  predicate ReadsAs(fs: seq<Field>, json: Json, at: Option<nat>) {
    && (at.Some? ==> at.value < |fs| && Sets(fs[at.value], json) && fs[at.value].value in {"true", "false"})
    && (forall i :: 0 <= i < |fs| && Sets(fs[i], json) ==> at == Some(i))
    && forall i :: 0 <= i < |fs| && fs[i].Loose? ==> Blank(fs[i].text)
  }

  lemma {:induction false} FindExactlyWhen(fs: seq<Field>, json: Json, at: Option<nat>)
    requires forall f :: f in fs ==> Written(f)
    ensures FindEnabled(Texts(fs), json) == Ok(at) <==> ReadsAs(fs, json, at)
  {
    hide KindOf, IsEnabled, Written, FindEnabled, Text;
    forall i | 0 <= i < |fs|
      ensures KindOf(Texts(fs)[i], json) == Meaning(fs[i], json)
    {
      FieldIs(fs[i], json);
    }
    if FindEnabled(Texts(fs), json) == Ok(at) || (at.Some? ==> at.value < |fs|) {
      FindMeans(Texts(fs), json, at);
    }
  }

  lemma {:induction false} FieldsAreClean(fs: seq<Field>, json: Json)
    requires forall f :: f in fs ==> Written(f)
    ensures forall i :: 0 <= i < |fs| ==> Clean(Texts(fs)[i])
  {
    hide KindOf, Written, Text, Clean;
    forall i | 0 <= i < |fs|
      ensures Clean(Texts(fs)[i])
    {
      FieldIs(fs[i], json);
    }
  }

  /** White space, the fields between braces and commas, white space, perhaps a comment. */
  function Spelled(head: string, fs: seq<Field>, tail: string): string {
    Braced(head, Join(Texts(fs))) + tail
  }

  lemma {:induction false} TailIsStripped(head: string, fs: seq<Field>, tail: string, json: Json)
    requires (forall f :: f in fs ==> Written(f)) && Blank(head) && IsTail(tail)
    ensures StripComment(Spelled(head, fs, tail)) == Braced(head, Join(Texts(fs)))
  {
    hide Written, Clean, Text, Join, Scan, CommentStart, StripComment, IsTail, IsSpace, Blank;
    FieldsAreClean(fs, json);
    forall i | 0 <= i < |fs|
      ensures Closed(Texts(fs)[i])
    {
      CleanIsClosed(Texts(fs)[i]);
    }
    JoinClean(Texts(fs));
    BracesAround(head, Join(Texts(fs)));
    var v := Braced(head, Join(Texts(fs)));
    assert v[|v| - 1] == '}';
    NotSpaces();
    StripOf(v, tail);
  }

  lemma {:induction false} CleanIsClosed(s: string)
    requires Clean(s)
    ensures Closed(s)
  {
    hide Closed, CommentStart;
  }

  lemma {:induction false} ParseGives(raw: string, head: string, segments: seq<string>, json: Json)
    requires StripComment(raw) == Braced(head, Join(segments)) && Blank(head)
    requires segments != [] && forall i :: 0 <= i < |segments| ==> Closed(segments[i])
    ensures Parse(raw, json) ==
      match FindEnabled(segments, json)
      case Err(e) => Err(e)
      case Ok(at) => Ok(Some(Table(head, segments, at)))
  {
    hide Join, FeedAll, Closed, IsSpace, StripComment, TrimStart, FindEnabled, Parse;
    var s := "{" + Join(segments) + "}";
    BracedParts(head, Join(segments));
    NotSpaces();
    TrimStartOf(head, s);
    ParseIs(raw, head, Join(segments), json);
    JoinIsCut(segments);
    var cut := FeedAll(NOTHING, Join(segments));
    assert cut.done + [cut.current] == segments && cut.lex == Toml.START;
  }

  lemma {:induction false} SpelledGives(head: string, fs: seq<Field>, tail: string, json: Json)
    requires fs != [] && (forall f :: f in fs ==> Written(f)) && Blank(head) && IsTail(tail)
    ensures Parse(Spelled(head, fs, tail), json) ==
      match FindEnabled(Texts(fs), json)
      case Err(e) => Err(e)
      case Ok(at) => Ok(Some(Table(head, Texts(fs), at)))
  {
    hide Written, Clean, Text, Closed, Parse, FindEnabled, Spelled, IsTail, Blank;
    FieldsAreClean(fs, json);
    forall i | 0 <= i < |fs|
      ensures Closed(Texts(fs)[i])
    {
      CleanIsClosed(Texts(fs)[i]);
    }
    TailIsStripped(head, fs, tail, json);
    ParseGives(Spelled(head, fs, tail), head, Texts(fs), json);
  }

  /** The value of the field that is read, or that there is none. */
  function Value(fs: seq<Field>, at: Option<nat>): string {
    if at.Some? && at.value < |fs| && fs[at.value].Setting? then fs[at.value].value else "unset"
  }

  lemma {:induction false} ValueIs(head: string, fs: seq<Field>, at: Option<nat>, json: Json)
    requires (forall f :: f in fs ==> Written(f)) && ReadsAs(fs, json, at)
    ensures ValueOf(Table(head, Texts(fs), at), json) == Value(fs, at)
  {
    hide Written, Clean, Text, KindOf, IsEnabled;
    if at.Some? {
      FieldIs(fs[at.value], json);
    }
  }

  /**
   * An inline table is read exactly when every field has a key and at most one of them is `enabled`, in any of the ways
   * to write it, set to `true` or `false`; the answer is that field's value, and every field is kept as it was written.
   */
  lemma {:induction false} ReadExactlyWhen(head: string, fs: seq<Field>, tail: string, json: Json)
    requires fs != [] && (forall f :: f in fs ==> Written(f)) && Blank(head) && IsTail(tail)
    ensures forall at: Option<nat> ::
      ReadsAs(fs, json, at) <==> Parse(Spelled(head, fs, tail), json) == Ok(Some(Table(head, Texts(fs), at)))
    ensures Parse(Spelled(head, fs, tail), json).Ok? <==> exists at: Option<nat> :: ReadsAs(fs, json, at)
    ensures forall at: Option<nat> :: ReadsAs(fs, json, at) ==>
      ValueOf(Table(head, Texts(fs), at), json) == Value(fs, at)
  {
    hide Written, Parse, FindEnabled, Spelled, ReadsAs, IsTail, Blank, Texts, ValueOf;
    SpelledGives(head, fs, tail, json);
    forall at: Option<nat>
      ensures FindEnabled(Texts(fs), json) == Ok(at) <==> ReadsAs(fs, json, at)
      ensures ReadsAs(fs, json, at) ==> ValueOf(Table(head, Texts(fs), at), json) == Value(fs, at)
    {
      FindExactlyWhen(fs, json, at);
      if ReadsAs(fs, json, at) {
        ValueIs(head, fs, at, json);
      }
    }
  }

  const QUOTED: Field := Setting(" ", "'enabled'", " ", " ", "true", "")
  const ARRAY: Field := Setting(" ", "x", " ", " ", "[1, 2]", " ")

  /** A quoted key, a nested array with a comma in it and a comment are all read. */
  lemma {:induction false} QuotedExample(json: Json)
    ensures var raw := "{ 'enabled' = true," + (" x = [1, 2] }" + " # mine");
      && Parse(raw, json).Ok? && Parse(raw, json).value.Some?
      && ValueOf(Parse(raw, json).value.value, json) == "true"
  {
    hide Written, Parse, ValueOf, Spelled, IsTail, Blank, Texts;
    var fs := [QUOTED, ARRAY];
    QuotedKey();
    ArrayValue();
    SpelledExample();
    assert ReadsAs(fs, json, Some(0));
    ReadExactlyWhen("", fs, " # mine", json);
  }

  lemma {:induction false} SpelledExample()
    ensures Spelled("", [QUOTED, ARRAY], " # mine") == "{ 'enabled' = true," + (" x = [1, 2] }" + " # mine")
    ensures IsTail(" # mine") && Blank("")
  {
    hide Text, Join;
    QuotedText();
    ArrayText();
    JoinOfTwo(Text(QUOTED), Text(ARRAY));
    TextsOfTwo(QUOTED, ARRAY);
    assert " # mine"[1] == '#' && Blank(" # mine"[..1]);
    Bracing(" 'enabled' = true", " x = [1, 2] ", " # mine");
    assert "{" + " 'enabled' = true" + "," == "{ 'enabled' = true,";
    assert " x = [1, 2] " + "}" == " x = [1, 2] }";
  }

  lemma {:induction false} TextsOfTwo(f: Field, g: Field)
    ensures Texts([f, g]) == [Text(f), Text(g)]
  {
    hide Text;
    assert [f, g][..1] == [f];
  }

  lemma {:induction false} JoinOfTwo(a: string, b: string)
    ensures Join([a, b]) == a + "," + b
  {
    assert [a, b][..1] == [a];
  }

  lemma {:induction false} Bracing(a: string, b: string, tail: string)
    ensures Braced("", a + "," + b) + tail == ("{" + a + ",") + ((b + "}") + tail)
  {
  }

  lemma {:induction false} QuotedText()
    ensures Text(QUOTED) == " 'enabled' = true"
  {
  }

  lemma {:induction false} ArrayText()
    ensures Text(ARRAY) == " x = [1, 2] "
  {
  }

  lemma {:induction false} QuotedKey()
    ensures Written(QUOTED)
  {
    hide Clean, EqualsIn;
    LiteralIsWhole("enabled");
    assert "'" + "enabled" + "'" == "'enabled'";
    DullIsClean("true");
  }

  lemma {:induction false} ArrayValue()
    ensures Written(ARRAY)
  {
    hide Clean, EqualsIn;
    DullIsClean("x");
    ArrayIsClean();
  }

  lemma {:induction false} ArrayIsClean()
    ensures Clean("[1, 2]")
  {
    hide Clean, EqualsIn, CommentStart, Scan;
    DullIsClean("1");
    DullIsClean(" 2");
    CleanIsClosed("1");
    CleanIsClosed(" 2");
    var segments := ["1", " 2"];
    assert segments[..1] == ["1"];
    assert Join(segments) == "1, 2";
    JoinClean(segments);
    BracketsAreClean("1, 2");
    assert "[" + "1, 2" + "]" == "[1, 2]";
  }
}
