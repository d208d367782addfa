/** The inline-table scanner itself: loops over indices of the raw value, proved against the segment view. */
module InlineTableScan {
  import opened Common
  import Toml
  import opened InlineTable

  /** What the scanner reports: the field's value and place, and where the table and its content end. */
  datatype Field = Field(value: string, place: Option<(nat, nat)>, closeIndex: nat, bodyContentEnd: nat)

  function FieldOf(t: Table, json: Json): Field
    requires t.at.Some? ==> t.at.value < |t.segments| && KindOf(t.segments[t.at.value], json).Enabled?
  {
    var place := if t.at.None? then None else
      var k := KindOf(t.segments[t.at.value], json);
      var from := BodyStart(t) + Offset(t.segments, t.at.value) + k.start;
      Some((from, from + |k.value|));
    Field(ValueOf(t, json), place, BodyStart(t) + |Join(t.segments)|, BodyStart(t) + |Toml.TrimEnd(Join(t.segments))|)
  }

  lemma {:induction false} FailureSticks(s: Cut, text: string)
    requires s.lex.failed
    ensures FeedAll(s, text).lex.failed
  {
    if text != "" {
      FailureSticks(s, text[..|text| - 1]);
    }
  }

  lemma {:induction false} FailsEarly(body: string, n: nat)
    requires n <= |body| && FeedAll(NOTHING, body[..n]).lex.failed
    ensures FeedAll(NOTHING, body).lex.failed
  {
    assert body == body[..n] + body[n..];
    FeedConcat(NOTHING, body[..n], body[n..]);
    FailureSticks(FeedAll(NOTHING, body[..n]), body[n..]);
  }

  lemma {:induction false} NoEqualsEarly(s: string, n: nat)
    requires n <= |s| && EqualsIn(s[..n]).None? && Toml.Scan(Toml.START, s[..n]).failed
    ensures EqualsIn(s).None?
    decreases |s| - n
  {
    hide EqualsIn, Toml.Scan;
    if n < |s| {
      EqualsSnoc(s, n);
      ScanSnoc(s, n);
      NoEqualsEarly(s, n + 1);
    } else {
      assert s[..n] == s;
    }
  }

  lemma {:induction false} EqualsEarly(s: string, n: nat)
    requires n <= |s| && EqualsIn(s[..n]).Some?
    ensures EqualsIn(s) == EqualsIn(s[..n])
  {
    assert s == s[..n] + s[n..];
    EqualsPrefix(s[..n], s[n..]);
  }

  /** One character of a scan; `plain` tells a character outside quotes that is not a quote or a bracket. */
  method Step(quote: Toml.Quote, escaped: bool, square: int, curly: int, c: char)
    returns (quote': Toml.Quote, escaped': bool, square': int, curly': int, plain: bool)
    requires square >= 0 && curly >= 0
    ensures var l := Toml.Lex(quote, escaped, square, curly, false);
      && Toml.Lex(quote', escaped', square', curly', square' < 0 || curly' < 0) == Toml.Advance(l, c)
      && (plain <==> Toml.Plain(l, c) && c !in {'[', ']', '{', '}'})
  {
    quote', escaped', square', curly', plain := quote, escaped, square, curly, false;
    if escaped {
      escaped' := false;
    } else if quote == Toml.Double && c == '\\' {
      escaped' := true;
    } else if quote != Toml.Bare {
      if c == (if quote == Toml.Double then '"' else '\'') {
        quote' := Toml.Bare;
      }
    } else if c == '"' || c == '\'' {
      quote' := if c == '"' then Toml.Double else Toml.Single;
    } else if c == '[' {
      square' := square + 1;
    } else if c == ']' {
      square' := square - 1;
    } else if c == '{' {
      curly' := curly + 1;
    } else if c == '}' {
      curly' := curly - 1;
    } else {
      plain := true;
    }
  }

  lemma {:induction false} ScanSnoc(s: string, n: nat)
    requires n < |s|
    ensures Toml.Scan(Toml.START, s[..n + 1]) == Toml.Advance(Toml.Scan(Toml.START, s[..n]), s[n])
    ensures FeedAll(NOTHING, s[..n + 1]) == Feed(FeedAll(NOTHING, s[..n]), s[n])
  {
    assert s[..n + 1][..n] == s[..n];
  }

  lemma {:induction false} EqualsSnoc(s: string, n: nat)
    requires n < |s| && EqualsIn(s[..n]).None?
    ensures var l := Toml.Scan(Toml.START, s[..n]);
      EqualsIn(s[..n + 1]) == if s[n] == '=' && Toml.Plain(l, '=') && AtTop(l) && !l.failed then Some(n) else None
  {
    assert s[..n + 1][..n] == s[..n];
  }

  method TopLevelEquals(s: string) returns (r: Option<nat>)
    ensures r == EqualsIn(s)
  {
    hide EqualsIn, Toml.Scan, Toml.Advance;
    EqualsOfEmpty();
    var quote, escaped, square, curly := Toml.Bare, false, 0, 0;
    for index := 0 to |s|
      invariant Toml.Lex(quote, escaped, square, curly, false) == Toml.Scan(Toml.START, s[..index])
      invariant square >= 0 && curly >= 0
      invariant EqualsIn(s[..index]).None?
    {
      ScanSnoc(s, index);
      EqualsSnoc(s, index);
      var plain;
      var atTop := square == 0 && curly == 0;
      quote, escaped, square, curly, plain := Step(quote, escaped, square, curly, s[index]);
      if plain && s[index] == '=' && atTop {
        EqualsEarly(s, index + 1);
        return Some(index);
      }
      if square < 0 || curly < 0 {
        NoEqualsEarly(s, index + 1);
        return None;
      }
    }
    assert s[..|s|] == s;
    r := None;
  }

  lemma {:induction false} EqualsOfEmpty()
    ensures EqualsIn("").None? && Toml.Scan(Toml.START, "") == Toml.START
  {
  }

  predicate Balanced(l: Toml.Lex) {
    !l.failed && l.quote == Toml.Bare && AtTop(l)
  }

  ghost predicate CutAt(body: string, pairs: seq<(nat, nat)>, segments: seq<string>) {
    && |pairs| == |segments|
    && (forall i :: 0 <= i < |pairs| ==>
         pairs[i].0 <= pairs[i].1 <= |body| && body[pairs[i].0..pairs[i].1] == segments[i])
    && (forall i :: 0 <= i < |pairs| ==> pairs[i].0 == Offset(segments, i))
  }

  lemma {:induction false} OffsetSnoc(segments: seq<string>, s: string, k: nat)
    requires k <= |segments|
    ensures Offset(segments + [s], k) == Offset(segments, k)
  {
    if k > 0 {
      OffsetSnoc(segments, s, k - 1);
    }
  }

  lemma {:induction false} CutSnoc(body: string, pairs: seq<(nat, nat)>, segments: seq<string>, from: nat, to: nat)
    requires CutAt(body, pairs, segments) && from <= to <= |body| && from == Offset(segments, |segments|)
    ensures CutAt(body, pairs + [(from, to)], segments + [body[from..to]])
    ensures Offset(segments + [body[from..to]], |segments| + 1) == to + 1
  {
    hide Offset;
    var s := body[from..to];
    OffsetLast(segments, s);
    var more, longer := pairs + [(from, to)], segments + [s];
    forall i | 0 <= i < |more|
      ensures more[i].0 == Offset(longer, i)
    {
      OffsetSnoc(segments, s, i);
      if i < |pairs| {
        assert more[i] == pairs[i];
      }
    }
  }

  lemma {:induction false} OffsetLast(segments: seq<string>, s: string)
    ensures Offset(segments + [s], |segments| + 1) == Offset(segments, |segments|) + |s| + 1
  {
    OffsetSnoc(segments, s, |segments|);
  }

  lemma {:induction false} NothingCut(body: string)
    ensures FeedAll(NOTHING, "") == NOTHING && CutAt(body, [], []) && Offset([], 0) == 0
  {
  }

  lemma {:induction false} CommaKeeps(l: Toml.Lex)
    requires Toml.Plain(l, ',')
    ensures Toml.Advance(l, ',') == l
  {
  }

  /** Cut the body at its top-level commas. */
  method CutBody(body: string) returns (r: Result<seq<(nat, nat)>>)
    ensures var cut := FeedAll(NOTHING, body);
      && (r.Ok? <==> Balanced(cut.lex))
      && (r.Ok? ==> CutAt(body, r.value, cut.done + [cut.current]))
  {
    var pairs: seq<(nat, nat)> := [];
    var segmentStart := 0;
    var quote, escaped, square, curly := Toml.Bare, false, 0, 0;
    ghost var done: seq<string> := [];
    hide FeedAll, Offset, Toml.Advance, CutAt;
    NothingCut(body);
    for index := 0 to |body|
      invariant segmentStart <= index && square >= 0 && curly >= 0
      invariant FeedAll(NOTHING, body[..index]) ==
        Cut(done, body[segmentStart..index], Toml.Lex(quote, escaped, square, curly, false))
      invariant CutAt(body, pairs, done) && segmentStart == Offset(done, |done|)
    {
      var c := body[index];
      ScanSnoc(body, index);
      assert body[segmentStart..index + 1] == body[segmentStart..index] + [c];
      var plain;
      var atTop := square == 0 && curly == 0;
      ghost var before := Toml.Lex(quote, escaped, square, curly, false);
      quote, escaped, square, curly, plain := Step(quote, escaped, square, curly, c);
      if plain && c == ',' && atTop {
        CommaKeeps(before);
        CutSnoc(body, pairs, done, segmentStart, index);
        pairs := pairs + [(segmentStart, index)];
        done := done + [body[segmentStart..index]];
        segmentStart := index + 1;
      }
      if square < 0 || curly < 0 {
        FailsEarly(body, index + 1);
        return Err("unbalanced inline table");
      }
    }
    assert body[..|body|] == body;
    if quote != Toml.Bare || square != 0 || curly != 0 {
      return Err("unbalanced inline table");
    }
    CutSnoc(body, pairs, done, segmentStart, |body|);
    r := Ok(pairs + [(segmentStart, |body|)]);
  }

  lemma {:induction false} SegmentPrefix(segments: seq<string>, k: nat, json: Json)
    requires k < |segments|
    ensures FindEnabled(segments[..k + 1], json) ==
      (var r := FindEnabled(segments[..k], json);
       if r.Err? then r else
         match KindOf(segments[k], json)
         case Bad => Err("unparsable field")
         case Enabled(_, _) => if r.value.Some? then Err("duplicate enabled") else Ok(Some(k))
         case _ => r)
  {
    assert segments[..k + 1][..k] == segments[..k];
  }

  lemma {:induction false} ErrorSticks(segments: seq<string>, k: nat, json: Json)
    requires k <= |segments| && FindEnabled(segments[..k], json).Err?
    ensures FindEnabled(segments, json).Err?
    decreases |segments|
  {
    if k < |segments| {
      assert segments[..|segments| - 1][..k] == segments[..k];
      ErrorSticks(segments[..|segments| - 1], k, json);
    } else {
      assert segments[..k] == segments;
    }
  }

  /** The kind of one segment, by its `=` and its trimmed ends. */
  method InspectSegment(s: string, json: Json) returns (k: Kind)
    ensures k == KindOf(s, json)
  {
    hide EqualsIn, NamesEnabled, Toml.TrimStart, Toml.TrimEnd, Toml.Trim, IsBoolean;
    if Toml.Trim(s) == "" {
      return Empty;
    }
    var equals := TopLevelEquals(s);
    if equals.None? {
      return Bad;
    }
    if !NamesEnabled(s[..equals.value], json) {
      return Other;
    }
    var from, to := TrimRange(s, equals.value + 1);
    k := if IsBoolean(s[from..to]) then Enabled(from, s[from..to]) else Bad;
    KindIsBy(s, equals.value, s[from..], s[from..to], json);
  }

  lemma {:induction false} KindIsBy(s: string, e: nat, right: string, value: string, json: Json)
    requires Toml.Trim(s) != "" && EqualsIn(s) == Some(e) && NamesEnabled(s[..e], json)
    requires Toml.TrimStart(s[e + 1..]) == right && Toml.TrimEnd(right) == value
    ensures KindOf(s, json) == if IsBoolean(value) then Enabled(|s| - |right|, value) else Bad
  {
    hide EqualsIn, NamesEnabled, Toml.TrimStart, Toml.TrimEnd, Toml.Trim, IsBoolean;
  }

  /** The ends of the text after an index, without the white space around it. */
  method TrimRange(s: string, start: nat) returns (from: nat, to: nat)
    requires start <= |s|
    ensures from <= to <= |s|
    ensures s[from..] == Toml.TrimStart(s[start..]) && s[from..to] == Toml.TrimEnd(s[from..])
  {
    hide IsSpace, Toml.TrimStart, Toml.TrimEnd;
    var skip := FirstVisible(s[start..]);
    from := start + skip;
    assert s[from..] == s[start..][skip..];
    var keep := LastVisible(s[from..]);
    to := from + keep;
    assert s[from..to] == s[from..][..keep];
  }

  /** Where the text's first visible character stands. */
  method FirstVisible(value: string) returns (open: nat)
    ensures open <= |value| && value[open..] == Toml.TrimStart(value)
  {
    hide IsSpace;
    open := 0;
    while open < |value| && IsSpace(value[open])
      invariant open <= |value| && Toml.TrimStart(value[open..]) == Toml.TrimStart(value)
    {
      assert value[open..][1..] == value[open + 1..];
      open := open + 1;
    }
  }

  /** Where the text's last visible character ends. */
  method LastVisible(value: string) returns (end: nat)
    ensures end <= |value| && value[..end] == Toml.TrimEnd(value)
  {
    hide IsSpace;
    end := |value|;
    assert value[..end] == value;
    while end > 0 && IsSpace(value[end - 1])
      invariant end <= |value| && Toml.TrimEnd(value[..end]) == Toml.TrimEnd(value)
    {
      assert value[..end][..end - 1] == value[..end - 1];
      end := end - 1;
    }
  }

  /** The field found in a segment, and its place in the raw value. */
  predicate FoundAt(segments: seq<string>, at: nat, open: nat, text: string, place: Option<(nat, nat)>, json: Json) {
    at < |segments| &&
    match KindOf(segments[at], json)
    case Enabled(start, value) =>
      var from := open + 1 + Offset(segments, at) + start;
      text == value && place == Some((from, from + |value|))
    case _ => false
  }

  /** The `enabled` segment among those cut out of the body. */
  method FindField(body: string, pairs: seq<(nat, nat)>, ghost segments: seq<string>, open: nat, json: Json)
    returns (r: Result<Option<nat>>, text: string, place: Option<(nat, nat)>)
    requires CutAt(body, pairs, segments)
    ensures r.Err? <==> FindEnabled(segments, json).Err?
    ensures r.Ok? ==> r == FindEnabled(segments, json)
    ensures r.Ok? && r.value.None? ==> place.None? && text == "unset"
    ensures r.Ok? && r.value.Some? ==> FoundAt(segments, r.value.value, open, text, place, json)
  {
    hide KindOf, FindEnabled, Offset;
    var which: Option<nat> := None;
    place, text := None, "unset";
    NoneFound(segments, json);
    for i := 0 to |pairs|
      invariant FindEnabled(segments[..i], json) == Ok(which)
      invariant which.None? ==> place.None? && text == "unset"
      invariant which.Some? ==> FoundAt(segments, which.value, open, text, place, json)
    {
      SegmentPrefix(segments, i, json);
      var (start, end) := pairs[i];
      var kind := InspectSegment(body[start..end], json);
      if kind.Bad? || (kind.Enabled? && which.Some?) {
        ErrorSticks(segments, i + 1, json);
        r := Err("unparsable or duplicate field");
        return;
      }
      if kind.Enabled? {
        which, text := Some(i), kind.value;
        place := Some((open + 1 + start + kind.start, open + 1 + start + kind.start + |kind.value|));
      }
    }
    assert segments[..|segments|] == segments;
    r := Ok(which);
  }

  lemma {:induction false} NoneFound(segments: seq<string>, json: Json)
    ensures FindEnabled(segments[..0], json) == Ok(None)
  {
  }

  /** The scanner as a whole: an error, no inline table, or the field and the ends. */
  method ParseInlineBooleanField(raw: string, json: Json) returns (r: Result<Option<Field>>)
    ensures r.Err? <==> Parse(raw, json).Err?
    ensures r == Ok(None) <==> Parse(raw, json) == Ok(None)
    ensures r.Ok? && r.value.Some? ==>
      Parse(raw, json).Ok? && Parse(raw, json).value.Some? &&
      var t := Parse(raw, json).value.value;
      (t.at.Some? ==> t.at.value < |t.segments| && KindOf(t.segments[t.at.value], json).Enabled?) &&
      r.value.value == FieldOf(t, json)
  {
    hide KindOf, FindEnabled, FeedAll, Join, Offset, Toml.TrimStart, Toml.TrimEnd, Toml.StripComment, CutAt;
    var value := Toml.StripTomlComment(raw);
    var open := FirstVisible(value);
    var t := value[open..];
    assert value[..open] == value[..|value| - |t|];
    if open == |value| || value[open] != '{' {
      return Ok(None);
    }
    var close := |value| - 1;
    if value[close] != '}' {
      return Err("unterminated inline table");
    }
    var body := value[open + 1..close];
    InnerSlice(value, open);
    ParseAs(raw, value, t, json);
    var pairs := CutBody(body);
    if pairs.Err? {
      return Err(pairs.error);
    }
    ghost var segments := FeedAll(NOTHING, body).done + [FeedAll(NOTHING, body).current];
    var which, text, place := FindField(body, pairs.value, segments, open, json);
    if which.Err? {
      return Err(which.error);
    }
    CutIsClosed(body);
    CutJoins(body);
    r := Ok(Some(Field(text, place, close, open + 1 + |Toml.TrimEnd(body)|)));
  }

  lemma {:induction false} InnerSlice(value: string, open: nat)
    requires open < |value| - 1
    ensures var t := value[open..];
      |t| > 1 && value[open + 1..|value| - 1] == t[1..|t| - 1] && t[|t| - 1] == value[|value| - 1]
  {
  }

  lemma {:induction false} ParseAs(raw: string, value: string, t: string, json: Json)
    requires value == Toml.StripComment(raw) && t == Toml.TrimStart(value)
    requires t != "" && t[0] == '{' && t[|t| - 1] == '}'
    ensures Parse(raw, json) == ParseBody(value[..|value| - |t|], t[1..|t| - 1], json)
  {
  }

  lemma {:induction false} CutJoins(body: string)
    requires CutOf(FeedAll(NOTHING, body), body)
    ensures Join(FeedAll(NOTHING, body).done + [FeedAll(NOTHING, body).current]) == body
  {
  }

  /** Write the managed value from the scanner's indices. */
  method ManagedValue(raw: string, json: Json) returns (r: Result<Option<string>>)
    ensures r.Err? <==> Parse(raw, json).Err?
    ensures r == Ok(None) <==> Parse(raw, json) == Ok(None)
    ensures r.Ok? && r.value.Some? ==>
      Parse(raw, json).Ok? && Parse(raw, json).value.Some? &&
      var t := Parse(raw, json).value.value;
      Shape(raw, t) && (t.at.Some? ==> KindOf(t.segments[t.at.value], json).Enabled?) &&
      r.value.value == Managed(raw, t, json)
  {
    hide KindOf, Join, Offset, Toml.TrimEnd, Parse;
    var field := ParseInlineBooleanField(raw, json);
    if field.Err? {
      return Err(field.error);
    }
    if field.value.None? {
      return Ok(None);
    }
    ghost var t := Parse(raw, json).value.value;
    ShapeOf(raw, json);
    var f := field.value.value;
    if f.place.Some? {
      var (from, to) := f.place.value;
      OffsetFits(t.segments, t.at.value);
      return Ok(Some(raw[..from] + "false" + raw[to..]));
    }
    Toml.TrimEndSplits(Join(t.segments));
    var end := f.bodyContentEnd;
    var hasValues := !EndsWith(Toml.TrimEnd(raw[..end]), '{');
    r := Ok(Some(raw[..end] + (if hasValues then ", " else "") + FIELD + raw[end..]));
  }
}
