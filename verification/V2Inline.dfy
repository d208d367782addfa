/** The managed form of a `multi_agent_v2` inline-table line, and what reading it gives. */
module V2Inline {
  import opened Common
  import opened Toml
  import opened ConfigLines
  import opened Document
  import opened Tracking
  import opened ConfigEdit
  import opened FeatureLines
  import opened RouteEdits
  import I = InlineTable

  // ---- Trailing white space is no matter ----

  lemma {:induction false} StripTrailing(s: string, spaces: string)
    requires Blank(spaces)
    ensures StripComment(s + spaces) == StripComment(s)
    ensures CommentStart(s + spaces) == if CommentStart(s) < |s| then CommentStart(s) else |s + spaces|
  {
    hide IsSpace;
    BlankNoHash(spaces);
    CommentAfter(s, spaces);
    var n := CommentStart(s);
    if n < |s| {
      assert (s + spaces)[..n] == s[..n];
    } else {
      assert s[..n] == s && (s + spaces)[..|s + spaces|] == s + spaces;
      TrimEndAgain(s, spaces);
    }
  }

  lemma {:induction false} BlankNoHash(spaces: string)
    requires Blank(spaces)
    ensures '#' !in spaces
  {
    assert !IsSpace('#');
    hide IsSpace;
  }

  lemma {:induction false} CommentAfter(s: string, more: string)
    requires '#' !in more
    ensures CommentStart(s + more) == if CommentStart(s) < |s| then CommentStart(s) else |s + more|
  {
    if more == "" {
      assert s + more == s;
    } else {
      var init := more[..|more| - 1];
      CommentAfter(s, init);
      assert (s + more)[..|s + more| - 1] == s + init;
    }
  }

  lemma {:induction false} TrimEndAgain(s: string, spaces: string)
    requires Blank(spaces)
    ensures TrimEnd(s + spaces) == TrimEnd(s)
  {
    hide IsSpace;
    if spaces == "" {
      assert s + spaces == s;
    } else {
      TrimEndAgain(s, spaces[..|spaces| - 1]);
      assert (s + spaces)[..|s + spaces| - 1] == s + spaces[..|spaces| - 1];
    }
  }

  lemma {:induction false} ParseTrailing(value: string, spaces: string, json: I.Json)
    requires Blank(spaces)
    ensures I.Parse(value + spaces, json) == I.Parse(value, json)
  {
    hide StripComment, IsSpace;
    StripTrailing(value, spaces);
  }

  lemma {:induction false} ShapeTrailing(value: string, spaces: string, t: I.Table)
    requires I.Shape(value, t)
    ensures I.Shape(value + spaces, t) && |t.head| + 2 + |I.Join(t.segments)| <= |value|
  {
    hide I.Join;
    I.BracedParts(t.head, I.Join(t.segments));
    assert I.Braced(t.head, I.Join(t.segments)) <= value <= value + spaces;
  }

  /** The managed value replaces one slice inside the braces, whatever follows them. */
  lemma {:induction false} ManagedSlices(value: string, spaces: string, t: I.Table, json: I.Json)
    returns (from: nat, to: nat, x: string)
    requires I.Shape(value, t) && I.Shape(value + spaces, t)
    requires t.at.Some? ==> I.KindOf(t.segments[t.at.value], json).Enabled?
    ensures 0 < from <= to < |value| && AllDots(x)
    ensures I.Managed(value, t, json) == value[..from] + x + value[to..]
    ensures I.Managed(value + spaces, t, json) == (value + spaces)[..from] + x + (value + spaces)[to..]
  {
    hide *;
    ShapeTrailing(value, spaces, t);
    I.ShapeMeans(value, t);
    if t.at.Some? {
      from, to, x := SetSlices(value, spaces, t, json);
    } else {
      from, to, x := InsertSlices(value, spaces, t, json);
    }
  }

  lemma {:induction false} SetSlices(value: string, spaces: string, t: I.Table, json: I.Json)
    returns (from: nat, to: nat, x: string)
    requires I.Shape(value, t) && I.Shape(value + spaces, t) && |t.head| + 2 + |I.Join(t.segments)| <= |value|
    requires t.at.Some? && I.KindOf(t.segments[t.at.value], json).Enabled?
    ensures 0 < from <= to < |value| && AllDots(x)
    ensures I.Managed(value, t, json) == value[..from] + x + value[to..]
    ensures I.Managed(value + spaces, t, json) == (value + spaces)[..from] + x + (value + spaces)[to..]
  {
    hide I.KindOf, I.Join, I.Offset, AllDots, I.Braced;
    FieldIsPlain();
    I.OffsetFits(t.segments, t.at.value);
    var k := I.KindOf(t.segments[t.at.value], json);
    from := I.BodyStart(t) + I.Offset(t.segments, t.at.value) + k.start;
    to, x := from + |k.value|, "false";
  }

  lemma {:induction false} InsertSlices(value: string, spaces: string, t: I.Table, json: I.Json)
    returns (from: nat, to: nat, x: string)
    requires I.Shape(value, t) && I.Shape(value + spaces, t) && |t.head| + 2 + |I.Join(t.segments)| <= |value|
    requires t.at.None?
    ensures 0 < from <= to < |value| && AllDots(x)
    ensures I.Managed(value, t, json) == value[..from] + x + value[to..]
    ensures I.Managed(value + spaces, t, json) == (value + spaces)[..from] + x + (value + spaces)[to..]
  {
    hide I.Join, TrimEnd, AllDots, I.EndsWith, I.Braced;
    FieldIsPlain();
    from := I.BodyStart(t) + |TrimEnd(I.Join(t.segments))|;
    to := from;
    assert (value + spaces)[..from] == value[..from];
    var comma := if !I.EndsWith(TrimEnd(value[..from]), '{') then ", " else "";
    x := comma + I.FIELD;
    DotsConcat(comma, I.FIELD);
    InsertShape(value, from, comma, I.FIELD);
    InsertShape(value + spaces, from, comma, I.FIELD);
  }

  /** The edit stays inside the value. */
  lemma {:induction false} ManagedTrailing(value: string, spaces: string, t: I.Table, json: I.Json)
    requires I.Shape(value, t) && (t.at.Some? ==> I.KindOf(t.segments[t.at.value], json).Enabled?)
    ensures I.Shape(value + spaces, t)
    ensures I.Managed(value + spaces, t, json) == I.Managed(value, t, json) + spaces
    ensures |I.Managed(value, t, json)| > 0 && value != ""
    ensures I.Managed(value, t, json)[0] == value[0]
    ensures I.Managed(value, t, json)[|I.Managed(value, t, json)| - 1] == value[|value| - 1]
  {
    hide I.KindOf, I.Managed, I.Join;
    ShapeTrailing(value, spaces, t);
    var from, to, x := ManagedSlices(value, spaces, t, json);
    SliceTrailing(value, spaces, from, to, x);
  }

  lemma {:induction false} InsertShape(s: string, end: nat, a: string, b: string)
    requires end <= |s|
    ensures s[..end] + a + b + s[end..] == s[..end] + (a + b) + s[end..]
  {
  }

  lemma {:induction false} SliceTrailing(value: string, spaces: string, from: nat, to: nat, x: string)
    requires 0 < from <= to < |value|
    ensures var m := value[..from] + x + value[to..];
      && (value + spaces)[..from] + x + (value + spaces)[to..] == m + spaces
      && m != "" && m[0] == value[0] && m[|m| - 1] == value[|value| - 1]
  {
    assert (value + spaces)[to..] == value[to..] + spaces;
  }

  /** An inline table is no boolean. */
  lemma {:induction false} InlineIsNoBoolean(value: string, json: I.Json)
    requires I.Parse(value, json).Ok? && I.Parse(value, json).value.Some?
    ensures !IsBoolean(Scalar(value)) && value != ""
  {
    hide StripComment, I.ParseBody;
    var t := TrimStart(StripComment(value));
    TrimStartSplits(StripComment(value));
    TrimEndOf("", "");
    TrimKeepsFirst(t);
    assert Scalar(value) == TrimEnd(t);
    StripOfEmpty();
  }

  lemma {:induction false} StripOfEmpty()
    ensures StripComment("") == ""
  {
  }

  lemma {:induction false} TrimKeepsFirst(t: string)
    requires t != "" && t[0] == '{'
    ensures TrimEnd(t) != "" && TrimEnd(t)[0] == '{'
  {
    assert !IsSpace('{');
    hide IsSpace, TrimEnd;
    TrimEndDrops(t);
  }

  // ---- The line around the value ----

  /** The parts of an assignment line: white space, the key, white space, `=`, and the rest. */
  lemma {:induction false} EqualsParts(line: string, key: string)
    returns (before: string, middle: string, right: string)
    requires AfterEquals(line, key).Some? && IsKey(key)
    ensures Blank(before) && Blank(middle) && AfterEquals(line, key) == Some(right)
    ensures line == before + (key + (middle + ("=" + right)))
  {
    hide IsSpace, TrimStart, IsKey, Blank;
    var t := TrimStart(line);
    before := line[..|line| - |t|];
    TrimStartSplits(line);
    var rest := t[|key|..];
    var s := TrimStart(rest);
    middle := rest[..|rest| - |s|];
    TrimStartSplits(rest);
    right := s[1..];
    assert s == "=" + right;
    assert t == key + rest;
    assert rest == middle + s;
    assert line == before + t;
  }

  /** The text up to the `=`, after which any other text could stand. */
  lemma {:induction false} LineParts(line: string, key: string) returns (left: string, right: string)
    requires AfterEquals(line, key).Some? && IsKey(key)
    ensures left != "" && line == left + right && AfterEquals(line, key) == Some(right)
    ensures forall other: string :: AssignsRest(left + other, key, other)
  {
    hide AfterEquals, IsKey, Blank, AssignsRest;
    var before, middle, rest := EqualsParts(line, key);
    right := rest;
    left := before + (key + (middle + "="));
    Regroup(before, key, middle, right);
    forall other: string
      ensures AssignsRest(left + other, key, other)
    {
      Regroup(before, key, middle, other);
      LineOf(before, key, middle, other);
    }
  }

  predicate AssignsRest(line: string, key: string, right: string) {
    AfterEquals(line, key) == Some(right) && !IsComment(line) && !IsHeader(line)
  }

  lemma {:induction false} Regroup(before: string, key: string, middle: string, right: string)
    ensures before + (key + (middle + "=")) + right == before + (key + (middle + ("=" + right)))
  {
  }

  lemma {:induction false} LineOf(before: string, key: string, middle: string, right: string)
    requires Blank(before) && Blank(middle) && IsKey(key)
    ensures var line := before + (key + (middle + ("=" + right)));
      AssignsRest(line, key, right)
  {
    KeyChars(key, 0);
    assert !IsSpace('=');
    hide IsSpace;
    var tail := middle + ("=" + right);
    var t := key + tail;
    assert t[0] == key[0];
    TrimStartOf(before, t);
    assert t[|key|..] == tail;
    TrimStartOf(middle, "=" + right);
    assert ("=" + right)[1..] == right;
  }

  /** What the theorem about values says of a whole line. */
  ghost predicate InlineLine(line: string, value: string, json: I.Json) {
    && Assigned(line, MULTI_AGENT_V2) == Some(value) && AfterEquals(line, MULTI_AGENT_V2).Some?
    && !IsBoolean(Scalar(value)) && I.Parse(value, json).Ok? && I.Parse(value, json).value.Some?
  }

  lemma {:induction false} ManagedV2LineIs(p: Previous, right: string, t: I.Table, json: I.Json)
    requires p.inline && p.at.Some? && AfterEquals(p.at.value.line, MULTI_AGENT_V2) == Some(right)
    requires I.Parse(TrimStart(right), json) == Ok(Some(t)) && |TrimStart(right)| <= |p.at.value.line|
    ensures I.Shape(TrimStart(right), t) && (t.at.Some? ==> I.KindOf(t.segments[t.at.value], json).Enabled?)
    ensures var line, raw := p.at.value.line, TrimStart(right);
      ManagedV2Line(p, json) == Ok(line[..|line| - |raw|] + I.Managed(raw, t, json))
  {
    hide I.Parse, I.Managed, I.KindOf, AfterEquals, TrimStart, I.Shape;
    I.ShapeOf(TrimStart(right), json);
  }

  /** The value of an inline-table line: its text, the white space around it, its table. */
  lemma {:induction false} InlineValue(line: string, value: string, json: I.Json)
    returns (left: string, right: string, before: string, spaces: string)
    requires InlineLine(line, value, json)
    ensures left != "" && line == left + (before + (value + spaces)) && AfterEquals(line, MULTI_AGENT_V2) == Some(right)
    ensures forall other: string :: AssignsRest(left + other, MULTI_AGENT_V2, other)
    ensures TrimStart(right) == value + spaces && Blank(before) && Blank(spaces) && AllDots(value)
    ensures value != "" && !IsSpace(value[0]) && !IsSpace(value[|value| - 1])
  {
    hide I.Parse, IsSpace, AllDots, AssignsRest, AfterEquals, Blank, TrimStart, ValueOf, IsComment, Scalar;
    FeatureKeys();
    InlineIsVisible(value, json);
    left, right := LineParts(line, MULTI_AGENT_V2);
    AssignedValue(line, right, value);
    ValueParts(right, value);
    TrimStartSplits(right);
    var raw := TrimStart(right);
    before := right[..|right| - |raw|];
    spaces := raw[|value|..];
    assert raw == value + spaces;
  }

  lemma {:induction false} InlineManaged(line: string, value: string, json: I.Json, p: Previous)
    returns (m: string, v: string)
    requires InlineLine(line, value, json) && Unbroken(line)
    requires p.inline && p.at.Some? && p.at.value.line == line
    ensures ManagedV2Line(p, json) == Ok(m) && InlineLine(m, v, json)
    ensures I.ValueOf(I.Parse(v, json).value.value, json) == "false"
    ensures Settable(m, Some(line)) && !IsHeader(m) && !IsBlank(m) && !IsManagedComment(m)
  {
    hide I.Parse, I.Managed, I.KindOf, IsSpace, AllDots, I.ValueOf, I.Shape, Blank, TrimStart, Unbroken, Settable;
    hide AfterEquals, IsHeader, IsBlank, IsManagedComment, IsComment, Assigned, Scalar, IsBoolean, ManagedV2Line;
    FeatureKeys();
    var left, right, before, spaces := InlineValue(line, value, json);
    var t := I.Parse(value, json).value.value;
    ParseTrailing(value, spaces, json);
    I.ShapeOf(value, json);
    I.ManagedParsesAgain(value, json);
    ManagedTrailing(value, spaces, t, json);
    v := I.Managed(value, t, json);
    m := left + (before + (v + spaces));
    PrefixIs(line, left, before, value + spaces);
    ManagedV2LineIs(p, right, t, json);
    Concat3(left, before, v + spaces);
    ManagedIsOneLine(value, t, json);
    assert AssignsRest(m, MULTI_AGENT_V2, before + (v + spaces));
    AssignedAgain(m, left, before, v, spaces);
    InlineIsNoBoolean(v, json);
    UnbrokenManaged(line, left, before, value, spaces, v);
    NotBlankAfter(m, MULTI_AGENT_V2);
    NotComment(m);
  }

  lemma {:induction false} AssignedAgain(m: string, left: string, before: string, v: string, spaces: string)
    requires m == left + (before + (v + spaces)) && !IsComment(m)
    requires AfterEquals(m, MULTI_AGENT_V2) == Some(before + (v + spaces))
    requires Blank(before) && Blank(spaces) && v != "" && !IsSpace(v[0]) && !IsSpace(v[|v| - 1]) && AllDots(v)
    ensures Assigned(m, MULTI_AGENT_V2) == Some(v)
  {
    hide IsSpace, AfterEquals, AllDots, IsComment;
    TrimStartOf(before, v + spaces);
    TrimEndOf(v, spaces);
  }

  lemma {:induction false} UnbrokenManaged(line: string, left: string, before: string, value: string, spaces: string,
          v: string)
    requires Unbroken(line) && left != "" && line == left + (before + (value + spaces)) && AllDots(v)
    ensures Settable(left + (before + (v + spaces)), Some(line))
  {
    UnbrokenParts(left, before + (value + spaces));
    UnbrokenParts(before, value + spaces);
    UnbrokenParts(value, spaces);
    DotsAreUnbroken(v);
    UnbrokenWhole(v, spaces);
    UnbrokenWhole(before, v + spaces);
    UnbrokenWhole(left, before + (v + spaces));
  }

  lemma {:induction false} UnbrokenParts(a: string, b: string)
    requires Unbroken(a + b)
    ensures Unbroken(a) && Unbroken(b)
  {
    assert forall i :: 0 <= i < |a| ==> (a + b)[i] == a[i];
    assert forall i :: 0 <= i < |b| ==> (a + b)[|a| + i] == b[i];
  }

  lemma {:induction false} UnbrokenWhole(a: string, b: string)
    requires Unbroken(a) && Unbroken(b)
    ensures Unbroken(a + b)
  {
  }

  lemma {:induction false} DotsAreUnbroken(s: string)
    requires AllDots(s)
    ensures Unbroken(s)
  {
    forall i | 0 <= i < |s|
      ensures !IsBreak(s[i])
    {
      assert IsDot(s[i]);
    }
  }

  lemma {:induction false} NotBlankAfter(line: string, key: string)
    requires AfterEquals(line, key).Some? && IsKey(key)
    ensures !IsBlank(line)
  {
    NotBlank(line);
  }

  lemma {:induction false} NotComment(line: string)
    requires !IsComment(line)
    ensures !IsManagedComment(line)
  {
    OwnerIs();
    RouteCommentIs();
    assert OWNER <= OLD_COMMENT;
    if IsManagedComment(line) {
      HashIsComment(line);
    }
  }

  lemma {:induction false} HashIsComment(line: string)
    requires line != "" && line[0] == '#'
    ensures IsComment(line)
  {
  }

  /** An inline table is not blank. */
  lemma {:induction false} InlineIsVisible(value: string, json: I.Json)
    requires I.Parse(value, json).Ok? && I.Parse(value, json).value.Some?
    ensures !IsBlank(value)
  {
    hide IsSpace, I.ParseBody;
    TrimEmpty(value);
    if Blank(value) {
      assert "" + value == value;
      StripOfEmpty();
      StripTrailing("", value);
    }
  }

  lemma {:induction false} AssignedValue(line: string, right: string, value: string)
    requires Assigned(line, MULTI_AGENT_V2) == Some(value) && AfterEquals(line, MULTI_AGENT_V2) == Some(right)
    ensures ValueOf(right) == Some(value)
  {
  }

  lemma {:induction false} Concat3(a: string, b: string, c: string)
    ensures a + b + c == a + (b + c)
  {
  }

  lemma {:induction false} PrefixIs(line: string, left: string, before: string, raw: string)
    requires line == left + (before + raw)
    ensures line[..|line| - |raw|] == left + before && |raw| <= |line|
  {
  }

  lemma {:induction false} ValueParts(right: string, value: string)
    requires ValueOf(right) == Some(value) && !IsBlank(value)
    ensures var raw := TrimStart(right);
      && value <= raw && Blank(raw[|value|..]) && AllDots(value)
      && value != "" && !IsSpace(value[0]) && !IsSpace(value[|value| - 1])
  {
    hide AllDots, IsSpace;
    var raw := TrimStart(right);
    TrimStartSplits(right);
    TrimEndSplits(raw);
    if Trim(right) == "" {
      LastDotBlank(right, value);
    }
  }

  lemma {:induction false} LastDotBlank(s: string, value: string)
    requires Trim(s) == "" && LastDot(s) == Some(value)
    ensures IsBlank(value)
  {
    hide IsSpace, IsDot;
    TrimEmpty(s);
    LastDotIn(s, value);
    TrimEmpty(value);
  }

  lemma {:induction false} LastDotIn(s: string, value: string)
    requires Blank(s) && LastDot(s) == Some(value)
    ensures Blank(value)
  {
    hide IsSpace;
    if s != "" && !IsDot(s[|s| - 1]) {
      LastDotIn(s[..|s| - 1], value);
    }
  }

  lemma {:induction false} ManagedIsOneLine(value: string, t: I.Table, json: I.Json)
    requires I.Shape(value, t) && (t.at.Some? ==> I.KindOf(t.segments[t.at.value], json).Enabled?)
    requires AllDots(value)
    ensures AllDots(I.Managed(value, t, json))
  {
    hide I.KindOf, I.Managed, I.Join, AllDots;
    assert value + "" == value;
    var from, to, x := ManagedSlices(value, "", t, json);
    DotsAround(value, from, to, x);
  }

  lemma {:induction false} DotsAround(value: string, from: nat, to: nat, x: string)
    requires AllDots(value) && AllDots(x) && from <= to <= |value|
    ensures AllDots(value[..from] + x + value[to..])
  {
    hide IsDot;
  }

  lemma {:induction false} DotsConcat(a: string, b: string)
    requires AllDots(a) && AllDots(b)
    ensures AllDots(a + b)
  {
    hide IsDot;
  }

  lemma {:induction false} FieldIsPlain()
    ensures AllDots(", ") && AllDots("") && AllDots(I.FIELD) && AllDots("false")
  {
  }
}
