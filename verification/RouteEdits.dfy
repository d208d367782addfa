/** The route's two assignments and its marker: where they go in the lines before the first table, and back. */
module RouteEdits {
  import opened Common
  import opened Toml
  import opened ConfigLines
  import opened Document
  import opened Tracking
  import opened Regions
  import opened BodyEdits
  import opened ConfigEdit

  /** What the editor needs of `JSON.stringify` for one string: a one-line quoted literal that parses back. */
  ghost predicate QuotedWell(c: Codec, s: string) {
    var q := c.quote(s);
    && |q| >= 2 && q[0] == '"' && q[|q| - 1] == '"'
    && AllDots(q) && CommentStart(q) == |q| && c.json.parse(q) == Some(s)
  }

  // ---- The managed lines ----

  lemma {:induction false} RouteKeys()
    ensures IsKey(BASE_URL) && IsKey(REALTIME) && IsKey(PROVIDER) && IsKey(CATALOG)
    ensures BASE_URL != REALTIME && BASE_URL != PROVIDER && BASE_URL != CATALOG
    ensures REALTIME != PROVIDER && REALTIME != CATALOG
  {
    KeysA();
    KeysB();
    assert BASE_URL[0] == 'o' && REALTIME[0] == 'e';
    assert PROVIDER[0] == 'm' && CATALOG[0] == 'm';
  }

  lemma {:induction false} KeysA()
    ensures IsKey(BASE_URL) && IsKey(PROVIDER)
  {
  }

  lemma {:induction false} KeysB()
    ensures IsKey(REALTIME) && IsKey(CATALOG)
  {
  }

  lemma {:induction false} OtherKey(line: string, key: string, other: string)
    requires AfterEquals(line, key).Some? && IsKey(key) && IsKey(other) && key != other
    ensures Assigned(line, other).None?
  {
    hide AfterEquals, ValueOf, IsComment;
    OneKey(line, key, other);
  }

  lemma {:induction false} UrlLineReads(key: string, s: string, c: Codec)
    requires IsKey(key) && QuotedWell(c, s)
    ensures var line := UrlLine(key, s, c);
      && AfterEquals(line, key).Some? && Assigned(line, key) == Some(c.quote(s))
      && DecodeString(c.quote(s), c) == Ok(s)
      && Writable(line) && !IsManagedComment(line) && !IsBlank(line)
  {
    var q := c.quote(s);
    var line := UrlLine(key, s, c);
    assert !IsSpace('"');
    hide IsSpace;
    WrittenLine(key, q);
    TrimEndOf(q, "");
    assert q + "" == q && q[..|q|] == q;
    assert TrimStart(q) == q;
    hide TrimStart, TrimEnd, AfterEquals, Assigned, IsHeader, IsBlank;
    KeyChars(key, 0);
    assert line[0] == key[0];
    LineUnbroken(key, q);
    KeyIsText(key, line);
  }

  lemma {:induction false} KeyIsText(key: string, line: string)
    requires IsKey(key) && key <= line
    ensures NoBom(line) && !IsManagedComment(line)
  {
    assert line[0] == key[0];
    OwnerIs();
    RouteCommentIs();
    assert OWNER <= OLD_COMMENT;
  }

  lemma {:induction false} LineUnbroken(key: string, value: string)
    requires IsKey(key) && AllDots(value)
    ensures Unbroken(key + " = " + value)
  {
    var line := key + " = " + value;
    forall i | 0 <= i < |line|
      ensures !IsBreak(line[i])
    {
      if i < |key| {
        assert line[i] == key[i];
      } else if i >= |key| + 3 {
        assert line[i] == value[i - |key| - 3];
        assert IsDot(line[i]);
      }
    }
  }

  lemma {:induction false} PrintableConcat(a: string, b: string)
    requires Printable(a) && Printable(b)
    ensures Printable(a + b)
  {
  }

  lemma {:induction false} PrintableIs(s: string)
    requires Printable(s)
    ensures Unbroken(s) && AllDots(s)
  {
  }

  lemma {:induction false} OwnerIs()
    ensures Printable(OWNER) && OWNER[0] == '#' && OWNER[1] == ' '
  {
    assert Printable("# Managed by ") && Printable("codex-chatgpt-web");
    PrintableConcat("# Managed by ", "codex-chatgpt-web");
  }

  lemma {:induction false} RouteCommentIs()
    ensures Printable(ROUTE_COMMENT) && OWNER <= ROUTE_COMMENT
  {
    OwnerIs();
    assert Printable(": Responses use ") && Printable("the local bridge; ");
    assert Printable("Voice stays on ") && Printable("ChatGPT.");
    PrintableConcat(OWNER, ": Responses use ");
    PrintableConcat(OWNER + ": Responses use ", "the local bridge; ");
    PrintableConcat(OWNER + ": Responses use " + "the local bridge; ", "Voice stays on ");
    PrintableConcat(OWNER + ": Responses use " + "the local bridge; " + "Voice stays on ", "ChatGPT.");
  }

  lemma {:induction false} HashReads(line: string, key: string)
    requires line != "" && line[0] == '#' && Unbroken(line)
    ensures Assigned(line, key).None? && Writable(line)
  {
    assert TrimStart(line) == line;
  }

  lemma {:induction false} CommentReads(key: string)
    ensures Assigned(ROUTE_COMMENT, key).None? && Writable(ROUTE_COMMENT) && IsManagedComment(ROUTE_COMMENT)
  {
    OwnerIs();
    RouteCommentIs();
    PrintableIs(ROUTE_COMMENT);
    HashReads(ROUTE_COMMENT, key);
  }

  // ---- Searching before the first table ----

  lemma {:induction false} FindTopAt(rs: seq<Region>, c: Codec, key: string, i: nat, value: string)
    requires WellFormed(rs) && Spot(rs[0].body, key, i)
    requires DecodeString(Assigned(rs[0].body[i].line, key).value, c) == Ok(value)
    ensures FindTop(Lines(Flat(rs)), key, c) == Ok(Some(Assignment(rs[0].body[i].line, value, i)))
  {
    hide Assigned, DecodeString, OnlyMatch, FirstTable, Flat;
    TopIsFirst(rs);
    MatchAt(rs[0].body, key, i, 0);
  }

  /** The key can be read: absent, or once with a decodable value. */
  ghost predicate Readable(b: seq<TLine>, key: string, c: Codec) {
    Nowhere(b, key) || exists i: nat :: Spot(b, key, i) && DecodeString(Assigned(b[i].line, key).value, c).Ok?
  }

  lemma {:induction false} FindTopReadable(rs: seq<Region>, c: Codec, key: string)
    requires WellFormed(rs) && Readable(rs[0].body, key, c)
    ensures FindTop(Lines(Flat(rs)), key, c).Ok?
    ensures Nowhere(rs[0].body, key) ==> FindTop(Lines(Flat(rs)), key, c) == Ok(None)
  {
    hide Assigned, DecodeString, OnlyMatch, FirstTable, Flat;
    TopIsFirst(rs);
    if Nowhere(rs[0].body, key) {
      MatchNone(rs[0].body, key, 0);
    } else {
      var i: nat :| Spot(rs[0].body, key, i) && DecodeString(Assigned(rs[0].body[i].line, key).value, c).Ok?;
      FindTopAt(rs, c, key, i, DecodeString(Assigned(rs[0].body[i].line, key).value, c).value);
    }
  }

  lemma {:induction false} FindTopCases(rs: seq<Region>, c: Codec, key: string) returns (at: Option<nat>)
    requires WellFormed(rs) && FindTop(Lines(Flat(rs)), key, c).Ok?
    ensures Place(rs[0].body, key, at) && Readable(rs[0].body, key, c)
    ensures var r := FindTop(Lines(Flat(rs)), key, c).value;
      && r.Some? == at.Some?
      && (at.Some? ==> r.value.index == at.value && r.value.line == rs[0].body[at.value].line)
      && (at.Some? ==> DecodeString(Assigned(rs[0].body[at.value].line, key).value, c) == Ok(r.value.value))
  {
    hide Assigned, DecodeString, OnlyMatch, FirstTable, Flat;
    TopIsFirst(rs);
    at := MatchCases(rs[0].body, key, 0);
  }

  lemma {:induction false} ReadableInsert(b: seq<TLine>, key: string, c: Codec, j: nat, t: TLine)
    requires Readable(b, key, c) && j <= |b| && Assigned(t.line, key).None?
    ensures Readable(InsertAt(b, j, t), key, c)
  {
    hide Assigned, DecodeString;
    if Nowhere(b, key) {
      InsertOther(b, key, None, j, t);
    } else {
      var i: nat :| Spot(b, key, i) && DecodeString(Assigned(b[i].line, key).value, c).Ok?;
      InsertOther(b, key, Some(i), j, t);
      var i' := if j <= i then i + 1 else i;
      assert InsertAt(b, j, t)[i'] == b[i];
    }
  }

  lemma {:induction false} ReadableSet(b: seq<TLine>, key: string, c: Codec, j: nat, t: TLine)
    requires Readable(b, key, c) && j < |b| && Assigned(t.line, key).None?
    ensures Readable(b[j := t], key, c)
  {
    hide Assigned, DecodeString;
    if Nowhere(b, key) {
      SetOther(b, key, None, j, t);
    } else {
      var i: nat :| Spot(b, key, i) && DecodeString(Assigned(b[i].line, key).value, c).Ok?;
      if i == j {
        assert Nowhere(b[j := t], key);
      } else {
        SetOther(b, key, Some(i), j, t);
      }
    }
  }

  lemma {:induction false} ReadableAppend(b: seq<TLine>, key: string, c: Codec, more: seq<TLine>)
    requires Readable(b, key, c) && Nowhere(more, key)
    ensures Readable(b + more, key, c)
  {
    hide Assigned, DecodeString;
    if Nowhere(b, key) {
      AppendOther(b, key, None, more);
    } else {
      var i: nat :| Spot(b, key, i) && DecodeString(Assigned(b[i].line, key).value, c).Ok?;
      AppendOther(b, key, Some(i), more);
      assert (b + more)[i] == b[i];
    }
  }

  lemma {:induction false} ReadablePutIn(b: seq<TLine>, key: string, c: Codec, at: Option<nat>, j: nat, line: string)
    requires Readable(b, key, c) && Assigned(line, key).None?
    requires (at.Some? ==> at.value < |b|) && (at.None? ==> j <= |b|)
    ensures Readable(PutIn(b, at, j, line), key, c)
  {
    hide Assigned, Readable;
    if at.Some? {
      ReadableSet(b, key, c, at.value, Changed(b[at.value], line));
    } else {
      ReadableInsert(b, key, c, j, Own(line));
    }
  }

  // ---- The edited body ----

  /** Where the two keys are among the lines before the first table. */
  datatype Plan = Plan(base: Option<nat>, realtime: Option<nat>)

  ghost predicate Fits(b: seq<TLine>, p: Plan) {
    Place(b, BASE_URL, p.base) && Place(b, REALTIME, p.realtime) && (p.base.Some? ==> p.base != p.realtime)
  }

  function BaseSpot(b: seq<TLine>, p: Plan): nat {
    SpotAfter(b, p.base, |b|)
  }

  function WithBase(b: seq<TLine>, p: Plan, base: string): seq<TLine>
    requires p.base.Some? ==> p.base.value < |b|
  {
    PutIn(b, p.base, |b|, base)
  }

  function WithBoth(b: seq<TLine>, p: Plan, base: string, realtime: string): seq<TLine>
    requires (p.base.Some? ==> p.base.value < |b|) && (p.realtime.Some? ==> p.realtime.value < |b|)
  {
    PutIn(WithBase(b, p, base), p.realtime, BaseSpot(b, p) + 1, realtime)
  }

  function RouteBody(b: seq<TLine>, p: Plan, base: string, realtime: string): seq<TLine>
    requires (p.base.Some? ==> p.base.value < |b|) && (p.realtime.Some? ==> p.realtime.value < |b|)
  {
    InsertAt(WithBoth(b, p, base, realtime), BaseSpot(b, p), Own(ROUTE_COMMENT))
  }

  /** Where the realtime line is once the route line has been taken back. */
  function RealtimeSlot(b: seq<TLine>, p: Plan): nat {
    if p.base.Some? then p.base.value + 1 else |b|
  }

  /** Taking the route line back leaves the realtime edit alone. */
  lemma {:induction false} BaseTakenBack(b: seq<TLine>, p: Plan, base: string, realtime: string, more: seq<TLine>)
    requires (p.base.Some? ==> p.base.value < |b|) && (p.realtime.Some? ==> p.realtime.value < |b|)
    requires p.base.Some? ==> p.base != p.realtime
    ensures var s := WithBoth(b, p, base, realtime) + more;
      && BaseSpot(b, p) < |s|
      && (if p.base.Some? then s[p.base.value].orig == b[p.base.value].orig else s[|b|].orig.None?)
      && TakeBack(s, p.base, BaseSpot(b, p), if p.base.Some? then b[p.base.value].line else "") ==
           PutIn(b, p.realtime, RealtimeSlot(b, p), realtime) + more
  {
    var s := WithBoth(b, p, base, realtime) + more;
    if p.base.Some? {
      var i := p.base.value;
      assert Changed(Changed(b[i], base), b[i].line) == b[i];
      assert s[i] == Changed(b[i], base);
    } else {
      assert WithBase(b, p, base) == b + [Own(base)];
      assert s[|b|] == Own(base);
    }
  }
}
