/**
 * The native round trip of a text whose last line has no terminator: it holds exactly when no line is put before
 * that last one. Such a document is compared with its twin, the same text with a newline added.
 */
module Unterminated {
  import opened Common
  import opened Toml
  import opened ConfigLines
  import opened Document
  import opened Tracking
  import opened Regions
  import opened BodyEdits
  import opened ConfigEdit
  import opened RouteEdits
  import opened RouteRoundTrip
  import opened FeatureRestore
  import opened ConfigRoundTrip
  import opened InstallSucceeds

  /** The text does not end in a line break. */
  predicate OpenEnded(text: string) {
    StripBom(text) != "" && !IsBreak(text[|text| - 1])
  }

  /** The same document but for its last terminator. */
  predicate Twins(d: Doc, e: Doc) {
    && Valid(d) && Valid(e) && d.lines == e.lines && d.bom == e.bom && d.lines != []
    && d.endings[|d.endings| - 1] == "" && e.endings == d.endings[|d.endings| - 1 := "\n"]
  }

  // ---- Reading ----

  lemma {:induction false} BodyTwins(body: string)
    requires body != "" && !IsBreak(body[|body| - 1])
    ensures Twins(ParseBody(body), ParseBody(body + "\n"))
    ensures var ls := ParseBody(body).lines; ls[|ls| - 1] != ""
    decreases |body|
  {
    hide *;
    if FirstBreak(body) == |body| {
      ParsePlain(body);
      ParseEmpty();
      OneLine(body);
    } else {
      var line, b, rest := FirstLine(body);
      LastOfRest(body, line, b, rest);
      BodyTwins(rest);
      ParseLine(line, b, rest);
      ParseLine(line, b, rest + "\n");
      MoreTwins(line, b, ParseBody(rest), ParseBody(rest + "\n"));
    }
  }

  lemma {:induction false} OneLine(body: string)
    requires ParseBody(body) == Doc([body], [""], false) && Unbroken(body) && ParseBody("") == Doc([], [], false)
      && body != ""
    ensures Twins(ParseBody(body), ParseBody(body + "\n"))
    ensures var ls := ParseBody(body).lines; ls[|ls| - 1] != ""
  {
    hide ParseBody, Unbroken;
    ParseLine(body, "\n", "");
    assert body + "\n" + "" == body + "\n";
  }

  lemma {:induction false} LastOfRest(body: string, line: string, b: string, rest: string)
    requires body == line + b + rest && IsEnding(b) && Apart(b, rest) && body != "" && !IsBreak(body[|body| - 1])
    ensures rest != "" && !IsBreak(rest[|rest| - 1]) && body + "\n" == line + b + (rest + "\n") && Apart(b, rest + "\n")
  {
    assert (line + b)[|line + b| - 1] == b[|b| - 1] && IsBreak(b[|b| - 1]);
    assert line + b + "" == line + b;
  }

  lemma {:induction false} MoreTwins(line: string, b: string, d: Doc, e: Doc)
    requires Twins(d, e)
    ensures Twins(Doc([line] + d.lines, [b] + d.endings, false), Doc([line] + e.lines, [b] + e.endings, false))
    ensures ([line] + d.lines)[|d.lines|] == d.lines[|d.lines| - 1]
  {
  }

  lemma {:induction false} ParseTwins(text: string)
    requires OpenEnded(text)
    ensures Twins(Parse(text), Parse(text + "\n"))
    ensures var ls := Parse(text).lines; ls[|ls| - 1] != ""
  {
    hide ParseBody;
    BodyTwins(StripBom(text));
    assert StripBom(text + "\n") == StripBom(text) + "\n";
  }

  lemma {:induction false} BodyRendersTwins(lines: seq<string>, a: seq<string>, b: seq<string>)
    requires |lines| == |a| > 0 && a[|a| - 1] == "" && b == a[|a| - 1 := "\n"]
    ensures RenderBody(lines, a) + "\n" == RenderBody(lines, b)
    ensures lines[|lines| - 1] != "" ==>
      RenderBody(lines, a) != ""
          && RenderBody(lines, a)[|RenderBody(lines, a)| - 1] == lines[|lines| - 1][|lines[|lines| - 1]| - 1]
  {
    RenderStep(lines, a);
    RenderStep(lines, b);
    if |lines| == 1 {
      EmptyRenders();
      assert lines[1..] == [] && a[1..] == [] && b[1..] == [];
    } else {
      BodyRendersTwins(lines[1..], a[1..], b[1..]);
    }
  }

  lemma {:induction false} RenderTwins(d: Doc, e: Doc)
    requires Twins(d, e)
    ensures Render(d) + "\n" == Render(e)
    ensures Clean(e) && d.lines[|d.lines| - 1] != "" ==> OpenEnded(Render(d))
  {
    hide RenderBody, Unbroken, Parse;
    BodyRendersTwins(d.lines, d.endings, e.endings);
    if Clean(e) && d.lines[|d.lines| - 1] != "" {
      NotBreakAtEnd(d.lines[|d.lines| - 1]);
      RenderReadsBack(e);
      BomIsRead(Render(e));
    }
  }

  lemma {:induction false} NotBreakAtEnd(line: string)
    requires Unbroken(line) && line != ""
    ensures !IsBreak(line[|line| - 1])
  {
  }

  lemma {:induction false} BomIsRead(text: string)
    ensures Parse(text).bom <==> text != "" && text[0] == BOM
  {
  }

  // ---- Edits of twins ----

  predicate Terminators(e: Doc) {
    forall i :: 0 <= i < |e.endings| ==> IsTerminator(e.endings[i])
  }

  lemma {:induction false} TwinsSet(d: Doc, e: Doc, i: nat, line: string)
    requires Twins(d, e) && i < |d.lines|
    ensures Twins(SetLine(d, i, line), SetLine(e, i, line))
  {
  }

  /** Anywhere but right before the last line. */
  lemma {:induction false} TwinsInsert(d: Doc, e: Doc, i: nat, line: string)
    requires Twins(d, e) && Terminators(e) && i <= |d.lines| && i != |d.lines| - 1
    ensures Twins(Insert(d, i, line), Insert(e, i, line)) && Terminators(Insert(e, i, line))
  {
    hide IsTerminator;
    var n := |d.lines|;
    if n == 1 {
      assert d.endings == [""] && e.endings == ["\n"];
      SameDominantOne();
    } else {
      assert d.endings[0] == e.endings[0];
      SameDominant(d.endings, e.endings);
    }
    NewlineTerminates();
  }

  lemma {:induction false} NewlineTerminates()
    ensures IsTerminator("\n") && !IsTerminator("")
  {
  }

  lemma {:induction false} SameDominantOne()
    ensures Dominant([""]) == "\n" && Dominant(["\n"]) == "\n"
  {
    assert [""][1..] == [];
  }

  lemma {:induction false} SameDominant(a: seq<string>, b: seq<string>)
    requires a != [] && b != [] && a[0] == b[0] && IsTerminator(a[0])
    ensures Dominant(a) == Dominant(b) && IsTerminator(Dominant(a))
  {
  }

  lemma {:induction false} TwinsRemove(d: Doc, e: Doc, i: nat)
    requires Twins(d, e) && i < |d.lines| && |d.lines| >= 2
    ensures Twins(Remove(d, i), Remove(e, i))
  {
  }

  lemma {:induction false} TwinsPutBack(d: Doc, e: Doc, i: nat, previous: Option<Assignment>)
    requires Twins(d, e) && i < |d.lines| && PutBack(e, i, previous).lines != []
    ensures Twins(PutBack(d, i, previous), PutBack(e, i, previous))
  {
    hide Remove;
    RemoveSize(e, i);
    if previous.Some? {
      TwinsSet(d, e, i, previous.value.line);
    } else {
      TwinsRemove(d, e, i);
    }
  }

  lemma {:induction false} RemoveSize(d: Doc, i: nat)
    requires Valid(d) && i < |d.lines|
    ensures Valid(Remove(d, i)) && |Remove(d, i).lines| == |d.lines| - 1
  {
  }

  lemma {:induction false} TwinsRemoveComments(d: Doc, e: Doc, n: nat)
    requires Twins(d, e) && n <= |d.lines| && RemoveComments(e, n).lines != []
    ensures Twins(RemoveComments(d, n), RemoveComments(e, n))
    decreases n
  {
    hide Remove, Twins;
    TwinsSame(d, e);
    if n > 0 {
      var i := n - 1;
      RemoveSize(d, i);
      RemoveSize(e, i);
      if IsManagedComment(d.lines[i]) {
        FewerComments(Remove(e, i), i);
        TwinsRemove(d, e, i);
        TwinsRemoveComments(Remove(d, i), Remove(e, i), i);
      } else {
        TwinsRemoveComments(d, e, i);
      }
    }
  }

  lemma {:induction false} TwinsSame(d: Doc, e: Doc)
    requires Twins(d, e)
    ensures Valid(d) && Valid(e) && d.lines == e.lines && d.lines != [] && d.bom == e.bom
  {
  }

  lemma {:induction false} FewerComments(d: Doc, n: nat)
    requires Valid(d) && n <= |d.lines|
    ensures |RemoveComments(d, n).lines| <= |d.lines|
    decreases n
  {
    hide Remove;
    if n > 0 {
      RemoveSize(d, n - 1);
      FewerComments(if IsManagedComment(d.lines[n - 1]) then Remove(d, n - 1) else d, n - 1);
    }
  }

  /** Restoring the route does the same to twins. */
  lemma {:induction false} TwinsRestore(d: Doc, e: Doc, before: RouteBefore, c: Codec)
    requires Twins(d, e) && RestoreRoute(e, before, c).Ok? && RestoreRoute(e, before, c).value.lines != []
    ensures RestoreRoute(d, before, c).Ok? && Twins(RestoreRoute(d, before, c).value, RestoreRoute(e, before, c).value)
  {
    hide Twins, FindTop, RemoveComments, PutBack;
    TwinsSame(d, e);
    var e1 := RemoveComments(e, |e.lines|);
    var base := FindTop(e1.lines, BASE_URL, c).value.value.index;
    var e2 := PutBack(e1, base, before.base);
    PutBackSize(e1, base, before.base);
    PutBackSize(e2, FindTop(e2.lines, REALTIME, c).value.value.index, before.realtime);
    TwinsRemoveComments(d, e, |d.lines|);
    var d1 := RemoveComments(d, |d.lines|);
    TwinsSame(d1, e1);
    TwinsPutBack(d1, e1, base, before.base);
    var d2 := PutBack(d1, base, before.base);
    TwinsSame(d2, e2);
    TwinsPutBack(d2, e2, FindTop(e2.lines, REALTIME, c).value.value.index, before.realtime);
  }

  lemma {:induction false} PutBackSize(d: Doc, i: nat, previous: Option<Assignment>)
    requires Valid(d) && i < |d.lines|
    ensures |PutBack(d, i, previous).lines| <= |d.lines|
  {
  }

  // ---- Where the route goes ----

  /** The route edit by the places of its lines: the route line, the realtime line, the marker. */
  datatype Spots = Spots(base: Option<nat>, realtime: Option<nat>, top: nat)

  predicate InRange(k: Spots, n: nat) {
    && (k.base.Some? ==> k.base.value < n) && (k.realtime.Some? ==> k.realtime.value < n) && k.top <= n
  }

  function BaseAt(k: Spots): nat {
    if k.base.Some? then k.base.value else k.top
  }

  function WithRouteLine(d: Doc, k: Spots, line: string): (r: Doc)
    requires Valid(d) && InRange(k, |d.lines|)
    ensures Valid(r) && BaseAt(k) < |r.lines| && |d.lines| <= |r.lines| <= |d.lines| + 1
  {
    if k.base.Some? then SetLine(d, k.base.value, line) else Insert(d, k.top, line)
  }

  function WithRealtime(d: Doc, k: Spots, line: string): (r: Doc)
    requires Valid(d) && BaseAt(k) < |d.lines| && (k.realtime.Some? ==> k.realtime.value < |d.lines|)
    ensures Valid(r) && BaseAt(k) < |r.lines|
  {
    if k.realtime.Some? then SetLine(d, k.realtime.value, line) else Insert(d, BaseAt(k) + 1, line)
  }

  function Routed(d: Doc, k: Spots, url: string, c: Codec): (r: Doc)
    requires Valid(d) && InRange(k, |d.lines|)
    ensures Valid(r)
  {
    Insert(WithRealtime(WithRouteLine(d, k, BaseLine(url, c)), k, RealtimeLine(c)), BaseAt(k), ROUTE_COMMENT)
  }

  /** A line is put right before the last one. */
  predicate BeforeLast(k: Spots, n: nat) {
    || (k.base.None? && k.top + 1 == n)
    || (k.base.None? && k.top == n && k.realtime.Some?)
    || (k.base.Some? && k.realtime.None? && k.base.value + 2 == n)
    || (k.base.Some? && k.realtime.Some? && k.base.value + 1 == n)
  }

  lemma {:induction false} TwinsRouted(d: Doc, e: Doc, k: Spots, url: string, c: Codec)
    requires Twins(d, e) && Terminators(e) && InRange(k, |d.lines|) && !BeforeLast(k, |d.lines|)
    ensures Twins(Routed(d, k, url, c), Routed(e, k, url, c))
  {
    hide Insert, Twins, Terminators, BaseLine, RealtimeLine;
    TwinsSame(d, e);
    var n, d1, e1 := |d.lines|, WithRouteLine(d, k, BaseLine(url, c)), WithRouteLine(e, k, BaseLine(url, c));
    if k.base.Some? {
      TwinsSet(d, e, k.base.value, BaseLine(url, c));
      SetTerminators(e, k.base.value, BaseLine(url, c));
    } else {
      TwinsInsert(d, e, k.top, BaseLine(url, c));
      InsertSize(e, k.top, BaseLine(url, c));
    }
    TwinsSame(d1, e1);
    var d2, e2 := WithRealtime(d1, k, RealtimeLine(c)), WithRealtime(e1, k, RealtimeLine(c));
    if k.realtime.Some? {
      TwinsSet(d1, e1, k.realtime.value, RealtimeLine(c));
      SetTerminators(e1, k.realtime.value, RealtimeLine(c));
    } else {
      TwinsInsert(d1, e1, BaseAt(k) + 1, RealtimeLine(c));
      InsertSize(e1, BaseAt(k) + 1, RealtimeLine(c));
    }
    TwinsSame(d2, e2);
    TwinsInsert(d2, e2, BaseAt(k), ROUTE_COMMENT);
  }

  lemma {:induction false} SetTerminators(e: Doc, i: nat, line: string)
    requires Valid(e) && i < |e.lines| && Terminators(e)
    ensures Terminators(SetLine(e, i, line)) && |SetLine(e, i, line).lines| == |e.lines|
  {
  }

  lemma {:induction false} InsertSize(d: Doc, i: nat, line: string)
    requires Valid(d) && i <= |d.lines|
    ensures |Insert(d, i, line).lines| == |d.lines| + 1
    ensures Insert(d, i, line).lines == InsertAt(d.lines, i, line)
  {
  }

  /** The line edits of the route, apart from terminators. */
  ghost predicate Places(lines: seq<string>, k: Spots, url: string, c: Codec) {
    && InRange(k, |lines|) && k.top == FirstTable(lines)
    && IndexFound(lines, BASE_URL, k.base, c) && IndexFound(lines, REALTIME, k.realtime, c)
    && var d1 := WithRouteLine(Plain(lines), k, BaseLine(url, c));
    && (k.realtime.Some? ==> k.realtime.value < |d1.lines|)
    && IndexFound(d1.lines, REALTIME, k.realtime, c) && IndexFound(d1.lines, BASE_URL, Some(BaseAt(k)), c)
    && var d2 := WithRealtime(d1, k, RealtimeLine(c));
    && (forall i :: 0 <= i < |d2.lines| ==> !IsManagedComment(d2.lines[i]))
    && IndexFound(d2.lines, BASE_URL, Some(BaseAt(k)), c)
  }

  predicate IndexFound(lines: seq<string>, key: string, at: Option<nat>, c: Codec) {
    && FindTop(lines, key, c).Ok?
    && FindTop(lines, key, c).value.Some? == at.Some?
    && (at.Some? ==> FindTop(lines, key, c).value.value.index == at.value)
  }

  /** These lines, each with a newline. */
  function Plain(lines: seq<string>): (d: Doc)
    ensures Valid(d) && d.lines == lines
  {
    Doc(lines, seq(|lines|, i requires 0 <= i < |lines| => "\n"), false)
  }

  lemma {:induction false} SameRouteLines(d: Doc, e: Doc, k: Spots, line: string)
    requires Valid(d) && Valid(e) && d.lines == e.lines && InRange(k, |d.lines|)
    ensures WithRouteLine(d, k, line).lines == WithRouteLine(e, k, line).lines
  {
    if k.base.None? {
      InsertSize(d, k.top, line);
      InsertSize(e, k.top, line);
    }
  }

  lemma {:induction false} SameRealtimeLines(d: Doc, e: Doc, k: Spots, line: string)
    requires Valid(d) && Valid(e) && d.lines == e.lines && BaseAt(k) < |d.lines|
      && (k.realtime.Some? ==> k.realtime.value < |d.lines|)
    ensures WithRealtime(d, k, line).lines == WithRealtime(e, k, line).lines
  {
    if k.realtime.None? {
      InsertSize(d, BaseAt(k) + 1, line);
      InsertSize(e, BaseAt(k) + 1, line);
    }
  }

  /** Terminators take no part in where the route goes. */
  lemma {:induction false} InstallRouteIs(d: Doc, k: Spots, url: string, replace: bool, replaceRealtime: bool, c: Codec)
    requires Valid(d) && RouteAllowed(d.lines, replace, replaceRealtime, c) && Places(d.lines, k, url, c)
    ensures InRange(k, |d.lines|)
    ensures InstallRoute(d, url, replace, replaceRealtime, c)
         == Ok((Routed(d, k, url, c), RouteBefore(ReadRoute(d.lines, c).value, FindTop(d.lines, REALTIME, c).value)))
  {
    hide FindTop, Insert, RemoveComments, FirstTable, IsManagedComment;
    var d1 := WithRouteLine(d, k, BaseLine(url, c));
    SameRouteLines(d, Plain(d.lines), k, BaseLine(url, c));
    var p1 := WithRouteLine(Plain(d.lines), k, BaseLine(url, c));
    var d2 := WithRealtime(d1, k, RealtimeLine(c));
    SameRealtimeLines(d1, p1, k, RealtimeLine(c));
    NoCommentsToRemove(d2, |d2.lines|);
  }

  lemma {:induction false} TopAt(rs: seq<Region>)
    requires WellFormed(rs)
    ensures rs != [] && FirstTable(Lines(Flat(rs))) == |rs[0].body| <= |Lines(Flat(rs))|
  {
    hide IsHeader, Flat;
    TopIsFirst(rs);
    FirstRegionSplits(rs);
  }

  lemma {:induction false} FitsPlaces(b: seq<TLine>, p: Plan)
    requires Fits(b, p)
    ensures Place(b, BASE_URL, p.base) && Place(b, REALTIME, p.realtime)
  {
  }

  lemma {:induction false} SpotIs(b: seq<TLine>, p: Plan, k: Spots)
    requires k == Spots(p.base, p.realtime, |b|)
    ensures BaseAt(k) == BaseSpot(b, p)
  {
  }

  lemma {:induction false} FoundAgain(rs: seq<Region>, c: Codec, key: string, at: Option<nat>)
    requires WellFormed(rs) && rs != [] && Place(rs[0].body, key, at) && FindTop(Lines(Flat(rs)), key, c).Ok?
    ensures IndexFound(Lines(Flat(rs)), key, at, c)
  {
    hide FindTop, Flat, IsHeader, Assigned, Readable;
    var at' := FindTopCases(rs, c, key);
    SamePlace(rs[0].body, key, at, at');
  }

  lemma {:induction false} RealtimeReads(d: Doc, url: string, c: Codec)
    requires Valid(d) && PlaceRealtime(d, c).Ok?
    ensures FindTop(d.lines, REALTIME, c).Ok?
  {
    hide FindTop;
  }

  lemma {:induction false} UnmarkedLines(rs: seq<Region>)
    requires Unmarked(Flat(rs))
    ensures forall i :: 0 <= i < |Lines(Flat(rs))| ==> !IsManagedComment(Lines(Flat(rs))[i])
  {
    hide Flat, IsManagedComment;
  }

  lemma {:induction false} SpotsInRange(b: seq<TLine>, p: Plan, k: Spots, n: nat)
    requires k == Spots(p.base, p.realtime, |b|) && |b| <= n
    requires (p.base.Some? ==> p.base.value < |b|) && (p.realtime.Some? ==> p.realtime.value < |b|)
    ensures InRange(k, n)
  {
  }

  lemma {:induction false} RouteLineIs(e: Doc, e1: Doc, k: Spots, line: string, c: Codec)
    requires Valid(e) && InRange(k, |e.lines|) && k.top == FirstTable(e.lines)
      && IndexFound(e.lines, BASE_URL, k.base, c)
    requires var base := FindTop(e.lines, BASE_URL, c).value;
      && (base.Some? ==> base.value.index < |e.lines|)
      && e1 == if base.Some? then SetLine(e, base.value.index, line) else Insert(e, FirstTable(e.lines), line)
    ensures e1 == if k.base.Some? then SetLine(e, k.base.value, line) else Insert(e, k.top, line)
  {
    hide FindTop, FirstTable;
  }

  lemma {:induction false} PlacesAre(e: Doc, e1: Doc, k: Spots, url: string, c: Codec)
    requires Valid(e) && Valid(e1) && InRange(k, |e.lines|) && k.top == FirstTable(e.lines)
    requires IndexFound(e.lines, BASE_URL, k.base, c) && IndexFound(e.lines, REALTIME, k.realtime, c)
    requires e1 == if k.base.Some? then SetLine(e, k.base.value, BaseLine(url, c))
      else Insert(e, k.top, BaseLine(url, c))
    requires IndexFound(e1.lines, REALTIME, k.realtime, c)
    requires FindTop(e1.lines, BASE_URL, c) == Ok(Some(Assignment(BaseLine(url, c), url, BaseAt(k))))
    requires PlaceRealtime(e1, c).Ok?
    requires forall i :: 0 <= i < |PlaceRealtime(e1, c).value.lines| ==>
      !IsManagedComment(PlaceRealtime(e1, c).value.lines[i])
    requires FindTop(PlaceRealtime(e1, c).value.lines, BASE_URL, c)
      == Ok(Some(Assignment(BaseLine(url, c), url, BaseAt(k))))
    ensures Places(e.lines, k, url, c)
  {
    hide FindTop, Insert, FirstTable, IsManagedComment;
    SameRouteLines(e, Plain(e.lines), k, BaseLine(url, c));
    var p1 := WithRouteLine(Plain(e.lines), k, BaseLine(url, c));
    SameRealtimeLines(e1, p1, k, RealtimeLine(c));
  }

  /** On a terminated document that may be routed, the places are those of the regions. */
  lemma {:induction false} PlacesOf(e: Doc, rs: seq<Region>, url: string, replace: bool, replaceRealtime: bool,
          c: Codec)
    returns (k: Spots)
    requires At(e, rs, e) && Valid(e) && Unmarked(Flat(rs)) && QuotedWell(c, url) && QuotedWell(c, REALTIME_URL)
    requires RouteAllowed(e.lines, replace, replaceRealtime, c)
    ensures Places(e.lines, k, url, c)
  {
    hide *;
    AllowedReads(e.lines, replace, replaceRealtime, c);
    AtMeans(e, rs, e);
    NoHeadersFirst(rs);
    AtLines(e, rs, e);
    var b := rs[0].body;
    var e1, p := RouteLinePut(e, rs, url, c);
    FitsBounds(b, p);
    TopAt(rs);
    k := Spots(p.base, p.realtime, |b|);
    FitsPlaces(b, p);
    FoundAgain(rs, c, BASE_URL, p.base);
    FoundAgain(rs, c, REALTIME, p.realtime);
    var rs1 := WithBody(rs, 0, WithBase(b, p, BaseLine(url, c)));
    BodyTwice(rs, 0, WithBase(b, p, BaseLine(url, c)), WithBoth(b, p, BaseLine(url, c), RealtimeLine(c)));
    AtMeans(e1, rs1, e);
    AtLines(e1, rs1, e);
    PlacesAfterBase(b, p, url, c);
    SpotIs(b, p, k);
    RealtimeFindsRoom(e1, rs1, e, b, p, url, c);
    RealtimeReads(e1, url, c);
    FoundAgain(rs1, c, REALTIME, p.realtime);
    BaseFound(rs1, c, BaseSpot(b, p), url);
    RealtimeIsPlaced(e1, rs1, e, b, p, url, c);
    var e2, rs2 := PlaceRealtime(e1, c).value, WithBody(rs, 0, WithBoth(b, p, BaseLine(url, c), RealtimeLine(c)));
    AtMeans(e2, rs2, e);
    AtLines(e2, rs2, e);
    PlacesAfterBoth(b, p, url, c);
    BodyTwice(rs, 0, WithBoth(b, p, BaseLine(url, c), RealtimeLine(c)), b);
    BaseFound(rs2, c, BaseSpot(b, p), url);
    StillUnmarked(rs, b, p, url, c);
    UnmarkedLines(rs2);
    BaseLineIs(url, c);
    SpotsInRange(b, p, k, |e.lines|);
    RouteLineIs(e, e1, k, BaseLine(url, c), c);
    PlacesAre(e, e1, k, url, c);
  }

  // ---- Where no line is put before the last one ----

  /** Every CR is part of a CR LF. */
  predicate NoLoneReturn(text: string) {
    forall i :: 0 <= i < |text| && text[i] == '\r' ==> i + 1 < |text| && text[i + 1] == '\n'
  }

  lemma {:induction false} CompletedIsTerminated(text: string)
    requires OpenEnded(text) && NoLoneReturn(text)
    ensures Terminated(text + "\n")
  {
  }

  lemma {:induction false} RoutedLineVisible(url: string, c: Codec)
    ensures BaseLine(url, c) != "" && RealtimeLine(c) != "" && ROUTE_COMMENT != ""
  {
    hide TrimStart;
    RouteCommentIs();
    BaseLineIs(url, c);
    UrlLineIs(BASE_URL, url, c);
    UrlLineIs(REALTIME, REALTIME_URL, c);
  }

  lemma {:induction false} UrlLineIs(key: string, url: string, c: Codec)
    ensures UrlLine(key, url, c) == key + " = " + c.quote(url)
  {
  }

  predicate EndsVisibly(d: Doc) {
    d.lines != [] && d.lines[|d.lines| - 1] != ""
  }

  lemma {:induction false} StillEndsVisibly(d: Doc, i: nat, line: string)
    requires Valid(d) && EndsVisibly(d) && i <= |d.lines| && line != ""
    ensures EndsVisibly(Insert(d, i, line)) && (i < |d.lines| ==> EndsVisibly(SetLine(d, i, line)))
  {
    hide Insert;
    InsertSize(d, i, line);
  }

  lemma {:induction false} LastRoutedLine(d: Doc, k: Spots, url: string, c: Codec)
    requires Valid(d) && InRange(k, |d.lines|) && EndsVisibly(d)
    ensures EndsVisibly(Routed(d, k, url, c))
  {
    hide Insert, BaseLine, RealtimeLine, EndsVisibly, SetLine;
    RoutedLineVisible(url, c);
    StillEndsVisibly(d, if k.base.Some? then k.base.value else k.top, BaseLine(url, c));
    var d1 := WithRouteLine(d, k, BaseLine(url, c));
    StillEndsVisibly(d1, if k.realtime.Some? then k.realtime.value else BaseAt(k) + 1, RealtimeLine(c));
    StillEndsVisibly(WithRealtime(d1, k, RealtimeLine(c)), BaseAt(k), ROUTE_COMMENT);
  }

  lemma {:induction false} TwinsAreUnique(d: Doc, d': Doc, e: Doc)
    requires Twins(d, e) && Twins(d', e)
    ensures d == d'
  {
    assert d.endings == e.endings[|e.endings| - 1 := ""];
    assert d'.endings == e.endings[|e.endings| - 1 := ""];
  }

  /** Rendered and read again, a twin of a clean document is itself. */
  lemma {:induction false} TwinReadsBack(d: Doc, e: Doc)
    requires Twins(d, e) && Clean(e) && d.lines[|d.lines| - 1] != ""
    ensures Parse(Render(d)) == d && SplitLines(Render(d)) == d.lines
  {
    hide Twins, Clean, Parse, Render, SplitLines, OpenEnded;
    TwinsSame(d, e);
    RenderTwins(d, e);
    RenderReadsBack(e);
    ParseTwins(Render(d));
    TwinsAreUnique(Parse(Render(d)), d, e);
    SplitLinesAgree(Render(d));
  }

  lemma {:induction false} RenderedLines(d: Doc, text: string)
    requires Valid(d) && Render(d) == text + "\n"
    ensures d.lines != []
  {
    EmptyRenders();
    assert (text + "\n")[|text|] == '\n' && Render(d) != [BOM];
  }

  /** The route record does not depend on terminators either. */
  function RecordOf(lines: seq<string>, c: Codec): RouteBefore
    requires ReadRoute(lines, c).Ok? && FindTop(lines, REALTIME, c).Ok?
  {
    RouteBefore(ReadRoute(lines, c).value, FindTop(lines, REALTIME, c).value)
  }

  lemma {:induction false} NativeInstallIs(text: string, k: Spots, url: string, replace: bool, replaceRealtime: bool,
          c: Codec)
    requires RouteAllowed(Parse(text).lines, replace, replaceRealtime, c) && Places(Parse(text).lines, k, url, c)
    ensures InRange(k, |Parse(text).lines|)
    ensures Install(text, url, false, replace, replaceRealtime, c)
         == Ok((Render(Routed(Parse(text), k, url, c)), Journal(true, url, RecordOf(Parse(text).lines, c), None)))
  {
    hide Parse, Render, InstallRoute, Places, FindTop, Routed, ReadRoute;
    InstallRouteIs(Parse(text), k, url, replace, replaceRealtime, c);
  }

  /** What an open-ended text and its completion share. */
  ghost predicate Setting(text: string, d: Doc, e: Doc, k: Spots, url: string, replace: bool, replaceRealtime: bool,
          c: Codec) {
    && OpenEnded(text) && NoLoneReturn(text) && d == Parse(text) && e == Parse(text + "\n") && Twins(d, e) && Clean(e)
    && NoMarkers(d.lines) && d.lines[|d.lines| - 1] != "" && Terminators(e)
    && QuotedWell(c, url) && QuotedWell(c, REALTIME_URL)
    && RouteAllowed(d.lines, replace, replaceRealtime, c) && Places(d.lines, k, url, c)
  }

  lemma {:induction false} SettingOf(text: string, url: string, replace: bool, replaceRealtime: bool, c: Codec)
    returns (d: Doc, e: Doc, k: Spots)
    requires OpenEnded(text) && NoLoneReturn(text) && NoMarkers(SplitLines(text)) && QuotedWell(c, url)
      && QuotedWell(c, REALTIME_URL)
    requires RouteAllowed(SplitLines(text), replace, replaceRealtime, c)
    ensures Setting(text, d, e, k, url, replace, replaceRealtime, c)
  {
    hide Parse, SplitLines, NoMarkers, QuotedWell, Places, RouteAllowed, OpenEnded, NoLoneReturn, Clean, Terminated;
    hide Unmarked, At, OriginalRegions;
    hide Kept, Flat;
    d, e := Parse(text), Parse(text + "\n");
    SplitLinesAgree(text);
    ParseTwins(text);
    CompletedIsTerminated(text);
    TerminatedIsClean(text + "\n");
    CleanTerminators(e);
    var rs := Begin(e);
    k := PlacesOf(e, rs, url, replace, replaceRealtime, c);
  }

  lemma {:induction false} CleanTerminators(e: Doc)
    requires Clean(e)
    ensures Terminators(e)
  {
  }

  lemma {:induction false} RoutedIsClean(text: string, e: Doc, k: Spots, url: string, replace: bool,
          replaceRealtime: bool, c: Codec)
    requires Terminated(text) && e == Parse(text) && NoMarkers(e.lines) && QuotedWell(c, url)
      && QuotedWell(c, REALTIME_URL)
    requires RouteAllowed(e.lines, replace, replaceRealtime, c) && Places(e.lines, k, url, c)
    ensures InRange(k, |e.lines|) && Clean(Routed(e, k, url, c))
  {
    hide *;
    TerminatedIsClean(text);
    var rs := Begin(e);
    CleanIsValid(e);
    InstallRouteIs(e, k, url, replace, replaceRealtime, c);
    var d1, p, body := RoutedFile(e, rs, url, replace, replaceRealtime, c);
    AtIsClean(d1, WithBody(rs, 0, body), e);
  }

  lemma {:induction false} CleanIsValid(e: Doc)
    requires Clean(e)
    ensures Valid(e)
  {
  }

  /** Nothing before the last line: the text comes back. */
  lemma {:induction false} OpenEndedComesBack(text: string, d: Doc, e: Doc, k: Spots, url: string, replace: bool,
          replaceRealtime: bool, c: Codec)
    requires Setting(text, d, e, k, url, replace, replaceRealtime, c) && InRange(k, |d.lines|)
      && !BeforeLast(k, |d.lines|)
    ensures Install(text, url, false, replace, replaceRealtime, c).Ok?
    ensures var (installed, j) := Install(text, url, false, replace, replaceRealtime, c).value;
      VerifyInstalledRoute(SplitLines(installed), j, c) == Ok(()) && Restore(installed, j, c) == Ok(text)
  {
    hide Parse, Render, SplitLines, NoMarkers, QuotedWell, Places, RouteAllowed, OpenEnded, NoLoneReturn, Clean;
    hide Terminated, Routed, Twins;
    hide VerifyInstalledRoute, RestoreRoute, Install, ReadRoute, FindTop, BeforeLast, InRange;
    TwinsSame(d, e);
    CompletedIsTerminated(text);
    NativeInstallIs(text, k, url, replace, replaceRealtime, c);
    NativeInstallIs(text + "\n", k, url, replace, replaceRealtime, c);
    SplitLinesAgree(text + "\n");
    NativeRoundTrip(text + "\n", url, replace, replaceRealtime, c);
    var d', e' := Routed(d, k, url, c), Routed(e, k, url, c);
    RoutedIsClean(text + "\n", e, k, url, replace, replaceRealtime, c);
    TwinsRouted(d, e, k, url, c);
    LastRoutedLine(d, k, url, c);
    TwinsSame(d', e');
    TwinReadsBack(d', e');
    RenderReadsBack(e');
    SplitLinesAgree(Render(e'));
    var before := Install(text, url, false, replace, replaceRealtime, c).value.1.before;
    RenderedLines(RestoreRoute(e', before, c).value, text);
    TwinsRestore(d', e', before, c);
    RenderTwins(RestoreRoute(d', before, c).value, RestoreRoute(e', before, c).value);
    SameBeforeNewline(Render(RestoreRoute(d', before, c).value), text);
  }

  lemma {:induction false} SameBeforeNewline(a: string, b: string)
    requires a + "\n" == b + "\n"
    ensures a == b
  {
    assert (a + "\n")[..|a|] == a && (b + "\n")[..|b|] == b;
  }

  // ---- Where one is ----

  function Together(lines: seq<string>): string {
    if lines == [] then "" else lines[0] + Together(lines[1..])
  }

  lemma {:induction false} TogetherUnbroken(lines: seq<string>)
    requires forall i :: 0 <= i < |lines| ==> Unbroken(lines[i])
    ensures Unbroken(Together(lines))
  {
    if lines != [] {
      TogetherUnbroken(lines[1..]);
      BothUnbroken(lines[0], Together(lines[1..]));
    }
  }

  /** Lines without terminators render as one. */
  lemma {:induction false} RunsTogether(lines: seq<string>, endings: seq<string>, m: nat)
    requires |lines| == |endings| && m < |lines| && forall i :: m <= i < |lines| ==> endings[i] == ""
    ensures RenderBody(lines, endings) == RenderBody(lines[..m] + [Together(lines[m..])], endings[..m] + [""])
    decreases |lines|
  {
    hide RenderBody;
    var ls, es := lines[..m] + [Together(lines[m..])], endings[..m] + [""];
    RenderStep(lines, endings);
    RenderStep(ls, es);
    EmptyRenders();
    if m > 0 {
      assert lines[1..][..m - 1] == lines[..m][1..] && lines[1..][m - 1..] == lines[m..];
      assert ls[1..] == lines[1..][..m - 1] + [Together(lines[1..][m - 1..])];
      assert es[1..] == endings[1..][..m - 1] + [""];
      RunsTogether(lines[1..], endings[1..], m - 1);
    } else {
      assert ls[1..] == [] && es[1..] == [] && lines[0..] == lines;
      if |lines| == 1 {
        assert lines[1..] == [] && endings[1..] == [];
      } else {
        RunsTogether(lines[1..], endings[1..], 0);
        RenderOne(lines[1..], endings[1..]);
      }
    }
  }

  lemma {:induction false} RenderOne(lines: seq<string>, endings: seq<string>)
    requires |lines| == |endings| > 0
    requires RenderBody(lines, endings) == RenderBody(lines[..0] + [Together(lines[0..])], endings[..0] + [""])
    ensures RenderBody(lines, endings) == Together(lines)
  {
    hide RenderBody;
    var t := Together(lines);
    assert lines[0..] == lines && lines[..0] + [t] == [t] && endings[..0] + [""] == [""];
    RenderStep([t], [""]);
    EmptyRenders();
    assert [t][1..] == [] && [""][1..] == [];
  }

  /** A document whose last lines lack terminators reads as if those were one line. */
  lemma {:induction false} MergedParses(x: Doc, y: Doc, m: nat) returns (g: Doc, g': Doc)
    requires Valid(x) && Clean(y) && x.lines == y.lines && x.bom == y.bom && m < |x.lines| && x.lines[m] != ""
    requires MissingFrom(x.endings, m)
    ensures Parse(Render(x)) == g && SplitLines(Render(x)) == g.lines
    ensures g.lines == x.lines[..m] + [Together(x.lines[m..])]
    ensures Twins(g, g') && Clean(g') && EndsVisibly(g)
  {
    hide RenderBody, SplitLines, Parse, IsTerminator, Unbroken, Together;
    var t := Together(x.lines[m..]);
    RunsTogether(x.lines, x.endings, m);
    TogetherUnbroken(x.lines[m..]);
    StartOfTogether(x.lines[m..]);
    g := Doc(x.lines[..m] + [t], x.endings[..m] + [""], x.bom);
    g' := g.(endings := x.endings[..m] + ["\n"]);
    assert Render(g) == Render(x);
    NewlineTerminates();
    assert g'.endings == g.endings[m := "\n"];
    TwinReadsBack(g, g');
  }

  lemma {:induction false} ReadsMerged(x: Doc, y: Doc, m: nat)
    requires Valid(x) && Clean(y) && x.lines == y.lines && x.bom == y.bom && m < |x.lines| && x.lines[m] != ""
    requires MissingFrom(x.endings, m)
    ensures SplitLines(Render(x)) == x.lines[..m] + [Together(x.lines[m..])]
  {
    hide SplitLines, Render, Parse, Together, MissingFrom, Clean;
    var g, g' := MergedParses(x, y, m);
  }

  lemma {:induction false} StartOfTogether(lines: seq<string>)
    requires lines != [] && lines[0] != ""
    ensures Together(lines) != "" && Together(lines)[0] == lines[0][0]
  {
  }

  lemma {:induction false} FoundIn(lines: seq<string>, key: string, c: Codec)
    requires FindTop(lines, key, c).Ok? && FindTop(lines, key, c).value.Some?
    ensures var a := FindTop(lines, key, c).value.value;
      && a.index < |lines| && a.line == lines[a.index] && Assigned(a.line, key).Some?
  {
    hide Assigned, DecodeString, FirstTable;
  }

  lemma {:induction false} NoRouteFails(lines: seq<string>, j: Journal, c: Codec)
    requires forall i :: 0 <= i < |lines| ==> Assigned(lines[i], BASE_URL).None?
    ensures VerifyInstalledRoute(lines, j, c).Err?
  {
    hide FindTop, Assigned, VerifyFeatures;
    if FindTop(lines, BASE_URL, c).Ok? && FindTop(lines, BASE_URL, c).value.Some? {
      FoundIn(lines, BASE_URL, c);
    }
  }

  lemma {:induction false} OtherRealtimeFails(lines: seq<string>, j: Journal, c: Codec)
    requires RealtimeLine(c) !in lines
    ensures VerifyInstalledRoute(lines, j, c).Err?
  {
    hide FindTop, Assigned, VerifyFeatures, ReadRoute, UrlLine;
    BaseLineIs("", c);
    if FindTop(lines, REALTIME, c).Ok? && FindTop(lines, REALTIME, c).value.Some? {
      FoundIn(lines, REALTIME, c);
    }
  }

  /** Before the first table, only the found line assigns a key. */
  predicate Alone(lines: seq<string>, key: string, at: Option<nat>, top: nat) {
    && top <= |lines| && (at.Some? ==> at.value < top)
    && forall i :: 0 <= i < top && at != Some(i) ==> Assigned(lines[i], key).None?
  }

  lemma {:induction false} FoundAlone(rs: seq<Region>, key: string, at: Option<nat>, c: Codec)
    requires WellFormed(rs) && IndexFound(Lines(Flat(rs)), key, at, c)
    ensures rs != [] && |rs[0].body| <= |Lines(Flat(rs))| && Alone(Lines(Flat(rs)), key, at, |rs[0].body|)
    ensures Place(rs[0].body, key, at)
  {
    hide FindTop, Assigned, Flat, IsHeader, FirstTable, Readable;
    TopIsFirst(rs);
    TopAt(rs);
    var at' := FindTopCases(rs, c, key);
    var ls := Lines(Flat(rs));
    forall i | 0 <= i < |rs[0].body| && at != Some(i)
      ensures Assigned(ls[i], key).None?
    {
      assert ls[i] == ls[..|rs[0].body|][i] == rs[0].body[i].line;
    }
  }

  lemma {:induction false} SpotsAlone(e: Doc, k: Spots, url: string, c: Codec)
    requires Clean(e) && NoMarkers(e.lines) && Places(e.lines, k, url, c)
    ensures Alone(e.lines, BASE_URL, k.base, k.top) && Alone(e.lines, REALTIME, k.realtime, k.top)
    ensures k.base.Some? ==> k.base != k.realtime
  {
    hide FindTop, Assigned, Flat, IsHeader, FirstTable, Clean, Tracks, IsManagedComment, Place;
    var rs := Begin(e);
    AtLines(e, rs, e);
    FoundAlone(rs, BASE_URL, k.base, c);
    FoundAlone(rs, REALTIME, k.realtime, c);
    TopAt(rs);
    SpotsDiffer(rs[0].body, k.base, k.realtime);
  }

  /** The first line of the run: the marker, or the realtime line when only that one meets the last line. */
  function RunStart(k: Spots): nat {
    if k.base.Some? && k.realtime.None? then BaseAt(k) + 2 else BaseAt(k)
  }

  /** The terminators from `m` on are missing, and the ones before are there. */
  predicate MissingFrom(endings: seq<string>, m: nat) {
    && m < |endings| && (forall i :: 0 <= i < m ==> IsTerminator(endings[i]))
    && forall i :: m <= i < |endings| ==> endings[i] == ""
  }

  lemma {:induction false} InsertMissing(d: Doc, i: nat, m: nat, line: string)
    requires Valid(d) && MissingFrom(d.endings, m) && i < |d.lines|
    ensures MissingFrom(Insert(d, i, line).endings, if i < m then m + 1 else m)
  {
    hide IsTerminator;
  }

  lemma {:induction false} AppendMissing(d: Doc, line: string)
    requires Valid(d) && d.lines != [] && MissingFrom(d.endings, |d.endings| - 1)
    ensures MissingFrom(Insert(d, |d.lines|, line).endings, |d.endings|)
  {
    NewlineTerminates();
    if |d.endings| >= 2 {
      SameDominant(d.endings, d.endings);
    } else {
      assert d.endings == [""];
      SameDominantOne();
    }
    hide IsTerminator, Dominant;
  }

  lemma {:induction false} TwinMisses(d: Doc, e: Doc)
    requires Twins(d, e) && Terminators(e)
    ensures MissingFrom(d.endings, |d.endings| - 1)
  {
    hide IsTerminator;
    forall i | 0 <= i < |d.endings| - 1
      ensures IsTerminator(d.endings[i])
    {
      assert d.endings[i] == e.endings[i];
    }
  }

  lemma {:induction false} RoutedRuns(d: Doc, e: Doc, k: Spots, url: string, c: Codec)
    requires Twins(d, e) && Terminators(e) && InRange(k, |d.lines|) && BeforeLast(k, |d.lines|)
    requires k.base.Some? ==> k.base.value < k.top && k.base != k.realtime
    requires k.realtime.Some? ==> k.realtime.value < k.top
    ensures MissingFrom(Routed(d, k, url, c).endings, RunStart(k))
  {
    hide Insert, MissingFrom, Twins, BaseLine, RealtimeLine, Terminators;
    TwinMisses(d, e);
    TwinsSame(d, e);
    var n := |d.lines|;
    var d1 := WithRouteLine(d, k, BaseLine(url, c));
    if k.base.None? {
      InsertSize(d, k.top, BaseLine(url, c));
      if k.top == n {
        AppendMissing(d, BaseLine(url, c));
      } else {
        InsertMissing(d, k.top, n - 1, BaseLine(url, c));
      }
    }
    var d2 := WithRealtime(d1, k, RealtimeLine(c));
    if k.realtime.None? {
      InsertSize(d1, BaseAt(k) + 1, RealtimeLine(c));
      InsertMissing(d1, BaseAt(k) + 1, if k.base.None? && k.top == n then n else n - 1, RealtimeLine(c));
    }
    InsertMissing(d2, BaseAt(k), if k.base.None? && k.top == n then n else n - 1, ROUTE_COMMENT);
  }

  /** The lines of the routed document up to the marker, when the run starts with it. */
  lemma {:induction false} BeforeMarker(d: Doc, k: Spots, url: string, c: Codec)
    requires Valid(d) && InRange(k, |d.lines|) && BeforeLast(k, |d.lines|) && !(k.base.Some? && k.realtime.None?)
    requires (k.base.Some? ==> k.base != k.realtime) && (k.realtime.Some? ==> k.realtime.value < k.top)
    requires k.base.Some? ==> k.base.value < k.top
    ensures var x, m := Routed(d, k, url, c), BaseAt(k);
      && m < |x.lines| && x.lines[m] == ROUTE_COMMENT && m <= |d.lines| && m <= k.top
      && forall i :: 0 <= i < m ==> x.lines[i] == if k.realtime == Some(i) then RealtimeLine(c) else d.lines[i]
  {
    hide Insert, BaseLine, RealtimeLine;
    var d1 := WithRouteLine(d, k, BaseLine(url, c));
    if k.base.None? {
      InsertSize(d, k.top, BaseLine(url, c));
    }
    var d2 := WithRealtime(d1, k, RealtimeLine(c));
    if k.realtime.None? {
      InsertSize(d1, BaseAt(k) + 1, RealtimeLine(c));
    }
    InsertSize(d2, BaseAt(k), ROUTE_COMMENT);
  }

  /** What the installed text is read as. */
  function ReadLines(x: Doc, m: nat): seq<string>
    requires m < |x.lines|
  {
    x.lines[..m] + [Together(x.lines[m..])]
  }

  /** The marker takes the route line, and what follows it, into one comment. */
  lemma {:induction false} MarkerSwallows(d: Doc, k: Spots, url: string, c: Codec)
    requires Valid(d) && InRange(k, |d.lines|) && BeforeLast(k, |d.lines|) && !(k.base.Some? && k.realtime.None?)
    requires Alone(d.lines, BASE_URL, k.base, k.top) && QuotedWell(c, url) && QuotedWell(c, REALTIME_URL)
    requires (k.base.Some? ==> k.base != k.realtime && k.base.value < k.top)
      && (k.realtime.Some? ==> k.realtime.value < k.top)
    requires forall i :: 0 <= i < |Routed(d, k, url, c).lines| ==> Unbroken(Routed(d, k, url, c).lines[i])
    ensures var x := Routed(d, k, url, c);
      RunStart(k) < |x.lines| && forall i :: 0 <= i < |ReadLines(x, RunStart(k))| ==>
          Assigned(ReadLines(x, RunStart(k))[i], BASE_URL).None?
  {
    hide Assigned, BaseLine, RealtimeLine, Unbroken, QuotedWell, Together, IsManagedComment, Routed;
    InstalledLines(url, c);
    BeforeMarker(d, k, url, c);
    var x, m := Routed(d, k, url, c), RunStart(k);
    TogetherUnbroken(x.lines[m..]);
    MarkerIsComment();
    StartOfTogether(x.lines[m..]);
    HashReads(Together(x.lines[m..]), BASE_URL);
  }

  lemma {:induction false} MarkerIsComment()
    ensures ROUTE_COMMENT != "" && ROUTE_COMMENT[0] == '#'
  {
    RouteCommentIs();
    assert OWNER[0] == '#';
  }

  /** The realtime line takes the last one in. */
  lemma {:induction false} RealtimeSwallows(d: Doc, k: Spots, url: string, c: Codec)
    requires Valid(d) && InRange(k, |d.lines|) && BeforeLast(k, |d.lines|) && k.base.Some? && k.realtime.None?
    requires Alone(d.lines, REALTIME, k.realtime, k.top) && QuotedWell(c, url) && QuotedWell(c, REALTIME_URL)
    requires k.base.value < k.top && d.lines[|d.lines| - 1] != ""
    ensures var x := Routed(d, k, url, c);
      RunStart(k) < |x.lines| && RealtimeLine(c) !in ReadLines(x, RunStart(k))
  {
    hide Assigned, BaseLine, RealtimeLine, QuotedWell, Together, IsManagedComment, Routed;
    InstalledLines(url, c);
    CommentReads(REALTIME);
    AfterRealtime(d, k, url, c);
    var x, m, last := Routed(d, k, url, c), RunStart(k), d.lines[|d.lines| - 1];
    assert x.lines[m..] == [RealtimeLine(c), last];
    TwoTogether(RealtimeLine(c), last);
    assert x.lines[..m] == d.lines[..k.base.value] + [ROUTE_COMMENT, BaseLine(url, c)];
  }

  /** The lines of the routed document when the realtime line comes right before the last one. */
  lemma {:induction false} AfterRealtime(d: Doc, k: Spots, url: string, c: Codec)
    requires Valid(d) && InRange(k, |d.lines|) && BeforeLast(k, |d.lines|) && k.base.Some? && k.realtime.None?
    ensures var i, n := k.base.value, |d.lines|;
      i + 2 == n && Routed(d, k, url, c).lines
        == d.lines[..i] + [ROUTE_COMMENT, BaseLine(url, c), RealtimeLine(c), d.lines[n - 1]]
  {
    hide Insert, BaseLine, RealtimeLine;
    var d1 := WithRouteLine(d, k, BaseLine(url, c));
    InsertSize(d1, BaseAt(k) + 1, RealtimeLine(c));
    var d2 := WithRealtime(d1, k, RealtimeLine(c));
    InsertSize(d2, BaseAt(k), ROUTE_COMMENT);
  }

  lemma {:induction false} TwoTogether(a: string, b: string)
    ensures Together([a, b]) == a + b && (b != "" ==> a + b != a)
  {
    assert [a, b][1..] == [b] && [b][1..] == [];
    assert Together([b]) == b + "" == b;
    if b != "" {
      assert |a + b| > |a|;
    }
  }

  /** A line before the last: what is installed does not pass its own check, and is not restored. */
  lemma {:induction false} OpenEndedIsLost(text: string, d: Doc, e: Doc, k: Spots, url: string, replace: bool,
          replaceRealtime: bool, c: Codec)
    requires Setting(text, d, e, k, url, replace, replaceRealtime, c) && InRange(k, |d.lines|)
      && BeforeLast(k, |d.lines|)
    ensures Install(text, url, false, replace, replaceRealtime, c).Ok?
    ensures var (installed, j) := Install(text, url, false, replace, replaceRealtime, c).value;
      VerifyInstalledRoute(SplitLines(installed), j, c).Err? && Restore(installed, j, c).Err?
  {
    hide Parse, Render, SplitLines, NoMarkers, QuotedWell, Places, RouteAllowed, OpenEnded, NoLoneReturn, Clean;
    hide Terminated, Routed, Twins;
    hide VerifyInstalledRoute, RestoreRoute, Install, ReadRoute, FindTop, BeforeLast, InRange, Alone, RunStart;
    hide Together, Assigned;
    TwinsSame(d, e);
    CompletedIsTerminated(text);
    NativeInstallIs(text, k, url, replace, replaceRealtime, c);
    var x, y, m := Routed(d, k, url, c), Routed(e, k, url, c), RunStart(k);
    RoutedIsClean(text + "\n", e, k, url, replace, replaceRealtime, c);
    SpotsAlone(e, k, url, c);
    SpotBounds(d.lines, k);
    RoutedRuns(d, e, k, url, c);
    RoutedLines(d, e, k, url, c);
    CleanUnbroken(y);
    RunStartVisible(d, k, url, c);
    ReadsMerged(x, y, m);
    assert SplitLines(Render(x)) == ReadLines(x, m);
    var (installed, j) := Install(text, url, false, replace, replaceRealtime, c).value;
    if k.base.Some? && k.realtime.None? {
      RealtimeSwallows(d, k, url, c);
      OtherRealtimeFails(SplitLines(installed), j, c);
    } else {
      MarkerSwallows(d, k, url, c);
      NoRouteFails(SplitLines(installed), j, c);
    }
  }

  lemma {:induction false} SpotBounds(lines: seq<string>, k: Spots)
    requires Alone(lines, BASE_URL, k.base, k.top) && Alone(lines, REALTIME, k.realtime, k.top)
    ensures k.base.Some? ==> k.base.value < k.top
    ensures k.realtime.Some? ==> k.realtime.value < k.top
  {
  }

  lemma {:induction false} RoutedLines(d: Doc, e: Doc, k: Spots, url: string, c: Codec)
    requires Valid(d) && Valid(e) && d.lines == e.lines && d.bom == e.bom && InRange(k, |d.lines|)
    ensures Routed(d, k, url, c).lines == Routed(e, k, url, c).lines
      && Routed(d, k, url, c).bom == Routed(e, k, url, c).bom
  {
    hide BaseLine, RealtimeLine;
  }

  lemma {:induction false} CleanUnbroken(y: Doc)
    requires Clean(y)
    ensures forall i :: 0 <= i < |y.lines| ==> Unbroken(y.lines[i])
  {
  }

  lemma {:induction false} RunStartVisible(d: Doc, k: Spots, url: string, c: Codec)
    requires Valid(d) && InRange(k, |d.lines|) && BeforeLast(k, |d.lines|)
    requires k.base.Some? ==> k.base.value < k.top && k.base != k.realtime
    ensures var x := Routed(d, k, url, c); RunStart(k) < |x.lines| && x.lines[RunStart(k)] != ""
  {
    hide BaseLine, RealtimeLine;
    RoutedLineVisible(url, c);
  }

  // ---- The whole text ----

  /** A line is put right before the last one: stated on the lines of the text. */
  predicate PutsBeforeLast(lines: seq<string>, c: Codec) {
    var n, top := |lines|, FirstTable(lines);
    var base, realtime := FindTop(lines, BASE_URL, c), FindTop(lines, REALTIME, c);
    && base.Ok? && realtime.Ok?
    && match base.value
       case None => top + 1 == n || (top == n && realtime.value.Some?)
       case Some(a) => a.index + (if realtime.value.Some? then 1 else 2) == n
  }

  lemma {:induction false} PutsBeforeLastIs(lines: seq<string>, k: Spots, url: string, c: Codec)
    requires Places(lines, k, url, c)
    ensures InRange(k, |lines|) && (PutsBeforeLast(lines, c) <==> BeforeLast(k, |lines|))
  {
    hide FindTop, FirstTable, IsManagedComment;
  }

  /**
   * For every text with breaks LF or CR LF and an unterminated last line: what is installed passes its own check
   * and restores to the original bytes if and only if no line is put right before that last line. Otherwise the
   * check fails, and restoring refuses.
   */
  lemma {:induction false} UnterminatedRoundTrip(text: string, url: string, replace: bool, replaceRealtime: bool,
          c: Codec)
    requires OpenEnded(text) && NoLoneReturn(text) && NoMarkers(SplitLines(text)) && QuotedWell(c, url)
      && QuotedWell(c, REALTIME_URL)
    ensures Install(text, url, false, replace, replaceRealtime, c).Ok? <==>
      RouteAllowed(SplitLines(text), replace, replaceRealtime, c)
    ensures Install(text, url, false, replace, replaceRealtime, c).Ok? ==>
      var (installed, j) := Install(text, url, false, replace, replaceRealtime, c).value;
      if PutsBeforeLast(SplitLines(text), c)
      then VerifyInstalledRoute(SplitLines(installed), j, c).Err? && Restore(installed, j, c).Err?
      else VerifyInstalledRoute(SplitLines(installed), j, c) == Ok(()) && Restore(installed, j, c) == Ok(text)
  {
    hide *;
    SplitLinesAgree(text);
    InstallIs(text, url, false, replace, replaceRealtime, c);
    ParseIsValid(text);
    if RouteAllowed(SplitLines(text), replace, replaceRealtime, c) {
      var d, e, k := SettingOf(text, url, replace, replaceRealtime, c);
      SettingMeans(text, d, e, k, url, replace, replaceRealtime, c);
      PutsBeforeLastIs(d.lines, k, url, c);
      if BeforeLast(k, |d.lines|) {
        OpenEndedIsLost(text, d, e, k, url, replace, replaceRealtime, c);
      } else {
        OpenEndedComesBack(text, d, e, k, url, replace, replaceRealtime, c);
      }
    } else if InstallRoute(Parse(text), url, replace, replaceRealtime, c).Ok? {
      RouteNeedsPermission(Parse(text), url, replace, replaceRealtime, c);
    }
  }

  lemma {:induction false} ParseIsValid(text: string)
    ensures Valid(Parse(text))
  {
  }

  lemma {:induction false} SettingMeans(text: string, d: Doc, e: Doc, k: Spots, url: string, replace: bool,
          replaceRealtime: bool, c: Codec)
    requires Setting(text, d, e, k, url, replace, replaceRealtime, c)
    ensures d == Parse(text) && Places(d.lines, k, url, c)
  {
  }

  // ---- A text that is lost ----

  const LOST: string := "a = 1\n[x]"

  lemma {:induction false} LostLines()
    ensures OpenEnded(LOST) && NoLoneReturn(LOST) && SplitLines(LOST) == ["a = 1", "[x]"] && NoMarkers(["a = 1", "[x]"])
  {
    hide RenderBody, Parse, SplitLines;
    var d := Doc(["a = 1", "[x]"], ["\n", ""], false);
    var e := Doc(["a = 1", "[x]"], ["\n", "\n"], false);
    assert Render(d) == LOST by {
      RenderStep(d.lines, d.endings);
      RenderStep(["[x]"], [""]);
      EmptyRenders();
      assert d.lines[1..] == ["[x]"] && d.endings[1..] == [""];
      assert ["[x]"][1..] == [] && [""][1..] == [];
    }
    assert e.endings == d.endings[1 := "\n"];
    TwinReadsBack(d, e);
    OwnerIs();
    RouteCommentIs();
    assert OWNER <= OLD_COMMENT;
  }

  lemma {:induction false} LostAssigns(key: string)
    requires key != "" && key[0] != 'a'
    ensures Assigned("a = 1", key).None? && !IsHeader("a = 1") && IsHeader("[x]")
  {
    assert TrimStart("a = 1") == "a = 1";
  }

  lemma {:induction false} LostKeys()
    ensures BASE_URL != "" && BASE_URL[0] == 'o' && REALTIME != "" && REALTIME[0] == 'e'
    ensures PROVIDER != "" && PROVIDER[0] == 'm' && CATALOG != "" && CATALOG[0] == 'm'
  {
  }

  lemma {:induction false} LostReads(key: string, c: Codec)
    requires key != "" && key[0] != 'a'
    ensures FirstTable(["a = 1", "[x]"]) == 1 && FindTop(["a = 1", "[x]"], key, c) == Ok(None)
  {
    hide Assigned, IsHeader, DecodeString;
    LostAssigns(key);
    var lines := ["a = 1", "[x]"];
    assert lines[1..] == ["[x]"] && lines[..1] == ["a = 1"];
    WhereNone(seq(1, i requires 0 <= i < 1 => Assigned(["a = 1"][i], key).Some?));
  }

  /** A header without a newline after it: connecting turns it into part of a comment, and disconnecting refuses. */
  lemma {:induction false} LostExample(url: string, c: Codec)
    requires QuotedWell(c, url) && QuotedWell(c, REALTIME_URL)
    ensures Install(LOST, url, false, false, false, c).Ok?
    ensures var (installed, j) := Install(LOST, url, false, false, false, c).value; Restore(installed, j, c).Err?
  {
    hide FindTop, FirstTable, Install, Restore, QuotedWell, SplitLines, VerifyInstalledRoute, OpenEnded, NoLoneReturn;
    hide NoMarkers;
    LostLines();
    LostKeys();
    LostReads(BASE_URL, c);
    LostReads(REALTIME, c);
    LostReads(PROVIDER, c);
    LostReads(CATALOG, c);
    UnterminatedRoundTrip(LOST, url, false, false, c);
  }
}
