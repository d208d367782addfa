/** Installing the route and restoring it, on a document cut into regions. */
module RouteRoundTrip {
  import opened Common
  import opened ConfigLines
  import opened Document
  import opened Tracking
  import opened Regions
  import opened BodyEdits
  import opened ConfigEdit
  import opened RouteEdits

  // ---- Managed comments ----

  lemma {:induction false} NoCommentsToRemove(d: Doc, n: nat)
    requires Valid(d) && n <= |d.lines| && forall i :: 0 <= i < n ==> !IsManagedComment(d.lines[i])
    ensures RemoveComments(d, n) == d
  {
    if n > 0 {
      NoCommentsToRemove(d, n - 1);
    }
  }

  lemma {:induction false} OneCommentToRemove(d: Doc, n: nat, p: nat)
    requires Valid(d) && p < n <= |d.lines| && IsManagedComment(d.lines[p])
    requires forall i :: 0 <= i < n && i != p ==> !IsManagedComment(d.lines[i])
    ensures RemoveComments(d, n) == Remove(d, p)
  {
    hide IsManagedComment;
    if n - 1 == p {
      NoCommentsToRemove(Remove(d, p), p);
    } else {
      OneCommentToRemove(d, n - 1, p);
    }
  }

  /** The marker stands at `p` and is the only managed comment. */
  ghost predicate MarkedAt(ts: seq<TLine>, p: nat) {
    p < |ts| && ts[p].line == ROUTE_COMMENT && forall i :: 0 <= i < |ts| && i != p ==> !IsManagedComment(ts[i].line)
  }

  ghost predicate Unmarked(ts: seq<TLine>) {
    forall i :: 0 <= i < |ts| ==> !IsManagedComment(ts[i].line)
  }

  // ---- Installing ----

  function BaseLine(url: string, c: Codec): string {
    UrlLine(BASE_URL, url, c)
  }

  function RealtimeLine(c: Codec): string {
    UrlLine(REALTIME, REALTIME_URL, c)
  }

  /** What the journal records of a body: the two lines as they were. */
  ghost predicate Recorded(b: seq<TLine>, p: Plan, before: RouteBefore, c: Codec)
    requires Fits(b, p)
  {
    && before.base.Some? == p.base.Some? && before.realtime.Some? == p.realtime.Some?
    && (p.base.Some? ==> before.base.value.line == b[p.base.value].line)
    && (p.base.Some? ==> DecodeString(Assigned(b[p.base.value].line, BASE_URL).value, c) == Ok(before.base.value.value))
    && (p.realtime.Some? ==> before.realtime.value.line == b[p.realtime.value].line)
    && (p.realtime.Some? ==>
         DecodeString(Assigned(b[p.realtime.value].line, REALTIME).value, c) == Ok(before.realtime.value.value))
  }

  lemma {:induction false} FirstRegionStart(rs: seq<Region>)
    requires WellFormed(rs)
    ensures BodyStart(rs, 0) == 0
  {
    assert rs[..0] == [];
  }

  lemma {:induction false} InstalledLines(url: string, c: Codec)
    requires QuotedWell(c, url) && QuotedWell(c, REALTIME_URL)
    ensures var base, realtime := BaseLine(url, c), RealtimeLine(c);
      && Assigned(base, BASE_URL) == Some(c.quote(url)) && DecodeString(c.quote(url), c) == Ok(url)
      && Assigned(realtime, REALTIME) == Some(c.quote(REALTIME_URL))
      && DecodeString(c.quote(REALTIME_URL), c) == Ok(REALTIME_URL)
      && Writable(base) && !IsManagedComment(base) && Writable(realtime) && !IsManagedComment(realtime)
      && Assigned(base, REALTIME).None? && Assigned(realtime, BASE_URL).None?
      && Assigned(base, PROVIDER).None? && Assigned(realtime, PROVIDER).None?
      && Assigned(base, CATALOG).None? && Assigned(realtime, CATALOG).None?
      && !IsBlank(base) && !IsBlank(realtime)
  {
    hide *;
    RouteKeys();
    UrlLineReads(BASE_URL, url, c);
    UrlLineReads(REALTIME, REALTIME_URL, c);
    BaseLineIs(url, c);
    OtherKey(BaseLine(url, c), BASE_URL, REALTIME);
    OtherKey(BaseLine(url, c), BASE_URL, PROVIDER);
    OtherKey(BaseLine(url, c), BASE_URL, CATALOG);
    OtherKey(RealtimeLine(c), REALTIME, BASE_URL);
    OtherKey(RealtimeLine(c), REALTIME, PROVIDER);
    OtherKey(RealtimeLine(c), REALTIME, CATALOG);
  }

  lemma {:induction false} BaseLineIs(url: string, c: Codec)
    ensures BaseLine(url, c) == UrlLine(BASE_URL, url, c) && RealtimeLine(c) == UrlLine(REALTIME, REALTIME_URL, c)
  {
  }

  lemma {:induction false} PlacesAfterBase(b: seq<TLine>, p: Plan, url: string, c: Codec)
    requires Fits(b, p) && QuotedWell(c, url) && QuotedWell(c, REALTIME_URL)
    ensures var b1 := WithBase(b, p, BaseLine(url, c));
      Spot(b1, BASE_URL, BaseSpot(b, p)) && Place(b1, REALTIME, p.realtime)
          && b1[BaseSpot(b, p)].line == BaseLine(url, c)
  {
    hide Assigned;
    InstalledLines(url, c);
    PutInPlaces(b, BASE_URL, p.base, |b|, BaseLine(url, c));
    PutInOther(b, BASE_URL, p.base, |b|, BaseLine(url, c), REALTIME, p.realtime);
  }

  lemma {:induction false} PlacesAfterBoth(b: seq<TLine>, p: Plan, url: string, c: Codec)
    requires Fits(b, p) && QuotedWell(c, url) && QuotedWell(c, REALTIME_URL)
    ensures var b2 := WithBoth(b, p, BaseLine(url, c), RealtimeLine(c));
      && Spot(b2, BASE_URL, BaseSpot(b, p)) && BaseSpot(b, p) < |b2| && b2[BaseSpot(b, p)].line == BaseLine(url, c)
      && Spot(b2, REALTIME, SpotAfter(WithBase(b, p, BaseLine(url, c)), p.realtime, BaseSpot(b, p) + 1))
      && b2[SpotAfter(WithBase(b, p, BaseLine(url, c)), p.realtime, BaseSpot(b, p) + 1)].line == RealtimeLine(c)
  {
    hide Assigned;
    InstalledLines(url, c);
    PlacesAfterBase(b, p, url, c);
    var b1 := WithBase(b, p, BaseLine(url, c));
    PutInPlaces(b1, REALTIME, p.realtime, BaseSpot(b, p) + 1, RealtimeLine(c));
    PutInOther(b1, REALTIME, p.realtime, BaseSpot(b, p) + 1, RealtimeLine(c), BASE_URL, Some(BaseSpot(b, p)));
  }

  lemma {:induction false} RealtimeIsPlaced(d: Doc, rs: seq<Region>, d0: Doc, b: seq<TLine>, p: Plan, url: string,
          c: Codec)
    requires Fits(b, p) && QuotedWell(c, url) && QuotedWell(c, REALTIME_URL)
    requires At(d, rs, d0) && rs[0].body == WithBase(b, p, BaseLine(url, c)) && PlaceRealtime(d, c).Ok?
    ensures At(PlaceRealtime(d, c).value, WithBody(rs, 0, WithBoth(b, p, BaseLine(url, c), RealtimeLine(c))), d0)
  {
    hide Assigned, DecodeString, FindTop, WithBody, BodyStart, Writable, Flat, Tracks, IsHeader, QuotedWell, Insert;
    PlacesAfterBase(b, p, url, c);
    InstalledLines(url, c);
    AtLines(d, rs, d0);
    FirstRegionStart(rs);
    var at := FindTopCases(rs, c, REALTIME);
    SamePlace(rs[0].body, REALTIME, at, p.realtime);
    BaseFound(rs, c, BaseSpot(b, p), url);
    DoPutIn(d, rs, d0, 0, p.realtime, BaseSpot(b, p) + 1, RealtimeLine(c));
  }

  lemma {:induction false} SamePlace(b: seq<TLine>, key: string, x: Option<nat>, y: Option<nat>)
    requires Place(b, key, x) && Place(b, key, y)
    ensures x == y
  {
    hide Assigned;
  }

  lemma {:induction false} BaseFound(rs: seq<Region>, c: Codec, i: nat, url: string)
    requires WellFormed(rs) && Spot(rs[0].body, BASE_URL, i) && rs[0].body[i].line == BaseLine(url, c)
    requires QuotedWell(c, url) && QuotedWell(c, REALTIME_URL)
    ensures FindTop(Lines(Flat(rs)), BASE_URL, c) == Ok(Some(Assignment(BaseLine(url, c), url, i)))
  {
    hide Assigned, DecodeString, FindTop, Flat, WellFormed, QuotedWell;
    InstalledLines(url, c);
    FindTopAt(rs, c, BASE_URL, i, url);
  }

  /** Everything known of an installed route: where, and what the journal has. */
  ghost predicate RouteInstalled(d: Doc, rs: seq<Region>, d0: Doc, p: Plan, before: RouteBefore, url: string,
          c: Codec) {
    && WellFormed(rs) && Fits(rs[0].body, p) && Recorded(rs[0].body, p, before, c)
    && Readable(rs[0].body, PROVIDER, c) && Readable(rs[0].body, CATALOG, c)
    && At(d, WithBody(rs, 0, RouteBody(rs[0].body, p, BaseLine(url, c), RealtimeLine(c))), d0)
  }

  lemma {:induction false} RouteInstalls(d0: Doc, rs: seq<Region>, url: string, replace: bool, replaceRealtime: bool,
          c: Codec)
    returns (p: Plan)
    requires At(d0, rs, d0) && Unmarked(Flat(rs)) && QuotedWell(c, url) && QuotedWell(c, REALTIME_URL)
    requires InstallRoute(d0, url, replace, replaceRealtime, c).Ok?
    ensures var r := InstallRoute(d0, url, replace, replaceRealtime, c).value;
      RouteInstalled(r.0, rs, d0, p, r.1, url, c)
  {
    hide Assigned, DecodeString, FindTop, WithBody, BodyStart, Writable, Flat, Tracks, IsHeader, QuotedWell, Insert;
    hide PlaceRealtime, RemoveComments, IsManagedComment, Readable, RouteBody, WithBoth, WithBase, FirstTable;
    var b := rs[0].body;
    AtLines(d0, rs, d0);
    var base := FindTopCases(rs, c, BASE_URL);
    var provider := FindTopCases(rs, c, PROVIDER);
    var catalog := FindTopCases(rs, c, CATALOG);
    var realtime := FindTopCases(rs, c, REALTIME);
    p := Plan(base, realtime);
    SpotsDiffer(b, base, realtime);
    FirstRegionStart(rs);
    TopIsFirst(rs);
    InstalledLines(url, c);
    DoPutIn(d0, rs, d0, 0, base, |b|, BaseLine(url, c));
    var d1 := if base.Some? then SetLine(d0, base.value, BaseLine(url, c)) else Insert(d0, |b|, BaseLine(url, c));
    WithBaseIs(b, p, BaseLine(url, c));
    var rs1 := WithBody(rs, 0, WithBase(b, p, BaseLine(url, c)));
    BodyTwice(rs, 0, WithBase(b, p, BaseLine(url, c)), WithBoth(b, p, BaseLine(url, c), RealtimeLine(c)));
    assert At(d1, rs1, d0);
    RealtimeIsPlaced(d1, rs1, d0, b, p, url, c);
    FinishInstall(d0, rs, PlaceRealtime(d1, c).value, b, p, url, c);
  }

  lemma {:induction false} WithBaseIs(b: seq<TLine>, p: Plan, base: string)
    requires p.base.Some? ==> p.base.value < |b|
    ensures WithBase(b, p, base) == PutIn(b, p.base, |b|, base)
  {
  }

  lemma {:induction false} SpotsDiffer(b: seq<TLine>, x: Option<nat>, y: Option<nat>)
    requires Place(b, BASE_URL, x) && Place(b, REALTIME, y)
    ensures x.Some? ==> x != y
  {
    if x.Some? && x == y {
      RouteKeys();
      AssignedAfter(b[x.value].line, BASE_URL);
      OtherKey(b[x.value].line, BASE_URL, REALTIME);
    }
  }

  lemma {:induction false} AssignedAfter(line: string, key: string)
    requires Assigned(line, key).Some?
    ensures AfterEquals(line, key).Some?
  {
  }

  /** No managed comment is in the way, so the marker goes right above the route line. */
  lemma {:induction false} FinishInstall(d0: Doc, rs: seq<Region>, d2: Doc, b: seq<TLine>, p: Plan, url: string,
          c: Codec)
    requires WellFormed(rs) && b == rs[0].body && Fits(b, p) && Unmarked(Flat(rs))
    requires QuotedWell(c, url) && QuotedWell(c, REALTIME_URL)
    requires At(d2, WithBody(rs, 0, WithBoth(b, p, BaseLine(url, c), RealtimeLine(c))), d0)
    ensures Valid(d2) && RemoveComments(d2, |d2.lines|) == d2
    ensures FindTop(d2.lines, BASE_URL, c) == Ok(Some(Assignment(BaseLine(url, c), url, BaseSpot(b, p))))
    ensures At(Insert(d2, BaseSpot(b, p), ROUTE_COMMENT),
      WithBody(rs, 0, RouteBody(b, p, BaseLine(url, c), RealtimeLine(c))), d0)
  {
    hide Assigned, DecodeString, FindTop, Flat, Tracks, IsHeader, QuotedWell, Insert, RemoveComments, IsManagedComment;
    var b2 := WithBoth(b, p, BaseLine(url, c), RealtimeLine(c));
    var rs2 := WithBody(rs, 0, b2);
    BodyTwice(rs, 0, b2, RouteBody(b, p, BaseLine(url, c), RealtimeLine(c)));
    AtLines(d2, rs2, d0);
    PlacesAfterBoth(b, p, url, c);
    StillUnmarked(rs, b, p, url, c);
    NoCommentsToRemove(d2, |d2.lines|);
    BaseFound(rs2, c, BaseSpot(b, p), url);
    FirstRegionStart(rs2);
    CommentReads(BASE_URL);
    DoInsert(d2, rs2, d0, 0, BaseSpot(b, p), ROUTE_COMMENT);
  }

  lemma {:induction false} FirstRegionSplits(rs: seq<Region>)
    requires WellFormed(rs)
    ensures Flat(rs) == rs[0].body + Flat(rs[1..])
  {
    FlatAround(rs, 0);
    assert rs[..0] == [] && rs[0].head + rs[0].body == rs[0].body;
    assert [] + rs[0].body == rs[0].body;
  }

  lemma {:induction false} StillUnmarked(rs: seq<Region>, b: seq<TLine>, p: Plan, url: string, c: Codec)
    requires WellFormed(rs) && b == rs[0].body && Fits(b, p) && Unmarked(Flat(rs))
    requires QuotedWell(c, url) && QuotedWell(c, REALTIME_URL)
    requires WellFormed(WithBody(rs, 0, WithBoth(b, p, BaseLine(url, c), RealtimeLine(c))))
    ensures Unmarked(Flat(WithBody(rs, 0, WithBoth(b, p, BaseLine(url, c), RealtimeLine(c)))))
  {
    hide Assigned, Flat, IsHeader, QuotedWell, IsManagedComment;
    var b2 := WithBoth(b, p, BaseLine(url, c), RealtimeLine(c));
    var rs2 := WithBody(rs, 0, b2);
    InstalledLines(url, c);
    FirstRegionSplits(rs);
    FirstRegionSplits(rs2);
    assert rs2[1..] == rs[1..];
    UnmarkedParts(b, Flat(rs[1..]));
    UnmarkedPutIn(b, p.base, |b|, BaseLine(url, c));
    UnmarkedPutIn(WithBase(b, p, BaseLine(url, c)), p.realtime, BaseSpot(b, p) + 1, RealtimeLine(c));
    UnmarkedWhole(b2, Flat(rs[1..]));
  }

  lemma {:induction false} UnmarkedParts(a: seq<TLine>, b: seq<TLine>)
    requires Unmarked(a + b)
    ensures Unmarked(a) && Unmarked(b)
  {
    hide IsManagedComment;
    assert forall i :: 0 <= i < |a| ==> (a + b)[i] == a[i];
    assert forall i :: 0 <= i < |b| ==> (a + b)[|a| + i] == b[i];
  }

  lemma {:induction false} UnmarkedWhole(a: seq<TLine>, b: seq<TLine>)
    requires Unmarked(a) && Unmarked(b)
    ensures Unmarked(a + b)
  {
    hide IsManagedComment;
  }

  lemma {:induction false} UnmarkedPutIn(b: seq<TLine>, at: Option<nat>, j: nat, line: string)
    requires Unmarked(b) && (at.Some? ==> at.value < |b|) && (at.None? ==> j <= |b|) && !IsManagedComment(line)
    ensures Unmarked(PutIn(b, at, j, line))
  {
    hide IsManagedComment;
  }

  // ---- Verifying and restoring ----

  /** The first region of an installed file: the route among the original lines, then lines of other steps. */
  ghost predicate HoldsRoute(rs: seq<Region>, b: seq<TLine>, p: Plan, url: string, c: Codec, more: seq<TLine>) {
    && WellFormed(rs) && Fits(b, p)
    && rs[0].body == RouteBody(b, p, BaseLine(url, c), RealtimeLine(c)) + more
    && Readable(b, PROVIDER, c) && Readable(b, CATALOG, c)
    && (forall key :: Nowhere(more, key))
  }

  lemma {:induction false} RouteVerifies(rs: seq<Region>, b: seq<TLine>, p: Plan, url: string, c: Codec,
          more: seq<TLine>)
    requires HoldsRoute(rs, b, p, url, c, more) && QuotedWell(c, url) && QuotedWell(c, REALTIME_URL)
    ensures var lines := Lines(Flat(rs));
      && ReadRoute(lines, c).Ok? && ReadRoute(lines, c).value.Some? && ReadRoute(lines, c).value.value.value == url
      && FindTop(lines, REALTIME, c).Ok? && FindTop(lines, REALTIME, c).value.Some?
      && FindTop(lines, REALTIME, c).value.value.value == REALTIME_URL
      && FindTop(lines, REALTIME, c).value.value.line == RealtimeLine(c)
      && ROUTE_COMMENT in lines
  {
    hide Assigned, DecodeString, FindTop, Flat, IsHeader, QuotedWell, Readable, Nowhere, RouteBody, WithBoth, WithBase;
    var body := RouteBody(b, p, BaseLine(url, c), RealtimeLine(c));
    PlacesInBody(b, p, url, c);
    ReadableInBody(b, p, url, c, PROVIDER);
    ReadableInBody(b, p, url, c, CATALOG);
    ReadableAppend(body, PROVIDER, c, more);
    ReadableAppend(body, CATALOG, c, more);
    FindTopReadable(rs, c, PROVIDER);
    FindTopReadable(rs, c, CATALOG);
    InstalledLines(url, c);
    var i, j := BaseSpot(b, p) + 1, RealtimeInBody(b, p, url, c);
    AppendOther(body, BASE_URL, Some(i), more);
    AppendOther(body, REALTIME, Some(j), more);
    FindTopAt(rs, c, BASE_URL, i, url);
    FindTopAt(rs, c, REALTIME, j, REALTIME_URL);
    MarkerIsThere(rs, BaseSpot(b, p));
  }

  lemma {:induction false} MarkerIsThere(rs: seq<Region>, i: nat)
    requires WellFormed(rs) && i < |rs[0].body| && rs[0].body[i].line == ROUTE_COMMENT
    ensures ROUTE_COMMENT in Lines(Flat(rs))
  {
    hide IsHeader, Flat;
    FirstRegionSplits(rs);
    assert Lines(Flat(rs))[i] == rs[0].body[i].line;
  }

  function RealtimeAfter(b: seq<TLine>, p: Plan, url: string, c: Codec): nat
    requires p.base.Some? ==> p.base.value < |b|
  {
    SpotAfter(WithBase(b, p, BaseLine(url, c)), p.realtime, BaseSpot(b, p) + 1)
  }

  /** ... and with the marker above the route line. */
  function RealtimeInBody(b: seq<TLine>, p: Plan, url: string, c: Codec): nat
    requires p.base.Some? ==> p.base.value < |b|
  {
    var at := RealtimeAfter(b, p, url, c);
    if at < BaseSpot(b, p) then at else at + 1
  }

  lemma {:induction false} PlacesInBody(b: seq<TLine>, p: Plan, url: string, c: Codec)
    requires Fits(b, p) && QuotedWell(c, url) && QuotedWell(c, REALTIME_URL)
    ensures var body := RouteBody(b, p, BaseLine(url, c), RealtimeLine(c));
      var i, j := BaseSpot(b, p) + 1, RealtimeInBody(b, p, url, c);
      && Spot(body, BASE_URL, i) && body[i].line == BaseLine(url, c)
      && Spot(body, REALTIME, j) && body[j].line == RealtimeLine(c)
      && body[BaseSpot(b, p)].line == ROUTE_COMMENT
  {
    hide Assigned, IsHeader, QuotedWell, WithBoth, WithBase;
    PlacesAfterBoth(b, p, url, c);
    CommentReads(BASE_URL);
    CommentReads(REALTIME);
    var b2 := WithBoth(b, p, BaseLine(url, c), RealtimeLine(c));
    InsertOther(b2, BASE_URL, Some(BaseSpot(b, p)), BaseSpot(b, p), Own(ROUTE_COMMENT));
    InsertOther(b2, REALTIME, Some(RealtimeAfter(b, p, url, c)), BaseSpot(b, p), Own(ROUTE_COMMENT));
  }

  lemma {:induction false} ReadableInBody(b: seq<TLine>, p: Plan, url: string, c: Codec, key: string)
    requires Fits(b, p) && QuotedWell(c, url) && QuotedWell(c, REALTIME_URL)
    requires Readable(b, key, c) && (key == PROVIDER || key == CATALOG)
    ensures Readable(RouteBody(b, p, BaseLine(url, c), RealtimeLine(c)), key, c)
  {
    hide Assigned, IsHeader, QuotedWell, Readable;
    InstalledLines(url, c);
    CommentReads(key);
    ReadablePutIn(b, key, c, p.base, |b|, BaseLine(url, c));
    PlacesAfterBase(b, p, url, c);
    PlacesAfterBoth(b, p, url, c);
    ReadablePutIn(WithBase(b, p, BaseLine(url, c)), key, c, p.realtime, BaseSpot(b, p) + 1, RealtimeLine(c));
    ReadableInsert(WithBoth(b, p, BaseLine(url, c), RealtimeLine(c)), key, c, BaseSpot(b, p), Own(ROUTE_COMMENT));
  }

  /** Lines that are still the original's. */
  predicate Original(b: seq<TLine>) {
    forall i :: 0 <= i < |b| ==> b[i].orig == Some(b[i].line)
  }

  /** The body once marker and route line are gone. */
  function RealtimeOnly(b: seq<TLine>, p: Plan, c: Codec): seq<TLine>
    requires p.realtime.Some? ==> p.realtime.value < |b|
    requires p.base.Some? ==> p.base.value < |b|
  {
    PutIn(b, p.realtime, RealtimeSlot(b, p), RealtimeLine(c))
  }

  lemma {:induction false} MarkerRemoved(d: Doc, rs: seq<Region>, d0: Doc, b: seq<TLine>, p: Plan, url: string,
          c: Codec, more: seq<TLine>)
    requires At(d, rs, d0) && HoldsRoute(rs, b, p, url, c, more) && MarkedAt(Flat(rs), BaseSpot(b, p))
    requires QuotedWell(c, url) && QuotedWell(c, REALTIME_URL)
    ensures Valid(d) && At(RemoveComments(d, |d.lines|),
      WithBody(rs, 0, WithBoth(b, p, BaseLine(url, c), RealtimeLine(c)) + more), d0)
  {
    hide Assigned, DecodeString, Flat, IsHeader, QuotedWell, Readable, Nowhere, IsManagedComment, Remove, Tracks;
    hide RemoveComments;
    hide WithBase, Fits, At, BodyStart, WithBody;
    AtLines(d, rs, d0);
    MarkerSpot(b, p, url, c, more);
    FirstRegionStart(rs);
    assert At(d, rs, d0) && rs[0].body[BaseSpot(b, p)].orig.None?;
    DoRemove(d, rs, d0, 0, BaseSpot(b, p));
    CommentReads(BASE_URL);
    OneCommentToRemove(d, |d.lines|, BaseSpot(b, p));
  }

  lemma {:induction false} MarkerSpot(b: seq<TLine>, p: Plan, url: string, c: Codec, more: seq<TLine>)
    requires Fits(b, p) && QuotedWell(c, url) && QuotedWell(c, REALTIME_URL)
    ensures var body := RouteBody(b, p, BaseLine(url, c), RealtimeLine(c)) + more;
      && BaseSpot(b, p) < |body| && body[BaseSpot(b, p)] == Own(ROUTE_COMMENT)
      && RemoveAt(body, BaseSpot(b, p)) == WithBoth(b, p, BaseLine(url, c), RealtimeLine(c)) + more
  {
    hide WithBoth, QuotedWell, Assigned;
    PlacesAfterBoth(b, p, url, c);
    var b2, i := WithBoth(b, p, BaseLine(url, c), RealtimeLine(c)), BaseSpot(b, p);
    assert RemoveAt(InsertAt(b2, i, Own(ROUTE_COMMENT)) + more, i) == b2 + more;
  }

  lemma {:induction false} BaseRestored(d: Doc, rs: seq<Region>, d0: Doc, b: seq<TLine>, p: Plan, before: RouteBefore,
          url: string, c: Codec, more: seq<TLine>)
    requires WellFormed(rs) && Fits(b, p) && Recorded(b, p, before, c) && Original(b) && NoHeaders(b)
    requires At(d, rs, d0) && rs[0].body == WithBoth(b, p, BaseLine(url, c), RealtimeLine(c)) + more
    requires Nowhere(more, BASE_URL) && QuotedWell(c, url) && QuotedWell(c, REALTIME_URL)
    ensures Valid(d) && FindTop(d.lines, BASE_URL, c) == Ok(Some(Assignment(BaseLine(url, c), url, BaseSpot(b, p))))
    ensures BaseSpot(b, p) < |d.lines|
    ensures At(PutBack(d, BaseSpot(b, p), before.base), WithBody(rs, 0, RealtimeOnly(b, p, c) + more), d0)
  {
    hide Assigned, DecodeString, FindTop, Flat, IsHeader, QuotedWell, Nowhere, PutBack, WithBoth;
    PlacesAfterBoth(b, p, url, c);
    AppendOther(WithBoth(b, p, BaseLine(url, c), RealtimeLine(c)), BASE_URL, Some(BaseSpot(b, p)), more);
    AtLines(d, rs, d0);
    BaseFound(rs, c, BaseSpot(b, p), url);
    BaseTakenBack(b, p, BaseLine(url, c), RealtimeLine(c), more);
    FirstRegionStart(rs);
    DoTakeBack(d, rs, d0, 0, p.base, BaseSpot(b, p), before.base);
  }

  lemma {:induction false} RealtimeRestored(d: Doc, rs: seq<Region>, d0: Doc, b: seq<TLine>, p: Plan,
          before: RouteBefore, url: string, c: Codec, more: seq<TLine>)
    requires WellFormed(rs) && Fits(b, p) && Recorded(b, p, before, c) && Original(b) && NoHeaders(b)
    requires At(d, rs, d0) && rs[0].body == RealtimeOnly(b, p, c) + more
    requires Nowhere(more, REALTIME) && QuotedWell(c, url) && QuotedWell(c, REALTIME_URL)
    ensures var at := SpotAfter(b, p.realtime, RealtimeSlot(b, p));
      && Valid(d) && at < |d.lines|
           && FindTop(d.lines, REALTIME, c) == Ok(Some(Assignment(RealtimeLine(c), REALTIME_URL, at)))
      && At(PutBack(d, at, before.realtime), WithBody(rs, 0, b + more), d0)
  {
    hide Assigned, DecodeString, FindTop, Flat, IsHeader, QuotedWell, Nowhere, PutBack, Tracks, WithBody, BodyStart;
    InstalledLines(url, c);
    var at, j := SpotAfter(b, p.realtime, RealtimeSlot(b, p)), RealtimeSlot(b, p);
    PutInPlaces(b, REALTIME, p.realtime, j, RealtimeLine(c));
    AppendOther(RealtimeOnly(b, p, c), REALTIME, Some(at), more);
    AtLines(d, rs, d0);
    FindTopAt(rs, c, REALTIME, at, REALTIME_URL);
    TakeBackUndoes(b, p.realtime, j, RealtimeLine(c), more);
    FirstRegionStart(rs);
    DoTakeBack(d, rs, d0, 0, p.realtime, j, before.realtime);
  }

  /** Restoring the route gives back the lines before the first table, with whatever other steps added there. */
  lemma {:induction false} RouteRestores(d: Doc, rs: seq<Region>, d0: Doc, b: seq<TLine>, p: Plan, before: RouteBefore,
          url: string, c: Codec, more: seq<TLine>)
    requires At(d, rs, d0) && HoldsRoute(rs, b, p, url, c, more) && MarkedAt(Flat(rs), BaseSpot(b, p))
    requires Recorded(b, p, before, c) && Original(b) && NoHeaders(b)
    requires QuotedWell(c, url) && QuotedWell(c, REALTIME_URL)
    ensures Valid(d) && RestoreRoute(d, before, c).Ok?
    ensures At(RestoreRoute(d, before, c).value, WithBody(rs, 0, b + more), d0)
  {
    hide Assigned, DecodeString, FindTop, Flat, IsHeader, QuotedWell, Nowhere, PutBack, RemoveComments, Tracks;
    hide WithBody;
    hide WithBoth, RouteBody, Recorded, Readable;
    MarkerRemoved(d, rs, d0, b, p, url, c, more);
    var d1 := RemoveComments(d, |d.lines|);
    var b2 := WithBoth(b, p, BaseLine(url, c), RealtimeLine(c)) + more;
    var b3 := RealtimeOnly(b, p, c) + more;
    BodyTwice(rs, 0, b2, b3);
    BaseRestored(d1, WithBody(rs, 0, b2), d0, b, p, before, url, c, more);
    BodyTwice(rs, 0, b3, b + more);
    RealtimeRestored(PutBack(d1, BaseSpot(b, p), before.base), WithBody(rs, 0, b3), d0, b, p, before, url, c, more);
  }
}
