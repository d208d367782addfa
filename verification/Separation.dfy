/**
 * Connecting and disconnecting always move between configs that the journal's own check tells apart, which is
 * what recovering an interrupted save relies on.
 */
module Separation {
  import opened Common
  import opened ConfigLines
  import opened Document
  import opened Tracking
  import opened Regions
  import opened BodyEdits
  import opened ConfigEdit
  import opened RouteEdits
  import opened FeatureLines
  import F = FeatureRegions
  import opened FeatureInstall
  import opened FeaturePlan
  import opened FeatureRestore
  import opened ConfigRoundTrip
  import InlineTable
  import J = Journal

  /** The check of a journal against a config: an active one wants the installed route, an inactive one its absence. */
  predicate Passes(j: Journal, text: string, c: Codec) {
    if j.active then VerifyInstalledRoute(SplitLines(text), j, c).Ok?
        else VerifyRestoredRoute(SplitLines(text), j, c).Ok?
  }

  function MatcherOf(c: Codec): J.Matcher<Journal, string> {
    J.Matcher((j, text) => Passes(j, text, c))
  }

  /** The marker decides: no text passes both checks, whatever the two journals say. */
  lemma {:induction false} NeverBoth(text: string, j: Journal, j': Journal, c: Codec)
    requires j.active && !j'.active
    ensures !(Passes(j, text, c) && Passes(j', text, c))
  {
    hide ReadRoute, FindTop, VerifyFeatures, SplitLines, BooleanIn, FindV2, FindDepth;
  }

  // ---- A file with only a gap added reads the same ----

  /** The same regions, some bodies followed by an empty line. */
  ghost predicate Alike(rs: seq<Region>, rs': seq<Region>) {
    && |rs| == |rs'| && WellFormed(rs) && WellFormed(rs')
    && forall k :: 1 <= k < |rs| ==>
         rs'[k].head == rs[k].head && (rs'[k].body == rs[k].body || rs'[k].body == rs[k].body + [Own("")])
  }

  lemma {:induction false} TableAlike(rs: seq<Region>, rs': seq<Region>, name: string, k: Option<nat>)
    requires Alike(rs, rs') && F.TableAt(rs, name, k)
    ensures F.TableAt(rs', name, k)
  {
    hide IsTable, IsHeader;
    forall j: nat ensures Named(rs', name, j) <==> Named(rs, name, j) {
      if 1 <= j < |rs| {
        assert rs'[j].head == rs[j].head;
      }
    }
  }

  lemma {:induction false} PlaceAlike(rs: seq<Region>, rs': seq<Region>, k: nat, key: string, at: Option<nat>)
    requires Alike(rs, rs') && 1 <= k < |rs| && IsKey(key) && Place(rs[k].body, key, at)
    ensures Place(rs'[k].body, key, at)
    ensures at.Some? ==> at.value < |rs[k].body| && rs'[k].body[at.value] == rs[k].body[at.value]
  {
    hide Assigned, IsHeader;
    GapAssigns(true, key);
    AppendOther(rs[k].body, key, at, F.Gap(true));
  }

  /** Two findings that differ at most in the line number. */
  predicate SameFinding(a: Previous, b: Previous) {
    && a.at.Some? == b.at.Some? && a.tablePresent == b.tablePresent && a.v2Table == b.v2Table && a.inline == b.inline
    && (a.at.Some? ==> a.at.value.line == b.at.value.line && a.at.value.value == b.at.value.value)
  }

  lemma {:induction false} RawAlike(rs: seq<Region>, rs': seq<Region>, table: string, key: string)
    requires Alike(rs, rs') && IsName(table) && IsKey(key) && RawIn(Lines(Flat(rs)), table, key).Ok?
    ensures RawIn(Lines(Flat(rs')), table, key).Ok?
    ensures SameFinding(RawIn(Lines(Flat(rs)), table, key).value, RawIn(Lines(Flat(rs')), table, key).value)
  {
    hide Flat, IsHeader, IsTable, RawIn, Assigned, Only, Absent;
    var k, at := PlaceOfSetting(rs, table, key);
    TableAlike(rs, rs', table, k);
    if k.Some? {
      OnlyPositive(rs, table, k.value);
      PlaceAlike(rs, rs', k.value, key, at);
      F.RawIs(rs, k.value, table, key, at);
      F.RawIs(rs', k.value, table, key, at);
    } else {
      F.RawIsNot(rs, table, key);
      F.RawIsNot(rs', table, key);
    }
  }

  lemma {:induction false} BooleanAlike(rs: seq<Region>, rs': seq<Region>, table: string, key: string)
    requires Alike(rs, rs') && IsName(table) && IsKey(key) && BooleanIn(Lines(Flat(rs)), table, key).Ok?
    ensures BooleanIn(Lines(Flat(rs')), table, key).Ok?
    ensures SameFinding(BooleanIn(Lines(Flat(rs)), table, key).value, BooleanIn(Lines(Flat(rs')), table, key).value)
  {
    hide Flat, IsHeader, RawIn, Alike, IsBoolean, Scalar, IsName, IsKey;
    BooleanIsRaw(Lines(Flat(rs)), table, key);
    RawAlike(rs, rs', table, key);
  }

  lemma {:induction false} DepthAlike(rs: seq<Region>, rs': seq<Region>)
    requires Alike(rs, rs') && FindDepth(Lines(Flat(rs))).Ok?
    ensures FindDepth(Lines(Flat(rs'))).Ok?
    ensures SameFinding(FindDepth(Lines(Flat(rs))).value, FindDepth(Lines(Flat(rs'))).value)
  {
    hide Flat, IsHeader, RawIn, Alike, Scalar, IsName, IsKey, IsDepth, WithoutUnderscores;
    F.Names();
    FeatureKeys();
    DepthIsRaw(Lines(Flat(rs)));
    RawAlike(rs, rs', AGENTS, MAX_DEPTH);
  }

  lemma {:induction false} FindTableAlike(rs: seq<Region>, rs': seq<Region>, table: string)
    requires Alike(rs, rs') && IsName(table) && FindTable(Lines(Flat(rs)), table).Ok?
    ensures FindTable(Lines(Flat(rs')), table).Ok?
    ensures FindTable(Lines(Flat(rs)), table).value.Some? == FindTable(Lines(Flat(rs')), table).value.Some?
  {
    hide Flat, IsHeader, IsTable, FindTable, Only, Absent;
    var k := TableCases(rs, table);
    TableAlike(rs, rs', table, k);
    EndsFileIs(rs, table, k);
    EndsFileIs(rs', table, k);
    if k.Some? {
      TableIs(rs', table, k.value);
    } else {
      TableIsNot(rs', table);
    }
  }

  lemma {:induction false} V2Alike(rs: seq<Region>, rs': seq<Region>, json: InlineTable.Json)
    requires Alike(rs, rs') && FindV2(Lines(Flat(rs)), json).Ok?
    ensures FindV2(Lines(Flat(rs')), json).Ok?
    ensures SameFinding(FindV2(Lines(Flat(rs)), json).value, FindV2(Lines(Flat(rs')), json).value)
  {
    hide Flat, IsHeader, RawIn, Alike, Scalar, IsName, IsKey, FindTable, BooleanIn, InlineTable.Parse;
    hide InlineTable.ValueOf, IsBoolean;
    F.Names();
    FeatureKeys();
    RawAlike(rs, rs', FEATURES, MULTI_AGENT_V2);
    FindTableAlike(rs, rs', V2_TABLE);
    if FindTable(Lines(Flat(rs)), V2_TABLE).value.Some? {
      BooleanAlike(rs, rs', V2_TABLE, ENABLED);
    }
  }

  // ---- The restored text passes the inactive check ----

  /** The route part of the check, on the original lines before the first table and perhaps a gap. */
  lemma {:induction false} RouteAlike(rs: seq<Region>, rs': seq<Region>, c: Codec, key: string)
    requires Alike(rs, rs') && IsKey(key) && FindTop(Lines(Flat(rs)), key, c).Ok?
    requires rs'[0].body == rs[0].body || rs'[0].body == rs[0].body + [Own("")]
    ensures FindTop(Lines(Flat(rs')), key, c) == FindTop(Lines(Flat(rs)), key, c)
  {
    hide Flat, IsHeader, Assigned, DecodeString, FindTop;
    var at := FindTopCases(rs, c, key);
    GapAssigns(true, key);
    AppendOther(rs[0].body, key, at, F.Gap(true));
    if at.Some? {
      var value := FindTop(Lines(Flat(rs)), key, c).value.value.value;
      FindTopAt(rs', c, key, at.value, value);
      FindTopAt(rs, c, key, at.value, value);
    } else {
      FindTopReadable(rs', c, key);
      FindTopReadable(rs, c, key);
    }
  }

  lemma {:induction false} ReadRouteAlike(rs: seq<Region>, rs': seq<Region>, c: Codec)
    requires Alike(rs, rs') && ReadRoute(Lines(Flat(rs)), c).Ok?
    requires rs'[0].body == rs[0].body || rs'[0].body == rs[0].body + [Own("")]
    ensures ReadRoute(Lines(Flat(rs')), c) == ReadRoute(Lines(Flat(rs)), c)
  {
    hide Flat, IsHeader, FindTop, Alike;
    RouteKeys();
    RouteAlike(rs, rs', c, BASE_URL);
    RouteAlike(rs, rs', c, PROVIDER);
    RouteAlike(rs, rs', c, CATALOG);
  }

  lemma {:induction false} GappedAlike(rs: seq<Region>, gap: bool)
    requires WellFormed(rs)
    ensures Alike(rs, F.Gapped(rs, gap))
    ensures var rs' := F.Gapped(rs, gap); rs'[0].body == rs[0].body || rs'[0].body == rs[0].body + [Own("")]
  {
    hide IsHeader;
    FeatureKeys();
    EmptyLineReads(ENABLED);
    if gap {
      var last := rs[|rs| - 1].body;
      assert NoHeaders(last);
      KeepWellFormed(rs, |rs| - 1, last + [Own("")]);
    }
  }

  lemma {:induction false} FirstAlike(rs: seq<Region>, b: seq<TLine>)
    requires WellFormed(rs) && WellFormed(WithBody(rs, 0, b))
    ensures Alike(WithBody(rs, 0, b), rs)
  {
    hide IsHeader;
  }

  /** What installing the route records of the original. */
  lemma {:induction false} RouteRecordedOn(d: Doc, url: string, replace: bool, replaceRealtime: bool, c: Codec)
    requires Valid(d) && InstallRoute(d, url, replace, replaceRealtime, c).Ok?
    ensures var before := InstallRoute(d, url, replace, replaceRealtime, c).value.1;
      ReadRoute(d.lines, c) == Ok(before.base) && FindTop(d.lines, REALTIME, c) == Ok(before.realtime)
  {
    hide ReadRoute, FindTop, PlaceRealtime, RemoveComments;
  }

  lemma {:induction false} RestoredRouteMatches(lines: seq<string>, url: string, before: RouteBefore, c: Codec)
    requires ReadRoute(lines, c) == Ok(before.base) && FindTop(lines, REALTIME, c) == Ok(before.realtime)
    requires OLD_COMMENT !in lines && ROUTE_COMMENT !in lines
    ensures VerifyRestoredRoute(lines, Journal(false, url, before, None), c) == Ok(())
  {
    hide ReadRoute, FindTop;
  }

  lemma {:induction false} RestoredFeaturesMatch(lines: seq<string>, url: string, before: RouteBefore, f: Features,
          c: Codec)
    requires ReadRoute(lines, c) == Ok(before.base) && FindTop(lines, REALTIME, c) == Ok(before.realtime)
    requires OLD_COMMENT !in lines && ROUTE_COMMENT !in lines
    requires BooleanIn(lines, FEATURES, MULTI_AGENT).Ok? && FindV2(lines, c.json).Ok? && FindDepth(lines).Ok?
    requires SameLine(BooleanIn(lines, FEATURES, MULTI_AGENT).value.at, f.multiAgent.at)
    requires SameLine(FindV2(lines, c.json).value.at, f.v2.at) && FindV2(lines, c.json).value.v2Table == f.v2.v2Table
    requires SameLine(FindDepth(lines).value.at, f.depth.at)
    ensures VerifyRestoredRoute(lines, Journal(false, url, before, Some(f)), c) == Ok(())
  {
    hide ReadRoute, FindTop, BooleanIn, FindV2, FindDepth;
  }

  lemma {:induction false} NoMarkerLines(lines: seq<string>)
    requires NoMarkers(lines)
    ensures OLD_COMMENT !in lines && ROUTE_COMMENT !in lines
  {
    assert IsManagedComment(OLD_COMMENT) && IsManagedComment(ROUTE_COMMENT);
  }

  /** A connected text and a disconnected one, each passing the check of its own journal only. */
  predicate Distinct(connected: string, disconnected: string, j: Journal, c: Codec) {
    && j.active
    && J.Apart(MatcherOf(c), J.State(j.(active := false), disconnected), J.State(j, connected))
    && J.Apart(MatcherOf(c), J.State(j, connected), J.State(j.(active := false), disconnected))
  }

  lemma {:induction false} DistinctWhenMatched(connected: string, disconnected: string, j: Journal, c: Codec)
    requires j.active && Passes(j, connected, c) && Passes(j.(active := false), disconnected, c)
    ensures Distinct(connected, disconnected, j, c)
  {
    hide Passes;
    NeverBoth(connected, j, j.(active := false), c);
    NeverBoth(disconnected, j, j.(active := false), c);
  }

  /**
   * Native connect and disconnect: the installed text and the original belong to journals apart, so an
   * interrupted save of either is recovered.
   */
  lemma {:induction false} NativeSeparates(text: string, url: string, replace: bool, replaceRealtime: bool, c: Codec)
    requires Terminated(text) && NoMarkers(SplitLines(text)) && QuotedWell(c, url) && QuotedWell(c, REALTIME_URL)
    requires Install(text, url, false, replace, replaceRealtime, c).Ok?
    ensures var (installed, j) := Install(text, url, false, replace, replaceRealtime, c).value;
      Distinct(installed, text, j, c)
  {
    hide SplitLines, Terminated, NoMarkers, QuotedWell, InstallRoute, VerifyInstalledRoute, VerifyRestoredRoute;
    hide Restore, Parse, Render;
    NativeRoundTrip(text, url, replace, replaceRealtime, c);
    var (installed, j) := Install(text, url, false, replace, replaceRealtime, c).value;
    RouteRecordedOn(Parse(text), url, replace, replaceRealtime, c);
    SplitLinesAgree(text);
    NoMarkerLines(SplitLines(text));
    RestoredRouteMatches(SplitLines(text), url, j.before, c);
    DistinctWhenMatched(installed, text, j, c);
  }

  /** The features recorded on the routed file are found again on the original. */
  lemma {:induction false} FeaturesFoundAgain(d1: Doc, rs: seq<Region>, rs': seq<Region>, d0: Doc, body: seq<TLine>,
          c: Codec)
    requires rs != [] && WellFormed(rs) && At(d1, WithBody(rs, 0, body), d0) && Valid(d1)
      && InstallFeatures(d1, c.json).Ok?
    requires Alike(rs, rs')
    ensures var lines, f := Lines(Flat(rs')), InstallFeatures(d1, c.json).value.1;
      && BooleanIn(lines, FEATURES, MULTI_AGENT).Ok? && FindV2(lines, c.json).Ok? && FindDepth(lines).Ok?
      && SameLine(BooleanIn(lines, FEATURES, MULTI_AGENT).value.at, f.multiAgent.at)
      && SameLine(FindV2(lines, c.json).value.at, f.v2.at) && FindV2(lines, c.json).value.v2Table == f.v2.v2Table
      && SameLine(FindDepth(lines).value.at, f.depth.at)
  {
    hide Flat, IsHeader, BooleanIn, FindV2, FindDepth, InstallFeatures, Tracks, WellFormed, LastIsText, InstalledDepth;
    hide SetFeature, SetV2, SetDepth, SecondDoc;
    StepsOf(d1, c.json);
    var rs1 := WithBody(rs, 0, body);
    AtLines(d1, rs1, d0);
    AtMeans(d1, rs1, d0);
    FirstAlike(rs, body);
    AlikeTwice(rs1, rs, rs');
    F.Names();
    FeatureKeys();
    BooleanAlike(rs1, rs', FEATURES, MULTI_AGENT);
    V2Alike(rs1, rs', c.json);
    DepthAlike(rs1, rs');
  }

  lemma {:induction false} AlikeTwice(a: seq<Region>, b: seq<Region>, c: seq<Region>)
    requires Alike(a, b) && Alike(b, c) && forall k :: 1 <= k < |a| ==> a[k] == b[k]
    ensures Alike(a, c)
  {
    hide WellFormed;
  }

  /** What restoring gives, even when a gap stays, has no marker and passes the check of the inactive journal. */
  lemma {:induction false} RestoredMatches(d1: Doc, d4: Doc, rs: seq<Region>, gap: bool, d0: Doc, body: seq<TLine>,
          url: string, before: RouteBefore, c: Codec)
    requires rs != [] && WellFormed(rs) && Flat(rs) == Kept(d0.lines) && NoMarkers(d0.lines)
    requires At(d1, WithBody(rs, 0, body), d0) && Valid(d1) && InstallFeatures(d1, c.json).Ok?
    requires ReadRoute(d0.lines, c) == Ok(before.base) && FindTop(d0.lines, REALTIME, c) == Ok(before.realtime)
    requires At(d4, F.Gapped(rs, gap), d0)
    ensures Valid(d4)
    ensures VerifyRestoredRoute(d4.lines, Journal(false, url, before, Some(InstallFeatures(d1, c.json).value.1)), c)
      == Ok(())
  {
    hide *;
    RouteKeys();
    NoHeadersFirst(rs);
    GappedAlike(rs, gap);
    var rs' := F.Gapped(rs, gap);
    AtLines(d4, rs', d0);
    KeptLines(d0.lines);
    ReadRouteAlike(rs, rs', c);
    RouteAlike(rs, rs', c, REALTIME);
    FeaturesFoundAgain(d1, rs, rs', d0, body, c);
    GappedLines(d4, rs, gap, d0);
    NoMarkerLines(d0.lines);
    NoMarkerAdded(d0.lines);
    RestoredFeaturesMatch(d4.lines, url, before, InstallFeatures(d1, c.json).value.1, c);
  }

  lemma {:induction false} KeptLines(lines: seq<string>)
    ensures Lines(Kept(lines)) == lines
  {
  }

  lemma {:induction false} GappedLines(d: Doc, rs: seq<Region>, gap: bool, d0: Doc)
    requires rs != [] && At(d, F.Gapped(rs, gap), d0) && Flat(rs) == Kept(d0.lines)
    ensures d.lines == d0.lines || d.lines == d0.lines + [""]
  {
    hide *;
    if gap {
      GapKept(d, rs, d0);
    } else {
      NotGapped(rs);
      End(d, rs, d0);
    }
  }

  lemma {:induction false} NoMarkerAdded(lines: seq<string>)
    requires OLD_COMMENT !in lines && ROUTE_COMMENT !in lines
    ensures OLD_COMMENT !in lines + [""] && ROUTE_COMMENT !in lines + [""]
  {
    OwnerIs();
    RouteCommentIs();
    assert OWNER <= OLD_COMMENT;
  }

  lemma {:induction false} StartAt(d0: Doc, rs: seq<Region>)
    requires Clean(d0) && WellFormed(rs) && Flat(rs) == Kept(d0.lines)
    ensures At(d0, rs, d0) && F.Gapped(rs, false) == rs
  {
    hide WellFormed, Tracks, Flat, Clean;
    TrackStart(d0);
  }

  /**
   * Compatibility V1 connect and disconnect: the installed text is told apart from the original, and from what
   * restoring gives, even when that keeps one more empty line.
   */
  lemma {:induction false} CompatibilitySeparates(text: string, url: string, replace: bool, replaceRealtime: bool,
          c: Codec)
    requires Terminated(text) && NoMarkers(SplitLines(text)) && QuotedWell(c, url) && QuotedWell(c, REALTIME_URL)
    requires Install(text, url, true, replace, replaceRealtime, c).Ok?
    ensures var (installed, j) := Install(text, url, true, replace, replaceRealtime, c).value;
      && Distinct(installed, text, j, c)
      && Restore(installed, j, c).Ok? && Distinct(installed, Restore(installed, j, c).value, j, c)
  {
    hide Parse, Render, SplitLines, Terminated, NoMarkers, QuotedWell, InstallRoute, InstallFeatures, Install, Restore;
    hide At, WellFormed, Flat, Valid, LeavesGap, F.Gapped, Kept, VerifyInstalledRoute, VerifyRestoredRoute, ReadRoute;
    hide FindTop, Distinct;
    var e := EpisodeOf(text, url, replace, replaceRealtime, c);
    var (installed, j) := Install(text, url, true, replace, replaceRealtime, c).value;
    var d0 := Parse(text);
    SplitLinesAgree(text);
    RouteRecordedOn(d0, url, replace, replaceRealtime, c);
    RestoredMatches(e.routed, e.restored, e.rs, LeavesGap(e.routed.lines), d0, e.body, url, e.before, c);
    DistinctWhenMatched(installed, Render(e.restored), j, c);
    TerminatedIsClean(text);
    StartAt(d0, e.rs);
    RestoredMatches(e.routed, d0, e.rs, false, d0, e.body, url, e.before, c);
    DistinctWhenMatched(installed, text, j, c);
  }
}
