/** Installing and restoring whole files: what comes back, for every file the editor is made for. */
module ConfigRoundTrip {
  import opened Common
  import opened ConfigLines
  import opened Document
  import opened Tracking
  import opened Regions
  import opened BodyEdits
  import opened ConfigEdit
  import opened RouteEdits
  import opened RouteRoundTrip
  import opened FeatureLines
  import F = FeatureRegions
  import opened FeatureInstall
  import opened FeaturePlan
  import opened FeatureRestore
  import opened V2Inline
  import InlineTable

  // ---- The start ----

  ghost predicate OriginalRegions(rs: seq<Region>) {
    forall i :: 0 <= i < |Flat(rs)| ==> Flat(rs)[i].orig == Some(Flat(rs)[i].line)
  }

  lemma {:induction false} OriginalBodies(rs: seq<Region>)
    requires WellFormed(rs) && OriginalRegions(rs)
    ensures Original(rs[0].body) && OriginalTables(rs)
  {
    hide IsHeader, Flat;
    forall k, i | 0 <= k < |rs| && 0 <= i < |rs[k].body|
      ensures rs[k].body[i].orig == Some(rs[k].body[i].line)
    {
      FlatSet(rs, k, i, rs[k].body[i]);
    }
  }

  ghost predicate NoMarkers(lines: seq<string>) {
    forall i :: 0 <= i < |lines| ==> !IsManagedComment(lines[i])
  }

  lemma {:induction false} Begin(d0: Doc) returns (rs: seq<Region>)
    requires Clean(d0) && NoMarkers(d0.lines)
    ensures At(d0, rs, d0) && Flat(rs) == Kept(d0.lines) && OriginalRegions(rs) && Unmarked(Flat(rs))
  {
    hide IsHeader, IsManagedComment, Tracks, Clean;
    rs := Tree(Kept(d0.lines));
    TreeIsWellFormed(Kept(d0.lines));
    TrackStart(d0);
  }

  /** What a step renders is what the next step reads. */
  lemma {:induction false} ReadsBack(d: Doc, rs: seq<Region>, d0: Doc)
    requires At(d, rs, d0)
    ensures Valid(d) && Parse(Render(d)) == d && SplitLines(Render(d)) == d.lines
  {
    hide Clean, Tracks, Parse, Render;
    TrackedIsClean(d, Flat(rs), d0);
    AtLines(d, rs, d0);
    RenderReadsBack(d);
    SplitLinesAgree(Render(d));
  }

  lemma {:induction false} AtIsClean(d: Doc, rs: seq<Region>, d0: Doc)
    requires At(d, rs, d0)
    ensures Clean(d)
  {
    hide Tracks, IsHeader, Flat, Clean;
    TrackedIsClean(d, Flat(rs), d0);
  }

  lemma {:induction false} End(d: Doc, rs: seq<Region>, d0: Doc)
    requires At(d, rs, d0) && Flat(rs) == Kept(d0.lines)
    ensures d == d0
  {
    hide Tracks, IsHeader;
    TrackEnd(d, d0);
  }

  // ---- The native protocol ----

  /** The region a route edit leaves, as the restore expects it. */
  lemma {:induction false} RouteHeld(d: Doc, rs: seq<Region>, d0: Doc, p: Plan, before: RouteBefore, url: string,
          c: Codec)
    requires RouteInstalled(d, rs, d0, p, before, url, c)
    ensures HoldsRoute(WithBody(rs, 0, RouteBody(rs[0].body, p, BaseLine(url, c), RealtimeLine(c))), rs[0].body, p,
      url, c, [])
  {
    hide Assigned, IsHeader, Tracks, Readable, RouteBody, Recorded;
    var r := RouteBody(rs[0].body, p, BaseLine(url, c), RealtimeLine(c));
    assert r + [] == r;
  }

  lemma {:induction false} MarkedAfter(rs: seq<Region>, p: Plan, url: string, c: Codec, more: seq<TLine>)
    requires WellFormed(rs) && Fits(rs[0].body, p) && Unmarked(Flat(rs)) && Unmarked(more)
    requires QuotedWell(c, url) && QuotedWell(c, REALTIME_URL)
    requires WellFormed(WithBody(rs, 0, RouteBody(rs[0].body, p, BaseLine(url, c), RealtimeLine(c)) + more))
    ensures MarkedAt(Flat(WithBody(rs, 0, RouteBody(rs[0].body, p, BaseLine(url, c), RealtimeLine(c)) + more)),
      BaseSpot(rs[0].body, p))
  {
    hide Assigned, Flat, IsHeader, QuotedWell, IsManagedComment, WithBoth, WithBase;
    var b := rs[0].body;
    var b2 := WithBoth(b, p, BaseLine(url, c), RealtimeLine(c));
    var rs2 := WithBody(rs, 0, RouteBody(b, p, BaseLine(url, c), RealtimeLine(c)) + more);
    FirstRegionSplits(rs);
    FirstRegionSplits(rs2);
    assert rs2[1..] == rs[1..];
    UnmarkedParts(b, Flat(rs[1..]));
    PlacesAfterBoth(b, p, url, c);
    BothUnmarked(b, p, url, c);
    MarkInserted(b2, BaseSpot(b, p), more + Flat(rs[1..]), more, Flat(rs[1..]));
  }

  lemma {:induction false} BothUnmarked(b: seq<TLine>, p: Plan, url: string, c: Codec)
    requires Fits(b, p) && Unmarked(b) && QuotedWell(c, url) && QuotedWell(c, REALTIME_URL)
    ensures Unmarked(WithBoth(b, p, BaseLine(url, c), RealtimeLine(c)))
  {
    hide Assigned, QuotedWell, IsManagedComment;
    InstalledLines(url, c);
    UnmarkedPutIn(b, p.base, |b|, BaseLine(url, c));
    UnmarkedPutIn(WithBase(b, p, BaseLine(url, c)), p.realtime, BaseSpot(b, p) + 1, RealtimeLine(c));
  }

  lemma {:induction false} MarkInserted(b: seq<TLine>, i: nat, rest: seq<TLine>, more: seq<TLine>, tail: seq<TLine>)
    requires Unmarked(b) && i <= |b| && Unmarked(more) && Unmarked(tail) && rest == more + tail
    ensures MarkedAt((InsertAt(b, i, Own(ROUTE_COMMENT)) + more) + tail, i)
  {
    hide IsManagedComment;
    var ts := (InsertAt(b, i, Own(ROUTE_COMMENT)) + more) + tail;
    forall j | 0 <= j < |ts| && j != i
      ensures !IsManagedComment(ts[j].line)
    {
      if j < |b| + 1 {
        assert ts[j] == b[if j < i then j else j - 1];
      } else if j < |b| + 1 + |more| {
        assert ts[j] == more[j - |b| - 1];
      } else {
        assert ts[j] == tail[j - |b| - 1 - |more|];
      }
    }
  }

  /**
   * The route comes and goes without a trace: for every terminated text without managed comments, what
   * installing gives passes the check of an installed route, and restoring it gives the text back.
   */
  lemma {:induction false} NativeRoundTrip(text: string, url: string, replace: bool, replaceRealtime: bool, c: Codec)
    requires Terminated(text) && NoMarkers(SplitLines(text)) && QuotedWell(c, url) && QuotedWell(c, REALTIME_URL)
    requires Install(text, url, false, replace, replaceRealtime, c).Ok?
    ensures var (installed, j) := Install(text, url, false, replace, replaceRealtime, c).value;
      && VerifyInstalledRoute(SplitLines(installed), j, c) == Ok(())
      && Restore(installed, j, c) == Ok(text)
  {
    hide Assigned, Flat, IsHeader, QuotedWell, IsManagedComment, Terminated, Clean, Parse, Render, SplitLines, Tracks;
    hide InstallRoute, RestoreRoute, RouteBody, HoldsRoute, ReadRoute, FindTop, At, WellFormed, OriginalRegions;
    var d0 := Parse(text);
    TerminatedIsClean(text);
    SplitLinesAgree(text);
    var rs := Begin(d0);
    AtMeans(d0, rs, d0);
    OriginalBodies(rs);
    NoHeadersFirst(rs);
    var p := RouteInstalls(d0, rs, url, replace, replaceRealtime, c);
    var r := InstallRoute(d0, url, replace, replaceRealtime, c).value;
    var b := rs[0].body;
    var body := RouteBody(b, p, BaseLine(url, c), RealtimeLine(c));
    var rs1 := WithBody(rs, 0, body);
    AtMeans(r.0, rs1, d0);
    RouteHeld(r.0, rs, d0, p, r.1, url, c);
    ReadsBack(r.0, rs1, d0);
    AtLines(r.0, rs1, d0);
    RouteVerifies(rs1, b, p, url, c, []);
    NothingAdded(body, b);
    MarkedAfter(rs, p, url, c, []);
    RouteRestores(r.0, rs1, d0, b, p, r.1, url, c, []);
    BodyTwice(rs, 0, body, b);
    End(RestoreRoute(r.0, r.1, c).value, rs, d0);
    ParseRoundTrip(text);
  }

  lemma {:induction false} NoHeadersFirst(rs: seq<Region>)
    requires WellFormed(rs)
    ensures rs != [] && NoHeaders(rs[0].body)
  {
  }

  lemma {:induction false} NothingAdded(a: seq<TLine>, b: seq<TLine>)
    ensures a + [] == a && b + [] == b && Unmarked([])
  {
  }

  // ---- Compatibility V1: the first region and the others ----

  /** What the feature edits add below the lines before the first table. */
  function FirstGap(rs: seq<Region>, p: F.Plan): seq<TLine> {
    if |rs| == 1 && p.features.None? then F.Gap(p.featuresGap) else []
  }

  ghost predicate TablesLater(rs: seq<Region>, p: F.Plan) {
    && rs != [] && (p.features.Some? ==> 1 <= p.features.value < |rs|)
    && (p.v2Table.Some? ==> 1 <= p.v2Table.value < |rs|) && (p.agents.Some? ==> 1 <= p.agents.value < |rs|)
  }

  /** The feature edits see the first region only as the place of a gap. */
  lemma {:induction false} FirstRegionApart(rs: seq<Region>, p: F.Plan, b: seq<TLine>, v2Line: string,
          depthLine: string)
    requires TablesLater(rs, p) && InstalledFits(rs, p)
    ensures InstalledFits(WithBody(rs, 0, b), p)
    ensures var i := Installed(rs, p, v2Line, depthLine);
      && i != [] && i[0].body == rs[0].body + FirstGap(rs, p)
      && Installed(WithBody(rs, 0, b), p, v2Line, depthLine) == WithBody(i, 0, b + FirstGap(rs, p))
  {
    hide MultiAgentLine, F.NewTable;
    var rs' := WithBody(rs, 0, b);
    FirstApartMultiAgent(rs, p, b);
    var r1, r1' := F.PutMultiAgent(rs, p), F.PutMultiAgent(rs', p);
    var k := F.V2Region(rs, p);
    assert k >= 1 && F.V2Region(rs', p) == k;
    assert r1'[k] == r1[k];
    var gap := FirstGap(rs, p);
    var r2, r2' := F.PutV2(r1, k, p.v2.at, v2Line), F.PutV2(r1', k, p.v2.at, v2Line);
    assert r2' == WithBody(r2, 0, b + gap);
    FirstApartDepth(r2, p, b + gap, depthLine);
  }

  lemma {:induction false} FirstApartMultiAgent(rs: seq<Region>, p: F.Plan, b: seq<TLine>)
    requires TablesLater(rs, p)
    requires p.features.Some? && p.multiAgent.Some? ==> p.multiAgent.value < |rs[p.features.value].body|
    ensures var r := F.PutMultiAgent(rs, p);
      && |r| >= 2 && r[0].body == rs[0].body + FirstGap(rs, p)
      && F.PutMultiAgent(WithBody(rs, 0, b), p) == WithBody(r, 0, b + FirstGap(rs, p))
  {
    hide MultiAgentLine, F.NewTable;
    assert b + [] == b && rs[0].body + [] == rs[0].body;
  }

  lemma {:induction false} FirstApartDepth(rs: seq<Region>, p: F.Plan, b: seq<TLine>, line: string)
    requires |rs| >= 2 && (p.agents.Some? ==> 1 <= p.agents.value < |rs|)
    requires p.agents.Some? && p.depth.Some? ==> p.depth.value < |rs[p.agents.value].body|
    requires p.agents.Some? && p.depth.None? ==> p.slot <= |rs[p.agents.value].body|
    ensures var r := F.PutDepth(rs, p, line);
      && r != [] && r[0].body == rs[0].body && F.PutDepth(WithBody(rs, 0, b), p, line) == WithBody(r, 0, b)
  {
    hide F.NewTable;
  }

  lemma {:induction false} DescribesFirst(rs: seq<Region>, p: F.Plan, b: seq<TLine>)
    requires F.Describes(rs, p) && WellFormed(WithBody(rs, 0, b))
    ensures F.Describes(WithBody(rs, 0, b), p) && TablesLater(rs, p)
  {
    hide IsHeader, IsTable, Assigned, Only, Absent;
    F.PlanBounds(rs, p);
    TableAfterBody(rs, 0, b, FEATURES, p.features);
    TableAfterBody(rs, 0, b, V2_TABLE, p.v2Table);
    TableAfterBody(rs, 0, b, AGENTS, p.agents);
  }

  lemma {:induction false} RecordsFirst(rs: seq<Region>, p: F.Plan, b: seq<TLine>, f: Features, gapF: bool, gapA: bool,
          json: InlineTable.Json)
    requires F.Describes(rs, p) && F.Describes(WithBody(rs, 0, b), p) && V2Recorded(rs, p, f.v2, json)
    requires SettingRecorded(rs, p.features, p.multiAgent, f.multiAgent, gapF)
    requires SettingRecorded(rs, p.agents, p.depth, f.depth, gapA)
    ensures V2Known(WithBody(rs, 0, b), p, f.v2)
    ensures SettingRecorded(WithBody(rs, 0, b), p.features, p.multiAgent, f.multiAgent, gapF)
    ensures SettingRecorded(WithBody(rs, 0, b), p.agents, p.depth, f.depth, gapA)
  {
    hide IsHeader, IsTable, Assigned, Only, Absent, Place;
    F.PlanBounds(rs, p);
  }

  // ---- Compatibility V1: no marker elsewhere ----

  ghost predicate AllUnmarked(rs: seq<Region>) {
    forall k :: 0 <= k < |rs| ==> Unmarked(rs[k].head) && Unmarked(rs[k].body)
  }

  lemma {:induction false} UnmarkedFlat(rs: seq<Region>)
    ensures Unmarked(Flat(rs)) <==> AllUnmarked(rs)
  {
    if rs != [] {
      UnmarkedFlat(rs[..|rs| - 1]);
      UnmarkedSnoc(rs);
    }
  }

  lemma {:induction false} UnmarkedSnoc(rs: seq<Region>)
    requires rs != []
    ensures var n := |rs| - 1;
      && (AllUnmarked(rs) <==> AllUnmarked(rs[..n]) && Unmarked(rs[n].head) && Unmarked(rs[n].body))
      && (Unmarked(Flat(rs)) <==> Unmarked(Flat(rs[..n])) && Unmarked(rs[n].head) && Unmarked(rs[n].body))
  {
    var n := |rs| - 1;
    UnmarkedEither(Flat(rs[..n]), rs[n].head + rs[n].body);
    UnmarkedEither(rs[n].head, rs[n].body);
    hide Unmarked, Flat;
    assert forall k :: 0 <= k < n ==> rs[..n][k] == rs[k];
  }

  lemma {:induction false} UnmarkedEither(a: seq<TLine>, b: seq<TLine>)
    ensures Unmarked(a + b) <==> Unmarked(a) && Unmarked(b)
  {
    hide IsManagedComment;
    if Unmarked(a + b) {
      UnmarkedParts(a, b);
    }
  }

  lemma {:induction false} GappedUnmarked(rs: seq<Region>, gap: bool)
    requires rs != [] && AllUnmarked(rs)
    ensures AllUnmarked(F.Gapped(rs, gap))
  {
    hide IsManagedComment;
    FeatureKeys();
    EmptyLineReads(ENABLED);
    var last := rs[|rs| - 1].body;
    assert Unmarked([Own("")]);
    UnmarkedWhole(last, [Own("")]);
  }

  lemma {:induction false} TableUnmarked(rs: seq<Region>, name: string, line: string)
    requires AllUnmarked(rs) && IsNameLike(name) && !IsManagedComment(line)
    ensures AllUnmarked(rs + [F.NewTable(name, [line])])
  {
    hide IsManagedComment, IsTable, IsHeader, Header, IsBlank;
    HeaderReads(name);
    assert Unmarked([Own(Header(name))]);
    assert Unmarked(F.NewTable(name, [line]).body);
  }

  lemma {:induction false} BodyUnmarked(rs: seq<Region>, k: nat, at: Option<nat>, j: nat, line: string)
    requires k < |rs| && AllUnmarked(rs) && !IsManagedComment(line)
    requires (at.Some? ==> at.value < |rs[k].body|) && (at.None? ==> j <= |rs[k].body|)
    ensures AllUnmarked(WithBody(rs, k, PutIn(rs[k].body, at, j, line)))
  {
    hide IsManagedComment;
    UnmarkedPutIn(rs[k].body, at, j, line);
  }

  lemma {:induction false} InstalledUnmarked(rs: seq<Region>, p: F.Plan, v2Line: string, depth: nat)
    requires InstalledFits(rs, p) && AllUnmarked(rs) && !IsManagedComment(v2Line) && 1 <= depth <= MAX_SAFE
    ensures AllUnmarked(Installed(rs, p, v2Line, DepthLine(depth)))
  {
    hide IsManagedComment, MultiAgentLine, DepthLine, AllUnmarked, F.NewTable, Assigned, IsHeader, AfterEquals, Scalar;
    hide IsBlank;
    FeatureNames();
    FeatureLinesRead();
    DepthLineReads(depth);
    if p.features.Some? {
      var k := p.features.value;
      BodyUnmarked(rs, k, p.multiAgent, |rs[k].body|, MultiAgentLine());
    } else {
      GappedUnmarked(rs, p.featuresGap);
      TableUnmarked(F.Gapped(rs, p.featuresGap), FEATURES, MultiAgentLine());
    }
    var rs1, k := F.PutMultiAgent(rs, p), F.V2Region(rs, p);
    BodyUnmarked(rs1, k, p.v2.at, |rs1[k].body|, v2Line);
    var rs2 := F.PutV2(rs1, k, p.v2.at, v2Line);
    if p.agents.Some? {
      BodyUnmarked(rs2, p.agents.value, p.depth, p.slot, DepthLine(depth));
    } else {
      GappedUnmarked(rs2, p.agentsGap);
      TableUnmarked(F.Gapped(rs2, p.agentsGap), AGENTS, DepthLine(depth));
    }
  }

  // ---- Compatibility V1: the last line ----

  ghost predicate TextLast(ts: seq<TLine>) {
    ts != [] && !IsBlank(ts[|ts| - 1].line)
  }

  lemma {:induction false} TextLastIs(d: Doc, rs: seq<Region>, d0: Doc)
    requires At(d, rs, d0)
    ensures LastIsText(d.lines) == TextLast(Flat(rs))
  {
    hide IsBlank, Flat, Tracks, IsHeader;
    AtLines(d, rs, d0);
  }

  /** The end of the file is the end of the last region. */
  lemma {:induction false} LastLine(rs: seq<Region>)
    requires rs != []
    ensures var r := rs[|rs| - 1];
      r.head + r.body != [] ==> TextLast(Flat(rs)) == TextLast(r.head + r.body)
  {
    hide IsBlank;
    FlatAround(rs, |rs| - 1);
    assert rs[|rs|..] == [];
  }

  /** Does an edit of region `k` put a new line at the end of the file? */
  ghost predicate GrowsEnd(rs: seq<Region>, k: nat, at: Option<nat>) {
    k == |rs| - 1 && at.None?
  }

  /** A visible line put at the end of a table: visible at the end of the file if it was or if it went there. */
  lemma {:induction false} PutLast(rs: seq<Region>, k: nat, at: Option<nat>, line: string)
    requires WellFormed(rs) && 1 <= k < |rs| && (at.Some? ==> at.value < |rs[k].body|) && !IsBlank(line)
    requires at.Some? ==> !IsBlank(rs[k].body[at.value].line)
    ensures TextLast(Flat(WithBody(rs, k, PutIn(rs[k].body, at, |rs[k].body|, line)))) <==>
      TextLast(Flat(rs)) || GrowsEnd(rs, k, at)
  {
    hide IsBlank, IsHeader, Flat;
    var rs' := WithBody(rs, k, PutIn(rs[k].body, at, |rs[k].body|, line));
    assert Headed(rs[k]);
    LastLine(rs);
    LastLine(rs');
    if k == |rs| - 1 {
      var b := rs[k].body;
      assert PutIn(b, at, |b|, line) != [];
    } else {
      assert Headed(rs[|rs| - 1]);
    }
  }

  lemma {:induction false} PlacedIsVisible(b: seq<TLine>, key: string, at: Option<nat>)
    requires Place(b, key, at) && IsKey(key)
    ensures at.Some? ==> at.value < |b| && !IsBlank(b[at.value].line)
  {
    if at.Some? && IsBlank(b[at.value].line) {
      BlankAssigns(b[at.value].line, key);
    }
  }

  /**
   * After the first two steps the file ends in a visible line exactly when it did or when a setting went to its end.
   */
  ghost predicate AppendsAtEnd(rs: seq<Region>, p: F.Plan) {
    || p.features.None?
    || GrowsEnd(rs, p.features.value, p.multiAgent)
    || (!p.v2.inTable && GrowsEnd(rs, p.features.value, p.v2.at))
    || (p.v2.inTable && p.v2Table.Some? && GrowsEnd(rs, p.v2Table.value, p.v2.at))
  }

  lemma {:induction false} TextAfterTwoSteps(rs: seq<Region>, p: F.Plan, v2Line: string)
    requires F.Describes(rs, p) && InstalledFits(rs, p) && !IsBlank(v2Line)
    requires WellFormed(F.PutMultiAgent(rs, p))
    ensures TextLast(Flat(F.PutV2(F.PutMultiAgent(rs, p), F.V2Region(rs, p), p.v2.at, v2Line))) <==>
      TextLast(Flat(rs)) || AppendsAtEnd(rs, p)
  {
    hide IsBlank, IsHeader, IsTable, Assigned, Only, Absent, F.PutMultiAgent, Flat, MultiAgentLine, AfterEquals, Scalar;
    hide WellFormed;
    FeatureKeys();
    FeatureLinesRead();
    F.PlanBounds(rs, p);
    F.DescribesBounds(rs, p);
    AfterMultiAgent(rs, p);
    PlacesAfterMultiAgent(rs, p);
    var rs1, k := F.PutMultiAgent(rs, p), F.V2Region(rs, p);
    PlacedIsVisible(rs1[k].body, V2Key(p), p.v2.at);
    PutLast(rs1, k, p.v2.at, v2Line);
    if p.features.Some? {
      var f := p.features.value;
      PlacedIsVisible(rs[f].body, MULTI_AGENT, p.multiAgent);
      MultiAgentIsPut(rs, p);
      PutLast(rs, f, p.multiAgent, MultiAgentLine());
    } else {
      NewTableIsLast(rs, p);
    }
  }

  lemma {:induction false} MultiAgentIsPut(rs: seq<Region>, p: F.Plan)
    requires rs != [] && p.features.Some? && p.features.value < |rs|
    requires p.multiAgent.Some? ==> p.multiAgent.value < |rs[p.features.value].body|
    ensures var f := p.features.value;
      F.PutMultiAgent(rs, p) == WithBody(rs, f, PutIn(rs[f].body, p.multiAgent, |rs[f].body|, MultiAgentLine()))
  {
  }

  lemma {:induction false} NewTableIsLast(rs: seq<Region>, p: F.Plan)
    requires rs != [] && p.features.None?
    ensures TextLast(Flat(F.PutMultiAgent(rs, p)))
  {
    hide IsBlank, Flat, MultiAgentLine, Header, Scalar, Assigned, AfterEquals;
    FeatureLinesRead();
    var rs1 := F.PutMultiAgent(rs, p);
    LastLine(rs1);
    var t := F.NewTable(FEATURES, [MultiAgentLine()]);
    assert rs1[|rs1| - 1] == t && t.body == [Own(MultiAgentLine())];
    assert (t.head + t.body)[1] == Own(MultiAgentLine());
  }

  // ---- Compatibility V1: the condition, on the lines ----

  predicate Missing(lines: seq<string>, table: string, key: string) {
    RawIn(lines, table, key).Ok? && RawIn(lines, table, key).value.at.None?
  }

  predicate EndsFile(lines: seq<string>, table: string) {
    FindTable(lines, table).Ok? && FindTable(lines, table).value.Some?
        && FindTable(lines, table).value.value.end == |lines|
  }

  /**
   * The file the features are installed into has no agents table and ends in a blank line, but the settings
   * put before the agents table make its last line visible: no features table, or the table at the end of
   * the file lacks a setting it gets.
   */
  predicate LeavesGap(lines: seq<string>) {
    && FindTable(lines, AGENTS) == Ok(None) && !LastIsText(lines)
    && (|| FindTable(lines, FEATURES) == Ok(None)
        || (EndsFile(lines, FEATURES) && Missing(lines, FEATURES, MULTI_AGENT))
        || (EndsFile(lines, FEATURES) && FindTable(lines, V2_TABLE) == Ok(None)
             && Missing(lines, FEATURES, MULTI_AGENT_V2))
        || (EndsFile(lines, V2_TABLE) && Missing(lines, V2_TABLE, ENABLED)))
  }

  lemma {:induction false} EndsFileIs(rs: seq<Region>, table: string, k: Option<nat>)
    requires WellFormed(rs) && IsName(table) && F.TableAt(rs, table, k)
    ensures FindTable(Lines(Flat(rs)), table) == Ok(None) <==> k.None?
    ensures EndsFile(Lines(Flat(rs)), table) <==> k.Some? && k.value == |rs| - 1
  {
    hide IsHeader, IsTable, Flat, FindTable, Only, Absent;
    if k.Some? {
      OnlyBounds(rs, table, k.value);
      TableIs(rs, table, k.value);
      if k.value + 1 < |rs| {
        HeadIsThere(rs, k.value + 1);
      } else {
        assert rs[..k.value + 1] == rs;
      }
    } else {
      TableIsNot(rs, table);
    }
  }

  lemma {:induction false} OnlyBounds(rs: seq<Region>, table: string, k: nat)
    requires Only(rs, table, k)
    ensures 1 <= k < |rs|
  {
  }

  lemma {:induction false} MissingIs(rs: seq<Region>, table: string, key: string, k: Option<nat>, at: Option<nat>)
    requires WellFormed(rs) && IsName(table) && F.TableAt(rs, table, k)
    requires k.Some? ==> k.value < |rs| && Place(rs[k.value].body, key, at)
    requires k.None? ==> at.None?
    ensures Missing(Lines(Flat(rs)), table, key) <==> at.None?
  {
    hide IsHeader, IsTable, Flat, RawIn, Only, Absent, Assigned;
    if k.Some? {
      F.RawIs(rs, k.value, table, key, at);
    } else {
      F.RawIsNot(rs, table, key);
    }
  }

  lemma {:induction false} LeavesGapIs(d: Doc, rs: seq<Region>, d0: Doc, p: F.Plan)
    requires At(d, rs, d0) && F.Describes(rs, p)
    ensures LeavesGap(d.lines) <==> p.agents.None? && !TextLast(Flat(rs)) && AppendsAtEnd(rs, p)
  {
    hide IsHeader, IsTable, Flat, RawIn, Only, Absent, Assigned, FindTable, Missing, EndsFile, LastIsText, Tracks;
    F.Names();
    F.PlanBounds(rs, p);
    AtLines(d, rs, d0);
    TextLastIs(d, rs, d0);
    EndsFileIs(rs, FEATURES, p.features);
    EndsFileIs(rs, V2_TABLE, p.v2Table);
    EndsFileIs(rs, AGENTS, p.agents);
    MissingIs(rs, FEATURES, MULTI_AGENT, p.features, p.multiAgent);
    if p.v2.inTable {
      MissingIs(rs, V2_TABLE, ENABLED, p.v2Table, p.v2.at);
    } else {
      MissingIs(rs, FEATURES, MULTI_AGENT_V2, p.features, p.v2.at);
    }
  }

  // ---- Compatibility V1: the whole way ----

  lemma {:induction false} GapAssignsNothing(rs: seq<Region>, p: F.Plan)
    ensures (forall key :: Nowhere(FirstGap(rs, p), key)) && Unmarked(FirstGap(rs, p))
  {
    OwnerIs();
    RouteCommentIs();
    assert OWNER <= OLD_COMMENT;
  }

  /** Everything known of a file with both edits, seen from the original's regions. */
  ghost predicate BothInstalled(d: Doc, rs: seq<Region>, d0: Doc, rp: Plan, fp: F.Plan, before: RouteBefore,
          f: Features, v2Line: string, textBefore: bool, url: string, c: Codec) {
    && WellFormed(rs) && Fits(rs[0].body, rp) && Recorded(rs[0].body, rp, before, c)
    && Readable(rs[0].body, PROVIDER, c) && Readable(rs[0].body, CATALOG, c)
    && Ready(rs, fp) && V2Known(rs, fp, f.v2) && V2LineFits(v2Line, fp, f.v2, c.json)
    && SettingRecorded(rs, fp.features, fp.multiAgent, f.multiAgent, fp.features.None? && fp.featuresGap)
    && SettingRecorded(rs, fp.agents, fp.depth, f.depth, fp.agents.None? && textBefore)
    && 2 <= f.installedDepth <= MAX_SAFE && TablesLater(rs, fp)
    && var i := Installed(rs, fp, v2Line, DepthLine(f.installedDepth));
    && i != [] && i[0].body == rs[0].body + FirstGap(rs, fp)
    && At(d, WithBody(i, 0, RouteBody(rs[0].body, rp, BaseLine(url, c), RealtimeLine(c)) + FirstGap(rs, fp)), d0)
  }

  /** The feature edits on the routed file are the feature edits on the original, with the route in the first region. */
  lemma {:induction false} BothEdits(d1: Doc, d2: Doc, rs: seq<Region>, d0: Doc, rp: Plan, fp: F.Plan,
          before: RouteBefore, f: Features, v2Line: string, textBefore: bool, url: string, c: Codec)
    requires RouteInstalled(d1, rs, d0, rp, before, url, c)
    requires var rs1 := WithBody(rs, 0, RouteBody(rs[0].body, rp, BaseLine(url, c), RealtimeLine(c)));
      FeaturesInstalled(d2, rs1, d0, fp, f, v2Line, textBefore, c.json)
    ensures BothInstalled(d2, rs, d0, rp, fp, before, f, v2Line, textBefore, url, c)
  {
    hide IsHeader, IsTable, Assigned, Only, Absent, RouteBody, Installed, Tracks, Flat, InstalledFits, V2LineFits;
    hide Recorded, Readable, F.Describes, TablesLater, V2Known, V2Recorded, SettingRecorded, Ready, NoHeaders;
    var body := RouteBody(rs[0].body, rp, BaseLine(url, c), RealtimeLine(c));
    var b := rs[0].body;
    var rs1 := WithBody(rs, 0, body);
    BodyTwice(rs, 0, body, b);
    DescribesFirst(rs1, fp, b);
    RecordsFirst(rs1, fp, b, f, fp.features.None? && fp.featuresGap, fp.agents.None? && textBefore, c.json);
    FirstRegionApart(rs1, fp, b, v2Line, DepthLine(f.installedDepth));
    ReadyIs(rs, fp);
    LaterSame(rs1, rs, fp);
    GapSame(rs1, rs, fp);
    InstalledSize(rs1, fp, v2Line, DepthLine(f.installedDepth));
    var i1 := Installed(rs1, fp, v2Line, DepthLine(f.installedDepth));
    BodyTwice(i1, 0, b + FirstGap(rs, fp), body + FirstGap(rs, fp));
    assert i1[0].body == body + FirstGap(rs, fp);
    assert WithBody(i1, 0, i1[0].body) == i1;
  }

  lemma {:induction false} InstalledSize(rs: seq<Region>, p: F.Plan, v2Line: string, depthLine: string)
    requires TablesLater(rs, p) && InstalledFits(rs, p)
    ensures Installed(rs, p, v2Line, depthLine) != []
  {
    FirstRegionApart(rs, p, rs[0].body, v2Line, depthLine);
  }

  lemma {:induction false} LaterSame(a: seq<Region>, b: seq<Region>, p: F.Plan)
    requires TablesLater(a, p) && |a| == |b|
    ensures TablesLater(b, p)
  {
  }

  lemma {:induction false} GapSame(a: seq<Region>, b: seq<Region>, p: F.Plan)
    requires |a| == |b|
    ensures FirstGap(a, p) == FirstGap(b, p)
  {
  }

  // ---- Compatibility V1: verifying ----

  lemma {:induction false} V2Verifies(rs: seq<Region>, p: F.Plan, f: nat, k: nat, i: nat, line: string, prev: Previous,
          json: InlineTable.Json)
    requires V2InPlace(rs, p, f, k, i, line) && V2LineFits(line, p, prev, json)
    requires prev.v2Table == p.v2.inTable && prev.inline == p.v2.inline && (p.v2.inTable ==> !p.v2.inline)
    ensures VerifyV2(Lines(Flat(rs)), prev, json) == Ok(())
  {
    hide *;
    if p.v2.inTable {
      V2TableVerifies(rs, p, f, k, i, line, prev, json);
    } else if p.v2.inline {
      V2InlineVerifies(rs, p, f, k, i, line, prev, json);
    } else {
      V2ScalarVerifies(rs, p, f, k, i, line, prev, json);
    }
  }

  /** All feature checks pass on the file with both edits. */
  lemma {:induction false} FeaturesVerify(r: seq<Region>, rs: seq<Region>, p: F.Plan, f: Features, v2Line: string,
          b: seq<TLine>, json: InlineTable.Json)
    requires Ready(rs, p) && V2Known(rs, p, f.v2) && V2LineFits(v2Line, p, f.v2, json)
      && 2 <= f.installedDepth <= MAX_SAFE
    requires Installed(rs, p, v2Line, DepthLine(f.installedDepth)) != []
    requires r == WithBody(Installed(rs, p, v2Line, DepthLine(f.installedDepth)), 0, b)
    requires WellFormed(r) && WellFormed(Installed(rs, p, v2Line, DepthLine(f.installedDepth)))
    ensures VerifyFeatures(Lines(Flat(r)), f, json) == Ok(())
  {
    hide *;
    FitsMeans(v2Line, p, f.v2, json);
    KnownMeans(rs, p, f.v2);
    InstalledPlaces(rs, p, v2Line, f.installedDepth);
    ReadyBounds(rs, p);
    var i := Installed(rs, p, v2Line, DepthLine(f.installedDepth));
    var fr, k, a := F.FeaturesRegion(rs, p), F.V2Region(rs, p), AgentsRegion(F.PutMultiAgent(rs, p), p);
    InPlaceMeans(i, p, fr, k, V2Spot(rs, p), v2Line);
    V2StaysInPlace(i, p, fr, k, V2Spot(rs, p), v2Line, b);
    OnlyPositive(i, AGENTS, a);
    OnlyPositive(i, FEATURES, fr);
    OnlyIs(i, 0, b, AGENTS, a);
    OnlyIs(i, 0, b, FEATURES, fr);
    var j: nat :| j < |i[a].body| && Spot(i[a].body, MAX_DEPTH, j) && i[a].body[j].line == DepthLine(f.installedDepth);
    OtherBodies(i, 0, b, a);
    OtherBodies(i, 0, b, fr);
    MultiAgentHas(r, fr, MultiAgentSpot(rs, p));
    V2Verifies(r, p, fr, k, V2Spot(rs, p), v2Line, f.v2, json);
    DepthVerifies(r, a, j, f.installedDepth);
    AllVerified(Lines(Flat(r)), f, json);
  }

  lemma {:induction false} AllVerified(lines: seq<string>, f: Features, json: InlineTable.Json)
    requires VerifyFeature(lines, MULTI_AGENT, "true", MultiAgentLine()) == Ok(())
    requires VerifyV2(lines, f.v2, json) == Ok(()) && VerifyDepth(lines, f.installedDepth) == Ok(())
    ensures VerifyFeatures(lines, f, json) == Ok(())
  {
    hide VerifyFeature, VerifyV2, VerifyDepth, MultiAgentLine;
  }

  lemma {:induction false} ReadyBounds(rs: seq<Region>, p: F.Plan)
    requires Ready(rs, p)
    ensures rs != [] && (p.features.Some? ==> p.features.value < |rs|)
    ensures p.features.Some? && p.multiAgent.Some? ==> p.multiAgent.value < |rs[p.features.value].body|
    ensures InstalledFits(rs, p)
  {
    hide F.PutMultiAgent, F.Describes;
  }

  lemma {:induction false} InPlaceMeans(rs: seq<Region>, p: F.Plan, f: nat, k: nat, i: nat, line: string)
    requires V2InPlace(rs, p, f, k, i, line)
    ensures Only(rs, FEATURES, f)
  {
  }

  lemma {:induction false} OnlyPositive(rs: seq<Region>, name: string, k: nat)
    requires Only(rs, name, k)
    ensures 1 <= k < |rs|
  {
  }

  lemma {:induction false} OnlyIs(rs: seq<Region>, k: nat, b: seq<TLine>, name: string, j: nat)
    requires k < |rs| && Only(rs, name, j)
    ensures Only(WithBody(rs, k, b), name, j)
  {
    hide *;
    F.OnlyAfterBody(rs, k, b, name, j);
  }

  lemma {:induction false} OtherBodies(rs: seq<Region>, k: nat, b: seq<TLine>, j: nat)
    requires k < |rs| && j < |rs| && j != k
    ensures |WithBody(rs, k, b)| == |rs| && WithBody(rs, k, b)[j] == rs[j]
  {
  }

  lemma {:induction false} V2StaysInPlace(rs: seq<Region>, p: F.Plan, f: nat, k: nat, i: nat, line: string,
          b: seq<TLine>)
    requires V2InPlace(rs, p, f, k, i, line) && WellFormed(WithBody(rs, 0, b))
    ensures V2InPlace(WithBody(rs, 0, b), p, f, k, i, line)
  {
    hide IsHeader, IsTable, Assigned, Only, Absent, Flat;
    OnlyPositive(rs, FEATURES, f);
    OnlyIs(rs, 0, b, FEATURES, f);
    TableAfterBody(rs, 0, b, V2_TABLE, p.v2Table);
    if p.v2.inTable {
      OnlyPositive(rs, V2_TABLE, k);
      OnlyIs(rs, 0, b, V2_TABLE, k);
    }
  }

  // ---- Compatibility V1: restoring ----

  /** The regions of the installed file once the route is taken back. */
  lemma {:induction false} RouteTakenBack(d: Doc, rs: seq<Region>, d0: Doc, rp: Plan, fp: F.Plan, before: RouteBefore,
          f: Features, v2Line: string, textBefore: bool, url: string, c: Codec)
    requires BothInstalled(d, rs, d0, rp, fp, before, f, v2Line, textBefore, url, c)
    requires OriginalRegions(rs) && Unmarked(Flat(rs)) && QuotedWell(c, url) && QuotedWell(c, REALTIME_URL)
    ensures Valid(d) && VerifyInstalledRoute(d.lines, Journal(true, url, before, Some(f)), c) == Ok(())
    ensures RestoreRoute(d, before, c).Ok?
    ensures At(RestoreRoute(d, before, c).value, Installed(rs, fp, v2Line, DepthLine(f.installedDepth)), d0)
  {
    hide IsHeader, IsTable, Assigned, Only, Absent, RouteBody, Installed, Tracks, Flat, InstalledFits, V2LineFits, Fits;
    hide Recorded, Readable, F.Describes, TablesLater, V2Known, SettingRecorded, Ready, NoHeaders, QuotedWell;
    hide RestoreRoute;
    hide VerifyInstalledRoute, Unmarked, OriginalRegions, FirstGap, Original, DepthLine;
    OriginalBodies(rs);
    NoHeadersFirst(rs);
    ReadyBounds(rs, fp);
    FitsBounds(rs[0].body, rp);
    var b, gap := rs[0].body, FirstGap(rs, fp);
    var body := RouteBody(b, rp, BaseLine(url, c), RealtimeLine(c));
    var i := Installed(rs, fp, v2Line, DepthLine(f.installedDepth));
    var w := WithBody(i, 0, body + gap);
    BodyTwice(i, 0, body + gap, b + gap);
    AtMeans(d, w, d0);
    AtLines(d, w, d0);
    GapAssignsNothing(rs, fp);
    GapHasNoHeader(rs, fp, b);
    KeepWellFormed(w, 0, b + gap);
    FeaturesVerify(w, rs, fp, f, v2Line, body + gap, c.json);
    assert HoldsRoute(w, b, rp, url, c, gap);
    RouteVerifies(w, b, rp, url, c, gap);
    BothVerified(d.lines, url, before, f, c);
    InstalledMarked(rs, rp, fp, f, v2Line, url, c);
    RouteRestores(d, w, d0, b, rp, before, url, c, gap);
  }

  lemma {:induction false} FitsBounds(b: seq<TLine>, p: Plan)
    requires Fits(b, p)
    ensures (p.base.Some? ==> p.base.value < |b|) && (p.realtime.Some? ==> p.realtime.value < |b|)
  {
  }

  lemma {:induction false} GapHasNoHeader(rs: seq<Region>, p: F.Plan, b: seq<TLine>)
    requires NoHeaders(b)
    ensures NoHeaders(b + FirstGap(rs, p))
  {
    FeatureKeys();
    EmptyLineReads(ENABLED);
  }

  lemma {:induction false} BothVerified(lines: seq<string>, url: string, before: RouteBefore, f: Features, c: Codec)
    requires ReadRoute(lines, c).Ok? && ReadRoute(lines, c).value.Some? && ReadRoute(lines, c).value.value.value == url
    requires FindTop(lines, REALTIME, c).Ok? && FindTop(lines, REALTIME, c).value.Some?
    requires FindTop(lines, REALTIME, c).value.value.value == REALTIME_URL
    requires FindTop(lines, REALTIME, c).value.value.line == RealtimeLine(c)
    requires ROUTE_COMMENT in lines && VerifyFeatures(lines, f, c.json) == Ok(())
    ensures VerifyInstalledRoute(lines, Journal(true, url, before, Some(f)), c) == Ok(())
  {
    hide ReadRoute, FindTop, VerifyFeatures;
  }

  /** The marker is the only managed comment of the file with both edits. */
  lemma {:induction false} InstalledMarked(rs: seq<Region>, rp: Plan, fp: F.Plan, f: Features, v2Line: string,
          url: string, c: Codec)
    requires WellFormed(rs) && Fits(rs[0].body, rp) && InstalledFits(rs, fp) && Unmarked(Flat(rs))
    requires V2LineFits(v2Line, fp, f.v2, c.json) && 2 <= f.installedDepth <= MAX_SAFE
    requires QuotedWell(c, url) && QuotedWell(c, REALTIME_URL)
    requires var i := Installed(rs, fp, v2Line, DepthLine(f.installedDepth));
      i != [] && WellFormed(i)
          && WellFormed(WithBody(i, 0, RouteBody(rs[0].body, rp, BaseLine(url, c), RealtimeLine(c)) + FirstGap(rs, fp)))
    ensures var i := Installed(rs, fp, v2Line, DepthLine(f.installedDepth));
      MarkedAt(Flat(WithBody(i, 0, RouteBody(rs[0].body, rp, BaseLine(url, c), RealtimeLine(c)) + FirstGap(rs, fp))),
          BaseSpot(rs[0].body, rp))
  {
    hide *;
    NoHeadersFirst(rs);
    FitsBounds(rs[0].body, rp);
    LineUnmarked(v2Line, fp, f.v2, c.json);
    UnmarkedFlat(rs);
    InstalledUnmarked(rs, fp, v2Line, f.installedDepth);
    GapAssignsNothing(rs, fp);
    var i := Installed(rs, fp, v2Line, DepthLine(f.installedDepth));
    var body := RouteBody(rs[0].body, rp, BaseLine(url, c), RealtimeLine(c)) + FirstGap(rs, fp);
    KeepWellFormed(i, 0, rs[0].body);
    FirstUnmarked(rs, i);
    var x := WithBody(i, 0, rs[0].body);
    UnmarkedFlat(x);
    BodyTwice(i, 0, rs[0].body, body);
    MarkedAfter(x, rp, url, c, FirstGap(rs, fp));
  }

  lemma {:induction false} LineUnmarked(line: string, p: F.Plan, prev: Previous, json: InlineTable.Json)
    requires V2LineFits(line, p, prev, json)
    ensures !IsManagedComment(line) && line != ""
  {
    hide IsManagedComment;
  }

  lemma {:induction false} FirstUnmarked(rs: seq<Region>, i: seq<Region>)
    requires rs != [] && i != [] && AllUnmarked(rs) && AllUnmarked(i)
    ensures AllUnmarked(WithBody(i, 0, rs[0].body))
  {
    hide Unmarked;
  }

  lemma {:induction false} DepthReady(rs: seq<Region>, p: F.Plan)
    requires Ready(rs, p)
    ensures DepthFits(rs, p) && (p.agents.Some? ==> p.agents.value >= 1) && WellFormed(rs)
  {
    hide IsHeader, IsTable, Assigned, Only, Absent, F.PutMultiAgent, Place;
    F.PlanBounds(rs, p);
    F.DescribesBounds(rs, p);
  }

  /** A document with both edits and what restoring makes of it, step by step. */
  datatype Steps = Steps(installed: Doc, first: Doc, second: Doc, third: Doc, last: Doc)

  ghost predicate StepsDown(s: Steps, before: RouteBefore, f: Features, c: Codec) {
    && Valid(s.installed) && Valid(s.first) && Valid(s.second) && Valid(s.third) && Valid(s.last)
    && RestoreRoute(s.installed, before, c) == Ok(s.first)
    && RestoreV2(s.first, f.v2, c.json) == Ok(s.second)
    && RestoreFeature(s.second, MULTI_AGENT, "true", MultiAgentLine(), f.multiAgent) == Ok(s.third)
    && RestoreDepth(s.third, f.depth, f.installedDepth) == Ok(s.last)
  }

  /** The regions of each step. */
  ghost predicate StepsAt(s: Steps, rs: seq<Region>, d0: Doc, fp: F.Plan, f: Features, v2Line: string,
          textBefore: bool) {
    && Ready(rs, fp) && DepthFits(rs, fp) && rs != [] && v2Line != "" && Clean(s.installed)
    && At(s.first, Installed(rs, fp, v2Line, DepthLine(f.installedDepth)), d0)
    && At(s.second, WithDepth(F.PutMultiAgent(rs, fp), fp, f.installedDepth), d0)
    && At(s.third, WithDepth(rs, fp, f.installedDepth), d0)
    && At(s.last, F.Gapped(rs, fp.agents.None? && fp.agentsGap && !textBefore), d0)
  }

  /** Every step of restoring succeeds, from a document with both edits. */
  lemma {:induction false} BothStepDown(d: Doc, rs: seq<Region>, d0: Doc, rp: Plan, fp: F.Plan, before: RouteBefore,
          f: Features, v2Line: string, textBefore: bool, url: string, c: Codec)
    returns (s: Steps)
    requires BothInstalled(d, rs, d0, rp, fp, before, f, v2Line, textBefore, url, c)
    requires OriginalRegions(rs) && Unmarked(Flat(rs)) && QuotedWell(c, url) && QuotedWell(c, REALTIME_URL)
    requires fp.agents.None? && textBefore ==> fp.agentsGap
    ensures s.installed == d && StepsDown(s, before, f, c) && StepsAt(s, rs, d0, fp, f, v2Line, textBefore)
    ensures VerifyInstalledRoute(d.lines, Journal(true, url, before, Some(f)), c) == Ok(())
  {
    hide *;
    BothMeans(d, rs, d0, rp, fp, before, f, v2Line, textBefore, url, c);
    RouteTakenBack(d, rs, d0, rp, fp, before, f, v2Line, textBefore, url, c);
    ReadyBounds(rs, fp);
    var body := RouteBody(rs[0].body, rp, BaseLine(url, c), RealtimeLine(c));
    AtIsClean(d, WithBody(Installed(rs, fp, v2Line, DepthLine(f.installedDepth)), 0, body + FirstGap(rs, fp)), d0);
    LineUnmarked(v2Line, fp, f.v2, c.json);
    DepthReady(rs, fp);
    OriginalBodies(rs);
    var depth := f.installedDepth;
    var d1 := RestoreRoute(d, before, c).value;
    ReadsBack(d1, Installed(rs, fp, v2Line, DepthLine(depth)), d0);
    V2SpotIs(rs, fp);
    V2Restores(d1, rs, d0, fp, f.v2, v2Line, depth, c.json);
    var d2 := RestoreV2(d1, f.v2, c.json).value;
    ReadsBack(d2, WithDepth(F.PutMultiAgent(rs, fp), fp, depth), d0);
    MultiAgentRestores(d2, rs, d0, fp, f.multiAgent, depth);
    var d3 := RestoreFeature(d2, MULTI_AGENT, "true", MultiAgentLine(), f.multiAgent).value;
    DepthBounds(rs, fp);
    ReadsBack(d3, WithDepth(rs, fp, depth), d0);
    var recorded := fp.agents.None? && textBefore;
    DepthRestores(d3, rs, d0, fp, f.depth, depth, recorded);
    var d4 := RestoreDepth(d3, f.depth, depth).value;
    ReadsBack(d4, F.Gapped(rs, fp.agents.None? && fp.agentsGap && !recorded), d0);
    s := Steps(d, d1, d2, d3, d4);
    AreSteps(s, rs, d0, fp, before, f, v2Line, textBefore, c);
  }

  lemma {:induction false} AreSteps(s: Steps, rs: seq<Region>, d0: Doc, fp: F.Plan, before: RouteBefore, f: Features,
          v2Line: string, textBefore: bool, c: Codec)
    requires Valid(s.installed) && Valid(s.first) && Valid(s.second) && Valid(s.third) && Valid(s.last)
    requires RestoreRoute(s.installed, before, c) == Ok(s.first) && RestoreV2(s.first, f.v2, c.json) == Ok(s.second)
    requires RestoreFeature(s.second, MULTI_AGENT, "true", MultiAgentLine(), f.multiAgent) == Ok(s.third)
    requires RestoreDepth(s.third, f.depth, f.installedDepth) == Ok(s.last)
    requires Ready(rs, fp) && DepthFits(rs, fp) && v2Line != "" && Clean(s.installed)
    requires rs != [] && (fp.features.Some? ==> fp.features.value < |rs|) && InstalledFits(rs, fp)
    requires fp.features.Some? && fp.multiAgent.Some? ==> fp.multiAgent.value < |rs[fp.features.value].body|
    requires At(s.first, Installed(rs, fp, v2Line, DepthLine(f.installedDepth)), d0)
    requires At(s.second, WithDepth(F.PutMultiAgent(rs, fp), fp, f.installedDepth), d0)
    requires At(s.third, WithDepth(rs, fp, f.installedDepth), d0)
    requires At(s.last, F.Gapped(rs, fp.agents.None? && fp.agentsGap && !(fp.agents.None? && textBefore)), d0)
    ensures StepsDown(s, before, f, c) && StepsAt(s, rs, d0, fp, f, v2Line, textBefore)
  {
    hide At, Installed, WithDepth, F.Gapped, F.PutMultiAgent, RestoreRoute, RestoreV2, RestoreFeature, RestoreDepth;
    hide F.Describes, Only, Absent, Place, InstalledFits;
  }

  /** The whole restore, from a document with both edits. */
  lemma {:induction false} BothRestored(d: Doc, rs: seq<Region>, d0: Doc, rp: Plan, fp: F.Plan, before: RouteBefore,
          f: Features, v2Line: string, textBefore: bool, url: string, c: Codec)
    returns (s: Steps)
    requires BothInstalled(d, rs, d0, rp, fp, before, f, v2Line, textBefore, url, c)
    requires OriginalRegions(rs) && Unmarked(Flat(rs)) && QuotedWell(c, url) && QuotedWell(c, REALTIME_URL)
    requires fp.agents.None? && textBefore ==> fp.agentsGap
    ensures s.installed == d && StepsDown(s, before, f, c) && StepsAt(s, rs, d0, fp, f, v2Line, textBefore)
    ensures Valid(d) && Valid(s.last)
      && Restore(Render(d), Journal(true, url, before, Some(f)), c) == Ok(Render(s.last))
    ensures VerifyInstalledRoute(SplitLines(Render(d)), Journal(true, url, before, Some(f)), c) == Ok(())
    ensures rs != [] && At(s.last, F.Gapped(rs, fp.agents.None? && fp.agentsGap && !textBefore), d0)
  {
    hide BothInstalled, StepsDown, StepsAt, At, Installed, WithDepth, F.Gapped, F.PutMultiAgent, Restore, Ready;
    hide VerifyInstalledRoute, SplitLines, Parse, Render, RouteBody, FirstGap, Only, Absent, Place, InstalledFits;
    hide OriginalRegions, Unmarked, QuotedWell, Flat, RestoreRoute, RestoreV2, RestoreFeature, RestoreDepth;
    s := BothStepDown(d, rs, d0, rp, fp, before, f, v2Line, textBefore, url, c);
    BothMeans(d, rs, d0, rp, fp, before, f, v2Line, textBefore, url, c);
    StepsMean(s, rs, d0, fp, before, f, v2Line, textBefore, c);
    var body := RouteBody(rs[0].body, rp, BaseLine(url, c), RealtimeLine(c));
    ReadsBack(d, WithBody(Installed(rs, fp, v2Line, DepthLine(f.installedDepth)), 0, body + FirstGap(rs, fp)), d0);
    ReadsBack(s.first, Installed(rs, fp, v2Line, DepthLine(f.installedDepth)), d0);
    ReadsBack(s.second, WithDepth(F.PutMultiAgent(rs, fp), fp, f.installedDepth), d0);
    ReadsBack(s.third, WithDepth(rs, fp, f.installedDepth), d0);
    RestoreIs(d, s.first, s.second, s.third, s.last, before, f, url, c);
  }

  lemma {:induction false} StepsMean(s: Steps, rs: seq<Region>, d0: Doc, fp: F.Plan, before: RouteBefore, f: Features,
          v2Line: string, textBefore: bool, c: Codec)
    requires StepsDown(s, before, f, c) && StepsAt(s, rs, d0, fp, f, v2Line, textBefore)
    ensures Valid(s.installed) && Valid(s.first) && Valid(s.second) && Valid(s.third) && Valid(s.last)
    ensures RestoreRoute(s.installed, before, c) == Ok(s.first) && RestoreV2(s.first, f.v2, c.json) == Ok(s.second)
    ensures RestoreFeature(s.second, MULTI_AGENT, "true", MultiAgentLine(), f.multiAgent) == Ok(s.third)
    ensures RestoreDepth(s.third, f.depth, f.installedDepth) == Ok(s.last)
    ensures rs != [] && Ready(rs, fp) && DepthFits(rs, fp) && InstalledFits(rs, fp) && v2Line != ""
    ensures Clean(s.installed)
    ensures fp.features.Some? ==> fp.features.value < |rs|
    ensures fp.features.Some? && fp.multiAgent.Some? ==> fp.multiAgent.value < |rs[fp.features.value].body|
    ensures DepthFits(F.PutMultiAgent(rs, fp), fp)
    ensures At(s.first, Installed(rs, fp, v2Line, DepthLine(f.installedDepth)), d0)
    ensures At(s.second, WithDepth(F.PutMultiAgent(rs, fp), fp, f.installedDepth), d0)
    ensures At(s.third, WithDepth(rs, fp, f.installedDepth), d0)
    ensures At(s.last, F.Gapped(rs, fp.agents.None? && fp.agentsGap && !textBefore), d0)
  {
    hide At, Installed, WithDepth, F.Gapped, F.PutMultiAgent, RestoreRoute, RestoreV2, RestoreFeature, RestoreDepth;
    hide F.Describes, DepthFits;
  }

  lemma {:induction false} DepthBounds(rs: seq<Region>, p: F.Plan)
    requires DepthFits(rs, p)
    ensures rs != [] && (p.agents.Some? ==> p.agents.value < |rs|)
    ensures p.agents.Some? && p.depth.Some? ==> p.depth.value < |rs[p.agents.value].body|
    ensures p.agents.Some? && p.depth.None? ==> p.slot <= |rs[p.agents.value].body|
  {
  }

  lemma {:induction false} BothMeans(d: Doc, rs: seq<Region>, d0: Doc, rp: Plan, fp: F.Plan, before: RouteBefore,
          f: Features, v2Line: string, textBefore: bool, url: string, c: Codec)
    requires BothInstalled(d, rs, d0, rp, fp, before, f, v2Line, textBefore, url, c)
    ensures Ready(rs, fp) && V2Known(rs, fp, f.v2) && V2LineFits(v2Line, fp, f.v2, c.json) && WellFormed(rs) && rs != []
    ensures SettingRecorded(rs, fp.features, fp.multiAgent, f.multiAgent, fp.features.None? && fp.featuresGap)
    ensures SettingRecorded(rs, fp.agents, fp.depth, f.depth, fp.agents.None? && textBefore)
    ensures 2 <= f.installedDepth <= MAX_SAFE
    ensures (rp.base.Some? ==> rp.base.value < |rs[0].body|) && (rp.realtime.Some? ==> rp.realtime.value < |rs[0].body|)
    ensures var i := Installed(rs, fp, v2Line, DepthLine(f.installedDepth));
      i != [] && At(d, WithBody(i, 0, RouteBody(rs[0].body, rp, BaseLine(url, c), RealtimeLine(c)) + FirstGap(rs, fp)),
          d0)
  {
    hide IsHeader, IsTable, Assigned, Only, Absent, RouteBody, Installed, Tracks, Flat, InstalledFits, V2LineFits;
    hide Recorded, Readable, F.Describes, TablesLater, V2Known, SettingRecorded, NoHeaders;
  }

  lemma {:induction false} RestoreIs(d: Doc, d1: Doc, d2: Doc, d3: Doc, d4: Doc, before: RouteBefore, f: Features,
          url: string, c: Codec)
    requires Valid(d) && Valid(d1) && Valid(d2) && Valid(d3) && Valid(d4)
    requires SplitLines(Render(d)) == d.lines && Parse(Render(d)) == d
    requires VerifyInstalledRoute(d.lines, Journal(true, url, before, Some(f)), c) == Ok(())
    requires RestoreRoute(d, before, c) == Ok(d1) && Parse(Render(d1)) == d1
    requires RestoreV2(d1, f.v2, c.json) == Ok(d2) && Parse(Render(d2)) == d2
    requires RestoreFeature(d2, MULTI_AGENT, "true", MultiAgentLine(), f.multiAgent) == Ok(d3)
      && Parse(Render(d3)) == d3
    requires RestoreDepth(d3, f.depth, f.installedDepth) == Ok(d4)
    ensures Restore(Render(d), Journal(true, url, before, Some(f)), c) == Ok(Render(d4))
  {
    hide SplitLines, Parse, Render, VerifyInstalledRoute, RestoreRoute, RestoreV2, RestoreFeature, RestoreDepth;
    hide MultiAgentLine;
  }

  /** A file that kept a gap is the original and one more empty line. */
  lemma {:induction false} GapKept(d: Doc, rs: seq<Region>, d0: Doc)
    requires rs != [] && At(d, F.Gapped(rs, true), d0) && Flat(rs) == Kept(d0.lines)
    ensures d.lines == d0.lines + [""]
  {
    hide Tracks, IsHeader, Flat;
    AtLines(d, F.Gapped(rs, true), d0);
    FlatAround(rs, |rs| - 1);
    FlatWithBody(rs, |rs| - 1, rs[|rs| - 1].body + [Own("")]);
    NothingAfter(rs);
    GrowInside(Flat(rs[..|rs| - 1]), rs[|rs| - 1].head, rs[|rs| - 1].body, Own(""));
    assert Lines(Kept(d0.lines) + [Own("")]) == d0.lines + [""];
  }

  /** The parts of a Compatibility V1 installation. */
  lemma {:induction false} InstallParts(text: string, url: string, replace: bool, replaceRealtime: bool, c: Codec)
    requires Install(text, url, true, replace, replaceRealtime, c).Ok?
    ensures InstallRoute(Parse(text), url, replace, replaceRealtime, c).Ok?
    ensures var r := InstallRoute(Parse(text), url, replace, replaceRealtime, c).value;
      && InstallFeatures(Parse(Render(r.0)), c.json).Ok?
      && var f := InstallFeatures(Parse(Render(r.0)), c.json).value;
      Install(text, url, true, replace, replaceRealtime, c) == Ok((Render(f.0), Journal(true, url, r.1, Some(f.1))))
  {
    hide InstallRoute, InstallFeatures, Parse, Render;
  }

  /** One installation and its restoring, seen as regions. */
  datatype Episode = Episode(rs: seq<Region>, body: seq<TLine>, routed: Doc, restored: Doc, before: RouteBefore)

  /**
   * The episode of a text: `rs` are the original lines, `routed` has their first region replaced, the features
   * are installed on `routed`, and `restored` has the original lines and, after a gap is left, one more.
   */
  ghost predicate Explains(e: Episode, text: string, url: string, replace: bool, replaceRealtime: bool, c: Codec) {
    var d0 := Parse(text);
    && Install(text, url, true, replace, replaceRealtime, c).Ok? && e.rs != [] && WellFormed(e.rs)
         && Flat(e.rs) == Kept(d0.lines)
    && InstallRoute(d0, url, replace, replaceRealtime, c) == Ok((e.routed, e.before))
    && Valid(e.routed) && At(e.routed, WithBody(e.rs, 0, e.body), d0) && InstallFeatures(e.routed, c.json).Ok?
    && At(e.restored, F.Gapped(e.rs, LeavesGap(e.routed.lines)), d0)
    && Valid(e.restored) && Parse(Render(e.restored)) == e.restored
         && SplitLines(Render(e.restored)) == e.restored.lines
    && var (installed, j) := Install(text, url, true, replace, replaceRealtime, c).value;
    && j == Journal(true, url, e.before, Some(InstallFeatures(e.routed, c.json).value.1))
    && VerifyInstalledRoute(SplitLines(installed), j, c) == Ok(())
    && Restore(installed, j, c) == Ok(Render(e.restored))
  }

  /** The regions, plans and documents of one installation. */
  datatype Course = Course(rs: seq<Region>, body: seq<TLine>, fp: F.Plan, routed: Doc, before: RouteBefore, f: Features,
      v2Line: string, steps: Steps)

  ghost predicate Follows(e: Course, text: string, url: string, replace: bool, replaceRealtime: bool, c: Codec) {
    var d0 := Parse(text);
    && e.rs != [] && WellFormed(e.rs) && Flat(e.rs) == Kept(d0.lines)
    && InstallRoute(d0, url, replace, replaceRealtime, c) == Ok((e.routed, e.before))
    && Valid(e.routed) && At(e.routed, WithBody(e.rs, 0, e.body), d0) && Parse(Render(e.routed)) == e.routed
    && InstallFeatures(e.routed, c.json) == Ok((e.steps.installed, e.f))
    && StepsDown(e.steps, e.before, e.f, c)
    && StepsAt(e.steps, e.rs, d0, e.fp, e.f, e.v2Line, LastIsText(e.routed.lines))
    && (LeavesGap(e.routed.lines) <==> e.fp.agents.None? && e.fp.agentsGap && !LastIsText(e.routed.lines))
    && var j := Journal(true, url, e.before, Some(e.f));
    && Install(text, url, true, replace, replaceRealtime, c) == Ok((Render(e.steps.installed), j))
    && VerifyInstalledRoute(SplitLines(Render(e.steps.installed)), j, c) == Ok(())
    && Restore(Render(e.steps.installed), j, c) == Ok(Render(e.steps.last))
  }

  lemma {:induction false} CourseOf(text: string, url: string, replace: bool, replaceRealtime: bool, c: Codec)
    returns (e: Course)
    requires Terminated(text) && NoMarkers(SplitLines(text)) && QuotedWell(c, url) && QuotedWell(c, REALTIME_URL)
    requires Install(text, url, true, replace, replaceRealtime, c).Ok?
    ensures Follows(e, text, url, replace, replaceRealtime, c)
  {
    hide Parse, Render, SplitLines, Terminated, NoMarkers, QuotedWell, InstallRoute, InstallFeatures, Install, Restore;
    hide VerifyInstalledRoute;
    hide At, WellFormed, Flat, Valid, LeavesGap, F.Gapped, Kept, RouteBody, RouteInstalled, FeaturesInstalled;
    hide BothInstalled, OriginalRegions, StepsDown, StepsAt;
    hide Unmarked, SecondDoc, F.PutV2, F.PutMultiAgent, F.V2Region, LastIsText, Clean, BaseLine, RealtimeLine;
    hide OriginalTables;
    InstallParts(text, url, replace, replaceRealtime, c);
    var d0 := Parse(text);
    TerminatedIsClean(text);
    SplitLinesAgree(text);
    var rs := Begin(d0);
    AtMeans(d0, rs, d0);
    NoHeadersFirst(rs);
    var rp := RouteInstalls(d0, rs, url, replace, replaceRealtime, c);
    var (d1, before) := InstallRoute(d0, url, replace, replaceRealtime, c).value;
    RouteIn(d1, rs, d0, rp, before, url, c);
    var body := RouteBody(rs[0].body, rp, BaseLine(url, c), RealtimeLine(c));
    var rs1 := WithBody(rs, 0, body);
    ReadsBack(d1, rs1, d0);
    RoutedTables(rs, body);
    var fp, v2Line := FeaturesInstall(d1, rs1, d0, c.json);
    var (d2, f) := InstallFeatures(d1, c.json).value;
    var textBefore := LastIsText(d1.lines);
    BothEdits(d1, d2, rs, d0, rp, fp, before, f, v2Line, textBefore, url, c);
    GapMeans(d1, d2, rs1, d0, fp, f, v2Line, c.json);
    var s := BothRestored(d2, rs, d0, rp, fp, before, f, v2Line, textBefore, url, c);
    e := Course(rs, body, fp, d1, before, f, v2Line, s);
  }

  lemma {:induction false} EpisodeOf(text: string, url: string, replace: bool, replaceRealtime: bool, c: Codec)
    returns (e: Episode)
    requires Terminated(text) && NoMarkers(SplitLines(text)) && QuotedWell(c, url) && QuotedWell(c, REALTIME_URL)
    requires Install(text, url, true, replace, replaceRealtime, c).Ok?
    ensures Explains(e, text, url, replace, replaceRealtime, c)
  {
    hide Parse, Render, SplitLines, Terminated, NoMarkers, QuotedWell, InstallRoute, InstallFeatures, Install, Restore;
    hide VerifyInstalledRoute, At, WellFormed, Flat, Valid, LeavesGap, F.Gapped, Kept, LastIsText, StepsDown, StepsAt;
    var k := CourseOf(text, url, replace, replaceRealtime, c);
    StepsMean(k.steps, k.rs, Parse(text), k.fp, k.before, k.f, k.v2Line, LastIsText(k.routed.lines), c);
    ReadsBack(k.steps.last, F.Gapped(k.rs, LeavesGap(k.routed.lines)), Parse(text));
    e := Episode(k.rs, k.body, k.routed, k.steps.last, k.before);
  }

  /**
   * Route and features come and go: for every terminated text without managed comments, what installing gives
   * passes the check, and restoring it succeeds. It gives the text back exactly unless the routed file has no
   * agents table and a blank last line that the feature edits hide; then one empty line more is left at the end.
   */
  lemma {:induction false} CompatibilityRoundTrip(text: string, url: string, replace: bool, replaceRealtime: bool,
          c: Codec)
    requires Terminated(text) && NoMarkers(SplitLines(text)) && QuotedWell(c, url) && QuotedWell(c, REALTIME_URL)
    requires Install(text, url, true, replace, replaceRealtime, c).Ok?
    ensures InstallRoute(Parse(text), url, replace, replaceRealtime, c).Ok?
    ensures var (installed, j) := Install(text, url, true, replace, replaceRealtime, c).value;
      var routed := InstallRoute(Parse(text), url, replace, replaceRealtime, c).value.0.lines;
      && VerifyInstalledRoute(SplitLines(installed), j, c) == Ok(())
      && Restore(installed, j, c).Ok?
      && (Restore(installed, j, c) == Ok(text) <==> !LeavesGap(routed))
      && SplitLines(Restore(installed, j, c).value) == SplitLines(text) + (if LeavesGap(routed) then [""] else [])
  {
    hide Parse, Render, SplitLines, Terminated, NoMarkers, QuotedWell, InstallRoute, InstallFeatures, Install, Restore;
    hide VerifyInstalledRoute;
    hide At, WellFormed, Flat, Valid, LeavesGap, F.Gapped, Kept;
    var e := EpisodeOf(text, url, replace, replaceRealtime, c);
    var d0 := Parse(text);
    TerminatedIsClean(text);
    SplitLinesAgree(text);
    ParseRoundTrip(text);
    if LeavesGap(e.routed.lines) {
      GapKept(e.restored, e.rs, d0);
      LongerIsOther(e.restored, d0);
    } else {
      NotGapped(e.rs);
      End(e.restored, e.rs, d0);
    }
  }

  lemma {:induction false} NotGapped(rs: seq<Region>)
    requires rs != []
    ensures F.Gapped(rs, false) == rs
  {
  }

  lemma {:induction false} LongerIsOther(d: Doc, d0: Doc)
    requires Valid(d) && Valid(d0) && d.lines == d0.lines + [""] && Parse(Render(d)) == d && Parse(Render(d0)) == d0
    ensures Render(d) != Render(d0)
  {
    hide Parse, Render;
  }

  lemma {:induction false} RouteIn(d: Doc, rs: seq<Region>, d0: Doc, p: Plan, before: RouteBefore, url: string,
          c: Codec)
    requires RouteInstalled(d, rs, d0, p, before, url, c)
    ensures rs != []
    ensures (p.base.Some? ==> p.base.value < |rs[0].body|) && (p.realtime.Some? ==> p.realtime.value < |rs[0].body|)
    ensures At(d, WithBody(rs, 0, RouteBody(rs[0].body, p, BaseLine(url, c), RealtimeLine(c))), d0)
  {
    hide IsHeader, Assigned, RouteBody, Tracks, Readable, Recorded;
  }

  lemma {:induction false} RoutedTables(rs: seq<Region>, body: seq<TLine>)
    requires WellFormed(rs) && OriginalRegions(rs)
    ensures rs != [] && OriginalTables(WithBody(rs, 0, body))
  {
    hide IsHeader, Flat;
    OriginalBodies(rs);
  }

  /** The unrecorded gap, in terms of the routed file. */
  lemma {:induction false} GapMeans(d1: Doc, d2: Doc, rs: seq<Region>, d0: Doc, p: F.Plan, f: Features, v2Line: string,
          json: InlineTable.Json)
    requires At(d1, rs, d0) && Valid(d1) && FeaturesInstalled(d2, rs, d0, p, f, v2Line, LastIsText(d1.lines), json)
    requires SecondDoc(d1, json).Ok? && (p.agents.None? ==> p.agentsGap == LastIsText(SecondDoc(d1, json).value.lines))
    requires At(SecondDoc(d1, json).value, F.PutV2(F.PutMultiAgent(rs, p), F.V2Region(rs, p), p.v2.at, v2Line), d0)
    ensures p.agents.None? && LastIsText(d1.lines) ==> p.agentsGap
    ensures LeavesGap(d1.lines) <==> p.agents.None? && p.agentsGap && !LastIsText(d1.lines)
  {
    hide *;
    InstalledMeans(d2, rs, d0, p, f, v2Line, LastIsText(d1.lines), json);
    FirstStepWellFormed(rs, p);
    LeavesGapIs(d1, rs, d0, p);
    TextLastIs(d1, rs, d0);
    var rs2 := F.PutV2(F.PutMultiAgent(rs, p), F.V2Region(rs, p), p.v2.at, v2Line);
    TextLastIs(SecondDoc(d1, json).value, rs2, d0);
    TextAfterTwoSteps(rs, p, v2Line);
  }

  lemma {:induction false} InstalledMeans(d: Doc, rs: seq<Region>, d0: Doc, p: F.Plan, f: Features, v2Line: string,
          textBefore: bool, json: InlineTable.Json)
    requires FeaturesInstalled(d, rs, d0, p, f, v2Line, textBefore, json)
    ensures F.Describes(rs, p) && InstalledFits(rs, p) && !IsBlank(v2Line)
    ensures rs != [] && (p.features.Some? ==> p.features.value < |rs|)
    ensures p.features.Some? && p.multiAgent.Some? ==> p.multiAgent.value < |rs[p.features.value].body|
    ensures F.V2Region(rs, p) < |F.PutMultiAgent(rs, p)|
    ensures p.v2.at.Some? ==> p.v2.at.value < |F.PutMultiAgent(rs, p)[F.V2Region(rs, p)].body|
  {
    hide IsHeader, IsTable, Assigned, Only, Absent, Flat, Tracks, WellFormed, F.PutMultiAgent, F.Describes, IsBlank;
    hide V2Recorded, SettingRecorded, Installed, InlineLine, SetsTo, AfterEquals;
  }

  lemma {:induction false} FirstStepWellFormed(rs: seq<Region>, p: F.Plan)
    requires F.Describes(rs, p)
    ensures rs != [] && (p.features.Some? ==> p.features.value < |rs|)
    ensures p.features.Some? && p.multiAgent.Some? ==> p.multiAgent.value < |rs[p.features.value].body|
    ensures WellFormed(F.PutMultiAgent(rs, p))
  {
    hide IsTable, Assigned, Only, Absent, IsHeader, Place, MultiAgentLine, Scalar, AfterEquals, Header, IsBlank;
    hide IsManagedComment;
    F.PlanBounds(rs, p);
    F.DescribesBounds(rs, p);
    FeatureLinesRead();
    FeatureNames();
    FeatureKeys();
    HeaderReads(FEATURES);
    EmptyLineReads(ENABLED);
    if p.features.Some? {
      var k := p.features.value;
      var b := rs[k].body;
      assert NoHeaders(b);
      KeepWellFormed(rs, k, PutIn(b, p.multiAgent, |b|, MultiAgentLine()));
    } else {
      var last := rs[|rs| - 1].body;
      assert NoHeaders(last);
      KeepWellFormed(rs, |rs| - 1, last + [Own("")]);
      NewTableWellFormed(F.Gapped(rs, p.featuresGap), FEATURES, MultiAgentLine());
    }
  }

  lemma {:induction false} NewTableWellFormed(rs: seq<Region>, name: string, line: string)
    requires WellFormed(rs) && IsHeader(Header(name)) && !IsHeader(line)
    ensures WellFormed(rs + [F.NewTable(name, [line])])
  {
    hide IsHeader, Header;
    var t := F.NewTable(name, [line]);
    assert t.body == [Own(line)] && Headed(t);
  }
}
