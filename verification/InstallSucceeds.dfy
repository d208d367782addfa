/** Exactly when setting up succeeds: nothing fails after the first look at the file. */
module InstallSucceeds {
  import opened Common
  import opened ConfigLines
  import opened Document
  import opened Tracking
  import opened Regions
  import opened BodyEdits
  import opened ConfigEdit
  import opened RouteEdits
  import opened RouteRoundTrip
  import opened FeatureLines
  import opened V2Inline
  import F = FeatureRegions
  import opened FeatureInstall
  import opened FeaturePlan
  import opened FeatureRestore
  import opened ConfigRoundTrip
  import opened Separation
  import InlineTable

  // ---- The route ----

  lemma {:induction false} RouteNeedsPermission(d: Doc, url: string, replace: bool, replaceRealtime: bool, c: Codec)
    requires Valid(d) && InstallRoute(d, url, replace, replaceRealtime, c).Ok?
    ensures RouteAllowed(d.lines, replace, replaceRealtime, c)
  {
    hide ReadRoute, FindTop, PlaceRealtime, RemoveComments;
  }

  lemma {:induction false} RealtimeFindsRoom(d: Doc, rs: seq<Region>, d0: Doc, b: seq<TLine>, p: Plan, url: string,
          c: Codec)
    requires Fits(b, p) && QuotedWell(c, url) && QuotedWell(c, REALTIME_URL) && Readable(b, REALTIME, c)
    requires At(d, rs, d0) && rs[0].body == WithBase(b, p, BaseLine(url, c))
    ensures Valid(d) && PlaceRealtime(d, c).Ok?
  {
    hide Assigned, DecodeString, FindTop, Flat, Tracks, IsHeader, QuotedWell, Insert, Readable;
    PlacesAfterBase(b, p, url, c);
    InstalledLines(url, c);
    AtLines(d, rs, d0);
    ReadablePutIn(b, REALTIME, c, p.base, |b|, BaseLine(url, c));
    FindTopReadable(rs, c, REALTIME);
    BaseFound(rs, c, BaseSpot(b, p), url);
  }

  /** The document with the route line put in, and the keys' places before. */
  lemma {:induction false} RouteLinePut(d0: Doc, rs: seq<Region>, url: string, c: Codec) returns (d1: Doc, p: Plan)
    requires At(d0, rs, d0) && Valid(d0) && QuotedWell(c, url) && QuotedWell(c, REALTIME_URL)
    requires FindTop(d0.lines, BASE_URL, c).Ok? && FindTop(d0.lines, REALTIME, c).Ok?
    ensures WellFormed(rs) && Fits(rs[0].body, p) && Readable(rs[0].body, REALTIME, c)
    ensures var base := FindTop(d0.lines, BASE_URL, c).value;
      && (base.Some? ==> base.value.index < |d0.lines|)
      && d1 == if base.Some? then SetLine(d0, base.value.index, BaseLine(url, c))
           else Insert(d0, FirstTable(d0.lines), BaseLine(url, c))
    ensures Valid(d1) && At(d1, WithBody(rs, 0, WithBase(rs[0].body, p, BaseLine(url, c))), d0)
  {
    hide Assigned, DecodeString, FindTop, WithBody, BodyStart, Writable, Flat, Tracks, IsHeader, QuotedWell, Insert;
    hide IsManagedComment, Readable, WithBase, FirstTable, At, SetLine, OnlyMatch, Spot, Nowhere, Unbroken, NoBom;
    AtMeans(d0, rs, d0);
    NoHeadersFirst(rs);
    var b := rs[0].body;
    AtLines(d0, rs, d0);
    var base := FindTopCases(rs, c, BASE_URL);
    var realtime := FindTopCases(rs, c, REALTIME);
    p := Plan(base, realtime);
    SpotsDiffer(b, base, realtime);
    FitsBounds(b, p);
    FirstRegionStart(rs);
    TopIsFirst(rs);
    InstalledLines(url, c);
    DoPutIn(d0, rs, d0, 0, base, |b|, BaseLine(url, c));
    d1 := if base.Some? then SetLine(d0, base.value, BaseLine(url, c)) else Insert(d0, |b|, BaseLine(url, c));
    WithBaseIs(b, p, BaseLine(url, c));
    AtLines(d1, WithBody(rs, 0, WithBase(b, p, BaseLine(url, c))), d0);
  }

  lemma {:induction false} RouteStepsSucceed(d: Doc, d1: Doc, url: string, replace: bool, replaceRealtime: bool,
          c: Codec)
    requires Valid(d) && Valid(d1) && RouteAllowed(d.lines, replace, replaceRealtime, c)
    requires var base := FindTop(d.lines, BASE_URL, c).value;
      && (base.Some? ==> base.value.index < |d.lines|)
      && d1 == if base.Some? then SetLine(d, base.value.index, BaseLine(url, c))
           else Insert(d, FirstTable(d.lines), BaseLine(url, c))
    requires PlaceRealtime(d1, c).Ok?
    requires var d3 := RemoveComments(PlaceRealtime(d1, c).value, |PlaceRealtime(d1, c).value.lines|);
      FindTop(d3.lines, BASE_URL, c).Ok? && FindTop(d3.lines, BASE_URL, c).value.Some?
    ensures InstallRoute(d, url, replace, replaceRealtime, c).Ok?
  {
    hide FindTop, PlaceRealtime, RemoveComments, Insert, FirstTable, UrlLine;
  }

  lemma {:induction false} AllowedReads(lines: seq<string>, replace: bool, replaceRealtime: bool, c: Codec)
    requires RouteAllowed(lines, replace, replaceRealtime, c)
    ensures FindTop(lines, BASE_URL, c).Ok? && FindTop(lines, REALTIME, c).Ok?
  {
    hide FindTop;
  }

  lemma {:induction false} RouteSucceeds(d0: Doc, rs: seq<Region>, url: string, replace: bool, replaceRealtime: bool,
          c: Codec)
    requires At(d0, rs, d0) && Valid(d0) && Unmarked(Flat(rs)) && QuotedWell(c, url) && QuotedWell(c, REALTIME_URL)
    requires RouteAllowed(d0.lines, replace, replaceRealtime, c)
    ensures InstallRoute(d0, url, replace, replaceRealtime, c).Ok?
  {
    hide *;
    AllowedReads(d0.lines, replace, replaceRealtime, c);
    AtMeans(d0, rs, d0);
    NoHeadersFirst(rs);
    var d1, p := RouteLinePut(d0, rs, url, c);
    var b := rs[0].body;
    FitsBounds(b, p);
    var rs1 := WithBody(rs, 0, WithBase(b, p, BaseLine(url, c)));
    BodyTwice(rs, 0, WithBase(b, p, BaseLine(url, c)), WithBoth(b, p, BaseLine(url, c), RealtimeLine(c)));
    RealtimeFindsRoom(d1, rs1, d0, b, p, url, c);
    RealtimeIsPlaced(d1, rs1, d0, b, p, url, c);
    FinishInstall(d0, rs, PlaceRealtime(d1, c).value, b, p, url, c);
    RouteStepsSucceed(d0, d1, url, replace, replaceRealtime, c);
  }

  // ---- The features ----

  predicate BooleanLine(line: string, key: string) {
    Assigned(line, key).Some? && IsBoolean(Scalar(Assigned(line, key).value))
  }

  /** A setting that is there reads exactly when its line does. */
  lemma {:induction false} BooleanReads(rs: seq<Region>, table: string, k: nat, key: string, at: Option<nat>)
    requires WellFormed(rs) && IsName(table) && Only(rs, table, k) && Place(rs[k].body, key, at)
    ensures BooleanIn(Lines(Flat(rs)), table, key).Ok? <==> (at.Some? ==> BooleanLine(rs[k].body[at.value].line, key))
    ensures BooleanIn(Lines(Flat(rs)), table, key).Ok? ==>
      BooleanIn(Lines(Flat(rs)), table, key).value.at.Some? == at.Some?
  {
    hide Assigned, Flat, IsHeader, IsTable, RawIn, Scalar, IsBoolean, WellFormed;
    F.RawIs(rs, k, table, key, at);
  }

  lemma {:induction false} FeatureSets(d: Doc, rs: seq<Region>, d0: Doc, key: string, line: string, k: Option<nat>,
          at: Option<nat>)
    requires At(d, rs, d0) && Valid(d) && Writable(line) && F.TableAt(rs, FEATURES, k)
    requires k.Some? ==> k.value < |rs| && Place(rs[k.value].body, key, at)
    requires k.Some? && at.Some? ==> BooleanLine(rs[k.value].body[at.value].line, key)
    ensures SetFeature(d, key, line).Ok?
  {
    hide IsHeader, Flat, Tracks, Insert, IsTable, Unbroken, NoBom, Assigned, FindTable, RawIn, BooleanLine, BooleanIn;
    hide WellFormed, Only;
    hide Absent, AppendTable, Header;
    F.Names();
    FeatureNames();
    AtLines(d, rs, d0);
    AtMeans(d, rs, d0);
    if k.Some? {
      BooleanReads(rs, FEATURES, k.value, key, at);
      TableIs(rs, FEATURES, k.value);
    } else {
      AbsentBoolean(rs, FEATURES, key);
      TableIsNot(rs, FEATURES);
      DoAppendTable(d, rs, d0, FEATURES);
      AbsentGapped(rs, FEATURES, LastIsText(d.lines));
      InsertInNew(AppendTable(d, FEATURES), F.Gapped(rs, LastIsText(d.lines)), d0, FEATURES, line);
    }
  }

  lemma {:induction false} AbsentBoolean(rs: seq<Region>, table: string, key: string)
    requires WellFormed(rs) && IsName(table) && Absent(rs, table)
    ensures BooleanIn(Lines(Flat(rs)), table, key).Ok? && BooleanIn(Lines(Flat(rs)), table, key).value.at.None?
  {
    hide Flat, IsHeader, RawIn;
    F.RawIsNot(rs, table, key);
  }

  lemma {:induction false} FirstStepSucceeds(d: Doc, rs: seq<Region>, d0: Doc, p: F.Plan)
    requires At(d, rs, d0) && Valid(d) && F.Describes(rs, p) && BooleanIn(d.lines, FEATURES, MULTI_AGENT).Ok?
    ensures SetFeature(d, MULTI_AGENT, MultiAgentLine()).Ok?
  {
    hide Flat, IsHeader, IsTable, BooleanIn, Tracks, SetFeature, MultiAgentLine, Assigned, Only, Absent, BooleanLine;
    hide WellFormed, Scalar;
    hide AfterEquals;
    F.Names();
    FeatureLinesRead();
    AtLines(d, rs, d0);
    F.PlanBounds(rs, p);
    if p.features.Some? {
      BooleanReads(rs, FEATURES, p.features.value, MULTI_AGENT, p.multiAgent);
    }
    FeatureSets(d, rs, d0, MULTI_AGENT, MultiAgentLine(), p.features, p.multiAgent);
  }

  /** The first step leaves the line of `multi_agent_v2` as it is. */
  lemma {:induction false} V2LineStays(rs: seq<Region>, p: F.Plan)
    requires F.Describes(rs, p) && p.v2.at.Some?
    ensures p.features.Some? && p.multiAgent.Some? ==> p.multiAgent.value < |rs[p.features.value].body|
    ensures var rs1, k, i := F.PutMultiAgent(rs, p), F.V2Region(rs, p), p.v2.at.value;
      && k < |rs| && k < |rs1| && i < |rs[k].body| && i < |rs1[k].body|
      && Spot(rs[k].body, V2Key(p), i) && rs1[k].body[i].line == rs[k].body[i].line
  {
    hide IsHeader, IsTable, Assigned, MultiAgentLine, WellFormed, Only, Absent, F.PutMultiAgent;
    F.PlanBounds(rs, p);
    F.DescribesBounds(rs, p);
    AfterMultiAgent(rs, p);
    PlacesAfterMultiAgent(rs, p);
  }

  /** A `multi_agent_v2` that is neither inline nor in a table of its own is a boolean. */
  lemma {:induction false} ScalarV2Reads(rs: seq<Region>, p: F.Plan, json: InlineTable.Json)
    requires F.Describes(rs, p) && FindV2(Lines(Flat(rs)), json).Ok?
      && FindV2(Lines(Flat(rs)), json).value.inline == p.v2.inline
    requires p.v2.at.Some? && !p.v2.inline
    ensures F.V2Region(rs, p) < |rs| && p.v2.at.value < |rs[F.V2Region(rs, p)].body|
    ensures BooleanLine(rs[F.V2Region(rs, p)].body[p.v2.at.value].line, V2Key(p))
  {
    hide Flat, IsHeader, IsTable, RawIn, Assigned, WellFormed, Only, Absent, Scalar, InlineTable.Parse, FindTable;
    hide Place, IsBoolean;
    hide BooleanLine, BooleanIn;
    F.Names();
    F.PlanBounds(rs, p);
    V2LineStays(rs, p);
    var lines, k := Lines(Flat(rs)), F.V2Region(rs, p);
    if p.v2.inTable {
      TableIs(rs, V2_TABLE, k);
      BooleanReads(rs, V2_TABLE, k, ENABLED, p.v2.at);
    } else {
      TableIsNot(rs, V2_TABLE);
      F.RawIs(rs, k, FEATURES, MULTI_AGENT_V2, p.v2.at);
      RawBoolean(rs, k, p.v2.at.value, json);
    }
  }

  lemma {:induction false} RawBoolean(rs: seq<Region>, k: nat, i: nat, json: InlineTable.Json)
    requires k < |rs| && Spot(rs[k].body, MULTI_AGENT_V2, i) && FindTable(Lines(Flat(rs)), V2_TABLE) == Ok(None)
    requires RawIn(Lines(Flat(rs)), FEATURES, MULTI_AGENT_V2) == Ok(F.RawAt(rs, k, FEATURES, MULTI_AGENT_V2, Some(i)))
    requires FindV2(Lines(Flat(rs)), json).Ok? && !FindV2(Lines(Flat(rs)), json).value.inline
    ensures BooleanLine(rs[k].body[i].line, MULTI_AGENT_V2)
  {
    hide Flat, RawIn, Assigned, Scalar, InlineTable.Parse, FindTable, IsBoolean, BooleanIn;
  }

  lemma {:induction false} SecondStepSucceeds(d: Doc, d1: Doc, rs: seq<Region>, d0: Doc, p: F.Plan,
          json: InlineTable.Json)
    requires F.Describes(rs, p) && OriginalTables(rs) && At(d, rs, d0) && FindV2(d.lines, json).Ok?
    requires V2Recorded(rs, p, FindV2(d.lines, json).value, json)
    requires p.features.Some? && p.multiAgent.Some? ==> p.multiAgent.value < |rs[p.features.value].body|
    requires At(d1, F.PutMultiAgent(rs, p), d0) && Valid(d1)
    ensures SetV2(d1, FindV2(d.lines, json).value, json).Ok?
  {
    hide IsHeader, IsTable, Assigned, MultiAgentLine, WellFormed, Only, Absent, F.PutMultiAgent, Tracks, Flat;
    hide AfterEquals, FindV2;
    hide IsBlank, IsManagedComment, Writable, V2Line, V2TableLine, Scalar, BooleanIn, FindTable, SetFeature;
    hide ManagedV2Line, BooleanLine;
    F.Names();
    FeatureLinesRead();
    F.PlanBounds(rs, p);
    F.DescribesBounds(rs, p);
    PlacesAfterMultiAgent(rs, p);
    AtLines(d, rs, d0);
    var rs1, k, prev := F.PutMultiAgent(rs, p), F.V2Region(rs, p), FindV2(d.lines, json).value;
    AtLines(d1, rs1, d0);
    AtMeans(d1, rs1, d0);
    if p.v2.inline {
      InlineV2Succeeds(d1, rs, d0, p, prev, json);
    } else {
      if p.v2.at.Some? {
        V2LineStays(rs, p);
        ScalarV2Reads(rs, p, json);
      }
      if p.v2.inTable {
        BooleanReads(rs1, V2_TABLE, k, ENABLED, p.v2.at);
        TableIs(rs1, V2_TABLE, k);
      } else {
        FeatureSets(d1, rs1, d0, MULTI_AGENT_V2, V2Line(), Some(k), p.v2.at);
      }
    }
  }

  lemma {:induction false} InlineV2Succeeds(d: Doc, rs: seq<Region>, d0: Doc, p: F.Plan, prev: Previous,
          json: InlineTable.Json)
    requires F.Describes(rs, p) && V2Recorded(rs, p, prev, json) && OriginalTables(rs) && p.v2.inline
    requires p.features.Some? && p.multiAgent.Some? ==> p.multiAgent.value < |rs[p.features.value].body|
    requires At(d, F.PutMultiAgent(rs, p), d0) && Valid(d)
    ensures SetV2(d, prev, json).Ok?
  {
    hide IsHeader, IsTable, Assigned, MultiAgentLine, WellFormed, Only, Absent, F.PutMultiAgent, Tracks, Flat;
    hide AfterEquals;
    hide IsBlank, IsManagedComment, Unbroken, InlineTable.Parse, InlineTable.ValueOf, Scalar, ManagedV2Line, Settable;
    V2LineUntouched(rs, p);
    var rs1, k, i := F.PutMultiAgent(rs, p), p.features.value, p.v2.at.value;
    var v :| InlineLine(prev.at.value.line, v, json);
    LineIsUnbroken(d, rs1, d0, k, i);
    var line, v' := InlineManaged(prev.at.value.line, v, json, prev);
    DoPutIn(d, rs1, d0, k, p.v2.at, 0, line);
  }

  predicate DepthReads(line: string) {
    Assigned(line, MAX_DEPTH).Some? && IsDepth(WithoutUnderscores(Scalar(Assigned(line, MAX_DEPTH).value)))
  }

  lemma {:induction false} DepthFound(rs: seq<Region>, k: Option<nat>, at: Option<nat>)
    requires WellFormed(rs) && F.TableAt(rs, AGENTS, k) && (k.Some? ==> Place(rs[k.value].body, MAX_DEPTH, at))
      && (k.None? ==> at.None?)
    ensures FindDepth(Lines(Flat(rs))).Ok? <==> (at.Some? ==> DepthReads(rs[k.value].body[at.value].line))
    ensures FindDepth(Lines(Flat(rs))).Ok? ==> FindDepth(Lines(Flat(rs))).value.at.Some? == at.Some?
  {
    hide Assigned, Flat, IsHeader, IsTable, RawIn, Scalar, IsDepth, WithoutUnderscores, WellFormed, Only, Absent;
    F.Names();
    if k.Some? {
      F.RawIs(rs, k.value, AGENTS, MAX_DEPTH, at);
    } else {
      F.RawIsNot(rs, AGENTS, MAX_DEPTH);
    }
  }

  lemma {:induction false} ThirdStepSucceeds(d: Doc, rs: seq<Region>, d0: Doc, k: Option<nat>, at: Option<nat>,
          depth: nat)
    requires At(d, rs, d0) && Valid(d) && 1 <= depth <= MAX_SAFE
    requires F.TableAt(rs, AGENTS, k) && (k.Some? ==> Place(rs[k.value].body, MAX_DEPTH, at)) && (k.None? ==> at.None?)
    requires at.Some? ==> DepthReads(rs[k.value].body[at.value].line)
    ensures SetDepth(d, depth).Ok?
  {
    hide IsHeader, Flat, Tracks, Insert, IsTable, Unbroken, NoBom, Assigned, FindTable, RawIn, FindDepth, DepthReads;
    hide WellFormed;
    hide AppendTable, IsBlank, Header, BeforeBlanks, DepthLine, Only, Absent, Place, AfterEquals;
    F.Names();
    FeatureNames();
    DepthLineReads(depth);
    AtLines(d, rs, d0);
    AtMeans(d, rs, d0);
    DepthFound(rs, k, at);
    if k.Some? {
      TableIs(rs, AGENTS, k.value);
    } else {
      TableIsNot(rs, AGENTS);
      DoAppendTable(d, rs, d0, AGENTS);
      AbsentGapped(rs, AGENTS, LastIsText(d.lines));
      InsertInNew(AppendTable(d, AGENTS), F.Gapped(rs, LastIsText(d.lines)), d0, AGENTS, DepthLine(depth));
    }
  }

  /** Features that read can be set: no step fails on what an earlier one wrote. */
  lemma {:induction false} FeaturesSucceed(d: Doc, rs: seq<Region>, d0: Doc, json: InlineTable.Json)
    requires At(d, rs, d0) && Valid(d) && OriginalTables(rs) && FeaturesReadable(d.lines, json)
    ensures InstallFeatures(d, json).Ok?
  {
    hide *;
    ReadableMeans(d.lines, json);
    var p := PlanOf(d, rs, d0, json);
    F.PlanBounds(rs, p);
    F.DescribesBounds(rs, p);
    FirstStepSucceeds(d, rs, d0, p);
    MultiAgentStep(d, rs, d0, p);
    var d1, prev := SetFeature(d, MULTI_AGENT, MultiAgentLine()).value, FindV2(d.lines, json).value;
    SecondStepSucceeds(d, d1, rs, d0, p, json);
    var line := V2Step(d1, rs, d0, p, prev, json);
    AgentsUntouched(rs, p, line);
    var d2, rs2 := SetV2(d1, prev, json).value, F.PutV2(F.PutMultiAgent(rs, p), F.V2Region(rs, p), p.v2.at, line);
    AtLines(d, rs, d0);
    AtMeans(d, rs, d0);
    DescribesAgents(rs, p);
    DepthFound(rs, p.agents, p.depth);
    DepthIsRaw(d.lines);
    DepthLineStays(rs, rs2, p);
    ThirdStepSucceeds(d2, rs2, d0, p.agents, p.depth, InstalledDepth(FindDepth(d.lines).value));
    AllStepsSucceed(d, json);
  }

  lemma {:induction false} DescribesAgents(rs: seq<Region>, p: F.Plan)
    requires F.Describes(rs, p)
    ensures F.TableAt(rs, AGENTS, p.agents) && (p.agents.None? ==> p.depth.None?)
    ensures p.agents.Some? ==> p.agents.value < |rs| && Place(rs[p.agents.value].body, MAX_DEPTH, p.depth)
  {
    hide IsTable, IsHeader, Place, WellFormed;
  }

  lemma {:induction false} DepthLineStays(rs: seq<Region>, rs2: seq<Region>, p: F.Plan)
    requires p.agents.Some? ==> p.agents.value < |rs| && p.agents.value < |rs2|
    requires p.agents.Some? && p.depth.Some? ==> p.depth.value < |rs[p.agents.value].body|
    requires p.agents.Some? ==>
      rs2[p.agents.value].body == rs[p.agents.value].body + FeaturesGapUnder(rs, p, p.agents.value)
    ensures p.agents.Some? && p.depth.Some? ==>
      && p.depth.value < |rs2[p.agents.value].body|
      && rs2[p.agents.value].body[p.depth.value] == rs[p.agents.value].body[p.depth.value]
  {
  }

  lemma {:induction false} AllStepsSucceed(d: Doc, json: InlineTable.Json)
    requires Valid(d) && BooleanIn(d.lines, FEATURES, MULTI_AGENT).Ok? && FindV2(d.lines, json).Ok?
      && FindDepth(d.lines).Ok?
    requires SetFeature(d, MULTI_AGENT, MultiAgentLine()).Ok?
    requires var d1 := SetFeature(d, MULTI_AGENT, MultiAgentLine()).value;
      && SetV2(d1, FindV2(d.lines, json).value, json).Ok?
      && SetDepth(SetV2(d1, FindV2(d.lines, json).value, json).value, InstalledDepth(FindDepth(d.lines).value)).Ok?
    ensures InstallFeatures(d, json).Ok?
  {
    hide BooleanIn, FindV2, FindDepth, SetFeature, SetV2, SetDepth, InstalledDepth, LastIsText, MultiAgentLine;
  }

  // ---- The whole file ----

  lemma {:induction false} ReadableAlike(rs: seq<Region>, rs': seq<Region>, json: InlineTable.Json)
    requires Alike(rs, rs') && FeaturesReadable(Lines(Flat(rs)), json)
    ensures FeaturesReadable(Lines(Flat(rs')), json)
  {
    hide Alike, BooleanIn, FindV2, FindDepth, Flat, IsName, IsKey, SameFinding;
    F.Names();
    FeatureKeys();
    BooleanAlike(rs, rs', FEATURES, MULTI_AGENT);
    V2Alike(rs, rs', json);
    DepthAlike(rs, rs');
  }

  lemma {:induction false} FirstAlikeBoth(rs: seq<Region>, b: seq<TLine>)
    requires rs != [] && WellFormed(rs) && WellFormed(WithBody(rs, 0, b))
    ensures Alike(WithBody(rs, 0, b), rs) && Alike(rs, WithBody(rs, 0, b))
  {
    hide IsHeader;
  }

  /** The routed file, as regions. */
  lemma {:induction false} RoutedFile(d0: Doc, rs: seq<Region>, url: string, replace: bool, replaceRealtime: bool,
          c: Codec)
    returns (d1: Doc, p: Plan, body: seq<TLine>)
    requires At(d0, rs, d0) && Valid(d0) && OriginalRegions(rs) && Unmarked(Flat(rs)) && QuotedWell(c, url)
      && QuotedWell(c, REALTIME_URL)
    requires InstallRoute(d0, url, replace, replaceRealtime, c).Ok?
    ensures d1 == InstallRoute(d0, url, replace, replaceRealtime, c).value.0 && Parse(Render(d1)) == d1
    ensures rs != [] && Fits(rs[0].body, p) && Valid(d1) && At(d1, WithBody(rs, 0, body), d0)
      && OriginalTables(WithBody(rs, 0, body))
    ensures (p.base.Some? ==> p.base.value < |rs[0].body|) && (p.realtime.Some? ==> p.realtime.value < |rs[0].body|)
    ensures body == RouteBody(rs[0].body, p, BaseLine(url, c), RealtimeLine(c))
  {
    hide *;
    AtMeans(d0, rs, d0);
    NoHeadersFirst(rs);
    p := RouteInstalls(d0, rs, url, replace, replaceRealtime, c);
    d1 := InstallRoute(d0, url, replace, replaceRealtime, c).value.0;
    var before := InstallRoute(d0, url, replace, replaceRealtime, c).value.1;
    RouteIn(d1, rs, d0, p, before, url, c);
    RouteFits(d1, rs, d0, p, before, url, c);
    body := RouteBody(rs[0].body, p, BaseLine(url, c), RealtimeLine(c));
    ReadsBack(d1, WithBody(rs, 0, body), d0);
    RoutedTables(rs, body);
  }

  lemma {:induction false} RouteFits(d: Doc, rs: seq<Region>, d0: Doc, p: Plan, before: RouteBefore, url: string,
          c: Codec)
    requires RouteInstalled(d, rs, d0, p, before, url, c)
    ensures rs != [] && Fits(rs[0].body, p)
  {
    hide IsHeader, Assigned, RouteBody, Tracks, Readable, Recorded, At;
  }

  /** Routing changes no setting of the features. */
  lemma {:induction false} ReadableAfterRoute(d0: Doc, rs: seq<Region>, d1: Doc, body: seq<TLine>,
          json: InlineTable.Json)
    requires rs != [] && At(d0, rs, d0) && At(d1, WithBody(rs, 0, body), d0)
    ensures FeaturesReadable(d1.lines, json) <==> FeaturesReadable(d0.lines, json)
  {
    hide FeaturesReadable, Flat, Tracks, IsHeader, WellFormed;
    AtLines(d0, rs, d0);
    AtLines(d1, WithBody(rs, 0, body), d0);
    AtMeans(d0, rs, d0);
    AtMeans(d1, WithBody(rs, 0, body), d0);
    FirstAlikeBoth(rs, body);
    if FeaturesReadable(d0.lines, json) {
      ReadableAlike(rs, WithBody(rs, 0, body), json);
    }
    if FeaturesReadable(d1.lines, json) {
      ReadableAlike(WithBody(rs, 0, body), rs, json);
    }
  }

  /**
   * Setting up succeeds exactly when the route may be installed and, in Compatibility V1, the settings of the
   * features read, both on the file as it was: no step ever fails on what an earlier one wrote.
   */
  lemma {:induction false} InstallsExactlyWhen(text: string, url: string, compatibility: bool, replace: bool,
          replaceRealtime: bool, c: Codec)
    requires Terminated(text) && NoMarkers(SplitLines(text)) && QuotedWell(c, url) && QuotedWell(c, REALTIME_URL)
    ensures Install(text, url, compatibility, replace, replaceRealtime, c).Ok? <==>
      && RouteAllowed(SplitLines(text), replace, replaceRealtime, c)
      && (compatibility ==> FeaturesReadable(SplitLines(text), c.json))
  {
    hide *;
    var d0 := Parse(text);
    TerminatedIsClean(text);
    SplitLinesAgree(text);
    var rs := Begin(d0);
    AtLines(d0, rs, d0);
    InstallIs(text, url, compatibility, replace, replaceRealtime, c);
    if InstallRoute(d0, url, replace, replaceRealtime, c).Ok? {
      RouteNeedsPermission(d0, url, replace, replaceRealtime, c);
      var d1, p, body := RoutedFile(d0, rs, url, replace, replaceRealtime, c);
      ReadableAfterRoute(d0, rs, d1, body, c.json);
      ReadableMeans(d1.lines, c.json);
      if InstallFeatures(d1, c.json).Ok? {
        StepsOf(d1, c.json);
      }
      if FeaturesReadable(d1.lines, c.json) {
        FeaturesSucceed(d1, WithBody(rs, 0, body), d0, c.json);
      }
    } else if RouteAllowed(d0.lines, replace, replaceRealtime, c) {
      RouteSucceeds(d0, rs, url, replace, replaceRealtime, c);
    }
  }

  lemma {:induction false} InstallIs(text: string, url: string, compatibility: bool, replace: bool,
          replaceRealtime: bool, c: Codec)
    ensures var route := InstallRoute(Parse(text), url, replace, replaceRealtime, c);
      Install(text, url, compatibility, replace, replaceRealtime, c).Ok? <==>
        route.Ok? && (compatibility ==> InstallFeatures(Parse(Render(route.value.0)), c.json).Ok?)
  {
    hide Parse, Render, InstallRoute, InstallFeatures;
  }

  // ---- The gap, from the original file ----

  /** The condition of the left gap on the file before any edit. */
  predicate WillLeaveGap(lines: seq<string>, c: Codec) {
    LeavesGap(lines) && (FirstTable(lines) < |lines| || FindTop(lines, BASE_URL, c) != Ok(None))
  }

  lemma {:induction false} LastOfRouted(b: seq<TLine>, p: Plan, url: string, c: Codec)
    requires Fits(b, p) && QuotedWell(c, url) && QuotedWell(c, REALTIME_URL)
    requires (p.base.Some? ==> p.base.value < |b|) && (p.realtime.Some? ==> p.realtime.value < |b|)
    ensures TextLast(RouteBody(b, p, BaseLine(url, c), RealtimeLine(c))) <==> p.base.None? || TextLast(b)
  {
    hide IsBlank, Assigned, BaseLine, RealtimeLine;
    InstalledLines(url, c);
    RouteKeys();
    PlacedIsVisible(b, BASE_URL, p.base);
    PlacedIsVisible(b, REALTIME, p.realtime);
    var b2 := WithBoth(b, p, BaseLine(url, c), RealtimeLine(c));
    var b3 := InsertAt(b2, BaseSpot(b, p), Own(ROUTE_COMMENT));
    assert BaseSpot(b, p) < |b2|;
    assert b3[|b3| - 1] == b2[|b2| - 1];
  }

  lemma {:induction false} LastOfFile(rs: seq<Region>, body: seq<TLine>)
    requires |rs| >= 2 && WellFormed(rs)
    ensures TextLast(Flat(WithBody(rs, 0, body))) == TextLast(Flat(rs))
    ensures FirstTable(Lines(Flat(rs))) < |Lines(Flat(rs))|
  {
    hide IsHeader, Flat, IsBlank;
    assert Headed(rs[|rs| - 1]);
    LastLine(rs);
    LastLine(WithBody(rs, 0, body));
    TopIsFirst(rs);
    HeadIsThere(rs, 1);
    FirstRegionSplits(rs);
    FirstRegionEnds(rs);
  }

  lemma {:induction false} FirstRegionEnds(rs: seq<Region>)
    requires |rs| >= 2 && WellFormed(rs)
    ensures Start(rs, 1) == |rs[0].body|
  {
    hide IsHeader;
    assert rs[..1] == [rs[0]];
    FirstRegionSplits(rs[..1]);
    assert rs[..1][1..] == [];
  }

  lemma {:induction false} OneRegion(rs: seq<Region>)
    requires |rs| == 1 && WellFormed(rs)
    ensures Flat(rs) == rs[0].body && FirstTable(Lines(Flat(rs))) == |Lines(Flat(rs))|
  {
    hide IsHeader;
    TopIsFirst(rs);
    assert rs[1..] == [];
    FirstRegionSplits(rs);
  }

  lemma {:induction false} SameAppends(rs: seq<Region>, body: seq<TLine>, p: F.Plan)
    requires rs != []
    ensures AppendsAtEnd(WithBody(rs, 0, body), p) == AppendsAtEnd(rs, p)
  {
  }

  lemma {:induction false} BaseIsFound(rs: seq<Region>, p: Plan, c: Codec)
    requires WellFormed(rs) && Fits(rs[0].body, p) && FindTop(Lines(Flat(rs)), BASE_URL, c).Ok?
    ensures FindTop(Lines(Flat(rs)), BASE_URL, c) == Ok(None) <==> p.base.None?
  {
    hide Flat, IsHeader, Assigned, FindTop, Readable;
    var at := FindTopCases(rs, c, BASE_URL);
    SamePlace(rs[0].body, BASE_URL, at, p.base);
  }

  /** The gap is left exactly when a condition on the original file holds. */
  lemma {:induction false} GapForeseen(text: string, url: string, replace: bool, replaceRealtime: bool, c: Codec)
    requires Terminated(text) && NoMarkers(SplitLines(text)) && QuotedWell(c, url) && QuotedWell(c, REALTIME_URL)
    requires Install(text, url, true, replace, replaceRealtime, c).Ok?
    ensures InstallRoute(Parse(text), url, replace, replaceRealtime, c).Ok?
    ensures LeavesGap(InstallRoute(Parse(text), url, replace, replaceRealtime, c).value.0.lines) <==>
      WillLeaveGap(SplitLines(text), c)
  {
    hide *;
    var d0 := Parse(text);
    TerminatedIsClean(text);
    SplitLinesAgree(text);
    var rs := Begin(d0);
    AtLines(d0, rs, d0);
    AtMeans(d0, rs, d0);
    InstallIs(text, url, true, replace, replaceRealtime, c);
    RouteNeedsPermission(d0, url, replace, replaceRealtime, c);
    var d1, rp, body := RoutedFile(d0, rs, url, replace, replaceRealtime, c);
    var rs1 := WithBody(rs, 0, body);
    StepsOf(d1, c.json);
    ReadableMeans(d1.lines, c.json);
    var p := PlanOf(d1, rs1, d0, c.json);
    BackToOriginal(rs, body);
    DescribesFirst(rs1, p, rs[0].body);
    LeavesGapIs(d1, rs1, d0, p);
    LeavesGapIs(d0, rs, d0, p);
    SameAppends(rs, body, p);
    AllowedReads(d0.lines, replace, replaceRealtime, c);
    BaseIsFound(rs, rp, c);
    if |rs| >= 2 {
      LastOfFile(rs, body);
    } else {
      AtMeans(d1, rs1, d0);
      OneRegion(rs);
      RegionSize(rs, body);
      OneRegion(rs1);
      LastOfRouted(rs[0].body, rp, url, c);
    }
    ForeseenIs(d0.lines, c);
  }

  lemma {:induction false} RegionSize(rs: seq<Region>, body: seq<TLine>)
    requires rs != []
    ensures |WithBody(rs, 0, body)| == |rs| && WithBody(rs, 0, body)[0].body == body
  {
  }

  lemma {:induction false} BackToOriginal(rs: seq<Region>, body: seq<TLine>)
    requires rs != []
    ensures WithBody(rs, 0, body) != [] && WithBody(WithBody(rs, 0, body), 0, rs[0].body) == rs
  {
  }

  lemma {:induction false} ForeseenIs(lines: seq<string>, c: Codec)
    ensures WillLeaveGap(lines, c) <==>
      LeavesGap(lines) && (FirstTable(lines) < |lines| || FindTop(lines, BASE_URL, c) != Ok(None))
  {
  }

  // ---- A file that does not come back ----

  const ODD: string := "[x]\n\n"

  lemma {:induction false} OddLines()
    ensures Terminated(ODD) && SplitLines(ODD) == ["[x]", ""] && NoMarkers(["[x]", ""])
      && Parse(ODD).lines == ["[x]", ""]
  {
    hide IsHeader, RenderBody, Parse, SplitLines;
    var d := Doc(["[x]", ""], ["\n", "\n"], false);
    assert Render(d) == ODD by {
      RenderStep(d.lines, d.endings);
      RenderStep([""], ["\n"]);
      EmptyRenders();
      assert d.lines[1..] == [""] && d.endings[1..] == ["\n"];
      assert [""][1..] == [] && ["\n"][1..] == [];
    }
    RenderReadsBack(d);
    SplitLinesAgree(ODD);
    OwnerIs();
    RouteCommentIs();
    assert OWNER <= OLD_COMMENT;
  }

  lemma {:induction false} OddHeader()
    ensures IsHeader("[x]") && !IsHeader("") && Assigned("", ENABLED).None?
    ensures !IsTable("[x]", FEATURES) && !IsTable("[x]", AGENTS) && !IsTable("[x]", V2_TABLE)
    ensures !IsTable("", FEATURES) && !IsTable("", AGENTS) && !IsTable("", V2_TABLE)
    ensures IsBlank("")
  {
  }

  lemma {:induction false} NoSuchTable(name: string)
    requires !IsTable("[x]", name) && !IsTable("", name)
    ensures FindTable(["[x]", ""], name) == Ok(None)
  {
    hide IsTable;
    var hits := seq(2, i requires 0 <= i < 2 => IsTable(["[x]", ""][i], name));
    WhereNone(hits);
  }

  lemma {:induction false} OddIsOpen(replace: bool, replaceRealtime: bool, c: Codec)
    ensures var lines := ["[x]", ""];
      RouteAllowed(lines, replace, replaceRealtime, c) && FeaturesReadable(lines, c.json) && WillLeaveGap(lines, c)
  {
    hide IsHeader, IsTable, IsBlank, Assigned, FindTable;
    OddHeader();
    NoSuchTable(FEATURES);
    NoSuchTable(V2_TABLE);
    NoSuchTable(AGENTS);
  }

  /** A table and an empty last line: connecting and disconnecting in Compatibility V1 adds another empty line. */
  lemma {:induction false} GapExample(url: string, c: Codec)
    requires QuotedWell(c, url) && QuotedWell(c, REALTIME_URL)
    ensures Install(ODD, url, true, false, false, c).Ok?
    ensures var (installed, j) := Install(ODD, url, true, false, false, c).value;
      && Restore(installed, j, c).Ok? && Restore(installed, j, c) != Ok(ODD)
      && SplitLines(Restore(installed, j, c).value) == ["[x]", "", ""]
  {
    hide *;
    OddLines();
    OddIsOpen(false, false, c);
    InstallsExactlyWhen(ODD, url, true, false, false, c);
    GapForeseen(ODD, url, false, false, c);
    CompatibilityRoundTrip(ODD, url, false, false, c);
    assert ["[x]", ""] + [""] == ["[x]", "", ""];
  }
}
