/** Verifying and restoring the Compatibility V1 features, in the order the editor restores them. */
module FeatureRestore {
  import opened Common
  import opened ConfigLines
  import opened Document
  import opened Tracking
  import opened Regions
  import opened BodyEdits
  import opened ConfigEdit
  import opened FeatureLines
  import opened FeatureRegions
  import opened FeatureInstall
  import opened FeaturePlan
  import opened TableRemoval
  import opened V2Inline
  import InlineTable

  // ---- After the depth edit ----

  /** Room for the depth edit. */
  ghost predicate DepthFits(rs: seq<Region>, p: Plan) {
    && rs != [] && TableAt(rs, AGENTS, p.agents)
    && (p.agents.Some? ==> p.agents.value < |rs| && Place(rs[p.agents.value].body, MAX_DEPTH, p.depth))
    && (p.agents.Some? && p.depth.Some? ==> p.depth.value < |rs[p.agents.value].body|)
    && (p.agents.Some? && p.depth.None? ==> p.slot <= |rs[p.agents.value].body|)
  }

  function AgentsRegion(rs: seq<Region>, p: Plan): nat {
    if p.agents.Some? then p.agents.value else |rs|
  }

  function DepthSpot(rs: seq<Region>, p: Plan): nat {
    if p.agents.Some? && p.agents.value < |rs| then SpotAfter(rs[p.agents.value].body, p.depth, p.slot) else 0
  }

  lemma {:induction false} DepthPlaces(rs: seq<Region>, p: Plan, depth: nat)
    requires DepthFits(rs, p) && 1 <= depth <= MAX_SAFE
    ensures var r, k, i := PutDepth(rs, p, DepthLine(depth)), AgentsRegion(rs, p), DepthSpot(rs, p);
      && Only(r, AGENTS, k) && k < |r| && Spot(r[k].body, MAX_DEPTH, i) && r[k].body[i].line == DepthLine(depth)
  {
    hide IsHeader, IsTable, Assigned, Only, Absent, DepthLine, Header, Scalar, AfterEquals, Writable, IsBlank;
    hide IsManagedComment;
    hide Decimal;
    Names();
    FeatureNames();
    DepthLineReads(depth);
    if p.agents.Some? {
      var k := p.agents.value;
      PutInPlaces(rs[k].body, MAX_DEPTH, p.depth, p.slot, DepthLine(depth));
      TableAfterBody(rs, k, PutIn(rs[k].body, p.depth, p.slot, DepthLine(depth)), AGENTS, p.agents);
    } else {
      TableGapped(rs, AGENTS, None, p.agentsGap);
      OnlyNewTable(Gapped(rs, p.agentsGap), AGENTS, [DepthLine(depth)]);
      assert NewTable(AGENTS, [DepthLine(depth)]).body == [Own(DepthLine(depth))];
    }
  }

  /** The other tables, and what is in them, stay; a gap may follow. */
  lemma {:induction false} DepthKeepsTable(rs: seq<Region>, p: Plan, line: string, name: string, at: Option<nat>)
    requires DepthFits(rs, p) && TableAt(rs, name, at) && name != AGENTS && IsName(name)
    ensures TableAt(PutDepth(rs, p, line), name, at)
  {
    hide IsHeader, IsTable, Assigned, Only, Absent, Header, Place;
    FeatureNames();
    if p.agents.Some? {
      var k := p.agents.value;
      TableAfterBody(rs, k, PutIn(rs[k].body, p.depth, p.slot, line), name, at);
    } else {
      TableGapped(rs, name, at, p.agentsGap);
      TableAfterTable(Gapped(rs, p.agentsGap), AGENTS, [line], name, at);
    }
  }

  lemma {:induction false} DepthKeepsPlace(rs: seq<Region>, p: Plan, line: string, k: nat, key: string, at: Option<nat>)
    requires DepthFits(rs, p) && k < |rs| && p.agents != Some(k) && IsKey(key) && Place(rs[k].body, key, at)
    ensures k < |PutDepth(rs, p, line)| && Place(PutDepth(rs, p, line)[k].body, key, at)
    ensures at.Some? ==> PutDepth(rs, p, line)[k].body[at.value] == rs[k].body[at.value]
  {
    hide Assigned;
    DepthFrame(rs, p, line, k, rs[k].body);
    GapAssigns(p.agentsGap, key);
    NothingAssigns(key);
    AppendOther(rs[k].body, key, at, GapUnder(rs, p, k));
  }

  // ---- After the second and third edits ----

  /** What the searches need of the installed file. */
  ghost predicate Ready(rs: seq<Region>, p: Plan) {
    && Describes(rs, p) && InstalledFits(rs, p)
    && DepthFits(PutMultiAgent(rs, p), p)
  }

  lemma {:induction false} ReadyIs(rs: seq<Region>, p: Plan)
    requires Describes(rs, p) && InstalledFits(rs, p)
    ensures Ready(rs, p)
  {
    hide IsHeader, IsTable, Assigned, Only, Absent, PutMultiAgent;
    FeatureKeys();
    PlanBounds(rs, p);
    DescribesBounds(rs, p);
    AfterMultiAgent(rs, p);
    if p.agents.Some? {
      var a := p.agents.value;
      GapAssigns(p.featuresGap, MAX_DEPTH);
      NothingAssigns(MAX_DEPTH);
      AppendOther(rs[a].body, MAX_DEPTH, p.depth, FeaturesGapUnder(rs, p, a));
    }
  }

  /** The second edit leaves room for the depth, and everything but its own line. */
  lemma {:induction false} AfterV2(rs: seq<Region>, p: Plan, v2Line: string)
    requires Ready(rs, p) && Assigned(v2Line, V2Key(p)).Some?
    requires !p.v2.inTable ==> AfterEquals(v2Line, MULTI_AGENT_V2).Some?
    ensures var rs1, k, f := PutMultiAgent(rs, p), V2Region(rs, p), FeaturesRegion(rs, p);
      var rs2 := PutV2(rs1, k, p.v2.at, v2Line);
      && |rs2| == |rs1| && k < |rs2| && f < |rs2| && DepthFits(rs2, p) && p.agents != Some(k) && p.agents != Some(f)
      && Only(rs2, FEATURES, f) && TableAt(rs2, V2_TABLE, p.v2Table)
      && (p.v2.inTable ==> Only(rs2, V2_TABLE, k))
      && rs2[k].body == PutIn(rs1[k].body, p.v2.at, |rs1[k].body|, v2Line)
      && Spot(rs2[k].body, V2Key(p), V2Spot(rs, p)) && rs2[k].body[V2Spot(rs, p)].line == v2Line
      && Spot(rs2[f].body, MULTI_AGENT, MultiAgentSpot(rs, p))
      && rs2[f].body[MultiAgentSpot(rs, p)].line == MultiAgentLine()
      && (p.v2.inTable ==> Nowhere(rs2[f].body, MULTI_AGENT_V2))
      && (!p.v2.inTable ==> k == f)
  {
    hide IsHeader, IsTable, Assigned, Only, Absent, PutMultiAgent, MultiAgentLine, AfterEquals, WellFormed;
    FeatureKeys();
    FeatureLinesRead();
    PlanBounds(rs, p);
    DescribesBounds(rs, p);
    AfterMultiAgent(rs, p);
    PlacesAfterMultiAgent(rs, p);
    var rs1, k, f := PutMultiAgent(rs, p), V2Region(rs, p), FeaturesRegion(rs, p);
    var b := PutIn(rs1[k].body, p.v2.at, |rs1[k].body|, v2Line);
    TableAfterBody(rs1, k, b, FEATURES, Some(f));
    TableAfterBody(rs1, k, b, V2_TABLE, p.v2Table);
    TableAfterBody(rs1, k, b, AGENTS, p.agents);
    PutInPlaces(rs1[k].body, V2Key(p), p.v2.at, |rs1[k].body|, v2Line);
    if !p.v2.inTable {
      V2IsNotMultiAgent(v2Line);
      PutInOther(rs1[k].body, MULTI_AGENT_V2, p.v2.at, |rs1[k].body|, v2Line, MULTI_AGENT, Some(MultiAgentSpot(rs, p)));
    }
  }

  lemma {:induction false} V2IsNotMultiAgent(line: string)
    requires AfterEquals(line, MULTI_AGENT_V2).Some?
    ensures Assigned(line, MULTI_AGENT).None?
  {
    hide AfterEquals, ValueOf, IsComment;
    FeatureKeys();
    OneKey(line, MULTI_AGENT_V2, MULTI_AGENT);
  }

  function V2Spot(rs: seq<Region>, p: Plan): nat
    requires rs != [] && (p.features.Some? ==> p.features.value < |rs|)
    requires p.features.Some? && p.multiAgent.Some? ==> p.multiAgent.value < |rs[p.features.value].body|
  {
    var rs1, k := PutMultiAgent(rs, p), V2Region(rs, p);
    if k < |rs1| then SpotAfter(rs1[k].body, p.v2.at, |rs1[k].body|) else 0
  }

  // ---- Verifying ----

  /** The `multi_agent` line is found where it was put. */
  lemma {:induction false} MultiAgentHas(rs: seq<Region>, f: nat, i: nat)
    requires WellFormed(rs) && Only(rs, FEATURES, f) && Spot(rs[f].body, MULTI_AGENT, i)
    requires rs[f].body[i].line == MultiAgentLine()
    ensures var lines := Lines(Flat(rs));
      && VerifyFeature(lines, MULTI_AGENT, "true", MultiAgentLine()) == Ok(())
      && BooleanIn(lines, FEATURES, MULTI_AGENT).Ok? && BooleanIn(lines, FEATURES, MULTI_AGENT).value.at.Some?
      && BooleanIn(lines, FEATURES, MULTI_AGENT).value.at.value.index == BodyStart(rs, f) + i
  {
    hide IsHeader, IsTable, Assigned, MultiAgentLine, BooleanIn, Flat, SetsTo, Spot, Only;
    Names();
    FeatureLinesRead();
    BooleanWords();
    BooleanHas(rs, f, FEATURES, MULTI_AGENT, i, MultiAgentLine(), "true");
  }

  lemma {:induction false} DepthVerifies(rs: seq<Region>, k: nat, i: nat, depth: nat)
    requires WellFormed(rs) && Only(rs, AGENTS, k) && Spot(rs[k].body, MAX_DEPTH, i)
    requires rs[k].body[i].line == DepthLine(depth) && 1 <= depth <= MAX_SAFE
    ensures var lines := Lines(Flat(rs));
      && VerifyDepth(lines, depth) == Ok(())
      && FindDepth(lines).Ok? && FindDepth(lines).value.at.Some?
      && FindDepth(lines).value.at.value.index == BodyStart(rs, k) + i
  {
    hide IsHeader, IsTable, Assigned, DepthLine, FindDepth, Flat, SetsTo, Spot, Only;
    DepthHas(rs, k, i, depth);
  }

  /** What a search for `multi_agent_v2` needs of the file, whichever form it has. */
  ghost predicate V2InPlace(rs: seq<Region>, p: Plan, f: nat, k: nat, i: nat, line: string) {
    && WellFormed(rs) && Only(rs, FEATURES, f) && TableAt(rs, V2_TABLE, p.v2Table)
         && (p.v2.inTable <==> p.v2Table.Some?)
    && k < |rs| && Spot(rs[k].body, V2Key(p), i) && rs[k].body[i].line == line
    && (p.v2.inTable ==> Only(rs, V2_TABLE, k) && Nowhere(rs[f].body, MULTI_AGENT_V2))
    && (!p.v2.inTable ==> k == f)
  }

  lemma {:induction false} V2TableVerifies(rs: seq<Region>, p: Plan, f: nat, k: nat, i: nat, line: string,
          prev: Previous, json: InlineTable.Json)
    requires V2InPlace(rs, p, f, k, i, line) && V2LineFits(line, p, prev, json)
    requires prev.v2Table == p.v2.inTable && prev.inline == p.v2.inline && p.v2.inTable && !p.v2.inline
    ensures var lines := Lines(Flat(rs));
      && VerifyV2(lines, prev, json) == Ok(())
      && BooleanIn(lines, V2_TABLE, ENABLED).Ok? && BooleanIn(lines, V2_TABLE, ENABLED).value.at.Some?
      && BooleanIn(lines, V2_TABLE, ENABLED).value.at.value.index == BodyStart(rs, k) + i
  {
    hide IsHeader, IsTable, Assigned, RawIn, Flat, SetsTo, Spot, Only, Absent, Scalar, IsBoolean, V2TableLine;
    hide AfterEquals;
    hide IsBlank, IsManagedComment, WellFormed;
    Names();
    BooleanWords();
    RawIs(rs, f, FEATURES, MULTI_AGENT_V2, None);
    BooleanHas(rs, k, V2_TABLE, ENABLED, i, line, "false");
  }

  lemma {:induction false} V2ScalarVerifies(rs: seq<Region>, p: Plan, f: nat, k: nat, i: nat, line: string,
          prev: Previous, json: InlineTable.Json)
    requires V2InPlace(rs, p, f, k, i, line) && V2LineFits(line, p, prev, json)
    requires prev.v2Table == p.v2.inTable && prev.inline == p.v2.inline && !p.v2.inTable && !p.v2.inline
    ensures var lines := Lines(Flat(rs));
      && VerifyV2(lines, prev, json) == Ok(()) && VerifyFeature(lines, MULTI_AGENT_V2, "false", V2Line()) == Ok(())
      && BooleanIn(lines, FEATURES, MULTI_AGENT_V2).Ok? && BooleanIn(lines, FEATURES, MULTI_AGENT_V2).value.at.Some?
      && BooleanIn(lines, FEATURES, MULTI_AGENT_V2).value.at.value.index == BodyStart(rs, k) + i
  {
    hide IsHeader, IsTable, Assigned, RawIn, Flat, SetsTo, Spot, Only, Absent, Scalar, V2Line, AfterEquals;
    hide IsBlank, IsManagedComment, WellFormed, FindTable;
    Names();
    BooleanWords();
    BooleanHas(rs, k, FEATURES, MULTI_AGENT_V2, i, line, "false");
    RawHas(rs, k, FEATURES, MULTI_AGENT_V2, i, line, "false");
    TableIsNot(rs, V2_TABLE);
  }

  lemma {:induction false} V2InlineVerifies(rs: seq<Region>, p: Plan, f: nat, k: nat, i: nat, line: string,
          prev: Previous, json: InlineTable.Json)
    requires V2InPlace(rs, p, f, k, i, line) && V2LineFits(line, p, prev, json)
    requires prev.v2Table == p.v2.inTable && prev.inline == p.v2.inline && !p.v2.inTable && p.v2.inline
    ensures var lines := Lines(Flat(rs));
      && VerifyV2(lines, prev, json) == Ok(())
      && FindV2(lines, json).Ok? && FindV2(lines, json).value.at.Some?
      && FindV2(lines, json).value.at.value.index == BodyStart(rs, k) + i
  {
    hide IsHeader, IsTable, Assigned, RawIn, Flat, SetsTo, Spot, Only, Absent, Scalar, V2Line, AfterEquals, IsBoolean;
    hide IsBlank, IsManagedComment, WellFormed, FindTable, ManagedV2Line, InlineTable.Parse, InlineTable.ValueOf;
    Names();
    RawIs(rs, k, FEATURES, MULTI_AGENT_V2, Some(i));
    TableIsNot(rs, V2_TABLE);
    var v :| InlineLine(line, v, json) && InlineTable.ValueOf(InlineTable.Parse(v, json).value.value, json) == "false";
  }

  // ---- What the journal still needs ----

  /** The record of `multi_agent_v2`, without the line number it was found at. */
  ghost predicate V2Known(rs: seq<Region>, p: Plan, prev: Previous)
    requires Describes(rs, p)
  {
    && prev.v2Table == p.v2.inTable && prev.inline == p.v2.inline && prev.at.Some? == p.v2.at.Some?
    && (!p.v2.inTable ==> prev.tablePresent == p.features.Some?) && !prev.separator
    && (p.v2.inTable ==> prev.tablePresent)
    && (p.v2.at.Some? ==> V2Region(rs, p) < |rs| && p.v2.at.value < |rs[V2Region(rs, p)].body|)
    && (p.v2.at.Some? ==> prev.at.value.line == rs[V2Region(rs, p)].body[p.v2.at.value].line)
  }

  /** The installed file, with the depth line of a depth. */
  function WithDepth(rs: seq<Region>, p: Plan, depth: nat): seq<Region>
    requires rs != [] && (p.agents.Some? ==> p.agents.value < |rs|)
    requires p.agents.Some? && p.depth.Some? ==> p.depth.value < |rs[p.agents.value].body|
    requires p.agents.Some? && p.depth.None? ==> p.slot <= |rs[p.agents.value].body|
  {
    PutDepth(rs, p, DepthLine(depth))
  }

  /** The line `multi_agent_v2` had is still the original's after the first step. */
  lemma {:induction false} V2LineBefore(rs: seq<Region>, p: Plan, prev: Previous)
    requires Ready(rs, p) && V2Known(rs, p, prev) && OriginalTables(rs) && p.v2.at.Some?
    ensures var rs1, k := PutMultiAgent(rs, p), V2Region(rs, p);
      && k < |rs1| && p.v2.at.value < |rs1[k].body|
      && rs1[k].body[p.v2.at.value].orig == Some(prev.at.value.line)
           && rs1[k].body[p.v2.at.value].line == prev.at.value.line
      && !IsHeader(prev.at.value.line)
  {
    hide IsTable, Assigned, Only, Absent, MultiAgentLine, AfterEquals, IsHeader;
    PlanBounds(rs, p);
    DescribesBounds(rs, p);
    AfterMultiAgent(rs, p);
    var k := V2Region(rs, p);
    assert NoHeaders(rs[k].body);
  }

  /** Taking the second edit back, on regions. */
  lemma {:induction false} V2Undone(rs: seq<Region>, p: Plan, prev: Previous, v2Line: string, depth: nat)
    requires Ready(rs, p) && V2Known(rs, p, prev) && OriginalTables(rs)
    requires Assigned(v2Line, V2Key(p)).Some? && (!p.v2.inTable ==> AfterEquals(v2Line, MULTI_AGENT_V2).Some?)
    ensures var i, k, rs1 := Installed(rs, p, v2Line, DepthLine(depth)), V2Region(rs, p), PutMultiAgent(rs, p);
      && k < |i| && k < |rs1| && (p.v2.at.Some? ==> p.v2.at.value < |rs1[k].body|)
      && var b := rs1[k].body;
      && SpotAfter(b, p.v2.at, |b|) < |i[k].body|
      && (if p.v2.at.Some? then i[k].body[p.v2.at.value].orig == Some(prev.at.value.line)
           else i[k].body[|b|].orig.None?)
      && WithBody(i, k, TakeBack(i[k].body, p.v2.at, |b|, if p.v2.at.Some? then prev.at.value.line else "")) ==
           WithDepth(rs1, p, depth)
  {
    hide IsTable, Assigned, Only, Absent, MultiAgentLine, AfterEquals, IsHeader, PutMultiAgent, DepthLine, Describes;
    hide Place;
    AfterV2(rs, p, v2Line);
    if p.v2.at.Some? {
      V2LineBefore(rs, p, prev);
    }
    var rs1, k := PutMultiAgent(rs, p), V2Region(rs, p);
    var b := rs1[k].body;
    var rs2 := PutV2(rs1, k, p.v2.at, v2Line);
    DepthFrame(rs2, p, DepthLine(depth), k, b);
    TakeBackUndoes(b, p.v2.at, |b|, v2Line, GapUnder(rs2, p, k));
    BodyTwice(rs1, k, PutIn(b, p.v2.at, |b|, v2Line), b);
  }

  /** The places of all settings in the installed file. */
  lemma {:induction false} InstalledPlaces(rs: seq<Region>, p: Plan, v2Line: string, depth: nat)
    requires Ready(rs, p) && WellFormed(Installed(rs, p, v2Line, DepthLine(depth))) && 1 <= depth <= MAX_SAFE
    requires Assigned(v2Line, V2Key(p)).Some? && (!p.v2.inTable ==> AfterEquals(v2Line, MULTI_AGENT_V2).Some?)
    ensures var i, f, k := Installed(rs, p, v2Line, DepthLine(depth)), FeaturesRegion(rs, p), V2Region(rs, p);
      && V2InPlace(i, p, f, k, V2Spot(rs, p), v2Line)
      && Spot(i[f].body, MULTI_AGENT, MultiAgentSpot(rs, p))
           && i[f].body[MultiAgentSpot(rs, p)].line == MultiAgentLine()
      && var a := AgentsRegion(PutMultiAgent(rs, p), p);
      && Only(i, AGENTS, a) && a < |i|
      && exists j: nat :: j < |i[a].body| && Spot(i[a].body, MAX_DEPTH, j) && i[a].body[j].line == DepthLine(depth)
  {
    hide IsTable, Assigned, Only, Absent, MultiAgentLine, AfterEquals, IsHeader, PutMultiAgent, DepthLine, PutDepth;
    hide WellFormed;
    Names();
    FeatureKeys();
    AfterV2(rs, p, v2Line);
    var rs1, f, k := PutMultiAgent(rs, p), FeaturesRegion(rs, p), V2Region(rs, p);
    var rs2 := PutV2(rs1, k, p.v2.at, v2Line);
    DepthPlaces(rs2, p, depth);
    DepthKeepsTable(rs2, p, DepthLine(depth), FEATURES, Some(f));
    DepthKeepsTable(rs2, p, DepthLine(depth), V2_TABLE, p.v2Table);
    DepthKeepsPlace(rs2, p, DepthLine(depth), k, V2Key(p), Some(V2Spot(rs, p)));
    DepthKeepsPlace(rs2, p, DepthLine(depth), f, MULTI_AGENT, Some(MultiAgentSpot(rs, p)));
    if p.v2.inTable {
      DepthKeepsPlace(rs2, p, DepthLine(depth), f, MULTI_AGENT_V2, None);
      DepthKeepsTable(rs2, p, DepthLine(depth), V2_TABLE, Some(k));
    }
    assert p.v2.inTable <==> p.v2Table.Some?;
  }

  // ---- Restoring multi_agent_v2 ----

  lemma {:induction false} V2Restores(d: Doc, rs: seq<Region>, d0: Doc, p: Plan, prev: Previous, v2Line: string,
          depth: nat, json: InlineTable.Json)
    requires Ready(rs, p) && V2Known(rs, p, prev) && OriginalTables(rs) && V2LineFits(v2Line, p, prev, json)
    requires 1 <= depth <= MAX_SAFE && At(d, Installed(rs, p, v2Line, DepthLine(depth)), d0)
    ensures Valid(d) && RestoreV2(d, prev, json).Ok?
    ensures At(RestoreV2(d, prev, json).value, WithDepth(PutMultiAgent(rs, p), p, depth), d0)
  {
    hide *;
    V2SpotIs(rs, p);
    FitsMeans(v2Line, p, prev, json);
    KnownMeans(rs, p, prev);
    V2Undone(rs, p, prev, v2Line, depth);
    if p.v2.at.Some? {
      V2LineBefore(rs, p, prev);
    }
    AtMeans(d, Installed(rs, p, v2Line, DepthLine(depth)), d0);
    AtLines(d, Installed(rs, p, v2Line, DepthLine(depth)), d0);
    InstalledPlaces(rs, p, v2Line, depth);
    var i, f, k, j := Installed(rs, p, v2Line, DepthLine(depth)), FeaturesRegion(rs, p), V2Region(rs, p), V2Spot(rs, p);
    var b := PutMultiAgent(rs, p)[k].body;
    SpotAfterIs(b, i[k].body, p.v2.at, |b|);
    DoTakeBack(d, i, d0, k, p.v2.at, |b|, prev.at);
    if p.v2.inTable {
      V2TableVerifies(i, p, f, k, j, v2Line, prev, json);
      RestoresTable(d, prev, json);
    } else if p.v2.inline {
      V2InlineVerifies(i, p, f, k, j, v2Line, prev, json);
      RestoresInline(d, prev, json);
    } else {
      V2ScalarVerifies(i, p, f, k, j, v2Line, prev, json);
      var d' := PutBack(d, BodyStart(i, k) + j, prev.at);
      MultiAgentStays(rs, p, depth);
      AtMeans(d', WithDepth(PutMultiAgent(rs, p), p, depth), d0);
      KeepsTable(d', WithDepth(PutMultiAgent(rs, p), p, depth), d0, FEATURES, f, prev.separator, MultiAgentSpot(rs, p));
      RestoresScalar(d, prev, json);
    }
  }

  lemma {:induction false} SpotAfterIs(b: seq<TLine>, b': seq<TLine>, at: Option<nat>, j: nat)
    ensures SpotAfter(b, at, j) == SpotAfter(b', at, j)
  {
  }

  lemma {:induction false} V2SpotIs(rs: seq<Region>, p: Plan)
    requires Ready(rs, p)
    ensures InstalledFits(rs, p)
    ensures rs != [] && (p.features.Some? ==> p.features.value < |rs|)
    ensures p.features.Some? && p.multiAgent.Some? ==> p.multiAgent.value < |rs[p.features.value].body|
    ensures var rs1, k := PutMultiAgent(rs, p), V2Region(rs, p);
      && k < |rs1| && V2Spot(rs, p) == SpotAfter(rs1[k].body, p.v2.at, |rs1[k].body|)
      && (p.agents.Some? ==> p.agents.value < |rs1|)
      && (p.agents.Some? && p.depth.Some? ==> p.depth.value < |rs1[p.agents.value].body|)
      && (p.agents.Some? && p.depth.None? ==> p.slot <= |rs1[p.agents.value].body|)
  {
    hide PutMultiAgent, Describes;
  }

  lemma {:induction false} FitsMeans(line: string, p: Plan, prev: Previous, json: InlineTable.Json)
    requires V2LineFits(line, p, prev, json)
    ensures Assigned(line, V2Key(p)).Some? && (!p.v2.inTable ==> AfterEquals(line, MULTI_AGENT_V2).Some?)
  {
  }

  lemma {:induction false} KnownMeans(rs: seq<Region>, p: Plan, prev: Previous)
    requires Ready(rs, p) && V2Known(rs, p, prev)
    ensures prev.v2Table == p.v2.inTable && prev.inline == p.v2.inline && prev.at.Some? == p.v2.at.Some?
    ensures !p.v2.inTable ==> prev.tablePresent == p.features.Some?
    ensures p.v2.inTable ==> !p.v2.inline
    ensures p.v2.inline ==> prev.at.Some?
  {
  }

  lemma {:induction false} AtMeans(d: Doc, rs: seq<Region>, d0: Doc)
    requires At(d, rs, d0)
    ensures WellFormed(rs)
  {
  }

  /** The features table still has a visible line. */
  lemma {:induction false} MultiAgentStays(rs: seq<Region>, p: Plan, depth: nat)
    requires Ready(rs, p)
    ensures var r, f := WithDepth(PutMultiAgent(rs, p), p, depth), FeaturesRegion(rs, p);
      && Only(r, FEATURES, f) && f < |r| && Spot(r[f].body, MULTI_AGENT, MultiAgentSpot(rs, p))
      && MultiAgentSpot(rs, p) < |r[f].body| && r[f].body[MultiAgentSpot(rs, p)].line == MultiAgentLine()
      && !IsBlank(r[f].body[MultiAgentSpot(rs, p)].line) && IsName(FEATURES)
  {
    hide IsTable, Assigned, Only, Absent, MultiAgentLine, AfterEquals, IsHeader, PutMultiAgent, DepthLine, PutDepth;
    hide IsBlank;
    Names();
    FeatureKeys();
    FeatureLinesRead();
    PlanBounds(rs, p);
    DescribesBounds(rs, p);
    AfterMultiAgent(rs, p);
    PlacesAfterMultiAgent(rs, p);
    var rs1, f := PutMultiAgent(rs, p), FeaturesRegion(rs, p);
    DepthKeepsTable(rs1, p, DepthLine(depth), FEATURES, Some(f));
    DepthKeepsPlace(rs1, p, DepthLine(depth), f, MULTI_AGENT, Some(MultiAgentSpot(rs, p)));
  }

  lemma {:induction false} RestoresTable(d: Doc, prev: Previous, json: InlineTable.Json)
    requires Valid(d) && !prev.inline && prev.v2Table && VerifyV2(d.lines, prev, json) == Ok(())
    requires BooleanIn(d.lines, V2_TABLE, ENABLED).Ok? && BooleanIn(d.lines, V2_TABLE, ENABLED).value.at.Some?
    ensures BooleanIn(d.lines, V2_TABLE, ENABLED).value.at.value.index < |d.lines|
    ensures RestoreV2(d, prev, json)
      == Ok(PutBack(d, BooleanIn(d.lines, V2_TABLE, ENABLED).value.at.value.index, prev.at))
  {
    hide VerifyV2, BooleanIn, PutBack;
  }

  lemma {:induction false} RestoresInline(d: Doc, prev: Previous, json: InlineTable.Json)
    requires Valid(d) && prev.inline && prev.at.Some? && VerifyV2(d.lines, prev, json) == Ok(())
    requires FindV2(d.lines, json).Ok? && FindV2(d.lines, json).value.at.Some?
    ensures FindV2(d.lines, json).value.at.value.index < |d.lines|
    ensures RestoreV2(d, prev, json) == Ok(PutBack(d, FindV2(d.lines, json).value.at.value.index, prev.at))
  {
    hide VerifyV2, FindV2;
  }

  lemma {:induction false} RestoresScalar(d: Doc, prev: Previous, json: InlineTable.Json)
    requires Valid(d) && !prev.inline && !prev.v2Table
    requires VerifyFeature(d.lines, MULTI_AGENT_V2, "false", V2Line()) == Ok(())
    requires BooleanIn(d.lines, FEATURES, MULTI_AGENT_V2).Ok?
      && BooleanIn(d.lines, FEATURES, MULTI_AGENT_V2).value.at.Some?
    requires BooleanIn(d.lines, FEATURES, MULTI_AGENT_V2).value.at.value.index < |d.lines|
    requires var d' := PutBack(d, BooleanIn(d.lines, FEATURES, MULTI_AGENT_V2).value.at.value.index, prev.at);
      RemoveEmptyTable(d', FEATURES, prev.separator) == Ok(d')
    ensures RestoreV2(d, prev, json)
      == Ok(PutBack(d, BooleanIn(d.lines, FEATURES, MULTI_AGENT_V2).value.at.value.index, prev.at))
  {
    hide VerifyFeature, BooleanIn, PutBack, RemoveEmptyTable, V2Line;
  }

  // ---- Restoring multi_agent ----

  lemma {:induction false} MultiAgentRestores(d: Doc, rs: seq<Region>, d0: Doc, p: Plan, prev: Previous, depth: nat)
    requires Ready(rs, p) && OriginalTables(rs) && 1 <= depth <= MAX_SAFE
    requires SettingRecorded(rs, p.features, p.multiAgent, prev, p.features.None? && p.featuresGap)
    requires At(d, WithDepth(PutMultiAgent(rs, p), p, depth), d0) && DepthFits(rs, p)
    ensures Valid(d) && RestoreFeature(d, MULTI_AGENT, "true", MultiAgentLine(), prev).Ok?
    ensures At(RestoreFeature(d, MULTI_AGENT, "true", MultiAgentLine(), prev).value, WithDepth(rs, p, depth), d0)
  {
    hide IsTable, Assigned, Only, Absent, MultiAgentLine, AfterEquals, IsHeader, PutMultiAgent, DepthLine, PutDepth;
    hide IsBlank;
    hide BooleanIn, VerifyFeature, RemoveEmptyTable, PutBack, Tracks, Flat, Describes, Place, Without, RestoreAt;
    var j, f, i := WithDepth(PutMultiAgent(rs, p), p, depth), FeaturesRegion(rs, p), MultiAgentSpot(rs, p);
    MultiAgentStays(rs, p, depth);
    AtLines(d, j, d0);
    MultiAgentHas(j, f, i);
    MultiAgentUndone(rs, p, prev, depth);
    if p.features.Some? {
      var b := rs[f].body;
      DoTakeBack(d, j, d0, f, p.multiAgent, |b|, prev.at);
      SpotAfterIs(b, j[f].body, p.multiAgent, |b|);
      RestoreAtKeeps(d, BodyStart(j, f) + i, prev);
    } else {
      var gap := GapUnder(PutMultiAgent(rs, p), p, f);
      var h := WithBody(j, f, gap);
      DoRemove(d, j, d0, f, 0);
      OnlyAfterBody(j, f, gap, FEATURES, f);
      GapIsBlank(rs, p, f);
      DoRemoveEmpty(Remove(d, BodyStart(j, f)), h, d0, FEATURES, f, p.featuresGap);
      RestoreAtRemoves(d, BodyStart(j, f), prev);
    }
  }

  lemma {:induction false} RestoreAtKeeps(d: Doc, i: nat, prev: Previous)
    requires Valid(d) && i < |d.lines| && prev.tablePresent
    ensures RestoreAt(d, i, prev, FEATURES) == Ok(PutBack(d, i, prev.at))
    ensures RestoreAt(d, i, prev, AGENTS) == Ok(PutBack(d, i, prev.at))
  {
  }

  lemma {:induction false} RestoreAtRemoves(d: Doc, i: nat, prev: Previous)
    requires Valid(d) && i < |d.lines| && !prev.tablePresent && prev.at.None?
    ensures RestoreAt(d, i, prev, FEATURES) == RemoveEmptyTable(Remove(d, i), FEATURES, prev.separator)
    ensures RestoreAt(d, i, prev, AGENTS) == RemoveEmptyTable(Remove(d, i), AGENTS, prev.separator)
  {
  }

  lemma {:induction false} GapIsBlank(rs: seq<Region>, p: Plan, k: nat)
    requires rs != [] && (p.features.Some? ==> p.features.value < |rs|)
    requires p.features.Some? && p.multiAgent.Some? ==> p.multiAgent.value < |rs[p.features.value].body|
    ensures AllBlank(GapUnder(PutMultiAgent(rs, p), p, k))
  {
    FeatureKeys();
    EmptyLineReads(ENABLED);
  }

  /** Taking the first edit back, on regions. */
  lemma {:induction false} MultiAgentUndone(rs: seq<Region>, p: Plan, prev: Previous, depth: nat)
    requires Ready(rs, p) && OriginalTables(rs) && DepthFits(rs, p)
    requires SettingRecorded(rs, p.features, p.multiAgent, prev, p.features.None? && p.featuresGap)
    ensures rs != [] && (p.features.Some? ==> 1 <= p.features.value < |rs|)
    ensures p.features.Some? && p.multiAgent.Some? ==> p.multiAgent.value < |rs[p.features.value].body|
    ensures var j, f := WithDepth(PutMultiAgent(rs, p), p, depth), FeaturesRegion(rs, p);
      && f < |j|
      && (p.features.Some? ==>
           var b := rs[f].body;
           && SpotAfter(b, p.multiAgent, |b|) < |j[f].body| && MultiAgentSpot(rs, p) == SpotAfter(b, p.multiAgent, |b|)
           && (if p.multiAgent.Some? then j[f].body[p.multiAgent.value].orig == Some(prev.at.value.line)
                && !IsHeader(prev.at.value.line)
               else j[f].body[|b|].orig.None?)
           && WithBody(j, f,
                TakeBack(j[f].body, p.multiAgent, |b|, if p.multiAgent.Some? then prev.at.value.line else "")) ==
                WithDepth(rs, p, depth))
      && (p.features.None? ==>
           var gap := GapUnder(PutMultiAgent(rs, p), p, f);
           && MultiAgentSpot(rs, p) == 0 && j[f].body != [] && j[f].body[0].orig.None? && RemoveAt(j[f].body, 0) == gap
           && |j[f].head| == 1 && j[f].head[0].orig.None? && 1 <= f
           && var h := WithBody(j, f, gap);
           && (p.featuresGap ==> h[f - 1].body != [] && h[f - 1].body[|h[f - 1].body| - 1] == Own(""))
           && Without(h, f, p.featuresGap) == WithDepth(rs, p, depth))
  {
    hide IsTable, Assigned, Only, Absent, MultiAgentLine, AfterEquals, IsHeader, DepthLine, Place, Without, WellFormed;
    hide Header;
    PlanBounds(rs, p);
    DescribesBounds(rs, p);
    var f := FeaturesRegion(rs, p);
    if p.features.Some? {
      var b := rs[f].body;
      var rs1 := PutMultiAgent(rs, p);
      DepthFrame(rs1, p, DepthLine(depth), f, b);
      TakeBackUndoes(b, p.multiAgent, |b|, MultiAgentLine(), GapUnder(rs1, p, f));
      BodyTwice(rs, f, PutIn(b, p.multiAgent, |b|, MultiAgentLine()), b);
      if p.multiAgent.Some? {
        HeaderlessLine(rs, f, p.multiAgent.value);
      }
    } else {
      FeaturesGone(rs, p, DepthLine(depth));
    }
  }

  lemma {:induction false} HeaderlessLine(rs: seq<Region>, k: nat, i: nat)
    requires WellFormed(rs) && k < |rs| && i < |rs[k].body|
    ensures !IsHeader(rs[k].body[i].line)
  {
    assert NoHeaders(rs[k].body);
  }

  // ---- Restoring the depth ----

  lemma {:induction false} DepthRestores(d: Doc, rs: seq<Region>, d0: Doc, p: Plan, prev: Previous, depth: nat,
          recorded: bool)
    requires WellFormed(rs) && DepthFits(rs, p) && OriginalTables(rs) && 1 <= depth <= MAX_SAFE
    requires p.agents.Some? ==> p.agents.value >= 1
    requires SettingRecorded(rs, p.agents, p.depth, prev, recorded) && (recorded ==> p.agents.None? && p.agentsGap)
    requires At(d, WithDepth(rs, p, depth), d0)
    ensures Valid(d) && RestoreDepth(d, prev, depth).Ok?
    ensures At(RestoreDepth(d, prev, depth).value, Gapped(rs, p.agents.None? && p.agentsGap && !recorded), d0)
  {
    hide *;
    if p.agents.Some? {
      DepthTakenBack(d, rs, d0, p, prev, depth);
    } else {
      AgentsTakenAway(d, rs, d0, p, prev, depth, recorded);
    }
    NoGap(rs, p, recorded);
  }

  lemma {:induction false} NoGap(rs: seq<Region>, p: Plan, recorded: bool)
    requires WellFormed(rs)
    ensures p.agents.Some? ==> Gapped(rs, p.agents.None? && p.agentsGap && !recorded) == rs
  {
  }

  lemma {:induction false} DepthTakenBack(d: Doc, rs: seq<Region>, d0: Doc, p: Plan, prev: Previous, depth: nat)
    requires WellFormed(rs) && DepthFits(rs, p) && OriginalTables(rs) && 1 <= depth <= MAX_SAFE
    requires p.agents.Some? && p.agents.value >= 1 && SettingRecorded(rs, p.agents, p.depth, prev, false)
    requires At(d, WithDepth(rs, p, depth), d0)
    ensures Valid(d) && RestoreDepth(d, prev, depth).Ok? && At(RestoreDepth(d, prev, depth).value, rs, d0)
  {
    hide IsTable, Assigned, Only, Absent, AfterEquals, IsHeader, DepthLine, IsBlank;
    hide VerifyDepth, FindDepth, PutBack, Tracks, Flat, Place, RestoreAt;
    var k, a, i := WithDepth(rs, p, depth), AgentsRegion(rs, p), DepthSpot(rs, p);
    DepthPlaces(rs, p, depth);
    AtLines(d, k, d0);
    DepthVerifies(k, a, i, depth);
    var b := rs[a].body;
    TakeBackUndoes(b, p.depth, p.slot, DepthLine(depth), []);
    NothingMore(b, p.depth, p.slot, DepthLine(depth));
    BodyTwice(rs, a, PutIn(b, p.depth, p.slot, DepthLine(depth)), b);
    if p.depth.Some? {
      HeaderlessLine(rs, a, p.depth.value);
    }
    DoTakeBack(d, k, d0, a, p.depth, p.slot, prev.at);
    RestoreAtKeeps(d, BodyStart(k, a) + i, prev);
  }

  lemma {:induction false} AgentsTakenAway(d: Doc, rs: seq<Region>, d0: Doc, p: Plan, prev: Previous, depth: nat,
          recorded: bool)
    requires WellFormed(rs) && DepthFits(rs, p) && 1 <= depth <= MAX_SAFE
    requires p.agents.None? && SettingRecorded(rs, p.agents, p.depth, prev, recorded) && (recorded ==> p.agentsGap)
    requires At(d, WithDepth(rs, p, depth), d0)
    ensures Valid(d) && RestoreDepth(d, prev, depth).Ok?
    ensures At(RestoreDepth(d, prev, depth).value, Gapped(rs, p.agentsGap && !recorded), d0)
  {
    hide IsTable, Assigned, Only, Absent, AfterEquals, IsHeader, DepthLine, IsBlank;
    hide VerifyDepth, FindDepth, RemoveEmptyTable, Tracks, Flat, Place, Without, RestoreAt, Gapped;
    Names();
    var k, a, i := WithDepth(rs, p, depth), AgentsRegion(rs, p), DepthSpot(rs, p);
    DepthPlaces(rs, p, depth);
    AtLines(d, k, d0);
    DepthVerifies(k, a, i, depth);
    AgentsGone(rs, p, DepthLine(depth), recorded);
    OneOwnLine(k, a, AGENTS, DepthLine(depth));
    DoRemove(d, k, d0, a, 0);
    OnlyAfterBody(k, a, [], AGENTS, a);
    DoRemoveEmpty(Remove(d, BodyStart(k, a)), WithBody(k, a, []), d0, AGENTS, a, recorded);
    RestoreAtRemoves(d, BodyStart(k, a), prev);
  }

  lemma {:induction false} NothingMore(b: seq<TLine>, at: Option<nat>, j: nat, line: string)
    requires (at.Some? ==> at.value < |b|) && (at.None? ==> j <= |b|)
    ensures PutIn(b, at, j, line) + [] == PutIn(b, at, j, line) && b + [] == b
  {
  }

  lemma {:induction false} OneOwnLine(rs: seq<Region>, k: nat, name: string, line: string)
    requires k < |rs| && rs[k] == NewTable(name, [line])
    ensures rs[k].body == [Own(line)] && RemoveAt(rs[k].body, 0) == [] && rs[k].head == [Own(Header(name))]
  {
  }
}
