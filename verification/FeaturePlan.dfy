/** Installing all the features: the plan the editor follows, and what the journal records of it. */
module FeaturePlan {
  import opened Common
  import opened ConfigLines
  import opened Document
  import opened Tracking
  import opened Regions
  import opened BodyEdits
  import opened ConfigEdit
  import opened FeatureLines
  import opened FeatureRegions
  import opened FeatureInstall
  import opened V2Inline
  import InlineTable
  import RouteEdits

  /** The journal's record of a setting that may be absent with its table. */
  ghost predicate SettingRecorded(rs: seq<Region>, table: Option<nat>, at: Option<nat>, prev: Previous, gap: bool) {
    && prev.tablePresent == table.Some? && prev.separator == gap && prev.at.Some? == at.Some?
    && (at.Some? ==> table.Some? && table.value < |rs| && at.value < |rs[table.value].body|)
    && (at.Some? ==> prev.at.value.line == rs[table.value].body[at.value].line)
  }

  lemma {:induction false} PlaceOfSetting(rs: seq<Region>, table: string, key: string)
    returns (k: Option<nat>, at: Option<nat>)
    requires WellFormed(rs) && IsName(table) && RawIn(Lines(Flat(rs)), table, key).Ok?
    ensures TableAt(rs, table, k) && (k.None? ==> at.None?)
    ensures k.Some? ==> k.value < |rs| && Place(rs[k.value].body, key, at)
    ensures var r := RawIn(Lines(Flat(rs)), table, key).value;
      && r.tablePresent == k.Some? && r.at.Some? == at.Some? && r.v2Table == (table == V2_TABLE) && !r.inline
           && !r.separator
      && (at.Some? ==> r.at.value.line == rs[k.value].body[at.value].line)
      && (at.Some? ==> Assigned(r.at.value.line, key) == Some(r.at.value.value))
      && (at.Some? ==> r.at.value.index == BodyStart(rs, k.value) + at.value)
  {
    hide Flat, IsHeader, IsTable, RawIn, Assigned, WellFormed;
    k := RawTable(rs, table, key);
    if k.Some? {
      at := RawCases(rs, k.value, table, key);
    } else {
      RawIsNot(rs, table, key);
      at := None;
    }
  }

  lemma {:induction false} BooleanIsRaw(lines: seq<string>, table: string, key: string)
    requires BooleanIn(lines, table, key).Ok?
    ensures RawIn(lines, table, key).Ok?
    ensures var r, b := RawIn(lines, table, key).value, BooleanIn(lines, table, key).value;
      && b.tablePresent == r.tablePresent && b.separator == r.separator && b.v2Table == r.v2Table
           && b.inline == r.inline
      && b.at.Some? == r.at.Some?
           && (b.at.Some? ==> b.at.value.line == r.at.value.line && b.at.value.index == r.at.value.index)
  {
    hide RawIn, Scalar, IsBoolean;
  }

  lemma {:induction false} DepthIsRaw(lines: seq<string>)
    requires FindDepth(lines).Ok?
    ensures RawIn(lines, AGENTS, MAX_DEPTH).Ok? && 2 <= InstalledDepth(FindDepth(lines).value) <= MAX_SAFE
    ensures var r, b := RawIn(lines, AGENTS, MAX_DEPTH).value, FindDepth(lines).value;
      && b.tablePresent == r.tablePresent && b.separator == r.separator
      && b.at.Some? == r.at.Some?
           && (b.at.Some? ==> b.at.value.line == r.at.value.line && b.at.value.index == r.at.value.index)
  {
    hide RawIn, Scalar, WithoutUnderscores, NumberOf;
  }

  lemma {:induction false} DifferentSpots(b: seq<TLine>, x: Option<nat>, y: Option<nat>)
    requires Place(b, MULTI_AGENT, x) && Place(b, MULTI_AGENT_V2, y)
    ensures x.Some? ==> x != y
  {
    if x.Some? && x == y {
      FeatureKeys();
      AssignedMeans(b[x.value].line, MULTI_AGENT);
      RouteEdits.OtherKey(b[x.value].line, MULTI_AGENT, MULTI_AGENT_V2);
    }
  }

  lemma {:induction false} AssignedMeans(line: string, key: string)
    requires Assigned(line, key).Some?
    ensures AfterEquals(line, key).Some?
  {
  }

  /** Where `multi_agent_v2` is, from a search that succeeded. */
  lemma {:induction false} V2Place(rs: seq<Region>, json: InlineTable.Json)
    returns (f: Option<nat>, v: Option<nat>, v2: V2Plan)
    requires WellFormed(rs) && FindV2(Lines(Flat(rs)), json).Ok?
    ensures TableAt(rs, FEATURES, f) && TableAt(rs, V2_TABLE, v)
    ensures (f.Some? ==> f.value < |rs|) && (v.Some? ==> v.value < |rs|)
    ensures v2.inTable <==> v.Some?
    ensures v2.inTable ==> !v2.inline && Place(rs[v.value].body, ENABLED, v2.at)
    ensures f.Some? ==> Place(rs[f.value].body, MULTI_AGENT_V2, if v2.inTable then None else v2.at)
    ensures !v2.inTable && f.None? ==> v2.at.None?
    ensures v2.inline ==> v2.at.Some?
    ensures var prev := FindV2(Lines(Flat(rs)), json).value;
      var k := if v2.inTable then v else f;
      && prev.v2Table == v2.inTable && prev.inline == v2.inline && prev.at.Some? == v2.at.Some? && !prev.separator
      && prev.tablePresent == k.Some?
      && (v2.at.Some? ==> k.Some? && prev.at.value.line == rs[k.value].body[v2.at.value].line)
      && (v2.at.Some? ==> prev.at.value.index == BodyStart(rs, k.value) + v2.at.value)
      && (v2.inline ==> exists x :: InlineLine(prev.at.value.line, x, json))
  {
    hide Flat, IsHeader, IsTable, RawIn, Assigned, AfterEquals, WellFormed, Only, Absent, BooleanIn, Scalar;
    hide InlineTable.Parse;
    hide FindTable;
    Names();
    var lines := Lines(Flat(rs));
    var at;
    f, at := PlaceOfSetting(rs, FEATURES, MULTI_AGENT_V2);
    v := TableCases(rs, V2_TABLE);
    if v.Some? {
      TableIs(rs, V2_TABLE, v.value);
      BooleanIsRaw(lines, V2_TABLE, ENABLED);
      var v1, at1 := PlaceOfSetting(rs, V2_TABLE, ENABLED);
      SameTable(rs, V2_TABLE, v, v1);
      v2 := V2Plan(true, false, at1);
    } else {
      TableIsNot(rs, V2_TABLE);
      var prev := FindV2(lines, json).value;
      v2 := V2Plan(false, prev.inline, at);
      if prev.inline {
        var raw := RawIn(lines, FEATURES, MULTI_AGENT_V2).value.at.value;
        AssignedMeans(raw.line, MULTI_AGENT_V2);
        assert InlineLine(prev.at.value.line, raw.value, json);
      }
    }
  }

  lemma {:induction false} SameTable(rs: seq<Region>, name: string, x: Option<nat>, y: Option<nat>)
    requires TableAt(rs, name, x) && TableAt(rs, name, y)
    ensures x == y
  {
    hide Named;
  }

  lemma {:induction false} ReadableMeans(lines: seq<string>, json: InlineTable.Json)
    ensures FeaturesReadable(lines, json) <==>
      BooleanIn(lines, FEATURES, MULTI_AGENT).Ok? && FindV2(lines, json).Ok? && FindDepth(lines).Ok?
  {
  }

  /** A search that succeeds gives the plan and its record. */
  lemma {:induction false} PlanOf(d: Doc, rs: seq<Region>, d0: Doc, json: InlineTable.Json) returns (p: Plan)
    requires At(d, rs, d0) && FeaturesReadable(d.lines, json)
    ensures Describes(rs, p) && SlotFits(rs, p) && p.featuresGap == LastIsText(d.lines)
    ensures V2Recorded(rs, p, FindV2(d.lines, json).value, json)
    ensures SettingRecorded(rs, p.features, p.multiAgent, BooleanIn(d.lines, FEATURES, MULTI_AGENT).value, false)
    ensures SettingRecorded(rs, p.agents, p.depth, FindDepth(d.lines).value, false)
  {
    hide Flat, IsHeader, IsTable, RawIn, Assigned, WellFormed, Only, Absent, BooleanIn, FindDepth, FindV2, BlankSlot;
    hide SetFeature, SetV2, SetDepth, InlineLine;
    Names();
    AtLines(d, rs, d0);
    BooleanIsRaw(d.lines, FEATURES, MULTI_AGENT);
    DepthIsRaw(d.lines);
    var f, ma := PlaceOfSetting(rs, FEATURES, MULTI_AGENT);
    var a, da := PlaceOfSetting(rs, AGENTS, MAX_DEPTH);
    var f2, v, v2 := V2Place(rs, json);
    SameTable(rs, FEATURES, f, f2);
    var slot := if a.Some? then BlankSlot(Lines(rs[a.value].body)) else 0;
    p := Plan(f, v, a, ma, v2, da, slot, LastIsText(d.lines), false);
    if f.Some? && !v2.inTable {
      DifferentSpots(rs[f.value].body, ma, v2.at);
    }
  }

  // ---- The whole installation ----

  /** The regions after all three steps. */
  function Installed(rs: seq<Region>, p: Plan, v2Line: string, depthLine: string): seq<Region>
    requires InstalledFits(rs, p)
  {
    PutDepth(PutV2(PutMultiAgent(rs, p), V2Region(rs, p), p.v2.at, v2Line), p, depthLine)
  }

  ghost predicate InstalledFits(rs: seq<Region>, p: Plan) {
    && rs != [] && (p.features.Some? ==> p.features.value < |rs|)
    && (p.features.Some? && p.multiAgent.Some? ==> p.multiAgent.value < |rs[p.features.value].body|)
    && var rs1 := PutMultiAgent(rs, p);
    && V2Region(rs, p) < |rs1| && (p.v2.at.Some? ==> p.v2.at.value < |rs1[V2Region(rs, p)].body|)
    && (p.agents.Some? ==> p.agents.value < |rs1| && p.agents.value != V2Region(rs, p))
    && (p.agents.Some? && p.depth.Some? ==> p.depth.value < |rs1[p.agents.value].body|)
    && (p.agents.Some? && p.depth.None? ==> p.slot <= |rs1[p.agents.value].body|)
  }

  /** What installing the features did, and what the journal knows. */
  ghost predicate FeaturesInstalled(d: Doc, rs: seq<Region>, d0: Doc, p: Plan, f: Features, v2Line: string,
          textBefore: bool, json: InlineTable.Json) {
    && Describes(rs, p) && InstalledFits(rs, p) && OriginalTables(rs)
    && V2Recorded(rs, p, f.v2, json) && V2LineFits(v2Line, p, f.v2, json)
    && SettingRecorded(rs, p.features, p.multiAgent, f.multiAgent, p.features.None? && p.featuresGap)
    && SettingRecorded(rs, p.agents, p.depth, f.depth, p.agents.None? && textBefore)
    && 2 <= f.installedDepth <= MAX_SAFE
    && At(d, Installed(rs, p, v2Line, DepthLine(f.installedDepth)), d0)
  }

  /** The document after the first two steps. */
  function SecondDoc(d: Doc, json: InlineTable.Json): Result<Doc>
    requires Valid(d)
  {
    var v2 :- FindV2(d.lines, json);
    var d1 :- SetFeature(d, MULTI_AGENT, MultiAgentLine());
    SetV2(d1, v2, json)
  }

  lemma {:induction false} StepsOf(d: Doc, json: InlineTable.Json)
    requires Valid(d) && InstallFeatures(d, json).Ok?
    ensures FindV2(d.lines, json).Ok? && FindDepth(d.lines).Ok? && BooleanIn(d.lines, FEATURES, MULTI_AGENT).Ok?
    ensures SetFeature(d, MULTI_AGENT, MultiAgentLine()).Ok?
    ensures var d1 := SetFeature(d, MULTI_AGENT, MultiAgentLine()).value;
      && SetV2(d1, FindV2(d.lines, json).value, json).Ok? && Valid(d1)
      && var d2 := SetV2(d1, FindV2(d.lines, json).value, json).value;
      && SecondDoc(d, json) == Ok(d2) && Valid(d2)
      && var depth := InstalledDepth(FindDepth(d.lines).value);
      && SetDepth(d2, depth).Ok? && InstallFeatures(d, json).value.0 == SetDepth(d2, depth).value
    ensures var f, ma, da := InstallFeatures(d, json).value.1, BooleanIn(d.lines, FEATURES, MULTI_AGENT).value,
      FindDepth(d.lines).value;
      && f.v2 == FindV2(d.lines, json).value && f.installedDepth == InstalledDepth(da)
      && f.multiAgent == ma.(separator := !ma.tablePresent && LastIsText(d.lines))
      && f.depth == da.(separator := !da.tablePresent && LastIsText(d.lines))
  {
    hide BooleanIn, FindV2, FindDepth, SetFeature, SetV2, SetDepth, InstalledDepth, LastIsText, MultiAgentLine;
  }

  /** The agents table's body, and its place for the depth, survive the first two steps. */
  lemma {:induction false} AgentsUntouched(rs: seq<Region>, p: Plan, line: string)
    requires Describes(rs, p) && SlotFits(rs, p)
    requires p.features.Some? && p.multiAgent.Some? ==> p.multiAgent.value < |rs[p.features.value].body|
    requires V2Region(rs, p) < |PutMultiAgent(rs, p)|
    requires p.v2.at.Some? ==> p.v2.at.value < |PutMultiAgent(rs, p)[V2Region(rs, p)].body|
    ensures var rs2 := PutV2(PutMultiAgent(rs, p), V2Region(rs, p), p.v2.at, line);
      && TableAt(rs2, AGENTS, p.agents) && SlotFits(rs2, p)
      && (p.agents.Some? ==> p.agents.value < |rs2| && Place(rs2[p.agents.value].body, MAX_DEPTH, p.depth))
      && (p.agents.Some? ==> p.agents.value != V2Region(rs, p))
      && (p.agents.Some? ==>
           rs2[p.agents.value].body == rs[p.agents.value].body + FeaturesGapUnder(rs, p, p.agents.value))
  {
    hide IsHeader, IsTable, Assigned, WellFormed, Only, Absent, PutMultiAgent, Place, BlankSlot;
    FeatureKeys();
    PlanBounds(rs, p);
    DescribesBounds(rs, p);
    AfterMultiAgent(rs, p);
    var rs1, k := PutMultiAgent(rs, p), V2Region(rs, p);
    TableAfterBody(rs1, k, PutIn(rs1[k].body, p.v2.at, |rs1[k].body|, line), AGENTS, p.agents);
    if p.agents.Some? {
      var a := p.agents.value;
      var gap := FeaturesGapUnder(rs, p, a);
      GapAssigns(p.featuresGap, MAX_DEPTH);
      NothingAssigns(MAX_DEPTH);
      AppendOther(rs[a].body, MAX_DEPTH, p.depth, gap);
      BlankSlotGap(Lines(rs[a].body));
      assert Lines(rs[a].body + [Own("")]) == Lines(rs[a].body) + [""];
      assert rs[a].body + [] == rs[a].body;
    }
  }

  lemma {:induction false} NothingAssigns(key: string)
    ensures Nowhere([], key)
  {
  }

  lemma {:induction false} FeaturesInstall(d: Doc, rs: seq<Region>, d0: Doc, json: InlineTable.Json)
    returns (p: Plan, v2Line: string)
    requires At(d, rs, d0) && Valid(d) && OriginalTables(rs) && InstallFeatures(d, json).Ok?
    ensures var r := InstallFeatures(d, json).value;
      FeaturesInstalled(r.0, rs, d0, p, r.1, v2Line, LastIsText(d.lines), json)
    ensures SecondDoc(d, json).Ok? && (p.agents.None? ==> p.agentsGap == LastIsText(SecondDoc(d, json).value.lines))
    ensures At(SecondDoc(d, json).value, PutV2(PutMultiAgent(rs, p), V2Region(rs, p), p.v2.at, v2Line), d0)
  {
    hide *;
    StepsOf(d, json);
    DepthIsRaw(d.lines);
    var q;
    q, v2Line := TwoSteps(d, rs, d0, json);
    var d2, depth := SecondDoc(d, json).value, InstalledDepth(FindDepth(d.lines).value);
    p := q.(agentsGap := LastIsText(d2.lines));
    GapIsLater(rs, q, p);
    AgentsUntouched(rs, q, v2Line);
    var rs2 := PutV2(PutMultiAgent(rs, q), V2Region(rs, q), q.v2.at, v2Line);
    TwoStepsFit(rs, q, p, v2Line);
    DepthStep(d2, rs2, d0, p, depth);
    InstalledIs(rs, p, v2Line, DepthLine(depth));
    GapIsLaterRecorded(rs, q, p, FindV2(d.lines, json).value, v2Line, json);
    Gathered(d, rs, d0, p, v2Line, json);
  }

  /** The first two steps, and the plan they follow. */
  lemma {:induction false} TwoSteps(d: Doc, rs: seq<Region>, d0: Doc, json: InlineTable.Json)
    returns (q: Plan, v2Line: string)
    requires At(d, rs, d0) && Valid(d) && OriginalTables(rs) && InstallFeatures(d, json).Ok?
    ensures Describes(rs, q) && SlotFits(rs, q) && q.featuresGap == LastIsText(d.lines)
    ensures rs != [] && (q.features.Some? ==> q.features.value < |rs|)
    ensures q.features.Some? && q.multiAgent.Some? ==> q.multiAgent.value < |rs[q.features.value].body|
    ensures V2Region(rs, q) < |PutMultiAgent(rs, q)|
    ensures q.v2.at.Some? ==> q.v2.at.value < |PutMultiAgent(rs, q)[V2Region(rs, q)].body|
    ensures FindV2(d.lines, json).Ok? && V2Recorded(rs, q, FindV2(d.lines, json).value, json)
    ensures V2LineFits(v2Line, q, FindV2(d.lines, json).value, json)
    ensures BooleanIn(d.lines, FEATURES, MULTI_AGENT).Ok? && FindDepth(d.lines).Ok?
    ensures SettingRecorded(rs, q.features, q.multiAgent, BooleanIn(d.lines, FEATURES, MULTI_AGENT).value, false)
    ensures SettingRecorded(rs, q.agents, q.depth, FindDepth(d.lines).value, false)
    ensures SecondDoc(d, json).Ok?
    ensures At(SecondDoc(d, json).value, PutV2(PutMultiAgent(rs, q), V2Region(rs, q), q.v2.at, v2Line), d0)
  {
    hide *;
    StepsOf(d, json);
    ReadableMeans(d.lines, json);
    q := PlanOf(d, rs, d0, json);
    PlanBounds(rs, q);
    DescribesBounds(rs, q);
    MultiAgentStep(d, rs, d0, q);
    var d1 := SetFeature(d, MULTI_AGENT, MultiAgentLine()).value;
    v2Line := V2Step(d1, rs, d0, q, FindV2(d.lines, json).value, json);
  }

  lemma {:induction false} TwoStepsFit(rs: seq<Region>, q: Plan, p: Plan, line: string)
    requires p == q.(agentsGap := p.agentsGap)
    requires rs != [] && (q.features.Some? ==> q.features.value < |rs|)
    requires q.features.Some? && q.multiAgent.Some? ==> q.multiAgent.value < |rs[q.features.value].body|
    requires V2Region(rs, q) < |PutMultiAgent(rs, q)|
    requires q.v2.at.Some? ==> q.v2.at.value < |PutMultiAgent(rs, q)[V2Region(rs, q)].body|
    ensures PutMultiAgent(rs, p) == PutMultiAgent(rs, q) && V2Region(rs, p) == V2Region(rs, q)
    ensures var rs2 := PutV2(PutMultiAgent(rs, q), V2Region(rs, q), q.v2.at, line);
      SlotFits(rs2, q) ==> SlotFits(rs2, p)
  {
    hide MultiAgentLine, BlankSlot;
  }

  lemma {:induction false} Gathered(d: Doc, rs: seq<Region>, d0: Doc, p: Plan, v2Line: string, json: InlineTable.Json)
    requires Valid(d) && InstallFeatures(d, json).Ok?
    requires Describes(rs, p) && InstalledFits(rs, p) && OriginalTables(rs) && p.featuresGap == LastIsText(d.lines)
    requires FindV2(d.lines, json).Ok? && V2Recorded(rs, p, FindV2(d.lines, json).value, json)
    requires V2LineFits(v2Line, p, FindV2(d.lines, json).value, json)
    requires BooleanIn(d.lines, FEATURES, MULTI_AGENT).Ok? && FindDepth(d.lines).Ok?
    requires SettingRecorded(rs, p.features, p.multiAgent, BooleanIn(d.lines, FEATURES, MULTI_AGENT).value, false)
    requires SettingRecorded(rs, p.agents, p.depth, FindDepth(d.lines).value, false)
    requires 2 <= InstalledDepth(FindDepth(d.lines).value) <= MAX_SAFE
    requires At(InstallFeatures(d, json).value.0,
      Installed(rs, p, v2Line, DepthLine(InstalledDepth(FindDepth(d.lines).value))), d0)
    ensures var r := InstallFeatures(d, json).value;
      FeaturesInstalled(r.0, rs, d0, p, r.1, v2Line, LastIsText(d.lines), json)
  {
    hide IsHeader, IsTable, RawIn, Assigned, WellFormed, Only, Absent, BooleanIn, FindDepth, FindV2, BlankSlot, Flat;
    hide Tracks;
    hide SetFeature, SetV2, SetDepth, InlineLine, MultiAgentLine, DepthLine, PutMultiAgent, PutDepth, V2LineFits;
    hide LastIsText;
    hide At, InstallFeatures, InstalledDepth, Describes, InstalledFits, Installed, V2Recorded, OriginalTables;
    StepsOf(d, json);
  }

  /** The choice of the last gap does not matter to the first two steps. */
  lemma {:induction false} GapIsLater(rs: seq<Region>, q: Plan, p: Plan)
    requires Describes(rs, q) && p == q.(agentsGap := p.agentsGap)
    requires q.features.Some? && q.multiAgent.Some? ==> q.multiAgent.value < |rs[q.features.value].body|
    ensures Describes(rs, p) && V2Region(rs, p) == V2Region(rs, q) && PutMultiAgent(rs, p) == PutMultiAgent(rs, q)
    ensures SlotFits(rs, q) ==> SlotFits(rs, p)
  {
    hide IsHeader, IsTable, Assigned, WellFormed, Only, Absent, Place, MultiAgentLine;
    PlanBounds(rs, q);
    DescribesBounds(rs, q);
  }

  lemma {:induction false} GapIsLaterRecorded(rs: seq<Region>, q: Plan, p: Plan, prev: Previous, line: string,
          json: InlineTable.Json)
    requires Describes(rs, q) && Describes(rs, p) && p == q.(agentsGap := p.agentsGap)
    requires V2Recorded(rs, q, prev, json) && V2LineFits(line, q, prev, json)
    ensures V2Recorded(rs, p, prev, json) && V2LineFits(line, p, prev, json)
  {
    hide IsHeader, IsTable, Assigned, WellFormed, Only, Absent, Place, MultiAgentLine, InlineLine, AfterEquals, SetsTo;
    hide Describes, IsBlank, IsManagedComment, InlineTable.Parse, InlineTable.ValueOf, ManagedV2Line;
  }

  lemma {:induction false} InstalledIs(rs: seq<Region>, p: Plan, v2Line: string, depthLine: string)
    requires Describes(rs, p)
    requires p.features.Some? && p.multiAgent.Some? ==> p.multiAgent.value < |rs[p.features.value].body|
    requires V2Region(rs, p) < |PutMultiAgent(rs, p)|
    requires p.v2.at.Some? ==> p.v2.at.value < |PutMultiAgent(rs, p)[V2Region(rs, p)].body|
    requires p.agents.Some? ==> p.agents.value != V2Region(rs, p)
    ensures InstalledFits(rs, p)
    ensures var rs2 := PutV2(PutMultiAgent(rs, p), V2Region(rs, p), p.v2.at, v2Line);
      && (p.agents.Some? && p.depth.Some? ==> p.depth.value < |rs2[p.agents.value].body|)
      && (p.agents.Some? && p.depth.None? ==> p.slot <= |rs2[p.agents.value].body|)
      && Installed(rs, p, v2Line, depthLine) == PutDepth(rs2, p, depthLine)
  {
    hide IsHeader, IsTable, Assigned, WellFormed, Only, Absent, PutMultiAgent, Place, PutDepth;
    PlanBounds(rs, p);
    DescribesBounds(rs, p);
    AfterMultiAgent(rs, p);
  }
}
