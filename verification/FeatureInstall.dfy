/** Installing the Compatibility V1 features, step by step, on a document cut into regions. */
module FeatureInstall {
  import opened Common
  import opened ConfigLines
  import opened Document
  import opened Tracking
  import opened Regions
  import opened BodyEdits
  import opened ConfigEdit
  import opened FeatureLines
  import opened FeatureRegions
  import opened V2Inline
  import InlineTable

  // ---- Appending a table ----

  lemma {:induction false} FlatEnd(rs: seq<Region>)
    requires rs != []
    ensures BodyStart(rs, |rs| - 1) + |rs[|rs| - 1].body| == |Flat(rs)|
  {
    FlatAround(rs, |rs| - 1);
    assert rs[|rs|..] == [];
  }

  lemma {:induction false} EmptyTable(name: string)
    ensures NewTable(name, []) == Region([Own(Header(name))], [])
  {
  }

  lemma {:induction false} DoAppendTable(d: Doc, rs: seq<Region>, d0: Doc, name: string)
    requires At(d, rs, d0) && IsNameLike(name)
    ensures Valid(d)
    ensures At(AppendTable(d, name), Gapped(rs, LastIsText(d.lines)) + [NewTable(name, [])], d0)
  {
    hide IsHeader, Flat, Tracks, Insert, IsBlank, IsTable, Unbroken, NoBom, Header;
    AtLines(d, rs, d0);
    FlatEnd(rs);
    FeatureKeys();
    EmptyLineReads(ENABLED);
    HeaderReads(name);
    var last := rs[|rs| - 1].body;
    if LastIsText(d.lines) {
      DoInsert(d, rs, d0, |rs| - 1, |last|, "");
      assert InsertAt(last, |last|, Own("")) == last + [Own("")];
    }
    var rs1 := Gapped(rs, LastIsText(d.lines));
    var d1 := if LastIsText(d.lines) then Insert(d, |d.lines|, "") else d;
    AtLines(d1, rs1, d0);
    EmptyTable(name);
    GrowRegions(rs1, Own(Header(name)));
    TrackInsert(d1, Flat(rs1), d0, |d1.lines|, Header(name));
    assert InsertAt(Flat(rs1), |d1.lines|, Own(Header(name))) == Flat(rs1) + [Own(Header(name))];
  }

  // ---- The line before trailing blanks ----

  function BlankSlot(b: seq<string>): (j: nat)
    ensures j <= |b|
  {
    if b != [] && IsBlank(b[|b| - 1]) then BlankSlot(b[..|b| - 1]) else |b|
  }

  lemma {:induction false} BeforeBlanksIs(lines: seq<string>, low: nat, end: nat)
    requires low <= end <= |lines|
    ensures BeforeBlanks(lines, low, end) == low + BlankSlot(lines[low..end])
  {
    hide IsBlank;
    if end > low {
      assert lines[low..end][..end - low - 1] == lines[low..end - 1];
      BeforeBlanksIs(lines, low, end - 1);
    }
  }

  lemma {:induction false} BlankSlotGap(b: seq<string>)
    ensures BlankSlot(b + [""]) == BlankSlot(b)
  {
    FeatureKeys();
    EmptyLineReads(ENABLED);
    assert (b + [""])[..|b|] == b;
  }

  // ---- The first step ----

  lemma {:induction false} MultiAgentStep(d: Doc, rs: seq<Region>, d0: Doc, p: Plan)
    requires At(d, rs, d0) && Describes(rs, p) && Valid(d) && SetFeature(d, MULTI_AGENT, MultiAgentLine()).Ok?
    requires p.features.None? ==> p.featuresGap == LastIsText(d.lines)
    ensures p.features.Some? && p.multiAgent.Some? ==> p.multiAgent.value < |rs[p.features.value].body|
    ensures At(SetFeature(d, MULTI_AGENT, MultiAgentLine()).value, PutMultiAgent(rs, p), d0)
  {
    hide IsHeader, Flat, Tracks, Insert, IsBlank, IsTable, Unbroken, NoBom, Header, Assigned, FindTable, RawIn;
    hide MultiAgentLine;
    hide AfterEquals, Scalar, IsManagedComment, Describes, TableAt;
    Names();
    FeatureNames();
    FeatureLinesRead();
    AtLines(d, rs, d0);
    DescribesFeatures(rs, p);
    if p.features.Some? {
      PutInTable(d, rs, d0, FEATURES, p.features.value, MULTI_AGENT, p.multiAgent, MultiAgentLine());
    } else {
      PutInNewTable(d, rs, d0, FEATURES, MULTI_AGENT, MultiAgentLine());
    }
  }

  lemma {:induction false} DescribesFeatures(rs: seq<Region>, p: Plan)
    requires Describes(rs, p)
    ensures WellFormed(rs)
    ensures p.features.Some? ==>
      Only(rs, FEATURES, p.features.value) && Place(rs[p.features.value].body, MULTI_AGENT, p.multiAgent)
    ensures p.features.None? ==> Absent(rs, FEATURES)
  {
    hide IsHeader, IsTable, Place, WellFormed;
  }

  /** `SetFeature` where the table is there. */
  lemma {:induction false} PutInTable(d: Doc, rs: seq<Region>, d0: Doc, table: string, k: nat, key: string,
          at: Option<nat>, line: string)
    requires At(d, rs, d0) && Valid(d) && table == FEATURES && Only(rs, table, k) && Place(rs[k].body, key, at)
    requires Writable(line) && SetFeature(d, key, line).Ok?
    ensures At(SetFeature(d, key, line).value, WithBody(rs, k, PutIn(rs[k].body, at, |rs[k].body|, line)), d0)
  {
    hide IsHeader, Flat, Tracks, Insert, IsTable, Unbroken, NoBom, Assigned, FindTable, RawIn, Scalar, IsBoolean;
    Names();
    AtLines(d, rs, d0);
    RawIs(rs, k, table, key, at);
    TableIs(rs, table, k);
    FlatAround(rs, k);
    DoPutIn(d, rs, d0, k, at, |rs[k].body|, line);
  }

  /** `SetFeature` where it is not. */
  lemma {:induction false} PutInNewTable(d: Doc, rs: seq<Region>, d0: Doc, table: string, key: string, line: string)
    requires At(d, rs, d0) && Valid(d) && table == FEATURES && Absent(rs, table)
    requires Writable(line) && SetFeature(d, key, line).Ok?
    ensures At(SetFeature(d, key, line).value, Gapped(rs, LastIsText(d.lines)) + [NewTable(table, [line])], d0)
  {
    hide IsHeader, Flat, Tracks, Insert, IsTable, Unbroken, NoBom, FindTable, RawIn, Scalar, IsBoolean, IsBlank;
    hide AppendTable;
    hide Header;
    Names();
    FeatureNames();
    AtLines(d, rs, d0);
    RawIsNot(rs, table, key);
    TableIsNot(rs, table);
    DoAppendTable(d, rs, d0, table);
    var rs1 := Gapped(rs, LastIsText(d.lines));
    AbsentGapped(rs, table, LastIsText(d.lines));
    InsertInNew(AppendTable(d, table), rs1, d0, table, line);
  }

  lemma {:induction false} AbsentGapped(rs: seq<Region>, name: string, gap: bool)
    requires rs != [] && Absent(rs, name)
    ensures Absent(Gapped(rs, gap), name)
  {
    hide Named;
    if gap {
      AbsentAfterBody(rs, |rs| - 1, rs[|rs| - 1].body + [Own("")], name);
    }
  }

  lemma {:induction false} OnlyGapped(rs: seq<Region>, name: string, k: nat, gap: bool)
    requires rs != [] && Only(rs, name, k)
    ensures Only(Gapped(rs, gap), name, k)
  {
    hide Named;
    if gap {
      OnlyAfterBody(rs, |rs| - 1, rs[|rs| - 1].body + [Own("")], name, k);
    }
  }

  lemma {:induction false} InsertInNew(d: Doc, rs: seq<Region>, d0: Doc, table: string, line: string)
    requires rs != [] && IsNameLike(table) && Absent(rs, table) && Writable(line)
    requires At(d, rs + [NewTable(table, [])], d0)
    ensures Valid(d) && FindTable(d.lines, table).Ok? && FindTable(d.lines, table).value.Some?
    ensures var r := FindTable(d.lines, table).value.value;
      r.header + 1 == r.end && At(Insert(d, r.end, line), rs + [NewTable(table, [line])], d0)
    ensures InsertInTable(d, table, line) == Ok(Insert(d, FindTable(d.lines, table).value.value.end, line))
  {
    hide IsHeader, Flat, Tracks, Insert, IsTable, Unbroken, NoBom, FindTable, Header;
    NameLikeIsName(table);
    var n, rs1 := |rs|, rs + [NewTable(table, [])];
    AtLines(d, rs1, d0);
    EmptyTable(table);
    OnlyNewTable(rs, table, []);
    TableIs(rs1, table, n);
    FlatAround(rs1, n);
    DoInsert(d, rs1, d0, n, 0, line);
    assert InsertAt([], 0, Own(line)) == [Own(line)];
    assert NewTable(table, [line]) == Region([Own(Header(table))], [Own(line)]);
    assert WithBody(rs1, n, [Own(line)]) == rs + [NewTable(table, [line])];
  }

  // ---- The second step ----

  /** Lines under tables are the original's. */
  ghost predicate OriginalTables(rs: seq<Region>) {
    forall k, i :: 1 <= k < |rs| && 0 <= i < |rs[k].body| ==> rs[k].body[i].orig == Some(rs[k].body[i].line)
  }

  /** The bodies after the first step. */
  lemma {:induction false} AfterMultiAgent(rs: seq<Region>, p: Plan)
    requires Describes(rs, p)
    ensures p.features.Some? && p.multiAgent.Some? ==> p.multiAgent.value < |rs[p.features.value].body|
    ensures var rs1 := PutMultiAgent(rs, p);
      && |rs1| == |rs| + (if p.features.Some? then 0 else 1) && FeaturesRegion(rs, p) < |rs1|
      && Only(rs1, FEATURES, FeaturesRegion(rs, p))
      && TableAt(rs1, V2_TABLE, p.v2Table) && TableAt(rs1, AGENTS, p.agents)
      && (p.features.Some? ==> var b := rs[p.features.value].body;
           rs1[p.features.value].body == PutIn(b, p.multiAgent, |b|, MultiAgentLine()))
      && (p.features.None? ==> rs1[|rs|].body == [Own(MultiAgentLine())])
      && (forall k :: 1 <= k < |rs| && p.features != Some(k) ==> rs1[k].body == rs[k].body + FeaturesGapUnder(rs, p, k))
  {
    hide IsHeader, IsTable, Place, MultiAgentLine, Header, WellFormed, Only, Absent;
    Names();
    FeatureNames();
    PlanBounds(rs, p);
    DescribesBounds(rs, p);
    DescribesFeatures(rs, p);
    forall b: seq<TLine>
      ensures b + [] == b
    {
    }
    if p.features.Some? {
      var k := p.features.value;
      var b := PutIn(rs[k].body, p.multiAgent, |rs[k].body|, MultiAgentLine());
      OnlyAfterBody(rs, k, b, FEATURES, k);
      TableAfterBody(rs, k, b, V2_TABLE, p.v2Table);
      TableAfterBody(rs, k, b, AGENTS, p.agents);
    } else {
      var g := Gapped(rs, p.featuresGap);
      AbsentGapped(rs, FEATURES, p.featuresGap);
      TableGapped(rs, V2_TABLE, p.v2Table, p.featuresGap);
      TableGapped(rs, AGENTS, p.agents, p.featuresGap);
      OnlyNewTable(g, FEATURES, [MultiAgentLine()]);
      TableAfterTable(g, FEATURES, [MultiAgentLine()], V2_TABLE, p.v2Table);
      TableAfterTable(g, FEATURES, [MultiAgentLine()], AGENTS, p.agents);
      assert NewTable(FEATURES, [MultiAgentLine()]).body == [Own(MultiAgentLine())];
    }
  }

  /** What a new features table adds below region `k`. */
  function FeaturesGapUnder(rs: seq<Region>, p: Plan, k: nat): seq<TLine> {
    if p.features.None? && k == |rs| - 1 then Gap(p.featuresGap) else []
  }

  lemma {:induction false} TableAfterBody(rs: seq<Region>, k: nat, b: seq<TLine>, name: string, at: Option<nat>)
    requires k < |rs| && TableAt(rs, name, at)
    ensures TableAt(WithBody(rs, k, b), name, at)
  {
    hide Only, Absent;
    if at.Some? {
      OnlyAfterBody(rs, k, b, name, at.value);
    } else {
      AbsentAfterBody(rs, k, b, name);
    }
  }

  lemma {:induction false} TableGapped(rs: seq<Region>, name: string, at: Option<nat>, gap: bool)
    requires rs != [] && TableAt(rs, name, at)
    ensures TableAt(Gapped(rs, gap), name, at)
  {
    hide Only, Absent;
    if at.Some? {
      OnlyGapped(rs, name, at.value, gap);
    } else {
      AbsentGapped(rs, name, gap);
    }
  }

  lemma {:induction false} TableAfterTable(rs: seq<Region>, name: string, lines: seq<string>, other: string,
          at: Option<nat>)
    requires IsNameLike(name) && IsName(other) && rs != [] && other != name && TableAt(rs, other, at)
    ensures TableAt(rs + [NewTable(name, lines)], other, at)
  {
    hide Only, Absent;
    if at.Some? {
      OnlyAfterTable(rs, name, lines, other, at.value);
    } else {
      AbsentAfterTable(rs, name, lines, other);
    }
  }

  lemma {:induction false} GapAssigns(gap: bool, key: string)
    requires IsKey(key)
    ensures Nowhere(Gap(gap), key)
  {
    EmptyLineReads(key);
  }

  /** The key and the line of the second edit. */
  function V2Key(p: Plan): string {
    if p.v2.inTable then ENABLED else MULTI_AGENT_V2
  }

  /** After the first step `multi_agent_v2` is still where it was, and `multi_agent` where it was put. */
  lemma {:induction false} PlacesAfterMultiAgent(rs: seq<Region>, p: Plan)
    requires Describes(rs, p)
    ensures p.features.Some? && p.multiAgent.Some? ==> p.multiAgent.value < |rs[p.features.value].body|
    ensures var rs1, k, f := PutMultiAgent(rs, p), V2Region(rs, p), FeaturesRegion(rs, p);
      && k < |rs1| && f < |rs1| && 1 <= k
      && Place(rs1[k].body, V2Key(p), p.v2.at)
      && Only(rs1, if p.v2.inTable then V2_TABLE else FEATURES, k)
      && (p.v2.inTable ==> k != f && Nowhere(rs1[f].body, MULTI_AGENT_V2))
      && (!p.v2.inTable ==> k == f && Absent(rs1, V2_TABLE))
      && Spot(rs1[f].body, MULTI_AGENT, MultiAgentSpot(rs, p))
      && rs1[f].body[MultiAgentSpot(rs, p)].line == MultiAgentLine()
      && (p.v2.at.Some? && !p.v2.inTable ==> p.v2.at != Some(MultiAgentSpot(rs, p)))
  {
    hide IsHeader, IsTable, Assigned, MultiAgentLine, Header, WellFormed, Only, Absent, AfterEquals, Scalar, Writable;
    hide IsBlank, IsManagedComment, PutMultiAgent;
    FeatureKeys();
    FeatureLinesRead();
    PlanBounds(rs, p);
    DescribesBounds(rs, p);
    AfterMultiAgent(rs, p);
    if p.features.Some? {
      var b := rs[p.features.value].body;
      PutInPlaces(b, MULTI_AGENT, p.multiAgent, |b|, MultiAgentLine());
      if p.v2.inTable {
        PutInOther(b, MULTI_AGENT, p.multiAgent, |b|, MultiAgentLine(), MULTI_AGENT_V2, None);
      } else {
        PutInOther(b, MULTI_AGENT, p.multiAgent, |b|, MultiAgentLine(), MULTI_AGENT_V2, p.v2.at);
      }
    }
    if p.v2.inTable {
      var k := p.v2Table.value;
      GapAssigns(p.featuresGap, ENABLED);
      AppendOther(rs[k].body, ENABLED, p.v2.at, FeaturesGapUnder(rs, p, k));
    }
  }

  function MultiAgentSpot(rs: seq<Region>, p: Plan): nat {
    if p.features.Some? && p.features.value < |rs|
        then SpotAfter(rs[p.features.value].body, p.multiAgent, |rs[p.features.value].body|)
    else 0
  }

  /** The journal's record of `multi_agent_v2` describes the plan. */
  ghost predicate V2Recorded(rs: seq<Region>, p: Plan, prev: Previous, json: InlineTable.Json)
    requires Describes(rs, p)
  {
    && prev.v2Table == p.v2.inTable && prev.inline == p.v2.inline && prev.at.Some? == p.v2.at.Some?
    && (!p.v2.inTable ==> prev.tablePresent == p.features.Some?) && !prev.separator
    && (p.v2.inTable ==> prev.tablePresent)
    && (p.v2.at.Some? ==> V2Region(rs, p) < |rs| && p.v2.at.value < |rs[V2Region(rs, p)].body|)
    && (p.v2.at.Some? ==> prev.at.value.line == rs[V2Region(rs, p)].body[p.v2.at.value].line)
    && (p.v2.at.Some? ==> prev.at.value.index == BodyStart(rs, V2Region(rs, p)) + p.v2.at.value)
    && (p.v2.inline ==> exists v :: InlineLine(prev.at.value.line, v, json))
  }

  /** The managed `multi_agent_v2` line, whichever form it has. */
  ghost predicate V2LineFits(line: string, p: Plan, prev: Previous, json: InlineTable.Json) {
    && ManagedV2Line(prev, json) == Ok(line)
    && Assigned(line, V2Key(p)).Some? && !IsHeader(line) && !IsBlank(line) && !IsManagedComment(line)
    && (if p.v2.inline then
          exists v :: InlineLine(line, v, json)
              && InlineTable.ValueOf(InlineTable.Parse(v, json).value.value, json) == "false"
        else SetsTo(line, V2Key(p), "false"))
    && (!p.v2.inTable ==> AfterEquals(line, MULTI_AGENT_V2).Some?)
  }

  /** Its line is untouched by the first step. */
  lemma {:induction false} V2LineUntouched(rs: seq<Region>, p: Plan)
    requires Describes(rs, p) && OriginalTables(rs) && p.v2.inline
    ensures p.features.Some? && V2Region(rs, p) == p.features.value < |rs|
    ensures p.multiAgent.Some? ==> p.multiAgent.value < |rs[p.features.value].body|
    ensures var rs1, k, i := PutMultiAgent(rs, p), p.features.value, p.v2.at.value;
      && i < |rs[k].body| && k < |rs1| && i < |rs1[k].body| && rs1[k].body[i] == rs[k].body[i]
      && rs[k].body[i].orig == Some(rs[k].body[i].line) && BodyStart(rs1, k) == BodyStart(rs, k)
  {
    hide IsHeader, IsTable, Assigned, MultiAgentLine, WellFormed, Only, Absent;
    PlanBounds(rs, p);
    DescribesBounds(rs, p);
    var k := p.features.value;
    var b := rs[k].body;
    assert WithBody(rs, k, PutIn(b, p.multiAgent, |b|, MultiAgentLine()))[..k] == rs[..k];
  }

  lemma {:induction false} V2InlineStep(d: Doc, rs: seq<Region>, d0: Doc, p: Plan, prev: Previous,
          json: InlineTable.Json)
    returns (line: string)
    requires Describes(rs, p) && V2Recorded(rs, p, prev, json) && OriginalTables(rs) && p.v2.inline
    requires p.features.Some? && p.multiAgent.Some? ==> p.multiAgent.value < |rs[p.features.value].body|
    requires V2Region(rs, p) < |PutMultiAgent(rs, p)|
    requires p.v2.at.value < |PutMultiAgent(rs, p)[V2Region(rs, p)].body|
    requires At(d, PutMultiAgent(rs, p), d0) && Valid(d) && SetV2(d, prev, json).Ok?
    ensures V2LineFits(line, p, prev, json)
    ensures At(SetV2(d, prev, json).value, PutV2(PutMultiAgent(rs, p), V2Region(rs, p), p.v2.at, line), d0)
  {
    hide IsHeader, IsTable, Assigned, MultiAgentLine, WellFormed, Only, Absent, PutMultiAgent, Tracks, Flat;
    hide AfterEquals;
    hide IsBlank, IsManagedComment, Unbroken, InlineTable.Parse, InlineTable.ValueOf, Scalar, ManagedV2Line, Settable;
    V2LineUntouched(rs, p);
    var rs1, k, i := PutMultiAgent(rs, p), p.features.value, p.v2.at.value;
    var v :| InlineLine(prev.at.value.line, v, json);
    LineIsUnbroken(d, rs1, d0, k, i);
    var v';
    line, v' := InlineManaged(prev.at.value.line, v, json, prev);
    DoPutIn(d, rs1, d0, k, p.v2.at, 0, line);
  }

  lemma {:induction false} LineIsUnbroken(d: Doc, rs: seq<Region>, d0: Doc, k: nat, i: nat)
    requires At(d, rs, d0) && k < |rs| && i < |rs[k].body|
    ensures Unbroken(rs[k].body[i].line)
  {
    hide Unbroken, IsHeader, Flat;
    FlatSet(rs, k, i, rs[k].body[i]);
    assert AllUnbroken(Flat(rs));
  }

  lemma {:induction false} V2Step(d: Doc, rs: seq<Region>, d0: Doc, p: Plan, prev: Previous, json: InlineTable.Json)
    returns (line: string)
    requires Describes(rs, p) && V2Recorded(rs, p, prev, json) && OriginalTables(rs)
    requires p.features.Some? && p.multiAgent.Some? ==> p.multiAgent.value < |rs[p.features.value].body|
    requires At(d, PutMultiAgent(rs, p), d0) && Valid(d) && SetV2(d, prev, json).Ok?
    ensures V2Region(rs, p) < |PutMultiAgent(rs, p)|
    ensures p.v2.at.Some? ==> p.v2.at.value < |PutMultiAgent(rs, p)[V2Region(rs, p)].body|
    ensures V2LineFits(line, p, prev, json)
    ensures At(SetV2(d, prev, json).value, PutV2(PutMultiAgent(rs, p), V2Region(rs, p), p.v2.at, line), d0)
  {
    hide IsHeader, IsTable, Assigned, MultiAgentLine, WellFormed, Only, Absent, PutMultiAgent, Tracks, Flat;
    hide AfterEquals;
    hide IsBlank, IsManagedComment, Writable, V2Line, V2TableLine, Scalar, BooleanIn, FindTable, SetFeature;
    PlanBounds(rs, p);
    DescribesBounds(rs, p);
    PlacesAfterMultiAgent(rs, p);
    FeatureLinesRead();
    Names();
    var rs1, k := PutMultiAgent(rs, p), V2Region(rs, p);
    AtLines(d, rs1, d0);
    if p.v2.inline {
      line := V2InlineStep(d, rs, d0, p, prev, json);
    } else if p.v2.inTable {
      line := V2TableLine();
      PlainV2Fits(p, prev, json);
      PutEnabled(d, rs1, d0, k, p.v2.at, line);
    } else {
      line := V2Line();
      PlainV2Fits(p, prev, json);
      PutInTable(d, rs1, d0, FEATURES, k, MULTI_AGENT_V2, p.v2.at, line);
    }
  }

  lemma {:induction false} PlainV2Fits(p: Plan, prev: Previous, json: InlineTable.Json)
    requires !p.v2.inline && !prev.inline && prev.v2Table == p.v2.inTable
    ensures V2LineFits(if p.v2.inTable then V2TableLine() else V2Line(), p, prev, json)
    ensures Writable(if p.v2.inTable then V2TableLine() else V2Line())
  {
    hide IsHeader, Assigned, AfterEquals, IsBlank, IsManagedComment, V2Line, V2TableLine, Scalar, Unbroken, NoBom;
    FeatureLinesRead();
  }

  lemma {:induction false} PutEnabled(d: Doc, rs: seq<Region>, d0: Doc, k: nat, at: Option<nat>, line: string)
    requires At(d, rs, d0) && Valid(d) && Only(rs, V2_TABLE, k) && Place(rs[k].body, ENABLED, at) && Writable(line)
    requires BooleanIn(d.lines, V2_TABLE, ENABLED).Ok?
    ensures BooleanIn(d.lines, V2_TABLE, ENABLED).value.at.Some? == at.Some?
    ensures at.Some? ==>
      var i := BooleanIn(d.lines, V2_TABLE, ENABLED).value.at.value.index;
      i < |d.lines| && At(SetLine(d, i, line), WithBody(rs, k, PutIn(rs[k].body, at, |rs[k].body|, line)), d0)
    ensures at.None? ==> InsertInTable(d, V2_TABLE, line).Ok?
    ensures at.None? ==>
      At(InsertInTable(d, V2_TABLE, line).value, WithBody(rs, k, PutIn(rs[k].body, at, |rs[k].body|, line)), d0)
  {
    hide IsHeader, Flat, Tracks, Insert, IsTable, Unbroken, NoBom, Assigned, FindTable, RawIn, Scalar, IsBoolean;
    Names();
    AtLines(d, rs, d0);
    RawIs(rs, k, V2_TABLE, ENABLED, at);
    TableIs(rs, V2_TABLE, k);
    FlatAround(rs, k);
    DoPutIn(d, rs, d0, k, at, |rs[k].body|, line);
  }

  // ---- The third step ----

  /** Where a new depth line goes. */
  ghost predicate SlotFits(rs: seq<Region>, p: Plan) {
    p.agents.Some? && p.agents.value < |rs| && p.depth.None? ==> p.slot == BlankSlot(Lines(rs[p.agents.value].body))
  }

  lemma {:induction false} DepthStep(d: Doc, rs: seq<Region>, d0: Doc, p: Plan, depth: nat)
    requires At(d, rs, d0) && Valid(d) && SetDepth(d, depth).Ok? && 1 <= depth <= MAX_SAFE
    requires TableAt(rs, AGENTS, p.agents) && (p.agents.Some? ==> Place(rs[p.agents.value].body, MAX_DEPTH, p.depth))
    requires p.agents.None? ==> p.agentsGap == LastIsText(d.lines)
    requires SlotFits(rs, p)
    ensures p.agents.Some? && p.depth.Some? ==> p.depth.value < |rs[p.agents.value].body|
    ensures p.agents.Some? && p.depth.None? ==> p.slot <= |rs[p.agents.value].body|
    ensures At(SetDepth(d, depth).value, PutDepth(rs, p, DepthLine(depth)), d0)
  {
    hide IsHeader, Flat, Tracks, Insert, IsTable, Unbroken, NoBom, Assigned, FindTable, RawIn, Scalar, DepthLine;
    hide Decimal;
    hide IsDepth, AppendTable, IsBlank, Header, AfterEquals, IsManagedComment, BeforeBlanks, BlankSlot;
    hide WithoutUnderscores;
    Names();
    FeatureNames();
    DepthLineReads(depth);
    AtLines(d, rs, d0);
    if p.agents.Some? {
      var k := p.agents.value;
      RawIs(rs, k, AGENTS, MAX_DEPTH, p.depth);
      TableIs(rs, AGENTS, k);
      FlatAround(rs, k);
      BeforeBlanksIs(d.lines, Start(rs, k) + 1, Start(rs, k + 1));
      DoPutIn(d, rs, d0, k, p.depth, if p.depth.None? then p.slot else 0, DepthLine(depth));
    } else {
      RawIsNot(rs, AGENTS, MAX_DEPTH);
      TableIsNot(rs, AGENTS);
      DoAppendTable(d, rs, d0, AGENTS);
      var rs1 := Gapped(rs, LastIsText(d.lines));
      AbsentGapped(rs, AGENTS, LastIsText(d.lines));
      InsertInNew(AppendTable(d, AGENTS), rs1, d0, AGENTS, DepthLine(depth));
    }
  }
}
