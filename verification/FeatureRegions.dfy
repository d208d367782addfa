/** The Compatibility V1 edits on regions: where each setting goes, and how tables come and go. */
module FeatureRegions {
  import opened Common
  import opened ConfigLines
  import opened Tracking
  import opened Regions
  import opened BodyEdits
  import opened ConfigEdit
  import opened FeatureLines

  // ---- Searching one table ----

  lemma {:induction false} Names()
    ensures IsName(FEATURES) && IsName(V2_TABLE) && IsName(AGENTS)
    ensures FEATURES != V2_TABLE && FEATURES != AGENTS && V2_TABLE != AGENTS
  {
    FeatureNames();
    NameLikeIsName(FEATURES);
    NameLikeIsName(V2_TABLE);
    NameLikeIsName(AGENTS);
  }

  lemma {:induction false} NameLikeIsName(s: string)
    requires IsNameLike(s)
    ensures IsName(s)
  {
  }

  /** What a search of region `k` finds when the key is at a place. */
  function RawAt(rs: seq<Region>, k: nat, table: string, key: string, at: Option<nat>): Previous
    requires k < |rs| && Place(rs[k].body, key, at)
  {
    Previous(match at
             case None => None
             case Some(i) => Some(Assignment(rs[k].body[i].line, Assigned(rs[k].body[i].line, key).value,
                 BodyStart(rs, k) + i)),
             true, table == V2_TABLE, false, false)
  }

  lemma {:induction false} RawIs(rs: seq<Region>, k: nat, table: string, key: string, at: Option<nat>)
    requires WellFormed(rs) && IsName(table) && Only(rs, table, k) && Place(rs[k].body, key, at)
    ensures RawIn(Lines(Flat(rs)), table, key) == Ok(RawAt(rs, k, table, key, at))
  {
    hide Assigned, Flat, IsHeader, IsTable, OnlyMatch, FindTable;
    TableIs(rs, table, k);
    if at.Some? {
      MatchAt(rs[k].body, key, at.value, BodyStart(rs, k));
    } else {
      MatchNone(rs[k].body, key, BodyStart(rs, k));
    }
  }

  lemma {:induction false} RawIsNot(rs: seq<Region>, table: string, key: string)
    requires WellFormed(rs) && IsName(table) && Absent(rs, table)
    ensures RawIn(Lines(Flat(rs)), table, key) == Ok(Previous(None, false, table == V2_TABLE, false, false))
  {
    hide Flat, IsHeader, IsTable, FindTable;
    TableIsNot(rs, table);
  }

  lemma {:induction false} RawCases(rs: seq<Region>, k: nat, table: string, key: string) returns (at: Option<nat>)
    requires WellFormed(rs) && IsName(table) && Only(rs, table, k) && RawIn(Lines(Flat(rs)), table, key).Ok?
    ensures Place(rs[k].body, key, at) && RawIn(Lines(Flat(rs)), table, key) == Ok(RawAt(rs, k, table, key, at))
  {
    hide Assigned, Flat, IsHeader, IsTable, OnlyMatch, FindTable;
    TableIs(rs, table, k);
    at := MatchCases(rs[k].body, key, BodyStart(rs, k));
    RawIs(rs, k, table, key, at);
  }

  lemma {:induction false} RawTable(rs: seq<Region>, table: string, key: string) returns (k: Option<nat>)
    requires WellFormed(rs) && IsName(table) && RawIn(Lines(Flat(rs)), table, key).Ok?
    ensures if k.Some? then Only(rs, table, k.value) else Absent(rs, table)
  {
    hide Flat, IsHeader, IsTable, FindTable;
    k := TableCases(rs, table);
  }

  /** A line that sets the key to a word is found with that word. */
  lemma {:induction false} RawHas(rs: seq<Region>, k: nat, table: string, key: string, i: nat, line: string,
          word: string)
    requires WellFormed(rs) && IsName(table) && Only(rs, table, k) && Spot(rs[k].body, key, i)
    requires rs[k].body[i].line == line && SetsTo(line, key, word)
    ensures var r := RawIn(Lines(Flat(rs)), table, key);
      && r.Ok? && r.value.at.Some? && r.value.at.value.line == line && r.value.at.value.index == BodyStart(rs, k) + i
      && Scalar(r.value.at.value.value) == word && r.value.v2Table == (table == V2_TABLE) && !r.value.inline
  {
    hide Assigned, Flat, IsHeader, IsTable, AfterEquals, Writable, IsBlank, IsManagedComment, Scalar, RawIn;
    RawIs(rs, k, table, key, Some(i));
  }

  lemma {:induction false} BooleanHas(rs: seq<Region>, k: nat, table: string, key: string, i: nat, line: string,
          word: string)
    requires WellFormed(rs) && IsName(table) && Only(rs, table, k) && Spot(rs[k].body, key, i)
    requires rs[k].body[i].line == line && SetsTo(line, key, word) && IsBoolean(word)
    ensures var r := BooleanIn(Lines(Flat(rs)), table, key);
      && r.Ok? && Has(r.value, word, line) && r.value.at.value.index == BodyStart(rs, k) + i
      && r.value.v2Table == (table == V2_TABLE) && !r.value.inline
  {
    hide Flat, IsHeader, IsTable, Scalar, RawIn, SetsTo, Spot;
    RawHas(rs, k, table, key, i, line, word);
  }

  lemma {:induction false} DepthHas(rs: seq<Region>, k: nat, i: nat, depth: nat)
    requires WellFormed(rs) && Only(rs, AGENTS, k) && Spot(rs[k].body, MAX_DEPTH, i)
    requires rs[k].body[i].line == DepthLine(depth) && 1 <= depth <= MAX_SAFE
    ensures var r := FindDepth(Lines(Flat(rs)));
      r.Ok? && Has(r.value, Decimal(depth), DepthLine(depth)) && r.value.at.value.index == BodyStart(rs, k) + i
  {
    hide Flat, IsHeader, IsTable, Scalar, RawIn, SetsTo, Spot, Decimal, IsDepth, ManagedLine, WithoutUnderscores;
    Names();
    DepthLineReads(depth);
    RawHas(rs, k, AGENTS, MAX_DEPTH, i, DepthLine(depth), Decimal(depth));
  }

  // ---- Tables under edits ----

  lemma {:induction false} OnlyWithBody(rs: seq<Region>, k: nat, b: seq<TLine>, name: string)
    requires k < |rs|
    ensures forall j :: Named(WithBody(rs, k, b), name, j) <==> Named(rs, name, j)
  {
    hide IsTable;
  }

  lemma {:induction false} OnlyAfterBody(rs: seq<Region>, k: nat, b: seq<TLine>, name: string, j: nat)
    requires k < |rs| && Only(rs, name, j)
    ensures Only(WithBody(rs, k, b), name, j)
  {
    hide Named;
    OnlyWithBody(rs, k, b, name);
  }

  lemma {:induction false} AbsentAfterBody(rs: seq<Region>, k: nat, b: seq<TLine>, name: string)
    requires k < |rs| && Absent(rs, name)
    ensures Absent(WithBody(rs, k, b), name)
  {
    hide Named;
    OnlyWithBody(rs, k, b, name);
  }

  /** A table with one line of one's own. */
  function NewTable(name: string, lines: seq<string>): Region {
    Region([Own(Header(name))], seq(|lines|, i requires 0 <= i < |lines| => Own(lines[i])))
  }

  lemma {:induction false} NewTableNamed(rs: seq<Region>, name: string, lines: seq<string>, other: string, j: nat)
    requires IsNameLike(name) && IsName(other) && rs != []
    ensures var rs' := rs + [NewTable(name, lines)];
      Named(rs', other, j) <==> Named(rs, other, j) || (other == name && j == |rs|)
  {
    HeaderReads(name);
    NameLikeIsName(name);
    var rs' := rs + [NewTable(name, lines)];
    if j == |rs| && IsTable(Header(name), other) {
      hide IsTable;
      OneTable(Header(name), name, other);
    }
  }

  lemma {:induction false} OnlyAfterTable(rs: seq<Region>, name: string, lines: seq<string>, other: string, j: nat)
    requires IsNameLike(name) && IsName(other) && rs != [] && other != name && Only(rs, other, j)
    ensures Only(rs + [NewTable(name, lines)], other, j)
  {
    hide Named;
    forall i: nat
      ensures Named(rs + [NewTable(name, lines)], other, i) <==> Named(rs, other, i)
    {
      NewTableNamed(rs, name, lines, other, i);
    }
  }

  lemma {:induction false} OnlyNewTable(rs: seq<Region>, name: string, lines: seq<string>)
    requires IsNameLike(name) && rs != [] && Absent(rs, name)
    ensures Only(rs + [NewTable(name, lines)], name, |rs|)
  {
    hide Named;
    NameLikeIsName(name);
    forall i: nat
      ensures Named(rs + [NewTable(name, lines)], name, i) <==> i == |rs|
    {
      NewTableNamed(rs, name, lines, name, i);
    }
  }

  lemma {:induction false} AbsentAfterTable(rs: seq<Region>, name: string, lines: seq<string>, other: string)
    requires IsNameLike(name) && IsName(other) && rs != [] && other != name && Absent(rs, other)
    ensures Absent(rs + [NewTable(name, lines)], other)
  {
    hide Named;
    forall i: nat
      ensures !Named(rs + [NewTable(name, lines)], other, i)
    {
      NewTableNamed(rs, name, lines, other, i);
    }
  }

  // ---- The edits of Compatibility V1 ----

  /** Where `multi_agent_v2` is: in its own table or not, as an inline table or not, at which line. */
  datatype V2Plan = V2Plan(inTable: bool, inline: bool, at: Option<nat>)

  /**
   * Where everything is: the three tables, the three settings, where a new depth line goes, and which
   * separators are written.
   */
  datatype Plan = Plan(features: Option<nat>, v2Table: Option<nat>, agents: Option<nat>,
                       multiAgent: Option<nat>, v2: V2Plan, depth: Option<nat>, slot: nat,
                       featuresGap: bool, agentsGap: bool)

  ghost predicate TableAt(rs: seq<Region>, name: string, k: Option<nat>) {
    if k.Some? then Only(rs, name, k.value) else Absent(rs, name)
  }

  /** The region of `[features]`, or the one it will get. */
  function FeaturesRegion(rs: seq<Region>, p: Plan): nat {
    if p.features.Some? then p.features.value else |rs|
  }

  /** The plan describes the file. */
  ghost predicate Describes(rs: seq<Region>, p: Plan) {
    && WellFormed(rs)
    && TableAt(rs, FEATURES, p.features) && TableAt(rs, V2_TABLE, p.v2Table) && TableAt(rs, AGENTS, p.agents)
    && (p.features.Some? ==> Place(rs[p.features.value].body, MULTI_AGENT, p.multiAgent))
    && (p.features.None? ==> p.multiAgent.None?)
    && (p.v2.inTable <==> p.v2Table.Some?)
    && (p.v2.inTable ==> !p.v2.inline && Place(rs[p.v2Table.value].body, ENABLED, p.v2.at))
    && (p.v2.inTable && p.features.Some? ==> Nowhere(rs[p.features.value].body, MULTI_AGENT_V2))
    && (!p.v2.inTable && p.features.Some? ==> Place(rs[p.features.value].body, MULTI_AGENT_V2, p.v2.at))
    && (!p.v2.inTable && p.features.None? ==> p.v2.at.None?)
    && (p.v2.inline ==> p.v2.at.Some?)
    && (!p.v2.inTable && p.multiAgent.Some? ==> p.multiAgent != p.v2.at)
    && (p.agents.Some? ==> Place(rs[p.agents.value].body, MAX_DEPTH, p.depth))
    && (p.agents.Some? && p.depth.None? ==> p.slot <= |rs[p.agents.value].body|)
    && (p.agents.None? ==> p.depth.None?)
  }

  /** An empty line at the end, when one is written. */
  function Gapped(rs: seq<Region>, gap: bool): seq<Region>
    requires rs != []
  {
    if gap then WithBody(rs, |rs| - 1, rs[|rs| - 1].body + [Own("")]) else rs
  }

  function PutMultiAgent(rs: seq<Region>, p: Plan): seq<Region>
    requires rs != [] && (p.features.Some? ==> p.features.value < |rs|)
    requires p.features.Some? && p.multiAgent.Some? ==> p.multiAgent.value < |rs[p.features.value].body|
  {
    if p.features.Some? then
      var k := p.features.value;
      WithBody(rs, k, PutIn(rs[k].body, p.multiAgent, |rs[k].body|, MultiAgentLine()))
    else Gapped(rs, p.featuresGap) + [NewTable(FEATURES, [MultiAgentLine()])]
  }

  /** The region `multi_agent_v2` is set in. */
  function V2Region(rs: seq<Region>, p: Plan): nat {
    if p.v2.inTable && p.v2Table.Some? then p.v2Table.value else FeaturesRegion(rs, p)
  }

  function PutV2(rs: seq<Region>, k: nat, at: Option<nat>, line: string): seq<Region>
    requires k < |rs| && (at.Some? ==> at.value < |rs[k].body|)
  {
    WithBody(rs, k, PutIn(rs[k].body, at, |rs[k].body|, line))
  }

  function PutDepth(rs: seq<Region>, p: Plan, line: string): seq<Region>
    requires rs != [] && (p.agents.Some? ==> p.agents.value < |rs|)
    requires p.agents.Some? && p.depth.Some? ==> p.depth.value < |rs[p.agents.value].body|
    requires p.agents.Some? && p.depth.None? ==> p.slot <= |rs[p.agents.value].body|
  {
    if p.agents.Some? then
      var k := p.agents.value;
      WithBody(rs, k, PutIn(rs[k].body, p.depth, p.slot, line))
    else Gapped(rs, p.agentsGap) + [NewTable(AGENTS, [line])]
  }

  /** Tables are regions after the first, and different tables different regions. */
  lemma {:induction false} PlanBounds(rs: seq<Region>, p: Plan)
    requires Describes(rs, p)
    ensures p.features.Some? ==> 1 <= p.features.value < |rs| && p.features != p.v2Table && p.features != p.agents
    ensures p.v2Table.Some? ==> 1 <= p.v2Table.value < |rs| && p.v2Table != p.agents
    ensures p.agents.Some? ==> 1 <= p.agents.value < |rs|
  {
    hide IsTable, IsHeader, Place;
    Names();
    if p.features.Some? && p.features == p.v2Table {
      OneTable(rs[p.features.value].head[0].line, FEATURES, V2_TABLE);
    }
    if p.features.Some? && p.features == p.agents {
      OneTable(rs[p.features.value].head[0].line, FEATURES, AGENTS);
    }
    if p.v2Table.Some? && p.v2Table == p.agents {
      OneTable(rs[p.v2Table.value].head[0].line, V2_TABLE, AGENTS);
    }
  }

  lemma {:induction false} DescribesBounds(rs: seq<Region>, p: Plan)
    requires Describes(rs, p)
    ensures rs != []
    ensures p.agents.Some? && p.depth.Some? ==> p.depth.value < |rs[p.agents.value].body|
    ensures p.agents.Some? && p.depth.None? ==> p.slot <= |rs[p.agents.value].body|
    ensures p.features.Some? && p.multiAgent.Some? ==> p.multiAgent.value < |rs[p.features.value].body|
  {
    PlanBounds(rs, p);
  }

  // ---- Taking the edits back, as regions ----

  /** What a gap appended to a region. */
  function Gap(gap: bool): seq<TLine> {
    if gap then [Own("")] else []
  }

  /** What the agents table adds below region `k` when it is new. */
  function GapUnder(rs: seq<Region>, p: Plan, k: nat): seq<TLine> {
    if p.agents.None? && k == |rs| - 1 then Gap(p.agentsGap) else []
  }

  /** The depth edit leaves every other region's body, but for its gap under the last one. */
  lemma {:induction false} DepthFrame(rs: seq<Region>, p: Plan, line: string, k: nat, b: seq<TLine>)
    requires k < |rs| && p.agents != Some(k) && (p.agents.Some? ==> p.agents.value < |rs|)
    requires p.agents.Some? && p.depth.Some? ==> p.depth.value < |rs[p.agents.value].body|
    requires p.agents.Some? && p.depth.None? ==> p.slot <= |rs[p.agents.value].body|
    ensures var r := PutDepth(rs, p, line);
      && k < |r| && r[k].body == rs[k].body + GapUnder(rs, p, k)
      && WithBody(r, k, b + GapUnder(rs, p, k)) == PutDepth(WithBody(rs, k, b), p, line)
  {
    hide NewTable;
    assert rs[k].body + [] == rs[k].body && b + [] == b;
  }
}
